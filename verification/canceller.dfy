/**
 The deploy canceller's decision procedure: find the deployment config, derive
 the identity of its latest rollout, read that rollout's phase, and, unless the
 phase is terminal, mark the rollout cancelled and send it back to the server.

 The procedure is a pure function of its inputs. Whether the client factory
 produced a client and whether the server accepts the update are parameters; the
 result carries the outcome, the server's state afterwards, the remote calls made
 and the log lines written.
 */
module DeployCanceller {
  import opened Wrappers
  import opened AsciiCase
  import opened Decimal
  import opened Cluster
  import opened BuildHost

  const PhaseAnnotation := "openshift.io/deployment.phase"
  const CancelledAnnotation := "openshift.io/deployment.cancelled"
  const StatusReasonAnnotation := "openshift.io/deployment.status-reason"
  const CancelledValue := "true"
  const StatusReasonValue := "The deployment was cancelled by the user"

  /** The action's configured fields; `verbose` may be null. */
  datatype Config = Config(apiURL: string, depCfg: string, namespace: string, verbose: Option<string>)

  /** Which line the action wrote; the wording of each line is not modelled. */
  datatype LogLine =
    | BuildDidNotSucceed
    | BuildSucceeded(result: Option<BuildResult>)
    | Starting(depCfg: string, namespace: string)
    | ExitNoClient(apiURL: string)
    | ExitConfigMissing(depCfg: string)
    | ExitRolloutMissing(repId: string)
    | ExitNotInProgress(repId: string, phase: string)
    | ExitCancelled(repId: string)
  {
    predicate IsExit() {
      ExitNoClient? || ExitConfigMissing? || ExitRolloutMissing? || ExitNotInProgress? || ExitCancelled?
    }
  }

  /** How a run ended. `UpdateFailed` is the exception thrown by the update call;
      `PhaseMissing` is the null dereference when the rollout has no phase annotation. */
  datatype Outcome =
    | NoClient
    | ConfigMissing
    | RolloutMissing
    | NotInProgress(phase: string)
    | Cancelled(repId: string)
    | UpdateFailed
    | PhaseMissing
  {
    /** The run ended by an exception rather than by returning. */
    predicate Threw() {
      UpdateFailed? || PhaseMissing?
    }

    /** The boolean the action returns to the host. */
    function Returned(): bool
      requires !Threw()
    {
      NotInProgress? || Cancelled?
    }
  }

  datatype Run = Run(outcome: Outcome, cluster: State, calls: seq<Call>, log: seq<LogLine>)

  /** The deployment config the action is configured for. */
  function ConfigRef(cfg: Config): Ref {
    Ref(DeploymentConfigKind, cfg.depCfg, cfg.namespace)
  }

  /** The name of a config's rollout with the given version number. */
  function RolloutId(depCfg: string, version: int): string {
    depCfg + "-" + IntToString(version)
  }

  function RolloutRef(cfg: Config, version: int): Ref {
    Ref(ReplicationControllerKind, RolloutId(cfg.depCfg, version), cfg.namespace)
  }

  /** A rollout phase at which there is nothing left to cancel. */
  predicate IsTerminalPhase(phase: string) {
    || EqualsIgnoreCase(phase, "Failed")
    || EqualsIgnoreCase(phase, "Complete")
    || EqualsIgnoreCase(phase, "Cancelled")
  }

  /** The two annotations that ask the platform to cancel a rollout, added to
      (or overwriting) whatever the rollout carried; nothing else changes. */
  function MarkCancelled(a: Annotations): (r: Annotations)
    ensures r.Keys == a.Keys + {CancelledAnnotation, StatusReasonAnnotation}
    ensures r[CancelledAnnotation] == CancelledValue
    ensures r[StatusReasonAnnotation] == StatusReasonValue
    ensures forall k :: k in a && k != CancelledAnnotation && k != StatusReasonAnnotation ==> r[k] == a[k]
  {
    a[CancelledAnnotation := CancelledValue][StatusReasonAnnotation := StatusReasonValue]
  }

  /** The lines written before the start banner: one line about the build's
      result, and only when verbose. */
  function BuildLines(verbose: Option<string>, result: Option<BuildResult>): seq<LogLine> {
    if !ParseBoolean(verbose) then []
    else if result.Some? && IsWorseThan(result.value, Success) then [BuildDidNotSucceed]
    else [BuildSucceeded(result)]
  }

  /** `after` differs from `before` at most by cancel marks on replication controllers. */
  ghost predicate OnlyCancelMarks(before: State, after: State) {
    && before.Keys == after.Keys
    && forall ref :: ref in before ==>
         || after[ref] == before[ref]
         || (before[ref].ReplicationController?
             && after[ref] == ReplicationController(MarkCancelled(before[ref].annotations)))
  }

  /** Only the last call of a run may be an update, so a run makes at most one. */
  ghost predicate UpdateOnlyLast(calls: seq<Call>) {
    forall i :: 0 <= i < |calls| && calls[i].UpdateCall? ==> i == |calls| - 1
  }

  /** Lines 64-105 of `coreLogic`: everything after the start banner. The
      returned log holds only the exit line, if any. */
  function Decide(cfg: Config, hasClient: bool, updateAccepted: bool, cluster: State): (run: Run)
    ensures OnlyCancelMarks(cluster, run.cluster)
    ensures run.cluster != cluster ==> run.outcome.Cancelled?
    ensures UpdateOnlyLast(run.calls)
    ensures |run.calls| <= 3
    ensures run.outcome.NoClient? <==> run.calls == []
    ensures run.outcome.Threw() ==> run.log == []
    ensures !run.outcome.Threw() ==> |run.log| == 1 && run.log[0].IsExit()
  {
    if !hasClient then
      Run(NoClient, cluster, [], [ExitNoClient(cfg.apiURL)])
    else
      var dcRef := ConfigRef(cfg);
      match Get(cluster, dcRef)
      case None =>
        Run(ConfigMissing, cluster, [GetCall(dcRef)], [ExitConfigMissing(cfg.depCfg)])
      case Some(dc) =>
        var repId := RolloutId(cfg.depCfg, dc.latestVersion);
        var rcRef := RolloutRef(cfg, dc.latestVersion);
        var lookups := [GetCall(dcRef), GetCall(rcRef)];
        match Get(cluster, rcRef)
        case None =>
          Run(RolloutMissing, cluster, lookups, [ExitRolloutMissing(repId)])
        case Some(rc) =>
          if PhaseAnnotation !in rc.annotations then
            Run(PhaseMissing, cluster, lookups, [])
          else
            var phase := rc.annotations[PhaseAnnotation];
            if IsTerminalPhase(phase) then
              Run(NotInProgress(phase), cluster, lookups, [ExitNotInProgress(repId, phase)])
            else
              var marked := MarkCancelled(rc.annotations);
              var calls := lookups + [UpdateCall(rcRef, marked)];
              if updateAccepted then
                Run(Cancelled(repId), cluster[rcRef := ReplicationController(marked)], calls,
                    [ExitCancelled(repId)])
              else
                Run(UpdateFailed, cluster, calls, [])
  }

  /** `coreLogic`. `result` is the build's result (null when unknown),
      `hasClient` whether the client factory produced a client and
      `updateAccepted` whether the server accepts the update call. The build
      line (when verbose) and the start banner precede whatever `Decide` logs. */
  function CoreLogic(cfg: Config, result: Option<BuildResult>, hasClient: bool,
                     updateAccepted: bool, cluster: State): (run: Run)
    ensures OnlyCancelMarks(cluster, run.cluster)
    ensures run.cluster != cluster ==> run.outcome.Cancelled?
    ensures UpdateOnlyLast(run.calls)
    ensures |run.calls| <= 3
    ensures run.outcome.NoClient? <==> run.calls == []
  {
    var d := Decide(cfg, hasClient, updateAccepted, cluster);
    Run(d.outcome, d.cluster, d.calls, BuildLines(cfg.verbose, result) + [Starting(cfg.depCfg, cfg.namespace)] + d.log)
  }

}
