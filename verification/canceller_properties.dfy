/**
 What a run of the deploy canceller promises: one lemma per exit path of
 `CoreLogic`, the identity of the rollout it inspects, the classification of
 phases, idempotence of the cancel mark, and the irrelevance of the build's
 result to anything but the log.
 */
module DeployCancellerProperties {
  import opened Wrappers
  import opened AsciiCase
  import opened Decimal
  import opened Cluster
  import opened BuildHost
  import opened DeployCanceller

  /** The rollout phases the platform uses. */
  datatype Phase = New | Pending | Running | Complete | Failed | PhaseCancelled {
    predicate Terminal() { Complete? || Failed? || PhaseCancelled? }
  }

  function PhaseName(p: Phase): string {
    match p
    case New => "New"
    case Pending => "Pending"
    case Running => "Running"
    case Complete => "Complete"
    case Failed => "Failed"
    case PhaseCancelled => "Cancelled"
  }

  // ---------------------------------------------------------------------------
  // Phase classification

  /** The case folds of the three terminal names. */
  lemma LowerFailed()
    ensures Lower("Failed") == "failed"
  {
  }

  lemma LowerComplete()
    ensures Lower("Complete") == "complete"
  {
  }

  lemma LowerCancelled()
    ensures Lower("Cancelled") == "cancelled"
  {
  }

  /** A phase is terminal exactly when its case fold is one of the three terminal names. */
  lemma TerminalPhaseIffFold(s: string)
    ensures IsTerminalPhase(s) <==> Lower(s) in {"failed", "complete", "cancelled"}
  {
    LowerFailed();
    LowerComplete();
    LowerCancelled();
    EqualsIgnoreCaseIffSameFold(s, "Failed");
    EqualsIgnoreCaseIffSameFold(s, "Complete");
    EqualsIgnoreCaseIffSameFold(s, "Cancelled");
  }

  /** Any spelling of a known phase, in any letter case, is classified as that
      phase is: Complete, Failed and Cancelled are terminal; New, Pending and
      Running are not. */
  lemma KnownPhaseClassification(p: Phase, s: string)
    requires EqualsIgnoreCase(s, PhaseName(p))
    ensures IsTerminalPhase(s) <==> p.Terminal()
  {
    // The non-terminal names are 3 or 7 characters long, the terminal ones 6, 8
    // and 9, and a case-insensitive match needs equal lengths.
  }

  // ---------------------------------------------------------------------------
  // Rollout identity

  /** The configuration "frontend" at version 7 has the rollout "frontend-7". */
  lemma RolloutIdExample()
    ensures RolloutId("frontend", 7) == "frontend-7"
  {
  }

  /** In "name-digits" the separator sits after a longer name only if it is a
      digit of the shorter name's suffix, which it is not. */
  lemma LongerNameMovesSeparator(d1: string, s1: string, d2: string, s2: string)
    requires AllDigits(s1) && |d1| < |d2|
    ensures d1 + "-" + s1 != d2 + "-" + s2
  {
    if |d1| + |s1| == |d2| + |s2| {
      var k := |d2|;
      assert (d2 + "-" + s2)[k] == '-';
      assert (d1 + "-" + s1)[k] == s1[k - |d1| - 1];
    }
  }

  /** Splitting "name-digits" at its last '-' recovers the name and the digits. */
  lemma SplitAtLastDash(d1: string, s1: string, d2: string, s2: string)
    requires AllDigits(s1) && AllDigits(s2)
    requires d1 + "-" + s1 == d2 + "-" + s2
    ensures d1 == d2 && s1 == s2
  {
    var id := d1 + "-" + s1;
    if |d1| < |d2| {
      LongerNameMovesSeparator(d1, s1, d2, s2);
    } else if |d2| < |d1| {
      LongerNameMovesSeparator(d2, s2, d1, s1);
    } else {
      assert d1 == id[..|d1|] == d2;
      assert s1 == id[|d1| + 1..] == s2;
    }
  }

  /** For non-negative versions the rollout name determines both the config name
      and the version it was derived from. */
  lemma RolloutIdDeterminesConfig(d1: string, v1: int, d2: string, v2: int)
    requires v1 >= 0 && v2 >= 0
    ensures RolloutId(d1, v1) == RolloutId(d2, v2) <==> d1 == d2 && v1 == v2
  {
    if RolloutId(d1, v1) == RolloutId(d2, v2) {
      SplitAtLastDash(d1, IntToString(v1), d2, IntToString(v2));
      IntToStringInjective(v1, v2);
    }
  }

  /** A negative version breaks that: config "a" at version -1 and config "a-"
      at version 1 derive the same rollout name. */
  lemma RolloutIdCollidesForNegativeVersion()
    ensures RolloutId("a", -1) == RolloutId("a-", 1) == "a--1"
  {
  }

  /** Once the config is found, the second call looks up exactly
      `depCfg + "-" + latestVersion` as a replication controller in the
      configured namespace. */
  lemma RolloutLookupIdentity(cfg: Config, result: Option<BuildResult>, updateAccepted: bool, cluster: State)
    requires Get(cluster, ConfigRef(cfg)).Some?
    ensures var run := CoreLogic(cfg, result, true, updateAccepted, cluster);
            var v := cluster[ConfigRef(cfg)].latestVersion;
            && |run.calls| >= 2
            && run.calls[0] == GetCall(Ref(DeploymentConfigKind, cfg.depCfg, cfg.namespace))
            && run.calls[1] == GetCall(Ref(ReplicationControllerKind, cfg.depCfg + "-" + IntToString(v), cfg.namespace))
  {
  }

  // ---------------------------------------------------------------------------
  // Exit paths

  /** Without a client nothing is looked up or updated and the action returns false. */
  lemma NoClientRun(cfg: Config, result: Option<BuildResult>, updateAccepted: bool, cluster: State)
    ensures var run := CoreLogic(cfg, result, false, updateAccepted, cluster);
            && run.outcome == NoClient
            && !run.outcome.Threw() && !run.outcome.Returned()
            && run.calls == []
            && run.cluster == cluster
            && run.log[|run.log| - 1] == ExitNoClient(cfg.apiURL)
  {
  }

  /** A missing deployment config costs exactly one lookup, no update, and the
      action returns false. */
  lemma ConfigMissingRun(cfg: Config, result: Option<BuildResult>, updateAccepted: bool, cluster: State)
    requires Get(cluster, ConfigRef(cfg)).None?
    ensures var run := CoreLogic(cfg, result, true, updateAccepted, cluster);
            && run.outcome == ConfigMissing
            && !run.outcome.Threw() && !run.outcome.Returned()
            && run.calls == [GetCall(ConfigRef(cfg))]
            && run.cluster == cluster
  {
  }

  /** A missing rollout costs two lookups, no update, and the action returns false. */
  lemma RolloutMissingRun(cfg: Config, result: Option<BuildResult>, updateAccepted: bool, cluster: State)
    requires Get(cluster, ConfigRef(cfg)).Some?
    requires Get(cluster, RolloutRef(cfg, cluster[ConfigRef(cfg)].latestVersion)).None?
    ensures var run := CoreLogic(cfg, result, true, updateAccepted, cluster);
            && run.outcome == RolloutMissing
            && !run.outcome.Threw() && !run.outcome.Returned()
            && |run.calls| == 2 && NoUpdates(run.calls)
            && run.cluster == cluster
  {
  }

  /** A rollout without a phase annotation ends the run with an exception after
      the two lookups; nothing is updated and no exit line is written. */
  lemma PhaseMissingRun(cfg: Config, result: Option<BuildResult>, updateAccepted: bool, cluster: State)
    requires Get(cluster, ConfigRef(cfg)).Some?
    requires var rcRef := RolloutRef(cfg, cluster[ConfigRef(cfg)].latestVersion);
             Get(cluster, rcRef).Some? && PhaseAnnotation !in cluster[rcRef].annotations
    ensures var run := CoreLogic(cfg, result, true, updateAccepted, cluster);
            && run.outcome == PhaseMissing && run.outcome.Threw()
            && |run.calls| == 2 && NoUpdates(run.calls)
            && run.cluster == cluster
            && forall i :: 0 <= i < |run.log| ==> !run.log[i].IsExit()
  {
  }

  /** A rollout in a terminal phase is left alone: no update, the action returns
      true, and running again on the resulting state repeats the run exactly. */
  lemma TerminalPhaseRun(cfg: Config, result: Option<BuildResult>, updateAccepted: bool, cluster: State)
    requires Get(cluster, ConfigRef(cfg)).Some?
    requires var rcRef := RolloutRef(cfg, cluster[ConfigRef(cfg)].latestVersion);
             && Get(cluster, rcRef).Some?
             && PhaseAnnotation in cluster[rcRef].annotations
             && IsTerminalPhase(cluster[rcRef].annotations[PhaseAnnotation])
    ensures var run := CoreLogic(cfg, result, true, updateAccepted, cluster);
            var rcRef := RolloutRef(cfg, cluster[ConfigRef(cfg)].latestVersion);
            && run.outcome == NotInProgress(cluster[rcRef].annotations[PhaseAnnotation])
            && !run.outcome.Threw() && run.outcome.Returned()
            && NoUpdates(run.calls)
            && run.cluster == cluster
            && CoreLogic(cfg, result, true, updateAccepted, run.cluster) == run
  {
  }

  /** A rollout in any other phase gets exactly one update, as the last call,
      carrying its annotations with the two cancel marks. When the server accepts
      it, the action returns true and only that rollout's two annotations
      change; when it refuses, the update's exception ends the run and the
      server's state is as before. */
  lemma ActivePhaseRun(cfg: Config, result: Option<BuildResult>, updateAccepted: bool, cluster: State)
    requires Get(cluster, ConfigRef(cfg)).Some?
    requires var rcRef := RolloutRef(cfg, cluster[ConfigRef(cfg)].latestVersion);
             && Get(cluster, rcRef).Some?
             && PhaseAnnotation in cluster[rcRef].annotations
             && !IsTerminalPhase(cluster[rcRef].annotations[PhaseAnnotation])
    ensures var run := CoreLogic(cfg, result, true, updateAccepted, cluster);
            var v := cluster[ConfigRef(cfg)].latestVersion;
            var rcRef := RolloutRef(cfg, v);
            var before := cluster[rcRef].annotations;
            && |run.calls| == 3
            && run.calls[2] == UpdateCall(rcRef, MarkCancelled(before))
            && (updateAccepted ==>
                  && run.outcome == Cancelled(RolloutId(cfg.depCfg, v))
                  && !run.outcome.Threw() && run.outcome.Returned()
                  && run.cluster.Keys == cluster.Keys
                  && run.cluster[rcRef].ReplicationController?
                  && var after := run.cluster[rcRef].annotations;
                     && after[CancelledAnnotation] == "true"
                     && after[StatusReasonAnnotation] == "The deployment was cancelled by the user"
                     && after.Keys == before.Keys + {CancelledAnnotation, StatusReasonAnnotation}
                     && (forall k :: k in before && k != CancelledAnnotation && k != StatusReasonAnnotation ==> after[k] == before[k])
                     && (forall ref :: ref in cluster && ref != rcRef ==> run.cluster[ref] == cluster[ref]))
            && (!updateAccepted ==> run.outcome == UpdateFailed && run.outcome.Threw() && run.cluster == cluster)
  {
  }

  /** A client was obtained, and both the config and its latest rollout exist. */
  predicate RolloutFound(cfg: Config, hasClient: bool, cluster: State) {
    && hasClient
    && Get(cluster, ConfigRef(cfg)).Some?
    && Get(cluster, RolloutRef(cfg, cluster[ConfigRef(cfg)].latestVersion)).Some?
  }

  function FoundRollout(cfg: Config, cluster: State): (rc: Resource)
    requires RolloutFound(cfg, true, cluster)
    ensures rc.ReplicationController?
  {
    cluster[RolloutRef(cfg, cluster[ConfigRef(cfg)].latestVersion)]
  }

  /** The action returns true exactly when the rollout was found with a phase
      and either that phase was terminal or the server accepted the cancel;
      it returns false exactly on a missing client, config or rollout. */
  lemma ReturnValueCharacterisation(cfg: Config, result: Option<BuildResult>, hasClient: bool,
                                    updateAccepted: bool, cluster: State)
    ensures var run := CoreLogic(cfg, result, hasClient, updateAccepted, cluster);
            (!run.outcome.Threw() && !run.outcome.Returned()) <==> !RolloutFound(cfg, hasClient, cluster)
    ensures var run := CoreLogic(cfg, result, hasClient, updateAccepted, cluster);
            (!run.outcome.Threw() && run.outcome.Returned()) <==>
              && RolloutFound(cfg, hasClient, cluster)
              && var a := FoundRollout(cfg, cluster).annotations;
                 PhaseAnnotation in a && (IsTerminalPhase(a[PhaseAnnotation]) || updateAccepted)
  {
  }

  // ---------------------------------------------------------------------------
  // The cancel mark

  /** Marking a rollout that already carries both marks leaves its annotations as they are. */
  lemma AlreadyMarkedUnchanged(a: Annotations)
    requires CancelledAnnotation in a && a[CancelledAnnotation] == CancelledValue
    requires StatusReasonAnnotation in a && a[StatusReasonAnnotation] == StatusReasonValue
    ensures MarkCancelled(a) == a
  {
  }

  /** Marking twice is marking once. */
  lemma MarkCancelledIdempotent(a: Annotations)
    ensures MarkCancelled(MarkCancelled(a)) == MarkCancelled(a)
  {
  }

  /** The canceller never writes the phase: marking keeps it as it was. */
  lemma MarkCancelledKeepsPhase(a: Annotations)
    ensures PhaseAnnotation in MarkCancelled(a) <==> PhaseAnnotation in a
    ensures PhaseAnnotation in a ==> MarkCancelled(a)[PhaseAnnotation] == a[PhaseAnnotation]
  {
  }

  /** Re-running after a successful cancel, before the platform has moved the
      phase on, sends the same update again and leaves the server's state as the
      first run left it. */
  lemma CancelIsStable(cfg: Config, result: Option<BuildResult>, cluster: State)
    requires CoreLogic(cfg, result, true, true, cluster).outcome.Cancelled?
    ensures var first := CoreLogic(cfg, result, true, true, cluster);
            var second := CoreLogic(cfg, result, true, true, first.cluster);
            && second.outcome == first.outcome
            && second.calls[2] == first.calls[2]
            && second.cluster == first.cluster
  {
  }

  /** Once the platform has moved a cancelled rollout to a terminal phase, a
      second run is a no-op that still returns true. */
  lemma SecondRunAfterTransition(cfg: Config, result: Option<BuildResult>, cluster: State, phase: string)
    requires Get(cluster, ConfigRef(cfg)).Some?
    requires CoreLogic(cfg, result, true, true, cluster).outcome.Cancelled?
    requires IsTerminalPhase(phase)
    ensures var first := CoreLogic(cfg, result, true, true, cluster);
            var rcRef := RolloutRef(cfg, cluster[ConfigRef(cfg)].latestVersion);
            var moved := first.cluster[rcRef := ReplicationController(
                           first.cluster[rcRef].annotations[PhaseAnnotation := phase])];
            var second := CoreLogic(cfg, result, true, true, moved);
            && second.outcome == NotInProgress(phase)
            && NoUpdates(second.calls)
            && second.cluster == moved
  {
  }

  // ---------------------------------------------------------------------------
  // The build result and the log

  /** The build's result is only logged: it changes neither the outcome, nor the
      calls, nor the server's state, and the logs agree after the build line. */
  lemma BuildResultOnlyLogged(cfg: Config, r1: Option<BuildResult>, r2: Option<BuildResult>,
                              hasClient: bool, updateAccepted: bool, cluster: State)
    ensures var run1 := CoreLogic(cfg, r1, hasClient, updateAccepted, cluster);
            var run2 := CoreLogic(cfg, r2, hasClient, updateAccepted, cluster);
            && run1.outcome == run2.outcome
            && run1.calls == run2.calls
            && run1.cluster == run2.cluster
            && |BuildLines(cfg.verbose, r1)| == |BuildLines(cfg.verbose, r2)|
            && run1.log[|BuildLines(cfg.verbose, r1)|..] == run2.log[|BuildLines(cfg.verbose, r2)|..]
  {
  }

  /** The start banner is written on every run, verbose or not; an exit line
      follows it exactly when the run returns rather than throws. Only the build
      line depends on the verbose setting. */
  lemma LogShape(cfg: Config, result: Option<BuildResult>, hasClient: bool,
                 updateAccepted: bool, cluster: State)
    ensures var run := CoreLogic(cfg, result, hasClient, updateAccepted, cluster);
            var n := |BuildLines(cfg.verbose, result)|;
            && (n == 1 <==> ParseBoolean(cfg.verbose))
            && (n == 0 <==> !ParseBoolean(cfg.verbose))
            && run.log[n] == Starting(cfg.depCfg, cfg.namespace)
            && (run.outcome.Threw() ==> |run.log| == n + 1)
            && (!run.outcome.Threw() ==> |run.log| == n + 2 && run.log[n + 1].IsExit())
  {
  }

  /** Verbose runs report a bad build exactly for results worse than success. */
  lemma BuildLineReportsFailure(verbose: Option<string>, result: Option<BuildResult>)
    requires ParseBoolean(verbose)
    ensures BuildLines(verbose, result) == [BuildDidNotSucceed] <==>
            result.Some? && result.value != Success
  {
  }

  // ---------------------------------------------------------------------------
  // End to end

  /** Config "frontend" in "ns1" at version 3 whose rollout "frontend-3" is
      Running: one update carrying both marks, the action returns true and the
      last line reports "frontend-3" cancelled. */
  lemma FrontendScenario(other: Annotations, result: Option<BuildResult>)
    ensures var cfg := Config("https://api.example", "frontend", "ns1", Some("false"));
            var dcRef := Ref(DeploymentConfigKind, "frontend", "ns1");
            var rcRef := Ref(ReplicationControllerKind, "frontend-3", "ns1");
            var rc := other[PhaseAnnotation := "Running"];
            var cluster := map[dcRef := DeploymentConfig(3), rcRef := ReplicationController(rc)];
            var run := CoreLogic(cfg, result, true, true, cluster);
            && run.calls == [GetCall(dcRef), GetCall(rcRef), UpdateCall(rcRef, MarkCancelled(rc))]
            && run.outcome == Cancelled("frontend-3") && run.outcome.Returned()
            && run.log[|run.log| - 1] == ExitCancelled("frontend-3")
  {
    var cfg := Config("https://api.example", "frontend", "ns1", Some("false"));
    var dcRef := Ref(DeploymentConfigKind, "frontend", "ns1");
    var rcRef := Ref(ReplicationControllerKind, "frontend-3", "ns1");
    var rc := other[PhaseAnnotation := "Running"];
    var cluster := map[dcRef := DeploymentConfig(3), rcRef := ReplicationController(rc)];
    assert RolloutId("frontend", 3) == "frontend-3";
    assert ConfigRef(cfg) == dcRef && RolloutRef(cfg, 3) == rcRef;
    assert Get(cluster, dcRef) == Some(DeploymentConfig(3));
    assert Get(cluster, rcRef) == Some(ReplicationController(rc));
    assert !IsTerminalPhase("Running");
  }

}
