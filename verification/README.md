# Deploy canceller: a Dafny model

This project models the "Cancel OpenShift Deployment" post-build action of the
OpenShift pipeline plugin for Jenkins. After a build, whatever its result, the
action does the following:

1. It obtains a client for the cluster's API server.
2. It reads the configured DeploymentConfig.
3. It derives the name of the config's latest rollout, `depCfg + "-" + latestVersion`.
4. It reads that ReplicationController.
5. If the rollout's `openshift.io/deployment.phase` annotation is not one of
   Failed, Complete or Cancelled (ignoring case), it sets
   `openshift.io/deployment.cancelled = "true"` and
   `openshift.io/deployment.status-reason = "The deployment was cancelled by the user"`,
   then sends the rollout back with one update call.

`DeployCanceller.CoreLogic` is that procedure as a pure function. Its inputs are:

- the action's configuration;
- the build's result;
- whether the client factory produced a client;
- whether the server accepts the update;
- the server's state: every resource, keyed by kind, name and namespace.

It returns a `Run` with four parts:

- the outcome;
- the server's state afterwards;
- the remote calls made, each a `GetCall` or an `UpdateCall`;
- the log lines written.

The outcome is one of `NoClient`, `ConfigMissing`, `RolloutMissing`,
`NotInProgress(phase)`, `Cancelled(repId)`, `UpdateFailed` or `PhaseMissing`. The
last two are the exceptions the action lets escape. `Outcome.Returned` gives the
boolean the action returns in the other five cases.

Modules:

- `AsciiCase` models `String.equalsIgnoreCase`, restricted to ASCII. Its
  per-character test follows `String.regionMatches`.
- `Decimal` models the `Integer.toString` rendering that the rollout name uses,
  together with the parser it is proved against.
- `Cluster` models resources, typed reads and the call trace.
- `BuildHost` models Jenkins' `Result` ordering and `Boolean.parseBoolean`.
- `DeployCanceller` holds the procedure itself.
- `DeployCancellerProperties` holds the lemmas about it.

Two behaviours of the code are worth stating explicitly:

- **Log lines and verbosity.** The start banner (`OpenShiftDeployCanceller.java:62`)
  and every exit line (`:75`, `:86`, `:95`, `:98`, `:103`) are written whether or
  not `verbose` is set. Only the build-result line (`:55-59`) depends on it.
  `LogShape` states this.
- **Missing phase annotation.** A rollout with no phase annotation makes
  `state.equalsIgnoreCase` at `:85` throw. Nothing is updated and no exit line is
  written. This is the `PhaseMissing` outcome.

## Model

| member | source | states |
|---|---|---|
| AsciiCase.Lower | src/main/java/com/openshift/jenkins/plugins/pipeline/OpenShiftDeployCanceller.java:85 | The ASCII case fold keeps the length of its string and lower-cases each character in place |
| AsciiCase.EqualsIgnoreCaseIffSameFold | src/main/java/com/openshift/jenkins/plugins/pipeline/OpenShiftDeployCanceller.java:85 | The case-insensitive phase comparison (`EqualsIgnoreCase`, which follows the per-character test of `String.regionMatches`) holds exactly when the ASCII lower-case folds of the two strings are equal, in both directions |
| AsciiCase.EqualsIgnoreCaseIsEquivalence | src/main/java/com/openshift/jenkins/plugins/pipeline/OpenShiftDeployCanceller.java:85 | The case-insensitive comparison is reflexive, symmetric and transitive |
| Decimal.NatToString | src/main/java/com/openshift/jenkins/plugins/pipeline/OpenShiftDeployCanceller.java:80 | The version's decimal rendering is non-empty, all digits, has no leading zero, and is one character exactly for values below ten |
| Decimal.IntToString | src/main/java/com/openshift/jenkins/plugins/pipeline/OpenShiftDeployCanceller.java:79-80 | The rendering of a Java int starts with '-' exactly when the int is negative, and the rest is digits |
| Decimal.NatToStringValue | src/main/java/com/openshift/jenkins/plugins/pipeline/OpenShiftDeployCanceller.java:80 | The rendered digits denote the number rendered |
| Decimal.IntToStringRoundTrip | src/main/java/com/openshift/jenkins/plugins/pipeline/OpenShiftDeployCanceller.java:79-80 | Parsing the rendered version gives the version back |
| Decimal.IntToStringInjective | src/main/java/com/openshift/jenkins/plugins/pipeline/OpenShiftDeployCanceller.java:79-80 | Two versions render the same exactly when they are equal |
| Cluster.Get | src/main/java/com/openshift/jenkins/plugins/pipeline/OpenShiftDeployCanceller.java:72-81 | A typed lookup yields exactly the stored resource, and only one of the requested kind. A stored resource of the requested kind is always found, so null means absent, as the checks at `:74` and `:83` assume |
| DeployCanceller.MarkCancelled | src/main/java/com/openshift/jenkins/plugins/pipeline/OpenShiftDeployCanceller.java:90-91 | The cancel mark adds the two fixed annotations with their fixed values and keeps every other annotation key and value |
| DeployCanceller.Decide | src/main/java/com/openshift/jenkins/plugins/pipeline/OpenShiftDeployCanceller.java:64-105 | After the banner: the server changes only by a cancel mark on a replication controller, and only when the outcome is Cancelled. An update can only be the last of at most three calls. No calls are made exactly when there is no client. A returning run logs exactly one exit line and a throwing run logs none |
| DeployCanceller.CoreLogic | src/main/java/com/openshift/jenkins/plugins/pipeline/OpenShiftDeployCanceller.java:49-107 | The whole action changes the server only by a cancel mark, and only with outcome Cancelled. It makes at most three calls, and only the last may be an update. It makes no calls exactly when no client was obtained |
| DeployCancellerProperties.TerminalPhaseIffFold | src/main/java/com/openshift/jenkins/plugins/pipeline/OpenShiftDeployCanceller.java:85 | A phase is terminal (`IsTerminalPhase`: equal to Failed, Complete or Cancelled ignoring case) exactly when its case fold is "failed", "complete" or "cancelled" |
| DeployCancellerProperties.KnownPhaseClassification | src/main/java/com/openshift/jenkins/plugins/pipeline/OpenShiftDeployCanceller.java:85 | Any case variant of Complete, Failed or Cancelled is terminal, and any case variant of New, Pending or Running is not |
| DeployCancellerProperties.RolloutIdExample | src/main/java/com/openshift/jenkins/plugins/pipeline/OpenShiftDeployCanceller.java:79-80 | Config "frontend" at version 7 names rollout "frontend-7" |
| DeployCancellerProperties.RolloutIdDeterminesConfig | src/main/java/com/openshift/jenkins/plugins/pipeline/OpenShiftDeployCanceller.java:79-81 | For non-negative versions, two rollout names (`RolloutId`: `depCfg + "-" + Integer.toString(version)`) are equal exactly when their config names and versions are, so a rollout belongs to the config it was derived from |
| DeployCancellerProperties.RolloutIdCollidesForNegativeVersion | src/main/java/com/openshift/jenkins/plugins/pipeline/OpenShiftDeployCanceller.java:79-80 | With a negative version, two different configs can derive the same rollout name |
| DeployCancellerProperties.RolloutLookupIdentity | src/main/java/com/openshift/jenkins/plugins/pipeline/OpenShiftDeployCanceller.java:72-81 | The first call reads the configured DeploymentConfig. Once it is found, the second call reads the ReplicationController named `depCfg + "-" + latestVersion` in the same namespace |
| DeployCancellerProperties.NoClientRun | src/main/java/com/openshift/jenkins/plugins/pipeline/OpenShiftDeployCanceller.java:65-67 | Without a client the action returns false after making no calls. The server is unchanged and the last log line is the no-client exit |
| DeployCancellerProperties.ConfigMissingRun | src/main/java/com/openshift/jenkins/plugins/pipeline/OpenShiftDeployCanceller.java:72-77 | A missing config makes the action return false after exactly one lookup, with the server unchanged |
| DeployCancellerProperties.RolloutMissingRun | src/main/java/com/openshift/jenkins/plugins/pipeline/OpenShiftDeployCanceller.java:81-83 | A missing rollout makes the action return false after two lookups and no update, with the server unchanged |
| DeployCancellerProperties.PhaseMissingRun | src/main/java/com/openshift/jenkins/plugins/pipeline/OpenShiftDeployCanceller.java:84-85 | A rollout without a phase annotation ends in an exception after two lookups. There is no update, no exit line, and the server is unchanged |
| DeployCancellerProperties.TerminalPhaseRun | src/main/java/com/openshift/jenkins/plugins/pipeline/OpenShiftDeployCanceller.java:84-88 | A terminal phase makes the action return true with no update and the server unchanged. Repeating the call repeats the run exactly |
| DeployCancellerProperties.ActivePhaseRun | src/main/java/com/openshift/jenkins/plugins/pipeline/OpenShiftDeployCanceller.java:90-96 | Any other phase leads to exactly one update, the third call, carrying the marked annotations. If the server accepts it, the action returns true: the rollout holds both marks, its other annotations are kept and every other resource is unchanged. If the server refuses it, the run throws and the server is unchanged |
| DeployCancellerProperties.ReturnValueCharacterisation | src/main/java/com/openshift/jenkins/plugins/pipeline/OpenShiftDeployCanceller.java:64-105 | The action returns false exactly when the client, the config or the rollout is missing. It returns true exactly when the rollout has a phase and that phase is terminal or the update was accepted |
| DeployCancellerProperties.AlreadyMarkedUnchanged | src/main/java/com/openshift/jenkins/plugins/pipeline/OpenShiftDeployCanceller.java:90-91 | Marking a rollout that already carries both marks leaves its annotations identical |
| DeployCancellerProperties.MarkCancelledIdempotent | src/main/java/com/openshift/jenkins/plugins/pipeline/OpenShiftDeployCanceller.java:90-91 | Marking twice is the same as marking once |
| DeployCancellerProperties.MarkCancelledKeepsPhase | src/main/java/com/openshift/jenkins/plugins/pipeline/OpenShiftDeployCanceller.java:84-91 | The cancel mark never adds, removes or changes the phase annotation |
| DeployCancellerProperties.CancelIsStable | src/main/java/com/openshift/jenkins/plugins/pipeline/OpenShiftDeployCanceller.java:84-96 | Re-running after a successful cancel, before the platform changes the phase, sends the same update again and leaves the server as the first run left it |
| DeployCancellerProperties.SecondRunAfterTransition | src/main/java/com/openshift/jenkins/plugins/pipeline/OpenShiftDeployCanceller.java:84-88 | Once the platform moves a cancelled rollout to a terminal phase, a second run returns true without any update |
| DeployCancellerProperties.BuildResultOnlyLogged | src/main/java/com/openshift/jenkins/plugins/pipeline/OpenShiftDeployCanceller.java:51-60 | The build's result changes neither the outcome, nor the calls, nor the server's state. The logs of two runs differing only in the result agree after the build line |
| DeployCancellerProperties.LogShape | src/main/java/com/openshift/jenkins/plugins/pipeline/OpenShiftDeployCanceller.java:51-62 | A build line (`BuildLines`) is written exactly when verbose, that is when `ParseBoolean` accepts the setting. The start banner follows it on every run, and an exit line follows the banner exactly when the run returns rather than throws |
| DeployCancellerProperties.BuildLineReportsFailure | src/main/java/com/openshift/jenkins/plugins/pipeline/OpenShiftDeployCanceller.java:54-59 | When verbose, `BuildLines` writes the "did not succeed" line exactly for a known result other than SUCCESS, which is when `IsWorseThan(result, Success)` holds. A null result counts as succeeded |
| DeployCancellerProperties.FrontendScenario | src/main/java/com/openshift/jenkins/plugins/pipeline/OpenShiftDeployCanceller.java:72-96 | Config "frontend" in "ns1" at version 3 has rollout "frontend-3" in phase Running. The run reads the config, reads the rollout, sends one update with both marks, returns true and last logs that "frontend-3" was cancelled |

## Left out

- The Jenkins descriptor (`DescriptorImpl`: form checks, `load`/`save`/`configure`, `isApplicable`, `getDisplayName`, `OpenShiftDeployCanceller.java:112-189`). It is host-framework plumbing, and the `ParamVerify` it delegates to is not part of this model.
- `ClientFactory.create` and `setAuthorizationStrategy` (`:65-69`). These are transport and credential code in a foreign library. They appear only as the boolean `hasClient`.
- The wording of log lines and the `PrintStream` they go to. A `LogLine` records which line was written and the values it names.
- The interleaving of log lines with remote calls. The model keeps them as two separate sequences.
- Unicode case folding in `equalsIgnoreCase`. Only ASCII letters are folded.
- The type of the exception behind `UpdateFailed`. Every failure of the update call is one outcome, with the server's state left as it was.
- Transport errors during `client.get`. A lookup either finds the resource of the requested kind or yields null, which is how the code treats it.
- The server's optimistic concurrency and concurrent runs of the action. These belong to the API server. `CancelIsStable` and `SecondRunAfterTransition` cover only runs in sequence.
