/**
 The two pieces of the CI host the canceller consults before it talks to the
 cluster: the outcome of the build it is attached to, and the lenient parsing
 of its `verbose` setting.
 */
module BuildHost {
  import opened Wrappers
  import opened AsciiCase

  /** `hudson.model.Result`, in declaration order. */
  datatype BuildResult = Success | Unstable | Failure | NotBuilt | Aborted

  function Ordinal(r: BuildResult): nat {
    match r
    case Success => 0
    case Unstable => 1
    case Failure => 2
    case NotBuilt => 3
    case Aborted => 4
  }

  /** `a.isWorseThan(b)`: `a` comes later in the declaration order. */
  predicate IsWorseThan(a: BuildResult, b: BuildResult) {
    Ordinal(a) > Ordinal(b)
  }

  /** `Boolean.parseBoolean(s)`: a non-null string equal to "true" ignoring case. */
  predicate ParseBoolean(s: Option<string>) {
    s.Some? && EqualsIgnoreCase(s.value, "true")
  }

}
