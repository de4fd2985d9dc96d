/**
 * Fatal errors and assertions of the engine's logging layer.
 *
 * `Fatal` logs its message and aborts the process; `Assert` calls `Fatal`
 * when its condition is false.  An operation that may abort therefore yields
 * an `Outcome`: either it returns normally with a value, or the process ends
 * with a message and nothing after it runs.
 */
module Log {
  datatype Outcome<+T> = Ok(value: T) | Fatal(message: string)

  /** `Assert(condition, message)`: aborts with `message` exactly when `condition` is false. */
  function Assert(condition: bool, message: string): (r: Outcome<()>)
    ensures r.Ok? <==> condition
    ensures r.Fatal? ==> r.message == message
  {
    if condition then Ok(()) else Fatal(message)
  }

  /** Whether a step returned normally, with the message it aborted with otherwise; its value is dropped. */
  function Status<T>(o: Outcome<T>): (r: Outcome<()>)
    ensures r.Ok? <==> o.Ok?
    ensures r.Fatal? ==> r.message == o.message
  {
    if o.Ok? then Ok(()) else Fatal(o.message)
  }

  /** Runs `next` only when the preceding step did not abort. */
  function Then<T>(first: Outcome<()>, next: Outcome<T>): (r: Outcome<T>)
    ensures first.Fatal? ==> r == Fatal(first.message)
    ensures first.Ok? ==> r == next
  {
    if first.Fatal? then Fatal(first.message) else next
  }
}

/** Severity levels of the engine's logger, which the OpenGL debug callbacks report to. */
module LogLevels {
  datatype LogLevel = Verbose | Debug | Info | Warning | Error | Fatal

  /** Position of a level in the logger's order, least severe first. */
  function Rank(level: LogLevel): (r: nat)
    ensures r <= 5
  {
    match level
    case Verbose => 0
    case Debug => 1
    case Info => 2
    case Warning => 3
    case Error => 4
    case Fatal => 5
  }

  /** The levels rank in the order the logger declares them, Verbose lowest and Fatal highest. */
  lemma RankFollowsDeclaration()
    ensures Rank(Verbose) < Rank(Debug) < Rank(Info) < Rank(Warning) < Rank(Error) < Rank(Fatal)
  {}

  /** Distinct levels have distinct ranks, so comparing ranks orders the levels totally. */
  lemma RankInjective(a: LogLevel, b: LogLevel)
    requires Rank(a) == Rank(b)
    ensures a == b
  {}
}
