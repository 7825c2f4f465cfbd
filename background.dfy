/** Shared vocabulary of the background blink tasks: optional values, the outcome of
    joining a task, where a concurrent stop request lands in a task's run, and how many
    passes a task's outer loop makes. */
module Background {

  datatype Option<T> = None | Some(value: T)

  /** Pass, or Fail with the message the source panics with. */
  datatype Outcome = Pass | Fail(message: string)

  /** When the cancellation flag goes false, seen from the task. The task stores `true`
      into the flag when it starts; a concurrent `stop()` stores `false`. `BeforeCheck(k)`
      says that store lands just before the task's flag check number `k` (0-based), so
      checks `0 .. k-1` read `true` and every later check reads `false`. */
  datatype StopPoint = Never | BeforeCheck(k: nat)

  /** The value the task reads at its flag check number `j`. */
  predicate FlagAt(stop: StopPoint, j: nat)
  {
    match stop
    case Never => true
    case BeforeCheck(k) => j < k
  }

  /** Every one of the first `n` checks reads the flag as true. */
  predicate RunsToEnd(stop: StopPoint, n: nat)
  {
    stop.Never? || n <= stop.k
  }

  /** Number of passes of the outer loop: `for _ in 0..end` for `Some(end)`, which is
      empty when `end <= 0`; for `None` the loop is unbounded and `fuel` passes are modelled. */
  function Passes(n: Option<int>, fuel: nat): (p: nat)
    ensures n.Some? ==> (p == 0 <==> n.value <= 0) && (p > 0 ==> p == n.value)
    ensures n.None? ==> p == fuel
  {
    match n
    case Some(end) => if end > 0 then end else 0
    case None => fuel
  }
}
