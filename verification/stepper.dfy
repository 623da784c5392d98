/**
 * The household-size stepper shared by the input form and the result view:
 * "-" and "+" buttons that move the size by one, clamped to 1 and 20.
 */
module Stepper {

  const MinSize: int := 1
  const MaxSize: int := 20

  predicate InRange(n: int)
  {
    MinSize <= n <= MaxSize
  }

  /** `Math.max(1, n - 1)`: one less, but never below 1. */
  function Decrement(n: int): (r: int)
    ensures r >= MinSize && r >= n - 1
    ensures r == MinSize || r == n - 1
  {
    if n - 1 < MinSize then MinSize else n - 1
  }

  /** `Math.min(20, n + 1)`: one more, but never above 20. */
  function Increment(n: int): (r: int)
    ensures r <= MaxSize && r <= n + 1
    ensures r == MaxSize || r == n + 1
  {
    if n + 1 > MaxSize then MaxSize else n + 1
  }

  datatype Press = Minus | Plus

  function Step(n: int, b: Press): int
  {
    match b
    case Minus => Decrement(n)
    case Plus => Increment(n)
  }

  /** The size after pressing the buttons in order. */
  function Presses(n: int, bs: seq<Press>): int
    decreases |bs|
  {
    if |bs| == 0 then n else Presses(Step(n, bs[0]), bs[1..])
  }

  /** Inside the range, each button stays inside it, and the two undo each other away from the ends. */
  lemma StepsInRange(n: int)
    requires InRange(n)
    ensures InRange(Decrement(n)) && InRange(Increment(n))
    ensures n > MinSize ==> Increment(Decrement(n)) == n
    ensures n < MaxSize ==> Decrement(Increment(n)) == n
  {
  }

  /** Starting inside the range, no sequence of presses leaves it. */
  lemma {:induction false} PressesStayInRange(n: int, bs: seq<Press>)
    requires InRange(n)
    ensures InRange(Presses(n, bs))
    decreases |bs|
  {
    if |bs| > 0 {
      StepsInRange(n);
      PressesStayInRange(Step(n, bs[0]), bs[1..]);
    }
  }

  /**
   * The clamps are one-sided: above 20, "+" brings the size down to 20 and
   * "-" only takes one off.
   */
  lemma ClampsAreOneSided(n: int)
    requires n > MaxSize + 1
    ensures Increment(n) == MaxSize && Increment(n) < n
    ensures Decrement(n) == n - 1 && !InRange(Decrement(n))
  {
  }
}
