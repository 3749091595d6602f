/** The wait before a retry, as the workers compute it and as it is meant. */
module Backoff {
  function PowerOfTwo(n: nat): nat {
    if n == 0 then 1 else 2 * PowerOfTwo(n - 1)
  }

  /** A wait, doubled so many times over. */
  function Doubled(wait: int, times: nat): int
    decreases times
  {
    if times == 0 then wait else Doubled(2 * wait, times - 1)
  }

  /** The first retry waits the base, and each later one twice as long as the one before it. */
  lemma {:induction false} BackoffDoubles(base: int, n: nat)
    ensures base * PowerOfTwo(n) == Doubled(base, n)
    decreases n
  {
    if n > 0 {
      BackoffDoubles(2 * base, n - 1);
    }
  }
}
