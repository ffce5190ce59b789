/** The pause before a retry. */
module Backoff {

  const BASE_MS := 250
  const CAP_MS := 5000

  function Pow2(n: nat): nat {
    if n == 0 then 1 else 2 * Pow2(n - 1)
  }

  function Min(a: nat, b: nat): nat {
    if a < b then a else b
  }

  /** The pause before the given attempt. The shift is bounded so that it cannot overflow. */
  function RetryBackoff(attempt: nat): nat {
    var shift := Min(if attempt > 0 then attempt - 1 else 0, 16);
    Min(BASE_MS * Pow2(shift), CAP_MS)
  }

  lemma {:induction false} Pow2Monotone(a: nat, b: nat)
    requires a <= b
    ensures Pow2(a) <= Pow2(b)
  {
    if a < b {
      Pow2Monotone(a, b - 1);
    }
  }

  /** Bounding the shift changes nothing: the pause doubles from the base up to the cap, for
      every attempt. */
  lemma BackoffDoubles(attempt: nat)
    requires attempt >= 1
    ensures RetryBackoff(attempt) == Min(BASE_MS * Pow2(attempt - 1), CAP_MS)
    ensures RetryBackoff(attempt + 1) == Min(2 * RetryBackoff(attempt), CAP_MS)
  {
    assert Pow2(5) == 32;
    if attempt >= 5 {
      Pow2Monotone(5, attempt);
      Pow2Monotone(5, Min(attempt, 16));
    }
    if attempt >= 6 {
      Pow2Monotone(5, attempt - 1);
      Pow2Monotone(5, Min(attempt - 1, 16));
    }
  }
}
