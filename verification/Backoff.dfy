/** Exponential backoff with a cap, as server and client both do it: one by doubling step by step,
    the other in closed form. */
module Backoff {
  function Min(a: real, b: real): real {
    if a <= b then a else b
  }

  function Pow2(k: nat): real {
    if k == 0 then 1.0 else 2.0 * Pow2(k - 1)
  }

  /** The delay after `k` failures in a row. */
  function Capped(first: real, limit: real, k: nat): real {
    Min(limit, first * Pow2(k))
  }

  /** delay = min(delay * 2, limit), `k` times. */
  function Doubled(first: real, limit: real, k: nat): real {
    if k == 0 then first else Min(Doubled(first, limit, k - 1) * 2.0, limit)
  }

  /** One more doubling of the closed form. */
  lemma DoublingStep(first: real, limit: real, k: nat)
    requires limit >= 0.0
    ensures Min(Capped(first, limit, k) * 2.0, limit) == Capped(first, limit, k + 1)
  {
    assert first * Pow2(k + 1) == 2.0 * (first * Pow2(k));
  }

  /** Doubling and capping at every step gives the closed form after any number of steps. */
  lemma {:induction false} DoublingIsClosedForm(first: real, limit: real, k: nat)
    requires 0.0 <= first <= limit
    ensures Doubled(first, limit, k) == Capped(first, limit, k)
  {
    if k == 0 {
      assert first * Pow2(0) == first;
    } else {
      DoublingIsClosedForm(first, limit, k - 1);
      DoublingStep(first, limit, k - 1);
    }
  }

  lemma {:induction false} Positive(first: real, limit: real, k: nat)
    requires first > 0.0 && limit > 0.0
    ensures Pow2(k) > 0.0 && Capped(first, limit, k) > 0.0
  {
    if k > 0 {
      Positive(first, limit, k - 1);
    }
    assert first * Pow2(k) > 0.0;
  }
}
