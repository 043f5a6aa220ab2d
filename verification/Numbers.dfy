/** Arithmetic that more than one layout relies on. */
module Numbers {
  function Pow2(n: nat): (p: nat)
    ensures p >= 1
  {
    if n == 0 then 1 else 2 * Pow2(n - 1)
  }

  /** A whole number of steps that is not zero is at least one step either way. */
  lemma WholeSteps(d: int, apart: int)
    requires d > 0
    ensures (apart >= 1 ==> d * apart >= d) && (apart <= -1 ==> d * apart <= -d)
  {
  }
}
