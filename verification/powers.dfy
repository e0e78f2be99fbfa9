/** Powers of two, as weights of binary digits and as backoff factors. */
module Powers {

  function Power2(n: nat): (p: nat)
    ensures p > 0
  {
    if n == 0 then 1 else 2 * Power2(n - 1)
  }

  lemma {:induction false} Power2IsMonotone(m: nat, n: nat)
    requires m <= n
    ensures Power2(m) <= Power2(n)
  {
    if m < n {
      Power2IsMonotone(m, n - 1);
    }
  }
}
