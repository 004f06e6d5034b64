/**
 Bounded random numbers by rejection: ub_random and ub_random_max of backends/random.c.

 The host's entropy is a finite script of 32-bit words. A script that only holds rejected
 draws leaves the loop waiting for more.
 */
module RandomMax {
  import opened Prelude

  const DRAWS := 0x8000_0000

  /** ub_random: the low 31 bits of a word. */
  function Draw(word: nat): (v: nat)
    ensures v < DRAWS
  {
    word % DRAWS
  }

  /** The draws below the limit are kept: the largest multiple of the bound that fits. */
  function Limit(bound: nat): nat
    requires 2 <= bound < DRAWS
  {
    DRAWS - DRAWS % bound
  }

  /** Whatever the bound, more than half of all draws are kept, and they split evenly. */
  lemma LimitIsEven(bound: nat)
    requires 2 <= bound < DRAWS
    ensures Limit(bound) % bound == 0 && Limit(bound) == bound * (Limit(bound) / bound)
    ensures DRAWS < 2 * Limit(bound) <= 2 * DRAWS
  {
    var k := DRAWS / bound;
    assert DRAWS == bound * k + DRAWS % bound;
    assert Limit(bound) == bound * k;
    Multiple(bound, k);
    assert bound * k >= bound by { AtLeast(bound, k); }
  }

  lemma Multiple(bound: nat, k: nat)
    requires bound > 0
    ensures (bound * k) % bound == 0 && (bound * k) / bound == k
  {
    Quotient(bound, k, 0);
  }

  lemma AtLeast(bound: nat, k: nat)
    requires k > 0
    ensures bound * k >= bound
  {
  }

  /** Dividing bound * k + r. */
  lemma Quotient(bound: nat, k: nat, r: nat)
    requires r < bound
    ensures (bound * k + r) / bound == k && (bound * k + r) % bound == r
  {
    var n := bound * k + r;
    var q, m := n / bound, n % bound;
    assert n == bound * q + m;
    assert bound * (q - k) == r - m;
    Between(bound, q - k, r - m);
  }

  lemma Between(bound: int, d: int, e: int)
    requires bound * d == e && -bound < e < bound
    ensures d == 0 && e == 0
  {
    assert d >= 1 ==> bound * d >= bound;
    assert d <= -1 ==> bound * d <= -bound;
  }

  /** How many of the draws below n are kept and give the residue. */
  function Hits(bound: nat, residue: nat, n: nat): nat
    requires 2 <= bound < DRAWS && n <= DRAWS
  {
    if n == 0 then 0
    else Hits(bound, residue, n - 1) + if n - 1 < Limit(bound) && (n - 1) % bound == residue then 1 else 0
  }

  /** Below n = bound * k + r a residue is hit k times, once more if r has passed it. */
  lemma {:induction false} HitsBelow(bound: nat, residue: nat, k: nat, r: nat)
    requires 2 <= bound < DRAWS && residue < bound && r <= bound && bound * k + r <= Limit(bound)
    ensures Hits(bound, residue, bound * k + r) == k + if residue < r then 1 else 0
    decreases k, r
  {
    if r > 0 {
      HitsBelow(bound, residue, k, r - 1);
      Quotient(bound, k, r - 1);
    } else if k > 0 {
      assert bound * (k - 1) + bound == bound * k;
      HitsBelow(bound, residue, k - 1, bound);
    }
  }

  lemma {:induction false} NoHitsAbove(bound: nat, residue: nat, n: nat)
    requires 2 <= bound < DRAWS && Limit(bound) <= n <= DRAWS
    ensures Hits(bound, residue, n) == Hits(bound, residue, Limit(bound))
    decreases n
  {
    if n > Limit(bound) { NoHitsAbove(bound, residue, n - 1); }
  }

  /** Uniformity: of all 31-bit draws, every residue has exactly Limit / bound that lead to it. */
  lemma ExactlyUniform(bound: nat, residue: nat)
    requires 2 <= bound < DRAWS && residue < bound
    ensures Hits(bound, residue, DRAWS) == Limit(bound) / bound
  {
    LimitIsEven(bound);
    var k := Limit(bound) / bound;
    HitsBelow(bound, residue, k, 0);
    NoHitsAbove(bound, residue, DRAWS);
  }

  predicate Kept(bound: nat, word: nat)
    requires 2 <= bound < DRAWS
  {
    Draw(word) < Limit(bound)
  }

  /** ub_random_max over a script of words; None if it is used up. */
  method UbRandomMax(upper: int, words: seq<nat>) returns (r: Option<nat>, used: nat)
    requires upper < DRAWS && forall i :: 0 <= i < |words| ==> words[i] <= UINT32_MAX
    ensures upper <= 1 ==> r == Some(0) && used == 0
    ensures upper > 1 && r.Some? ==>
              && 1 <= used <= |words| && Kept(upper, words[used - 1]) && r.value == Draw(words[used - 1]) % upper < upper
              && forall i :: 0 <= i < used - 1 ==> !Kept(upper, words[i])
    ensures upper > 1 ==> (r.None? <==> forall i :: 0 <= i < |words| ==> !Kept(upper, words[i]))
  {
    if upper <= 1 { return Some(0), 0; }
    var bound: nat := upper;
    var limit := DRAWS - DRAWS % bound;
    used := 0;
    while used < |words|
      invariant 0 <= used <= |words|
      invariant forall i :: 0 <= i < used ==> !Kept(bound, words[i])
    {
      var value := Draw(words[used]);
      used := used + 1;
      if value < limit { return Some(value % bound), used; }
    }
    return None, used;
  }
}
