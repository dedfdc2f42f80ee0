/** Real-valued helpers: powers, sums and the compounded product of
    returns that several parts of the simulator share. */
module RealMath {

  function Min(a: real, b: real): real {
    if b < a then b else a
  }

  function Abs(x: real): real {
    if x < 0.0 then -x else x
  }

  function MinNat(a: nat, b: nat): nat {
    if b < a then b else a
  }

  function MaxInt(a: int, b: int): int {
    if a < b then b else a
  }

  function Zeros(k: nat): (z: seq<real>)
    ensures |z| == k && forall i :: 0 <= i < k ==> z[i] == 0.0
  {
    seq(k, i => 0.0)
  }

  /** Real multiplication under a name. Recursive definitions below
      multiply by their own recursive call through it, so that an unfolded
      definition and a lemma about it mention the very same term. */
  function Mul(a: real, b: real): real {
    a * b
  }

  /** x raised to a natural power. */
  function Pow(x: real, k: nat): real {
    if k == 0 then 1.0 else Mul(x, Pow(x, k - 1))
  }

  /** Left-to-right sum of a sequence. */
  function Sum(s: seq<real>): real {
    if |s| == 0 then 0.0 else Sum(s[..|s| - 1]) + s[|s| - 1]
  }

  /** The compounded growth of the simple returns r[lo..hi]: the product of
      their (1 + r). */
  function GrowthProduct(r: seq<real>, lo: nat, hi: nat): real
    requires lo <= hi <= |r|
    decreases hi - lo
  {
    if hi == lo then 1.0 else Mul(GrowthProduct(r, lo, hi - 1), 1.0 + r[hi - 1])
  }

  lemma {:induction false} PowNonNegative(x: real, k: nat)
    requires x >= 0.0
    ensures Pow(x, k) >= 0.0
  {
    if k > 0 {
      PowNonNegative(x, k - 1);
    }
  }

  lemma {:induction false} PowMonotone(x: real, i: nat, j: nat)
    requires x >= 1.0
    requires i <= j
    ensures 0.0 <= Pow(x, i) <= Pow(x, j)
  {
    PowNonNegative(x, i);
    if i < j {
      PowMonotone(x, i, j - 1);
      PowNonNegative(x, j - 1);
      GrowsByFactor(x, Pow(x, j - 1));
    }
  }

  /** Taking one more return from the front multiplies the compounded
      growth by its factor. */
  lemma {:induction false} GrowthProductPrepend(r: seq<real>, lo: nat, hi: nat)
    requires lo < hi <= |r|
    ensures GrowthProduct(r, lo, hi) == (1.0 + r[lo]) * GrowthProduct(r, lo + 1, hi)
    decreases hi - lo
  {
    if hi == lo + 1 {
      PrependToEmpty(r, lo);
    } else {
      GrowthProductPrepend(r, lo, hi - 1);
      PrependStep(r, lo, hi);
    }
  }

  lemma PrependToEmpty(r: seq<real>, lo: nat)
    requires lo < |r|
    ensures GrowthProduct(r, lo, lo + 1) == (1.0 + r[lo]) * GrowthProduct(r, lo + 1, lo + 1)
  {
    TimesOne(1.0 + r[lo], GrowthProduct(r, lo + 1, lo + 1));
  }

  lemma PrependStep(r: seq<real>, lo: nat, hi: nat)
    requires lo + 1 < hi <= |r|
    requires GrowthProduct(r, lo, hi - 1) == (1.0 + r[lo]) * GrowthProduct(r, lo + 1, hi - 1)
    ensures GrowthProduct(r, lo, hi) == (1.0 + r[lo]) * GrowthProduct(r, lo + 1, hi)
  {
    ProductStep(GrowthProduct(r, lo, hi), GrowthProduct(r, lo, hi - 1), 1.0 + r[lo],
                GrowthProduct(r, lo + 1, hi - 1), GrowthProduct(r, lo + 1, hi), 1.0 + r[hi - 1]);
  }

  lemma GrowsByFactor(x: real, a: real)
    requires x >= 1.0 && a >= 0.0
    ensures a <= Mul(x, a)
  {
    assert Mul(x, a) - a == (x - 1.0) * a;
  }

  lemma TimesOne(x: real, one: real)
    requires one == 1.0
    ensures x == x * one
  {
  }

  /** One factor more on both sides of a product identity. */
  lemma ProductStep(whole: real, wholePrefix: real, left: real, rightPrefix: real, right: real, f: real)
    requires whole == Mul(wholePrefix, f)
    requires wholePrefix == left * rightPrefix
    requires right == Mul(rightPrefix, f)
    ensures whole == left * right
  {
  }

  /** Compounding returns that are all non-negative never loses value. */
  lemma {:induction false} GrowthProductAtLeastOne(r: seq<real>, lo: nat, hi: nat)
    requires lo <= hi <= |r|
    ensures (forall k :: lo <= k < hi ==> r[k] >= 0.0) ==> GrowthProduct(r, lo, hi) >= 1.0
    decreases hi - lo
  {
    if hi > lo && forall k :: lo <= k < hi ==> r[k] >= 0.0 {
      GrowthProductAtLeastOne(r, lo, hi - 1);
      GrowsPastOne(GrowthProduct(r, lo, hi - 1), 1.0 + r[hi - 1]);
    }
  }

  lemma GrowsPastOne(g: real, f: real)
    requires g >= 1.0 && f >= 1.0
    ensures Mul(g, f) >= 1.0
  {
    assert g * f - 1.0 == (g - 1.0) * f + (f - 1.0);
  }

  lemma {:induction false} GrowthProductOfZeros(r: seq<real>, lo: nat, hi: nat)
    requires lo <= hi <= |r|
    requires forall k :: lo <= k < hi ==> r[k] == 0.0
    ensures GrowthProduct(r, lo, hi) == 1.0
    decreases hi - lo
  {
    if hi > lo {
      GrowthProductOfZeros(r, lo, hi - 1);
    }
  }
}
