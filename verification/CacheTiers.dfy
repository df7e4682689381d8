/** Geometric cache tiers: where the history is cut for the prompt cache (src/types.rs, `cache_splits`). */
module CacheTiers {
  import opened Base

  function Pow(b: nat, e: nat): nat {
    if e == 0 then 1 else b * Pow(b, e - 1)
  }

  /** The largest multiple of `align` that is at most `n`. */
  function AlignDown(n: nat, align: nat): nat
    requires align > 0
  {
    (n / align) * align
  }

  /** Cut points for `n` immutable entries, coldest tier first. */
  function Splits(n: nat, stride: nat, tiers: nat): (s: seq<nat>)
    ensures |s| >= 1
    ensures stride > 0 && tiers > 0 ==> |s| == tiers
  {
    if stride == 0 || tiers == 0 then [n]
    else seq(tiers, i requires 0 <= i < tiers => PowPositive(stride, tiers - i); AlignDown(n, Pow(stride, tiers - i)))
  }

  lemma {:induction false} PowPositive(b: nat, e: nat)
    ensures b > 0 ==> Pow(b, e) > 0
  {
    if e > 0 { PowPositive(b, e - 1); }
  }

  lemma {:induction false} PowAdd(b: nat, x: nat, y: nat)
    ensures Pow(b, x + y) == Pow(b, x) * Pow(b, y)
  {
    if x > 0 {
      PowAdd(b, x - 1, y);
      assert b * (Pow(b, x - 1) * Pow(b, y)) == Pow(b, x) * Pow(b, y);
    }
  }

  /** AlignDown(n, align) is within `align` below `n`. */
  lemma AlignDownBounds(n: nat, align: nat)
    requires align > 0
    ensures AlignDown(n, align) <= n < AlignDown(n, align) + align
  {
    assert n == (n / align) * align + n % align;
  }

  /** A quotient is pinned down by the interval it names. */
  lemma QuotientUnique(n: nat, align: nat, q: nat)
    requires align > 0 && q * align <= n < q * align + align
    ensures n / align == q
  {
    var p := n / align;
    AlignDownBounds(n, align);
    if p < q {
      MulMono(p + 1, q, align);
    } else if q < p {
      MulMono(q + 1, p, align);
    }
  }

  lemma MulMono(a: nat, b: nat, c: nat)
    requires a <= b
    ensures a * c <= b * c
  {}

  lemma MultipleOf(k: nat, align: nat)
    requires align > 0
    ensures (k * align) % align == 0 && (k * align) / align == k
  {
    var n := k * align;
    QuotientUnique(n, align, k);
    assert n == (n / align) * align + n % align;
  }

  lemma ScaleInterval(n: nat, a: nat, b: nat, p: nat, q: nat)
    requires p * a <= n < p * a + a && q * b <= p < q * b + b
    ensures q * (a * b) <= n < q * (a * b) + a * b
  {
    MulMono(q * b, p, a);
    MulMono(p + 1, q * b + b, a);
    assert q * b * a == q * (a * b);
    assert (q * b + b) * a == q * (a * b) + a * b;
    assert (p + 1) * a == p * a + a;
  }

  /** Dividing twice is dividing by the product. */
  lemma NestedFloor(n: nat, a: nat, b: nat, c: nat)
    requires a > 0 && b > 0 && c == a * b
    ensures c > 0 && n / c == n / a / b
  {
    AlignDownBounds(n, a);
    AlignDownBounds(n / a, b);
    ScaleInterval(n, a, b, n / a, n / a / b);
    assert c > 0 by { MulMono(1, b, a); assert b * a == c; }
    QuotientUnique(n, c, n / a / b);
  }

  /** Non-decreasing, aligned, within the immutable part, and short of it by less than `stride`. */
  lemma SplitsShape(n: nat, stride: nat, tiers: nat)
    requires stride > 0 && tiers > 0
    ensures var s := Splits(n, stride, tiers);
            && (forall i, j :: 0 <= i <= j < tiers ==> s[i] <= s[j])
            && (forall i :: 0 <= i < tiers ==> s[i] <= n)
            && n - s[tiers - 1] < stride
  {
    var s := Splits(n, stride, tiers);
    forall i | 0 <= i < tiers ensures s[i] <= n {
      PowPositive(stride, tiers - i);
      AlignDownBounds(n, Pow(stride, tiers - i));
    }
    forall i, j | 0 <= i <= j < tiers ensures s[i] <= s[j] {
      ColderIsCoarser(n, stride, tiers - i, tiers - j);
    }
    assert Pow(stride, 1) == stride;
    AlignDownBounds(n, stride);
  }

  /** Tier `i`'s cut is a multiple of `stride^(tiers-i)`. */
  lemma SplitsAligned(n: nat, stride: nat, tiers: nat, i: nat)
    requires stride > 0 && i < tiers
    ensures Pow(stride, tiers - i) > 0 && Splits(n, stride, tiers)[i] % Pow(stride, tiers - i) == 0
  {
    PowPositive(stride, tiers - i);
    var align := Pow(stride, tiers - i);
    MultipleOf(n / align, align);
    assert Splits(n, stride, tiers)[i] == AlignDown(n, align);
  }

  lemma CoarserCutIsLower(n: nat, a: nat, b: nat, c: nat)
    requires a > 0 && b > 0 && c == a * b
    ensures c > 0 && AlignDown(n, c) <= AlignDown(n, a)
  {
    NestedFloor(n, a, b, c);
    var p := n / a;
    var q := p / b;
    AlignDownBounds(p, b);
    MulMono(q * b, p, a);
    assert q * c == q * b * a;
  }

  /** With more factors of `stride` in the alignment, the cut point can only be lower. */
  lemma ColderIsCoarser(n: nat, stride: nat, e: nat, f: nat)
    requires stride > 0 && f <= e
    ensures Pow(stride, e) > 0 && Pow(stride, f) > 0
    ensures AlignDown(n, Pow(stride, e)) <= AlignDown(n, Pow(stride, f))
  {
    PowPositive(stride, f);
    PowPositive(stride, e - f);
    PowAdd(stride, f, e - f);
    assert f + (e - f) == e;
    CoarserCutIsLower(n, Pow(stride, f), Pow(stride, e - f), Pow(stride, e));
  }

  /** Equal cuts at one alignment give equal cuts at every multiple of it. */
  lemma CoarserCutsAgree(n: nat, m: nat, a: nat, b: nat, c: nat)
    requires a > 0 && b > 0 && c == a * b && AlignDown(n, a) == AlignDown(m, a)
    ensures c > 0 && AlignDown(n, c) == AlignDown(m, c)
  {
    MultipleOf(n / a, a);
    MultipleOf(m / a, a);
    NestedFloor(n, a, b, c);
    NestedFloor(m, a, b, c);
  }

  /** If the cut of one tier agrees between two histories, so does the cut of every colder tier. */
  lemma ColderSplitsAgree(n: nat, m: nat, stride: nat, tiers: nat, k: nat)
    requires k < |Splits(n, stride, tiers)| == |Splits(m, stride, tiers)|
    requires Splits(n, stride, tiers)[k] == Splits(m, stride, tiers)[k]
    ensures forall j :: 0 <= j <= k ==> Splits(n, stride, tiers)[j] == Splits(m, stride, tiers)[j]
  {
    if stride > 0 && tiers > 0 {
      forall j | 0 <= j <= k ensures Splits(n, stride, tiers)[j] == Splits(m, stride, tiers)[j] {
        PowPositive(stride, tiers - k);
        PowPositive(stride, k - j);
        PowAdd(stride, tiers - k, k - j);
        assert tiers - k + (k - j) == tiers - j;
        CoarserCutsAgree(n, m, Pow(stride, tiers - k), Pow(stride, k - j), Pow(stride, tiers - j));
      }
    }
  }

  /** A tier's cut stays put exactly while the history stays within one period of its alignment. */
  lemma TierPeriod(n: nat, m: nat, align: nat)
    requires align > 0
    ensures AlignDown(n, align) == AlignDown(m, align) <==> AlignDown(n, align) <= m < AlignDown(n, align) + align
  {
    AlignDownBounds(m, align);
    if AlignDown(n, align) <= m < AlignDown(n, align) + align { QuotientUnique(m, align, n / align); }
  }
}
