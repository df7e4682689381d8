/** UTF-8 byte strings (RFC 3629, sections 3 and 4) and cutting them between characters. */
module Utf8 {
  import opened Base

  type Bytes = seq<u8>

  predicate IsTail(b: u8) {
    0x80 <= b <= 0xBF
  }

  /** Length of the character a first byte announces; 0 if no character starts so. */
  function CharLength(first: u8): nat {
    if first <= 0x7F then 1
    else if 0xC2 <= first <= 0xDF then 2
    else if 0xE0 <= first <= 0xEF then 3
    else if 0xF0 <= first <= 0xF4 then 4
    else 0
  }

  /** A character at the front of `s`: shortest form, no surrogates, at most U+10FFFF. */
  predicate StartsWithChar(s: Bytes) {
    s != [] &&
    var n := CharLength(s[0]);
    && 1 <= n <= |s|
    && (forall i :: 1 <= i < n ==> IsTail(s[i]))
    && (s[0] == 0xE0 ==> s[1] >= 0xA0)
    && (s[0] == 0xED ==> s[1] <= 0x9F)
    && (s[0] == 0xF0 ==> s[1] >= 0x90)
    && (s[0] == 0xF4 ==> s[1] <= 0x8F)
  }

  predicate IsUtf8(s: Bytes) {
    s == [] || (StartsWithChar(s) && IsUtf8(s[CharLength(s[0])..]))
  }

  /** `str::is_char_boundary`. */
  predicate IsBoundary(s: Bytes, i: nat) {
    i == 0 || i == |s| || (i < |s| && !IsTail(s[i]))
  }

  /** Cutting well-formed text at a boundary gives two well-formed texts. */
  lemma {:induction false} CutAtBoundary(s: Bytes, i: nat)
    requires IsUtf8(s) && i <= |s| && IsBoundary(s, i)
    ensures IsUtf8(s[..i]) && IsUtf8(s[i..])
  {
    if i == 0 {
      assert s[..0] == [] && s[0..] == s;
    } else {
      var n := CharLength(s[0]);
      assert i >= n;
      CutAtBoundary(s[n..], i - n);
      assert s[..i][n..] == s[n..][..i - n] && s[n..][i - n..] == s[i..];
    }
  }

  lemma {:induction false} JoinUtf8(a: Bytes, b: Bytes)
    requires IsUtf8(a) && IsUtf8(b)
    ensures IsUtf8(a + b)
  {
    if a == [] {
      assert a + b == b;
    } else {
      var n := CharLength(a[0]);
      assert (a + b)[n..] == a[n..] + b;
      JoinUtf8(a[n..], b);
    }
  }

  /** Characters are at most four bytes, so a boundary lies within three bytes below any position. */
  lemma {:induction false} BoundaryNear(s: Bytes, k: nat) returns (j: nat)
    requires IsUtf8(s) && k <= |s|
    ensures j <= k <= j + 3 && IsBoundary(s, j)
  {
    if s == [] || k < CharLength(s[0]) {
      j := 0;
    } else {
      var n := CharLength(s[0]);
      j := BoundaryNear(s[n..], k - n);
      if j == 0 && n < |s| { assert StartsWithChar(s[n..]); assert !IsTail(s[n..][0]); }
      if 0 < j && j < |s| - n { assert s[n..][j] == s[n + j]; }
      j := n + j;
    }
  }

  /** A boundary follows every one-byte character. */
  lemma {:induction false} BoundaryAfterAscii(s: Bytes, i: nat)
    requires IsUtf8(s) && i < |s| && s[i] <= 0x7F
    ensures IsBoundary(s, i + 1)
  {
    var n := CharLength(s[0]);
    if i == 0 {
      if n < |s| { assert StartsWithChar(s[n..]); assert !IsTail(s[n..][0]); }
    } else {
      assert i >= n;
      BoundaryAfterAscii(s[n..], i - n);
      if i + 1 < |s| { assert s[n..][i + 1 - n] == s[i + 1]; }
    }
  }

  /** The highest boundary at most `max`. */
  method SnapBack(s: Bytes, max: nat) returns (cut: nat)
    requires IsUtf8(s) && max <= |s|
    ensures cut <= max <= cut + 3 && IsBoundary(s, cut)
    ensures forall j :: cut < j <= max ==> !IsBoundary(s, j)
  {
    ghost var near := BoundaryNear(s, max);
    cut := max;
    while !IsBoundary(s, cut)
      invariant near <= cut <= max
      invariant forall j :: cut < j <= max ==> !IsBoundary(s, j)
      decreases cut
    {
      cut := cut - 1;
    }
  }

  /** `renderer::trunc`: at most `maxBytes` bytes, as many whole characters as fit. */
  method Trunc(s: Bytes, maxBytes: nat) returns (r: Bytes)
    requires IsUtf8(s)
    ensures IsUtf8(r) && r <= s
    ensures |s| <= maxBytes ==> r == s
    ensures |s| > maxBytes ==> |r| <= maxBytes <= |r| + 3
    ensures forall longer :: r < longer <= s && |longer| <= maxBytes ==> !IsUtf8(longer)
  {
    if |s| <= maxBytes {
      return s;
    }
    var cut := SnapBack(s, maxBytes);
    CutAtBoundary(s, cut);
    r := s[..cut];
    forall longer | r < longer <= s && |longer| <= maxBytes ensures !IsUtf8(longer) {
      if IsUtf8(longer) {
        assert longer == s[..|longer|];
        PrefixEndsAtBoundary(s, |longer|);
      }
    }
  }

  /** A well-formed prefix of well-formed text ends at a boundary. */
  lemma {:induction false} PrefixEndsAtBoundary(s: Bytes, i: nat)
    requires IsUtf8(s) && i <= |s| && IsUtf8(s[..i])
    ensures IsBoundary(s, i)
  {
    if i > 0 {
      var n := CharLength(s[0]);
      assert s[..i][0] == s[0];
      assert s[..i][n..] == s[n..][..i - n];
      PrefixEndsAtBoundary(s[n..], i - n);
      if i < |s| {
        if i == n { assert StartsWithChar(s[n..]); assert !IsTail(s[n..][0]); }
        assert s[n..][i - n] == s[i];
      }
    }
  }
}
