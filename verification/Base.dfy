/** Small vocabulary shared by every module: options, bytes, and facts about sequences. */
module Base {
  datatype Option<+T> = None | Some(value: T)

  type u8 = n: int | 0 <= n < 256

  /** `saturating_sub(1)`. */
  function SaturatingPred(n: nat): nat {
    if n == 0 then 0 else n - 1
  }

  /** All the pieces of `parts`, end to end. */
  function Flatten<T>(parts: seq<seq<T>>): seq<T> {
    if parts == [] then [] else parts[0] + Flatten(parts[1..])
  }

  lemma {:induction false} FlattenAppend<T>(a: seq<seq<T>>, b: seq<seq<T>>)
    ensures Flatten(a + b) == Flatten(a) + Flatten(b)
  {
    if a == [] {
      assert a + b == b;
    } else {
      assert (a + b)[1..] == a[1..] + b;
      FlattenAppend(a[1..], b);
    }
  }

  lemma FlattenSnoc<T>(a: seq<seq<T>>, x: seq<T>)
    ensures Flatten(a + [x]) == Flatten(a) + x
  {
    FlattenAppend(a, [x]);
    assert Flatten([x]) == x;
  }

  /** No two positions hold the same value. */
  ghost predicate NoDuplicates<T>(s: seq<T>) {
    forall i, j :: 0 <= i < j < |s| ==> s[i] != s[j]
  }

  function RemoveAt<T>(s: seq<T>, p: nat): seq<T>
    requires p < |s|
  {
    s[..p] + s[p + 1..]
  }

  /** `iter().position(..)`: where the first element that is `sought` stands. */
  function Position<T>(s: seq<T>, sought: T -> bool): (r: Option<nat>)
    ensures r.Some? ==> r.value < |s| && sought(s[r.value]) && forall i :: 0 <= i < r.value ==> !sought(s[i])
    ensures r.None? ==> forall i :: 0 <= i < |s| ==> !sought(s[i])
  {
    if |s| == 0 then None
    else if sought(s[0]) then Some(0)
    else match Position(s[1..], sought) case None => None case Some(p) => Some(p + 1)
  }

  /** `a` is what is left of `b` after dropping some elements, order kept. */
  predicate IsSubsequence<T(==)>(a: seq<T>, b: seq<T>) {
    if a == [] then true
    else if b == [] then false
    else if a[0] == b[0] && IsSubsequence(a[1..], b[1..]) then true
    else IsSubsequence(a, b[1..])
  }

  lemma {:induction false} SubsequenceRefl<T>(a: seq<T>)
    ensures IsSubsequence(a, a)
  {
    if a != [] { SubsequenceRefl(a[1..]); }
  }

  lemma {:induction false} SubsequenceTrans<T>(a: seq<T>, b: seq<T>, c: seq<T>)
    requires IsSubsequence(a, b) && IsSubsequence(b, c)
    ensures IsSubsequence(a, c)
    decreases |a| + |b| + |c|
  {
    if a == [] || c == [] || b == [] {
    } else if b[0] == c[0] && IsSubsequence(b[1..], c[1..]) {
      if a[0] == b[0] && IsSubsequence(a[1..], b[1..]) {
        SubsequenceTrans(a[1..], b[1..], c[1..]);
      } else {
        SubsequenceTrans(a, b[1..], c[1..]);
      }
    } else {
      SubsequenceTrans(a, b, c[1..]);
    }
  }

  lemma {:induction false} SubsequenceRemoveAt<T>(s: seq<T>, p: nat)
    requires p < |s|
    ensures IsSubsequence(RemoveAt(s, p), s)
  {
    if p == 0 {
      assert RemoveAt(s, p) == s[1..];
      SubsequenceRefl(s[1..]);
      if s[1..] != [] { SubsequenceDropHead(s[1..], s); }
    } else {
      assert RemoveAt(s, p)[1..] == RemoveAt(s[1..], p - 1);
      SubsequenceRemoveAt(s[1..], p - 1);
    }
  }

  lemma SubsequenceDropHead<T>(a: seq<T>, b: seq<T>)
    requires b != [] && IsSubsequence(a, b[1..])
    ensures IsSubsequence(a, b)
  {}

  lemma {:induction false} SubsequenceJoin<T>(a: seq<T>, b: seq<T>, c: seq<T>, d: seq<T>)
    requires IsSubsequence(a, b) && IsSubsequence(c, d)
    ensures IsSubsequence(a + c, b + d)
    decreases |b|
  {
    if b == [] {
      assert a + c == c && b + d == d;
    } else {
      assert (b + d)[1..] == b[1..] + d;
      if a == [] {
        SubsequenceJoin(a, b[1..], c, d);
        SubsequenceDropHead(a + c, b + d);
      } else if a[0] == b[0] && IsSubsequence(a[1..], b[1..]) {
        assert (a + c)[1..] == a[1..] + c;
        SubsequenceJoin(a[1..], b[1..], c, d);
      } else {
        SubsequenceJoin(a, b[1..], c, d);
        SubsequenceDropHead(a + c, b + d);
      }
    }
  }

  /** What is found in a log is still found when the log has grown. */
  lemma SubsequenceGrow<T>(a: seq<T>, b: seq<T>, grown: seq<T>)
    requires IsSubsequence(a, b) && b <= grown
    ensures IsSubsequence(a, grown)
  {
    SubsequenceJoin(a, b, [], grown[|b|..]);
    assert a + [] == a && b + grown[|b|..] == grown;
  }

  lemma SubsequenceThen<T>(a: seq<T>, b: seq<T>, c: seq<T>)
    requires IsSubsequence(a, b)
    ensures IsSubsequence(a + c, b + c)
  {
    SubsequenceRefl(c);
    SubsequenceJoin(a, b, c, c);
  }
}
