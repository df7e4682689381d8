/** The event history and its modification window (src/types.rs `EventHistory`, src/python.rs `PyHistoryManager`). */
module Histories {
  import opened Base
  import opened Ids
  import opened Items
  import opened CacheTiers

  const DEFAULT_WINDOW: nat := 5

  /** `len.saturating_sub(window)`: also the number of immutable entries. */
  function WindowStart(len: nat, window: nat): nat {
    if len > window then len - window else 0
  }

  function FindEntry(h: seq<HistoryEntry>, id: AgentId): (r: Option<nat>)
    ensures r.Some? ==> r.value < |h| && h[r.value].id == id && forall i :: 0 <= i < r.value ==> h[i].id != id
    ensures r.None? ==> forall i :: 0 <= i < |h| ==> h[i].id != id
  {
    Position(h, (x: HistoryEntry) => x.id == id)
  }

  predicate Modifiable(h: seq<HistoryEntry>, window: nat, id: AgentId) {
    FindEntry(h[WindowStart(|h|, window)..], id).Some?
  }

  function RemoveEntry(h: seq<HistoryEntry>, id: AgentId): seq<HistoryEntry> {
    match FindEntry(h, id) case None => h case Some(p) => RemoveAt(h, p)
  }

  function Summarise(h: seq<HistoryEntry>, id: AgentId, description: string): seq<HistoryEntry> {
    match FindEntry(h, id) case None => h case Some(p) => h[p := Summary(h[p].id, h[p].time, description)]
  }

  class EventHistory {
    var entries: seq<HistoryEntry>
    var modificationWindow: nat

    constructor ()
      ensures entries == [] && modificationWindow == DEFAULT_WINDOW
    {
      entries := [];
      modificationWindow := DEFAULT_WINDOW;
    }

    function ImmutableCount(): nat
      reads this
    {
      WindowStart(|entries|, modificationWindow)
    }

    /** `stride^tiers` has to fit the machine word: `usize::pow` panics or wraps beyond it. */
    method CacheSplits(stride: nat, tiers: nat) returns (splits: seq<nat>)
      requires Pow(stride, tiers) < U64
      ensures splits == Splits(ImmutableCount(), stride, tiers)
    {
      var n := ImmutableCount();
      if stride == 0 || tiers == 0 {
        return [n];
      }
      splits := [];
      for i := 0 to tiers
        invariant |splits| == i && forall j :: 0 <= j < i ==> splits[j] == Splits(n, stride, tiers)[j]
      {
        PowPositive(stride, tiers - i);
        var align := Pow(stride, tiers - i);
        splits := splits + [(n / align) * align];
      }
    }

    method IsModifiable(id: AgentId) returns (yes: bool)
      ensures yes == Modifiable(entries, modificationWindow, id)
    {
      var start := WindowStart(|entries|, modificationWindow);
      var i := start;
      while i < |entries|
        invariant start <= i <= |entries|
        invariant forall j :: start <= j < i ==> entries[j].id != id
      {
        if entries[i].id == id {
          assert entries[start..][i - start].id == id;
          return true;
        }
        i := i + 1;
      }
      var tail := entries[start..];
      assert forall j :: 0 <= j < |tail| ==> tail[j].id != id;
      return false;
    }

    method Push(entry: HistoryEntry)
      modifies this`entries
      ensures entries == old(entries) + [entry]
    {
      entries := entries + [entry];
    }

    method Remove(id: AgentId)
      modifies this`entries
      ensures entries == RemoveEntry(old(entries), id)
    {
      match FindEntry(entries, id) {
        case None =>
        case Some(p) => entries := entries[..p] + entries[p + 1..];
      }
    }

    method ReplaceWithSummary(id: AgentId, description: string)
      modifies this`entries
      ensures entries == Summarise(old(entries), id, description)
    {
      match FindEntry(entries, id) {
        case None =>
        case Some(p) =>
          var entry := entries[p];
          entries := entries[p := Summary(entry.id, entry.time, description)];
      }
    }
  }

  // ---- What a script may do to the history ----

  datatype HistoryOp = Replace(id: AgentId, description: string) | Remove(id: AgentId)

  function Apply(h: seq<HistoryEntry>, window: nat, compaction: bool, op: HistoryOp): seq<HistoryEntry> {
    if !compaction && !Modifiable(h, window, op.id) then h
    else match op
      case Replace(id, description) => Summarise(h, id, description)
      case Remove(id) => RemoveEntry(h, id)
  }

  function ApplyAll(h: seq<HistoryEntry>, window: nat, compaction: bool, ops: seq<HistoryOp>): seq<HistoryEntry>
    decreases ops
  {
    if ops == [] then h else ApplyAll(Apply(h, window, compaction, ops[0]), window, compaction, ops[1..])
  }

  lemma {:induction false} ApplyAllSnoc(h: seq<HistoryEntry>, window: nat, compaction: bool, ops: seq<HistoryOp>, op: HistoryOp)
    ensures ApplyAll(h, window, compaction, ops + [op]) == Apply(ApplyAll(h, window, compaction, ops), window, compaction, op)
    decreases ops
  {
    if ops == [] {
      assert [op][1..] == [];
    } else {
      assert (ops + [op])[1..] == ops[1..] + [op];
      ApplyAllSnoc(Apply(h, window, compaction, ops[0]), window, compaction, ops[1..], op);
    }
  }

  /** How many of the removals in `ops` take an entry out. */
  function Removals(h: seq<HistoryEntry>, window: nat, compaction: bool, ops: seq<HistoryOp>): nat
    decreases ops
  {
    if ops == [] then 0
    else
      var next := Apply(h, window, compaction, ops[0]);
      (if |next| < |h| then 1 else 0) + Removals(next, window, compaction, ops[1..])
  }

  ghost predicate DistinctIds(h: seq<HistoryEntry>) {
    forall i, j :: 0 <= i < j < |h| ==> h[i].id != h[j].id
  }

  datatype Stamp = Stamp(id: AgentId, time: nat)

  /** Identity and time of each entry: what a script can never rewrite. */
  function Stamps(h: seq<HistoryEntry>): seq<Stamp> {
    seq(|h|, i requires 0 <= i < |h| => Stamp(h[i].id, h[i].time))
  }

  /** The first `n` entries are the same before and after. */
  ghost predicate Untouched(before: seq<HistoryEntry>, after: seq<HistoryEntry>, n: nat) {
    n <= |before| && n <= |after| && after[..n] == before[..n]
  }

  /**
   * The window test and the edit look the id up separately: an allowed edit lands inside the window
   * exactly when the id does not also occur in the immutable prefix.
   */
  lemma EditLandsInWindowIff(h: seq<HistoryEntry>, window: nat, id: AgentId)
    requires Modifiable(h, window, id)
    ensures var n := WindowStart(|h|, window);
            FindEntry(h, id).Some? && (FindEntry(h, id).value >= n <==> FindEntry(h[..n], id).None?)
  {
    var n := WindowStart(|h|, window);
    var k := FindEntry(h[n..], id).value;
    assert h[n + k].id == id;
    var p := FindEntry(h, id).value;
    if p < n {
      assert h[..n][p].id == id;
    } else {
      assert forall i :: 0 <= i < n ==> h[..n][i].id != id;
    }
  }

  /** With a repeated id the frozen prefix is not frozen: removing the recent entry takes the old one. */
  lemma RepeatedIdThawsPrefix()
    ensures var first := SystemAlert("7c15", 0, "old");
            var recent := SystemAlert("7c15", 9, "recent");
            Apply([first, recent], 1, false, Remove("7c15")) == [recent]
  {
    var first, recent := SystemAlert("7c15", 0, "old"), SystemAlert("7c15", 9, "recent");
    var h := [first, recent];
    assert h[WindowStart(2, 1)..] == [recent];
    assert FindEntry(h, "7c15") == Some(0);
    assert RemoveAt(h, 0) == [recent];
  }

  /** With distinct ids, an allowed edit hits one entry, at some position inside the window. */
  lemma EditPosition(h: seq<HistoryEntry>, window: nat, id: AgentId) returns (p: nat)
    requires DistinctIds(h) && Modifiable(h, window, id)
    ensures WindowStart(|h|, window) <= p < |h| && FindEntry(h, id) == Some(p)
  {
    var n := WindowStart(|h|, window);
    p := n + FindEntry(h[n..], id).value;
  }

  /** What one allowed edit leaves alone. */
  ghost predicate Frozen(h: seq<HistoryEntry>, next: seq<HistoryEntry>, window: nat) {
    && DistinctIds(next)
    && |h| - 1 <= |next| <= |h|
    && Untouched(h, next, WindowStart(|next|, window))
    && IsSubsequence(Stamps(next), Stamps(h))
  }

  lemma FrozenUpdate(h: seq<HistoryEntry>, window: nat, p: nat, text: string)
    requires DistinctIds(h) && WindowStart(|h|, window) <= p < |h|
    ensures Frozen(h, h[p := Summary(h[p].id, h[p].time, text)], window)
  {
    var next := h[p := Summary(h[p].id, h[p].time, text)];
    assert Stamps(next) == Stamps(h);
    SubsequenceRefl(Stamps(h));
  }

  lemma FrozenRemoval(h: seq<HistoryEntry>, window: nat, p: nat)
    requires DistinctIds(h) && WindowStart(|h|, window) <= p < |h|
    ensures Frozen(h, RemoveAt(h, p), window)
  {
    assert Stamps(RemoveAt(h, p)) == RemoveAt(Stamps(h), p);
    SubsequenceRemoveAt(Stamps(h), p);
  }

  lemma FrozenStep(h: seq<HistoryEntry>, window: nat, op: HistoryOp)
    requires DistinctIds(h)
    ensures Frozen(h, Apply(h, window, false, op), window)
  {
    if Modifiable(h, window, op.id) {
      var p := EditPosition(h, window, op.id);
      match op {
        case Replace(_, text) => FrozenUpdate(h, window, p, text);
        case Remove(_) => FrozenRemoval(h, window, p);
      }
    } else {
      SubsequenceRefl(Stamps(h));
    }
  }

  lemma UntouchedTrans(a: seq<HistoryEntry>, b: seq<HistoryEntry>, c: seq<HistoryEntry>, m: nat, n: nat)
    requires Untouched(a, b, m) && Untouched(b, c, n) && n <= m
    ensures Untouched(a, c, n)
  {
    assert a[..n] == a[..m][..n] == b[..m][..n] == b[..n];
  }

  /**
   * Frozen history: over any script, with `r` successful removals, the length drops by exactly `r`
   * and the first `L - w - r` entries are untouched.
   */
  lemma {:induction false} FrozenPrefix(h: seq<HistoryEntry>, window: nat, ops: seq<HistoryOp>)
    requires DistinctIds(h)
    ensures var out := ApplyAll(h, window, false, ops);
            var r := Removals(h, window, false, ops);
            |out| == |h| - r && Untouched(h, out, WindowStart(|h| - r, window))
    decreases ops
  {
    if ops != [] {
      var next := Apply(h, window, false, ops[0]);
      var out := ApplyAll(next, window, false, ops[1..]);
      FrozenStep(h, window, ops[0]);
      FrozenPrefix(next, window, ops[1..]);
      UntouchedTrans(h, next, out, WindowStart(|next|, window), WindowStart(|out|, window));
    }
  }

  /** Whatever survives a script keeps its order, id and time; ids stay distinct. */
  lemma {:induction false} SurvivorsKeepStamps(h: seq<HistoryEntry>, window: nat, ops: seq<HistoryOp>)
    requires DistinctIds(h)
    ensures var out := ApplyAll(h, window, false, ops);
            IsSubsequence(Stamps(out), Stamps(h)) && DistinctIds(out)
    decreases ops
  {
    if ops == [] {
      SubsequenceRefl(Stamps(h));
    } else {
      var next := Apply(h, window, false, ops[0]);
      FrozenStep(h, window, ops[0]);
      SurvivorsKeepStamps(next, window, ops[1..]);
      SubsequenceTrans(Stamps(ApplyAll(next, window, false, ops[1..])), Stamps(next), Stamps(h));
    }
  }

  /** So a script that only replaces leaves the whole immutable prefix exactly as it was. */
  lemma ReplacementsKeepPrefix(h: seq<HistoryEntry>, window: nat, ops: seq<HistoryOp>)
    requires DistinctIds(h) && forall i :: 0 <= i < |ops| ==> ops[i].Replace?
    ensures var out := ApplyAll(h, window, false, ops);
            |out| == |h| && Untouched(h, out, WindowStart(|h|, window))
  {
    FrozenPrefix(h, window, ops);
    NoRemovals(h, window, ops);
  }

  lemma {:induction false} NoRemovals(h: seq<HistoryEntry>, window: nat, ops: seq<HistoryOp>)
    requires forall i :: 0 <= i < |ops| ==> ops[i].Replace?
    ensures Removals(h, window, false, ops) == 0
    decreases ops
  {
    if ops != [] { NoRemovals(Apply(h, window, false, ops[0]), window, ops[1..]); }
  }

  // ---- The removal term is needed: the window slides back over a live, shrinking list ----

  lemma RemoveNewest(h: seq<HistoryEntry>, window: nat)
    requires DistinctIds(h) && window >= 1 && h != []
    ensures Apply(h, window, false, Remove(h[|h| - 1].id)) == h[..|h| - 1]
  {
    var last := |h| - 1;
    var start := WindowStart(|h|, window);
    assert RemoveAt(h, last) == h[..last];
  }

  lemma UnfoldScript(h: seq<HistoryEntry>, window: nat, op: HistoryOp, rest: seq<HistoryOp>)
    ensures var next := Apply(h, window, false, op);
            && ApplyAll(h, window, false, [op] + rest) == ApplyAll(next, window, false, rest)
            && Removals(h, window, false, [op] + rest)
               == (if |next| < |h| then 1 else 0) + Removals(next, window, false, rest)
  {
    assert ([op] + rest)[1..] == rest;
  }

  /** The script `ops` makes `r` removals, the newest `r` entries, and rewrites entry `m`. */
  ghost predicate SlidesBack(h: seq<HistoryEntry>, window: nat, ops: seq<HistoryOp>, r: nat, m: nat, text: string)
    requires m + r < |h|
  {
    && Removals(h, window, false, ops) == r
    && ApplyAll(h, window, false, ops) == h[..|h| - r][m := Summary(h[m].id, h[m].time, text)]
  }

  lemma SlideBackBase(h: seq<HistoryEntry>, window: nat, m: nat, text: string)
    requires DistinctIds(h) && window >= 1 && m == |h| - window
    ensures SlidesBack(h, window, [Replace(h[m].id, text)], 0, m, text)
  {
    UnfoldScript(h, window, Replace(h[m].id, text), []);
    assert [Replace(h[m].id, text)] + [] == [Replace(h[m].id, text)];
    assert h[..|h| - 0] == h;
  }

  lemma SlideBackStep(h: seq<HistoryEntry>, next: seq<HistoryEntry>, window: nat, ops: seq<HistoryOp>, r: nat, m: nat, text: string)
    requires DistinctIds(h) && window >= 1 && r >= 1 && m + r < |h| && next == h[..|h| - 1]
    requires SlidesBack(next, window, ops, r - 1, m, text)
    ensures SlidesBack(h, window, [Remove(h[|h| - 1].id)] + ops, r, m, text)
  {
    RemoveNewest(h, window);
    UnfoldScript(h, window, Remove(h[|h| - 1].id), ops);
    assert next[..|next| - (r - 1)] == h[..|h| - r];
  }

  /** For every `r`, some script with `r` removals rewrites the entry just past the first `L - w - r`. */
  lemma {:induction false} FrozenBoundIsTight(h: seq<HistoryEntry>, window: nat, r: nat, m: nat, text: string)
    returns (ops: seq<HistoryOp>)
    requires DistinctIds(h) && window >= 1 && m == |h| - window - r
    ensures SlidesBack(h, window, ops, r, m, text)
    decreases r
  {
    if r == 0 {
      ops := [Replace(h[m].id, text)];
      SlideBackBase(h, window, m, text);
    } else {
      var next := h[..|h| - 1];
      assert DistinctIds(next);
      var rest := FrozenBoundIsTight(next, window, r - 1, m, text);
      SlideBackStep(h, next, window, rest, r, m, text);
      ops := [Remove(h[|h| - 1].id)] + rest;
    }
  }
}
