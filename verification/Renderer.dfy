/**
 * Cache-aware rendering (src/renderer.rs `render_context`, src/api_client.rs `build_request`).
 * Text is a sequence of bytes, written as characters; how one entry is rendered is a parameter.
 */
module Renderer {
  import opened Base
  import opened Items
  import opened CacheTiers
  import opened Histories

  type Bytes = string

  /** The service ignores a breakpoint on a segment shorter than this. */
  const MIN_CACHE_CHARS: nat := 8192
  const IMAGE_WEIGHT: nat := 4096
  const MAX_BREAKPOINTS: nat := 4
  const OPEN_HISTORY: Bytes := "<event_history>\n"
  const CLOSE_HISTORY: Bytes := "</event_history>\n"

  datatype RolePrefix = RolePrefix(context: Bytes, attach: seq<string>)

  /** Everything one rendering depends on. `volatile` is agent state, metadata and work queue. */
  datatype Input = Input(
    deployment: Bytes,
    role: Option<RolePrefix>,
    entries: seq<HistoryEntry>,
    window: nat,
    stride: nat,
    tiers: nat,
    volatile: Bytes,
    attachments: seq<string>)

  datatype RenderedContext = RenderedContext(
    prefixText: Bytes,
    prefixAttachments: seq<string>,
    cachedSegments: seq<Bytes>,
    text: Bytes,
    attachments: seq<string>)

  type EntryRenderer = HistoryEntry -> Bytes

  // ---- What is rendered ----

  function EndLine(s: Bytes): Bytes {
    if s == "" || s[|s| - 1] == '\n' then s else s + "\n"
  }

  /** Deployment context and role context: the part that never changes. */
  function Head(x: Input): Bytes {
    "<deployment_context>\n" + EndLine(x.deployment) + "</deployment_context>\n"
    + if x.role.Some? && x.role.value.context != ""
      then EndLine("<role_context>\n" + x.role.value.context) + "</role_context>\n" else ""
  }

  function PrefixImages(x: Input): seq<string> {
    if x.role.Some? then x.role.value.attach else []
  }

  /** Breakpoints left for history tiers once the system prompt and the images have theirs. */
  function Tiers(x: Input): nat {
    var budget := if PrefixImages(x) == [] then 3 else 2;
    if x.tiers <= budget then x.tiers else budget
  }

  function Cuts(x: Input): (cuts: seq<nat>)
    ensures |cuts| >= 1
  {
    Splits(WindowStart(|x.entries|, x.window), x.stride, Tiers(x))
  }

  function PrefixText(x: Input): Bytes {
    if PrefixImages(x) == [] then "" else Head(x)
  }

  function Opening(x: Input): Bytes {
    if PrefixImages(x) == [] then Head(x) + OPEN_HISTORY else OPEN_HISTORY
  }

  /** Entries `lo` up to but not including `hi`, one after the other. */
  function RenderRange(render: EntryRenderer, entries: seq<HistoryEntry>, lo: nat, hi: nat): Bytes
    requires hi <= |entries|
  {
    if hi <= lo then "" else RenderRange(render, entries, lo, hi - 1) + render(entries[hi - 1])
  }

  /** Cut `i` kept within the history; every real cut already is. */
  function CutAt(x: Input, i: nat): (cut: nat)
    requires i < |Cuts(x)|
    ensures cut <= |x.entries|
  {
    if Cuts(x)[i] <= |x.entries| then Cuts(x)[i] else |x.entries|
  }

  function Segment(render: EntryRenderer, x: Input, i: nat): Bytes
    requires i < |Cuts(x)|
  {
    if i == 0 then Opening(x) + RenderRange(render, x.entries, 0, CutAt(x, 0))
    else RenderRange(render, x.entries, CutAt(x, i - 1), CutAt(x, i))
  }

  function Segments(render: EntryRenderer, x: Input): (segs: seq<Bytes>)
    ensures |segs| == |Cuts(x)|
  {
    seq(|Cuts(x)|, i requires 0 <= i < |Cuts(x)| => Segment(render, x, i))
  }

  function Tail(render: EntryRenderer, x: Input): Bytes {
    RenderRange(render, x.entries, CutAt(x, |Cuts(x)| - 1), |x.entries|) + CLOSE_HISTORY + x.volatile
  }

  /** Running state of the greedy merge: finished segments, bytes waiting, and their weight. */
  datatype Merge = Merge(cached: seq<Bytes>, acc: Bytes, effective: nat)

  function MergeUpTo(segs: seq<Bytes>, n: nat, boost: nat): Merge
    requires n <= |segs|
  {
    if n == 0 then Merge([], "", boost)
    else
      var m := MergeUpTo(segs, n - 1, boost);
      var acc, effective := m.acc + segs[n - 1], m.effective + |segs[n - 1]|;
      if effective >= MIN_CACHE_CHARS then Merge(m.cached + [acc], "", 0) else Merge(m.cached, acc, effective)
  }

  function Boost(x: Input): nat {
    |PrefixText(x)| + |PrefixImages(x)| * IMAGE_WEIGHT
  }

  function MergedSegments(render: EntryRenderer, x: Input): Merge {
    var segs := Segments(render, x);
    MergeUpTo(segs, |segs|, Boost(x))
  }

  function RenderedText(render: EntryRenderer, x: Input): Bytes {
    PrefixText(x) + Flatten(Segments(render, x)) + Tail(render, x)
  }

  function Rendered(render: EntryRenderer, x: Input): RenderedContext {
    RenderedContext(
      PrefixText(x), PrefixImages(x), MergedSegments(render, x).cached, RenderedText(render, x), x.attachments)
  }

  // ---- The code ----

  method RenderHistoryRange(out: Bytes, render: EntryRenderer, entries: seq<HistoryEntry>, lo: nat, hi: nat)
    returns (grown: Bytes)
    requires lo <= hi <= |entries|
    ensures grown == out + RenderRange(render, entries, lo, hi)
  {
    grown := out;
    for i := lo to hi
      invariant grown == out + RenderRange(render, entries, lo, i)
    {
      grown := grown + render(entries[i]);
    }
  }

  /** Slices the history at the cuts; the head goes into the first slice unless images split it off. */
  method BuildSegments(render: EntryRenderer, x: Input, first: Bytes) returns (segs: seq<Bytes>, prevSplit: nat)
    requires first == Opening(x)
    ensures segs == Segments(render, x)
    ensures prevSplit == CutAt(x, |Cuts(x)| - 1)
  {
    CutsInOrder(x);
    var splits := Cuts(x);
    segs, prevSplit := [], 0;
    for i := 0 to |splits|
      invariant prevSplit == if i == 0 then 0 else splits[i - 1]
      invariant |segs| == i && forall j :: 0 <= j < i ==> segs[j] == Segment(render, x, j)
    {
      var target := if i == 0 then first else "";
      target := RenderHistoryRange(target, render, x.entries, prevSplit, splits[i]);
      segs := segs + [target];
      prevSplit := splits[i];
    }
  }

  /** Merges small segments forward until each clears the threshold. */
  method MergeSegments(segs: seq<Bytes>, boost: nat) returns (cached: seq<Bytes>)
    ensures cached == MergeUpTo(segs, |segs|, boost).cached
  {
    cached := [];
    var acc := "";
    var effective: nat := boost;
    for i := 0 to |segs|
      invariant MergeUpTo(segs, i, boost) == Merge(cached, acc, effective)
    {
      acc := acc + segs[i];
      effective := effective + |segs[i]|;
      if effective >= MIN_CACHE_CHARS {
        cached := cached + [acc];
        acc := "";
        effective := 0;
      }
    }
  }

  method Concatenate(start: Bytes, parts: seq<Bytes>) returns (text: Bytes)
    ensures text == start + Flatten(parts)
  {
    text := start;
    for i := 0 to |parts|
      invariant text == start + Flatten(parts[..i])
    {
      assert parts[..i + 1] == parts[..i] + [parts[i]];
      FlattenSnoc(parts[..i], parts[i]);
      text := text + parts[i];
    }
    assert parts[..|parts|] == parts;
  }

  method RenderHistory(render: EntryRenderer, x: Input, first: Bytes) returns (segs: seq<Bytes>, tail: Bytes)
    requires first == Opening(x)
    ensures segs == Segments(render, x) && tail == Tail(render, x)
  {
    CutsInOrder(x);
    var prevSplit;
    segs, prevSplit := BuildSegments(render, x, first);
    tail := RenderHistoryRange("", render, x.entries, prevSplit, |x.entries|);
    assert tail == RenderRange(render, x.entries, prevSplit, |x.entries|);
    tail := tail + CLOSE_HISTORY;
    tail := tail + x.volatile;
  }

  /** Images must sit between text blocks, so they force the head out of the first segment. */
  method SplitHead(x: Input) returns (prefixText: Bytes, images: seq<string>, first: Bytes)
    ensures prefixText == PrefixText(x) && images == PrefixImages(x) && first == Opening(x)
  {
    images := match x.role case Some(role) => role.attach case None => [];
    if images == [] {
      prefixText, first := "", Head(x) + OPEN_HISTORY;
    } else {
      prefixText, first := Head(x), OPEN_HISTORY;
    }
  }

  method RenderContext(render: EntryRenderer, x: Input) returns (r: RenderedContext)
    ensures r == Rendered(render, x)
  {
    var prefixText, images, first := SplitHead(x);
    var segs, tail := RenderHistory(render, x, first);
    var text := Concatenate(prefixText, segs);
    var cached := MergeSegments(segs, |prefixText| + |images| * IMAGE_WEIGHT);
    r := RenderedContext(prefixText, images, cached, text + tail, x.attachments);
  }

  // ---- Segmented rendering equals flat rendering ----

  lemma CutsInOrder(x: Input)
    ensures var cuts := Cuts(x);
            && (forall i, j :: 0 <= i <= j < |cuts| ==> cuts[i] <= cuts[j])
            && (forall i :: 0 <= i < |cuts| ==> cuts[i] <= WindowStart(|x.entries|, x.window) && CutAt(x, i) == cuts[i])
  {
    if x.stride > 0 && Tiers(x) > 0 { SplitsShape(WindowStart(|x.entries|, x.window), x.stride, Tiers(x)); }
  }

  lemma {:induction false} RenderRangeJoin(render: EntryRenderer, entries: seq<HistoryEntry>, lo: nat, mid: nat, hi: nat)
    requires lo <= mid <= hi <= |entries|
    ensures RenderRange(render, entries, lo, mid) + RenderRange(render, entries, mid, hi)
         == RenderRange(render, entries, lo, hi)
    decreases hi
  {
    if mid < hi { RenderRangeJoin(render, entries, lo, mid, hi - 1); }
  }

  lemma {:induction false} SegmentsJoin(render: EntryRenderer, x: Input, n: nat)
    requires 1 <= n <= |Cuts(x)|
    ensures Flatten(Segments(render, x)[..n]) == Opening(x) + RenderRange(render, x.entries, 0, CutAt(x, n - 1))
  {
    var segs := Segments(render, x);
    assert segs[..n] == segs[..n - 1] + [segs[n - 1]];
    FlattenSnoc(segs[..n - 1], segs[n - 1]);
    if n == 1 {
      assert segs[..0] == [];
    } else {
      SegmentsJoin(render, x, n - 1);
      CutsInOrder(x);
      RenderRangeJoin(render, x.entries, 0, CutAt(x, n - 2), CutAt(x, n - 1));
    }
  }

  lemma Regroup<T>(prefix: seq<T>, opening: seq<T>, cold: seq<T>, warm: seq<T>, close: seq<T>, rest: seq<T>)
    ensures prefix + (opening + cold) + (warm + close + rest) == prefix + opening + (cold + warm) + close + rest
  {}

  /** The cuts leave no trace in the text: it is the head, every entry once and in order, and the rest. */
  lemma SegmentedEqualsFlat(render: EntryRenderer, x: Input)
    ensures RenderedText(render, x)
         == Head(x) + OPEN_HISTORY + RenderRange(render, x.entries, 0, |x.entries|) + CLOSE_HISTORY + x.volatile
  {
    var segs := Segments(render, x);
    var last := CutAt(x, |Cuts(x)| - 1);
    SegmentsJoin(render, x, |segs|);
    assert segs[..|segs|] == segs;
    RenderRangeJoin(render, x.entries, 0, last, |x.entries|);
    Regroup(PrefixText(x), Opening(x), RenderRange(render, x.entries, 0, last),
            RenderRange(render, x.entries, last, |x.entries|), CLOSE_HISTORY, x.volatile);
    assert PrefixText(x) + Opening(x) == Head(x) + OPEN_HISTORY;
  }

  /**
   * The merge loses nothing: finished segments, then what still waits, are the segments in order. Every
   * finished segment reaches the threshold, the first one counting the prefix in front of it; what still
   * waits does not.
   */
  lemma {:induction false} MergeConserves(segs: seq<Bytes>, n: nat, boost: nat)
    requires n <= |segs|
    ensures var m := MergeUpTo(segs, n, boost);
            && Flatten(m.cached) + m.acc == Flatten(segs[..n])
            && |m.acc| <= m.effective && |m.cached| <= n
            && m.effective == |m.acc| + (if m.cached == [] then boost else 0)
            && (n >= 1 ==> m.effective < MIN_CACHE_CHARS)
    ensures var cached := MergeUpTo(segs, n, boost).cached;
            forall i :: 0 <= i < |cached| ==> |cached[i]| + (if i == 0 then boost else 0) >= MIN_CACHE_CHARS
  {
    if n == 0 {
      assert segs[..0] == [];
    } else {
      MergeConserves(segs, n - 1, boost);
      var m := MergeUpTo(segs, n - 1, boost);
      assert segs[..n] == segs[..n - 1] + [segs[n - 1]];
      FlattenSnoc(segs[..n - 1], segs[n - 1]);
      FlattenSnoc(m.cached, m.acc + segs[n - 1]);
      assert Flatten(m.cached) + (m.acc + segs[n - 1]) == (Flatten(m.cached) + m.acc) + segs[n - 1];
    }
  }

  lemma RegroupTail<T>(prefix: seq<T>, cached: seq<T>, left: seq<T>, tail: seq<T>)
    ensures prefix + (cached + left) + tail == prefix + cached + (left + tail)
  {}

  /** Prefix, cached segments, residual and tail, end to end, are the text; the residual is small. */
  lemma TextIsPrefixCachedTail(render: EntryRenderer, x: Input)
    ensures var m := MergedSegments(render, x);
            && RenderedText(render, x) == PrefixText(x) + Flatten(m.cached) + (m.acc + Tail(render, x))
            && |m.acc| < MIN_CACHE_CHARS
            && |m.cached| <= |Cuts(x)|
  {
    var segs, m := Segments(render, x), MergedSegments(render, x);
    MergeConserves(segs, |segs|, Boost(x));
    assert segs[..|segs|] == segs;
    RegroupTail(PrefixText(x), Flatten(m.cached), m.acc, Tail(render, x));
  }

  // ---- Cached bytes are stable while history grows ----

  lemma {:induction false} SameEntriesSameBytes(render: EntryRenderer, a: seq<HistoryEntry>, b: seq<HistoryEntry>, lo: nat, hi: nat)
    requires hi <= |a| && hi <= |b| && a[..hi] == b[..hi]
    ensures RenderRange(render, a, lo, hi) == RenderRange(render, b, lo, hi)
    decreases hi
  {
    if lo < hi {
      assert a[..hi - 1] == a[..hi][..hi - 1] && b[..hi - 1] == b[..hi][..hi - 1];
      SameEntriesSameBytes(render, a, b, lo, hi - 1);
      assert a[hi - 1] == a[..hi][hi - 1] && b[hi - 1] == b[..hi][hi - 1];
    }
  }

  lemma {:induction false} MergePrefix(a: seq<Bytes>, b: seq<Bytes>, n: nat, boost: nat)
    requires n <= |a| && n <= |b| && a[..n] == b[..n]
    ensures MergeUpTo(a, n, boost) == MergeUpTo(b, n, boost)
  {
    if n > 0 {
      assert a[..n - 1] == a[..n][..n - 1] && b[..n - 1] == b[..n][..n - 1];
      MergePrefix(a, b, n - 1, boost);
      assert a[n - 1] == a[..n][n - 1] && b[n - 1] == b[..n][n - 1];
    }
  }

  /** A finished segment stays finished: the merge of a prefix is a prefix of the whole merge. */
  lemma {:induction false} MergeGrows(segs: seq<Bytes>, n: nat, m: nat, boost: nat)
    requires n <= m <= |segs|
    ensures MergeUpTo(segs, n, boost).cached <= MergeUpTo(segs, m, boost).cached
    decreases m
  {
    if n < m { MergeGrows(segs, n, m - 1, boost); }
  }

  /** `b` is a later `a`: same head and tiers, and the first `n` entries untouched. */
  ghost predicate Shares(a: Input, b: Input, n: nat) {
    && b.deployment == a.deployment && b.role == a.role && b.stride == a.stride && b.tiers == a.tiers
    && Untouched(a.entries, b.entries, n)
  }

  /** Tier `k`'s cut has not moved, and the entries before it are untouched. */
  ghost predicate KeepsTier(a: Input, b: Input, k: nat) {
    && k < |Cuts(a)| == |Cuts(b)| && Cuts(a)[k] == Cuts(b)[k]
    && Shares(a, b, Cuts(a)[k])
  }

  /** The segments that the greedy merge has finished once it has taken tiers 0 to `k`. */
  function CachedThrough(render: EntryRenderer, x: Input, k: nat): seq<Bytes>
    requires k < |Cuts(x)|
  {
    MergeUpTo(Segments(render, x), k + 1, Boost(x)).cached
  }

  lemma SegmentsAgree(render: EntryRenderer, a: Input, b: Input, k: nat)
    requires KeepsTier(a, b, k)
    ensures Segments(render, a)[..k + 1] == Segments(render, b)[..k + 1]
  {
    var n := Cuts(a)[k];
    ColderSplitsAgree(WindowStart(|a.entries|, a.window), WindowStart(|b.entries|, b.window), a.stride, Tiers(a), k);
    CutsInOrder(a);
    CutsInOrder(b);
    forall i | 0 <= i <= k ensures Segment(render, a, i) == Segment(render, b, i) {
      var hi := CutAt(a, i);
      assert a.entries[..hi] == a.entries[..n][..hi] && b.entries[..hi] == b.entries[..n][..hi];
      SameEntriesSameBytes(render, a.entries, b.entries, if i == 0 then 0 else CutAt(a, i - 1), hi);
    }
  }

  lemma CachedThroughAgree(render: EntryRenderer, a: Input, b: Input, k: nat)
    requires KeepsTier(a, b, k)
    ensures CachedThrough(render, a, k) == CachedThrough(render, b, k)
  {
    SegmentsAgree(render, a, b, k);
    assert Boost(a) == Boost(b);
    MergePrefix(Segments(render, a), Segments(render, b), k + 1, Boost(a));
  }

  lemma CachedThroughIsPrefix(render: EntryRenderer, x: Input, k: nat)
    requires k < |Cuts(x)|
    ensures CachedThrough(render, x, k) <= MergedSegments(render, x).cached
    ensures k == |Cuts(x)| - 1 ==> CachedThrough(render, x, k) == MergedSegments(render, x).cached
  {
    var segs, boost := Segments(render, x), Boost(x);
    assert MergedSegments(render, x) == MergeUpTo(segs, |segs|, boost);
    MergeGrows(segs, k + 1, |segs|, boost);
  }

  /**
   * Cached bytes are stable under growth: if tier `k`'s cut did not move, then every cached segment
   * that ends at or before tier `k` is, byte for byte, the same segment of the next request; and if
   * the hottest cut did not move, all cached segments are the same.
   */
  lemma CachedBytesStable(render: EntryRenderer, a: Input, b: Input, k: nat)
    requires KeepsTier(a, b, k)
    ensures CachedThrough(render, a, k) == CachedThrough(render, b, k)
    ensures CachedThrough(render, a, k) <= Rendered(render, a).cachedSegments
    ensures CachedThrough(render, a, k) <= Rendered(render, b).cachedSegments
    ensures k == |Cuts(a)| - 1 ==> Rendered(render, a).cachedSegments == Rendered(render, b).cachedSegments
  {
    CachedThroughAgree(render, a, b, k);
    CachedThroughIsPrefix(render, a, k);
    CachedThroughIsPrefix(render, b, k);
  }

  /** History that has only grown behind the immutable entries keeps every tier whose cut has not moved. */
  lemma GrowthKeepsTier(a: Input, b: Input, k: nat)
    requires Shares(a, b, WindowStart(|a.entries|, a.window))
    requires k < |Cuts(a)| == |Cuts(b)| && Cuts(a)[k] == Cuts(b)[k]
    ensures KeepsTier(a, b, k)
  {
    CutsInOrder(a);
    CutsInOrder(b);
    UntouchedLess(a.entries, b.entries, WindowStart(|a.entries|, a.window), Cuts(a)[k]);
  }

  lemma UntouchedLess(before: seq<HistoryEntry>, after: seq<HistoryEntry>, n: nat, fewer: nat)
    requires Untouched(before, after, n) && fewer <= n
    ensures Untouched(before, after, fewer)
  {
    assert after[..fewer] == after[..n][..fewer] && before[..fewer] == before[..n][..fewer];
  }

  /** The cut of tier `k` stays for a whole period of its alignment, and so do its cached bytes. */
  lemma CachedForAPeriod(render: EntryRenderer, a: Input, b: Input, k: nat)
    requires Shares(a, b, WindowStart(|a.entries|, a.window)) && a.stride > 0 && k < Tiers(a)
    requires Pow(a.stride, Tiers(a) - k) > 0
    requires var start := AlignDown(WindowStart(|a.entries|, a.window), Pow(a.stride, Tiers(a) - k));
             start <= WindowStart(|b.entries|, b.window) < start + Pow(a.stride, Tiers(a) - k)
    ensures CachedThrough(render, a, k) == CachedThrough(render, b, k)
    ensures CachedThrough(render, a, k) <= Rendered(render, b).cachedSegments
  {
    TierPeriod(WindowStart(|a.entries|, a.window), WindowStart(|b.entries|, b.window), Pow(a.stride, Tiers(a) - k));
    GrowthKeepsTier(a, b, k);
    CachedBytesStable(render, a, b, k);
  }

  /**
   * A turn whose script makes `r` successful removals and any rewrites, followed by any new entries,
   * keeps the cached bytes of every tier whose cut did not move and lies within the first `L - w - r`
   * entries.
   */
  lemma TurnKeepsCache(render: EntryRenderer, a: Input, b: Input, ops: seq<HistoryOp>, added: seq<HistoryEntry>, k: nat)
    requires DistinctIds(a.entries)
    requires b.deployment == a.deployment && b.role == a.role && b.stride == a.stride && b.tiers == a.tiers
    requires b.entries == ApplyAll(a.entries, a.window, false, ops) + added
    requires k < |Cuts(a)| == |Cuts(b)| && Cuts(a)[k] == Cuts(b)[k]
    requires var r := Removals(a.entries, a.window, false, ops);
             r <= |a.entries| ==> Cuts(a)[k] <= WindowStart(|a.entries| - r, a.window)
    ensures CachedThrough(render, a, k) == CachedThrough(render, b, k)
    ensures CachedThrough(render, a, k) <= Rendered(render, b).cachedSegments
  {
    FrozenPrefix(a.entries, a.window, ops);
    var n := WindowStart(|a.entries| - Removals(a.entries, a.window, false, ops), a.window);
    UntouchedBehind(a.entries, ApplyAll(a.entries, a.window, false, ops), added, n);
    UntouchedLess(a.entries, b.entries, n, Cuts(a)[k]);
    CachedBytesStable(render, a, b, k);
  }

  lemma UntouchedBehind(before: seq<HistoryEntry>, after: seq<HistoryEntry>, added: seq<HistoryEntry>, n: nat)
    requires Untouched(before, after, n)
    ensures Untouched(before, after + added, n)
  {
    assert (after + added)[..n] == after[..n];
  }

  /** A script that only rewrites meets that condition at every tier. */
  lemma RewritesKeepCache(render: EntryRenderer, a: Input, b: Input, ops: seq<HistoryOp>, added: seq<HistoryEntry>, k: nat)
    requires DistinctIds(a.entries) && forall i :: 0 <= i < |ops| ==> ops[i].Replace?
    requires b.deployment == a.deployment && b.role == a.role && b.stride == a.stride && b.tiers == a.tiers
    requires b.entries == ApplyAll(a.entries, a.window, false, ops) + added
    requires k < |Cuts(a)| == |Cuts(b)| && Cuts(a)[k] == Cuts(b)[k]
    ensures CachedThrough(render, a, k) == CachedThrough(render, b, k)
    ensures CachedThrough(render, a, k) <= Rendered(render, b).cachedSegments
  {
    NoRemovals(a.entries, a.window, ops);
    CutsInOrder(a);
    TurnKeepsCache(render, a, b, ops, added, k);
  }

  // ---- The request: blocks and breakpoints ----

  datatype Block = Text(text: Bytes, cached: bool) | Image(path: string, cached: bool)

  /**
   * `resolve_attachment`: an image file becomes an image, any other file a text block that quotes it, and
   * one that cannot be read a text block that says so. The quoted text is a parameter.
   */
  type Resolver = string -> Option<Bytes>

  function Resolve(quote: Resolver, path: string, cached: bool): Block {
    match quote(path) case None => Image(path, cached) case Some(text) => Text(text, cached)
  }

  /** The blocks of some attachments; the last one may carry a breakpoint. */
  function AttachedBlocks(quote: Resolver, paths: seq<string>, cachedLast: bool): seq<Block> {
    seq(|paths|, i requires 0 <= i < |paths| => Resolve(quote, paths[i], cachedLast && i == |paths| - 1))
  }

  /** What the attachments put in quotes, in order. */
  function Quoted(quote: Resolver, paths: seq<string>): Bytes {
    if paths == [] then ""
    else (match quote(paths[0]) case None => "" case Some(text) => text) + Quoted(quote, paths[1..])
  }

  function PrefixBlocks(quote: Resolver, r: RenderedContext): seq<Block> {
    (if r.prefixText == "" then [] else [Text(r.prefixText, false)]) + AttachedBlocks(quote, r.prefixAttachments, true)
  }

  function CachedBlocks(cached: seq<Bytes>): seq<Block> {
    seq(|cached|, i requires 0 <= i < |cached| => Text(cached[i], true))
  }

  function TailBlocks(quote: Resolver, tail: Bytes, attachments: seq<string>): seq<Block> {
    [Text(tail, false)] + AttachedBlocks(quote, attachments, false)
  }

  /** The byte offset at which the uncached tail starts. */
  function TailOffset(r: RenderedContext): nat {
    |r.prefixText| + |Flatten(r.cachedSegments)|
  }

  method CachedLength(cached: seq<Bytes>) returns (total: nat)
    ensures total == |Flatten(cached)|
  {
    total := 0;
    for i := 0 to |cached|
      invariant total == |Flatten(cached[..i])|
    {
      assert cached[..i + 1] == cached[..i] + [cached[i]];
      FlattenSnoc(cached[..i], cached[i]);
      total := total + |cached[i]|;
    }
    assert cached[..|cached|] == cached;
  }

  method PushPrefix(quote: Resolver, r: RenderedContext) returns (blocks: seq<Block>)
    ensures blocks == PrefixBlocks(quote, r)
  {
    blocks := if r.prefixText == "" then [] else [Text(r.prefixText, false)];
    var n := |r.prefixAttachments|;
    ghost var base, attached := blocks, AttachedBlocks(quote, r.prefixAttachments, true);
    for i := 0 to n
      invariant blocks == base + attached[..i]
    {
      blocks := blocks + [Resolve(quote, r.prefixAttachments[i], i == n - 1)];
    }
  }

  method PushCached(start: seq<Block>, cached: seq<Bytes>) returns (blocks: seq<Block>)
    ensures blocks == start + CachedBlocks(cached)
  {
    blocks := start;
    for i := 0 to |cached|
      invariant blocks == start + CachedBlocks(cached)[..i]
    {
      blocks := blocks + [Text(cached[i], true)];
    }
  }

  method PushTail(quote: Resolver, start: seq<Block>, tail: Bytes, attachments: seq<string>) returns (blocks: seq<Block>)
    ensures blocks == start + TailBlocks(quote, tail, attachments)
  {
    blocks := start + [Text(tail, false)];
    for i := 0 to |attachments|
      invariant blocks == start + TailBlocks(quote, tail, attachments)[..i + 1]
    {
      blocks := blocks + [Resolve(quote, attachments[i], false)];
    }
  }

  method BuildRequest(quote: Resolver, r: RenderedContext) returns (blocks: seq<Block>)
    requires TailOffset(r) <= |r.text|
    ensures blocks == Request(quote, r)
  {
    var cachedLen := CachedLength(r.cachedSegments);
    var tail := r.text[|r.prefixText| + cachedLen..];
    blocks := PushPrefix(quote, r);
    blocks := PushCached(blocks, r.cachedSegments);
    blocks := PushTail(quote, blocks, tail, r.attachments);
  }

  function Request(quote: Resolver, r: RenderedContext): seq<Block>
    requires TailOffset(r) <= |r.text|
  {
    PrefixBlocks(quote, r) + CachedBlocks(r.cachedSegments) + TailBlocks(quote, r.text[TailOffset(r)..], r.attachments)
  }

  /** The text of all the text blocks, those made of attachments included. */
  function BlockText(blocks: seq<Block>): Bytes {
    if blocks == [] then ""
    else (if blocks[0].Text? then blocks[0].text else "") + BlockText(blocks[1..])
  }

  function Breakpoints(blocks: seq<Block>): nat {
    if blocks == [] then 0 else (if blocks[0].cached then 1 else 0) + Breakpoints(blocks[1..])
  }

  lemma {:induction false} BlocksAppend(a: seq<Block>, b: seq<Block>)
    ensures BlockText(a + b) == BlockText(a) + BlockText(b)
    ensures Breakpoints(a + b) == Breakpoints(a) + Breakpoints(b)
  {
    if a == [] {
      assert a + b == b;
    } else {
      assert (a + b)[1..] == a[1..] + b;
      BlocksAppend(a[1..], b);
    }
  }

  lemma {:induction false} AttachedBlocksText(quote: Resolver, paths: seq<string>, cachedLast: bool)
    ensures BlockText(AttachedBlocks(quote, paths, cachedLast)) == Quoted(quote, paths)
    ensures Breakpoints(AttachedBlocks(quote, paths, cachedLast)) == if cachedLast && paths != [] then 1 else 0
  {
    if paths != [] {
      assert AttachedBlocks(quote, paths, cachedLast)[1..] == AttachedBlocks(quote, paths[1..], cachedLast);
      AttachedBlocksText(quote, paths[1..], cachedLast);
    }
  }

  lemma {:induction false} CachedBlocksText(cached: seq<Bytes>)
    ensures BlockText(CachedBlocks(cached)) == Flatten(cached) && Breakpoints(CachedBlocks(cached)) == |cached|
  {
    if cached != [] {
      assert CachedBlocks(cached)[1..] == CachedBlocks(cached[1..]);
      CachedBlocksText(cached[1..]);
    }
  }

  lemma PrefixBlocksText(quote: Resolver, r: RenderedContext)
    ensures BlockText(PrefixBlocks(quote, r)) == r.prefixText + Quoted(quote, r.prefixAttachments)
    ensures Breakpoints(PrefixBlocks(quote, r)) == if r.prefixAttachments == [] then 0 else 1
  {
    var head := if r.prefixText == "" then [] else [Text(r.prefixText, false)];
    BlocksAppend(head, AttachedBlocks(quote, r.prefixAttachments, true));
    AttachedBlocksText(quote, r.prefixAttachments, true);
    if head != [] { assert head[1..] == []; }
  }

  lemma TailBlocksText(quote: Resolver, tail: Bytes, attachments: seq<string>)
    ensures BlockText(TailBlocks(quote, tail, attachments)) == tail + Quoted(quote, attachments)
    ensures Breakpoints(TailBlocks(quote, tail, attachments)) == 0
  {
    BlocksAppend([Text(tail, false)], AttachedBlocks(quote, attachments, false));
    AttachedBlocksText(quote, attachments, false);
    assert [Text(tail, false)][1..] == [];
  }

  /** The rendered text with what the attachments quote put where the request puts it. */
  function WithQuotes(quote: Resolver, r: RenderedContext): Bytes
    requires |r.prefixText| <= |r.text|
  {
    r.text[..|r.prefixText|] + Quoted(quote, r.prefixAttachments) + r.text[|r.prefixText|..] + Quoted(quote, r.attachments)
  }

  lemma RegroupQuotes<T>(prefix: seq<T>, images: seq<T>, cached: seq<T>, tail: seq<T>, rest: seq<T>)
    ensures (prefix + images) + cached + (tail + rest) == prefix + images + (cached + tail) + rest
  {}

  lemma SplitText<T>(prefix: seq<T>, cached: seq<T>, tail: seq<T>, text: seq<T>)
    requires text == prefix + cached + tail
    ensures text[..|prefix|] == prefix && text[|prefix|..] == cached + tail && text[|prefix| + |cached|..] == tail
  {}

  /**
   * The request carries exactly the rendered text, in order, and around it nothing but what attachments
   * quote; its tail is what the merge left over plus the tail; and together with the system prompt's it
   * never has more than four breakpoints, whatever the attachments turn out to be.
   */
  lemma RequestCarriesText(quote: Resolver, render: EntryRenderer, x: Input)
    ensures var r := Rendered(render, x);
            && TailOffset(r) <= |r.text|
            && r.text[TailOffset(r)..] == MergedSegments(render, x).acc + Tail(render, x)
            && BlockText(Request(quote, r)) == WithQuotes(quote, r)
            && 1 + Breakpoints(Request(quote, r)) <= MAX_BREAKPOINTS
  {
    TextIsPrefixCachedTail(render, x);
    CarriesText(quote, Rendered(render, x), MergedSegments(render, x).acc + Tail(render, x));
  }

  lemma CarriesText(quote: Resolver, r: RenderedContext, tail: Bytes)
    requires r.text == r.prefixText + Flatten(r.cachedSegments) + tail
    ensures TailOffset(r) <= |r.text| && r.text[TailOffset(r)..] == tail
    ensures BlockText(Request(quote, r)) == WithQuotes(quote, r)
    ensures Breakpoints(Request(quote, r)) == |r.cachedSegments| + if r.prefixAttachments == [] then 0 else 1
  {
    var cached := Flatten(r.cachedSegments);
    SplitText(r.prefixText, cached, tail, r.text);
    RequestBlocks(quote, r);
    RegroupQuotes(r.prefixText, Quoted(quote, r.prefixAttachments), cached, tail, Quoted(quote, r.attachments));
  }

  lemma RequestBlocks(quote: Resolver, r: RenderedContext)
    requires TailOffset(r) <= |r.text|
    ensures BlockText(Request(quote, r))
         == (r.prefixText + Quoted(quote, r.prefixAttachments)) + Flatten(r.cachedSegments)
            + (r.text[TailOffset(r)..] + Quoted(quote, r.attachments))
    ensures Breakpoints(Request(quote, r)) == |r.cachedSegments| + if r.prefixAttachments == [] then 0 else 1
  {
    var tail := r.text[TailOffset(r)..];
    var prefix, cached := PrefixBlocks(quote, r), CachedBlocks(r.cachedSegments);
    BlocksAppend(prefix + cached, TailBlocks(quote, tail, r.attachments));
    BlocksAppend(prefix, cached);
    PrefixBlocksText(quote, r);
    CachedBlocksText(r.cachedSegments);
    TailBlocksText(quote, tail, r.attachments);
  }

  lemma RequestPrefix(quote: Resolver, r: RenderedContext, kept: seq<Bytes>)
    requires TailOffset(r) <= |r.text| && kept <= r.cachedSegments
    ensures PrefixBlocks(quote, r) + CachedBlocks(kept) <= Request(quote, r)
  {
    assert CachedBlocks(kept) <= CachedBlocks(r.cachedSegments);
  }

  /**
   * Up to and including tier `k`'s last cached block, the two requests are equal, block for block, as long
   * as the attached files are.
   */
  lemma RequestPrefixStable(quote: Resolver, render: EntryRenderer, a: Input, b: Input, k: nat)
    requires KeepsTier(a, b, k)
    ensures var ra, rb := Rendered(render, a), Rendered(render, b);
            var kept := PrefixBlocks(quote, ra) + CachedBlocks(CachedThrough(render, a, k));
            && TailOffset(ra) <= |ra.text| && TailOffset(rb) <= |rb.text|
            && kept <= Request(quote, ra) && kept <= Request(quote, rb)
  {
    RequestCarriesText(quote, render, a);
    RequestCarriesText(quote, render, b);
    CachedBytesStable(render, a, b, k);
    RequestPrefix(quote, Rendered(render, a), CachedThrough(render, a, k));
    RequestPrefix(quote, Rendered(render, b), CachedThrough(render, a, k));
    assert PrefixBlocks(quote, Rendered(render, a)) == PrefixBlocks(quote, Rendered(render, b));
  }
}
