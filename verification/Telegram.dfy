/** Splitting a long message for a service with a size limit (src/bridges/telegram.rs, `chunk_for_telegram`). */
module Telegram {
  import opened Base
  import opened Utf8

  const MAX: nat := 4096
  /** A cut gives up at most three bytes to reach a character boundary. */
  const MIN_CUT: nat := 4093
  const NEWLINE: u8 := 0x0A

  ghost predicate Bounded(chunks: seq<Bytes>) {
    forall i :: 0 <= i < |chunks| ==> 1 <= |chunks[i]| <= MAX && IsUtf8(chunks[i])
  }

  /** Any two neighbours together exceed what one chunk could nearly have held. */
  ghost predicate NearGreedy(chunks: seq<Bytes>) {
    forall i :: 0 <= i && i + 1 < |chunks| ==> |chunks[i]| + |chunks[i + 1]| > MIN_CUT
  }

  /** The end of the first line of `s`, its newline included (`split_inclusive`). */
  method LineEnd(s: Bytes) returns (end: nat)
    requires s != []
    ensures 1 <= end <= |s|
    ensures end < |s| ==> s[end - 1] == NEWLINE
    ensures forall i :: 0 <= i < end - 1 ==> s[i] != NEWLINE
  {
    end := 0;
    while end < |s|
      invariant 0 <= end <= |s|
      invariant forall i :: 0 <= i < end ==> s[i] != NEWLINE
    {
      end := end + 1;
      if s[end - 1] == NEWLINE {
        return;
      }
    }
  }

  lemma AppendChunk(out: seq<Bytes>, chunk: Bytes)
    requires Bounded(out) && NearGreedy(out)
    requires 1 <= |chunk| <= MAX && IsUtf8(chunk)
    requires out != [] ==> |out[|out| - 1]| + |chunk| > MIN_CUT
    ensures Bounded(out + [chunk]) && NearGreedy(out + [chunk])
    ensures Flatten(out + [chunk]) == Flatten(out) + chunk
  {
    FlattenSnoc(out, chunk);
  }

  lemma Regroup(a: Bytes, s: Bytes, i: nat)
    requires i <= |s|
    ensures (a + s[..i]) + s[i..] == a + s
  {
    assert s[..i] + s[i..] == s;
  }

  lemma Reassociate(a: Bytes, b: Bytes, c: Bytes)
    ensures (a + b) + c == a + (b + c)
  {}

  /** One cut of a line that is too long. */
  method CutOnce(start: seq<Bytes>, line: Bytes) returns (out: seq<Bytes>, rest: Bytes)
    requires Bounded(start) && NearGreedy(start) && IsUtf8(line) && |line| > MAX
    ensures Bounded(out) && NearGreedy(out) && IsUtf8(rest) && 1 <= |rest| < |line|
    ensures Flatten(out) + rest == Flatten(start) + line
    ensures |out| == |start| + 1 && start < out && MIN_CUT <= |out[|start|]|
  {
    var cut := SnapBack(line, MAX);
    CutAtBoundary(line, cut);
    AppendChunk(start, line[..cut]);
    Regroup(Flatten(start), line, cut);
    out := start + [line[..cut]];
    rest := line[cut..];
  }

  /** Cuts a line longer than the limit; what is left fits and is not empty. */
  method HardSplit(start: seq<Bytes>, line: Bytes) returns (out: seq<Bytes>, rest: Bytes)
    requires Bounded(start) && NearGreedy(start) && IsUtf8(line) && |line| > MAX
    ensures Bounded(out) && NearGreedy(out) && IsUtf8(rest) && 1 <= |rest| <= MAX
    ensures Flatten(out) + rest == Flatten(start) + line
    ensures out != [] && |out[|out| - 1]| >= MIN_CUT
  {
    out, rest := CutOnce(start, line);
    while |rest| > MAX
      invariant Bounded(out) && NearGreedy(out) && IsUtf8(rest) && |rest| >= 1
      invariant Flatten(out) + rest == Flatten(start) + line
      invariant out != [] && |out[|out| - 1]| >= MIN_CUT
      decreases |rest|
    {
      out, rest := CutOnce(out, rest);
    }
  }

  /** The first line of `s` and the rest, both well-formed. */
  method SplitLine(s: Bytes) returns (line: Bytes, rest: Bytes)
    requires s != [] && IsUtf8(s)
    ensures s == line + rest && line != [] && |rest| < |s|
    ensures IsUtf8(line) && IsUtf8(rest)
    ensures rest != [] ==> line[|line| - 1] == NEWLINE
    ensures forall i :: 0 <= i < |line| - 1 ==> line[i] != NEWLINE
  {
    var end := LineEnd(s);
    if end < |s| { BoundaryAfterAscii(s, end - 1); }
    CutAtBoundary(s, end);
    line, rest := s[..end], s[end..];
  }

  /**
   * Lossless, bounded and near-greedy for every UTF-8 string: the chunks concatenate to the content,
   * each is well-formed and at most 4096 bytes, and any two neighbours total at least 4094.
   */
  method ChunkForTelegram(content: Bytes) returns (out: seq<Bytes>)
    requires IsUtf8(content)
    ensures Flatten(out) == content
    ensures |content| <= MAX ==> out == [content]
    ensures |content| > MAX ==> Bounded(out) && NearGreedy(out)
  {
    if |content| <= MAX {
      FlattenSnoc([], content);
      return [content];
    }
    out := [];
    var cur: Bytes := [];
    var rest := content;
    while rest != []
      invariant IsUtf8(rest)
      invariant Open(out, cur)
      invariant Flatten(out) + cur + rest == content
      decreases |rest|
    {
      ghost var before := Flatten(out) + cur;
      var line;
      line, rest := SplitLine(rest);
      Reassociate(before, line, rest);
      out, cur := TakeLine(out, cur, line);
    }
    if cur != [] {
      AppendChunk(out, cur);
      out := out + [cur];
    }
  }

  /** The chunks so far and the one being filled. */
  ghost predicate Open(out: seq<Bytes>, cur: Bytes) {
    && Bounded(out) && NearGreedy(out) && IsUtf8(cur) && |cur| <= MAX
    && (out != [] ==> cur != [] && |out[|out| - 1]| + |cur| > MIN_CUT)
  }

  /** One line: flush the current chunk if the line does not fit, then take the line. */
  method TakeLine(start: seq<Bytes>, open: Bytes, line: Bytes) returns (out: seq<Bytes>, cur: Bytes)
    requires Open(start, open) && IsUtf8(line) && line != []
    ensures Open(out, cur)
    ensures Flatten(out) + cur == Flatten(start) + open + line
  {
    if |open| + |line| <= MAX {
      out, cur := start, open + line;
      JoinUtf8(open, line);
      assert Flatten(out) + cur == Flatten(start) + open + line;
      return;
    }
    out := start;
    if open != [] {
      AppendChunk(start, open);
      out := start + [open];
    }
    assert Flatten(out) == Flatten(start) + open;
    if |line| > MAX {
      out, cur := HardSplit(out, line);
    } else {
      cur := line;
    }
  }

  /** Near-greedy chunks are few: two of them for every 4094 bytes, and at most one more. */
  lemma {:induction false} ChunkCount(chunks: seq<Bytes>)
    requires NearGreedy(chunks)
    ensures |Flatten(chunks)| >= |chunks| / 2 * (MIN_CUT + 1)
  {
    if |chunks| >= 2 {
      var rest := chunks[2..];
      ChunkCount(rest);
      assert chunks == [chunks[0], chunks[1]] + rest;
      FlattenAppend([chunks[0], chunks[1]], rest);
      assert Flatten([chunks[0], chunks[1]]) == chunks[0] + Flatten([chunks[1]]);
      assert Flatten([chunks[1]]) == chunks[1] + [];
    }
  }
}
