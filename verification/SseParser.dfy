/**
 * Incremental server-sent-event parsing (src/bridges/mod.rs, `relay_loop`), at the level of characters:
 * each network chunk has already been decoded.
 */
module SseParsing {
  import opened Base

  /** What one block of the stream leaves in the two pending fields when it is dispatched. */
  datatype Frame = Frame(event: string, data: string)

  /** Unicode `White_Space`, as `str::trim` uses it. */
  predicate IsSpace(c: char) {
    '\t' <= c <= '\r' || c == ' ' || c == '\U{0085}' || c == '\U{00A0}' || c == '\U{1680}'
    || '\U{2000}' <= c <= '\U{200A}' || c == '\U{2028}' || c == '\U{2029}' || c == '\U{202F}'
    || c == '\U{205F}' || c == '\U{3000}'
  }

  function TrimStart(s: string): string {
    if s != "" && IsSpace(s[0]) then TrimStart(s[1..]) else s
  }

  function TrimEnd(s: string): string {
    if s != "" && IsSpace(s[|s| - 1]) then TrimEnd(s[..|s| - 1]) else s
  }

  function Trim(s: string): string {
    TrimEnd(TrimStart(s))
  }

  /** `find("\n\n")`: where the first blank-line separator starts. */
  function FindBlank(s: string): (r: Option<nat>)
    ensures r.Some? ==> r.value + 2 <= |s| && s[r.value] == '\n' && s[r.value + 1] == '\n'
  {
    if |s| < 2 then None
    else if s[0] == '\n' && s[1] == '\n' then Some(0)
    else match FindBlank(s[1..]) case None => None case Some(p) => Some(p + 1)
  }

  function FindNewline(s: string): (r: Option<nat>)
    ensures r.Some? ==> r.value < |s| && s[r.value] == '\n' && '\n' !in s[..r.value]
    ensures r.None? ==> '\n' !in s
  {
    if s == "" then None
    else if s[0] == '\n' then Some(0)
    else match FindNewline(s[1..])
      case None => None
      case Some(p) => assert s[..p + 1] == [s[0]] + s[1..][..p]; Some(p + 1)
  }

  function StripReturn(line: string): string {
    if line != "" && line[|line| - 1] == '\r' then line[..|line| - 1] else line
  }

  const EVENT_FIELD: string := "event:"
  const DATA_FIELD: string := "data:"

  /** One line updates the pending fields; a later field of the same name overwrites an earlier one. */
  function TakeLine(pending: Frame, line: string): Frame {
    if EVENT_FIELD <= line then pending.(event := Trim(line[|EVENT_FIELD|..]))
    else if DATA_FIELD <= line then pending.(data := Trim(line[|DATA_FIELD|..]))
    else pending
  }

  /** `str::lines` over the rest of a block, each line fed to the pending fields. */
  function TakeLines(pending: Frame, text: string): Frame
    decreases |text|
  {
    match FindNewline(text)
    case Some(p) => TakeLines(TakeLine(pending, StripReturn(text[..p])), text[p + 1..])
    case None => if text == "" then pending else TakeLine(pending, text)
  }

  const EMPTY: Frame := Frame("", "")

  datatype Parsed = Parsed(frames: seq<Frame>, rest: string)

  /** Every complete block of the stream, and the characters after the last separator. */
  function Parse(s: string): Parsed
    decreases |s|
  {
    match FindBlank(s)
    case None => Parsed([], s)
    case Some(p) =>
      var later := Parse(s[p + 2..]);
      Parsed([TakeLines(EMPTY, s[..p + 2])] + later.frames, later.rest)
  }

  class SseParser {
    var buffer: string
    var pending: Frame

    constructor ()
      ensures buffer == "" && pending == EMPTY
    {
      buffer, pending := "", EMPTY;
    }

    method TakeBlock(block: string)
      modifies this`pending
      ensures pending == TakeLines(old(pending), block)
    {
      var rest := block;
      while rest != ""
        invariant TakeLines(pending, rest) == TakeLines(old(pending), block)
        decreases |rest|
      {
        match FindNewline(rest) {
          case Some(p) =>
            pending := TakeLine(pending, StripReturn(rest[..p]));
            rest := rest[p + 1..];
          case None =>
            pending := TakeLine(pending, rest);
            rest := "";
        }
      }
    }

    /** One chunk: drain every complete block, dispatch it, clear the pending fields. */
    method Feed(chunk: string) returns (frames: seq<Frame>)
      requires pending == EMPTY
      modifies this
      ensures pending == EMPTY
      ensures frames == Parse(old(buffer) + chunk).frames && buffer == Parse(old(buffer) + chunk).rest
    {
      frames := [];
      buffer := buffer + chunk;
      ghost var whole := buffer;
      while FindBlank(buffer).Some?
        invariant pending == EMPTY
        invariant Joins(Parse(whole), Parsed(frames, ""), Parse(buffer))
        decreases |buffer|
      {
        var pos := FindBlank(buffer).value;
        JoinsDrain(whole, frames, buffer, pos);
        var block := buffer[..pos + 2];
        buffer := buffer[pos + 2..];
        TakeBlock(block);
        frames := frames + [pending];
        pending := EMPTY;
      }
      JoinsDone(whole, frames, buffer);
    }
  }

  // ---- Chunking does not matter ----

  lemma {:induction false} FindBlankFirst(s: string, p: nat)
    requires p + 2 <= |s| && s[p] == '\n' && s[p + 1] == '\n'
    requires forall i :: 0 <= i < p ==> !(s[i] == '\n' && s[i + 1] == '\n')
    ensures FindBlank(s) == Some(p)
  {
    if p > 0 { FindBlankFirst(s[1..], p - 1); }
  }

  lemma {:induction false} FindBlankSound(s: string)
    ensures FindBlank(s).Some? ==> forall i :: 0 <= i < FindBlank(s).value ==> !(s[i] == '\n' && s[i + 1] == '\n')
    ensures FindBlank(s).None? <==> forall i :: 0 <= i && i + 1 < |s| ==> !(s[i] == '\n' && s[i + 1] == '\n')
  {
    if |s| >= 2 {
      FindBlankSound(s[1..]);
      if FindBlank(s).None? {
        forall i | 0 <= i && i + 1 < |s| ensures !(s[i] == '\n' && s[i + 1] == '\n') {
          if i > 0 { assert s[i] == s[1..][i - 1] && s[i + 1] == s[1..][i]; }
        }
      }
      forall i | FindBlank(s).Some? && 0 <= i < FindBlank(s).value ensures !(s[i] == '\n' && s[i + 1] == '\n') {
        if i > 0 { assert s[i] == s[1..][i - 1] && s[i + 1] == s[1..][i]; }
      }
    }
  }

  lemma ParseUnfold(s: string, p: nat)
    requires FindBlank(s) == Some(p)
    ensures Parse(s) == Parsed([TakeLines(EMPTY, s[..p + 2])] + Parse(s[p + 2..]).frames, Parse(s[p + 2..]).rest)
  {}

  lemma ParseUnfoldPrefix(block: string, rest: string)
    requires |block| >= 2 && FindBlank(block + rest) == Some(|block| - 2)
    ensures Parse(block + rest) == Parsed([TakeLines(EMPTY, block)] + Parse(rest).frames, Parse(rest).rest)
  {
    ParseUnfold(block + rest, |block| - 2);
    assert (block + rest)[..|block|] == block && (block + rest)[|block|..] == rest;
  }

  /** `later` picks up where `first` stopped. */
  ghost predicate Joins(whole: Parsed, first: Parsed, later: Parsed) {
    whole.frames == first.frames + later.frames && whole.rest == later.rest
  }

  lemma JoinsCons(f: Frame, whole: Parsed, first: Parsed, later: Parsed)
    requires Joins(whole, first, later)
    ensures Joins(Parsed([f] + whole.frames, whole.rest), Parsed([f] + first.frames, first.rest), later)
  {}

  lemma JoinsDrain(whole: string, frames: seq<Frame>, buffer: string, p: nat)
    requires Joins(Parse(whole), Parsed(frames, ""), Parse(buffer)) && FindBlank(buffer) == Some(p)
    ensures Joins(Parse(whole), Parsed(frames + [TakeLines(EMPTY, buffer[..p + 2])], ""), Parse(buffer[p + 2..]))
  {
    ParseUnfold(buffer, p);
    var f, rest := TakeLines(EMPTY, buffer[..p + 2]), Parse(buffer[p + 2..]).frames;
    assert frames + ([f] + rest) == frames + [f] + rest;
  }

  lemma JoinsDone(whole: string, frames: seq<Frame>, buffer: string)
    requires Joins(Parse(whole), Parsed(frames, ""), Parse(buffer)) && FindBlank(buffer).None?
    ensures Parse(whole) == Parsed(frames, buffer)
  {
    assert frames + [] == frames;
  }

  lemma SeparatorStays(a: string, b: string, p: nat)
    requires FindBlank(a) == Some(p)
    ensures FindBlank(a + b) == Some(p) && (a + b)[..p + 2] == a[..p + 2] && (a + b)[p + 2..] == a[p + 2..] + b
  {
    FindBlankSound(a);
    FindBlankFirst(a + b, p);
  }

  /** Parsing what was left over together with more text continues the parse of the whole. */
  lemma {:induction false} ParseContinues(a: string, b: string)
    ensures Joins(Parse(a + b), Parse(a), Parse(Parse(a).rest + b))
    decreases |a|
  {
    match FindBlank(a) {
      case None =>
      case Some(p) =>
        SeparatorStays(a, b, p);
        ParseUnfold(a, p);
        ParseUnfold(a + b, p);
        var rest := a[p + 2..];
        ParseContinues(rest, b);
        JoinsCons(TakeLines(EMPTY, a[..p + 2]), Parse(rest + b), Parse(rest), Parse(Parse(rest).rest + b));
    }
  }

  lemma ParseInTwo(a: string, b: string, first: Parsed, later: Parsed)
    requires first == Parse(a) && later == Parse(first.rest + b)
    ensures Parse(a + b) == Parsed(first.frames + later.frames, later.rest)
  {
    ParseContinues(a, b);
  }

  /** All that `Feed` has returned, and what it keeps, after these chunks from an empty buffer. */
  function FeedAll(chunks: seq<string>): Parsed {
    if chunks == [] then Parsed([], "")
    else
      var before := FeedAll(chunks[..|chunks| - 1]);
      var now := Parse(before.rest + chunks[|chunks| - 1]);
      Parsed(before.frames + now.frames, now.rest)
  }

  lemma {:induction false} RestHasNoBlank(s: string)
    ensures FindBlank(Parse(s).rest).None?
    decreases |s|
  {
    if FindBlank(s).Some? { RestHasNoBlank(s[FindBlank(s).value + 2..]); }
  }

  /**
   * However the stream is cut into chunks, the frames are those of parsing it whole, and what stays
   * buffered never contains a separator.
   */
  lemma {:induction false} ChunkingIsInvisible(chunks: seq<string>)
    ensures FeedAll(chunks) == Parse(Flatten(chunks))
    ensures FindBlank(FeedAll(chunks).rest).None?
  {
    RestHasNoBlank(Flatten(chunks));
    if chunks != [] {
      var init, last := chunks[..|chunks| - 1], chunks[|chunks| - 1];
      ChunkingIsInvisible(init);
      FlattenSnoc(init, last);
      assert chunks == init + [last];
      ParseInTwo(Flatten(init), last, FeedAll(init), Parse(FeedAll(init).rest + last));
    }
  }

  // ---- Printing and parsing undo each other ----

  /** One line, no surrounding white space: what the server writes after the field name. */
  predicate IsValue(s: string) {
    '\n' !in s && (s != "" ==> !IsSpace(s[0]) && !IsSpace(s[|s| - 1]))
  }

  predicate IsPrintable(f: Frame) {
    IsValue(f.event) && IsValue(f.data)
  }

  /** The server's `Event::default().event(..).data(..)`. */
  function Print(f: Frame): string {
    "event: " + f.event + "\n" + "data: " + f.data + "\n\n"
  }

  function PrintAll(frames: seq<Frame>): string {
    if frames == [] then "" else Print(frames[0]) + PrintAll(frames[1..])
  }

  lemma TrimValue(s: string)
    requires IsValue(s)
    ensures Trim(" " + s) == s
  {
    var t := " " + s;
    assert t[1..] == s;
    assert TrimStart(t) == TrimStart(s) == s;
  }

  lemma {:induction false} FindNewlineFirst(s: string, p: nat)
    requires p < |s| && s[p] == '\n' && '\n' !in s[..p]
    ensures FindNewline(s) == Some(p)
  {
    if p > 0 {
      assert s[..p] == [s[0]] + s[1..][..p - 1];
      FindNewlineFirst(s[1..], p - 1);
    }
  }

  lemma TakeFieldLine(pending: Frame, field: string, value: string)
    requires IsValue(value) && (field == EVENT_FIELD || field == DATA_FIELD)
    ensures TakeLine(pending, field + " " + value)
         == if field == EVENT_FIELD then pending.(event := value) else pending.(data := value)
  {
    var line := field + " " + value;
    assert line[..|field|] == field && line[|field|..] == " " + value;
    TrimValue(value);
    if field == DATA_FIELD {
      assert line[0] == 'd' && EVENT_FIELD[0] == 'e';
      assert !(EVENT_FIELD <= line);
    }
  }

  /** A printed field, with whatever lines follow it. */
  lemma TakeField(pending: Frame, field: string, value: string, rest: string)
    requires IsValue(value) && (field == EVENT_FIELD || field == DATA_FIELD)
    ensures TakeLines(pending, field + " " + value + "\n" + rest)
         == TakeLines(if field == EVENT_FIELD then pending.(event := value) else pending.(data := value), rest)
  {
    var line := field + " " + value;
    var text := line + "\n" + rest;
    assert '\n' !in line;
    assert text[..|line|] == line && text[|line| + 1..] == rest;
    FindNewlineFirst(text, |line|);
    StripValueLine(field, value);
    TakeFieldLine(pending, field, value);
  }

  lemma StripValueLine(field: string, value: string)
    requires IsValue(value)
    ensures StripReturn(field + " " + value) == field + " " + value
  {
    var line := field + " " + value;
    if value != "" { assert line[|line| - 1] == value[|value| - 1]; } else { assert line[|line| - 1] == ' '; }
  }

  /** The rest of a printed frame after its event line. */
  function PrintData(data: string): string {
    DATA_FIELD + " " + data + "\n" + "\n"
  }

  lemma TakePrintedData(pending: Frame, data: string)
    requires IsValue(data)
    ensures TakeLines(pending, PrintData(data)) == pending.(data := data)
  {
    TakeField(pending, DATA_FIELD, data, "\n");
    FindNewlineFirst("\n", 0);
    assert "\n"[..0] == "" && "\n"[1..] == "";
  }

  lemma TakePrinted(f: Frame)
    requires IsPrintable(f)
    ensures TakeLines(EMPTY, Print(f)) == f
  {
    assert Print(f) == EVENT_FIELD + " " + f.event + "\n" + PrintData(f.data);
    TakeField(EMPTY, EVENT_FIELD, f.event, PrintData(f.data));
    TakePrintedData(EMPTY.(event := f.event), f.data);
  }

  lemma PrintedBlank(f: Frame, rest: string)
    requires IsPrintable(f)
    ensures FindBlank(Print(f) + rest) == Some(|Print(f)| - 2)
  {
    var head := "event: " + f.event;
    var tail := "data: " + f.data;
    var s := Print(f) + rest;
    var n := |head|;
    assert s == head + "\n" + tail + "\n\n" + rest;
    assert '\n' !in head && '\n' !in tail;
    forall i | 0 <= i < |Print(f)| - 2 ensures !(s[i] == '\n' && s[i + 1] == '\n') {
      if i < n {
        assert s[i] == head[i];
      } else if i == n {
        assert s[i + 1] == tail[0];
      } else {
        assert s[i] == tail[i - n - 1];
      }
    }
    assert s[|Print(f)| - 2] == '\n' && s[|Print(f)| - 1] == '\n';
    FindBlankFirst(s, |Print(f)| - 2);
  }

  lemma ParsePrintedFirst(f: Frame, rest: string)
    requires IsPrintable(f)
    ensures Parse(Print(f) + rest) == Parsed([f] + Parse(rest).frames, Parse(rest).rest)
  {
    PrintedBlank(f, rest);
    TakePrinted(f);
    ParseUnfoldPrefix(Print(f), rest);
  }

  /** A stream of printed frames parses back to exactly those frames, with nothing left over. */
  lemma {:induction false} ParseUndoesPrint(frames: seq<Frame>)
    requires forall i :: 0 <= i < |frames| ==> IsPrintable(frames[i])
    ensures Parse(PrintAll(frames)) == Parsed(frames, "")
  {
    if frames != [] {
      ParsePrintedFirst(frames[0], PrintAll(frames[1..]));
      ParseUndoesPrint(frames[1..]);
    }
  }

  lemma {:induction false} TrimEndValue(s: string)
    requires s == "" || !IsSpace(s[0])
    ensures TrimEnd(s) <= s
    ensures TrimEnd(s) != "" ==> !IsSpace(TrimEnd(s)[0]) && !IsSpace(TrimEnd(s)[|TrimEnd(s)| - 1])
  {
    if s != "" && IsSpace(s[|s| - 1]) { TrimEndValue(s[..|s| - 1]); }
  }

  lemma {:induction false} TrimStartValue(s: string)
    ensures TrimStart(s) != "" ==> !IsSpace(TrimStart(s)[0])
    ensures '\n' !in s ==> '\n' !in TrimStart(s)
  {
    if s != "" && IsSpace(s[0]) {
      assert s == [s[0]] + s[1..];
      TrimStartValue(s[1..]);
    }
  }

  lemma TrimIsValue(s: string)
    requires '\n' !in s
    ensures IsValue(Trim(s))
  {
    TrimStartValue(s);
    TrimEndValue(TrimStart(s));
  }

  lemma TakeLinePrintable(pending: Frame, line: string)
    requires IsPrintable(pending) && '\n' !in line
    ensures IsPrintable(TakeLine(pending, line))
  {
    if EVENT_FIELD <= line { TrimIsValue(line[|EVENT_FIELD|..]); }
    if DATA_FIELD <= line { TrimIsValue(line[|DATA_FIELD|..]); }
  }

  lemma {:induction false} TakeLinesPrintable(pending: Frame, text: string)
    requires IsPrintable(pending)
    ensures IsPrintable(TakeLines(pending, text))
    decreases |text|
  {
    match FindNewline(text) {
      case Some(p) =>
        TakeLinePrintable(pending, StripReturn(text[..p]));
        TakeLinesPrintable(TakeLine(pending, StripReturn(text[..p])), text[p + 1..]);
      case None => TakeLinePrintable(pending, text);
    }
  }

  /** Whatever the stream, a frame that comes out of the parser could have been printed. */
  lemma {:induction false} ParsedIsPrintable(s: string)
    ensures forall f :: f in Parse(s).frames ==> IsPrintable(f)
    decreases |s|
  {
    match FindBlank(s) {
      case None =>
      case Some(p) =>
        ParseUnfold(s, p);
        TakeLinesPrintable(EMPTY, s[..p + 2]);
        ParsedIsPrintable(s[p + 2..]);
        PrintableCons(TakeLines(EMPTY, s[..p + 2]), Parse(s[p + 2..]).frames);
    }
  }

  lemma PrintableCons(f: Frame, frames: seq<Frame>)
    requires IsPrintable(f) && forall g :: g in frames ==> IsPrintable(g)
    ensures forall g :: g in [f] + frames ==> IsPrintable(g)
  {}

  /** The frames that survive printing and parsing are exactly the printable ones. */
  lemma SurvivesPrintingIff(frames: seq<Frame>)
    ensures Parse(PrintAll(frames)) == Parsed(frames, "") <==> forall f :: f in frames ==> IsPrintable(f)
  {
    ParsedIsPrintable(PrintAll(frames));
    if forall f :: f in frames ==> IsPrintable(f) { ParseUndoesPrint(frames); }
  }

  /** However the printed stream is cut into chunks, feeding it gives back the frames, exactly when they are printable. */
  lemma FeedUndoesPrint(frames: seq<Frame>, chunks: seq<string>)
    requires Flatten(chunks) == PrintAll(frames)
    ensures FeedAll(chunks) == Parsed(frames, "") <==> forall f :: f in frames ==> IsPrintable(f)
  {
    ChunkingIsInvisible(chunks);
    SurvivesPrintingIff(frames);
  }

  // ---- Where the parser departs from the standard ----

  /** A stream that ends its lines with carriage return and newline never completes a block. */
  lemma ReturnNewlineNeverDispatches(s: string)
    requires forall i :: 0 <= i < |s| && s[i] == '\n' ==> i > 0 && s[i - 1] == '\r'
    ensures Parse(s) == Parsed([], s)
  {
    FindBlankSound(s);
  }

  /** Of several data lines in one block the last wins; the standard joins them with newlines. */
  lemma LastDataLineWins(first: string, second: string)
    requires IsValue(first) && IsValue(second)
    ensures TakeLines(EMPTY, DATA_FIELD + " " + first + "\n" + PrintData(second)) == Frame("", second)
  {
    TakeField(EMPTY, DATA_FIELD, first, PrintData(second));
    TakePrintedData(EMPTY.(data := first), second);
  }

  /** The lines of a block, without their ends. */
  function Lines(text: string): seq<string>
    decreases |text|
  {
    match FindNewline(text)
    case Some(p) => [StripReturn(text[..p])] + Lines(text[p + 1..])
    case None => if text == "" then [] else [text]
  }

  function TakeEach(pending: Frame, lines: seq<string>): Frame {
    if lines == [] then pending else TakeLine(TakeEach(pending, lines[..|lines| - 1]), lines[|lines| - 1])
  }

  lemma {:induction false} TakeEachFirst(pending: Frame, line: string, rest: seq<string>)
    ensures TakeEach(pending, [line] + rest) == TakeEach(TakeLine(pending, line), rest)
  {
    var all := [line] + rest;
    if rest == [] {
      assert all[..0] == [] && all[0] == line;
    } else {
      assert all[..|all| - 1] == [line] + rest[..|rest| - 1];
      TakeEachFirst(pending, line, rest[..|rest| - 1]);
    }
  }

  lemma {:induction false} BlockIsItsLines(pending: Frame, text: string)
    ensures TakeLines(pending, text) == TakeEach(pending, Lines(text))
    ensures forall line :: line in Lines(text) ==> '\n' !in line
    decreases |text|
  {
    match FindNewline(text) {
      case Some(p) =>
        var line := StripReturn(text[..p]);
        BlockIsItsLines(TakeLine(pending, line), text[p + 1..]);
        TakeEachFirst(pending, line, Lines(text[p + 1..]));
      case None =>
        if text != "" { assert [text][..0] == []; }
    }
  }

  /** What the standard adds to its data buffer for a line: the value, less one leading space. */
  function StandardValue(line: string): Option<string> {
    if line == "data" then Some("")
    else if DATA_FIELD <= line then
      var value := line[|DATA_FIELD|..];
      Some(if value != "" && value[0] == ' ' then value[1..] else value)
    else None
  }

  function StandardValues(lines: seq<string>): seq<string> {
    if lines == [] then []
    else StandardValues(lines[..|lines| - 1]) + match StandardValue(lines[|lines| - 1]) case None => [] case Some(v) => [v]
  }

  /** The standard's data for a block: the values of all data lines, joined by newlines. */
  function Join(values: seq<string>): string {
    if values == [] then ""
    else if |values| == 1 then values[0]
    else Join(values[..|values| - 1]) + "\n" + values[|values| - 1]
  }

  function StandardData(lines: seq<string>): string {
    Join(StandardValues(lines))
  }

  lemma {:induction false} TakeEachPrintable(lines: seq<string>)
    requires forall line :: line in lines ==> '\n' !in line
    ensures IsPrintable(TakeEach(EMPTY, lines))
  {
    if lines != [] {
      TakeEachPrintable(lines[..|lines| - 1]);
      assert lines[|lines| - 1] in lines;
      TakeLinePrintable(TakeEach(EMPTY, lines[..|lines| - 1]), lines[|lines| - 1]);
    }
  }

  lemma {:induction false} NoValuesNoData(lines: seq<string>)
    requires StandardValues(lines) == []
    ensures TakeEach(EMPTY, lines).data == ""
  {
    if lines != [] { NoValuesNoData(lines[..|lines| - 1]); }
  }

  lemma {:induction false} OneValueIsTrimmed(lines: seq<string>)
    requires |StandardValues(lines)| == 1 && IsValue(StandardValues(lines)[0])
    ensures TakeEach(EMPTY, lines).data == StandardValues(lines)[0]
  {
    var front, last := lines[..|lines| - 1], lines[|lines| - 1];
    match StandardValue(last) {
      case None => OneValueIsTrimmed(front);
      case Some(v) =>
        assert StandardValues(front) == [];
        NoValuesNoData(front);
        if DATA_FIELD <= last {
          var value := last[|DATA_FIELD|..];
          TrimValue(v);
          assert value == v || value == " " + v;
          assert !(EVENT_FIELD <= last) by { assert last[0] == 'd'; }
          assert Trim(v) == v by { assert TrimStart(v) == v; }
        }
    }
  }

  lemma JoinHasNewline(values: seq<string>)
    requires |values| >= 2
    ensures '\n' in Join(values)
  {
    assert '\n' in Join(values[..|values| - 1]) + "\n" + values[|values| - 1];
  }

  /**
   * The data a block leaves is the standard's exactly when the standard's is one line without white space
   * around it: the parser drops what came before the last data line, and trims that one on both sides.
   */
  lemma DataIsStandardIff(text: string)
    ensures TakeLines(EMPTY, text).data == StandardData(Lines(text)) <==> IsValue(StandardData(Lines(text)))
  {
    var lines := Lines(text);
    var values := StandardValues(lines);
    BlockIsItsLines(EMPTY, text);
    TakeEachPrintable(lines);
    if |values| >= 2 {
      JoinHasNewline(values);
    } else if |values| == 1 {
      if IsValue(Join(values)) { OneValueIsTrimmed(lines); }
    } else {
      NoValuesNoData(lines);
    }
  }
}
