/** The incremental event-stream splitter of the chat client
    (`src/components/chat/sse.ts`). Text is UTF-16 code units, as in the source;
    `decode` stands for `JSON.parse` followed by the `type` check, with `None`
    for a payload that is not an event. */
module Sse {
  import opened Basics

  type unit = u: int | 0 <= u < 0x1_0000
  type Text = seq<unit>

  const CR: unit := 13
  const LF: unit := 10
  const SPACE: unit := 32
  /** `data:` */
  const FIELD: Text := [100, 97, 116, 97, 58]

  // ---- the two regular expressions ------------------------------------------

  /** Length of the match of `\r?\n` at `i`, 0 when there is none. */
  function Eol(s: Text, i: nat): (n: nat)
    requires i <= |s|
    ensures i + n <= |s|
  {
    if i < |s| && s[i] == LF then 1
    else if i + 1 < |s| && s[i] == CR && s[i + 1] == LF then 2
    else 0
  }

  /** Length of the match of `\r?\n\r?\n` at `i`, 0 when there is none. */
  function Blank(s: Text, i: nat): (n: nat)
    requires i <= |s|
    ensures i + n <= |s|
  {
    var a := Eol(s, i);
    if a == 0 then 0
    else
      var b := Eol(s, i + a);
      if b == 0 then 0 else a + b
  }

  /** Leftmost match at or after `i`, the length of the text when there is none. */
  function FirstBlank(s: Text, i: nat): (j: nat)
    requires i <= |s|
    ensures i <= j <= |s|
    ensures j < |s| ==> Blank(s, j) > 0
    ensures forall k :: i <= k < j ==> Blank(s, k) == 0
    decreases |s| - i
  {
    if i == |s| || Blank(s, i) > 0 then i else FirstBlank(s, i + 1)
  }

  function FirstEol(s: Text, i: nat): (j: nat)
    requires i <= |s|
    ensures i <= j <= |s|
    ensures j < |s| ==> Eol(s, j) > 0
    ensures forall k :: i <= k < j ==> Eol(s, k) == 0
    decreases |s| - i
  {
    if i == |s| || Eol(s, i) > 0 then i else FirstEol(s, i + 1)
  }

  datatype Cut = Cut(frames: seq<Text>, rest: Text)

  /** `split` on the blank-line pattern, with the last piece set apart. */
  function Frames(s: Text): Cut
    decreases |s|
  {
    var j := FirstBlank(s, 0);
    if j == |s| then Cut([], s)
    else
      var tail := Frames(s[j + Blank(s, j)..]);
      Cut([s[..j]] + tail.frames, tail.rest)
  }

  function Lines(s: Text): seq<Text>
    decreases |s|
  {
    var j := FirstEol(s, 0);
    if j == |s| then [s] else [s[..j]] + Lines(s[j + Eol(s, j)..])
  }

  // ---- one frame --------------------------------------------------------------

  predicate IsDataLine(line: Text) { FIELD <= line }

  /** The value of a data line; one leading space is not part of it. */
  function DataValue(line: Text): Text
    requires IsDataLine(line)
  {
    var v := line[|FIELD|..];
    if v != [] && v[0] == SPACE then v[1..] else v
  }

  function DataValues(lines: seq<Text>): seq<Text> {
    if lines == [] then []
    else (if IsDataLine(lines[0]) then [DataValue(lines[0])] else []) + DataValues(lines[1..])
  }

  function FrameEvent<E>(frame: Text, decode: Text -> Option<E>): Option<E> {
    var values := DataValues(Lines(frame));
    if values == [] then None else decode(Join(values, LF))
  }

  lemma {:induction false} DataValuesSnoc(lines: seq<Text>, line: Text)
    ensures DataValues(lines + [line])
         == DataValues(lines) + if IsDataLine(line) then [DataValue(line)] else []
  {
    if lines == [] {
      assert [line][1..] == [];
    } else {
      hide IsDataLine, DataValue;
      DataValuesSnoc(lines[1..], line);
      assert (lines + [line])[0] == lines[0] && (lines + [line])[1..] == lines[1..] + [line];
      Assoc(if IsDataLine(lines[0]) then [DataValue(lines[0])] else [], DataValues(lines[1..]),
            if IsDataLine(line) then [DataValue(line)] else []);
    }
  }

  method ParseSseFrame<E>(frame: Text, decode: Text -> Option<E>) returns (event: Option<E>)
    ensures event == FrameEvent(frame, decode)
  {
    var dataLines: seq<Text> := [];
    var lines := Lines(frame);
    for k := 0 to |lines|
      invariant dataLines == DataValues(lines[..k])
    {
      DataValuesSnoc(lines[..k], lines[k]);
      assert lines[..k + 1] == lines[..k] + [lines[k]];
      if IsDataLine(lines[k]) {
        dataLines := dataLines + [DataValue(lines[k])];
      }
    }
    assert lines[..|lines|] == lines;
    if |dataLines| == 0 {
      return None;
    }
    event := decode(Join(dataLines, LF));
  }

  // ---- one chunk ----------------------------------------------------------------

  /** The values `f` yields along a sequence, in order. */
  function Yielded<T, E>(xs: seq<T>, f: T -> Option<E>): seq<E> {
    if xs == [] then []
    else (if f(xs[0]).Some? then [f(xs[0]).value] else []) + Yielded(xs[1..], f)
  }

  lemma {:induction false} YieldedAppend<T, E>(a: seq<T>, b: seq<T>, f: T -> Option<E>)
    ensures Yielded(a + b, f) == Yielded(a, f) + Yielded(b, f)
  {
    if a == [] {
      assert a + b == b;
    } else {
      YieldedAppend(a[1..], b, f);
      assert (a + b)[0] == a[0] && (a + b)[1..] == a[1..] + b;
      Assoc(if f(a[0]).Some? then [f(a[0]).value] else [], Yielded(a[1..], f), Yielded(b, f));
    }
  }

  lemma YieldedOne<T, E>(x: T, f: T -> Option<E>)
    ensures Yielded([x], f) == if f(x).Some? then [f(x).value] else []
  {
    var none: seq<T> := [];
    assert [x][1..] == none;
  }

  function FrameDecoder<E>(decode: Text -> Option<E>): Text -> Option<E> {
    (frame: Text) => FrameEvent(frame, decode)
  }

  datatype Fed<E> = Fed(events: seq<E>, buffer: Text)

  function Feed<E>(buffer: Text, chunk: Text, decode: Text -> Option<E>): Fed<E> {
    var cut := Frames(buffer + chunk);
    Fed(Yielded(cut.frames, FrameDecoder(decode)), cut.rest)
  }

  method FeedSse<E>(buffer: Text, chunk: Text, decode: Text -> Option<E>) returns (fed: Fed<E>)
    ensures fed == Feed(buffer, chunk, decode)
  {
    var cut := Frames(buffer + chunk);
    var frames := cut.frames;
    var events: seq<E> := [];
    for k := 0 to |frames|
      invariant events == Yielded(frames[..k], FrameDecoder(decode))
    {
      YieldedAppend(frames[..k], [frames[k]], FrameDecoder(decode));
      assert frames[..k + 1] == frames[..k] + [frames[k]];
      var event := ParseSseFrame(frames[k], decode);
      if event.Some? {
        events := events + [event.value];
      }
    }
    assert frames[..|frames|] == frames;
    fed := Fed(events, cut.rest);
  }

  // ---- chunk invariance ------------------------------------------------------------

  /** A separator is recognised from its own characters alone. */
  lemma BlankIsLocal(s: Text, t: Text, k: nat)
    requires k <= |s|
    ensures Blank(s, k) > 0 ==> Blank(s + t, k) == Blank(s, k)
    ensures Blank(s + t, k) > 0 && k + Blank(s + t, k) <= |s| ==> Blank(s, k) == Blank(s + t, k)
  {
    assert forall i :: 0 <= i < |s| ==> (s + t)[i] == s[i];
  }

  /** A separator that starts earlier does not end later. */
  lemma BlanksDoNotCross(s: Text, k: nat, j: nat)
    requires k < j <= |s| && Blank(s, k) > 0 && Blank(s, j) > 0
    ensures k + Blank(s, k) <= j + Blank(s, j)
  {
  }

  /** More text never moves the first separator, nor lengthens it: even one that
      ends the text, even with CR LF CR LF cut in the middle. */
  lemma FirstBlankStable(s: Text, t: Text)
    requires FirstBlank(s, 0) < |s|
    ensures FirstBlank(s + t, 0) == FirstBlank(s, 0)
    ensures Blank(s + t, FirstBlank(s, 0)) == Blank(s, FirstBlank(s, 0))
  {
    var j, i := FirstBlank(s, 0), FirstBlank(s + t, 0);
    BlankIsLocal(s, t, j);
    assert i <= j;
    BlankIsLocal(s, t, i);
    if i < j {
      BlanksDoNotCross(s + t, i, j);
    }
  }

  lemma {:induction false} FramesAppend(s: Text, t: Text)
    ensures Frames(s + t) == Cut(Frames(s).frames + Frames(Frames(s).rest + t).frames, Frames(Frames(s).rest + t).rest)
    decreases |s|
  {
    hide Blank, FirstBlank;
    var j := FirstBlank(s, 0);
    if j < |s| {
      FirstBlankStable(s, t);
      var e := j + Blank(s, j);
      assert (s + t)[e..] == s[e..] + t;
      assert (s + t)[..j] == s[..j];
      FramesAppend(s[e..], t);
      var later := Frames(Frames(s[e..]).rest + t).frames;
      Assoc([s[..j]], Frames(s[e..]).frames, later);
    }
  }

  /** Repeated `feedSse`, each call carrying the buffer of the one before. */
  function FeedAll<E>(buffer: Text, chunks: seq<Text>, decode: Text -> Option<E>): Fed<E>
    decreases |chunks|
  {
    if chunks == [] then Fed([], buffer)
    else
      var first := Feed(buffer, chunks[0], decode);
      var later := FeedAll(first.buffer, chunks[1..], decode);
      Fed(first.events + later.events, later.buffer)
  }

  function Concat(chunks: seq<Text>): Text {
    if chunks == [] then [] else chunks[0] + Concat(chunks[1..])
  }

  /** One call on two chunks joined is two calls. */
  lemma FeedTwice<E>(buffer: Text, a: Text, b: Text, decode: Text -> Option<E>)
    ensures var first := Feed(buffer, a, decode);
            var second := Feed(first.buffer, b, decode);
            Feed(buffer, a + b, decode) == Fed(first.events + second.events, second.buffer)
  {
    var s := buffer + a;
    assert buffer + (a + b) == s + b;
    FramesAppend(s, b);
    YieldedAppend(Frames(s).frames, Frames(Frames(s).rest + b).frames, FrameDecoder(decode));
  }

  /** However a text is cut into chunks, the events and the final buffer are
      those of one call on the whole text, from any starting buffer. Only with
      no call at all must the buffer hold no separator, as every buffer that a
      call returned does. */
  lemma {:induction false} ChunkInvariance<E>(buffer: Text, chunks: seq<Text>, decode: Text -> Option<E>)
    requires chunks != [] || Frames(buffer).frames == []
    ensures FeedAll(buffer, chunks, decode) == Feed(buffer, Concat(chunks), decode)
    decreases |chunks|
  {
    if chunks == [] {
      FeedNothing(buffer, decode);
    } else {
      RestHasNoFrame(buffer + chunks[0]);
      ChunkInvariance(Feed(buffer, chunks[0], decode).buffer, chunks[1..], decode);
      FeedTwice(buffer, chunks[0], Concat(chunks[1..]), decode);
    }
  }

  lemma FeedNothing<E>(buffer: Text, decode: Text -> Option<E>)
    requires Frames(buffer).frames == []
    ensures Feed(buffer, [], decode) == Fed([], buffer)
  {
    assert buffer + [] == buffer;
  }

  lemma {:induction false} RestHasNoFrame(s: Text)
    ensures Frames(Frames(s).rest) == Cut([], Frames(s).rest)
    decreases |s|
  {
    hide Blank, FirstBlank;
    var j := FirstBlank(s, 0);
    if j < |s| {
      RestHasNoFrame(s[j + Blank(s, j)..]);
    }
  }

  // ---- the wire format read back -------------------------------------------------------

  /** A line of a frame: one of its data, with or without the space that is not part
      of the value, or one of another field or a comment. */
  datatype Row = Data(value: Text, spaced: bool) | Other(text: Text)

  function RowText(r: Row): Text {
    match r
    case Data(value, spaced) => [100, 97, 116, 97, 58] + (if spaced then [32] else []) + value
    case Other(text) => text
  }

  predicate OneLine(text: Text) { 13 !in text && 10 !in text }

  predicate RowOk(r: Row) {
    match r
    case Data(value, spaced) => OneLine(value) && (!spaced && value != [] ==> value[0] != 32)
    case Other(text) => OneLine(text) && text != [] && !([100, 97, 116, 97, 58] <= text)
  }

  /** How a line ends. */
  function End(crlf: bool): Text { if crlf then [13, 10] else [10] }

  /** A frame of one or more lines, and the two line endings that close it. */
  datatype Message = Message(rows: seq<Row>, ends: seq<bool>, close: (bool, bool))

  predicate MessageOk(m: Message) { |m.rows| == |m.ends| + 1 && forall r :: r in m.rows ==> RowOk(r) }

  function FrameText(rows: seq<Row>, ends: seq<bool>): Text
    requires |rows| == |ends| + 1
  {
    if ends == [] then RowText(rows[0]) else RowText(rows[0]) + (End(ends[0]) + FrameText(rows[1..], ends[1..]))
  }

  function Wire(messages: seq<Message>): Text
    requires forall m :: m in messages ==> MessageOk(m)
  {
    if messages == [] then []
    else
      assert MessageOk(messages[0]);
      FrameText(messages[0].rows, messages[0].ends) + (End(messages[0].close.0) + End(messages[0].close.1))
      + Wire(messages[1..])
  }

  /** The values of the data lines, in order. */
  function Values(rows: seq<Row>): seq<Text> {
    if rows == [] then [] else (if rows[0].Data? then [rows[0].value] else []) + Values(rows[1..])
  }

  /** The events that a list of frames stands for: of each that has data, its lines
      joined by line feeds, if they decode. */
  function Meant<E>(messages: seq<Message>, decode: Text -> Option<E>): seq<E> {
    if messages == [] then []
    else
      (if Values(messages[0].rows) == [] then []
       else match decode(Join(Values(messages[0].rows), 10)) case Some(e) => [e] case None => [])
      + Meant(messages[1..], decode)
  }

  lemma DataIsPlain(lead: Text, value: Text)
    requires OneLine(value) && (lead == [] || lead == [32]) && (lead == [] && value != [] ==> value[0] != 32)
    ensures var text := [100, 97, 116, 97, 58] + lead + value;
      OneLine(text) && IsDataLine(text) && DataValue(text) == value
  {
    var text: Text := [100, 97, 116, 97, 58] + lead + value;
    assert forall u :: u in text ==> u in FIELD || u in lead || u in value;
    assert text[..5] == FIELD && text[5..] == lead + value;
    assert lead != [] ==> (lead + value)[1..] == value;
  }

  lemma RowIsPlain(r: Row)
    requires RowOk(r)
    ensures RowText(r) != [] && forall k :: 0 <= k < |RowText(r)| ==> RowText(r)[k] != 13 && RowText(r)[k] != 10
    ensures IsDataLine(RowText(r)) == r.Data?
    ensures r.Data? ==> DataValue(RowText(r)) == r.value
  {
    if r.Data? {
      DataIsPlain(if r.spaced then [32] else [], r.value);
    }
    assert forall k :: 0 <= k < |RowText(r)| ==> RowText(r)[k] in RowText(r);
    hide DataValue;
  }

  lemma EndsHere(line: Text, crlf: bool, rest: Text)
    requires forall k :: 0 <= k < |line| ==> line[k] != 13 && line[k] != 10
    ensures forall k :: 0 <= k < |line| ==> Eol(line + (End(crlf) + rest), k) == 0
    ensures Eol(line + (End(crlf) + rest), |line|) == |End(crlf)| > 0
  {
    var s := line + (End(crlf) + rest);
    assert forall k :: 0 <= k < |End(crlf)| ==> s[|line| + k] == End(crlf)[k];
  }

  /** The line that begins a text, when it ends. */
  lemma FirstLine(line: Text, crlf: bool, rest: Text)
    requires forall k :: 0 <= k < |line| ==> line[k] != 13 && line[k] != 10
    ensures Lines(line + (End(crlf) + rest)) == [line] + Lines(rest)
  {
    EndsHere(line, crlf, rest);
    hide *;
    var s := line + (End(crlf) + rest);
    assert FirstEol(s, 0) == |line|;
    LinesAt(s, |line|);
    Parts(line, End(crlf), rest);
  }

  lemma Parts(a: Text, b: Text, c: Text)
    ensures (a + (b + c))[..|a|] == a && (a + (b + c))[|a| + |b|..] == c
  {
  }

  lemma LinesAt(s: Text, j: nat)
    requires j < |s| && FirstEol(s, 0) == j
    ensures Lines(s) == [s[..j]] + Lines(s[j + Eol(s, j)..])
  {
    hide Eol, FirstEol;
  }

  lemma OnlyLine(line: Text)
    requires forall k :: 0 <= k < |line| ==> line[k] != 13 && line[k] != 10
    ensures Lines(line) == [line]
  {
    assert forall k :: 0 <= k < |line| ==> Eol(line, k) == 0;
  }

  lemma {:induction false} FrameValues(rows: seq<Row>, ends: seq<bool>)
    requires |rows| == |ends| + 1 && forall r :: r in rows ==> RowOk(r)
    ensures DataValues(Lines(FrameText(rows, ends))) == Values(rows)
    decreases |rows|
  {
    hide Lines, RowOk, RowText, IsDataLine, DataValue, End;
    assert rows[0] in rows;
    RowIsPlain(rows[0]);
    var line := RowText(rows[0]);
    if ends == [] {
      OnlyLine(line);
      var only: seq<Text> := [line];
      assert |only[1..]| == 0 && |rows[1..]| == 0;
    } else {
      FrameValues(rows[1..], ends[1..]);
      FirstLine(line, ends[0], FrameText(rows[1..], ends[1..]));
      var only: seq<Text> := [line];
      assert (only + Lines(FrameText(rows[1..], ends[1..])))[1..] == Lines(FrameText(rows[1..], ends[1..]));
    }
  }

  lemma BlankShifts(s: Text, t: Text, k: nat)
    requires k <= |t|
    ensures Blank(s + t, |s| + k) == Blank(t, k)
  {
    assert forall j :: 0 <= j < |t| ==> (s + t)[|s| + j] == t[j];
  }

  /** After a line with its ending comes a line that is not empty, so no blank line
      begins there. */
  lemma NoBlankInLine(line: Text, crlf: bool, rest: Text, k: nat)
    requires forall j :: 0 <= j < |line| ==> line[j] != 13 && line[j] != 10
    requires rest != [] && rest[0] != 13 && rest[0] != 10 && k < |line| + |End(crlf)|
    ensures Blank(line + (End(crlf) + rest), k) == 0
  {
    var s := line + (End(crlf) + rest);
    assert k < |line| ==> s[k] == line[k];
    assert forall j :: 0 <= j < |End(crlf)| ==> s[|line| + j] == End(crlf)[j];
    assert s[|line| + |End(crlf)|] == rest[0];
  }

  lemma NoBlankInLast(line: Text, tail: Text, k: nat)
    requires k < |line| && line[k] != 13 && line[k] != 10
    ensures Blank(line + tail, k) == 0
  {
  }

  lemma {:induction false} NoBlankInside(rows: seq<Row>, ends: seq<bool>, tail: Text, k: nat)
    requires |rows| == |ends| + 1 && (forall r :: r in rows ==> RowOk(r)) && k < |FrameText(rows, ends)|
    ensures Blank(FrameText(rows, ends) + tail, k) == 0
    ensures FrameText(rows, ends)[0] != 13 && FrameText(rows, ends)[0] != 10
    decreases |rows|
  {
    hide Blank, RowOk, RowText, End;
    assert rows[0] in rows;
    RowIsPlain(rows[0]);
    var line := RowText(rows[0]);
    if ends == [] {
      NoBlankInLast(line, tail, k);
    } else {
      var before, rest := line + End(ends[0]), FrameText(rows[1..], ends[1..]);
      Regroup(line, End(ends[0]), rest, tail);
      RowIsPlain(rows[1]);
      assert rows[1] in rows;
      FrameStarts(rows[1..], ends[1..]);
      if k < |before| {
        assert rest + tail != [] && (rest + tail)[0] == rest[0];
        NoBlankInLine(line, ends[0], rest + tail, k);
      } else {
        NoBlankInside(rows[1..], ends[1..], tail, k - |before|);
        BlankShifts(before, rest + tail, k - |before|);
      }
    }
  }

  lemma Regroup(a: Text, b: Text, c: Text, d: Text)
    ensures (a + (b + c)) + d == a + (b + (c + d)) == (a + b) + (c + d)
  {
  }

  lemma FrameStarts(rows: seq<Row>, ends: seq<bool>)
    requires |rows| == |ends| + 1 && forall r :: r in rows ==> RowOk(r)
    ensures FrameText(rows, ends) != [] && FrameText(rows, ends)[0] != 13 && FrameText(rows, ends)[0] != 10
  {
    assert rows[0] in rows;
    RowIsPlain(rows[0]);
    hide RowText, RowOk;
  }

  lemma ClosesHere(frame: Text, close: (bool, bool), rest: Text)
    ensures Blank(frame + ((End(close.0) + End(close.1)) + rest), |frame|) == |End(close.0) + End(close.1)|
  {
    var sep := End(close.0) + End(close.1);
    var s := frame + (sep + rest);
    assert forall k :: 0 <= k < |sep| ==> s[|frame| + k] == sep[k];
  }

  lemma {:induction false} CutOneFrame(m: Message, rest: Text)
    requires MessageOk(m)
    ensures var frame := FrameText(m.rows, m.ends);
      Frames(frame + (End(m.close.0) + End(m.close.1)) + rest) == Cut([frame] + Frames(rest).frames, Frames(rest).rest)
  {
    var frame, sep := FrameText(m.rows, m.ends), End(m.close.0) + End(m.close.1);
    Assoc(frame, sep, rest);
    var s := frame + (sep + rest);
    hide Blank, FrameText, RowOk;
    forall k | 0 <= k < |frame| ensures Blank(s, k) == 0 {
      NoBlankInside(m.rows, m.ends, sep + rest, k);
    }
    ClosesHere(frame, m.close, rest);
    assert FirstBlank(s, 0) == |frame|;
    assert s[..|frame|] == frame && s[|frame| + |sep|..] == rest;
  }

  lemma {:induction false} WireEvents<E>(messages: seq<Message>, decode: Text -> Option<E>)
    requires forall m :: m in messages ==> MessageOk(m)
    ensures Feed([], Wire(messages), decode) == Fed(Meant(messages, decode), [])
    decreases |messages|
  {
    if messages == [] {
      hide Feed;
      FeedNothing([], decode);
    } else {
      var m, rest := messages[0], Wire(messages[1..]);
      assert m in messages;
      var frame := FrameText(m.rows, m.ends);
      WireEvents(messages[1..], decode);
      hide MessageOk, FrameText;
      CutOneFrame(m, rest);
      var none: Text := [];
      assert none + Wire(messages) == Wire(messages) && none + rest == rest;
      YieldedAppend([frame], Frames(rest).frames, FrameDecoder(decode));
      YieldedOne(frame, FrameDecoder(decode));
      assert FrameEvent(frame, decode)
          == if Values(m.rows) == [] then None else decode(Join(Values(m.rows), 10)) by {
        MessageValues(m);
      }
    }
  }

  lemma MessageValues(m: Message)
    requires MessageOk(m)
    ensures DataValues(Lines(FrameText(m.rows, m.ends))) == Values(m.rows)
  {
    FrameValues(m.rows, m.ends);
  }

  /** What the server sends is what the client sees: for every list of frames of any
      number of lines, data or not, every choice of line endings and every chunking,
      the events arrive in order and nothing is left over. */
  lemma WireRoundTrip<E>(messages: seq<Message>, chunks: seq<Text>, decode: Text -> Option<E>)
    requires forall m :: m in messages ==> MessageOk(m)
    requires Concat(chunks) == Wire(messages)
    ensures FeedAll([], chunks, decode) == Fed(Meant(messages, decode), [])
  {
    hide Feed, MessageOk;
    ChunkInvariance([], chunks, decode);
    WireEvents(messages, decode);
  }
}
