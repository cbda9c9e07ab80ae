/**
 The incremental parser of server-sent events and the format the server writes.

 The parser departs from section 9.2.6 of the WHATWG HTML Living Standard: values are trimmed, the id
 is forgotten after each event, and what is pending when the stream ends is dispatched.
 */
module Sse {
  import opened Wrappers

  // ---- Text ---------------------------------------------------------------------------------------

  /** White space and line terminators of the script language. */
  predicate IsBlank(c: char) {
    || '\t' <= c <= '\r' || c == ' ' || c == '\U{00A0}' || c == '\U{1680}' || '\U{2000}' <= c <= '\U{200A}'
    || c == '\U{2028}' || c == '\U{2029}' || c == '\U{202F}' || c == '\U{205F}' || c == '\U{3000}' || c == '\U{FEFF}'
  }

  function TrimStart(s: string): string {
    if s != "" && IsBlank(s[0]) then TrimStart(s[1..]) else s
  }

  function TrimEnd(s: string): string {
    if s != "" && IsBlank(s[|s| - 1]) then TrimEnd(s[..|s| - 1]) else s
  }

  function Trim(s: string): string {
    TrimEnd(TrimStart(s))
  }

  function StripCr(s: string): string {
    if s != "" && s[|s| - 1] == '\r' then s[..|s| - 1] else s
  }

  /** The pieces between newlines; one more than there are newlines. */
  function Split(s: string): (lines: seq<string>)
    ensures |lines| >= 1
  {
    if s == "" then [""]
    else
      var rest := Split(s[1..]);
      if s[0] == '\n' then [""] + rest else [[s[0]] + rest[0]] + rest[1..]
  }

  function Join(lines: seq<string>): string {
    if lines == [] then ""
    else if |lines| == 1 then lines[0]
    else lines[0] + "\n" + Join(lines[1..])
  }

  // ---- The parser ---------------------------------------------------------------------------------

  datatype Event = Event(kind: string, data: string, id: Option<string>)

  /** The fields gathered since the last blank line, and the events dispatched so far. */
  datatype Parsing = Parsing(kind: string, id: Option<string>, data: seq<string>, events: seq<Event>) {

    function Dispatched(): Parsing {
      if data == [] then this else this.(events := events + [Event(kind, Join(data), id)])
    }

    function Reset(): Parsing {
      this.(kind := "message", id := None, data := [])
    }

    function Line(raw: string): Parsing {
      var line := StripCr(raw);
      if line == "" then Dispatched().Reset()
      else if line[..1] == ":" then this
      else if "event:" <= line then
        var value := Trim(line[6..]);
        this.(kind := if value == "" then "message" else value)
      else if "data:" <= line then this.(data := data + [TrimStart(line[5..])])
      else if "id:" <= line then this.(id := Some(Trim(line[3..])))
      else this
    }
  }

  const FRESH := Parsing("message", None, [], [])

  function Lines(p: Parsing, raws: seq<string>): Parsing
    decreases |raws|
  {
    if raws == [] then p else Lines(p.Line(raws[0]), raws[1..])
  }

  /** `buffer` is the line still being received. */
  datatype Stream = Stream(buffer: string, parsing: Parsing) {

    function Fed(chunk: string): Stream {
      var lines := Split(buffer + chunk);
      Stream(lines[|lines| - 1], Lines(parsing, lines[..|lines| - 1]))
    }

    /** The end of the stream dispatches what is pending; the unfinished line is lost. */
    function Finished(): seq<Event> {
      parsing.Dispatched().events
    }
  }

  const OPENED := Stream("", FRESH)

  class SseParser {
    var buffer: string
    var kind: string
    var id: Option<string>
    var data: seq<string>
    var events: seq<Event>

    function View(): Stream
      reads this
    {
      Stream(buffer, Parsing(kind, id, data, events))
    }

    constructor ()
      ensures View() == OPENED
    {
      buffer, kind, id, data, events := "", "message", None, [], [];
    }

    method Dispatch()
      modifies this`events
      ensures View().parsing == old(View().parsing.Dispatched())
    {
      if data == [] {
        return;
      }
      events := events + [Event(kind, Join(data), id)];
    }

    /** A decoded chunk is cut into lines; every complete one is handled, the last one is kept. */
    method Feed(chunk: string)
      modifies this
      ensures View() == old(View()).Fed(chunk)
    {
      var lines := Split(buffer + chunk);
      var complete := lines[..|lines| - 1];
      buffer := lines[|lines| - 1];
      var i := 0;
      while i < |complete|
        invariant i <= |complete|
        invariant Lines(View().parsing, complete[i..]) == Lines(old(View().parsing), complete)
        invariant buffer == lines[|lines| - 1]
      {
        assert complete[i..][0] == complete[i] && complete[i..][1..] == complete[i + 1..];
        HandleLine(complete[i]);
        i := i + 1;
      }
    }

    method HandleLine(raw: string)
      modifies this
      ensures View().parsing == old(View().parsing).Line(raw) && buffer == old(buffer)
    {
      var line := StripCr(raw);
      if line == "" {
        Dispatch();
        kind, id, data := "message", None, [];
      } else if line[..1] == ":" {
      } else if "event:" <= line {
        var value := Trim(line[6..]);
        kind := if value == "" then "message" else value;
      } else if "data:" <= line {
        data := data + [TrimStart(line[5..])];
      } else if "id:" <= line {
        id := Some(Trim(line[3..]));
      }
    }

    method Finish()
      modifies this
      ensures events == old(View()).Finished()
    {
      Dispatch();
    }
  }

  // ---- What the lines mean --------------------------------------------------------------------------

  /** Trimming takes away exactly the blanks at both ends. */
  lemma {:induction false} TrimTakesBlanks(s: string) returns (i: nat, j: nat)
    ensures i <= j <= |s| && Trim(s) == s[i..j]
    ensures forall k :: 0 <= k < i || j <= k < |s| ==> IsBlank(s[k])
    ensures i < j ==> !IsBlank(s[i]) && !IsBlank(s[j - 1])
  {
    i := TrimStartTakes(s);
    j := TrimEndTakes(s[i..]);
    assert s[i..][..j] == s[i..i + j];
    forall k | i + j <= k < |s| ensures IsBlank(s[k]) {
      assert s[k] == s[i..][k - i];
    }
    j := i + j;
  }

  lemma {:induction false} TrimStartTakes(s: string) returns (i: nat)
    ensures i <= |s| && TrimStart(s) == s[i..] && (i < |s| ==> !IsBlank(s[i]))
    ensures forall k :: 0 <= k < i ==> IsBlank(s[k])
  {
    if s != "" && IsBlank(s[0]) {
      i := TrimStartTakes(s[1..]);
      assert s[1..][i..] == s[i + 1..];
      i := i + 1;
    } else {
      i := 0;
    }
  }

  lemma {:induction false} TrimEndTakes(s: string) returns (j: nat)
    ensures j <= |s| && TrimEnd(s) == s[..j] && (j > 0 ==> !IsBlank(s[j - 1]))
    ensures forall k :: j <= k < |s| ==> IsBlank(s[k])
  {
    if s != "" && IsBlank(s[|s| - 1]) {
      j := TrimEndTakes(s[..|s| - 1]);
    } else {
      j := |s|;
    }
  }

  /** A line ends with or without a carriage return. */
  predicate IsLineOf(raw: string, text: string) {
    (text == "" || text[|text| - 1] != '\r') && (raw == text || raw == text + "\r")
  }

  /** What each field does, whatever its value, and with or without a carriage return at the end. */
  lemma {:induction false} FieldsMean(p: Parsing, raw: string, name: string, value: string)
    requires IsLineOf(raw, name + value)
    ensures name == "event:" ==> p.Line(raw) == p.(kind := if Trim(value) == "" then "message" else Trim(value))
    ensures name == "data:" ==> p.Line(raw) == p.(data := p.data + [TrimStart(value)])
    ensures name == "id:" ==> p.Line(raw) == p.(id := Some(Trim(value)))
    ensures name == ":" ==> p.Line(raw) == p
  {
    var line := name + value;
    assert StripCr(raw) == line by { StripsTheCr(raw, line); }
    assert line[|name|..] == value;
    assert name != "" ==> line[0] == name[0];
    assert "event:" <= line ==> line[0] == 'e';
    assert "data:" <= line ==> line[0] == 'd';
    hide Trim, TrimStart, StripCr;
  }

  lemma {:induction false} StripsTheCr(raw: string, text: string)
    requires IsLineOf(raw, text)
    ensures StripCr(raw) == text
  {
  }

  /** An empty line hands on one event, if there are data lines, and forgets all fields; other lines say nothing. */
  lemma {:induction false} OtherLinesMean(p: Parsing, raw: string, text: string)
    requires IsLineOf(raw, text)
    ensures text == "" ==>
              p.Line(raw) == Parsing("message", None, [],
                                     if p.data == [] then p.events else p.events + [Event(p.kind, Join(p.data), p.id)])
    ensures text != "" && !("event:" <= text) && !("data:" <= text) && !("id:" <= text) ==> p.Line(raw) == p
  {
    StripsTheCr(raw, text);
    hide Trim, TrimStart, StripCr, Join;
  }

  /** The pieces of a text hold no newline, and joined they are the text; joined lines fall apart again. */
  lemma {:induction false} JoinUndoesSplit(s: string)
    ensures Join(Split(s)) == s && forall i :: 0 <= i < |Split(s)| ==> '\n' !in Split(s)[i]
  {
    if s != "" {
      JoinUndoesSplit(s[1..]);
      var rest := Split(s[1..]);
      assert s == [s[0]] + s[1..];
      if s[0] == '\n' {
        assert ([""] + rest)[1..] == rest;
      } else {
        assert ([[s[0]] + rest[0]] + rest[1..])[1..] == rest[1..];
      }
    }
  }

  lemma {:induction false} SplitUndoesJoin(lines: seq<string>)
    requires lines != [] && forall i :: 0 <= i < |lines| ==> '\n' !in lines[i]
    ensures Split(Join(lines)) == lines
  {
    if |lines| == 1 {
      SplitWhole(lines[0]);
    } else {
      SplitUndoesJoin(lines[1..]);
      SplitLine(lines[0], Join(lines[1..]));
    }
  }

  lemma {:induction false} SplitWhole(line: string)
    requires '\n' !in line
    ensures Split(line) == [line]
  {
    if line != "" {
      SplitWhole(line[1..]);
      assert [line[0]] + line[1..] == line;
    }
  }

  // ---- Chunk boundaries do not matter ---------------------------------------------------------------

  /** The pieces when one character more stands in front. */
  function Prepended(c: char, pieces: seq<string>): (r: seq<string>)
    requires |pieces| >= 1
    ensures |r| >= 1
  {
    if c == '\n' then [""] + pieces else [[c] + pieces[0]] + pieces[1..]
  }

  lemma {:induction false} SplitHead(c: char, s: string)
    ensures Split([c] + s) == Prepended(c, Split(s))
  {
    assert ([c] + s)[1..] == s;
  }

  /** Splitting a text continues the last piece of its first part. */
  lemma {:induction false} SplitAppend(s: string, t: string)
    ensures
      var a, b := Split(s), Split(Split(s)[|Split(s)| - 1] + t);
      Split(s + t) == a[..|a| - 1] + b
  {
    if s == "" {
      assert s + t == t;
    } else {
      hide Split, Prepended;
      var c, rest := s[0], Split(s[1..]);
      SplitAppend(s[1..], t);
      assert s == [c] + s[1..] && s + t == [c] + (s[1..] + t);
      SplitHead(c, s[1..]);
      SplitHead(c, s[1..] + t);
      if c == '\n' || |rest| > 1 {
        PrependedAppend(c, rest, Split(rest[|rest| - 1] + t));
      } else {
        SplitAppendFirst(c, rest, t);
      }
    }
  }

  lemma {:induction false} SplitAppendFirst(c: char, rest: seq<string>, t: string)
    requires c != '\n' && |rest| == 1
    ensures Prepended(c, rest) == [[c] + rest[0]]
    ensures
      var more := Split(rest[0] + t);
      rest[..|rest| - 1] + more == more && Split([c] + rest[0] + t) == Prepended(c, more)
  {
    assert [c] + rest[0] + t == [c] + (rest[0] + t);
    SplitHead(c, rest[0] + t);
    hide Split;
  }

  /** The first character does not reach the last piece. */
  lemma {:induction false} PrependedAppend(c: char, rest: seq<string>, more: seq<string>)
    requires |rest| >= 1 && |more| >= 1 && (c == '\n' || |rest| > 1)
    ensures
      var a := Prepended(c, rest);
      a[|a| - 1] == rest[|rest| - 1] && Prepended(c, rest[..|rest| - 1] + more) == a[..|a| - 1] + more
  {
  }

  lemma {:induction false} LinesAppend(p: Parsing, a: seq<string>, b: seq<string>)
    ensures Lines(p, a + b) == Lines(Lines(p, a), b)
    decreases |a|
  {
    hide Parsing.Line;
    if a == [] {
      assert a + b == b;
    } else {
      LinesAppend(p.Line(a[0]), a[1..], b);
      assert (a + b)[1..] == a[1..] + b;
    }
  }

  lemma {:induction false} LinesCons(p: Parsing, line: string, rest: seq<string>)
    ensures Lines(p, [line] + rest) == Lines(p.Line(line), rest)
  {
    hide Parsing.Line;
    assert ([line] + rest)[1..] == rest;
  }

  lemma {:induction false} FeedAppend(st: Stream, a: string, b: string)
    ensures st.Fed(a).Fed(b) == st.Fed(a + b)
  {
    hide Parsing.Line, Split, Lines;
    var lines := Split(st.buffer + a);
    var n := |lines| - 1;
    var rest := Split(lines[n] + b);
    var m := |rest| - 1;
    var once := st.Fed(a);
    assert once == Stream(lines[n], Lines(st.parsing, lines[..n]));
    assert once.Fed(b) == Stream(rest[m], Lines(once.parsing, rest[..m]));
    SplitAppend(st.buffer + a, b);
    assert st.buffer + (a + b) == st.buffer + a + b;
    var whole := lines[..n] + rest;
    assert Split(st.buffer + (a + b)) == whole;
    assert st.Fed(a + b) == Stream(whole[|whole| - 1], Lines(st.parsing, whole[..|whole| - 1]));
    assert whole[|whole| - 1] == rest[m];
    assert whole[..|whole| - 1] == lines[..n] + rest[..m];
    LinesAppend(st.parsing, lines[..n], rest[..m]);
  }

  function Concat(chunks: seq<string>): string {
    if chunks == [] then "" else chunks[0] + Concat(chunks[1..])
  }

  function FedAll(st: Stream, chunks: seq<string>): Stream
    decreases |chunks|
  {
    if chunks == [] then st else FedAll(st.Fed(chunks[0]), chunks[1..])
  }

  lemma {:induction false} FeedNothing(st: Stream)
    requires Split(st.buffer) == [st.buffer]
    ensures st.Fed("") == st
  {
    assert st.buffer + "" == st.buffer;
  }

  lemma {:induction false} LastPieceIsWhole(s: string)
    ensures var last := Split(s)[|Split(s)| - 1]; Split(last) == [last]
  {
    if s != "" {
      LastPieceIsWhole(s[1..]);
      var rest := Split(s[1..]);
      if s[0] != '\n' && |rest| == 1 {
        assert ([s[0]] + rest[0])[1..] == rest[0];
      }
    }
  }

  /** However the text is cut into chunks, the parser ends where parsing it whole ends. */
  lemma {:induction false} ChunksDoNotMatter(st: Stream, chunks: seq<string>)
    requires Split(st.buffer) == [st.buffer]
    ensures FedAll(st, chunks) == st.Fed(Concat(chunks))
    decreases |chunks|
  {
    if chunks == [] {
      FeedNothing(st);
    } else {
      LastPieceIsWhole(st.buffer + chunks[0]);
      ChunksDoNotMatter(st.Fed(chunks[0]), chunks[1..]);
      FeedAppend(st, chunks[0], Concat(chunks[1..]));
    }
  }

  // ---- The server's format ------------------------------------------------------------------------

  /** An event as the server has it: a type, lines of data and perhaps an id; or a heartbeat comment. */
  datatype Item = Message(kind: string, data: seq<string>, id: Option<string>) | Heartbeat

  function ItemLines(item: Item): seq<string> {
    match item
    case Message(kind, data, id) =>
      ["event: " + kind] + DataLines(data) + (if id.Some? then ["id: " + id.value] else []) + [""]
    case Heartbeat => [": heartbeat", ""]
  }

  function DataLines(data: seq<string>): seq<string> {
    if data == [] then [] else ["data: " + data[0]] + DataLines(data[1..])
  }

  function Terminated(lines: seq<string>): string {
    if lines == [] then "" else lines[0] + "\n" + Terminated(lines[1..])
  }

  function StreamLines(items: seq<Item>): seq<string> {
    if items == [] then [] else ItemLines(items[0]) + StreamLines(items[1..])
  }

  function Encode(items: seq<Item>): string {
    Terminated(StreamLines(items))
  }

  predicate Trimmed(s: string) {
    s != "" ==> !IsBlank(s[0]) && !IsBlank(s[|s| - 1])
  }

  /** What survives the trip: trimmed types and ids, data without leading blanks or a trailing CR. */
  predicate Sendable(item: Item) {
    item.Message? ==>
      && item.kind != "" && Trimmed(item.kind) && '\n' !in item.kind
      && (item.id.Some? ==> item.id.value != "" && Trimmed(item.id.value) && '\n' !in item.id.value)
      && item.data != []
      && forall i :: 0 <= i < |item.data| ==> SendableData(item.data[i])
  }

  predicate SendableData(d: string) {
    && '\n' !in d
    && (d != "" ==> !IsBlank(d[0]) && d[|d| - 1] != '\r')
  }

  function ReceivedOne(item: Item): seq<Event> {
    if item.Message? then [Event(item.kind, Join(item.data), item.id)] else []
  }

  function Received(items: seq<Item>): seq<Event> {
    if items == [] then [] else ReceivedOne(items[0]) + Received(items[1..])
  }

  lemma {:induction false} TrimmedStays(s: string)
    requires Trimmed(s)
    ensures Trim(" " + s) == s && StripCr(s) == s
  {
    assert (" " + s)[1..] == s;
    assert TrimStart(" " + s) == TrimStart(s) == s;
  }

  lemma {:induction false} SplitTerminated(lines: seq<string>, rest: string)
    requires forall i :: 0 <= i < |lines| ==> '\n' !in lines[i]
    ensures Split(Terminated(lines) + rest) == lines + Split(rest)
  {
    hide Split;
    if lines == [] {
      assert Terminated(lines) + rest == rest;
    } else {
      var tail := Terminated(lines[1..]) + rest;
      assert Terminated(lines) + rest == lines[0] + "\n" + tail;
      assert lines == [lines[0]] + lines[1..];
      hide Terminated;
      SplitTerminated(lines[1..], rest);
      SplitLine(lines[0], tail);
    }
  }

  lemma {:induction false} SplitLine(line: string, tail: string)
    requires '\n' !in line
    ensures Split(line + "\n" + tail) == [line] + Split(tail)
  {
    var s := line + "\n" + tail;
    if line == "" {
      assert s[1..] == tail;
    } else {
      SplitLine(line[1..], tail);
      assert s[1..] == line[1..] + "\n" + tail;
      assert [line[0]] + line[1..] == line;
    }
  }

  // ---- Parsing undoes encoding ----------------------------------------------------------------------

  lemma {:induction false} EventLine(p: Parsing, kind: string)
    requires kind != "" && Trimmed(kind)
    ensures p.Line("event: " + kind) == p.(kind := kind)
  {
    var raw := "event: " + kind;
    TrimmedStays(kind);
    assert raw[|raw| - 1] == kind[|kind| - 1];
    assert raw[6..] == " " + kind;
    assert raw[..1] == "e";
  }

  lemma {:induction false} DataLine(p: Parsing, d: string)
    requires SendableData(d)
    ensures p.Line("data: " + d) == p.(data := p.data + [d])
  {
    var raw := "data: " + d;
    assert raw[|raw| - 1] == if d == "" then ' ' else d[|d| - 1];
    assert raw[5..] == " " + d && (" " + d)[1..] == d;
    assert raw[..1] == "d" && raw[0] == 'd';
    assert TrimStart(" " + d) == TrimStart(d) == d;
  }

  lemma {:induction false} IdLine(p: Parsing, id: string)
    requires id != "" && Trimmed(id)
    ensures p.Line("id: " + id) == p.(id := Some(id))
  {
    var raw := "id: " + id;
    TrimmedStays(id);
    assert raw[|raw| - 1] == id[|id| - 1];
    assert raw[3..] == " " + id;
    assert raw[..1] == "i" && raw[0] == 'i';
  }

  lemma {:induction false} AllDataLines(p: Parsing, data: seq<string>)
    requires forall i :: 0 <= i < |data| ==> SendableData(data[i])
    ensures Lines(p, DataLines(data)) == p.(data := p.data + data)
    decreases |data|
  {
    hide Parsing.Line, SendableData;
    if data == [] {
      assert p.data + data == p.data;
    } else {
      assert p.data + [data[0]] + data[1..] == p.data + data;
      assert DataLines(data) == ["data: " + data[0]] + DataLines(data[1..]);
      hide *;
      DataLine(p, data[0]);
      LinesCons(p, "data: " + data[0], DataLines(data[1..]));
      AllDataLines(p.(data := p.data + [data[0]]), data[1..]);
    }
  }

  lemma {:induction false} HeartbeatLines(p: Parsing)
    requires p.data == []
    ensures Lines(p, ItemLines(Heartbeat)) == p.Reset()
  {
    var lines := ItemLines(Heartbeat);
    assert StripCr(lines[0]) == lines[0] && lines[0][..1] == ":";
    assert p.Line(lines[0]) == p;
    assert lines[1..] == [""] && lines[1..][1..] == [];
    assert Lines(p.Line(lines[0]), [""]) == p.Line("");
  }

  lemma {:induction false} MessageLines(p: Parsing, item: Item)
    requires item.Message? && Sendable(item) && p == p.Reset()
    ensures Lines(p, ItemLines(item)) == p.(events := p.events + [Event(item.kind, Join(item.data), item.id)])
  {
    var head, body := ["event: " + item.kind], DataLines(item.data);
    var tail := if item.id.Some? then ["id: " + item.id.value] else [];
    var q := p.(kind := item.kind);
    EventLine(p, item.kind);
    assert Lines(p, head) == q;
    AllDataLines(q, item.data);
    var r := q.(data := item.data);
    assert Lines(q, body) == r;
    if item.id.Some? { IdLine(r, item.id.value); }
    var f := r.(id := item.id);
    assert Lines(r, tail) == f;
    assert Lines(f, [""]) == f.Line("");
    LinesAppend(p, head, body);
    LinesAppend(p, head + body, tail);
    LinesAppend(p, head + body + tail, [""]);
  }

  lemma {:induction false} ItemParses(p: Parsing, item: Item)
    requires Sendable(item) && p == p.Reset()
    ensures Lines(p, ItemLines(item)) == p.(events := p.events + ReceivedOne(item))
  {
    if item.Message? {
      MessageLines(p, item);
    } else {
      HeartbeatLines(p);
      assert p.events + [] == p.events;
    }
  }

  lemma {:induction false} ItemsParse(p: Parsing, items: seq<Item>)
    requires forall i :: 0 <= i < |items| ==> Sendable(items[i])
    requires p == p.Reset()
    ensures Lines(p, StreamLines(items)) == p.(events := p.events + Received(items))
    decreases |items|
  {
    hide Parsing.Line, ItemLines, ReceivedOne, Sendable;
    if items == [] {
      assert p.events + [] == p.events;
    } else {
      var q := p.(events := p.events + ReceivedOne(items[0]));
      ItemParses(p, items[0]);
      assert StreamLines(items) == ItemLines(items[0]) + StreamLines(items[1..]);
      assert q == q.Reset();
      assert q.events + Received(items[1..]) == p.events + Received(items);
      LinesAppend(p, ItemLines(items[0]), StreamLines(items[1..]));
      ItemsParse(q, items[1..]);
    }
  }

  lemma {:induction false} NoNewlineInLines(items: seq<Item>)
    requires forall i :: 0 <= i < |items| ==> Sendable(items[i])
    ensures forall line :: line in StreamLines(items) ==> '\n' !in line
  {
    if items != [] {
      NoNewlineInLines(items[1..]);
      if items[0].Message? { NoNewlineInData(items[0].data); }
    }
  }

  lemma {:induction false} NoNewlineInData(data: seq<string>)
    requires forall i :: 0 <= i < |data| ==> SendableData(data[i])
    ensures forall line :: line in DataLines(data) ==> '\n' !in line
  {
    if data != [] {
      NoNewlineInData(data[1..]);
    }
  }

  /** Parsing what the server wrote, in any chunks, gives back its events; nothing is left pending. */
  lemma {:induction false} ParsingUndoesEncoding(items: seq<Item>, chunks: seq<string>)
    requires forall i :: 0 <= i < |items| ==> Sendable(items[i])
    requires Concat(chunks) == Encode(items)
    ensures FedAll(OPENED, chunks) == Stream("", FRESH.(events := Received(items)))
    ensures FedAll(OPENED, chunks).Finished() == Received(items)
  {
    hide Split, Terminated, StreamLines, Lines, FedAll, Concat, Received, Sendable;
    ChunksDoNotMatter(OPENED, chunks) by { SplitNothing(); }
    FedWhole(items);
  }

  lemma {:induction false} SplitNothing()
    ensures Split("") == [""]
  {
  }

  lemma {:induction false} FedWhole(items: seq<Item>)
    requires forall i :: 0 <= i < |items| ==> Sendable(items[i])
    ensures OPENED.Fed(Encode(items)) == Stream("", FRESH.(events := Received(items)))
  {
    hide Split, Terminated, StreamLines, Lines, Received, Sendable;
    NoNewlineInLines(items);
    SplitNothing();
    var lines := StreamLines(items);
    SplitTerminated(lines, "");
    assert Terminated(lines) + "" == "" + Encode(items) == Encode(items);
    assert (lines + [""])[..|lines|] == lines;
    ItemsParse(FRESH, items);
    assert [] + Received(items) == Received(items);
  }
}
