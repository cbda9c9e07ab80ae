/**
 A connection that ends anywhere in what the server wrote.  The server writes the id of an event after
 its data, so a stream that closes between the two hands the browser the event without its id.
 */
module SseConnection {
  import opened Wrappers
  import opened Sse

  /** Run events as `format_sse` writes them: one line of data, and an id. */
  predicate IsServerItem(item: Item) {
    Sendable(item) && (item.Message? ==> |item.data| == 1 && item.id.Some?)
  }

  /** How many lines are complete in the first k characters of the terminated lines. */
  function CompleteLines(lines: seq<string>, k: nat): (m: nat)
    ensures m <= |lines|
  {
    if lines == [] || k <= |lines[0]| then 0 else 1 + CompleteLines(lines[1..], k - |lines[0]| - 1)
  }

  /** So many items are complete in the first m lines, and so many lines of the next one. */
  datatype Cut = Cut(items: nat, lines: nat)

  function CutAfter(items: seq<Item>, m: nat): (c: Cut)
    ensures c.items <= |items|
  {
    if items == [] then Cut(0, 0)
    else if m < |ItemLines(items[0])| then Cut(0, m)
    else
      var rest := CutAfter(items[1..], m - |ItemLines(items[0])|);
      Cut(rest.items + 1, rest.lines)
  }

  /** What the end of the stream dispatches of the item it interrupts. */
  function Leftover(items: seq<Item>, c: Cut): seq<Event>
    requires c.items <= |items|
  {
    if c.items < |items| && items[c.items].Message? then
      var item := items[c.items];
      if c.lines == 2 then [Event(item.kind, Join(item.data), None)]
      else if c.lines == 3 then [Event(item.kind, Join(item.data), item.id)]
      else []
    else []
  }

  function CutAt(items: seq<Item>, k: nat): (c: Cut)
    ensures c.items <= |items|
  {
    CutAfter(items, CompleteLines(StreamLines(items), k))
  }

  lemma {:induction false} NoNewlineIsOnePiece(s: string)
    requires '\n' !in s
    ensures Split(s) == [s]
  {
    if s != "" {
      NoNewlineIsOnePiece(s[1..]);
      assert [s[0]] + s[1..] == s;
    }
  }

  lemma {:induction false} PrefixSplits(lines: seq<string>, k: nat)
    requires forall i :: 0 <= i < |lines| ==> '\n' !in lines[i]
    requires k <= |Terminated(lines)|
    ensures
      var pieces := Split(Terminated(lines)[..k]);
      pieces[..|pieces| - 1] == lines[..CompleteLines(lines, k)]
  {
    if lines != [] {
      var text := Terminated(lines);
      var n := |lines[0]|;
      if k <= n {
        assert text[..k] == lines[0][..k];
        NoNewlineIsOnePiece(lines[0][..k]);
      } else {
        var tail := Terminated(lines[1..]);
        assert text == lines[0] + "\n" + tail;
        assert text[..k] == lines[0] + "\n" + tail[..k - n - 1];
        SplitLine(lines[0], tail[..k - n - 1]);
        PrefixSplits(lines[1..], k - n - 1);
        var rest := Split(tail[..k - n - 1]);
        var m := CompleteLines(lines[1..], k - n - 1);
        assert ([lines[0]] + rest)[..|rest|] == [lines[0]] + rest[..|rest| - 1];
        assert lines[..m + 1] == [lines[0]] + lines[1..][..m];
      }
    }
  }

  lemma {:induction false} ServerMessageLines(item: Item)
    requires IsServerItem(item) && item.Message?
    ensures ItemLines(item) == ["event: " + item.kind, "data: " + item.data[0], "id: " + item.id.value, ""]
  {
    assert DataLines(item.data) == ["data: " + item.data[0]] + DataLines(item.data[1..]) == ["data: " + item.data[0]];
  }

  /** A message interrupted after fewer than its four lines. */
  lemma {:induction false} PartOfMessage(p: Parsing, item: Item, m: nat)
    requires IsServerItem(item) && item.Message? && p == p.Reset() && m < |ItemLines(item)|
    ensures |ItemLines(item)| == 4
    ensures
      var q := Lines(p, ItemLines(item)[..m]);
      && q.events == p.events
      && q.Dispatched().events == p.events + Leftover([item], Cut(0, m))
  {
    var lines := ItemLines(item);
    ServerMessageLines(item);
    var p1 := p.(kind := item.kind);
    var p2 := p1.(data := [item.data[0]]);
    var p3 := p2.(id := item.id);
    assert p.events + [] == p.events && p1.data + [item.data[0]] == [item.data[0]] == item.data;
    EventLine(p, item.kind);
    DataLine(p1, item.data[0]);
    IdLine(p2, item.id.value);
    hide Parsing.Line, Lines, Sendable, DataLines, ItemLines;
    FirstLines(p, lines, m);
  }

  lemma {:induction false} FirstLines(p: Parsing, lines: seq<string>, m: nat)
    requires |lines| == 4 && m < 4
    ensures Lines(p, lines[..m]) ==
      if m == 0 then p
      else if m == 1 then p.Line(lines[0])
      else if m == 2 then p.Line(lines[0]).Line(lines[1])
      else p.Line(lines[0]).Line(lines[1]).Line(lines[2])
  {
    hide Parsing.Line;
    if m >= 1 { OneLine(p, lines[..m]); assert lines[..m][1..] == lines[1..m]; }
    if m >= 2 { OneLine(p.Line(lines[0]), lines[1..m]); assert lines[1..m][1..] == lines[2..m]; }
    if m >= 3 { OneLine(p.Line(lines[0]).Line(lines[1]), lines[2..m]); assert lines[2..m][1..] == []; }
  }

  lemma {:induction false} OneLine(p: Parsing, lines: seq<string>)
    requires lines != []
    ensures Lines(p, lines) == Lines(p.Line(lines[0]), lines[1..])
  {
    hide Parsing.Line;
  }

  lemma {:induction false} PartOfHeartbeat(p: Parsing, m: nat)
    requires p.data == [] && m < |ItemLines(Heartbeat)|
    ensures
      var q := Lines(p, ItemLines(Heartbeat)[..m]);
      q.events == p.events && q.Dispatched().events == p.events
  {
    var lines := ItemLines(Heartbeat);
    assert StripCr(lines[0]) == lines[0] && lines[0][..1] == ":";
    assert p.Line(lines[0]) == p;
    if m == 1 {
      assert lines[..1] == [lines[0]];
      assert Lines(p, [lines[0]]) == p;
    } else {
      assert lines[..0] == [];
    }
  }

  /** The lines before a cut: those of the complete items, and the first few of the next. */
  lemma {:induction false} CutLines(items: seq<Item>, m: nat)
    requires m <= |StreamLines(items)|
    ensures
      var c := CutAfter(items, m);
      if c.items == |items| then StreamLines(items)[..m] == StreamLines(items)
      else
        && c.lines < |ItemLines(items[c.items])|
        && StreamLines(items)[..m] == StreamLines(items[..c.items]) + ItemLines(items[c.items])[..c.lines]
  {
    hide ItemLines;
    if items != [] {
      var first, rest := ItemLines(items[0]), StreamLines(items[1..]);
      if m < |first| {
        assert (first + rest)[..m] == [] + first[..m];
      } else {
        CutLines(items[1..], m - |first|);
        var c := CutAfter(items[1..], m - |first|);
        assert (first + rest)[..m] == first + rest[..m - |first|];
        if c.items < |items| - 1 {
          assert items[..c.items + 1][1..] == items[1..][..c.items];
          assert StreamLines(items[..c.items + 1]) == first + StreamLines(items[1..][..c.items]);
        }
      }
    }
  }

  lemma {:induction false} CutStream(items: seq<Item>, m: nat)
    requires forall i :: 0 <= i < |items| ==> IsServerItem(items[i])
    requires m <= |StreamLines(items)|
    ensures
      var c, q := CutAfter(items, m), Lines(FRESH, StreamLines(items)[..m]);
      && q.events == Received(items[..c.items])
      && q.Dispatched().events == Received(items[..c.items]) + Leftover(items, c)
  {
    var c := CutAfter(items, m);
    var done := items[..c.items];
    var p := FRESH.(events := Received(done));
    CutLines(items, m);
    ItemsParse(FRESH, done);
    assert FRESH.events + Received(done) == Received(done);
    if c.items == |items| {
      assert done == items && p.events + [] == p.events;
    } else {
      var item := items[c.items];
      LinesAppend(FRESH, StreamLines(done), ItemLines(item)[..c.lines]);
      PartOfItem(p, item, c.lines);
      assert Leftover([item], Cut(0, c.lines)) == Leftover(items, c);
      hide *;
    }
  }

  lemma {:induction false} PartOfItem(p: Parsing, item: Item, m: nat)
    requires IsServerItem(item) && p == p.Reset() && m < |ItemLines(item)|
    ensures
      var q := Lines(p, ItemLines(item)[..m]);
      && q.events == p.events
      && q.Dispatched().events == p.events + Leftover([item], Cut(0, m))
  {
    if item.Message? {
      PartOfMessage(p, item, m);
    } else {
      PartOfHeartbeat(p, m);
      assert p.events + [] == p.events;
    }
  }

  /**
   A connection cut after any character and received in any chunks.  Dropped, it has delivered exactly
   the complete events, in order; closed, it delivers at most one event more.
   */
  lemma {:induction false} CutConnection(items: seq<Item>, k: nat, chunks: seq<string>)
    requires forall i :: 0 <= i < |items| ==> IsServerItem(items[i])
    requires k <= |Encode(items)| && Concat(chunks) == Encode(items)[..k]
    ensures
      var c, st := CutAt(items, k), FedAll(OPENED, chunks);
      && st.parsing.events == Received(items[..c.items])
      && st.Finished() == Received(items[..c.items]) + Leftover(items, c)
  {
    var lines := StreamLines(items);
    NoNewlineInLines(items);
    ChunksDoNotMatter(OPENED, chunks);
    PrefixSplits(lines, k);
    CutStream(items, CompleteLines(lines, k));
    hide Parsing.Line, Lines, CutAfter;
    assert "" + Concat(chunks) == Terminated(lines)[..k];
  }

  lemma {:induction false} ReceivedAppend(a: seq<Item>, b: seq<Item>)
    ensures Received(a + b) == Received(a) + Received(b)
  {
    hide ReceivedOne;
    if a == [] {
      assert a + b == b;
    } else {
      ReceivedAppend(a[1..], b);
      assert (a + b)[0] == a[0] && (a + b)[1..] == a[1..] + b;
      var first, middle, last := ReceivedOne(a[0]), Received(a[1..]), Received(b);
      assert first + (middle + last) == (first + middle) + last;
    }
  }

  /** The stream ends after the data line of an event and before its id line is complete. */
  predicate Torn(items: seq<Item>, c: Cut)
    requires c.items <= |items|
  {
    c.items < |items| && items[c.items].Message? && c.lines == 2
  }

  /** A closed connection delivers a prefix of the server's events if and only if no event was torn. */
  lemma {:induction false} CloseDeliversAPrefixIff(items: seq<Item>, k: nat, chunks: seq<string>)
    requires forall i :: 0 <= i < |items| ==> IsServerItem(items[i])
    requires k <= |Encode(items)| && Concat(chunks) == Encode(items)[..k]
    ensures FedAll(OPENED, chunks).Finished() <= Received(items) <==> !Torn(items, CutAt(items, k))
  {
    CutConnection(items, k, chunks);
    var c := CutAt(items, k);
    hide FedAll, CutAt;
    LeftoverIsAPrefixIff(items, c);
  }

  lemma {:induction false} LeftoverIsAPrefixIff(items: seq<Item>, c: Cut)
    requires forall i :: 0 <= i < |items| ==> IsServerItem(items[i])
    requires c.items <= |items|
    ensures Received(items[..c.items]) + Leftover(items, c) <= Received(items) <==> !Torn(items, c)
  {
    var done, rest := Received(items[..c.items]), Received(items[c.items..]);
    ReceivedAppend(items[..c.items], items[c.items..]);
    assert items[..c.items] + items[c.items..] == items;
    NextIsAPrefixIff(items, c);
    hide *;
    SamePrefix(done, Leftover(items, c), rest);
  }

  lemma {:induction false} NextIsAPrefixIff(items: seq<Item>, c: Cut)
    requires forall i :: 0 <= i < |items| ==> IsServerItem(items[i])
    requires c.items <= |items|
    ensures Leftover(items, c) <= Received(items[c.items..]) <==> !Torn(items, c)
  {
    if c.items < |items| {
      var item := items[c.items];
      assert IsServerItem(item);
      assert Received(items[c.items..]) == ReceivedOne(item) + Received(items[c.items..][1..]);
      if item.Message? {
        assert Received(items[c.items..])[0] == Event(item.kind, Join(item.data), item.id);
      }
    }
  }

  lemma {:induction false} SamePrefix<T>(a: seq<T>, b: seq<T>, c: seq<T>)
    ensures a + b <= a + c <==> b <= c
  {
    if a + b <= a + c {
      assert b == (a + b)[|a|..] && c == (a + c)[|a|..];
    }
  }

  // ---- Torn events do occur --------------------------------------------------------------------------

  lemma {:induction false} CompleteLinesAt(lines: seq<string>, m: nat)
    requires m <= |lines|
    ensures |Terminated(lines[..m])| <= |Terminated(lines)|
    ensures CompleteLines(lines, |Terminated(lines[..m])|) == m
  {
    if m == 0 {
      assert lines[..m] == [];
    } else {
      CompleteLinesAt(lines[1..], m - 1);
      assert lines[..m][1..] == lines[1..][..m - 1];
    }
  }

  lemma {:induction false} CutAfterAt(items: seq<Item>, i: nat, n: nat)
    requires i < |items| && n < |ItemLines(items[i])|
    ensures |StreamLines(items[..i])| + n <= |StreamLines(items)|
    ensures CutAfter(items, |StreamLines(items[..i])| + n) == Cut(i, n)
  {
    hide ItemLines;
    if i == 0 {
      assert items[..i] == [];
    } else {
      CutAfterAt(items[1..], i - 1, n);
      assert items[..i][1..] == items[1..][..i - 1];
    }
  }

  /** Every message of every answer can be torn from its id. */
  lemma {:induction false} TornCutExists(items: seq<Item>, i: nat) returns (k: nat)
    requires i < |items| && IsServerItem(items[i]) && items[i].Message?
    ensures k <= |Encode(items)| && CutAt(items, k) == Cut(i, 2) && Torn(items, CutAt(items, k))
  {
    ServerMessageLines(items[i]);
    CutAfterAt(items, i, 2);
    var lines := StreamLines(items);
    var m := |StreamLines(items[..i])| + 2;
    CompleteLinesAt(lines, m);
    k := |Terminated(lines[..m])|;
    hide Terminated, StreamLines, ItemLines, CompleteLines;
  }
}
