/** From the server's bytes to the consumed events: the parser, the connection and the fence together. */
module RunPipeline {
  import opened Wrappers
  import opened Sse
  import opened SseConnection
  import opened RunDelivery

  function OfferedAll(cursor: Cursor, events: seq<Event>): Cursor
    requires IsRunSeq(cursor.lastSeq)
    decreases |events|
  {
    if events == [] then cursor
    else
      OfferKeepsSeq(cursor, events[0]);
      OfferedAll(cursor.Offered(events[0]), events[1..])
  }

  lemma {:induction false} OfferKeepsSeq(cursor: Cursor, e: Event)
    requires IsRunSeq(cursor.lastSeq)
    ensures IsRunSeq(cursor.Offered(e).lastSeq)
  {
  }

  lemma {:induction false} OfferTheNext(log: seq<Event>, cursor: Cursor)
    requires IsLog(log) && AtPrefix(log, cursor) && IsRunSeq(cursor.lastSeq) && |cursor.consumed| < |log|
    ensures
      var next := cursor.Offered(log[|cursor.consumed|]);
      AtPrefix(log, next) && next.consumed == cursor.consumed + [log[|cursor.consumed|]]
  {
    OfferLogged(log, cursor, |cursor.consumed|);
    assert IsLogged(log[|cursor.consumed|]);
    hide IsLog, IsRunSeq, Cursor.Offered;
  }

  lemma {:induction false} OfferOneMore(cursor: Cursor, events: seq<Event>, e: Event)
    requires IsRunSeq(cursor.lastSeq)
    ensures IsRunSeq(OfferedAll(cursor, events).lastSeq)
    ensures OfferedAll(cursor, events + [e]) == OfferedAll(cursor, events).Offered(e)
    decreases |events|
  {
    hide Cursor.Offered, IsRunSeq;
    if events == [] {
      assert events + [e] == [e];
    } else {
      OfferKeepsSeq(cursor, events[0]);
      OfferOneMore(cursor.Offered(events[0]), events[1..], e);
      assert (events + [e])[1..] == events[1..] + [e];
    }
  }

  ghost predicate FollowsTo(log: seq<Event>, cursor: Cursor, from: nat, to: nat)
    requires from <= to <= |log| && IsRunSeq(cursor.lastSeq)
  {
    var after := OfferedAll(cursor, log[from..to]);
    AtPrefix(log, after) && IsRunSeq(after.lastSeq) && after.consumed == log[..to]
  }

  /** Offering what follows the cursor in the log consumes all of it. */
  lemma {:induction false} OfferFollowing(log: seq<Event>, cursor: Cursor, to: nat)
    requires IsLog(log) && AtPrefix(log, cursor) && IsRunSeq(cursor.lastSeq)
    requires |cursor.consumed| <= to <= |log|
    ensures FollowsTo(log, cursor, |cursor.consumed|, to)
  {
    hide FollowsTo, IsLog, IsRunSeq, AtPrefix;
    var from := |cursor.consumed|;
    if from == to {
      FollowsNothing(log, cursor);
    } else {
      OfferFollowing(log, cursor, to - 1);
      FollowsOneMore(log, cursor, from, to - 1);
    }
  }

  lemma {:induction false} FollowsNothing(log: seq<Event>, cursor: Cursor)
    requires AtPrefix(log, cursor) && IsRunSeq(cursor.lastSeq)
    ensures |cursor.consumed| <= |log| && FollowsTo(log, cursor, |cursor.consumed|, |cursor.consumed|)
  {
    assert log[|cursor.consumed|..|cursor.consumed|] == [];
    hide IsRunSeq;
  }

  lemma {:induction false} FollowsOneMore(log: seq<Event>, cursor: Cursor, from: nat, k: nat)
    requires IsLog(log) && IsRunSeq(cursor.lastSeq)
    requires from <= k < |log| && FollowsTo(log, cursor, from, k)
    ensures FollowsTo(log, cursor, from, k + 1)
  {
    hide IsLog, AtPrefix, IsRunSeq, Cursor.Offered, OfferedAll;
    var before := OfferedAll(cursor, log[from..k]);
    OfferOneMore(cursor, log[from..k], log[k]);
    OfferTheNext(log, before);
    OfferKeepsSeq(before, log[k]);
    OneMoreSlice(log, from, k);
  }

  lemma {:induction false} OneMoreSlice(log: seq<Event>, from: nat, k: nat)
    requires from <= k < |log|
    ensures log[from..k + 1] == log[from..k] + [log[k]] && log[..k + 1] == log[..k] + [log[k]]
  {
  }

  /** The items a subscription with this id is sent: what follows it in the log, heartbeats among it. */
  ghost predicate AnswersFrom(log: seq<Event>, seqId: string, items: seq<Item>) {
    && IsLog(log) && IsRunSeq(seqId)
    && (forall i :: 0 <= i < |items| ==> IsServerItem(items[i]))
    && Received(items) == log[StartAfter(log, seqId)..]
  }

  ghost predicate Answers(log: seq<Event>, cursor: Cursor, items: seq<Item>) {
    AtPrefix(log, cursor) && AnswersFrom(log, cursor.lastSeq, items)
  }

  lemma {:induction false} ReceivedPrefix(items: seq<Item>, n: nat)
    requires n <= |items|
    ensures Received(items[..n]) <= Received(items)
  {
    assert items == items[..n] + items[n..];
    ReceivedAppend(items[..n], items[n..]);
  }

  /** Whatever part of the answer arrives in order is consumed. */
  lemma {:induction false} PartOfAnswer(log: seq<Event>, cursor: Cursor, items: seq<Item>, events: seq<Event>)
    requires Answers(log, cursor, items) && events <= Received(items)
    ensures AtPrefix(log, OfferedAll(cursor, events)) && IsRunSeq(OfferedAll(cursor, events).lastSeq)
    ensures OfferedAll(cursor, events).consumed == cursor.consumed + events
  {
    StartsAt(log, |cursor.consumed|);
    assert cursor.lastSeq == IdAt(log, |cursor.consumed|);
    PartOfRest(log, cursor, events);
    hide Received, IsLog, IsServerItem, IsRunSeq, OfferedAll;
  }

  lemma {:induction false} PartOfRest(log: seq<Event>, cursor: Cursor, events: seq<Event>)
    requires IsLog(log) && AtPrefix(log, cursor) && IsRunSeq(cursor.lastSeq)
    requires |cursor.consumed| <= |log| && events <= log[|cursor.consumed|..]
    ensures AtPrefix(log, OfferedAll(cursor, events)) && IsRunSeq(OfferedAll(cursor, events).lastSeq)
    ensures OfferedAll(cursor, events).consumed == cursor.consumed + events
  {
    var to := |cursor.consumed| + |events|;
    PrefixOfRest(log, cursor.consumed, events);
    OfferFollowing(log, cursor, to);
    hide *;
    FollowsEvents(log, cursor, to, events);
  }

  lemma {:induction false} FollowsEvents(log: seq<Event>, cursor: Cursor, to: nat, events: seq<Event>)
    requires IsRunSeq(cursor.lastSeq) && |cursor.consumed| <= to <= |log| && FollowsTo(log, cursor, |cursor.consumed|, to)
    requires log[|cursor.consumed|..to] == events && log[..to] == cursor.consumed + events
    ensures AtPrefix(log, OfferedAll(cursor, events)) && IsRunSeq(OfferedAll(cursor, events).lastSeq)
    ensures OfferedAll(cursor, events).consumed == cursor.consumed + events
  {
    hide IsRunSeq, OfferedAll, AtPrefix;
  }

  lemma {:induction false} PrefixOfRest(log: seq<Event>, consumed: seq<Event>, events: seq<Event>)
    requires consumed <= log && events <= log[|consumed|..]
    ensures |consumed| + |events| <= |log|
    ensures log[|consumed|..|consumed| + |events|] == events && log[..|consumed| + |events|] == consumed + events
  {
  }

  /** An event without its id is consumed although the log has none like it. */
  lemma {:induction false} NamelessAfter(log: seq<Event>, cursor: Cursor, items: seq<Item>, events: seq<Event>, e: Event)
    requires Answers(log, cursor, items) && events <= Received(items) && e.id.None?
    ensures !(OfferedAll(cursor, events + [e]).consumed <= log)
  {
    PartOfAnswer(log, cursor, items, events);
    OfferOneMore(cursor, events, e);
    var before := OfferedAll(cursor, events).consumed;
    var after := OfferedAll(cursor, events + [e]).consumed;
    assert after == before + [e] && after[|before|] == e;
    if |before| < |log| {
      assert IsLogged(log[|before|]);
    }
  }

  /**
   A subscription dropped after any character, received in any chunks, leaves the page with a longer
   prefix of the log: what it completed is consumed once and in order, so the next one goes on from there.
   */
  lemma {:induction false} DroppedSubscription(log: seq<Event>, cursor: Cursor, items: seq<Item>, k: nat, chunks: seq<string>)
    requires Answers(log, cursor, items)
    requires k <= |Encode(items)| && Concat(chunks) == Encode(items)[..k]
    ensures
      var after := OfferedAll(cursor, FedAll(OPENED, chunks).parsing.events);
      && AtPrefix(log, after) && IsRunSeq(after.lastSeq)
      && after.consumed == cursor.consumed + Received(items[..CutAt(items, k).items])
  {
    CutConnection(items, k, chunks);
    ReceivedPrefix(items, CutAt(items, k).items);
    hide FedAll, CutAt, Answers;
    PartOfAnswer(log, cursor, items, Received(items[..CutAt(items, k).items]));
  }

  /** A subscription that closes keeps to the log if and only if no event was torn from its id. */
  lemma {:induction false} ClosedSubscriptionIff(log: seq<Event>, cursor: Cursor, items: seq<Item>, k: nat, chunks: seq<string>)
    requires Answers(log, cursor, items)
    requires k <= |Encode(items)| && Concat(chunks) == Encode(items)[..k]
    ensures OfferedAll(cursor, FedAll(OPENED, chunks).Finished()).consumed <= log <==> !Torn(items, CutAt(items, k))
  {
    var all, c := FedAll(OPENED, chunks).Finished(), CutAt(items, k);
    CutConnection(items, k, chunks);
    CloseDeliversAPrefixIff(items, k, chunks);
    ReceivedPrefix(items, c.items);
    if Torn(items, c) {
      NamelessAfter(log, cursor, items, Received(items[..c.items]), Leftover(items, c)[0]);
      assert Leftover(items, c) == [Leftover(items, c)[0]];
    } else {
      hide *;
      PartOfAnswer(log, cursor, items, all);
    }
  }

  // ---- A torn event comes twice ------------------------------------------------------------------------

  /** What is consumed on top depends on the fence alone. */
  lemma {:induction false} OfferedOnTop(cursor: Cursor, base: seq<Event>, events: seq<Event>)
    requires IsRunSeq(cursor.lastSeq)
    ensures
      OfferedAll(cursor.(consumed := base + cursor.consumed), events)
      == OfferedAll(cursor, events).(consumed := base + OfferedAll(cursor, events).consumed)
    decreases |events|
  {
    hide IsRunSeq;
    if events != [] {
      var e := events[0];
      OfferKeepsSeq(cursor, e);
      OfferKeepsSeq(cursor.(consumed := base + cursor.consumed), e);
      assert base + (cursor.consumed + [e]) == base + cursor.consumed + [e];
      OfferedOnTop(cursor.Offered(e), base, events[1..]);
    }
  }

  lemma {:induction false} RestOnTop(log: seq<Event>, cursor: Cursor, base: seq<Event>)
    requires IsLog(log) && AtPrefix(log, cursor) && IsRunSeq(cursor.lastSeq)
    ensures OfferedAll(cursor.(consumed := base), log[|cursor.consumed|..]).consumed == base + log[|cursor.consumed|..]
  {
    var c, empty := |cursor.consumed|, cursor.(consumed := []);
    var rest := log[c..];
    OfferFollowing(log, cursor, |log|);
    assert log[c..|log|] == rest && log[..|log|] == log;
    var more := OfferedAll(empty, rest).consumed;
    OfferedOnTop(empty, cursor.consumed, rest);
    OfferedOnTop(empty, base, rest);
    assert cursor.consumed + [] == cursor.consumed && base + [] == base;
    assert empty.(consumed := cursor.consumed) == cursor;
    hide OfferedAll, IsLog, IsRunSeq;
    assert cursor.consumed + more == log;
    assert more == (cursor.consumed + more)[c..];
  }

  lemma {:induction false} OfferNameless(cursor: Cursor, events: seq<Event>, e: Event)
    requires IsRunSeq(cursor.lastSeq) && e.id.None?
    ensures IsRunSeq(OfferedAll(cursor, events).lastSeq)
    ensures
      var before := OfferedAll(cursor, events);
      OfferedAll(cursor, events + [e]) == before.(consumed := before.consumed + [e])
  {
    OfferOneMore(cursor, events, e);
    hide OfferedAll;
  }

  lemma {:induction false} NthReceived(items: seq<Item>, i: nat)
    requires i < |items| && items[i].Message?
    ensures |Received(items[..i])| < |Received(items)|
    ensures Received(items)[|Received(items[..i])|] == Event(items[i].kind, Join(items[i].data), items[i].id)
  {
    if i == 0 {
      assert items[..i] == [];
    } else {
      NthReceived(items[1..], i - 1);
      assert items[..i][1..] == items[1..][..i - 1];
      assert Received(items[..i]) == ReceivedOne(items[0]) + Received(items[1..][..i - 1]);
    }
  }

  /** What the page gets of the message: all of it but the id. */
  function TornEvent(item: Item): Event
    requires item.Message?
  {
    Event(item.kind, Join(item.data), None)
  }

  lemma {:induction false} TornIsMessage(items: seq<Item>, c: Cut)
    requires c.items <= |items| && Torn(items, c)
    ensures c.items < |items| && items[c.items].Message?
  {
  }

  lemma {:induction false} TornFinish(log: seq<Event>, cursor: Cursor, items: seq<Item>, k: nat, chunks: seq<string>)
    requires Answers(log, cursor, items)
    requires k <= |Encode(items)| && Torn(items, CutAt(items, k)) && Concat(chunks) == Encode(items)[..k]
    ensures
      var i := CutAt(items, k).items;
      FedAll(OPENED, chunks).Finished() == Received(items[..i]) + [TornEvent(items[i])]
  {
    hide FedAll, CutAt, IsServerItem, IsLog, AtPrefix, IsRunSeq, Stream.Finished;
    CutConnection(items, k, chunks);
  }

  lemma {:induction false} AnswerIsRest(log: seq<Event>, cursor: Cursor, items: seq<Item>)
    requires Answers(log, cursor, items)
    ensures IsRunSeq(cursor.lastSeq) && cursor.consumed <= log && Received(items) == log[|cursor.consumed|..]
  {
    hide IsServerItem, IsRunSeq, IsLog, StartAfter;
    StartsAt(log, |cursor.consumed|);
    assert cursor.lastSeq == IdAt(log, |cursor.consumed|);
  }

  /** A subscription closed inside a message leaves the fence before it, but has consumed its data. */
  lemma {:induction false} TornSubscription(log: seq<Event>, cursor: Cursor, items: seq<Item>, k: nat, chunks: seq<string>)
    requires Answers(log, cursor, items)
    requires k <= |Encode(items)| && Torn(items, CutAt(items, k)) && Concat(chunks) == Encode(items)[..k]
    ensures
      var n := |cursor.consumed| + |Received(items[..CutAt(items, k).items])|;
      && n < |log|
      && OfferedAll(cursor, FedAll(OPENED, chunks).Finished()) == Cursor(IdAt(log, n), log[..n] + [log[n].(id := None)])
  {
    hide *;
    TornIsMessage(items, CutAt(items, k));
    TornFinish(log, cursor, items, k, chunks);
    AnswerIsRest(log, cursor, items);
    TornAfter(log, cursor, items, CutAt(items, k).items);
  }

  lemma {:induction false} TornAfter(log: seq<Event>, cursor: Cursor, items: seq<Item>, i: nat)
    requires Answers(log, cursor, items) && i < |items| && items[i].Message? && IsRunSeq(cursor.lastSeq)
    requires cursor.consumed <= log && Received(items) == log[|cursor.consumed|..]
    ensures
      var n := |cursor.consumed| + |Received(items[..i])|;
      && n < |log|
      && OfferedAll(cursor, Received(items[..i]) + [TornEvent(items[i])])
         == Cursor(IdAt(log, n), log[..n] + [log[n].(id := None)])
  {
    hide Answers, Received, AtPrefix, IsRunSeq, OfferedAll, Join, IdAt;
    var done, torn, c := Received(items[..i]), TornEvent(items[i]), |cursor.consumed|;
    ReceivedPrefix(items, i);
    NthReceived(items, i);
    PartOfAnswer(log, cursor, items, done);
    OfferNameless(cursor, done, torn);
    assert log[c + |done|] == Received(items)[|done|];
    TornCursor(log, cursor, done, torn);
  }

  lemma {:induction false} TornCursor(log: seq<Event>, cursor: Cursor, done: seq<Event>, torn: Event)
    requires IsRunSeq(cursor.lastSeq)
    requires var after := OfferedAll(cursor, done); AtPrefix(log, after) && after.consumed == cursor.consumed + done
    requires |cursor.consumed + done| < |log| && torn == log[|cursor.consumed + done|].(id := None)
    ensures
      var after, n := OfferedAll(cursor, done), |cursor.consumed + done|;
      after.(consumed := after.consumed + [torn]) == Cursor(IdAt(log, n), log[..n] + [log[n].(id := None)])
  {
    hide OfferedAll, IsRunSeq;
  }

  /**
   A torn subscription followed by the next one in full, both received in any chunks: the whole log is
   consumed, and the torn event twice, the first time without its id.
   */
  lemma {:induction false} TornEventComesTwice(log: seq<Event>, cursor: Cursor, items: seq<Item>, k: nat,
      chunks: seq<string>, again: seq<Item>, later: seq<string>)
    requires Answers(log, cursor, items)
    requires k <= |Encode(items)| && Torn(items, CutAt(items, k)) && Concat(chunks) == Encode(items)[..k]
    requires AnswersFrom(log, OfferedAll(cursor, FedAll(OPENED, chunks).Finished()).lastSeq, again)
    requires Concat(later) == Encode(again)
    ensures
      var n := |cursor.consumed| + |Received(items[..CutAt(items, k).items])|;
      var closed := OfferedAll(cursor, FedAll(OPENED, chunks).Finished());
      && n < |log| && IsRunSeq(closed.lastSeq)
      && OfferedAll(closed, FedAll(OPENED, later).Finished()).consumed == log[..n] + [log[n].(id := None)] + log[n..]
  {
    hide *;
    TornSubscription(log, cursor, items, k, chunks);
    NextSubscription(log, |cursor.consumed| + |Received(items[..CutAt(items, k).items])|, again, later);
  }

  lemma {:induction false} NextSubscription(log: seq<Event>, n: nat, again: seq<Item>, later: seq<string>)
    requires n < |log| && AnswersFrom(log, IdAt(log, n), again) && Concat(later) == Encode(again)
    ensures IsRunSeq(IdAt(log, n))
    ensures
      var torn := Cursor(IdAt(log, n), log[..n] + [log[n].(id := None)]);
      OfferedAll(torn, FedAll(OPENED, later).Finished()).consumed == log[..n] + [log[n].(id := None)] + log[n..]
  {
    ParsingUndoesEncoding(again, later);
    StartsAt(log, n);
    var clean := Cursor(IdAt(log, n), log[..n]);
    ExpectedAfter(log, n);
    assert IsLog(log);
    hide *;
    RestOnTop(log, clean, log[..n] + [log[n].(id := None)]);
  }

  lemma {:induction false} ExpectedAfter(log: seq<Event>, n: nat)
    requires n <= |log|
    ensures AtPrefix(log, Cursor(IdAt(log, n), log[..n]))
  {
  }
}
