/**
 Run events reach the page exactly once, as long as every subscription is started at the id of the last
 event consumed: sequence ids fence what overlapping and repeated subscriptions deliver, but a start
 sets the fence to the id it is given, which its caller may have read some time before.
 */
module RunDelivery {
  import opened Wrappers
  import opened Sse

  // ---- Sequence ids -------------------------------------------------------------------------------

  predicate IsDigits(s: string) {
    s != "" && forall i :: 0 <= i < |s| ==> '0' <= s[i] <= '9'
  }

  function Value(s: string): nat
    requires forall i :: 0 <= i < |s| ==> '0' <= s[i] <= '9'
  {
    if s == "" then 0 else 10 * Value(s[..|s| - 1]) + (s[|s| - 1] - '0') as nat
  }

  function DashAt(s: string): (i: nat)
    ensures i <= |s|
    ensures i < |s| ==> s[i] == '-'
    ensures '-' !in s[..i]
  {
    if s == "" || s[0] == '-' then 0
    else
      var rest := DashAt(s[1..]);
      assert s[..rest + 1] == [s[0]] + s[1..][..rest];
      rest + 1
  }

  /** Digits, a dash, digits. */
  predicate IsRunSeq(s: string) {
    var i := DashAt(s);
    i < |s| && IsDigits(s[..i]) && IsDigits(s[i + 1..])
  }

  const ORIGIN := "0-0"

  lemma {:induction false} OriginIsRunSeq()
    ensures IsRunSeq(ORIGIN) && Major(ORIGIN) == 0 && Minor(ORIGIN) == 0
  {
    assert DashAt(ORIGIN) == 1 by {
      assert ORIGIN[1..][0] == '-';
      assert DashAt(ORIGIN[1..]) == 0;
    }
    assert ORIGIN[..1] == "0" && ORIGIN[2..] == "0";
    assert "0"[..0] == "" && Value("0") == 0;
  }

  /** Anything malformed counts as the origin. */
  function NormalizeRunSeq(value: Option<string>): (s: string)
    ensures IsRunSeq(s)
  {
    OriginIsRunSeq();
    if value.Some? && IsRunSeq(Trim(value.value)) then Trim(value.value) else ORIGIN
  }

  function Major(s: string): nat
    requires IsRunSeq(s)
  {
    Value(s[..DashAt(s)])
  }

  function Minor(s: string): nat
    requires IsRunSeq(s)
  {
    Value(s[DashAt(s) + 1..])
  }

  function CompareRunSeq(incoming: string, current: string): (c: int)
    requires IsRunSeq(incoming) && IsRunSeq(current)
    ensures -1 <= c <= 1
  {
    if Major(incoming) > Major(current) then 1
    else if Major(incoming) < Major(current) then -1
    else if Minor(incoming) > Minor(current) then 1
    else if Minor(incoming) < Minor(current) then -1
    else 0
  }

  predicate Later(incoming: string, current: string)
    requires IsRunSeq(incoming) && IsRunSeq(current)
  {
    CompareRunSeq(incoming, current) > 0
  }

  /** A strict order on the moments ids stand for: leading zeros make different texts the same moment. */
  lemma {:induction false} RunSeqOrder(a: string, b: string, c: string)
    requires IsRunSeq(a) && IsRunSeq(b) && IsRunSeq(c)
    ensures CompareRunSeq(a, b) == -CompareRunSeq(b, a)
    ensures Later(a, b) && CompareRunSeq(b, c) >= 0 ==> Later(a, c)
    ensures CompareRunSeq(a, b) == 0 <==> Major(a) == Major(b) && Minor(a) == Minor(b)
    ensures Later(a, ORIGIN) <==> CompareRunSeq(a, ORIGIN) != 0
  {
    OriginIsRunSeq();
  }

  // ---- The ids of the server --------------------------------------------------------------------------

  function Digit(d: nat): char
    requires d < 10
  {
    ('0' as int + d) as char
  }

  /** A number in decimal digits. */
  function Decimal(n: nat): (s: string)
    ensures s != ""
  {
    (if n < 10 then "" else Decimal(n / 10)) + [Digit(n % 10)]
  }

  lemma {:induction false} DigitReads(d: nat)
    requires d < 10
    ensures '0' <= Digit(d) <= '9' && (Digit(d) - '0') as nat == d && Digit(d) != '-' && !IsBlank(Digit(d))
  {
  }

  lemma {:induction false} DecimalReads(n: nat)
    ensures IsDigits(Decimal(n)) && '-' !in Decimal(n) && Value(Decimal(n)) == n
    ensures !IsBlank(Decimal(n)[0]) && !IsBlank(Decimal(n)[|Decimal(n)| - 1])
  {
    hide IsBlank, Digit;
    var s, init := Decimal(n), if n < 10 then "" else Decimal(n / 10);
    DigitReads(n % 10);
    assert s == init + [Digit(n % 10)] && s[..|s| - 1] == init;
    if n >= 10 {
      DecimalReads(n / 10);
      assert s[0] == init[0];
    }
    OneDigitMoreReads(init, Digit(n % 10));
  }

  lemma {:induction false} OneDigitMoreReads(init: string, c: char)
    requires (forall i :: 0 <= i < |init| ==> '0' <= init[i] <= '9') && '0' <= c <= '9'
    ensures IsDigits(init + [c]) && Value(init + [c]) == 10 * Value(init) + (c - '0') as nat
  {
    assert (init + [c])[..|init|] == init;
  }

  lemma {:induction false} DashBetween(a: string, b: string)
    requires '-' !in a
    ensures DashAt(a + "-" + b) == |a|
  {
    var s := a + "-" + b;
    if a != "" {
      DashBetween(a[1..], b);
      assert s[1..] == a[1..] + "-" + b;
    }
  }

  function ServerId(major: nat, minor: nat): string {
    Decimal(major) + "-" + Decimal(minor)
  }

  /** Every id the server can give is kept as it is, and read back as its two numbers. */
  lemma {:induction false} ServerIdsAreKept(major: nat, minor: nat)
    ensures
      var id := ServerId(major, minor);
      IsRunSeq(id) && NormalizeRunSeq(Some(id)) == id && Major(id) == major && Minor(id) == minor
  {
    var a, b, id := Decimal(major), Decimal(minor), ServerId(major, minor);
    DecimalReads(major);
    DecimalReads(minor);
    hide Decimal, Value, IsBlank, DashAt;
    DashBetween(a, b);
    assert id[..|a|] == a && id[|a| + 1..] == b;
    assert id[0] == a[0] && id[|id| - 1] == b[|b| - 1];
    UntrimmedStays(id);
  }

  lemma {:induction false} UntrimmedStays(s: string)
    requires s != "" && !IsBlank(s[0]) && !IsBlank(s[|s| - 1])
    ensures Trim(s) == s
  {
  }

  /** Ids are ordered as their numbers are, the first before the second. */
  lemma {:induction false} ServerIdsInOrder(a: nat, b: nat, c: nat, d: nat)
    ensures IsRunSeq(ServerId(a, b)) && IsRunSeq(ServerId(c, d))
    ensures Later(ServerId(a, b), ServerId(c, d)) <==> a > c || (a == c && b > d)
    ensures CompareRunSeq(ServerId(a, b), ServerId(c, d)) == 0 <==> a == c && b == d
  {
    ServerIdsAreKept(a, b);
    ServerIdsAreKept(c, d);
    hide ServerId, IsRunSeq, Major, Minor;
  }

  // ---- The consumer -------------------------------------------------------------------------------

  /** What the page has consumed of the run it shows since the live conversation was last emptied. */
  datatype Cursor = Cursor(lastSeq: string, consumed: seq<Event>) {

    /** An event without an id passes the fence; the server's last resort notices have none. */
    function Offered(e: Event): Cursor
      requires IsRunSeq(lastSeq)
    {
      if e.id.Some? && e.id.value != "" then
        var incoming := NormalizeRunSeq(e.id);
        if CompareRunSeq(incoming, lastSeq) <= 0 then this else Cursor(incoming, consumed + [e])
      else this.(consumed := consumed + [e])
    }
  }

  class RunEventConsumer {
    const runId: string
    var activeRunId: Option<string>
    var lastSeq: string
    var consumed: seq<Event>

    function View(): Cursor
      reads this
    {
      Cursor(lastSeq, consumed)
    }

    constructor (runId: string, afterSeq: Option<string>)
      ensures View() == Cursor(NormalizeRunSeq(afterSeq), []) && activeRunId == Some(runId) && this.runId == runId
    {
      this.runId := runId;
      activeRunId := Some(runId);
      lastSeq := NormalizeRunSeq(afterSeq);
      consumed := [];
    }

    /** A subscription is started: the fence is set to the id its caller gives. */
    method Start(afterSeq: Option<string>)
      modifies this`lastSeq, this`activeRunId
      ensures View() == old(View()).(lastSeq := NormalizeRunSeq(afterSeq)) && activeRunId == Some(runId)
    {
      activeRunId := Some(runId);
      lastSeq := NormalizeRunSeq(afterSeq);
    }

    /** The live conversation is emptied; the fence stays where it is. */
    method Reset()
      modifies this`consumed
      ensures View() == old(View()).(consumed := [])
    {
      consumed := [];
    }

    /** The callback of one parsed event; `truthy` says that its data was not null or another empty value. */
    method OnEvent(e: Event, truthy: bool)
      requires IsRunSeq(lastSeq)
      modifies this`lastSeq, this`consumed
      ensures IsRunSeq(lastSeq)
      ensures View() == if truthy && activeRunId == Some(runId) then old(View()).Offered(e) else old(View())
    {
      if !truthy || activeRunId != Some(runId) {
        return;
      }
      if e.id.Some? && e.id.value != "" {
        var incoming := NormalizeRunSeq(e.id);
        if CompareRunSeq(incoming, lastSeq) <= 0 {
          return;
        }
        lastSeq := incoming;
      }
      consumed := consumed + [e];
    }
  }

  // ---- Subscriptions ------------------------------------------------------------------------------

  type SubId = nat

  /** An open connection: the position in the log of the event it delivers next. */
  datatype State = State(log: seq<Event>, cursor: Cursor, subs: map<SubId, nat>)

  /** `seqId` is the id a start is given: of whatever event the caller last read the cursor at, or the origin. */
  datatype Action =
    | Append(e: Event)
    | Start(sub: SubId, seqId: string)
    | Deliver(sub: SubId)
    | Drop(sub: SubId)
    | Reset

  predicate IsLogged(e: Event) {
    e.id.Some? && e.id.value == Trim(e.id.value) && IsRunSeq(e.id.value) && Later(e.id.value, ORIGIN)
  }

  /** A Redis stream: well-formed ids above the origin, each later than those before. */
  predicate IsLog(log: seq<Event>) {
    && (forall i :: 0 <= i < |log| ==> IsLogged(log[i]))
    && (forall i, j | 0 <= i < j < |log| :: Later(log[j].id.value, log[i].id.value))
  }

  /** The server starts after the cursor it is given: the first position with a later id. */
  function StartAfter(log: seq<Event>, seqId: string): (p: nat)
    requires IsLog(log) && IsRunSeq(seqId)
    ensures p <= |log|
    ensures p < |log| ==> Later(log[p].id.value, seqId)
    ensures forall i :: 0 <= i < p ==> !Later(log[i].id.value, seqId)
  {
    FirstLater(log, seqId, 0)
  }

  function FirstLater(log: seq<Event>, seqId: string, from: nat): (p: nat)
    requires IsLog(log) && IsRunSeq(seqId) && from <= |log|
    requires forall i :: 0 <= i < from ==> !Later(log[i].id.value, seqId)
    ensures p <= |log|
    ensures p < |log| ==> Later(log[p].id.value, seqId)
    ensures forall i :: 0 <= i < p ==> !Later(log[i].id.value, seqId)
    decreases |log| - from
  {
    if from == |log| || Later(log[from].id.value, seqId) then from else FirstLater(log, seqId, from + 1)
  }

  /** The id of the n-th event, counted from one; the origin comes before them all. */
  function IdAt(log: seq<Event>, n: nat): string
    requires n <= |log|
  {
    if n == 0 then ORIGIN else log[n - 1].id.GetOr("")
  }

  ghost predicate Known(log: seq<Event>, seqId: string) {
    exists n: nat :: n <= |log| && seqId == IdAt(log, n)
  }

  ghost predicate Enabled(s: State, a: Action) {
    IsLog(s.log) && IsRunSeq(s.cursor.lastSeq)
    && match a
       case Append(e) => IsLog(s.log + [e])
       case Start(sub, seqId) => sub !in s.subs && Known(s.log, seqId) && IsRunSeq(seqId)
       case Deliver(sub) => sub in s.subs && s.subs[sub] < |s.log|
       case Drop(sub) => sub in s.subs
       case Reset => true
  }

  /**
   A start sets the fence and asks for what follows.  A reconnection is given `runLastSeq`, a resume what
   it read before its last request, a run shown afresh the origin.  A reset empties the live conversation
   and aborts the open subscription; the start that usually follows it is a step of its own.
   */
  function After(s: State, a: Action): State
    requires Enabled(s, a)
  {
    match a
    case Append(e) => s.(log := s.log + [e])
    case Start(sub, seqId) => s.(cursor := s.cursor.(lastSeq := seqId), subs := s.subs[sub := StartAfter(s.log, seqId)])
    case Deliver(sub) => s.(cursor := s.cursor.Offered(s.log[s.subs[sub]]), subs := s.subs[sub := s.subs[sub] + 1])
    case Drop(sub) => s.(subs := s.subs - {sub})
    case Reset => s.(cursor := s.cursor.(consumed := []), subs := map[])
  }

  /** The subscription has been started and neither dropped nor reset since. */
  ghost predicate OpenSince(actions: seq<Action>, k: nat, sub: SubId)
    requires k <= |actions|
  {
    exists j :: 0 <= j < k && actions[j].Start? && actions[j].sub == sub
                && forall i :: j < i < k ==> actions[i] != Drop(sub) && actions[i] != Reset
  }

  lemma {:induction false} OpenOneMore(actions: seq<Action>, n: nat, sub: SubId)
    requires n < |actions|
    ensures OpenSince(actions, n + 1, sub) <==>
              (actions[n].Start? && actions[n].sub == sub)
              || (OpenSince(actions, n, sub) && actions[n] != Drop(sub) && actions[n] != Reset)
  {
    if OpenSince(actions, n, sub) && actions[n] != Drop(sub) && actions[n] != Reset {
      var j :| 0 <= j < n && actions[j].Start? && actions[j].sub == sub
               && forall i :: j < i < n ==> actions[i] != Drop(sub) && actions[i] != Reset;
      assert forall i :: j < i < n + 1 ==> actions[i] != Drop(sub) && actions[i] != Reset;
    }
  }

  /** The id of the last event consumed. */
  function Expected(consumed: seq<Event>): string {
    IdAt(consumed, |consumed|)
  }

  /** The cursor stands right after the first events of the log, which are what was consumed. */
  predicate AtPrefix(log: seq<Event>, cursor: Cursor) {
    cursor.consumed <= log && cursor.lastSeq == Expected(cursor.consumed)
  }

  /** No open subscription is ahead of the cursor. */
  predicate NoneAhead(s: State) {
    forall sub :: sub in s.subs ==> s.subs[sub] <= |s.cursor.consumed|
  }

  lemma {:induction false} OfferLogged(log: seq<Event>, cursor: Cursor, p: nat)
    requires IsLog(log) && AtPrefix(log, cursor) && IsRunSeq(cursor.lastSeq) && p < |log|
    ensures p < |cursor.consumed| ==> cursor.Offered(log[p]) == cursor
    ensures p >= |cursor.consumed| ==>
      cursor.Offered(log[p]) == Cursor(log[p].id.value, cursor.consumed + [log[p]])
  {
    hide IsRunSeq, CompareRunSeq, Cursor.Offered, IsLog, AtPrefix, IdAt;
    StandingAt(log, cursor);
    KnownIds(log, p, |cursor.consumed|);
    OfferNamed(cursor, log[p]);
  }

  /** An event with an id passes the fence exactly if it is later than the cursor, and moves it. */
  lemma {:induction false} OfferNamed(cursor: Cursor, e: Event)
    requires IsLogged(e) && IsRunSeq(cursor.lastSeq)
    ensures cursor.Offered(e) ==
              if Later(e.id.value, cursor.lastSeq) then Cursor(e.id.value, cursor.consumed + [e]) else cursor
  {
    assert e.id.value != "";
    hide IsRunSeq, CompareRunSeq, Trim;
  }

  lemma {:induction false} KnownIsRunSeq(log: seq<Event>, n: nat)
    requires IsLog(log) && n <= |log|
    ensures IsRunSeq(IdAt(log, n))
  {
    OriginIsRunSeq();
    if n > 0 { assert IsLogged(log[n - 1]); }
  }

  lemma {:induction false} KnownIds(log: seq<Event>, i: nat, n: nat)
    requires IsLog(log) && i < |log| && n <= |log|
    ensures IsRunSeq(IdAt(log, n)) && IsLogged(log[i])
    ensures Later(log[i].id.value, IdAt(log, n)) <==> n <= i
  {
    KnownIsRunSeq(log, n);
    assert IsLogged(log[i]);
    hide IsRunSeq, CompareRunSeq;
    if n > 0 {
      RunSeqOrder(log[i].id.value, log[n - 1].id.value, log[i].id.value);
    }
  }

  /** Given the id of the n-th event the server takes up right after it. */
  lemma {:induction false} StartsAt(log: seq<Event>, n: nat)
    requires IsLog(log) && n <= |log|
    ensures IsRunSeq(IdAt(log, n)) && StartAfter(log, IdAt(log, n)) == n
  {
    KnownIsRunSeq(log, n);
    var p := StartAfter(log, IdAt(log, n));
    hide IsLog, IsRunSeq, StartAfter;
    if p < n {
      KnownIds(log, p, n);
    } else if n < p {
      KnownIds(log, n, n);
    }
  }

  /** The server takes up where the page stands if and only if it is given the id of the last event consumed. */
  lemma {:induction false} StartsWhereConsumedIff(log: seq<Event>, consumed: seq<Event>, seqId: string)
    requires IsLog(log) && consumed <= log && Known(log, seqId) && IsRunSeq(seqId)
    ensures StartAfter(log, seqId) == |consumed| <==> seqId == Expected(consumed)
  {
    var n: nat :| n <= |log| && seqId == IdAt(log, n);
    StartsAt(log, n);
    StartsAt(log, |consumed|);
    assert Expected(consumed) == IdAt(log, |consumed|);
  }

  lemma {:induction false} DeliverKeepsPrefix(s: State, sub: SubId)
    requires Enabled(s, Deliver(sub)) && AtPrefix(s.log, s.cursor) && NoneAhead(s)
    ensures AtPrefix(s.log, After(s, Deliver(sub)).cursor) && NoneAhead(After(s, Deliver(sub)))
    ensures IsRunSeq(After(s, Deliver(sub)).cursor.lastSeq)
  {
    var c, p := |s.cursor.consumed|, s.subs[sub];
    OfferLogged(s.log, s.cursor, p);
    assert IsLogged(s.log[p]);
    assert p == c ==> s.cursor.consumed + [s.log[p]] == s.log[..c + 1];
    hide IsRunSeq, Cursor.Offered, IsLog;
  }

  /**
   What exactly-once delivery rests on: the consumed events are a prefix of the log, no subscription is
   ahead of them, and the fence stands at the last of them unless a reset has just closed everything.
   */
  ghost predicate InStep(s: State) {
    && IsLog(s.log) && IsRunSeq(s.cursor.lastSeq) && s.cursor.consumed <= s.log && NoneAhead(s)
    && (s.cursor.lastSeq == Expected(s.cursor.consumed) || (s.cursor.consumed == [] && s.subs == map[]))
  }

  predicate Aligned(s: State, a: Action) {
    a.Start? ==> a.seqId == Expected(s.cursor.consumed)
  }

  lemma {:induction false} StartKeepsStep(s: State, sub: SubId, seqId: string)
    requires Enabled(s, Start(sub, seqId)) && InStep(s) && seqId == Expected(s.cursor.consumed)
    ensures InStep(After(s, Start(sub, seqId)))
  {
    StartsWhereConsumedIff(s.log, s.cursor.consumed, seqId);
    hide IsRunSeq, IsLog, StartAfter, Known, Expected;
  }

  lemma {:induction false} ActionKeepsStep(s: State, a: Action)
    requires Enabled(s, a) && InStep(s) && Aligned(s, a)
    ensures InStep(After(s, a))
  {
    hide IsRunSeq, Cursor.Offered, IsLog, StartAfter, Known, IdAt;
    if a.Start? {
      StartKeepsStep(s, a.sub, a.seqId);
    } else if a.Deliver? {
      DeliverKeepsPrefix(s, a.sub);
    }
  }

  ghost predicate IsRun(states: seq<State>, actions: seq<Action>) {
    && |states| == |actions| + 1
    && forall k {:trigger actions[k]} :: 0 <= k < |actions| ==>
         Enabled(states[k], actions[k]) && states[k + 1] == After(states[k], actions[k])
  }

  /** What has been appended, in order. */
  function Appended(actions: seq<Action>, k: nat): seq<Event>
    requires k <= |actions|
  {
    if k == 0 then [] else Appended(actions, k - 1) + if actions[k - 1].Append? then [actions[k - 1].e] else []
  }

  /** In every run the log is what it was, followed by all that has been appended. */
  lemma {:induction false} LogIsAppended(states: seq<State>, actions: seq<Action>, k: nat)
    requires IsRun(states, actions) && k < |states|
    ensures states[k].log == states[0].log + Appended(actions, k)
  {
    if k > 0 {
      hide Enabled, After;
      LogIsAppended(states, actions, k - 1);
      assert Enabled(states[k - 1], actions[k - 1]) && states[k] == After(states[k - 1], actions[k - 1]);
      LogAfter(states[k - 1], actions[k - 1]);
      var more := if actions[k - 1].Append? then [actions[k - 1].e] else [];
      assert states[0].log + Appended(actions, k - 1) + more == states[0].log + (Appended(actions, k - 1) + more);
      assert Appended(actions, k) == Appended(actions, k - 1) + more;
    }
  }

  lemma {:induction false} LogAfter(s: State, a: Action)
    requires Enabled(s, a)
    ensures After(s, a).log == s.log + if a.Append? then [a.e] else []
  {
    hide IsLog, IsRunSeq, Known, StartAfter, Cursor.Offered;
  }

  /** In every run a subscription is open exactly from its start until it is dropped or the page is reset; it can be dropped at any time. */
  lemma {:induction false} OpenIff(states: seq<State>, actions: seq<Action>, k: nat, sub: SubId)
    requires IsRun(states, actions) && k < |states| && states[0].subs == map[]
    ensures sub in states[k].subs <==> OpenSince(actions, k, sub)
    ensures k < |actions| && sub in states[k].subs ==> Enabled(states[k], Drop(sub))
  {
    hide OpenSince, Enabled, After;
    if k == 0 {
      NothingOpen(actions, sub);
    } else {
      OpenIff(states, actions, k - 1, sub);
      assert Enabled(states[k - 1], actions[k - 1]) && states[k] == After(states[k - 1], actions[k - 1]);
      OpenAfter(states[k - 1], actions[k - 1], sub);
      OpenOneMore(actions, k - 1, sub);
    }
    if k < |actions| {
      assert Enabled(states[k], actions[k]);
      if sub in states[k].subs {
        OpenCanBeDropped(states[k], actions[k], sub);
      }
    }
  }

  lemma {:induction false} OpenCanBeDropped(s: State, a: Action, sub: SubId)
    requires Enabled(s, a) && sub in s.subs
    ensures Enabled(s, Drop(sub))
  {
  }

  lemma {:induction false} OpenAfter(s: State, a: Action, sub: SubId)
    requires Enabled(s, a)
    ensures sub in After(s, a).subs <==>
              (a.Start? && a.sub == sub) || (sub in s.subs && a != Drop(sub) && a != Reset)
  {
    hide IsLog, IsRunSeq, Known, StartAfter, Cursor.Offered;
  }

  lemma {:induction false} NothingOpen(actions: seq<Action>, sub: SubId)
    ensures !OpenSince(actions, 0, sub)
  {
  }

  /** Every start of the run is given the id of the last event consumed at that moment. */
  ghost predicate AllAligned(states: seq<State>, actions: seq<Action>)
    requires |actions| <= |states|
  {
    forall k :: 0 <= k < |actions| ==> Aligned(states[k], actions[k])
  }

  /**
   For any drops, resets, reconnections, resumes and overlapping subscriptions, aligned starts keep the
   events consumed since the last reset a prefix of the log: each one once, and in order.
   */
  lemma {:induction false} ConsumedExactlyOnce(states: seq<State>, actions: seq<Action>, k: nat)
    requires IsRun(states, actions) && k < |states| && AllAligned(states, actions) && InStep(states[0])
    ensures InStep(states[k]) && states[k].cursor.consumed <= states[k].log
  {
    if k > 0 {
      ConsumedExactlyOnce(states, actions, k - 1);
      assert Enabled(states[k - 1], actions[k - 1]) && Aligned(states[k - 1], actions[k - 1]);
      ActionKeepsStep(states[k - 1], actions[k - 1]);
    }
  }

  // ---- A start that is not aligned -------------------------------------------------------------------

  lemma {:induction false} DashAtAppend(s: string, t: string)
    requires DashAt(s) < |s|
    ensures DashAt(s + t) == DashAt(s)
  {
    if s[0] != '-' {
      DashAtAppend(s[1..], t);
      assert (s + t)[1..] == s[1..] + t;
    }
  }

  lemma {:induction false} OneDigitMore(s: string)
    requires IsDigits(s)
    ensures IsDigits(s + "1") && Value(s + "1") == 10 * Value(s) + 1
  {
    assert (s + "1")[..|s|] == s;
  }

  lemma {:induction false} NothingToTrim(s: string)
    requires s != "" && !IsBlank(s[0]) && !IsBlank(s[|s| - 1])
    ensures Trim(s) == s
  {
    assert TrimStart(s) == s && TrimEnd(s) == s;
  }

  lemma {:induction false} LongerIsRunSeq(s: string)
    requires IsRunSeq(s)
    ensures IsRunSeq(s + "1") && DashAt(s + "1") == DashAt(s) < |s|
    ensures (s + "1")[..DashAt(s)] == s[..DashAt(s)] && (s + "1")[DashAt(s) + 1..] == s[DashAt(s) + 1..] + "1"
    ensures IsDigits(s[DashAt(s) + 1..])
  {
    var t, i := s + "1", DashAt(s);
    DashAtAppend(s, "1");
    assert t[..i] == s[..i] && t[i + 1..] == s[i + 1..] + "1";
    OneDigitMore(s[i + 1..]);
    hide IsDigits, Value;
  }

  /** One digit more makes a later id. */
  lemma {:induction false} LongerIsLater(s: string)
    requires IsRunSeq(s)
    ensures IsRunSeq(s + "1") && Later(s + "1", s)
  {
    LongerIsRunSeq(s);
    OneDigitMore(s[DashAt(s) + 1..]);
    hide IsDigits, Value, DashAt, IsRunSeq;
    assert Major(s + "1") == Major(s) && Minor(s + "1") == 10 * Minor(s) + 1;
  }

  /** Normalising leaves a well-formed id as it is. */
  lemma {:induction false} NormalizedStays(s: string)
    requires IsRunSeq(s)
    ensures NormalizeRunSeq(Some(s)) == s
  {
    var i := DashAt(s);
    assert IsDigits(s[..i]) && s[0] == s[..i][0];
    assert IsDigits(s[i + 1..]) && s[|s| - 1] == s[i + 1..][|s| - i - 2];
    hide DashAt;
    NothingToTrim(s);
  }

  lemma {:induction false} RunSeqIsTrimmed(s: string)
    requires IsRunSeq(s)
    ensures Trim(s + "1") == s + "1"
  {
    assert IsDigits(s[..DashAt(s)]) && (s + "1")[0] == s[..DashAt(s)][0];
    hide DashAt;
    NothingToTrim(s + "1");
  }

  /** The moment after the last event of the log. */
  function NextId(log: seq<Event>): string {
    IdAt(log, |log|) + "1"
  }

  lemma {:induction false} NextIdIsLogged(log: seq<Event>)
    requires IsLog(log)
    ensures IsRunSeq(IdAt(log, |log|)) && IsRunSeq(NextId(log)) && Later(NextId(log), IdAt(log, |log|))
    ensures IsLogged(Event("message", "", Some(NextId(log))))
  {
    KnownIsRunSeq(log, |log|);
    LongerIsLater(IdAt(log, |log|));
    RunSeqIsTrimmed(IdAt(log, |log|));
    OriginIsRunSeq();
    hide IsRunSeq, Trim, IdAt, IsLog;
  }

  lemma {:induction false} LaterThanAll(log: seq<Event>, i: nat, id: string)
    requires IsLog(log) && i < |log| && IsRunSeq(id) && IsRunSeq(IdAt(log, |log|)) && Later(id, IdAt(log, |log|))
    ensures IsLogged(log[i]) && Later(id, log[i].id.value)
  {
    assert IsLogged(log[i]) && IsLogged(log[|log| - 1]);
    RunSeqOrder(id, log[|log| - 1].id.value, log[i].id.value);
  }

  lemma {:induction false} LogGrows(log: seq<Event>, e: Event)
    requires IsLog(log) && IsLogged(e) && IsRunSeq(IdAt(log, |log|)) && Later(e.id.value, IdAt(log, |log|))
    ensures IsLog(log + [e])
  {
    hide IsRunSeq, CompareRunSeq, IdAt;
    forall i | 0 <= i < |log| ensures IsLogged(log[i]) && Later(e.id.value, log[i].id.value) {
      LaterThanAll(log, i, e.id.value);
    }
  }

  lemma {:induction false} SomeEventFollows(log: seq<Event>) returns (e: Event)
    requires IsLog(log)
    ensures IsLog(log + [e])
  {
    e := Event("message", "", Some(NextId(log)));
    hide *;
    NextIdIsLogged(log);
    LogGrows(log, e);
  }

  /**
   The step that decides: of a run that kept to the log so far, the first event that a newly started
   subscription delivers keeps to it if and only if the start was given the id of the last event consumed.
   */
  lemma {:induction false} StartKeepsOnceIff(s: State, sub: SubId, seqId: string, e: Event)
    requires InStep(s) && Enabled(s, Start(sub, seqId)) && IsLog(s.log + [e])
    ensures
      var started := After(s, Start(sub, seqId));
      && Enabled(started, Append(e))
      && Enabled(After(started, Append(e)), Deliver(sub))
      && var delivered := After(After(started, Append(e)), Deliver(sub));
         delivered.cursor.consumed <= delivered.log <==> seqId == Expected(s.cursor.consumed)
  {
    hide IsLog, IsRunSeq, Cursor.Offered, StartAfter, Known, IdAt, CompareRunSeq;
    var started := After(s, Start(sub, seqId));
    var log, c, p := s.log + [e], |s.cursor.consumed|, started.subs[sub];
    StartsWhereConsumedIff(s.log, s.cursor.consumed, seqId);
    var n := KnownPosition(s.log, seqId);
    StartsAt(s.log, n);
    assert seqId == IdAt(log, n) by { IdStays(s.log, e, n); }
    KnownIds(log, p, n);
    KnownIds(log, p, c);
    FencePasses(started.cursor, log[p]);
    FirstDelivered(log, s.cursor.consumed, p);
  }

  lemma {:induction false} IdStays(log: seq<Event>, e: Event, n: nat)
    requires n <= |log|
    ensures IdAt(log + [e], n) == IdAt(log, n)
  {
  }

  lemma {:induction false} KnownPosition(log: seq<Event>, seqId: string) returns (n: nat)
    requires Known(log, seqId)
    ensures n <= |log| && seqId == IdAt(log, n)
  {
    n :| n <= |log| && seqId == IdAt(log, n);
  }

  lemma {:induction false} FencePasses(cursor: Cursor, e: Event)
    requires IsLogged(e) && IsRunSeq(cursor.lastSeq) && Later(e.id.value, cursor.lastSeq)
    ensures cursor.Offered(e).consumed == cursor.consumed + [e]
  {
  }

  lemma {:induction false} LoggedDiffer(log: seq<Event>, i: nat, j: nat)
    requires IsLog(log) && i < j < |log|
    ensures log[i] != log[j]
  {
    KnownIds(log, i, i + 1);
    KnownIds(log, j, i + 1);
  }

  lemma {:induction false} FirstDelivered(log: seq<Event>, consumed: seq<Event>, p: nat)
    requires IsLog(log) && consumed <= log && p < |log|
    ensures consumed + [log[p]] <= log <==> p == |consumed|
  {
    var c := |consumed|;
    hide IsLog;
    assert (consumed + [log[p]])[c] == log[p];
    if p < c < |log| {
      LoggedDiffer(log, p, c);
    } else if c < p {
      LoggedDiffer(log, c, p);
    }
  }

  /** Whatever follows, consumed events stay a prefix of the log as long as the starts that follow are aligned. */
  ghost predicate Safe(s: State) {
    forall states: seq<State>, actions: seq<Action> ::
      IsRun(states, actions) && states[0] == s && AllAligned(states, actions)
      ==> states[|actions|].cursor.consumed <= states[|actions|].log
  }

  lemma {:induction false} InStepIsSafe(s: State)
    requires InStep(s)
    ensures Safe(s)
  {
    forall states: seq<State>, actions: seq<Action> | IsRun(states, actions) && states[0] == s && AllAligned(states, actions)
      ensures states[|actions|].cursor.consumed <= states[|actions|].log
    {
      ConsumedExactlyOnce(states, actions, |actions|);
    }
  }

  lemma {:induction false} OneMoreStep(states: seq<State>, actions: seq<Action>, a: Action)
    requires IsRun(states, actions) && Enabled(states[|actions|], a)
    ensures IsRun(states + [After(states[|actions|], a)], actions + [a])
  {
    hide Enabled, After;
  }

  lemma {:induction false} TwoSteps(s: State, a: Action, b: Action)
    requires Enabled(s, a) && Enabled(After(s, a), b)
    ensures IsRun([s, After(s, a), After(After(s, a), b)], [a, b])
  {
    hide Enabled, After;
  }

  lemma {:induction false} MisalignedIsUnsafe(s: State, sub: SubId, seqId: string)
    requires InStep(s) && Enabled(s, Start(sub, seqId)) && seqId != Expected(s.cursor.consumed)
    ensures !Safe(After(s, Start(sub, seqId)))
  {
    var e := SomeEventFollows(s.log);
    StartKeepsOnceIff(s, sub, seqId, e);
    hide *;
    var s0 := After(s, Start(sub, seqId));
    TwoSteps(s0, Append(e), Deliver(sub));
    UnsafeAfterTwo(s0, Append(e), Deliver(sub));
  }

  lemma {:induction false} UnsafeAfterTwo(s: State, a: Action, b: Action)
    requires Enabled(s, a) && Enabled(After(s, a), b) && !a.Start? && !b.Start?
    requires !(After(After(s, a), b).cursor.consumed <= After(After(s, a), b).log)
    ensures !Safe(s)
  {
    TwoSteps(s, a, b);
    var states, actions := [s, After(s, a), After(After(s, a), b)], [a, b];
    assert AllAligned(states, actions);
    hide Enabled, After, IsRun, AllAligned;
    assert states[|actions|] == states[2];
  }

  lemma {:induction false} PrefixIsRun(states: seq<State>, actions: seq<Action>, n: nat)
    requires IsRun(states, actions) && n <= |actions|
    ensures IsRun(states[..n + 1], actions[..n])
  {
    hide Enabled, After;
  }

  /** Every state of a run that kept to the log stays safe exactly as long as its starts are aligned. */
  lemma {:induction false} ExactlyOnceIff(states: seq<State>, actions: seq<Action>)
    requires IsRun(states, actions) && InStep(states[0])
    ensures (forall k :: 0 <= k < |states| ==> Safe(states[k])) <==> AllAligned(states, actions)
  {
    if AllAligned(states, actions) {
      forall k | 0 <= k < |states| ensures Safe(states[k]) {
        ConsumedExactlyOnce(states, actions, k);
        InStepIsSafe(states[k]);
      }
    } else {
      var j := FirstMisaligned(states, actions);
      PrefixIsRun(states, actions, j);
      ConsumedExactlyOnce(states[..j + 1], actions[..j], j);
      assert Enabled(states[j], actions[j]);
      MisalignedIsUnsafe(states[j], actions[j].sub, actions[j].seqId);
      assert states[j + 1] == After(states[j], actions[j]);
    }
  }

  lemma {:induction false} FirstMisaligned(states: seq<State>, actions: seq<Action>) returns (j: nat)
    requires |states| == |actions| + 1 && !AllAligned(states, actions)
    ensures j < |actions| && !Aligned(states[j], actions[j])
    ensures AllAligned(states[..j + 1], actions[..j])
    decreases |actions|
  {
    var n := |actions| - 1;
    if AllAligned(states[..n + 1], actions[..n]) {
      j := n;
      assert forall k :: 0 <= k < n ==> Aligned(states[..n + 1][k], actions[..n][k]);
    } else {
      j := FirstMisaligned(states[..n + 1], actions[..n]);
      assert states[..n + 1][..j + 1] == states[..j + 1] && actions[..n][..j] == actions[..j];
    }
  }

  lemma {:induction false} StartAtKnown(s: State, sub: SubId, n: nat)
    requires IsLog(s.log) && IsRunSeq(s.cursor.lastSeq) && n <= |s.log| && sub !in s.subs
    ensures Enabled(s, Start(sub, IdAt(s.log, n)))
    ensures After(s, Start(sub, IdAt(s.log, n))) ==
      s.(cursor := s.cursor.(lastSeq := IdAt(s.log, n)), subs := s.subs[sub := n])
  {
    StartsAt(s.log, n);
    assert Known(s.log, IdAt(s.log, n));
    hide IsLog, StartAfter, IdAt, IsRunSeq;
  }

  lemma {:induction false} DeliverPastFence(s: State, sub: SubId, n: nat)
    requires IsLog(s.log) && sub in s.subs && s.subs[sub] == n < |s.log| && s.cursor.lastSeq == IdAt(s.log, n)
    ensures Enabled(s, Deliver(sub))
    ensures
      var s' := After(s, Deliver(sub));
      && s'.log == s.log && s'.subs == s.subs[sub := n + 1] && IsRunSeq(s'.cursor.lastSeq)
      && s'.cursor.consumed == s.cursor.consumed + [s.log[n]]
  {
    KnownIds(s.log, n, n);
    FencePasses(s.cursor, s.log[n]);
    hide IsLog, IdAt, CompareRunSeq;
  }

  /** A start at the n-th event and its first delivery. */
  lemma {:induction false} StartAndDeliver(s: State, sub: SubId, n: nat) returns (s': State)
    requires IsLog(s.log) && IsRunSeq(s.cursor.lastSeq) && n < |s.log| && sub !in s.subs
    ensures Enabled(s, Start(sub, IdAt(s.log, n))) && Enabled(After(s, Start(sub, IdAt(s.log, n))), Deliver(sub))
    ensures s' == After(After(s, Start(sub, IdAt(s.log, n))), Deliver(sub))
    ensures s'.log == s.log && s'.subs.Keys == s.subs.Keys + {sub} && IsRunSeq(s'.cursor.lastSeq)
    ensures s'.cursor.consumed == s.cursor.consumed + [s.log[n]]
  {
    hide *;
    StartAtKnown(s, sub, n);
    var m := After(s, Start(sub, IdAt(s.log, n)));
    DeliverPastFence(m, sub, n);
    s' := After(m, Deliver(sub));
  }

  lemma {:induction false} FourSteps(s: State, a: Action, b: Action, c: Action, d: Action)
    returns (states: seq<State>, actions: seq<Action>)
    requires Enabled(s, a) && Enabled(After(s, a), b)
    requires var m := After(After(s, a), b); Enabled(m, c) && Enabled(After(m, c), d)
    ensures actions == [a, b, c, d] && IsRun(states, actions) && states[0] == s
    ensures states[4] == After(After(After(After(s, a), b), c), d)
  {
    hide *;
    TwoSteps(s, a, b);
    var s2 := After(After(s, a), b);
    var first := [s, After(s, a), s2];
    OneMoreStep(first, [a, b], c);
    var third := first + [After(s2, c)];
    OneMoreStep(third, [a, b] + [c], d);
    states, actions := third + [After(After(s2, c), d)], [a, b] + [c] + [d];
  }

  lemma {:induction false} StandsAt(s: State)
    requires InStep(s) && AtPrefix(s.log, s.cursor)
    ensures IsLog(s.log) && IsRunSeq(s.cursor.lastSeq) && s.cursor.consumed <= s.log
    ensures |s.cursor.consumed| <= |s.log| && s.cursor.lastSeq == IdAt(s.log, |s.cursor.consumed|)
  {
    hide IsLog, IsRunSeq, NoneAhead;
  }

  lemma {:induction false} NothingOpenAfterReset(s: State)
    requires InStep(s)
    ensures Enabled(s, Reset)
    ensures var m := After(s, Reset); m.log == s.log && m.cursor == s.cursor.(consumed := []) && m.subs == map[]
  {
    hide IsLog, IsRunSeq, NoneAhead;
  }

  /**
   A resume reads its id, waits for an answer, and starts there although a reconnection has consumed an
   event in the meantime: the event is consumed again.
   */
  lemma {:induction false} StaleResumeRepeats(s: State, a: SubId, b: SubId)
    returns (states: seq<State>, actions: seq<Action>)
    requires InStep(s) && AtPrefix(s.log, s.cursor) && |s.cursor.consumed| < |s.log|
    requires a != b && a !in s.subs && b !in s.subs
    ensures actions == [Start(a, s.cursor.lastSeq), Deliver(a), Start(b, s.cursor.lastSeq), Deliver(b)]
    ensures IsRun(states, actions) && states[0] == s
    ensures
      var next := s.log[|s.cursor.consumed|];
      states[4].cursor.consumed == s.cursor.consumed + [next, next] && !(states[4].cursor.consumed <= s.log)
  {
    hide *;
    StandsAt(s);
    var c, id := |s.cursor.consumed|, s.cursor.lastSeq;
    RepeatIsNoPrefix(s.log, s.cursor.consumed);
    var s2 := StartAndDeliver(s, a, c);
    var s4 := StartAndDeliver(s2, b, c);
    states, actions := FourSteps(s, Start(a, id), Deliver(a), Start(b, id), Deliver(b));
    assert s.cursor.consumed + [s.log[c]] + [s.log[c]] == s.cursor.consumed + [s.log[c], s.log[c]];
  }

  lemma {:induction false} RepeatIsNoPrefix(log: seq<Event>, consumed: seq<Event>)
    requires IsLog(log) && consumed <= log && |consumed| < |log|
    ensures !(consumed + [log[|consumed|], log[|consumed|]] <= log)
  {
    var c := |consumed|;
    var twice := consumed + [log[c], log[c]];
    if c + 1 < |log| {
      LoggedDiffer(log, c, c + 1);
      assert twice[c + 1] == log[c];
    }
    hide IsLog;
  }

  /** A reconnection between a reset and the start that belongs to it leaves out what was consumed before. */
  lemma {:induction false} ReconnectionAfterResetSkips(s: State, sub: SubId) returns (states: seq<State>, actions: seq<Action>)
    requires InStep(s) && AtPrefix(s.log, s.cursor) && 0 < |s.cursor.consumed| < |s.log|
    ensures actions == [Reset, Start(sub, s.cursor.lastSeq), Deliver(sub)]
    ensures IsRun(states, actions) && states[0] == s
    ensures
      var next := s.log[|s.cursor.consumed|];
      states[3].cursor.consumed == [next] && !(states[3].cursor.consumed <= s.log)
  {
    hide *;
    StandsAt(s);
    NothingOpenAfterReset(s);
    var c, id := |s.cursor.consumed|, s.cursor.lastSeq;
    FirstDelivered(s.log, [], c);
    var s1 := After(s, Reset);
    var s3 := StartAndDeliver(s1, sub, c);
    TwoSteps(s, Reset, Start(sub, id));
    var s2 := After(s1, Start(sub, id));
    OneMoreStep([s, s1, s2], [Reset, Start(sub, id)], Deliver(sub));
    states, actions := [s, s1, s2] + [s3], [Reset, Start(sub, id)] + [Deliver(sub)];
    assert [] + [s.log[c]] == [s.log[c]];
  }

  // ---- One subscription ------------------------------------------------------------------------------

  /** A subscription that stays open long enough brings the whole log, whatever came before. */
  lemma {:induction false} OneSubscriptionCatchesUp(s: State, sub: SubId) returns (actions: seq<Action>, states: seq<State>)
    requires IsLog(s.log) && IsRunSeq(s.cursor.lastSeq) && AtPrefix(s.log, s.cursor) && NoneAhead(s) && sub in s.subs
    ensures IsRun(states, actions) && states[0] == s
    ensures states[|actions|].log == s.log && states[|actions|].cursor.consumed == s.log
    decreases |s.log| - s.subs[sub]
  {
    if s.subs[sub] == |s.log| {
      actions, states := [], [s];
    } else {
      DeliverKeepsPrefix(s, sub);
      var next := After(s, Deliver(sub));
      var rest, later := OneSubscriptionCatchesUp(next, sub);
      actions, states := [Deliver(sub)] + rest, [s] + later;
      forall k | 0 <= k < |actions|
        ensures Enabled(states[k], actions[k]) && states[k + 1] == After(states[k], actions[k])
      {
        if k > 0 { assert actions[k] == rest[k - 1]; }
      }
    }
  }

  /**
   What the fence cannot mend: a delivery keeps the consumed events a prefix of the log if and only if
   the subscription is not ahead of the cursor, as one left open over a reset would be.
   */
  lemma {:induction false} DeliveryKeepsPrefixIff(s: State, sub: SubId)
    requires Enabled(s, Deliver(sub)) && AtPrefix(s.log, s.cursor)
    ensures After(s, Deliver(sub)).cursor.consumed <= s.log <==> s.subs[sub] <= |s.cursor.consumed|
  {
    var p, c := s.subs[sub], |s.cursor.consumed|;
    OfferLogged(s.log, s.cursor, p);
    if p > c {
      assert (s.cursor.consumed + [s.log[p]])[c] == s.log[p];
      RunSeqOrder(s.log[p].id.value, s.log[c].id.value, s.log[c].id.value);
    }
  }

  /**
   An event torn from its id passes the fence, and the event itself follows on the next subscription:
   it is consumed twice.
   */
  lemma {:induction false} TornEventIsConsumedTwice(s: State)
    requires IsLog(s.log) && IsRunSeq(s.cursor.lastSeq) && AtPrefix(s.log, s.cursor) && |s.cursor.consumed| < |s.log|
    ensures
      var next := s.log[|s.cursor.consumed|];
      var torn := s.cursor.Offered(next.(id := None));
      && torn.consumed == s.cursor.consumed + [next.(id := None)]
      && !(torn.consumed <= s.log)
      && StartAfter(s.log, torn.lastSeq) == |s.cursor.consumed|
      && torn.Offered(next).consumed == s.cursor.consumed + [next.(id := None), next]
  {
    hide IsRunSeq, CompareRunSeq, StartAfter, Cursor.Offered, IsLog, AtPrefix, IdAt;
    var c := |s.cursor.consumed|;
    var next := s.log[c];
    var torn := s.cursor.Offered(next.(id := None));
    NoIdPasses(s.cursor, next.(id := None));
    StandingAt(s.log, s.cursor);
    StartsAt(s.log, c);
    KnownIds(s.log, c, c);
    FencePasses(torn, next);
    assert torn.consumed[c].id == None;
  }

  lemma {:induction false} NoIdPasses(cursor: Cursor, e: Event)
    requires IsRunSeq(cursor.lastSeq) && e.id == None
    ensures cursor.Offered(e) == cursor.(consumed := cursor.consumed + [e])
  {
    hide IsRunSeq;
  }

  lemma {:induction false} StandingAt(log: seq<Event>, cursor: Cursor)
    requires AtPrefix(log, cursor)
    ensures cursor.consumed <= log && cursor.lastSeq == IdAt(log, |cursor.consumed|)
  {
  }
}
