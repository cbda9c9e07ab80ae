/**
 The run a conversation thread is following: which run is active, which subscription feeds it, the
 live conversation it has produced, and the delayed callbacks that settle a finished run.

 A settlement may be found out by an end or error event, by the idle watchdog, by the check made when
 a stream closes or by a resume, and each of them waits for the network in between.  So a settlement
 aimed at any run may arrive in any state; and so may a start, with whatever id it was given before.
 */
module Settlement {
  import opened Counting
  import opened Wrappers
  import RunDelivery

  type RunId = nat

  type SubscriptionId = nat

  type CallbackId = nat

  /** What an event id stands for: leading zeros and malformed ids make different texts the same moment. */
  datatype Moment = Moment(major: nat, minor: nat)
  {
    predicate IsAfter(other: Moment) {
      major > other.major || (major == other.major && minor > other.minor)
    }
  }

  const ORIGIN := Moment(0, 0)

  /** A part of the live conversation: an event of a run that was handled, or a message the user sent. */
  datatype Chunk = Chunk(run: RunId, at: Option<Moment>, text: string) | Sent(text: string)

  /** What the page holds of an interruption: a user's stop, or a question with a payload. */
  datatype Interrupt = Interrupt(cancelled: bool, hasPayload: bool, run: Option<RunId>)
  {
    predicate Concerns(r: RunId) {
      (cancelled || hasPayload) && (run.None? || run == Some(r))
    }
  }

  datatype Action =
    // Subscribing: at a given id, from scratch, or where the last subscription stopped.
    | Start(run: RunId, after: Moment)
    | Restart(run: RunId)
    | Reconnect(run: RunId)
    | Receive(run: RunId, at: Option<Moment>, text: string)
    | StreamDone(subscription: SubscriptionId)
    | Stop
    // The user sends a message, whose run is accepted later, or answers a question.
    | Send(text: string)
    | Accept(run: RunId, text: string)
    | Withdraw(text: string)
    | Answer
    | NoteInterrupt(interrupt: Option<Interrupt>)
    | Unstream
    | Reset
    // Ending and interrupting.
    | EndUnsettled(run: RunId)
    | Settle(run: RunId, interrupted: bool)
    | SettleIdle(expected: Option<RunId>)
    | StopAndSettle(run: RunId)
    | Preserve(run: RunId, snapshot: Option<Moment>)
    | StopAndPreserve(run: RunId, snapshot: Option<Moment>)
    | Callback(id: CallbackId)

  /** What is left without a sent message. */
  function Unsent(live: seq<Chunk>, text: string): seq<Chunk> {
    if live == [] then [] else (if live[0] == Sent(text) then [] else [live[0]]) + Unsent(live[1..], text)
  }

  /**
   `settling` holds the callbacks whose history refresh has not come back, each with the run it was
   made for; `aborted` and `done` the subscriptions that will deliver nothing more.
   */
  datatype Thread = Thread(
    active: Option<RunId>,
    streaming: bool,
    subscription: Option<SubscriptionId>,
    lastSeq: Moment,
    interrupt: Option<Interrupt>,
    live: seq<Chunk>,
    settling: map<CallbackId, Option<RunId>>,
    aborted: set<SubscriptionId>,
    done: set<SubscriptionId>,
    nextSubscription: SubscriptionId,
    nextCallback: CallbackId)
  {
    predicate InterruptedFor(r: RunId) {
      interrupt.Some? && interrupt.value.Concerns(r)
    }

    function Stopped(): Thread {
      this.(subscription := None,
            aborted := if subscription.Some? then aborted + {subscription.value} else aborted)
    }

    function Cleared(): Thread {
      Stopped().(live := [])
    }

    function Started(r: RunId, after: Moment): Thread {
      Stopped().(active := Some(r), streaming := true, subscription := Some(nextSubscription),
                 lastSeq := after, nextSubscription := nextSubscription + 1)
    }

    function Awaiting(r: Option<RunId>): Thread {
      this.(settling := settling[nextCallback := r], nextCallback := nextCallback + 1)
    }

    /** `run` is None when the server knows of no active run; `expected` is then what was active before asking. */
    function Settled(run: Option<RunId>, expected: Option<RunId>, interrupted: bool): Thread {
      if active != expected then this
      else if interrupted && run.Some? && InterruptedFor(run.value) then
        this.(streaming := false, active := run).Awaiting(run)
      else
        var kept := if run.None? || InterruptedFor(run.value) then None else interrupt;
        this.(streaming := false, active := None, interrupt := kept,
              lastSeq := if run.None? then ORIGIN else lastSeq).Awaiting(run)
    }

    function Preserved(r: RunId, snapshot: Option<Moment>): Thread {
      this.(active := Some(r), streaming := false, lastSeq := snapshot.GetOr(lastSeq))
    }

    /** The history of the settled run has been fetched, or could not be. */
    function CalledBack(id: CallbackId): Thread
      requires id in settling
    {
      var fired := this.(settling := settling - {id});
      if active.None? || active == settling[id] then fired.Cleared() else fired
    }

    /** Handled is what comes from the active run and is later than everything handled before, or has no id. */
    predicate Passes(r: RunId, at: Option<Moment>) {
      active == Some(r) && (at.Some? ==> at.value.IsAfter(lastSeq))
    }

    function Received(r: RunId, at: Option<Moment>, text: string): Thread {
      if Passes(r, at) then this.(live := live + [Chunk(r, at, text)], lastSeq := at.GetOr(lastSeq)) else this
    }

    function StreamReturned(c: SubscriptionId): Thread {
      this.(subscription := if subscription == Some(c) then None else subscription,
            done := done + {c},
            streaming := active.Some? && streaming)
    }

    /** A message sent beside a streaming run waits in the queue; otherwise it opens a new live conversation. */
    function MessageSent(text: string): Thread {
      var asked := this.(interrupt := None);
      if active.Some? && streaming then asked else asked.Cleared().(live := [Sent(text)], streaming := true)
    }

    /** The request has its run: the sent message is put in its place again, and the run is started from the origin. */
    function Accepted(r: RunId, text: string): Thread {
      this.(live := if Sent(text) in live then live else live + [Sent(text)]).Started(r, ORIGIN)
    }

    predicate Enabled(a: Action) {
      match a
      case Callback(id) => id in settling
      case StreamDone(c) => c < nextSubscription
      case _ => true
    }

    function After(a: Action): Thread
      requires Enabled(a)
    {
      match a
      case Start(r, after) => Started(r, after)
      case Restart(r) => Cleared().Started(r, ORIGIN)
      case Reconnect(r) => if active == Some(r) && subscription.None? then Started(r, lastSeq) else this
      case Receive(r, at, text) => Received(r, at, text)
      case StreamDone(c) => StreamReturned(c)
      case Stop => Stopped()
      case Send(text) => MessageSent(text)
      case Accept(r, text) => Accepted(r, text)
      case Withdraw(text) => this.(live := Unsent(live, text))
      case Answer => this.(interrupt := None, streaming := true).Cleared()
      case NoteInterrupt(i) => this.(interrupt := i)
      case Unstream => this.(streaming := false)
      case Reset => Cleared()
      case EndUnsettled(r) => if active == Some(r) then this.(streaming := false) else this
      case Settle(r, interrupted) => Settled(Some(r), Some(r), interrupted)
      case SettleIdle(expected) => Settled(None, expected, false)
      case StopAndSettle(r) => Stopped().Settled(Some(r), Some(r), false)
      case Preserve(r, snapshot) => Preserved(r, snapshot)
      case StopAndPreserve(r, snapshot) => Stopped().Preserved(r, snapshot)
      case Callback(id) => CalledBack(id)
    }
  }

  const IDLE := Thread(None, false, None, ORIGIN, None, [], map[], {}, {}, 0, 0)

  ghost predicate Follows(s: Thread, a: Action, s': Thread) {
    s.Enabled(a) && s' == s.After(a)
  }

  ghost predicate IsRun(states: seq<Thread>, actions: seq<Action>) {
    && |states| == |actions| + 1
    && states[0] == IDLE
    && forall k {:trigger actions[k]} :: 0 <= k < |actions| ==> Follows(states[k], actions[k], states[k + 1])
  }

  // ---- A settlement takes effect only on its own run ------------------------------------------------

  /** Some settlement this action carries would end run r. */
  predicate Ends(s: Thread, a: Action, r: RunId) {
    match a
    case Settle(aimed, interrupted) => aimed == r && !(interrupted && s.InterruptedFor(r))
    case StopAndSettle(aimed) => aimed == r
    case SettleIdle(expected) => expected == Some(r)
    case _ => false
  }

  predicate Interrupts(s: Thread, a: Action, r: RunId) {
    a.Settle? && a.run == r && a.interrupted && s.InterruptedFor(r)
  }

  predicate TakesOver(s: Thread, s': Thread, r: RunId) {
    s.active == Some(r) && s'.active.Some? && s'.active != Some(r)
  }

  function Count(condition: bool): nat {
    if condition then 1 else 0
  }

  /** How often run r has become active. */
  function Activations(states: seq<Thread>, k: nat, r: RunId): nat
    requires k < |states|
  {
    if k == 0 then 0
    else Activations(states, k - 1, r) + Count(states[k - 1].active != Some(r) && states[k].active == Some(r))
  }

  /** How often a settlement has ended run r. */
  function Endings(states: seq<Thread>, actions: seq<Action>, k: nat, r: RunId): nat
    requires k <= |actions| && k < |states|
  {
    if k == 0 then 0
    else
      Endings(states, actions, k - 1, r)
      + Count(states[k - 1].active == Some(r) && Ends(states[k - 1], actions[k - 1], r))
  }

  function Takeovers(states: seq<Thread>, k: nat, r: RunId): nat
    requires k < |states|
  {
    if k == 0 then 0 else Takeovers(states, k - 1, r) + Count(TakesOver(states[k - 1], states[k], r))
  }

  /** How often a settlement has left run r active, waiting for the user. */
  function Interruptions(states: seq<Thread>, actions: seq<Action>, k: nat, r: RunId): nat
    requires k <= |actions| && k < |states|
  {
    if k == 0 then 0
    else
      Interruptions(states, actions, k - 1, r)
      + Count(states[k - 1].active == Some(r) && Interrupts(states[k - 1], actions[k - 1], r))
  }

  /** An active run stops being active exactly when a settlement of it arrives or another run takes over. */
  lemma {:induction false} ActiveRunIsReleased(s: Thread, a: Action, r: RunId)
    requires s.Enabled(a) && s.active == Some(r)
    ensures s.After(a).active == Some(r) <==> !Ends(s, a, r) && !TakesOver(s, s.After(a), r)
    ensures Ends(s, a, r) ==> s.After(a).active == None && !s.After(a).InterruptedFor(r)
  {
    hide Unsent;
  }

  /**
   Over every run of the thread, each activation of r is ended by one settlement at most: it is
   settled, or taken over by another run, or still active.
   */
  lemma {:induction false} OneSettlementPerActivation(states: seq<Thread>, actions: seq<Action>, k: nat, r: RunId)
    requires IsRun(states, actions) && k < |states|
    ensures Activations(states, k, r)
         == Endings(states, actions, k, r) + Takeovers(states, k, r) + Count(states[k].active == Some(r))
  {
    if k > 0 {
      OneSettlementPerActivation(states, actions, k - 1, r);
      assert Follows(states[k - 1], actions[k - 1], states[k]);
      if states[k - 1].active == Some(r) {
        ActiveRunIsReleased(states[k - 1], actions[k - 1], r);
      }
    }
  }

  // ---- Streaming without a run -----------------------------------------------------------------------

  /** The page starts to stream for a message or an answer whose run it does not know yet. */
  predicate Announces(s: Thread, a: Action) {
    s.active.None? && (a.Send? || a.Answer?)
  }

  /** A run becomes active, or the page stops streaming. */
  predicate Concludes(a: Action) {
    || a.Start? || a.Restart? || a.Accept? || a.Preserve? || a.StopAndPreserve?
    || a.Unstream? || a.StreamDone? || (a.SettleIdle? && a.expected.None?)
  }

  lemma {:induction false} StreamingStep(s: Thread, a: Action)
    requires s.Enabled(a)
    ensures s.After(a).streaming && s.After(a).active.None?
       <==> Announces(s, a) || (s.streaming && s.active.None? && !Concludes(a))
  {
    hide Unsent;
  }

  /** There was an announcement, and nothing has concluded it. */
  ghost predicate Announced(states: seq<Thread>, actions: seq<Action>, k: nat)
    requires k <= |actions| && k < |states|
  {
    exists j :: 0 <= j < k && Announces(states[j], actions[j]) && forall i :: j < i < k ==> !Concludes(actions[i])
  }

  lemma {:induction false} AnnouncedStep(states: seq<Thread>, actions: seq<Action>, n: nat)
    requires n < |actions| && n + 1 < |states|
    ensures Announced(states, actions, n + 1)
       <==> Announces(states[n], actions[n]) || (Announced(states, actions, n) && !Concludes(actions[n]))
  {
    hide Announces, Concludes;
    if Announced(states, actions, n) && !Concludes(actions[n]) {
      var j :| 0 <= j < n && Announces(states[j], actions[j]) && forall i :: j < i < n ==> !Concludes(actions[i]);
      assert forall i :: j < i < n + 1 ==> !Concludes(actions[i]);
    }
  }

  /** A thread streams without an active run exactly between an announcement and what concludes it. */
  lemma {:induction false} StreamsWithoutRunIff(states: seq<Thread>, actions: seq<Action>, k: nat)
    requires IsRun(states, actions) && k < |states|
    ensures states[k].streaming && states[k].active.None? <==> Announced(states, actions, k)
  {
    if k > 0 {
      StreamsWithoutRunIff(states, actions, k - 1);
      assert Follows(states[k - 1], actions[k - 1], states[k]);
      StreamingStep(states[k - 1], actions[k - 1]);
      AnnouncedStep(states, actions, k - 1);
      hide Announced, Announces, Concludes, IsRun, Unsent;
    }
  }

  // ---- Streaming --------------------------------------------------------------------------------------

  /** A start, a reconnection that finds nothing subscribed, an answer, or a message that opens a conversation. */
  predicate BeginsToStream(s: Thread, a: Action) {
    || a.Start? || a.Restart? || a.Accept? || a.Answer? || a.Send?
    || (a.Reconnect? && s.active == Some(a.run) && s.subscription.None?)
  }

  /** A settlement that takes effect, a preserve, an unsettled end of the active run, or another stop. */
  predicate StopsStreaming(s: Thread, a: Action) {
    || ((a.Settle? || a.StopAndSettle? || a.EndUnsettled?) && s.active == Some(a.run))
    || (a.SettleIdle? && s.active == a.expected)
    || a.Preserve? || a.StopAndPreserve? || a.Unstream?
    || (a.StreamDone? && s.active.None?)
  }

  lemma {:induction false} StreamsAfter(s: Thread, a: Action)
    requires s.Enabled(a)
    ensures s.After(a).streaming <==> BeginsToStream(s, a) || (s.streaming && !StopsStreaming(s, a))
  {
    hide Unsent;
  }

  /** The thread began to stream, and nothing has stopped it. */
  ghost predicate StreamingSince(states: seq<Thread>, actions: seq<Action>, k: nat)
    requires k <= |actions| && k < |states|
  {
    exists j :: 0 <= j < k && BeginsToStream(states[j], actions[j])
                && forall i :: j < i < k ==> !StopsStreaming(states[i], actions[i])
  }

  lemma {:induction false} StreamingOneMore(states: seq<Thread>, actions: seq<Action>, n: nat)
    requires n < |actions| && n + 1 < |states|
    ensures StreamingSince(states, actions, n + 1) <==>
              BeginsToStream(states[n], actions[n])
              || (StreamingSince(states, actions, n) && !StopsStreaming(states[n], actions[n]))
  {
    hide BeginsToStream, StopsStreaming;
    if StreamingSince(states, actions, n) && !StopsStreaming(states[n], actions[n]) {
      var j :| 0 <= j < n && BeginsToStream(states[j], actions[j])
               && forall i :: j < i < n ==> !StopsStreaming(states[i], actions[i]);
      assert forall i :: j < i < n + 1 ==> !StopsStreaming(states[i], actions[i]);
    }
  }

  /** With an active run or without, a thread streams exactly if it has begun to and nothing has stopped it since. */
  lemma {:induction false} StreamsIff(states: seq<Thread>, actions: seq<Action>, k: nat)
    requires IsRun(states, actions) && k < |states|
    ensures states[k].streaming <==> StreamingSince(states, actions, k)
  {
    hide StreamingSince, BeginsToStream, StopsStreaming, Thread.After, Thread.Enabled;
    if k == 0 {
      NoStreamAtFirst(states, actions);
    } else {
      StreamsIff(states, actions, k - 1);
      assert Follows(states[k - 1], actions[k - 1], states[k]);
      StreamsAfter(states[k - 1], actions[k - 1]);
      StreamingOneMore(states, actions, k - 1);
    }
  }

  lemma {:induction false} NoStreamAtFirst(states: seq<Thread>, actions: seq<Action>)
    requires |states| > 0
    ensures !StreamingSince(states, actions, 0)
  {
  }

  // ---- Interrupts -------------------------------------------------------------------------------------

  /** A stop or a question of this run, or one that names no run. */
  predicate IsOf(i: Interrupt, r: RunId) {
    (i.cancelled || i.hasPayload) && (i.run == None || i.run == Some(r))
  }

  /**
   The interrupt goes: another is noted, a message or an answer is sent, the idle thread is settled, or a run
   that it is of is settled and does not wait for its answer.
   */
  predicate Dismisses(s: Thread, a: Action, i: Interrupt) {
    || a.NoteInterrupt? || a.Send? || a.Answer?
    || (a.SettleIdle? && s.active == a.expected)
    || (a.Settle? && s.active == Some(a.run) && IsOf(i, a.run) && !a.interrupted)
    || (a.StopAndSettle? && s.active == Some(a.run) && IsOf(i, a.run))
  }

  lemma {:induction false} InterruptAfter(s: Thread, a: Action, i: Interrupt)
    requires s.Enabled(a)
    ensures s.After(a).interrupt == Some(i) <==>
              a == NoteInterrupt(Some(i)) || (s.interrupt == Some(i) && !Dismisses(s, a, i))
  {
    hide Unsent;
  }

  /** The interrupt has been noted, and nothing has dismissed it. */
  ghost predicate NotedSince(states: seq<Thread>, actions: seq<Action>, k: nat, i: Interrupt)
    requires k <= |actions| && k < |states|
  {
    exists j :: 0 <= j < k && actions[j] == NoteInterrupt(Some(i))
                && forall n :: j < n < k ==> !Dismisses(states[n], actions[n], i)
  }

  lemma {:induction false} NotedOneMore(states: seq<Thread>, actions: seq<Action>, n: nat, i: Interrupt)
    requires n < |actions| && n + 1 < |states|
    ensures NotedSince(states, actions, n + 1, i) <==>
              actions[n] == NoteInterrupt(Some(i))
              || (NotedSince(states, actions, n, i) && !Dismisses(states[n], actions[n], i))
  {
    hide Dismisses;
    if NotedSince(states, actions, n, i) && !Dismisses(states[n], actions[n], i) {
      var j :| 0 <= j < n && actions[j] == NoteInterrupt(Some(i))
               && forall m :: j < m < n ==> !Dismisses(states[m], actions[m], i);
      assert forall m :: j < m < n + 1 ==> !Dismisses(states[m], actions[m], i);
    }
  }

  /** In every run the page holds an interrupt exactly if it has been noted and nothing has dismissed it since. */
  lemma {:induction false} InterruptStandsIff(states: seq<Thread>, actions: seq<Action>, k: nat, i: Interrupt)
    requires IsRun(states, actions) && k < |states|
    ensures states[k].interrupt == Some(i) <==> NotedSince(states, actions, k, i)
  {
    hide NotedSince, Dismisses, Thread.After, Thread.Enabled;
    if k == 0 {
      NothingNoted(states, actions, i);
    } else {
      InterruptStandsIff(states, actions, k - 1, i);
      assert Follows(states[k - 1], actions[k - 1], states[k]);
      InterruptAfter(states[k - 1], actions[k - 1], i);
      NotedOneMore(states, actions, k - 1, i);
    }
  }

  lemma {:induction false} NothingNoted(states: seq<Thread>, actions: seq<Action>, i: Interrupt)
    requires |states| > 0
    ensures !NotedSince(states, actions, 0, i)
  {
  }

  // ---- A delayed callback spares the runs that came after ---------------------------------------------

  /** The callbacks made for run r that have not fired. */
  function Pending(s: Thread, r: RunId): set<CallbackId> {
    set id | id in s.settling && s.settling[id] == Some(r)
  }

  /** Only the settlements of a known run leave a callback of it; a settlement of the idle thread names none. */
  predicate LeavesCallback(s: Thread, a: Action, r: RunId) {
    s.active == Some(r) && ((a.Settle? && a.run == r) || (a.StopAndSettle? && a.run == r))
  }

  predicate Fires(s: Thread, a: Action, r: RunId) {
    a.Callback? && a.id in s.settling && s.settling[a.id] == Some(r)
  }

  function Settlements(states: seq<Thread>, actions: seq<Action>, k: nat, r: RunId): nat
    requires k <= |actions| && k < |states|
  {
    if k == 0 then 0
    else Settlements(states, actions, k - 1, r) + Count(LeavesCallback(states[k - 1], actions[k - 1], r))
  }

  function Firings(states: seq<Thread>, actions: seq<Action>, k: nat, r: RunId): nat
    requires k <= |actions| && k < |states|
  {
    if k == 0 then 0 else Firings(states, actions, k - 1, r) + Count(Fires(states[k - 1], actions[k - 1], r))
  }

  predicate CallbacksAreOld(s: Thread) {
    forall id :: id in s.settling ==> id < s.nextCallback
  }

  lemma {:induction false} StepKeepsCallbacksOld(s: Thread, a: Action)
    requires s.Enabled(a) && CallbacksAreOld(s)
    ensures CallbacksAreOld(s.After(a))
  {
    hide Unsent;
  }

  lemma {:induction false} PendingAfter(s: Thread, a: Action, r: RunId)
    requires s.Enabled(a) && CallbacksAreOld(s)
    ensures s.nextCallback !in Pending(s, r)
    ensures Pending(s.After(a), r) ==
      if Fires(s, a, r) then Pending(s, r) - {a.id}
      else if LeavesCallback(s, a, r) then Pending(s, r) + {s.nextCallback}
      else Pending(s, r)
  {
    hide Unsent, Thread.InterruptedFor;
    if a.Callback? {
      assert s.After(a).settling == s.settling - {a.id};
      assert Fires(s, a, r) <==> a.id in Pending(s, r);
    }
  }

  lemma {:induction false} StepCountsCallbacks(s: Thread, a: Action, r: RunId)
    requires s.Enabled(a) && CallbacksAreOld(s)
    ensures |Pending(s.After(a), r)| + Count(Fires(s, a, r)) == |Pending(s, r)| + Count(LeavesCallback(s, a, r))
  {
    var before, after := Pending(s, r), Pending(s.After(a), r);
    PendingAfter(s, a, r);
    if Fires(s, a, r) {
      assert a.id in before;
      hide Thread.After, CallbacksAreOld, Pending;
      SameButOne(before, after, a.id);
    } else if LeavesCallback(s, a, r) {
      hide Thread.After, CallbacksAreOld, Pending;
      SameButOne(before, after, s.nextCallback);
    }
  }

  /** The pending callbacks of run r are its settlements that took effect, less those that have fired. */
  lemma {:induction false} CallbacksAreCounted(states: seq<Thread>, actions: seq<Action>, k: nat, r: RunId)
    requires IsRun(states, actions) && k < |states|
    ensures CallbacksAreOld(states[k])
    ensures |Pending(states[k], r)| == Settlements(states, actions, k, r) - Firings(states, actions, k, r)
  {
    if k > 0 {
      CallbacksAreCounted(states, actions, k - 1, r);
      assert Follows(states[k - 1], actions[k - 1], states[k]);
      StepKeepsCallbacksOld(states[k - 1], actions[k - 1]);
      StepCountsCallbacks(states[k - 1], actions[k - 1], r);
      hide Fires, LeavesCallback, Pending, CallbacksAreOld;
    } else {
      assert Pending(IDLE, r) == {};
    }
  }

  /** A settlement that took effect has ended the run or left it waiting for the user. */
  lemma {:induction false} SettlementsEndOrInterrupt(states: seq<Thread>, actions: seq<Action>, k: nat, r: RunId)
    requires IsRun(states, actions) && k < |states|
    ensures Settlements(states, actions, k, r) <= Endings(states, actions, k, r) + Interruptions(states, actions, k, r)
  {
    if k > 0 {
      SettlementsEndOrInterrupt(states, actions, k - 1, r);
    }
  }

  /**
   A callback empties the live conversation of an active run if and only if it was made for that run;
   such callbacks are pending exactly while a settlement of the run has taken effect and not called back;
   and then the run was interrupted before, or ended and became active again.
   */
  lemma {:induction false} CallbackSparesNewRuns(states: seq<Thread>, actions: seq<Action>, k: nat, r: RunId, id: CallbackId)
    requires IsRun(states, actions) && k < |states| && states[k].active == Some(r)
    requires id in states[k].settling && states[k].live != []
    ensures states[k].After(Callback(id)).live != states[k].live <==> id in Pending(states[k], r)
    ensures Pending(states[k], r) != {} <==> Settlements(states, actions, k, r) > Firings(states, actions, k, r)
    ensures id in Pending(states[k], r) ==> Interruptions(states, actions, k, r) > 0 || Activations(states, k, r) > 1
  {
    CallbacksAreCounted(states, actions, k, r);
    OneSettlementPerActivation(states, actions, k, r);
    SettlementsEndOrInterrupt(states, actions, k, r);
  }

  // ---- What is handled stays in the live conversation ---------------------------------------------------

  predicate Handles(s: Thread, a: Action, r: RunId) {
    a.Receive? && a.run == r && s.Passes(r, a.at)
  }

  /** What a step handles of run r. */
  function News(s: Thread, a: Action, r: RunId): seq<Chunk> {
    if Handles(s, a, r) then [Chunk(r, a.at, a.text)] else []
  }

  /** What was handled of run r between two states, in order. */
  function Handled(states: seq<Thread>, actions: seq<Action>, j: nat, k: nat, r: RunId): seq<Chunk>
    requires j <= k <= |actions| && k < |states|
    decreases k
  {
    if k == j then [] else Handled(states, actions, j, k - 1, r) + News(states[k - 1], actions[k - 1], r)
  }

  /** What the live conversation holds of run r, in order. */
  function OfRun(live: seq<Chunk>, r: RunId): seq<Chunk> {
    if live == [] then [] else Own(live[0], r) + OfRun(live[1..], r)
  }

  function Own(c: Chunk, r: RunId): seq<Chunk> {
    if c.Chunk? && c.run == r then [c] else []
  }

  lemma {:induction false} HeldIsOfRun(live: seq<Chunk>, r: RunId, c: Chunk)
    requires c in OfRun(live, r)
    ensures c.Chunk? && c.run == r && c in live
  {
    if c !in Own(live[0], r) {
      HeldIsOfRun(live[1..], r, c);
    }
  }

  predicate EndsWith(all: seq<Chunk>, last: seq<Chunk>) {
    |last| <= |all| && all[|all| - |last|..] == last
  }

  /**
   The page throws the live conversation away: by a reset on its own, a start from scratch, an answer, or
   a message sent while nothing streams.
   */
  predicate PageWipes(s: Thread, a: Action) {
    a.Reset? || a.Restart? || a.Answer? || (a.Send? && !(s.active.Some? && s.streaming))
  }

  predicate Wipes(s: Thread, a: Action) {
    PageWipes(s, a) || (a.Callback? && a.id in s.settling && (s.active.None? || s.active == s.settling[a.id]))
  }

  lemma {:induction false} OfRunAppend(a: seq<Chunk>, b: seq<Chunk>, r: RunId)
    ensures OfRun(a + b, r) == OfRun(a, r) + OfRun(b, r)
  {
    hide Own;
    if a == [] {
      assert a + b == b;
    } else {
      OfRunAppend(a[1..], b, r);
      assert (a + b)[0] == a[0] && (a + b)[1..] == a[1..] + b;
    }
  }

  lemma {:induction false} UnsentIsGone(live: seq<Chunk>, text: string)
    ensures Sent(text) !in Unsent(live, text)
  {
    if live != [] {
      UnsentIsGone(live[1..], text);
    }
  }

  lemma {:induction false} OfRunUnsent(live: seq<Chunk>, text: string, r: RunId)
    ensures OfRun(Unsent(live, text), r) == OfRun(live, r)
  {
    if live != [] {
      OfRunUnsent(live[1..], text, r);
      OfRunAppend(if live[0] == Sent(text) then [] else [live[0]], Unsent(live[1..], text), r);
    }
  }

  lemma {:induction false} StepLive(s: Thread, a: Action)
    requires s.Enabled(a) && !Wipes(s, a)
    ensures
      s.After(a).live ==
        if a.Receive? && s.Passes(a.run, a.at) then s.live + [Chunk(a.run, a.at, a.text)]
        else if a.Accept? && Sent(a.text) !in s.live then s.live + [Sent(a.text)]
        else if a.Withdraw? then Unsent(s.live, a.text)
        else s.live
  {
    hide Unsent;
  }

  /** Of every run a step that wipes leaves nothing, and any other step adds exactly what it handles. */
  lemma {:induction false} StepHolds(s: Thread, a: Action, r: RunId)
    requires s.Enabled(a)
    ensures OfRun(s.After(a).live, r) == if Wipes(s, a) then [] else OfRun(s.live, r) + News(s, a, r)
    ensures Wipes(s, a) ==> News(s, a, r) == []
  {
    assert OfRun(s.live, r) + [] == OfRun(s.live, r);
    if Wipes(s, a) {
      WipedLive(s, a);
    } else {
      StepLive(s, a);
      hide Thread.After, Wipes, Unsent, Thread.Passes;
      if a.Receive? {
        OfRunAppend(s.live, [Chunk(a.run, a.at, a.text)], r);
      } else if a.Accept? {
        OfRunAppend(s.live, [Sent(a.text)], r);
      } else if a.Withdraw? {
        OfRunUnsent(s.live, a.text, r);
      }
    }
  }

  lemma {:induction false} WipedLive(s: Thread, a: Action)
    requires s.Enabled(a) && Wipes(s, a)
    ensures s.After(a).live == if a.Send? then [Sent(a.text)] else []
  {
    hide Unsent;
  }

  /** One step takes text of a run away if and only if it wipes, and the live conversation held some. */
  lemma {:induction false} StepLosesIff(s: Thread, a: Action, r: RunId)
    requires s.Enabled(a)
    ensures !(OfRun(s.live, r) <= OfRun(s.After(a).live, r)) <==> Wipes(s, a) && OfRun(s.live, r) != []
  {
    StepHolds(s, a, r);
    hide Wipes, Thread.After, Thread.Enabled, OfRun, News;
  }

  /** The state after the last step that wiped, or the first one. */
  function LastWipe(states: seq<Thread>, actions: seq<Action>, k: nat): (w: nat)
    requires k <= |actions| && k < |states|
    ensures w <= k
  {
    if k == 0 then 0 else if Wipes(states[k - 1], actions[k - 1]) then k else LastWipe(states, actions, k - 1)
  }

  /**
   In every state the live conversation holds of every run exactly what was handled of it since the last
   wipe, in order: whatever runs took over, whatever subscriptions came and went, however late the callbacks.
   */
  lemma {:induction false} LiveIsHandledSinceWipe(states: seq<Thread>, actions: seq<Action>, k: nat, r: RunId)
    requires IsRun(states, actions) && k < |states|
    ensures OfRun(states[k].live, r) == Handled(states, actions, LastWipe(states, actions, k), k, r)
  {
    hide Wipes, News, OfRun, Thread.After, Thread.Enabled;
    if k == 0 {
      NothingHeldAtFirst(r);
    } else {
      LiveIsHandledSinceWipe(states, actions, k - 1, r);
      assert Follows(states[k - 1], actions[k - 1], states[k]);
      StepHolds(states[k - 1], actions[k - 1], r);
    }
  }

  lemma {:induction false} NothingHeldAtFirst(r: RunId)
    ensures OfRun(IDLE.live, r) == []
  {
  }

  lemma {:induction false} HandledSplits(states: seq<Thread>, actions: seq<Action>, j: nat, i: nat, k: nat, r: RunId)
    requires j <= i <= k <= |actions| && k < |states|
    ensures Handled(states, actions, j, k, r) == Handled(states, actions, j, i, r) + Handled(states, actions, i, k, r)
    decreases k
  {
    hide News;
    if i < k {
      HandledSplits(states, actions, j, i, k - 1, r);
    }
  }

  lemma {:induction false} LastWipeIsLast(states: seq<Thread>, actions: seq<Action>, i: nat, k: nat)
    requires i < k <= |actions| && k < |states| && LastWipe(states, actions, k) <= i
    ensures !Wipes(states[i], actions[i])
    decreases k
  {
    hide Wipes;
    if i < k - 1 {
      LastWipeIsLast(states, actions, i, k - 1);
    }
  }

  lemma {:induction false} LastWipeWipes(states: seq<Thread>, actions: seq<Action>, k: nat)
    requires k <= |actions| && k < |states| && LastWipe(states, actions, k) > 0
    ensures var w := LastWipe(states, actions, k); Wipes(states[w - 1], actions[w - 1])
  {
    hide Wipes;
    if !Wipes(states[k - 1], actions[k - 1]) {
      LastWipeWipes(states, actions, k - 1);
    }
  }

  /** No step between the two states wipes anything handled since the first. */
  ghost predicate WipesNothingHandled(states: seq<Thread>, actions: seq<Action>, j: nat, k: nat, r: RunId)
    requires j <= k <= |actions| && k < |states|
  {
    forall i :: j <= i < k && Wipes(states[i], actions[i]) ==> Handled(states, actions, j, i, r) == []
  }

  lemma {:induction false} WipeHandlesNothing(states: seq<Thread>, actions: seq<Action>, j: nat, k: nat, r: RunId)
    requires IsRun(states, actions) && k < |states| && j < LastWipe(states, actions, k)
    ensures
      var w := LastWipe(states, actions, k);
      Handled(states, actions, j, w, r) == Handled(states, actions, j, w - 1, r) && Wipes(states[w - 1], actions[w - 1])
  {
    hide Wipes, News, Thread.After, Thread.Enabled, OfRun, LastWipe;
    var w := LastWipe(states, actions, k);
    LastWipeWipes(states, actions, k);
    assert Follows(states[w - 1], actions[w - 1], states[w]);
    StepHolds(states[w - 1], actions[w - 1], r);
    assert Handled(states, actions, j, w - 1, r) + [] == Handled(states, actions, j, w - 1, r);
  }

  lemma {:induction false} SparedSinceWipe(states: seq<Thread>, actions: seq<Action>, j: nat, k: nat, r: RunId)
    requires IsRun(states, actions) && j <= k < |states|
    ensures
      var w := LastWipe(states, actions, k);
      WipesNothingHandled(states, actions, j, k, r) <==> w <= j || Handled(states, actions, j, w, r) == []
  {
    hide Follows, Wipes, Handled, LastWipe;
    var w := LastWipe(states, actions, k);
    if w > j {
      WipeHandlesNothing(states, actions, j, k, r);
    }
    forall i | j <= i < k && Wipes(states[i], actions[i]) ensures w > j && i < w {
      if w <= i {
        LastWipeIsLast(states, actions, i, k);
      }
    }
    if w > j && Handled(states, actions, j, w, r) == [] {
      forall i | j <= i < k && Wipes(states[i], actions[i]) ensures Handled(states, actions, j, i, r) == [] {
        HandledSplits(states, actions, j, i, w, r);
      }
    }
  }

  /**
   From any state on, the live conversation ends with everything handled of a run since then, in order, if
   and only if nothing of it was wiped.
   */
  lemma {:induction false} LiveEndsWithHandledIff(states: seq<Thread>, actions: seq<Action>, j: nat, k: nat, r: RunId)
    requires IsRun(states, actions) && j <= k < |states|
    ensures EndsWith(OfRun(states[k].live, r), Handled(states, actions, j, k, r))
       <==> WipesNothingHandled(states, actions, j, k, r)
  {
    var w := LastWipe(states, actions, k);
    LiveIsHandledSinceWipe(states, actions, k, r);
    SparedSinceWipe(states, actions, j, k, r);
    HandledSplits(states, actions, if w <= j then w else j, if w <= j then j else w, k, r);
    hide Handled, LastWipe, OfRun, WipesNothingHandled, IsRun;
  }

  // ---- A run that is active for the first time -----------------------------------------------------------

  lemma {:induction false} CountsGrow(states: seq<Thread>, actions: seq<Action>, i: nat, k: nat, r: RunId)
    requires i <= k < |states| && k <= |actions|
    ensures Activations(states, i, r) <= Activations(states, k, r)
    ensures Interruptions(states, actions, i, r) <= Interruptions(states, actions, k, r)
    decreases k
  {
    hide Interrupts;
    if i < k {
      CountsGrow(states, actions, i, k - 1, r);
    }
  }

  ghost predicate ActiveThroughout(states: seq<Thread>, j: nat, k: nat, r: RunId)
    requires k < |states|
  {
    forall i :: j <= i <= k ==> states[i].active == Some(r)
  }

  /** Since when a run has been active. */
  lemma {:induction false} ActiveSince(states: seq<Thread>, actions: seq<Action>, k: nat, r: RunId) returns (j: nat)
    requires IsRun(states, actions) && k < |states| && states[k].active == Some(r)
    ensures 0 < j <= k && ActiveThroughout(states, j, k, r) && states[j - 1].active != Some(r)
  {
    if states[k - 1].active == Some(r) {
      j := ActiveSince(states, actions, k - 1, r);
    } else {
      j := k;
    }
  }

  lemma {:induction false} NothingHandledBefore(states: seq<Thread>, actions: seq<Action>, k: nat, r: RunId)
    requires k < |states| && k <= |actions| && states[0] == IDLE && Activations(states, k, r) == 0
    ensures Handled(states, actions, 0, k, r) == []
    ensures states[k].active != Some(r)
  {
    if k > 0 {
      NothingHandledBefore(states, actions, k - 1, r);
    }
  }

  /** While a run is active for the first time and was not interrupted, no callback touches it. */
  lemma {:induction false} OnlyThePageWipes(states: seq<Thread>, actions: seq<Action>, i: nat, r: RunId)
    requires IsRun(states, actions) && i < |actions| && states[i].active == Some(r)
    requires Activations(states, i, r) == 1 && Interruptions(states, actions, i, r) == 0
    ensures Wipes(states[i], actions[i]) <==> PageWipes(states[i], actions[i])
  {
    CallbacksAreCounted(states, actions, i, r);
    OneSettlementPerActivation(states, actions, i, r);
    SettlementsEndOrInterrupt(states, actions, i, r);
    assert Pending(states[i], r) == {};
    if actions[i].Callback? && actions[i].id in states[i].settling {
      assert actions[i].id !in Pending(states[i], r);
    }
    hide PageWipes;
  }

  /** Until then nothing was handled, and since then only the page wipes. */
  lemma {:induction false} NothingOrThePage(states: seq<Thread>, actions: seq<Action>, i: nat, k: nat, r: RunId)
    requires IsRun(states, actions) && i < k < |states| && states[k].active == Some(r)
    requires Activations(states, k, r) == 1 && Interruptions(states, actions, k, r) == 0
    ensures Handled(states, actions, 0, i, r) == [] || (Wipes(states[i], actions[i]) <==> PageWipes(states[i], actions[i]))
  {
    hide Interruptions, Follows, Wipes, PageWipes;
    var j := ActiveSince(states, actions, k, r);
    CountsGrow(states, actions, i, k, r);
    CountsGrow(states, actions, j, k, r);
    if i < j {
      CountsGrow(states, actions, i, j - 1, r);
      NothingHandledBefore(states, actions, i, r);
    } else {
      CountsGrow(states, actions, j, i, r);
      OnlyThePageWipes(states, actions, i, r);
    }
  }

  /** The page itself wipes nothing that was ever handled. */
  ghost predicate PageWipesNothing(states: seq<Thread>, actions: seq<Action>, k: nat, r: RunId)
    requires k <= |actions| && k < |states|
  {
    forall i :: 0 <= i < k && PageWipes(states[i], actions[i]) ==> Handled(states, actions, 0, i, r) == []
  }

  /**
   While a run is active for the first time and was not interrupted, whatever other runs came before and
   however late their callbacks, the live conversation holds everything ever handled of it, in order, if
   and only if the page itself wiped nothing handled.
   */
  lemma {:induction false} NoLiveChunkIsLost(states: seq<Thread>, actions: seq<Action>, k: nat, r: RunId)
    requires IsRun(states, actions) && k < |states| && states[k].active == Some(r)
    requires Activations(states, k, r) == 1 && Interruptions(states, actions, k, r) == 0
    ensures OfRun(states[k].live, r) == Handled(states, actions, 0, k, r) <==> PageWipesNothing(states, actions, k, r)
  {
    assert |states| == |actions| + 1;
    hide IsRun, Wipes, PageWipes, Handled, OfRun, Activations, Interruptions, LastWipe;
    var w := LastWipe(states, actions, k);
    LiveIsHandledSinceWipe(states, actions, k, r);
    HandledSplits(states, actions, 0, w, k, r);
    SparedSinceWipe(states, actions, 0, k, r);
    NothingYet(states, actions, r);
    forall i | 0 <= i < k
      ensures Handled(states, actions, 0, i, r) == [] || (Wipes(states[i], actions[i]) <==> PageWipes(states[i], actions[i]))
    {
      NothingOrThePage(states, actions, i, k, r);
    }
  }

  lemma {:induction false} NothingYet(states: seq<Thread>, actions: seq<Action>, r: RunId)
    requires |states| > 0
    ensures Handled(states, actions, 0, 0, r) == []
  {
  }

  // ---- What the live conversation holds twice -------------------------------------------------------------

  /** No two of the handled events are the same. */
  predicate Once(held: seq<Chunk>) {
    forall i, j :: 0 <= i < j < |held| && held[i].Chunk? && held[j].Chunk? && held[i].at.Some? ==> held[i].at != held[j].at
  }

  predicate HoldsLater(held: seq<Chunk>, fence: Moment) {
    exists c :: c in held && c.Chunk? && c.at.Some? && c.at.value.IsAfter(fence)
  }

  /** The fence that the action sets for run r, without throwing the live conversation away. */
  function FenceGiven(s: Thread, a: Action, r: RunId): Option<Moment> {
    match a
    case Start(run, after) => if run == r then Some(after) else None
    case Accept(run, _) => if run == r then Some(ORIGIN) else None
    case Preserve(run, snapshot) => if run == r then Some(snapshot.GetOr(s.lastSeq)) else None
    case StopAndPreserve(run, snapshot) => if run == r then Some(snapshot.GetOr(s.lastSeq)) else None
    case _ => None
  }

  /** The fence of a run is set below an event that the live conversation holds of it. */
  predicate Lowers(s: Thread, a: Action, r: RunId) {
    var fence := FenceGiven(s, a, r);
    fence.Some? && HoldsLater(OfRun(s.live, r), fence.value)
  }

  ghost predicate NeverLowers(states: seq<Thread>, actions: seq<Action>, r: RunId)
    requires |actions| <= |states|
  {
    forall k :: 0 <= k < |actions| ==> !Lowers(states[k], actions[k], r)
  }

  /** Everything held is there once, and while the run is active the fence is not below it. */
  predicate HeldBelowFence(s: Thread, r: RunId) {
    Once(OfRun(s.live, r)) && (s.active == Some(r) ==> !HoldsLater(OfRun(s.live, r), s.lastSeq))
  }

  /** How active run and fence change. */
  lemma {:induction false} StepFence(s: Thread, a: Action, r: RunId)
    requires s.Enabled(a) && s.After(a).active == Some(r) && !Wipes(s, a)
    ensures
      if FenceGiven(s, a, r).Some? then s.After(a).lastSeq == FenceGiven(s, a, r).value
      else
        && s.active == Some(r)
        && s.After(a).lastSeq == if Handles(s, a, r) then a.at.GetOr(s.lastSeq) else s.lastSeq
  {
    hide Unsent;
  }

  lemma {:induction false} HandlingKeepsOnce(held: seq<Chunk>, fence: Moment, c: Chunk)
    requires Once(held) && !HoldsLater(held, fence) && c.Chunk? && (c.at.Some? ==> c.at.value.IsAfter(fence))
    ensures Once(held + [c]) && !HoldsLater(held + [c], c.at.GetOr(fence))
  {
    forall d | d in held + [c] && d.Chunk? && d.at.Some? ensures !d.at.value.IsAfter(c.at.GetOr(fence)) {
    }
    forall i | 0 <= i < |held| && held[i].Chunk? && held[i].at.Some? ensures held[i].at != c.at {
      assert held[i] in held;
    }
  }

  lemma {:induction false} StepKeepsHeld(s: Thread, a: Action, r: RunId)
    requires s.Enabled(a) && HeldBelowFence(s, r) && !Lowers(s, a, r)
    ensures HeldBelowFence(s.After(a), r)
  {
    StepHolds(s, a, r);
    if !Wipes(s, a) {
      if Handles(s, a, r) {
        HandlingKeepsOnce(OfRun(s.live, r), s.lastSeq, Chunk(r, a.at, a.text));
      }
      if s.After(a).active == Some(r) {
        StepFence(s, a, r);
      }
    }
    assert OfRun(s.live, r) + [] == OfRun(s.live, r);
    hide Wipes, OfRun, Thread.After, Thread.Enabled, FenceGiven, Once, HoldsLater;
  }

  ghost predicate IsPath(states: seq<Thread>, actions: seq<Action>) {
    && |states| == |actions| + 1
    && forall k {:trigger actions[k]} :: 0 <= k < |actions| ==> Follows(states[k], actions[k], states[k + 1])
  }

  lemma {:induction false} PathKeepsHeld(states: seq<Thread>, actions: seq<Action>, k: nat, r: RunId)
    requires IsPath(states, actions) && k < |states| && HeldBelowFence(states[0], r) && NeverLowers(states, actions, r)
    ensures HeldBelowFence(states[k], r)
  {
    hide HeldBelowFence, Lowers, Thread.After, Thread.Enabled;
    if k > 0 {
      PathKeepsHeld(states, actions, k - 1, r);
      assert Follows(states[k - 1], actions[k - 1], states[k]);
      StepKeepsHeld(states[k - 1], actions[k - 1], r);
    }
  }

  /** However the thread goes on without lowering the fence of the run, it holds each event of it once. */
  ghost predicate StaysOnce(s: Thread, r: RunId) {
    forall states: seq<Thread>, actions: seq<Action> ::
      IsPath(states, actions) && states[0] == s && NeverLowers(states, actions, r)
      ==> Once(OfRun(states[|actions|].live, r))
  }

  lemma {:induction false} HeldStaysOnce(s: Thread, r: RunId)
    requires HeldBelowFence(s, r)
    ensures StaysOnce(s, r)
  {
    forall states: seq<Thread>, actions: seq<Action> |
      IsPath(states, actions) && states[0] == s && NeverLowers(states, actions, r)
      ensures Once(OfRun(states[|actions|].live, r))
    {
      PathKeepsHeld(states, actions, |actions|, r);
      hide OfRun, Once;
    }
  }

  /** Below an event that is held, the run is active and the event passes the fence when it comes again. */
  lemma {:induction false} LoweredRepeats(s: Thread, a: Action, r: RunId) returns (c: Chunk)
    requires s.Enabled(a) && Lowers(s, a, r)
    ensures c in OfRun(s.live, r) && c.Chunk? && c.run == r && c.at.Some?
    ensures
      var again := s.After(a).After(Receive(r, c.at, c.text));
      OfRun(s.After(a).live, r) == OfRun(s.live, r) && OfRun(again.live, r) == OfRun(s.live, r) + [c]
  {
    hide Thread.After, OfRun, FenceGiven, Wipes, Thread.Enabled, Moment.IsAfter;
    var fence := FenceGiven(s, a, r).value;
    c :| c in OfRun(s.live, r) && c.Chunk? && c.at.Some? && c.at.value.IsAfter(fence);
    FenceIsSet(s, a, r);
    HeldIsOfRun(s.live, r, c);
    PassingIsHeld(s.After(a), r, c);
  }

  lemma {:induction false} FenceIsSet(s: Thread, a: Action, r: RunId)
    requires s.Enabled(a) && FenceGiven(s, a, r).Some?
    ensures s.After(a).active == Some(r) && s.After(a).lastSeq == FenceGiven(s, a, r).value
    ensures OfRun(s.After(a).live, r) == OfRun(s.live, r)
  {
    StepHolds(s, a, r);
    assert OfRun(s.live, r) + [] == OfRun(s.live, r);
    hide OfRun;
  }

  lemma {:induction false} PassingIsHeld(s: Thread, r: RunId, c: Chunk)
    requires s.active == Some(r) && c.Chunk? && c.run == r && c.at.Some? && c.at.value.IsAfter(s.lastSeq)
    ensures OfRun(s.After(Receive(r, c.at, c.text)).live, r) == OfRun(s.live, r) + [c]
  {
    StepHolds(s, Receive(r, c.at, c.text), r);
    hide OfRun;
  }

  lemma {:induction false} LoweredIsUnsafe(s: Thread, a: Action, r: RunId)
    requires s.Enabled(a) && Lowers(s, a, r)
    ensures !StaysOnce(s.After(a), r)
  {
    var c := LoweredRepeats(s, a, r);
    var s0 := s.After(a);
    var again := Receive(r, c.at, c.text);
    var s1 := s0.After(again);
    TwiceIsNotOnce(OfRun(s.live, r), c);
    hide Thread.After, OfRun, Lowers, Once;
    assert Follows(s0, again, s1);
    var states, actions := [s0, s1], [again];
    assert IsPath(states, actions);
    NothingLowered(s0, again, r);
    assert NeverLowers(states, actions, r);
    assert states[|actions|] == s1;
  }

  lemma {:induction false} NothingLowered(s: Thread, a: Action, r: RunId)
    requires a.Receive?
    ensures !Lowers(s, a, r)
  {
  }

  lemma {:induction false} TwiceIsNotOnce(held: seq<Chunk>, c: Chunk)
    requires c in held && c.Chunk? && c.at.Some?
    ensures !Once(held + [c])
  {
    var i :| 0 <= i < |held| && held[i] == c;
    assert (held + [c])[i] == (held + [c])[|held|];
  }

  /**
   Every state of a run of the thread holds each event of a run once, and goes on to, if and only if no start
   has set the fence below an event that was held.
   */
  lemma {:induction false} HeldOnceIff(states: seq<Thread>, actions: seq<Action>, r: RunId)
    requires IsRun(states, actions)
    ensures (forall k :: 0 <= k < |states| ==> StaysOnce(states[k], r)) <==> NeverLowers(states, actions, r)
  {
    assert HeldBelowFence(states[0], r);
    assert IsPath(states, actions);
    hide HeldBelowFence, Lowers, StaysOnce, Thread.After, Thread.Enabled;
    if NeverLowers(states, actions, r) {
      forall k | 0 <= k < |states| ensures StaysOnce(states[k], r) {
        PathKeepsHeld(states, actions, k, r);
        HeldStaysOnce(states[k], r);
      }
    } else {
      var k :| 0 <= k < |actions| && Lowers(states[k], actions[k], r);
      assert Follows(states[k], actions[k], states[k + 1]);
      LoweredIsUnsafe(states[k], actions[k], r);
    }
  }

  lemma {:induction false} RunGoesOn(states: seq<Thread>, actions: seq<Action>, a: Action)
    requires IsRun(states, actions) && states[|actions|].Enabled(a)
    ensures IsRun(states + [states[|actions|].After(a)], actions + [a])
  {
    hide Thread.After, Thread.Enabled;
  }

  /** Run 7 has ended and is active again, with its first callback still to come. */
  lemma {:induction false} EndedAndStarted() returns (states: seq<Thread>, actions: seq<Action>)
    ensures actions == [Start(7, ORIGIN), Settle(7, false), Start(7, ORIGIN)] && IsRun(states, actions) && |states| == 4
    ensures states[3].active == Some(7) && states[3].settling == map[0 := Some(7)] && states[3].live == []
  {
    hide Unsent;
    var s1 := IDLE.Started(7, ORIGIN);
    var s2 := s1.Settled(Some(7), Some(7), false);
    assert s2.active == None && s2.settling == map[0 := Some(7)];
    var s3 := s2.Started(7, ORIGIN);
    assert s3.active == Some(7) && s3.settling == map[0 := Some(7)] && s3.live == [];
    actions, states := [Start(7, ORIGIN), Settle(7, false), Start(7, ORIGIN)], [IDLE, s1, s2, s3];
    hide Thread.Started, Thread.Settled;
    assert Follows(IDLE, Start(7, ORIGIN), s1) && Follows(s1, Settle(7, false), s2) && Follows(s2, Start(7, ORIGIN), s3);
    hide *;
    ThreeSteps(states, actions);
  }

  lemma {:induction false} ThreeSteps(states: seq<Thread>, actions: seq<Action>)
    requires |states| == 4 && |actions| == 3 && states[0] == IDLE
    requires Follows(states[0], actions[0], states[1]) && Follows(states[1], actions[1], states[2])
    requires Follows(states[2], actions[2], states[3])
    ensures IsRun(states, actions)
  {
    hide Follows;
  }

  lemma {:induction false} LastCallbackWipes(s: Thread)
    requires s.settling == map[0 := Some(7)] && s.active == Some(7)
    ensures s.CalledBack(0) == s.Cleared().(settling := map[])
  {
    assert s.settling - {0} == map[];
  }

  lemma {:induction false} OnlyThePageWipesByAction(states: seq<Thread>, actions: seq<Action>)
    requires |actions| <= |states|
    requires forall i :: 0 <= i < |actions| ==>
      actions[i].Start? || actions[i].Settle? || actions[i].Receive? || actions[i].Callback?
    ensures forall i :: 0 <= i < |actions| ==> !PageWipes(states[i], actions[i])
  {
  }

  /** The first-activation condition is needed: a run that ended and was started again loses its live chunks. */
  lemma {:induction false} RestartedRunIsWiped() returns (states: seq<Thread>, actions: seq<Action>)
    ensures IsRun(states, actions) && |actions| == 5
    ensures states[4].active == Some(7) && states[4].live == [Chunk(7, None, "again")]
    ensures states[5].active == Some(7) && states[5].live == []
    ensures forall i :: 0 <= i < 5 ==> !PageWipes(states[i], actions[i])
  {
    hide Unsent, IsRun;
    states, actions := EndedAndStarted();
    var s4 := states[3].After(Receive(7, None, "again"));
    assert s4 == states[3].(live := [Chunk(7, None, "again")]);
    var s5 := s4.After(Callback(0));
    LastCallbackWipes(s4);
    assert s5.active == Some(7) && s5.live == [];
    RunGoesOn(states, actions, Receive(7, None, "again"));
    RunGoesOn(states + [s4], actions + [Receive(7, None, "again")], Callback(0));
    hide *;
    states, actions := states + [s4] + [s5], actions + [Receive(7, None, "again")] + [Callback(0)];
    OnlyThePageWipesByAction(states, actions);
  }

  /**
   A resume has found run 8 and handled an event of it when the answer to the request arrives that made the
   run: nothing is wiped, the run starts from the origin, and the event is handled again.
   */
  lemma {:induction false} AcceptedRunIsDoubled() returns (states: seq<Thread>, actions: seq<Action>)
    ensures actions == [Start(8, ORIGIN), Receive(8, Some(Moment(1, 0)), "a"), Accept(8, "m"), Receive(8, Some(Moment(1, 0)), "a")]
    ensures IsRun(states, actions) && !Once(OfRun(states[4].live, 8))
    ensures states[4].live == [Chunk(8, Some(Moment(1, 0)), "a"), Sent("m"), Chunk(8, Some(Moment(1, 0)), "a")]
  {
    hide Thread.After, Follows, Once, IsRun, OfRun;
    var first, chunk := Receive(8, Some(Moment(1, 0)), "a"), Chunk(8, Some(Moment(1, 0)), "a");
    var s1 := IDLE.After(Start(8, ORIGIN));
    var s2 := s1.After(first);
    var s3 := s2.After(Accept(8, "m"));
    StartedThread(IDLE, 8);
    HeardThread(s1, 8, "a");
    AcceptedThread(s2, 8, "m");
    HeardThread(s3, 8, "a");
    assert [] + [chunk] == [chunk] && [chunk] + [Sent("m")] + [chunk] == [chunk, Sent("m"), chunk];
    states, actions := [IDLE, s1, s2, s3], [Start(8, ORIGIN), first, Accept(8, "m")];
    ThreeSteps(states, actions);
    RunGoesOn(states, actions, first);
    states, actions := states + [s3.After(first)], actions + [first];
    HeldTwice(chunk, "m");
  }

  lemma {:induction false} StartedThread(s: Thread, r: RunId)
    ensures Follows(s, Start(r, ORIGIN), s.After(Start(r, ORIGIN)))
    ensures var s' := s.After(Start(r, ORIGIN)); s'.active == Some(r) && s'.lastSeq == ORIGIN && s'.live == s.live
  {
  }

  lemma {:induction false} HeardThread(s: Thread, r: RunId, text: string)
    requires s.active == Some(r) && s.lastSeq == ORIGIN
    ensures
      var a := Receive(r, Some(Moment(1, 0)), text);
      && s.Enabled(a) && Follows(s, a, s.After(a))
      && s.After(a) == s.(live := s.live + [Chunk(r, Some(Moment(1, 0)), text)], lastSeq := Moment(1, 0))
  {
  }

  lemma {:induction false} AcceptedThread(s: Thread, r: RunId, text: string)
    requires Sent(text) !in s.live
    ensures
      var s' := s.After(Accept(r, text));
      && Follows(s, Accept(r, text), s')
      && s'.active == Some(r) && s'.lastSeq == ORIGIN && s'.live == s.live + [Sent(text)]
  {
  }

  lemma {:induction false} HeldTwice(c: Chunk, text: string)
    requires c.Chunk? && c.at.Some?
    ensures !Once(OfRun([c, Sent(text), c], c.run))
  {
    OfRunAppend([c], [Sent(text), c], c.run);
    OfRunAppend([Sent(text)], [c], c.run);
    assert [c] + [Sent(text), c] == [c, Sent(text), c] && [Sent(text)] + [c] == [Sent(text), c];
    assert OfRun([c], c.run) == [c] && OfRun([Sent(text)], c.run) == [];
    TwiceIsNotOnce([c], c);
    assert [c] + ([] + [c]) == [c] + [c];
  }

  // ---- One subscription at a time ----------------------------------------------------------------------

  /** Every subscription ever opened, save the one the thread holds, will deliver nothing more. */
  predicate OnlyOneOpen(s: Thread) {
    && (s.subscription.Some? ==> s.subscription.value < s.nextSubscription && s.subscription.value !in s.aborted)
    && forall c :: 0 <= c < s.nextSubscription && c !in s.aborted && c !in s.done ==> s.subscription == Some(c)
  }

  predicate AbortedAreOld(s: Thread) {
    (forall c :: c in s.aborted ==> c < s.nextSubscription) && (forall c :: c in s.done ==> c < s.nextSubscription)
  }

  lemma {:induction false} StepKeepsOld(s: Thread, a: Action)
    requires s.Enabled(a) && OnlyOneOpen(s) && AbortedAreOld(s)
    ensures AbortedAreOld(s.After(a))
  {
    hide Unsent;
  }

  /** What a step may do with subscriptions. */
  predicate SameOpen(s: Thread, s': Thread) {
    && s'.nextSubscription == s.nextSubscription
    && s.aborted <= s'.aborted && s.done <= s'.done
    && ((s'.subscription == s.subscription && s'.aborted == s.aborted)
        || (s'.subscription.None? && (s.subscription.Some? ==> s.subscription.value in s'.aborted + s'.done)))
  }

  predicate OneMoreOpen(s: Thread, s': Thread) {
    && s'.nextSubscription == s.nextSubscription + 1
    && s'.subscription == Some(s.nextSubscription) && s'.done == s.done
    && s'.aborted == s.aborted + (if s.subscription.Some? then {s.subscription.value} else {})
  }

  lemma {:induction false} StepOpens(s: Thread, a: Action)
    requires s.Enabled(a)
    ensures SameOpen(s, s.After(a)) || OneMoreOpen(s, s.After(a))
  {
    hide Unsent, Thread.InterruptedFor;
  }

  lemma {:induction false} StepKeepsOneOpen(s: Thread, a: Action)
    requires s.Enabled(a) && OnlyOneOpen(s) && AbortedAreOld(s)
    ensures OnlyOneOpen(s.After(a)) && AbortedAreOld(s.After(a))
  {
    StepOpens(s, a);
    StepKeepsOld(s, a);
    hide Thread.After;
  }

  /** In every state at most one subscription of the thread is open. */
  lemma {:induction false} AtMostOneSubscription(
      states: seq<Thread>, actions: seq<Action>, k: nat, c: SubscriptionId, d: SubscriptionId)
    requires IsRun(states, actions) && k < |states|
    requires c < states[k].nextSubscription && c !in states[k].aborted && c !in states[k].done
    requires d < states[k].nextSubscription && d !in states[k].aborted && d !in states[k].done
    ensures c == d
  {
    AlwaysOneOpen(states, actions, k);
  }

  lemma {:induction false} AlwaysOneOpen(states: seq<Thread>, actions: seq<Action>, k: nat)
    requires IsRun(states, actions) && k < |states|
    ensures OnlyOneOpen(states[k]) && AbortedAreOld(states[k])
  {
    if k > 0 {
      AlwaysOneOpen(states, actions, k - 1);
      assert Follows(states[k - 1], actions[k - 1], states[k]);
      StepKeepsOneOpen(states[k - 1], actions[k - 1]);
    }
  }

  /** A resume that finds a run ended after another took over changes nothing exactly if nothing is subscribed. */
  lemma {:induction false} StaleResumeIsHarmlessIff(s: Thread, r: RunId)
    requires s.active != Some(r)
    ensures s.After(StopAndSettle(r)) == s <==> s.subscription == None
    ensures s.After(StopAndSettle(r)).active == s.active && s.After(StopAndSettle(r)).subscription == None
    ensures s.After(StopAndSettle(r)).streaming == s.streaming
  {
  }

  /** And it does happen that the run that took over is left active, streaming and without a subscription. */
  lemma {:induction false} StaleResumeCutsAnotherRun() returns (states: seq<Thread>, actions: seq<Action>)
    ensures IsRun(states, actions) && |actions| == 3 && actions[2] == StopAndSettle(7)
    ensures states[2].active == Some(8) && states[2].subscription.Some?
    ensures states[3].active == Some(8) && states[3].streaming && states[3].subscription == None
  {
    hide Unsent, Thread.Settled, IsRun;
    var s1 := IDLE.After(Start(7, ORIGIN));
    var s2 := s1.After(Start(8, ORIGIN));
    var s3 := s2.After(StopAndSettle(7));
    StaleResumeIsHarmlessIff(s2, 7);
    assert s2.active == Some(8) && s2.streaming && s2.subscription.Some?;
    states, actions := [IDLE, s1, s2, s3], [Start(7, ORIGIN), Start(8, ORIGIN), StopAndSettle(7)];
    hide Thread.After;
    assert Follows(IDLE, Start(7, ORIGIN), s1) && Follows(s1, Start(8, ORIGIN), s2) && Follows(s2, StopAndSettle(7), s3);
    hide *;
    ThreeSteps(states, actions);
  }

  // ---- The thread state in place -------------------------------------------------------------------------

  lemma {:induction false} StoppedTwice(s: Thread)
    ensures s.Stopped().Stopped() == s.Stopped() && s.Stopped().Cleared() == s.Cleared()
    ensures forall r :: s.Stopped().InterruptedFor(r) <==> s.InterruptedFor(r)
  {
  }

  function MomentOf(text: Option<string>): Moment {
    var id := RunDelivery.NormalizeRunSeq(text);
    Moment(RunDelivery.Major(id), RunDelivery.Minor(id))
  }

  /** An empty id counts as none. */
  function GivenMoment(text: Option<string>): Option<Moment> {
    if text.Some? && text.value != "" then Some(MomentOf(text)) else None
  }

  lemma {:induction false} NormalizedMoment(text: Option<string>)
    ensures MomentOf(Some(RunDelivery.NormalizeRunSeq(text))) == MomentOf(text)
  {
    RunDelivery.NormalizedStays(RunDelivery.NormalizeRunSeq(text));
    hide RunDelivery.NormalizeRunSeq;
  }

  lemma {:induction false} OriginMoment()
    ensures MomentOf(Some(RunDelivery.ORIGIN)) == ORIGIN && MomentOf(None) == ORIGIN
  {
    RunDelivery.OriginIsRunSeq();
    RunDelivery.NormalizedStays(RunDelivery.ORIGIN);
  }

  lemma {:induction false} SnapshotMoment(snapshot: Option<string>, lastSeq: string)
    ensures
      var seqId := if snapshot.Some? && snapshot.value != "" then snapshot.value else lastSeq;
      MomentOf(Some(RunDelivery.NormalizeRunSeq(Some(seqId)))) == GivenMoment(snapshot).GetOr(MomentOf(Some(lastSeq)))
  {
    hide MomentOf, RunDelivery.NormalizeRunSeq;
    NormalizedMoment(Some(if snapshot.Some? && snapshot.value != "" then snapshot.value else lastSeq));
  }

  lemma {:induction false} LaterMoment(id: Option<string>, lastSeq: string)
    ensures RunDelivery.CompareRunSeq(RunDelivery.NormalizeRunSeq(id), RunDelivery.NormalizeRunSeq(Some(lastSeq))) <= 0
       <==> !MomentOf(id).IsAfter(MomentOf(Some(lastSeq)))
  {
    hide RunDelivery.NormalizeRunSeq;
  }

  class ThreadState {
    var activeRunId: Option<RunId>
    var isStreaming: bool
    var runStreamAbortController: Option<SubscriptionId>
    var runLastSeq: string
    var pendingInterrupt: Option<Interrupt>
    var onGoingConv: seq<Chunk>
    var settling: map<CallbackId, Option<RunId>>
    var aborted: set<SubscriptionId>
    var finished: set<SubscriptionId>
    var nextSubscription: SubscriptionId
    var nextCallback: CallbackId

    function View(): Thread
      reads this
    {
      Thread(activeRunId, isStreaming, runStreamAbortController, MomentOf(Some(runLastSeq)), pendingInterrupt, onGoingConv,
             settling, aborted, finished, nextSubscription, nextCallback)
    }

    constructor ()
      ensures View() == IDLE
    {
      hide MomentOf, Unsent;
      activeRunId, isStreaming, runStreamAbortController, pendingInterrupt := None, false, None, None;
      runLastSeq := RunDelivery.ORIGIN;
      OriginMoment();
      onGoingConv, settling, aborted, finished := [], map[], {}, {};
      nextSubscription, nextCallback := 0, 0;
    }

    function Open(): set<SubscriptionId>
      reads this
    {
      if runStreamAbortController.Some? then {runStreamAbortController.value} else {}
    }

    method StopRunStreamSubscription()
      modifies this`runStreamAbortController, this`aborted
      ensures runStreamAbortController == None && aborted == old(aborted + Open())
      ensures View() == old(View()).After(Stop)
    {
      hide MomentOf, Unsent;
      if runStreamAbortController.Some? {
        aborted := aborted + {runStreamAbortController.value};
        runStreamAbortController := None;
      }
    }

    method ResetOnGoingConv()
      modifies this`onGoingConv, this`runStreamAbortController, this`aborted
      ensures onGoingConv == [] && runStreamAbortController == None && aborted == old(aborted + Open())
      ensures View() == old(View()).After(Reset)
    {
      hide MomentOf, Unsent;
      StopRunStreamSubscription();
      onGoingConv := [];
    }

    method StartRunStream(run: RunId, afterSeq: Option<string>)
      modifies this`activeRunId, this`isStreaming, this`runLastSeq, this`runStreamAbortController, this`aborted,
        this`nextSubscription
      ensures activeRunId == Some(run) && isStreaming && aborted == old(aborted + Open())
      ensures runStreamAbortController == Some(old(nextSubscription)) && nextSubscription == old(nextSubscription) + 1
      ensures View() == old(View()).After(Start(run, MomentOf(afterSeq)))
      ensures runLastSeq == RunDelivery.NormalizeRunSeq(afterSeq)
    {
      hide MomentOf, Unsent;
      NormalizedMoment(afterSeq);
      StopRunStreamSubscription();
      runStreamAbortController := Some(nextSubscription);
      nextSubscription := nextSubscription + 1;
      activeRunId := Some(run);
      runLastSeq := RunDelivery.NormalizeRunSeq(afterSeq);
      isStreaming := true;
    }

    method RestartRunStream(run: RunId)
      modifies this`activeRunId, this`isStreaming, this`runLastSeq, this`runStreamAbortController, this`aborted,
        this`nextSubscription, this`onGoingConv
      ensures activeRunId == Some(run) && isStreaming && runLastSeq == RunDelivery.ORIGIN && onGoingConv == []
      ensures runStreamAbortController == Some(old(nextSubscription)) && aborted == old(aborted + Open())
      ensures View() == old(View()).After(Restart(run))
    {
      hide MomentOf, Unsent;
      OriginMoment();
      ResetOnGoingConv();
      StartRunStream(run, None);
    }

    method ReconnectRun(run: RunId)
      modifies this`activeRunId, this`isStreaming, this`runLastSeq, this`runStreamAbortController, this`aborted,
        this`nextSubscription
      ensures
        if old(activeRunId == Some(run) && runStreamAbortController.None?)
        then isStreaming && runStreamAbortController == Some(old(nextSubscription)) && activeRunId == Some(run)
        else View() == old(View())
      ensures View() == old(View()).After(Reconnect(run))
    {
      hide MomentOf, Unsent;
      if activeRunId == Some(run) && runStreamAbortController.None? {
        StartRunStream(run, Some(runLastSeq));
      }
    }

    /** A message is sent; whether it opens a new live conversation depends on what streams. */
    method SendMessage(text: string)
      modifies this`pendingInterrupt, this`isStreaming, this`onGoingConv, this`runStreamAbortController, this`aborted
      ensures pendingInterrupt == None && isStreaming
      ensures
        if old(activeRunId.Some? && isStreaming)
        then onGoingConv == old(onGoingConv) && runStreamAbortController == old(runStreamAbortController)
        else onGoingConv == [Sent(text)] && runStreamAbortController == None
      ensures View() == old(View()).After(Send(text))
    {
      hide MomentOf, Unsent;
      var hadActiveRun := activeRunId.Some? && isStreaming;
      pendingInterrupt := None;
      if !hadActiveRun {
        ResetOnGoingConv();
        onGoingConv := [Sent(text)];
        isStreaming := true;
      }
    }

    /** A request that waited has been withdrawn; its message goes. */
    method RemoveRequest(text: string)
      modifies this`onGoingConv
      ensures Sent(text) !in onGoingConv && forall r :: OfRun(onGoingConv, r) == old(OfRun(onGoingConv, r))
      ensures View() == old(View()).After(Withdraw(text))
    {
      hide MomentOf, Unsent;
      UnsentIsGone(onGoingConv, text);
      forall r ensures OfRun(Unsent(onGoingConv, text), r) == OfRun(onGoingConv, r) {
        OfRunUnsent(onGoingConv, text, r);
      }
      onGoingConv := Unsent(onGoingConv, text);
    }

    /** The server has made a run of the message. */
    method RunCreated(run: RunId, text: string)
      modifies this`activeRunId, this`isStreaming, this`runLastSeq, this`runStreamAbortController, this`aborted,
        this`nextSubscription, this`onGoingConv
      ensures activeRunId == Some(run) && isStreaming && runLastSeq == RunDelivery.ORIGIN
      ensures onGoingConv == if Sent(text) in old(onGoingConv) then old(onGoingConv) else old(onGoingConv) + [Sent(text)]
      ensures runStreamAbortController == Some(old(nextSubscription)) && aborted == old(aborted + Open())
      ensures View() == old(View()).After(Accept(run, text))
    {
      hide MomentOf, Unsent;
      OriginMoment();
      if Sent(text) !in onGoingConv {
        onGoingConv := onGoingConv + [Sent(text)];
      }
      StartRunStream(run, None);
    }

    method AnswerQuestion()
      modifies this`pendingInterrupt, this`isStreaming, this`onGoingConv, this`runStreamAbortController, this`aborted
      ensures pendingInterrupt == None && isStreaming && onGoingConv == [] && runStreamAbortController == None
      ensures View() == old(View()).After(Answer)
    {
      hide MomentOf, Unsent;
      pendingInterrupt := None;
      isStreaming := true;
      ResetOnGoingConv();
    }

    method OnEvent(run: RunId, id: Option<string>, text: string)
      modifies this`onGoingConv, this`runLastSeq
      ensures activeRunId != Some(run) ==> onGoingConv == old(onGoingConv) && runLastSeq == old(runLastSeq)
      ensures activeRunId == Some(run) ==>
        var named, seqId := id.Some? && id.value != "", RunDelivery.NormalizeRunSeq(id);
        var late := named && !RunDelivery.Later(seqId, RunDelivery.NormalizeRunSeq(Some(old(runLastSeq))));
        && runLastSeq == (if named && !late then seqId else old(runLastSeq))
        && onGoingConv == if late then old(onGoingConv) else old(onGoingConv) + [Chunk(run, GivenMoment(id), text)]
      ensures View() == old(View()).After(Receive(run, GivenMoment(id), text))
    {
      hide MomentOf, Unsent;
      NormalizedMoment(id);
      LaterMoment(id, runLastSeq);
      if activeRunId != Some(run) {
        return;
      }
      if id.Some? && id.value != "" {
        var incomingSeq := RunDelivery.NormalizeRunSeq(id);
        if RunDelivery.CompareRunSeq(incomingSeq, RunDelivery.NormalizeRunSeq(Some(runLastSeq))) <= 0 {
          return;
        }
        runLastSeq := incomingSeq;
      }
      onGoingConv := onGoingConv + [Chunk(run, GivenMoment(id), text)];
    }

    method SettleThreadAfterTerminal(run: Option<RunId>)
      modifies this`settling, this`nextCallback
      ensures View() == old(View()).Awaiting(run)
    {
      hide MomentOf, Unsent;
      settling := settling[nextCallback := run];
      nextCallback := nextCallback + 1;
    }

    method FinalizeRunStream(run: Option<RunId>, expected: Option<RunId>, interrupted: bool) returns (effective: bool)
      modifies this`activeRunId, this`isStreaming, this`runLastSeq, this`pendingInterrupt, this`settling, this`nextCallback
      ensures !effective ==> View() == old(View())
      ensures effective ==> !isStreaming && settling == old(settling)[old(nextCallback) := run]
      ensures effective ==>
        var concerned := run.None? || old(pendingInterrupt.Some? && pendingInterrupt.value.Concerns(run.value));
        var waits := interrupted && run.Some? && concerned;
        && activeRunId == (if waits then run else None)
        && pendingInterrupt == (if concerned && !waits then None else old(pendingInterrupt))
        && runLastSeq == if run.None? then RunDelivery.ORIGIN else old(runLastSeq)
      ensures View() == old(View()).Settled(run, expected, interrupted)
      ensures effective == (old(activeRunId) == expected)
    {
      hide MomentOf, Unsent;
      if activeRunId != expected {
        return false;
      }
      var isInterrupted := interrupted && run.Some? && View().InterruptedFor(run.value);
      isStreaming := false;
      if run.None? {
        runLastSeq := RunDelivery.ORIGIN;
        OriginMoment();
      }
      if isInterrupted {
        activeRunId := run;
      } else {
        activeRunId := None;
        if run.None? || View().InterruptedFor(run.value) {
          pendingInterrupt := None;
        }
      }
      SettleThreadAfterTerminal(run);
      return true;
    }

    method PreserveInterruptedRun(run: RunId, snapshot: Option<string>)
      modifies this`activeRunId, this`isStreaming, this`runLastSeq
      ensures activeRunId == Some(run) && !isStreaming
      ensures runLastSeq == RunDelivery.NormalizeRunSeq(
                              if snapshot.Some? && snapshot.value != "" then snapshot else Some(old(runLastSeq)))
      ensures View() == old(View()).After(Preserve(run, GivenMoment(snapshot)))
    {
      hide MomentOf, GivenMoment, Unsent, RunDelivery.NormalizeRunSeq;
      SnapshotMoment(snapshot, runLastSeq);
      activeRunId := Some(run);
      var seqId := if snapshot.Some? && snapshot.value != "" then snapshot.value else runLastSeq;
      runLastSeq := RunDelivery.NormalizeRunSeq(Some(seqId));
      isStreaming := false;
    }

    /** The page came back and asked about the run that was active; the answer is that it has ended. */
    method ResumeFoundTerminal(run: RunId)
      modifies this
      ensures runStreamAbortController == None && aborted == old(aborted + Open())
      ensures
        if old(activeRunId) == Some(run) then activeRunId == None && !isStreaming
        else activeRunId == old(activeRunId) && isStreaming == old(isStreaming) && settling == old(settling)
      ensures View() == old(View()).After(StopAndSettle(run))
    {
      hide MomentOf, Unsent;
      StopRunStreamSubscription();
      var _ := FinalizeRunStream(Some(run), Some(run), false);
    }

    method ResumeFoundInterrupted(run: RunId, snapshot: Option<string>)
      modifies this
      ensures activeRunId == Some(run)
      ensures
        if old(pendingInterrupt.Some? && pendingInterrupt.value.Concerns(run))
        then !isStreaming && runStreamAbortController == None && onGoingConv == old(onGoingConv)
        else isStreaming && runStreamAbortController == Some(old(nextSubscription)) && onGoingConv == []
      ensures View() == old(View()).After(
                          if old(View()).InterruptedFor(run) then StopAndPreserve(run, GivenMoment(snapshot)) else Restart(run))
    {
      hide MomentOf, Unsent;
      StoppedTwice(View());
      assert View().InterruptedFor(run) <==> pendingInterrupt.Some? && pendingInterrupt.value.Concerns(run);
      hide Thread.Stopped, Thread.Cleared, Thread.Started, Thread.Preserved, Thread.InterruptedFor, Thread.Settled,
           Thread.CalledBack, Thread.Received, Thread.StreamReturned, Thread.MessageSent, Thread.Accepted, Interrupt.Concerns,
           GivenMoment;
      StopRunStreamSubscription();
      if View().InterruptedFor(run) {
        PreserveInterruptedRun(run, snapshot);
      } else {
        RestartRunStream(run);
      }
    }

    method OnSettled(id: CallbackId)
      requires id in settling
      modifies this`settling, this`onGoingConv, this`runStreamAbortController, this`aborted
      ensures settling == old(settling) - {id}
      ensures
        if activeRunId.None? || activeRunId == old(settling)[id]
        then onGoingConv == [] && runStreamAbortController == None && aborted == old(aborted + Open())
        else onGoingConv == old(onGoingConv) && runStreamAbortController == old(runStreamAbortController)
      ensures View() == old(View()).After(Callback(id))
    {
      hide MomentOf, Unsent;
      var run := settling[id];
      settling := settling - {id};
      if activeRunId.None? || activeRunId == run {
        ResetOnGoingConv();
      }
    }

    method OnStreamReturned(subscription: SubscriptionId)
      requires subscription < nextSubscription
      modifies this`finished, this`runStreamAbortController, this`isStreaming
      ensures finished == old(finished) + {subscription}
      ensures runStreamAbortController ==
        if old(runStreamAbortController) == Some(subscription) then None else old(runStreamAbortController)
      ensures isStreaming == (activeRunId.Some? && old(isStreaming))
      ensures View() == old(View()).After(StreamDone(subscription))
    {
      hide MomentOf, Unsent;
      finished := finished + {subscription};
      if runStreamAbortController == Some(subscription) {
        runStreamAbortController := None;
      }
      if activeRunId.None? {
        isStreaming := false;
      }
    }
  }
}
