/** Who deletes for whom: the workers of a quiescing caller and the passes of the reaper, and that time only ticks. */
module LifecycleCrew {
  import opened Counting
  import opened Wrappers
  import opened OperationPins
  import opened Inventory
  import opened Lifecycle
  import opened LifecycleInvariant

  /** A worker of this caller that has not finished. */
  predicate WorksFor(th: Thread, owner: Tid) {
    HasDeletion(th) && th.d.who == QuiesceWorker(owner)
  }

  // ---- At most so many at a time ----------------------------------------------------------------------

  lemma {:induction false} LocalBusy(config: Config, sh: Shared, th: Thread, fails: bool, owner: Tid)
    requires Runnable(th)
    ensures WorksFor(LocalStep(config, sh, th, fails).thread, owner) ==> WorksFor(th, owner) && !th.Queued?
    ensures !LocalStep(config, sh, th, fails).thread.Queued?
  {
  }

  lemma {:induction false} WokenWorks(th: Thread, p: bool, g: bool, owner: Tid)
    ensures WorksFor(Woken(th, p, g), owner) <==> WorksFor(th, owner)
    ensures Woken(th, p, g).Queued? <==> th.Queued?
    ensures th.Joining? || th.Quiesced? ==> Woken(th, p, g) == th
  {
  }

  /** A thread's own step makes no worker busy that was not. */
  lemma {:induction false} StepMakesNoneBusy(s: State, t: Tid, fails: bool, owner: Tid, w: Tid)
    requires Enabled(s, Step(t, fails)) && w in After(s, Step(t, fails)).threads
    requires WorksFor(After(s, Step(t, fails)).threads[w], owner)
    ensures w in s.threads && WorksFor(s.threads[w], owner)
    ensures After(s, Step(t, fails)).threads[w].Queued? <==> s.threads[w].Queued?
  {
    hide LocalStep, Woken, WorksFor;
    assert w in s.threads;
    var e := LocalStep(s.config, s.shared, s.threads[t], fails);
    AfterStep(s, t, fails, w);
    LocalBusy(s.config, s.shared, s.threads[t], fails, owner);
    WokenWorks(if w == t then e.thread else s.threads[w], e.pinsNotified, e.gateNotified, owner);
  }

  lemma {:induction false} OtherBusy(s: State, a: Action, owner: Tid, w: Tid)
    requires Enabled(s, a) && !a.Step? && w in After(s, a).threads && WorksFor(After(s, a).threads[w], owner)
    ensures
      || (w in s.threads && After(s, a).threads[w] == s.threads[w])
      || (w in s.threads && a == StartWorker(w) && s.threads[w].Queued? && WorksFor(s.threads[w], owner))
      || (a.ListAll? && a.tid == owner && w in a.workers && w !in s.threads && After(s, a).threads[w].Queued?)
  {
    hide Occupied, Busy;
  }

  lemma {:induction false} BusyAfter(s: State, a: Action, owner: Tid, w: Tid)
    requires Enabled(s, a) && w in Busy(After(s, a).threads, owner)
    ensures w in Busy(s.threads, owner)
         || (a == StartWorker(w) && w in s.threads && s.threads[w].Queued? && s.threads[w].d.who == QuiesceWorker(owner))
  {
    hide After, Enabled;
    if a.Step? {
      StepMakesNoneBusy(s, a.tid, a.fails, owner, w);
    } else {
      OtherBusy(s, a, owner, w);
    }
  }

  lemma {:induction false} StepKeepsBound(s: State, a: Action, owner: Tid)
    requires Enabled(s, a) && |Busy(s.threads, owner)| <= s.config.deleteConcurrency
    ensures |Busy(After(s, a).threads, owner)| <= After(s, a).config.deleteConcurrency
  {
    var before, after := Busy(s.threads, owner), Busy(After(s, a).threads, owner);
    SameConfig(s, a);
    forall w | w in after ensures w in before || (a.StartWorker? && w == a.tid) {
      BusyAfter(s, a, owner, w);
    }
    if a.StartWorker? && a.tid in after && a.tid !in before {
      BusyAfter(s, a, owner, a.tid);
      StartsBelowBound(s, a.tid, owner);
      hide Busy, After, Enabled;
      SubsetCount(after, before + {a.tid});
    } else {
      hide Busy, After, Enabled;
      SubsetCount(after, before);
    }
  }

  lemma {:induction false} SameConfig(s: State, a: Action)
    requires Enabled(s, a)
    ensures After(s, a).config == s.config
  {
  }

  lemma {:induction false} StartsBelowBound(s: State, w: Tid, owner: Tid)
    requires Enabled(s, StartWorker(w)) && s.threads[w].d.who == QuiesceWorker(owner)
    ensures |Busy(s.threads, owner)| < s.config.deleteConcurrency
  {
  }

  /** In every state of every execution a quiescing caller has at most `deleteConcurrency` deletions running. */
  lemma {:induction false} DeletionsAreBounded(states: seq<State>, actions: seq<Action>, k: nat, owner: Tid)
    requires IsExecution(states, actions) && k < |states|
    ensures |Busy(states[k].threads, owner)| <= states[k].config.deleteConcurrency
  {
    if k == 0 {
      assert Busy(states[0].threads, owner) == {};
    } else {
      hide Initial, Busy, After, Enabled;
      DeletionsAreBounded(states, actions, k - 1, owner);
      assert Enabled(states[k - 1], actions[k - 1]);
      StepKeepsBound(states[k - 1], actions[k - 1], owner);
    }
  }

  // ---- One round after the other ----------------------------------------------------------------------

  /** The caller still waits for the worker, or gave up when the worker had left the queue. */
  predicate Backed(s: State, w: Tid, owner: Tid) {
    && owner in s.threads && w in s.threads
    && ((s.threads[owner].Joining? && w in s.threads[owner].workers)
        || (s.threads[owner] == Quiesced(false) && !s.threads[w].Queued?))
  }

  ghost predicate CrewBacked(s: State) {
    forall w, owner :: w in s.threads && WorksFor(s.threads[w], owner) ==> Backed(s, w, owner)
  }

  lemma {:induction false} StepBacks(s: State, t: Tid, fails: bool, w: Tid, owner: Tid)
    requires Enabled(s, Step(t, fails)) && w in s.threads && Backed(s, w, owner)
    requires w in After(s, Step(t, fails)).threads && WorksFor(After(s, Step(t, fails)).threads[w], owner)
    ensures Backed(After(s, Step(t, fails)), w, owner)
  {
    hide LocalStep, Woken, WorksFor;
    StepMakesNoneBusy(s, t, fails, owner, w);
    var e := LocalStep(s.config, s.shared, s.threads[t], fails);
    AfterStep(s, t, fails, owner);
    WokenWorks(s.threads[owner], e.pinsNotified, e.gateNotified, owner);
  }

  lemma {:induction false} OtherBacks(s: State, a: Action, w: Tid, owner: Tid)
    requires Enabled(s, a) && !a.Step? && CrewBacked(s)
    requires w in After(s, a).threads && WorksFor(After(s, a).threads[w], owner)
    ensures Backed(After(s, a), w, owner)
  {
    OtherBusy(s, a, owner, w);
    assert w in s.threads && WorksFor(s.threads[w], owner) ==> Backed(s, w, owner);
    hide Occupied, Busy, CrewBacked;
  }

  lemma {:induction false} CrewStaysBacked(states: seq<State>, actions: seq<Action>, k: nat)
    requires IsExecution(states, actions) && k < |states|
    ensures CrewBacked(states[k])
  {
    if k > 0 {
      CrewStaysBacked(states, actions, k - 1);
      var s, a, s' := states[k - 1], actions[k - 1], states[k];
      assert Enabled(s, a) && s' == After(s, a);
      hide After, Enabled, Backed, WorksFor;
      forall w, owner | w in s'.threads && WorksFor(s'.threads[w], owner) ensures Backed(s', w, owner) {
        if a.Step? {
          StepMakesNoneBusy(s, a.tid, a.fails, owner, w);
          StepBacks(s, a.tid, a.fails, w, owner);
        } else {
          OtherBacks(s, a, w, owner);
        }
      }
    }
  }

  /**
   While a quiescing caller drains, lists or has succeeded, none of its workers is unfinished: every round of
   deletions is over before the next listing. After it gave up, none of its workers is left in the queue.
   */
  lemma {:induction false} RoundsDoNotOverlap(states: seq<State>, actions: seq<Action>, k: nat, w: Tid, owner: Tid)
    requires IsExecution(states, actions) && k < |states|
    requires w in states[k].threads && owner in states[k].threads && WorksFor(states[k].threads[w], owner)
    ensures states[k].threads[owner].Joining? || states[k].threads[owner] == Quiesced(false)
    ensures states[k].threads[owner].Joining? ==> w in states[k].threads[owner].workers
    ensures states[k].threads[owner] == Quiesced(false) ==> !states[k].threads[w].Queued?
  {
    CrewStaysBacked(states, actions, k);
    assert Backed(states[k], w, owner);
  }

  /**
   The call returns ok exactly at a listing that finds nothing, after which it stays so; it lists again after
   each round, and giving up takes its workers out of the queue.
   */
  lemma {:induction false} CallerMovesOn(s: State, a: Action)
    requires Enabled(s, a) && (a.ListAll? || a.Join? || a.Abandon?)
    ensures
      var s' := After(s, a);
      && s'.shared == s.shared && a.tid in s'.threads
      && (a.ListAll? ==>
            s'.threads[a.tid] == if s.shared.catalog.records == map[] then Quiesced(true) else Joining(a.workers.Keys))
      && (a.ListAll? && s.shared.catalog.records != map[] ==> forall w :: w in a.workers ==> w in s'.threads && s'.threads[w].Queued?)
      && (a.Join? ==> s'.threads[a.tid] == Listing)
      && (a.Abandon? ==>
            && s'.threads[a.tid] == Quiesced(false)
            && forall w :: w in s.threads && s.threads[w].Queued? && WorksFor(s.threads[w], a.tid) ==>
                 w in s'.threads && s'.threads[w] == Done)
  {
    hide Occupied, Busy;
  }

  // ---- Why they delete --------------------------------------------------------------------------------

  /** The deletion starts here: a pass of the reaper that finds the entry idle for its whole timeout. */
  predicate StartsReaping(s: State, a: Action, t: Tid, d: Deletion) {
    && a == Spawn(t, Deleting(d)) && 0 < s.config.idleTimeout
    && d.id in s.shared.activity && s.shared.activity[d.id].at + s.config.idleTimeout <= s.shared.now
    && d.fence == match s.shared.activity[d.id].generation
                  case Some(g) => Named(g)
                  case None => Unfenced
  }

  /** The deletion starts here: a listing that finds the sandbox, of this generation. */
  predicate StartsWorker(s: State, a: Action, t: Tid, d: Deletion) {
    && d.who.QuiesceWorker? && a.ListAll? && a.tid == d.who.owner && t in a.workers && a.workers[t] == d.id
    && d.id in s.shared.catalog.records && d.fence == Named(s.shared.catalog.records[d.id].generation)
  }

  predicate Starts(s: State, a: Action, t: Tid, d: Deletion) {
    if d.who.Reaper? then StartsReaping(s, a, t, d)
    else if d.who.QuiesceWorker? then StartsWorker(s, a, t, d)
    else a == Spawn(t, Deleting(d))
  }

  predicate HasIt(s: State, t: Tid, d: Deletion) {
    t in s.threads && HasDeletion(s.threads[t]) && s.threads[t].d == d
  }

  lemma {:induction false} LocalDeletion(config: Config, sh: Shared, th: Thread, fails: bool)
    requires Runnable(th)
    ensures
      var next := LocalStep(config, sh, th, fails).thread;
      HasDeletion(next) ==> HasDeletion(th) && next.d == th.d
  {
  }

  lemma {:induction false} WokenHasIt(th: Thread, p: bool, g: bool)
    ensures HasDeletion(Woken(th, p, g)) ==> HasDeletion(th) && Woken(th, p, g).d == th.d
  {
  }

  lemma {:induction false} DeletionStep(s: State, a: Action, t: Tid, d: Deletion)
    requires Enabled(s, a) && HasIt(After(s, a), t, d)
    ensures HasIt(s, t, d) || Starts(s, a, t, d)
  {
    if a.Step? {
      hide LocalStep, After, Woken;
      var e := LocalStep(s.config, s.shared, s.threads[a.tid], a.fails);
      assert t in s.threads by { StepAddsNobody(s, a.tid, a.fails, t); }
      AfterStep(s, a.tid, a.fails, t);
      LocalDeletion(s.config, s.shared, s.threads[a.tid], a.fails);
      WokenHasIt(if t == a.tid then e.thread else s.threads[t], e.pinsNotified, e.gateNotified);
    } else {
      hide Occupied, Busy;
    }
  }

  lemma {:induction false} StepAddsNobody(s: State, t: Tid, fails: bool, u: Tid)
    requires Enabled(s, Step(t, fails)) && u in After(s, Step(t, fails)).threads
    ensures u in s.threads
  {
    hide LocalStep;
  }

  /** In every execution whoever deletes has started for its reason: a request, an entry found idle, a record listed. */
  lemma {:induction false} DeletionsHaveAReason(states: seq<State>, actions: seq<Action>, k: nat, t: Tid, d: Deletion)
    returns (j: nat)
    requires IsExecution(states, actions) && k < |states| && HasIt(states[k], t, d)
    ensures j < k && Starts(states[j], actions[j], t, d)
  {
    if k == 0 {
      assert false;
    } else {
      hide Enabled, After, HasIt, Starts;
      assert Enabled(states[k - 1], actions[k - 1]) && states[k] == After(states[k - 1], actions[k - 1]);
      DeletionStep(states[k - 1], actions[k - 1], t, d);
      if Starts(states[k - 1], actions[k - 1], t, d) {
        j := k - 1;
      } else {
        j := DeletionsHaveAReason(states, actions, k - 1, t, d);
      }
    }
  }

  // ---- Time -------------------------------------------------------------------------------------------

  function Elapsed(actions: seq<Action>, k: nat): nat
    requires k <= |actions|
  {
    if k == 0 then 0 else Elapsed(actions, k - 1) + if actions[k - 1].Tick? then actions[k - 1].elapsed else 0
  }

  /** The clock shows what has ticked, and nothing else moves it. */
  lemma {:induction false} TimeOnlyTicks(states: seq<State>, actions: seq<Action>, k: nat)
    requires IsRun(states, actions) && k < |states|
    ensures states[k].shared.now == states[0].shared.now + Elapsed(actions, k)
  {
    if k > 0 {
      TimeOnlyTicks(states, actions, k - 1);
      assert Enabled(states[k - 1], actions[k - 1]);
    }
  }
}
