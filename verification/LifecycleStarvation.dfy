/**
 One proxied request more than there are workers, and one delete of the same sandbox, suffice to stop
 the provisioner for good, whatever its configuration.  The bound of `NoDeadlock` is exact.
 */
module LifecycleStarvation {
  import opened OperationPins
  import opened Inventory
  import opened Lifecycle
  import opened LifecyclePool
  import opened LifecycleProgress
  import opened LifecycleReach

  // ---- Steps that notify nobody ----------------------------------------------------------------------

  lemma {:induction false} NobodyWakes(threads: map<Tid, Thread>)
    ensures WakeAll(threads, false, false) == threads
  {
  }

  lemma {:induction false} QuietStep(s: State, t: Tid, sh: Shared, th: Thread)
    requires t in s.threads && Runnable(s.threads[t])
    requires LocalStep(s.config, s.shared, s.threads[t], false) == Quiet(sh, th)
    ensures
      Reaches(s, s.(shared := sh, threads := s.threads[t := th], queue := if IsJob(th) then s.queue + [t] else s.queue))
  {
    ReachesAfter(s, Step(t, false));
    NobodyWakes(s.threads[t := th]);
    hide LocalStep, WakeAll, Reaches, Runnable;
  }

  lemma {:induction false} JobStarts(s: State, t: Tid)
    requires Enabled(s, StartJob(t))
    ensures Reaches(s, s.(threads := s.threads[t := Started(s.threads[t])], queue := s.queue[1..]))
  {
    ReachesAfter(s, StartJob(t));
    hide Enabled, Reaches;
  }

  // ---- The requests arrive -------------------------------------------------------------------------

  function Numbers(n: nat): (r: set<Tid>)
    ensures |r| == n && forall t: Tid :: t in r <==> t < n
  {
    if n == 0 then {} else Numbers(n - 1) + {n - 1}
  }

  function Requests(who: set<Tid>, id: SandboxId): map<Tid, Thread> {
    map t | t in who :: Submitted(id)
  }

  /** The first `n` requests have been submitted, in their order. */
  function Arrived(s: State, id: SandboxId, n: nat): State {
    s.(threads := Requests(Numbers(n), id), queue := seq(n, i => i))
  }

  lemma {:induction false} RequestsArrive(s: State, id: SandboxId, n: nat)
    requires s.threads == map[] && s.queue == []
    ensures Reaches(s, Arrived(s, id, n))
  {
    if n == 0 {
      assert Arrived(s, id, n).threads == s.threads && Arrived(s, id, n).queue == s.queue;
      assert Arrived(s, id, n) == s;
      ReachesSelf(s);
    } else {
      RequestsArrive(s, id, n - 1);
      var m := Arrived(s, id, n - 1);
      var a := Spawn(n - 1, Submitted(id));
      ArrivalStep(s, id, n);
      ReachesAfter(m, a);
      ReachesOn(s, m, After(m, a));
    }
  }

  lemma {:induction false} ArrivalStep(s: State, id: SandboxId, n: nat)
    requires n > 0
    ensures Enabled(Arrived(s, id, n - 1), Spawn(n - 1, Submitted(id)))
    ensures After(Arrived(s, id, n - 1), Spawn(n - 1, Submitted(id))) == Arrived(s, id, n)
  {
    var s', e := After(Arrived(s, id, n - 1), Spawn(n - 1, Submitted(id))), Arrived(s, id, n);
    assert s'.threads == e.threads;
    assert s'.queue == e.queue;
  }

  // ---- One of them gets its pin, and a delete begins --------------------------------------------------

  function Request(s: State, id: SandboxId): Deletion {
    Deletion(Api, id, Unfenced, s.shared.catalog.next)
  }

  function Crowd(who: set<Tid>, id: SandboxId, d: Deletion, last: nat, n: nat): map<Tid, Thread> {
    map t | t in who ::
      if t == 0 then Discovering(id)
      else if t <= n then AwaitingPin(Proxy, id)
      else if t <= last then Submitted(id)
      else AwaitingDrain(d)
  }

  /**
   Request 0 holds its pin and waits for its lookup, requests 1 to `n` have found the sandbox marked,
   the others up to `last` wait for their pins, and the deleter waits for the one pin.
   */
  function Crowded(s: State, id: SandboxId, last: nat, n: nat): State
    requires n <= last
  {
    s.(shared := s.shared.(pins := PinTable(map[id := 1], {id})),
       threads := Crowd(Numbers(last + 2), id, Request(s, id), last, n),
       queue := seq(last - n, i => n + 1 + i) + [0])
  }

  /** Request 0 holds the only pin and waits for its lookup; the others up to `last` wait for theirs. */
  function FirstPinned(s: State, id: SandboxId, last: nat): State {
    s.(shared := s.shared.(pins := PinTable(map[id := 1], {})),
       threads := Requests(Numbers(last + 1), id)[0 := Discovering(id)],
       queue := seq(last, i => 1 + i) + [0])
  }

  lemma {:induction false} FirstIsPinned(s: State, id: SandboxId, last: nat)
    requires s.shared.pins == NO_PINS && 1 <= s.config.workers
    ensures Reaches(Arrived(s, id, last + 1), FirstPinned(s, id, last))
  {
    var s0 := Arrived(s, id, last + 1);
    assert Occupied(s0.threads) == {};
    assert s0.queue[0] == 0 && s0.threads[0] == Submitted(id);
    assert s0.queue[1..] == seq(last, i => 1 + i);
    JobStarts(s0, 0);
    FirstGetsItsPin(s, id, last);
    var s1 := s0.(threads := s0.threads[0 := Acquiring(Proxy, id)], queue := seq(last, i => 1 + i));
    ReachesOn(s0, s1, FirstPinned(s, id, last));
    hide Reaches, Requests, Enabled, Occupied;
  }

  lemma {:induction false} FirstGetsItsPin(s: State, id: SandboxId, last: nat)
    requires s.shared.pins == NO_PINS
    ensures
      var s1 := s.(threads := Requests(Numbers(last + 1), id)[0 := Acquiring(Proxy, id)], queue := seq(last, i => 1 + i));
      Reaches(s1, FirstPinned(s, id, last))
  {
    var s1 := s.(threads := Requests(Numbers(last + 1), id)[0 := Acquiring(Proxy, id)], queue := seq(last, i => 1 + i));
    var sh := s.shared.(pins := PinTable(map[id := 1], {}));
    assert s.shared.pins.Acquired(id) == sh.pins by {
      assert map[][id := 1] == map[id := 1];
    }
    QuietStep(s1, 0, sh, Discovering(id));
    assert s1.threads[0 := Discovering(id)] == FirstPinned(s, id, last).threads;
    hide Reaches, LocalStep;
  }

  /** The deleter arrives at an unmarked sandbox with one pin, marks it and waits. */
  lemma {:induction false} DeleterMarks(m: State, d: Tid, r: Deletion)
    requires d !in m.threads && r == Deletion(Api, r.id, Unfenced, m.shared.catalog.next)
    ensures Reaches(m, m.(shared := m.shared.(pins := m.shared.pins.Marked(r.id)), threads := m.threads[d := Draining(r)]))
  {
    var m1 := m.(threads := m.threads[d := Deleting(r)]);
    assert m1 == After(m, Spawn(d, Deleting(r)));
    ReachesAfter(m, Spawn(d, Deleting(r)));
    var sh := m.shared.(pins := m.shared.pins.Marked(r.id));
    assert m1.threads[d := Draining(r)] == m.threads[d := Draining(r)];
    QuietStep(m1, d, sh, Draining(r));
    ReachesOn(m, m1, m.(shared := sh, threads := m.threads[d := Draining(r)]));
    hide Reaches, LocalStep, PinTable.Marked;
  }

  lemma {:induction false} DeleterParks(m: State, th: map<Tid, Thread>, d: Tid, r: Deletion)
    requires m.threads == th[d := Draining(r)] && m.shared.pins.Count(r.id) > 0
    ensures Reaches(m, m.(threads := th[d := AwaitingDrain(r)]))
  {
    assert m.threads[d := AwaitingDrain(r)] == th[d := AwaitingDrain(r)];
    QuietStep(m, d, m.shared, AwaitingDrain(r));
    hide Reaches;
  }

  lemma {:induction false} DeleterWaits(s: State, id: SandboxId, last: nat)
    ensures Reaches(FirstPinned(s, id, last), Crowded(s, id, last, 0))
  {
    var m, e := FirstPinned(s, id, last), Crowded(s, id, last, 0);
    var d, r := last + 1, Request(s, id);
    assert d !in m.threads && m.shared.catalog == s.shared.catalog;
    assert e.shared == m.shared.(pins := m.shared.pins.Marked(id)) && e.shared.pins.Count(id) > 0;
    var m2 := m.(shared := e.shared, threads := m.threads[d := Draining(r)]);
    CrowdAtFirst(s, id, last);
    hide Reaches, FirstPinned, Crowded, PinTable.Count, PinTable.Marked;
    DeleterMarks(m, d, r);
    DeleterParks(m2, m.threads, d, r);
    ReachesOn(m, m2, e);
  }

  lemma {:induction false} CrowdAtFirst(s: State, id: SandboxId, last: nat)
    ensures Crowded(s, id, last, 0) == FirstPinned(s, id, last).(
              shared := Crowded(s, id, last, 0).shared,
              threads := FirstPinned(s, id, last).threads[last + 1 := AwaitingDrain(Request(s, id))])
  {
    assert Crowded(s, id, last, 0).threads == FirstPinned(s, id, last).threads[last + 1 := AwaitingDrain(Request(s, id))];
    assert Crowded(s, id, last, 0).queue == FirstPinned(s, id, last).queue;
  }

  // ---- The others take the workers ---------------------------------------------------------------------

  lemma {:induction false} CrowdOccupies(s: State, id: SandboxId, last: nat, n: nat)
    requires n <= last
    ensures Occupied(Crowded(s, id, last, n).threads) == Numbers(n + 1) - {0}
    ensures |Occupied(Crowded(s, id, last, n).threads)| == n
  {
    assert Occupied(Crowded(s, id, last, n).threads) == Numbers(n + 1) - {0};
  }

  lemma {:induction false} CrowdChanges(s: State, id: SandboxId, last: nat, n: nat)
    requires n < last
    ensures
      var c, e := Crowded(s, id, last, n), Crowded(s, id, last, n + 1);
      && c.queue == [n + 1] + e.queue
      && n + 1 in c.threads && c.threads[n + 1] == Submitted(id)
      && e.threads == c.threads[n + 1 := AwaitingPin(Proxy, id)]
      && e == c.(threads := e.threads, queue := e.queue)
      && id in c.shared.pins.deleting
  {
  }

  lemma {:induction false} FreeWorkerTakesJob(s: State, t: Tid, rest: seq<Tid>)
    requires s.queue == [t] + rest && t in s.threads && IsJob(s.threads[t]) && |Occupied(s.threads)| < s.config.workers
    ensures Enabled(s, StartJob(t))
  {
    hide Occupied;
  }

  lemma {:induction false} CrowdHasRoom(s: State, id: SandboxId, last: nat, n: nat)
    requires n < last <= s.config.workers
    ensures Enabled(Crowded(s, id, last, n), StartJob(n + 1))
  {
    assert Crowded(s, id, last, n).config == s.config && IsJob(Submitted(id));
    hide *;
    CrowdOccupies(s, id, last, n);
    CrowdChanges(s, id, last, n);
    FreeWorkerTakesJob(Crowded(s, id, last, n), n + 1, Crowded(s, id, last, n + 1).queue);
  }

  lemma {:induction false} MarkedSandboxParks(config: Config, sh: Shared, id: SandboxId)
    requires id in sh.pins.deleting
    ensures LocalStep(config, sh, Acquiring(Proxy, id), false) == Quiet(sh, AwaitingPin(Proxy, id))
  {
  }

  lemma {:induction false} CrowdGrows(s: State, id: SandboxId, last: nat, n: nat)
    requires n < last <= s.config.workers
    ensures Reaches(Crowded(s, id, last, n), Crowded(s, id, last, n + 1))
  {
    var c, t, e := Crowded(s, id, last, n), n + 1, Crowded(s, id, last, n + 1);
    hide Crowded, Occupied, Reaches, Enabled, LocalStep;
    CrowdHasRoom(s, id, last, n);
    CrowdChanges(s, id, last, n);
    JobStarts(c, t);
    var c1 := c.(threads := c.threads[t := Acquiring(Proxy, id)], queue := e.queue);
    MarkedSandboxParks(c.config, c.shared, id);
    QuietStep(c1, t, c.shared, AwaitingPin(Proxy, id));
    assert c1.threads[t := AwaitingPin(Proxy, id)] == e.threads;
    ReachesOn(c, c1, e);
  }

  lemma {:induction false} CrowdTakesAll(s: State, id: SandboxId, last: nat, n: nat)
    requires n <= last <= s.config.workers
    ensures Reaches(Crowded(s, id, last, n), Crowded(s, id, last, last))
    decreases last - n
  {
    if n == last {
      ReachesSelf(Crowded(s, id, last, n));
    } else {
      CrowdGrows(s, id, last, n);
      CrowdTakesAll(s, id, last, n + 1);
      ReachesOn(Crowded(s, id, last, n), Crowded(s, id, last, n + 1), Crowded(s, id, last, last));
    }
  }

  // ---- Nothing moves any more -----------------------------------------------------------------------------

  lemma {:induction false} CrowdIsHeldUp(s: State, id: SandboxId, last: nat, n: nat)
    requires n <= last
    ensures HeldUp(Crowded(s, id, last, n), id)
  {
    var e := Crowded(s, id, last, n);
    assert 0 in e.threads && e.threads[0] == Discovering(id);
  }

  lemma {:induction false} CrowdMembers(s: State, id: SandboxId, last: nat, t: Tid)
    requires t in Crowded(s, id, last, last).threads
    ensures
      var th := Crowded(s, id, last, last).threads[t];
      || th == Discovering(id)
      || th == AwaitingDrain(Request(s, id))
      || (th == AwaitingPin(Proxy, id) && WaitsFor(th, id))
    ensures t in Occupied(Crowded(s, id, last, last).threads) <==> Crowded(s, id, last, last).threads[t].AwaitingPin?
  {
  }

  lemma {:induction false} CrowdStarves(s: State, id: SandboxId)
    ensures Starving(Crowded(s, id, s.config.workers, s.config.workers))
  {
    var w := s.config.workers;
    var e := Crowded(s, id, w, w);
    CrowdOccupies(s, id, w, w);
    CrowdIsHeldUp(s, id, w, w);
    assert e.config == s.config && forall t :: t in Occupied(e.threads) ==> t in e.threads;
    hide HeldUp, Crowded, Occupied, WaitsFor;
    forall t | t in Occupied(e.threads) ensures WaitsFor(e.threads[t], e.threads[t].id) && HeldUp(e, e.threads[t].id) {
      CrowdMembers(s, id, w, t);
    }
  }

  lemma {:induction false} StalledThreadHasNoStep(s: State, a: Action)
    requires IsProgress(a) && |Occupied(s.threads)| >= s.config.workers
    requires a.tid in s.threads ==> IsJob(s.threads[a.tid]) || Parked(s.threads[a.tid])
    ensures !Enabled(s, a)
  {
    hide QueuesListing, Occupied;
  }

  lemma {:induction false} CrowdIsStuck(s: State, id: SandboxId)
    ensures !CanProgress(Crowded(s, id, s.config.workers, s.config.workers))
  {
    var w := s.config.workers;
    var e := Crowded(s, id, w, w);
    CrowdOccupies(s, id, w, w);
    assert e.config == s.config;
    hide Crowded, Occupied, WaitsFor, Enabled;
    forall a | IsProgress(a) ensures !Enabled(e, a) {
      if a.tid in e.threads {
        CrowdMembers(s, id, w, a.tid);
      }
      StalledThreadHasNoStep(e, a);
    }
  }

  lemma {:induction false} CrowdSize(s: State, id: SandboxId)
    ensures
      var e := Crowded(s, id, s.config.workers, s.config.workers);
      |InPool(e.threads)| == s.config.workers + 1 && e.threads.Keys == Numbers(s.config.workers + 2)
  {
    var w := s.config.workers;
    var e := Crowded(s, id, w, w);
    assert InPool(e.threads) == Numbers(w + 1);
  }

  lemma {:induction false} CrowdIsReached(s: State, id: SandboxId)
    requires Initial(s)
    ensures Reaches(s, Crowded(s, id, s.config.workers, s.config.workers))
  {
    var w := s.config.workers;
    assert s.shared.pins == NO_PINS && 1 <= w && s.threads == map[] && s.queue == [];
    hide Initial, Crowded, Arrived, FirstPinned, Reaches;
    RequestsArrive(s, id, w + 1);
    FirstIsPinned(s, id, w);
    DeleterWaits(s, id, w);
    CrowdTakesAll(s, id, w, 0);
    ReachesOn(s, Arrived(s, id, w + 1), FirstPinned(s, id, w));
    ReachesOn(s, FirstPinned(s, id, w), Crowded(s, id, w, 0));
    ReachesOn(s, Crowded(s, id, w, 0), Crowded(s, id, w, w));
  }

  /**
   From every start-up state, for every sandbox: `workers + 1` proxied requests and one delete lead to a
   starving state, in which nothing moves ever again.
   */
  lemma {:induction false} OneTooManyStarves(s: State, id: SandboxId) returns (s': State, d: Tid)
    requires Initial(s)
    ensures Reaches(s, s') && Starving(s') && !CanProgress(s')
    ensures |InPool(s'.threads)| == s.config.workers + 1
    ensures d in s'.threads && s'.threads[d].AwaitingDrain? && s'.threads[d].d.id == id
    ensures forall t :: t in s'.threads && t != d ==> t in InPool(s'.threads)
  {
    s' := Crowded(s, id, s.config.workers, s.config.workers);
    d := s.config.workers + 1;
    CrowdIsReached(s, id);
    CrowdStarves(s, id);
    CrowdIsStuck(s, id);
    CrowdSize(s, id);
    hide Starving, CanProgress, Reaches, Initial;
  }

  /** Whoever deletes a sandbox that a starved worker waits for never gets to own it. */
  lemma {:induction false} StarvedDeletesNeverRun(states: seq<State>, actions: seq<Action>, i: nat, j: nat, t: Tid, d: Tid)
    requires IsExecution(states, actions) && i <= j < |states| && Starving(states[i])
    requires t in Occupied(states[i].threads) && d in states[j].threads
    ensures !Owns(states[j].threads[d], states[i].threads[t].id)
  {
    StarvationIsForever(states, actions, i, j);
    assert t in Occupied(states[j].threads);
    assert HeldUp(states[j], states[i].threads[t].id);
  }
}
