/** What the operations and the deleters of the provisioner tell their callers, and what they leave behind. */
module LifecycleAnswers {
  import opened Wrappers
  import opened OperationPins
  import opened Inventory
  import opened Lifecycle
  import opened LifecycleInvariant
  import opened LifecycleQuiescence

  // ---- Operations -----------------------------------------------------------------------------------

  /** The operation goes on with this generation of the sandbox, or answers with it. */
  predicate Knows(th: Thread, id: SandboxId, g: Generation) {
    || ((th.Sending? || th.Resolving? || th.Looking? || th.Marking? || th.Reporting?) && th.id == id && th.generation == g)
    || ((th.Releasing? || th.Closing?) && th.id == id && th.found == Some(g))
  }

  /** The operation is about to answer that there is nothing. */
  predicate Misses(th: Thread, op: Operation, id: SandboxId) {
    th == Releasing(op, id, None)
  }

  /** The thread's own step, with the sandbox of this generation in the inventory. */
  predicate FindsLive(s: State, a: Action, s': State, t: Tid, id: SandboxId, g: Generation) {
    && a == Step(t, false) && t in s.threads && s.threads[t].Calling? && s.threads[t].id == id
    && Lives(s', id, g) && (!s.threads[t].op.Create? ==> Lives(s, id, g))
  }

  /** The thread's own step failed, found no such sandbox, or found one with another work directory. */
  predicate HasReason(s: State, a: Action, t: Tid, op: Operation, id: SandboxId) {
    && a.Step? && a.tid == t
    && (|| a.fails
        || (if op.Create? then id in s.shared.catalog.records && s.shared.catalog.records[id].workdir != op.workdir
            else id !in s.shared.catalog.records))
  }

  lemma {:induction false} LocalKnowledge(config: Config, sh: Shared, th: Thread, fails: bool, id: SandboxId, g: Generation)
    requires Runnable(th)
    ensures
      var e := LocalStep(config, sh, th, fails);
      Knows(e.thread, id, g) ==>
        || Knows(th, id, g)
        || (&& th.Calling? && th.id == id && !fails
            && id in e.shared.catalog.records && e.shared.catalog.records[id].generation == g
            && (!th.op.Create? ==> id in sh.catalog.records && sh.catalog.records[id].generation == g))
  {
  }

  lemma {:induction false} LocalMiss(config: Config, sh: Shared, th: Thread, fails: bool, op: Operation, id: SandboxId)
    requires Runnable(th)
    ensures
      var e := LocalStep(config, sh, th, fails);
      Misses(e.thread, op, id) ==>
        || fails
        || (if op.Create? then id in sh.catalog.records && sh.catalog.records[id].workdir != op.workdir
            else id !in sh.catalog.records)
  {
  }

  lemma {:induction false} WakingTeachesNothing(th: Thread, p: bool, g: bool)
    ensures Woken(th, p, g) == th || Woken(th, p, g).Acquiring? || Woken(th, p, g).Draining? || Woken(th, p, g).GateDraining?
  {
  }

  lemma {:induction false} KnowledgeStep(s: State, a: Action, t: Tid, id: SandboxId, g: Generation)
    requires Enabled(s, a) && t in After(s, a).threads && Knows(After(s, a).threads[t], id, g)
    ensures (t in s.threads && Knows(s.threads[t], id, g)) || FindsLive(s, a, After(s, a), t, id, g)
  {
    if a.Step? {
      hide LocalStep, After, Woken;
      var e := LocalStep(s.config, s.shared, s.threads[a.tid], a.fails);
      AfterStep(s, a.tid, a.fails, t);
      LocalKnowledge(s.config, s.shared, s.threads[a.tid], a.fails, id, g);
      WakingTeachesNothing(if t == a.tid then e.thread else s.threads[t], e.pinsNotified, e.gateNotified);
    } else {
      hide LocalStep, WakeAll, Occupied, Busy;
    }
  }

  lemma {:induction false} MissStep(s: State, a: Action, t: Tid, op: Operation, id: SandboxId)
    requires Enabled(s, a) && t in After(s, a).threads && Misses(After(s, a).threads[t], op, id)
    ensures (t in s.threads && Misses(s.threads[t], op, id)) || HasReason(s, a, t, op, id)
  {
    if a.Step? {
      hide LocalStep, After, Woken;
      var e := LocalStep(s.config, s.shared, s.threads[a.tid], a.fails);
      AfterStep(s, a.tid, a.fails, t);
      LocalMiss(s.config, s.shared, s.threads[a.tid], a.fails, op, id);
      WakingTeachesNothing(if t == a.tid then e.thread else s.threads[t], e.pinsNotified, e.gateNotified);
    } else {
      hide LocalStep, WakeAll, Occupied, Busy;
    }
  }

  /** Whatever generation an operation goes on with or reports, the inventory held it at the operation's own call. */
  lemma {:induction false} AnswersWereTrue(
      states: seq<State>, actions: seq<Action>, k: nat, t: Tid, id: SandboxId, g: Generation) returns (j: nat)
    requires IsExecution(states, actions) && k < |states|
    requires t in states[k].threads && Knows(states[k].threads[t], id, g)
    ensures j < k && FindsLive(states[j], actions[j], states[j + 1], t, id, g)
  {
    hide Enabled, After, Knows, FindsLive;
    if k == 0 {
      assert false;
    } else {
      assert Enabled(states[k - 1], actions[k - 1]) && states[k] == After(states[k - 1], actions[k - 1]);
      KnowledgeStep(states[k - 1], actions[k - 1], t, id, g);
      if FindsLive(states[k - 1], actions[k - 1], states[k], t, id, g) {
        j := k - 1;
      } else {
        j := AnswersWereTrue(states, actions, k - 1, t, id, g);
      }
    }
  }

  /** An operation answers that there is nothing only for a call that failed, or a sandbox missing or asked for otherwise. */
  lemma {:induction false} MissesHaveAReason(
      states: seq<State>, actions: seq<Action>, k: nat, t: Tid, op: Operation, id: SandboxId) returns (j: nat)
    requires IsExecution(states, actions) && k < |states|
    requires t in states[k].threads && Misses(states[k].threads[t], op, id)
    ensures j < k && HasReason(states[j], actions[j], t, op, id)
  {
    hide Enabled, After, Misses, HasReason;
    if k == 0 {
      assert false;
    } else {
      assert Enabled(states[k - 1], actions[k - 1]) && states[k] == After(states[k - 1], actions[k - 1]);
      MissStep(states[k - 1], actions[k - 1], t, op, id);
      if HasReason(states[k - 1], actions[k - 1], t, op, id) {
        j := k - 1;
      } else {
        j := MissesHaveAReason(states, actions, k - 1, t, op, id);
      }
    }
  }

  // ---- Deleters -------------------------------------------------------------------------------------

  /** The step is the deleter's call to the inventory. */
  predicate CallsDelete(s: State, a: Action, d: Deletion) {
    && a.Step? && a.tid in s.threads
    && ((s.threads[a.tid] == Owning(d) && !d.who.Reaper?) || (s.threads[a.tid].Condemned? && s.threads[a.tid].d == d))
  }

  /** The inventory holds another generation than the one named. */
  predicate Refuses(s: State, d: Deletion) {
    && d.id in s.shared.catalog.records && d.fence.Named?
    && s.shared.catalog.records[d.id].generation != d.fence.generation
  }

  /**
   The call removes this one record, whoever makes it, unless it fails or is refused, and then nothing
   changes; and only if it went through does the deleter go on to forget the activity.
   */
  lemma {:induction false} DeleteCallAnswers(s: State, a: Action, d: Deletion)
    requires Enabled(s, a) && CallsDelete(s, a, d)
    ensures
      var s', gone := After(s, a), !a.fails && !Refuses(s, d);
      && s'.shared.catalog.records == (if gone then s.shared.catalog.records - {d.id} else s.shared.catalog.records)
      && s'.shared.activity == s.shared.activity
      && a.tid in s'.threads
      && s'.threads[a.tid] ==
           if !gone then Ending(d, false) else if s.threads[a.tid].Condemned? then Dropping(d) else Ending(d, true)
  {
    AfterStep(s, a.tid, a.fails, a.tid);
    hide After;
  }

  /** The reaper goes on exactly if the entry is still there, of the generation it saw and idle for the whole timeout. */
  lemma {:induction false} ReaperRechecks(s: State, a: Action, d: Deletion)
    requires Enabled(s, a) && a.Step? && s.threads[a.tid] == Owning(d) && d.who.Reaper?
    ensures
      var s', activity := After(s, a), s.shared.activity;
      var idle :=
        && d.id in activity && activity[d.id].at + s.config.idleTimeout <= s.shared.now
        && activity[d.id].generation == (if d.fence.Named? then Some(d.fence.generation) else None);
      && s'.shared == s.shared && a.tid in s'.threads
      && s'.threads[a.tid] == if idle then Condemned(d, s.shared.now - s.config.idleTimeout) else Ending(d, false)
  {
    AfterStep(s, a.tid, a.fails, a.tid);
    hide After;
  }

  /** The deleter will forget the activity of its sandbox. */
  predicate WillForget(th: Thread, d: Deletion) {
    th == Dropping(d) || th == Ending(d, true) || th == Forgetting(d)
  }

  /** The thread's own call, which took the sandbox out of the inventory or found it gone. */
  predicate TakesOut(s: State, a: Action, s': State, t: Tid, d: Deletion) {
    CallsDelete(s, a, d) && a == Step(t, false) && !Refuses(s, d) && d.id !in s'.shared.catalog.records
  }

  lemma {:induction false} LocalForgetting(config: Config, sh: Shared, th: Thread, fails: bool, d: Deletion)
    requires Runnable(th)
    ensures
      var e := LocalStep(config, sh, th, fails);
      WillForget(e.thread, d) ==>
        || WillForget(th, d)
        || (&& ((th == Owning(d) && !d.who.Reaper?) || (th.Condemned? && th.d == d)) && !fails
            && !(d.id in sh.catalog.records && d.fence.Named? && sh.catalog.records[d.id].generation != d.fence.generation)
            && d.id !in e.shared.catalog.records)
  {
  }

  lemma {:induction false} ForgettingStep(s: State, a: Action, t: Tid, d: Deletion)
    requires Enabled(s, a) && t in After(s, a).threads && WillForget(After(s, a).threads[t], d)
    ensures (t in s.threads && WillForget(s.threads[t], d)) || TakesOut(s, a, After(s, a), t, d)
  {
    if a.Step? {
      hide LocalStep, After, Woken;
      var e := LocalStep(s.config, s.shared, s.threads[a.tid], a.fails);
      AfterStep(s, a.tid, a.fails, t);
      LocalForgetting(s.config, s.shared, s.threads[a.tid], a.fails, d);
      WakingTeachesNothing(if t == a.tid then e.thread else s.threads[t], e.pinsNotified, e.gateNotified);
    } else {
      hide LocalStep, WakeAll, Occupied, Busy;
    }
  }

  /** Whoever forgets the activity of a sandbox has seen it out of the inventory, by a call that was not refused. */
  lemma {:induction false} ForgetsOnlyWhatIsGone(states: seq<State>, actions: seq<Action>, k: nat, t: Tid, d: Deletion)
    returns (j: nat)
    requires IsExecution(states, actions) && k < |states|
    requires t in states[k].threads && WillForget(states[k].threads[t], d)
    ensures j < k && TakesOut(states[j], actions[j], states[j + 1], t, d)
  {
    hide Enabled, After, WillForget, TakesOut;
    if k == 0 {
      assert false;
    } else {
      assert Enabled(states[k - 1], actions[k - 1]) && states[k] == After(states[k - 1], actions[k - 1]);
      ForgettingStep(states[k - 1], actions[k - 1], t, d);
      if TakesOut(states[k - 1], actions[k - 1], states[k], t, d) {
        j := k - 1;
      } else {
        j := ForgetsOnlyWhatIsGone(states, actions, k - 1, t, d);
      }
    }
  }

  // ---- Activity -------------------------------------------------------------------------------------

  /** The step records activity of the sandbox. */
  predicate Records(s: State, a: Action, id: SandboxId) {
    a.Step? && a.tid in s.threads && (s.threads[a.tid].Marking? || s.threads[a.tid].Reporting?) && s.threads[a.tid].id == id
  }

  /** It records just this: the generation in use, now. */
  predicate RecordsAs(s: State, a: Action, id: SandboxId, stamp: Stamp) {
    Records(s, a, id) && stamp == Stamp(Some(s.threads[a.tid].generation), s.shared.now)
  }

  /** The step drops the entry: a deleter's last, its fence not against it. */
  predicate Drops(s: State, a: Action, id: SandboxId) {
    && a.Step? && a.tid in s.threads
    && (s.threads[a.tid].Dropping? || s.threads[a.tid].Forgetting?) && s.threads[a.tid].d.id == id
    && id in s.shared.activity
    && match s.threads[a.tid].d.fence
       case Unfenced => true
       case Blank => false
       case Named(g) => s.shared.activity[id].generation == Some(g)
  }

  predicate Reads(s: State, id: SandboxId, stamp: Stamp) {
    id in s.shared.activity && s.shared.activity[id] == stamp
  }

  lemma {:induction false} EntryAfter(s: State, a: Action, id: SandboxId, stamp: Stamp)
    requires Enabled(s, a)
    ensures Reads(After(s, a), id, stamp) <==>
              RecordsAs(s, a, id, stamp) || (Reads(s, id, stamp) && !Records(s, a, id) && !Drops(s, a, id))
  {
    hide WakeAll;
  }

  /** The stamp was recorded, or there at the start, and no step has recorded another or dropped it since. */
  ghost predicate StampedSince(states: seq<State>, actions: seq<Action>, k: nat, id: SandboxId, stamp: Stamp)
    requires k <= |actions| && k < |states|
  {
    || (Reads(states[0], id, stamp) && forall i :: 0 <= i < k ==> LeavesAlone(states[i], actions[i], id))
    || exists j :: 0 <= j < k && RecordsAs(states[j], actions[j], id, stamp)
                   && forall i :: j < i < k ==> LeavesAlone(states[i], actions[i], id)
  }

  predicate LeavesAlone(s: State, a: Action, id: SandboxId) {
    !Records(s, a, id) && !Drops(s, a, id)
  }

  lemma {:induction false} StampedOneMore(states: seq<State>, actions: seq<Action>, n: nat, id: SandboxId, stamp: Stamp)
    requires n < |actions| && n + 1 < |states|
    ensures StampedSince(states, actions, n + 1, id, stamp) <==>
              RecordsAs(states[n], actions[n], id, stamp)
              || (StampedSince(states, actions, n, id, stamp) && LeavesAlone(states[n], actions[n], id))
  {
    hide RecordsAs, LeavesAlone, Reads;
    if StampedSince(states, actions, n, id, stamp) && LeavesAlone(states[n], actions[n], id) {
      if j :| 0 <= j < n && RecordsAs(states[j], actions[j], id, stamp)
              && forall i :: j < i < n ==> LeavesAlone(states[i], actions[i], id) {
        assert forall i :: j < i < n + 1 ==> LeavesAlone(states[i], actions[i], id);
      }
    }
  }

  /** In every execution an entry of the activity table says when the sandbox was last active, and in which generation. */
  lemma {:induction false} EntryIsLastActivityIff(
      states: seq<State>, actions: seq<Action>, k: nat, id: SandboxId, stamp: Stamp)
    requires IsRun(states, actions) && k < |states|
    ensures Reads(states[k], id, stamp) <==> StampedSince(states, actions, k, id, stamp)
  {
    hide StampedSince, Reads, Records, RecordsAs, Drops, After, Enabled;
    if k == 0 {
      StampedAtFirst(states, actions, id, stamp);
    } else {
      EntryIsLastActivityIff(states, actions, k - 1, id, stamp);
      assert Enabled(states[k - 1], actions[k - 1]);
      EntryAfter(states[k - 1], actions[k - 1], id, stamp);
      StampedOneMore(states, actions, k - 1, id, stamp);
    }
  }

  lemma {:induction false} StampedAtFirst(states: seq<State>, actions: seq<Action>, id: SandboxId, stamp: Stamp)
    requires |states| > 0
    ensures StampedSince(states, actions, 0, id, stamp) <==> Reads(states[0], id, stamp)
  {
  }
}
