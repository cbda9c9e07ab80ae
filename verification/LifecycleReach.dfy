/** Which states the provisioner can come to from a state. */
module LifecycleReach {
  import opened Lifecycle

  ghost predicate Reaches(s: State, s': State) {
    exists states: seq<State>, actions: seq<Action> ::
      IsRun(states, actions) && states[0] == s && states[|actions|] == s'
  }

  lemma {:induction false} ReachesAfter(s: State, a: Action)
    requires Enabled(s, a)
    ensures Reaches(s, After(s, a))
  {
    var states, actions := [s, After(s, a)], [a];
    assert IsRun(states, actions);
  }

  lemma {:induction false} ReachesSelf(s: State)
    ensures Reaches(s, s)
  {
    assert IsRun([s], []);
  }

  lemma {:induction false} ReachesOn(s: State, m: State, e: State)
    requires Reaches(s, m) && Reaches(m, e)
    ensures Reaches(s, e)
  {
    var first: seq<State>, a: seq<Action> :| IsRun(first, a) && first[0] == s && first[|a|] == m;
    var second: seq<State>, b: seq<Action> :| IsRun(second, b) && second[0] == m && second[|b|] == e;
    RunsJoin(first, a, second, b);
    assert (first + second[1..])[|a + b|] == e;
    hide IsRun;
  }

  lemma {:induction false} RunsJoin(first: seq<State>, a: seq<Action>, second: seq<State>, b: seq<Action>)
    requires IsRun(first, a) && IsRun(second, b) && first[|a|] == second[0]
    ensures IsRun(first + second[1..], a + b)
  {
    hide Enabled, After;
    var states, actions := first + second[1..], a + b;
    forall k | 0 <= k < |actions|
      ensures Enabled(states[k], actions[k]) && states[k + 1] == After(states[k], actions[k])
    {
      if k < |a| {
        assert actions[k] == a[k] && states[k] == first[k] && states[k + 1] == first[k + 1];
      } else {
        var j := k - |a|;
        assert actions[k] == b[j] && states[k] == second[j] && states[k + 1] == second[j + 1];
      }
    }
  }

  /** New thread ids are never used up. */
  lemma {:induction false} FreshTid(taken: set<Tid>) returns (t: Tid)
    ensures forall u :: u in taken ==> u < t
    decreases taken
  {
    if taken == {} {
      t := 0;
    } else {
      var u :| u in taken;
      var v := FreshTid(taken - {u});
      t := if u < v then v else u + 1;
      forall w | w in taken ensures w < t {
        assert w == u || w in taken - {u};
      }
    }
  }
}
