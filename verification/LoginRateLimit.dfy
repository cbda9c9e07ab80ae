/** The sliding-window limiter in front of the anonymous login endpoints. */
module LoginRateLimit {

  const MAX_ATTEMPTS: nat := 10
  const WINDOW := 60.0

  /** Attempts older than the window fall off the front. */
  function Expire(history: seq<real>, now: real): seq<real> {
    if history != [] && now - history[0] > WINDOW then Expire(history[1..], now) else history
  }

  /** The seconds a rejected client is told to wait. */
  function RetryAfter(oldest: real, now: real): int {
    var left := WINDOW - (now - oldest);
    (if left > 1.0 then left else 1.0).Floor
  }

  datatype Decision = Admitted | Rejected(retryAfter: int)

  function Decide(history: seq<real>, now: real): (Decision, seq<real>) {
    var recent := Expire(history, now);
    if |recent| >= MAX_ATTEMPTS then (Rejected(RetryAfter(recent[0], now)), recent)
    else (Admitted, recent + [now])
  }

  type Client = string

  class LoginRateLimiter {
    var attempts: map<Client, seq<real>>

    constructor ()
      ensures attempts == map[]
    {
      attempts := map[];
    }

    function History(client: Client): seq<real>
      reads this
    {
      if client in attempts then attempts[client] else []
    }

    method Attempt(client: Client, now: real) returns (decision: Decision)
      modifies this
      ensures (decision, History(client)) == Decide(old(History(client)), now)
      ensures forall other :: other != client ==> History(other) == old(History(other))
    {
      var recent := History(client);
      while recent != [] && now - recent[0] > WINDOW
        invariant Expire(recent, now) == Expire(old(History(client)), now)
        decreases |recent|
      {
        recent := recent[1..];
      }
      if |recent| >= MAX_ATTEMPTS {
        attempts := attempts[client := recent];
        return Rejected(RetryAfter(recent[0], now));
      }
      attempts := attempts[client := recent + [now]];
      return Admitted;
    }

    /** A login that succeeded clears the client's history. */
    method Cleared(client: Client)
      modifies this
      ensures History(client) == []
      ensures forall other :: other != client ==> History(other) == old(History(other))
    {
      attempts := attempts - {client};
    }
  }

  // ---- What the limiter lets through ----------------------------------------------------------------

  /** The attempts of one client with no clearing success between them: the history and all admitted times. */
  datatype Replayed = Replayed(history: seq<real>, admitted: seq<real>)

  function Replay(times: seq<real>): Replayed {
    if times == [] then Replayed([], [])
    else
      var before, now := Replay(times[..|times| - 1]), times[|times| - 1];
      var (decision, history) := Decide(before.history, now);
      Replayed(history, if decision.Admitted? then before.admitted + [now] else before.admitted)
  }

  predicate Nondecreasing(times: seq<real>) {
    forall i, j | 0 <= i < j < |times| :: times[i] <= times[j]
  }

  /** The history is what is left of a sorted log after dropping what the window has passed. */
  ghost predicate Tracks(r: Replayed, last: real) {
    && Nondecreasing(r.admitted)
    && |r.history| <= MAX_ATTEMPTS
    && |r.history| <= |r.admitted|
    && r.history == r.admitted[|r.admitted| - |r.history|..]
    && (forall i :: 0 <= i < |r.admitted| ==> r.admitted[i] <= last)
    && (forall i :: 0 <= i < |r.admitted| - |r.history| ==> last - r.admitted[i] > WINDOW)
  }

  lemma {:induction false} ExpireDropsThePassed(history: seq<real>, now: real)
    requires Nondecreasing(history)
    ensures |Expire(history, now)| <= |history|
    ensures Expire(history, now) == history[|history| - |Expire(history, now)|..]
    ensures forall i :: 0 <= i < |history| - |Expire(history, now)| ==> now - history[i] > WINDOW
    ensures Expire(history, now) != [] ==> now - Expire(history, now)[0] <= WINDOW
  {
    if history != [] && now - history[0] > WINDOW {
      ExpireDropsThePassed(history[1..], now);
    }
  }

  /** What expiring leaves is a shorter suffix of the log, everything before it out of the window. */
  lemma {:induction false} ExpireTracks(r: Replayed, last: real, now: real)
    requires Tracks(r, last) && last <= now
    ensures
      var recent, kept := Expire(r.history, now), |r.admitted| - |Expire(r.history, now)|;
      && |recent| <= |r.history|
      && recent == r.admitted[kept..]
      && (forall i :: 0 <= i < kept ==> now - r.admitted[i] > WINDOW)
      && (recent != [] ==> now - r.admitted[kept] <= WINDOW)
  {
    var recent, dropped := Expire(r.history, now), |r.admitted| - |r.history|;
    SuffixIsSorted(r.admitted, dropped);
    ExpireDropsThePassed(r.history, now);
    hide Expire;
    forall i | 0 <= i < |r.admitted| - |recent| ensures now - r.admitted[i] > WINDOW {
      if i >= dropped {
        assert r.admitted[i] == r.history[i - dropped];
      }
    }
  }

  lemma {:induction false} SuffixIsSorted(log: seq<real>, from: nat)
    requires Nondecreasing(log) && from <= |log|
    ensures Nondecreasing(log[from..])
  {
    forall i, j | 0 <= i < j < |log| - from ensures log[from..][i] <= log[from..][j] {
      assert log[from + i] <= log[from + j];
    }
  }

  lemma {:induction false} AppendIsSorted(log: seq<real>, last: real)
    requires Nondecreasing(log) && forall i :: 0 <= i < |log| ==> log[i] <= last
    ensures Nondecreasing(log + [last])
  {
  }

  lemma {:induction false} AttemptTracks(r: Replayed, now: real)
    requires Tracks(r, now)
    ensures
      var (decision, history) := Decide(r.history, now);
      Tracks(Replayed(history, if decision.Admitted? then r.admitted + [now] else r.admitted), now)
  {
    ExpireTracks(r, now, now);
    var recent := Expire(r.history, now);
    assert Tracks(Replayed(recent, r.admitted), now);
    if |recent| < MAX_ATTEMPTS {
      AdmissionTracks(Replayed(recent, r.admitted), now);
    }
    hide Expire, Tracks, RetryAfter;
  }

  lemma {:induction false} AdmissionTracks(r: Replayed, now: real)
    requires Tracks(r, now) && |r.history| < MAX_ATTEMPTS
    ensures Tracks(Replayed(r.history + [now], r.admitted + [now]), now)
  {
    AppendIsSorted(r.admitted, now);
    hide Nondecreasing;
    var kept := |r.admitted| - |r.history|;
    assert (r.admitted + [now])[kept..] == r.admitted[kept..] + [now];
  }

  lemma {:induction false} LaterTracks(r: Replayed, last: real, now: real)
    requires Tracks(r, last) && last <= now
    ensures Tracks(r, now)
  {
  }

  /** The history is always a suffix of the admitted log, sorted and at most ten long. */
  lemma {:induction false} HistoryIsASuffix(times: seq<real>, now: real)
    requires Nondecreasing(times + [now])
    ensures Tracks(Replay(times), now)
  {
    if times != [] {
      var k := |times| - 1;
      PrefixIsSorted(times + [now], k + 1);
      assert (times + [now])[..k + 1] == times == times[..k] + [times[k]];
      assert (times + [now])[k] <= (times + [now])[k + 1];
      hide Tracks, Nondecreasing, Expire;
      HistoryIsASuffix(times[..k], times[k]);
      AttemptTracks(Replay(times[..k]), times[k]);
      LaterTracks(Replay(times), times[k], now);
    }
  }

  lemma {:induction false} PrefixIsSorted(log: seq<real>, to: nat)
    requires Nondecreasing(log) && to <= |log|
    ensures Nondecreasing(log[..to])
  {
  }

  /** The n-th and the (n+10)-th admitted attempt are more than the window apart. */
  lemma {:induction false} NoElevenInAWindow(times: seq<real>, n: nat)
    requires Nondecreasing(times) && n + MAX_ATTEMPTS < |Replay(times).admitted|
    ensures Replay(times).admitted[n + MAX_ATTEMPTS] - Replay(times).admitted[n] > WINDOW
  {
    var k := |times| - 1;
    var before, now := Replay(times[..k]), times[k];
    PrefixIsSorted(times, k);
    if n + MAX_ATTEMPTS < |before.admitted| {
      NoElevenInAWindow(times[..k], n);
    } else {
      assert times == times[..k] + [now];
      HistoryIsASuffix(times[..k], now);
      AttemptTracks(before, now);
      assert now - Replay(times).admitted[n] > WINDOW;
    }
  }

  /** An attempt is turned away exactly when ten attempts were admitted within the window before it. */
  lemma {:induction false} RejectedIffTenInTheWindow(times: seq<real>, now: real)
    requires Nondecreasing(times + [now])
    ensures
      var log := Replay(times).admitted;
      Decide(Replay(times).history, now).0.Rejected? <==>
        |log| >= MAX_ATTEMPTS && now - log[|log| - MAX_ATTEMPTS] <= WINDOW
  {
    HistoryIsASuffix(times, now);
    ExpireTracks(Replay(times), now, now);
    hide Expire;
    var log, recent := Replay(times).admitted, Expire(Replay(times).history, now);
    if |recent| >= MAX_ATTEMPTS {
      assert log[|log| - MAX_ATTEMPTS] == recent[|recent| - MAX_ATTEMPTS];
    }
  }

  /**
   A rejected client is told the whole seconds until the tenth last admitted attempt leaves the window,
   rounded down, and never less than one.
   */
  lemma {:induction false} RetryAfterIsRoundedDown(times: seq<real>, now: real)
    requires Nondecreasing(times + [now]) && Decide(Replay(times).history, now).0.Rejected?
    ensures
      var log, seconds := Replay(times).admitted, Decide(Replay(times).history, now).0.retryAfter;
      && |log| >= MAX_ATTEMPTS
      && var left := 60.0 - (now - log[|log| - MAX_ATTEMPTS]);
         seconds >= 1 && (if left < 1.0 then seconds == 1 else seconds as real <= left < seconds as real + 1.0)
  {
    HistoryIsASuffix(times, now);
    ExpireTracks(Replay(times), now, now);
    hide Expire;
    var log, recent := Replay(times).admitted, Expire(Replay(times).history, now);
    assert log[|log| - MAX_ATTEMPTS] == recent[0];
  }

  /**
   A rejected client that waits exactly as long as it was told, with nothing else happening, gets in if
   and only if less than a second of the window was left: the wait is rounded down, and an attempt
   exactly at the end of the window still counts.
   */
  lemma {:induction false} RetryAfterSufficesIff(history: seq<real>, now: real)
    requires Nondecreasing(history) && |history| <= MAX_ATTEMPTS
    requires history != [] ==> history[|history| - 1] <= now
    requires Decide(history, now).0.Rejected?
    ensures
      var (decision, recent) := Decide(history, now);
      Decide(recent, now + decision.retryAfter as real).0.Admitted? <==> WINDOW - (now - recent[0]) < 1.0
  {
    var (decision, recent) := Decide(history, now);
    ExpireDropsThePassed(history, now);
    var later := now + decision.retryAfter as real;
    ExpireDropsThePassed(recent, later);
    assert recent == history;
  }
}
