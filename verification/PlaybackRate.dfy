/**
 How fast a message plays: what a frame aims at, how the arrival rate is sampled, how soon a backlog is
 caught up with, and that every message of the smoother plays by these laws from its first chunk on.
 */
module PlaybackRate {
  import opened Wrappers
  import opened TextPacing
  import opened StreamSmoother

  /** The largest of 32 units a second, the arrival rate, and what would empty the buffer in 0.6 seconds. */
  predicate IsAim(aim: real, c: Controller) {
    var catchUp := c.Buffered() as real / 0.6;
    && aim >= 32.0 && aim >= c.arrivalRate && aim >= catchUp
    && (aim == 32.0 || aim == c.arrivalRate || aim == catchUp)
  }

  /** From one rate towards another by the weight, strictly between the two if they differ. */
  predicate MovesTowards(x: real, from: real, to: real, weight: real) {
    && to - x == (to - from) * (1.0 - weight)
    && (from < x < to || to < x < from || x == from == to)
  }

  /** What a rate plays in that many ms. */
  function Units(rate: real, ms: real): real {
    rate * ms / 1000.0
  }

  /** The credit earned in that time, in ms, would play that much in 0.6 seconds. */
  predicate EarnsFor(low: nat, earned: real, time: real) {
    600.0 * earned >= low as real * time
  }

  function Length(delta: Option<Delta>): nat {
    if delta.Some? then |delta.value.content| + |delta.value.reasoning| else 0
  }

  // ---- One frame --------------------------------------------------------------------------------------

  lemma {:induction false} BlendMoves(from: real, to: real, weight: real)
    requires 0.0 < weight < 1.0
    ensures MovesTowards(Blend(from, to, weight), from, to, weight)
  {
    var near, far := Parts(to - from, weight, 1.0 - weight);
    assert (to - from) * (1.0 - weight) == far;
  }

  /** A gap falls into two parts of its own sign. */
  lemma {:induction false} Parts(gap: real, weight: real, rest: real) returns (near: real, far: real)
    requires 0.0 < weight && 0.0 < rest && weight + rest == 1.0
    ensures near == gap * weight && far == gap * rest && near + far == gap
    ensures gap > 0.0 ==> near > 0.0 && far > 0.0
    ensures gap < 0.0 ==> near < 0.0 && far < 0.0
    ensures gap == 0.0 ==> near == 0.0 && far == 0.0
  {
    near, far := gap * weight, gap * rest;
    assert near + far == gap * (weight + rest);
    if gap > 0.0 {
      PositiveProduct(gap, weight);
      PositiveProduct(gap, rest);
    } else if gap < 0.0 {
      PositiveProduct(-gap, weight);
      PositiveProduct(-gap, rest);
    }
  }

  lemma {:induction false} PositiveProduct(x: real, y: real)
    requires x > 0.0 && y > 0.0
    ensures x * y > 0.0
  {
  }

  /**
   The first frame plays at the rate it aims at; a later one moves towards it, by the weight, and never
   reaches it. The credit grows by that rate over the time since the last frame, at most 64 ms of it.
   */
  lemma {:induction false} FrameRate(cutter: Cutter, c: Controller, now: real, weight: real, aim: real)
    requires cutter.Valid() && c.lastFrameAt < now && 0.0 < weight < 1.0 && IsAim(aim, c)
    ensures
      var (after, delta) := Framed(cutter, c, now, weight);
      var elapsed := if now - c.lastFrameAt > 64.0 then 64.0 else now - c.lastFrameAt;
      && after.lastFrameAt == now
      && (c.rate == 0.0 ==> after.rate == aim)
      && (c.rate != 0.0 ==> MovesTowards(after.rate, c.rate, aim, weight))
      && after.credit + Length(delta) as real == c.credit + Units(after.rate, elapsed)
      && (after.arrivalRate, after.sampleAt, after.sampleChars) == (c.arrivalRate, c.sampleAt, c.sampleChars)
  {
    FrameSteps(cutter, c, now, weight);
    AimedRate(c, weight, aim);
    EarnedAtItsRate(c, now, weight);
    hide Framed, NewRate, Earned, MovesTowards, IsAim, Units;
  }

  lemma {:induction false} EarnedAtItsRate(c: Controller, now: real, weight: real)
    requires c.lastFrameAt < now
    ensures Earned(c, now, weight)
         == Units(NewRate(c, weight), if now - c.lastFrameAt > 64.0 then 64.0 else now - c.lastFrameAt)
  {
    hide NewRate;
  }

  lemma {:induction false} AimedRate(c: Controller, weight: real, aim: real)
    requires 0.0 < weight < 1.0 && IsAim(aim, c)
    ensures c.rate == 0.0 ==> NewRate(c, weight) == aim
    ensures c.rate != 0.0 ==> MovesTowards(NewRate(c, weight), c.rate, aim, weight)
  {
    assert aim == TargetRate(c);
    BlendMoves(if c.rate == 0.0 then aim else c.rate, aim, weight);
    hide TargetRate, Blend, MovesTowards, IsAim;
    if c.rate == 0.0 {
      NowhereToMove(NewRate(c, weight), aim, weight);
    }
  }

  lemma {:induction false} NowhereToMove(x: real, y: real, weight: real)
    requires MovesTowards(x, y, y, weight)
    ensures x == y
  {
  }

  lemma {:induction false} FrameSteps(cutter: Cutter, c: Controller, now: real, weight: real)
    requires cutter.Valid()
    ensures
      var (after, delta) := Framed(cutter, c, now, weight);
      && after.credit + Length(delta) as real == c.credit + Earned(c, now, weight)
      && (now > c.lastFrameAt ==> after.lastFrameAt == now && after.rate == NewRate(c, weight))
      && (after.arrivalRate, after.sampleAt, after.sampleChars) == (c.arrivalRate, c.sampleAt, c.sampleChars)
  {
    hide NewRate, Gain, Elapsed, Take;
  }

  lemma {:induction false} AimExists(c: Controller) returns (aim: real)
    ensures IsAim(aim, c)
  {
    aim := TargetRate(c);
  }

  /** The first frame over a buffer of L units earns at least L * elapsed / 600. */
  lemma {:induction false} FirstFrameCatchesUp(cutter: Cutter, c: Controller, now: real, weight: real)
    requires cutter.Valid() && c.lastFrameAt < now <= c.lastFrameAt + 64.0 && 0.0 < weight < 1.0 && c.rate == 0.0
    ensures
      var (after, delta) := Framed(cutter, c, now, weight);
      EarnsFor(c.Buffered(), after.credit + Length(delta) as real - c.credit, now - c.lastFrameAt)
  {
    var aim := AimExists(c);
    FrameRate(cutter, c, now, weight, aim);
    EarnsAtThisRate(c.Buffered(), aim, now - c.lastFrameAt);
    hide Framed, MovesTowards, Units, EarnsFor;
  }

  lemma {:induction false} EarnsAtThisRate(low: nat, rate: real, ms: real)
    requires 600.0 * rate >= 1000.0 * low as real && ms >= 0.0
    ensures EarnsFor(low, Units(rate, ms), ms)
  {
    NonNegativeProduct(600.0 * rate - 1000.0 * low as real, ms);
    assert (600.0 * rate - 1000.0 * low as real) * ms == 600.0 * (rate * ms) - 1000.0 * (low as real * ms);
  }

  /** What a frame with this credit releases: content first, and reasoning from what is left of the budget. */
  predicate Shares(cutter: Cutter, c: Controller, after: Controller, delta: Delta, budget: int) {
    var left := budget - |delta.content|;
    && delta.content + after.content == c.content && delta.reasoning + after.reasoning == c.reasoning
    && (c.content != "" ==> 0 < |delta.content| < budget + cutter.size)
    && (after.content != "" ==> |delta.content| > budget - cutter.size)
    && (left <= 0 ==> delta.reasoning == "")
    && (left > 0 && c.reasoning != "" ==> 0 < |delta.reasoning| < left + cutter.size)
    && (after.reasoning != "" ==> |delta.reasoning| > left - cutter.size)
  }

  lemma {:induction false} ReleaseShares(cutter: Cutter, c: Controller)
    requires cutter.Valid() && c.credit.Floor >= 1
    ensures
      var (after, delta) := Release(cutter, c);
      Shares(cutter, c, after, delta, c.credit.Floor) && after.credit + Length(Some(delta)) as real == c.credit
  {
    var budget := c.credit.Floor;
    TakeBounds(cutter, c.content, budget);
    TakeBounds(cutter, c.reasoning, budget - |Take(cutter, c.content, budget).emitted|);
    hide Take;
  }

  /** Before its time a frame does nothing; after it, it releases text exactly if at least one unit is credited. */
  lemma {:induction false} FrameReleases(cutter: Cutter, c: Controller, now: real, weight: real)
    requires cutter.Valid()
    ensures
      var (after, delta) := Framed(cutter, c, now, weight);
      var credit := after.credit + Length(delta) as real;
      && (now <= c.lastFrameAt ==> after == c && delta == None)
      && (now > c.lastFrameAt ==> (delta.Some? <==> credit >= 1.0))
      && (delta.Some? ==> Shares(cutter, c, after, delta.value, credit.Floor))
      && (delta.None? ==> after.content == c.content && after.reasoning == c.reasoning)
  {
    hide NewRate, Earned, Release, Take;
    var credited := c.(
      lastFrameAt := now, rate := NewRate(c, weight), credit := c.credit + Earned(c, now, weight));
    if now > c.lastFrameAt && credited.credit.Floor >= 1 {
      ReleaseShares(cutter, credited);
    }
  }

  // ---- Arrivals ---------------------------------------------------------------------------------------

  /**
   A chunk is appended and counted. Within 200 ms of the last sample that is all; later the arrival rate
   moves towards what has come in since, by the weight, and a new sample begins.
   */
  lemma {:induction false} ArrivalIsSampled(c: Controller, content: string, reasoning: string, now: real, weight: real)
    requires 0.0 < weight < 1.0
    ensures
      var after, span := Received(c, content, reasoning, now, weight), now - c.sampleAt;
      var chars := c.sampleChars + |content| + |reasoning|;
      && after.content == c.content + content && after.reasoning == c.reasoning + reasoning
      && (after.lastFrameAt, after.rate, after.credit) == (c.lastFrameAt, c.rate, c.credit)
      && (span < 200.0 ==> after.arrivalRate == c.arrivalRate && after.sampleChars == chars && after.sampleAt == c.sampleAt)
      && (span >= 200.0 ==>
            var observed := 1000.0 * chars as real / span;
            && after.sampleChars == 0 && after.sampleAt == now
            && MovesTowards(after.arrivalRate, c.arrivalRate, observed, weight))
  {
    var chars, span := c.sampleChars + |content| + |reasoning|, now - c.sampleAt;
    if span >= 200.0 {
      BlendMoves(c.arrivalRate, chars as real * 1000.0 / span, weight);
      hide Blend, MovesTowards;
    }
  }

  function Arrived(happenings: seq<Happening>): nat {
    if happenings == [] then 0
    else
      var last := happenings[|happenings| - 1];
      Arrived(happenings[..|happenings| - 1]) + if last.More? then |last.content| + |last.reasoning| else 0
  }

  /** Until a new message is 200 ms old its arrival rate is unknown and all its text is being counted. */
  lemma {:induction false} CountsFromItsStart(cutter: Cutter, start: real, happenings: seq<Happening>)
    requires cutter.Valid() && forall h :: h in happenings ==> IsHappening(h) && (h.More? ==> h.now < start + 200.0)
    ensures
      var c := Lived(cutter, Fresh(start), happenings).c;
      c.arrivalRate == 0.0 && c.sampleAt == start && c.sampleChars == Arrived(happenings)
    decreases |happenings|
  {
    if happenings != [] {
      var n := |happenings| - 1;
      var earlier, last := happenings[..n], happenings[n];
      CountsFromItsStart(cutter, start, earlier);
      assert last in happenings;
      var c := Lived(cutter, Fresh(start), earlier).c;
      if last.Frame? {
        FrameSteps(cutter, c, last.now, last.weight);
      }
      hide Framed, Earned, Elapsed;
    }
  }

  /** The first sample is the weight's share of everything that came in, over the age of the message. */
  lemma {:induction false} FirstSample(cutter: Cutter, start: real, happenings: seq<Happening>, more: Happening)
    requires cutter.Valid() && forall h :: h in happenings ==> IsHappening(h) && (h.More? ==> h.now < start + 200.0)
    requires IsHappening(more) && more.More? && more.now >= start + 200.0
    ensures
      var c := Lived(cutter, Fresh(start), happenings + [more]).c;
      c.arrivalRate == more.weight * (1000.0 * Arrived(happenings + [more]) as real / (more.now - start))
  {
    CountsFromItsStart(cutter, start, happenings);
    assert (happenings + [more])[..|happenings|] == happenings;
    ArrivalIsSampled(
      Lived(cutter, Fresh(start), happenings).c, more.content, more.reasoning, more.now, more.weight);
  }

  // ---- Catching up ------------------------------------------------------------------------------------

  /** A message shows nothing until it is 180 ms old. */
  lemma {:induction false} NothingBeforeItsTime(cutter: Cutter, start: real, happenings: seq<Happening>)
    requires cutter.Valid() && forall h :: h in happenings && h.Frame? ==> h.now <= start + 180.0
    ensures
      var life := Lived(cutter, Fresh(start), happenings);
      && life.released == 0 && life.earned == 0.0 && life.c.Buffered() == Arrived(happenings)
      && life.c.rate == 0.0 && life.c.credit == 0.0 && life.c.lastFrameAt == start + 180.0
    decreases |happenings|
  {
    if happenings != [] {
      var n := |happenings| - 1;
      NothingBeforeItsTime(cutter, start, happenings[..n]);
      assert happenings[n] in happenings;
    }
  }

  /** The rate, once set, is enough to play that much in 0.6 seconds. */
  predicate KeepsUp(c: Controller, low: nat) {
    c.rate == 0.0 || 600.0 * c.rate >= 1000.0 * low as real
  }

  lemma {:induction false} FrameKeepsUp(cutter: Cutter, c: Controller, now: real, weight: real, low: nat)
    requires cutter.Valid() && KeepsUp(c, low) && c.Buffered() >= low && 0.0 < weight < 1.0
    ensures KeepsUp(Framed(cutter, c, now, weight).0, low)
    ensures EarnsFor(low, Earned(c, now, weight), Elapsed(c, now))
  {
    if now > c.lastFrameAt {
      var aim := AimExists(c);
      FrameRate(cutter, c, now, weight, aim);
      FrameSteps(cutter, c, now, weight);
      var rate := Framed(cutter, c, now, weight).0.rate;
      hide Framed, Earned, NewRate, IsAim, EarnsFor, Units;
      EarnsAtThisRate(low, rate, Elapsed(c, now));
    }
  }

  lemma {:induction false} RatesAdd(low: nat, earned: real, time: real, more: real, longer: real)
    requires EarnsFor(low, earned, time) && EarnsFor(low, more, longer)
    ensures EarnsFor(low, earned + more, time + longer)
  {
    assert low as real * (time + longer) == low as real * time + low as real * longer;
  }

  /** While a message has at least `low` units buffered, a rate that would play them in 0.6 seconds stays up. */
  lemma {:induction false} RateStaysUp(cutter: Cutter, c: Controller, happenings: seq<Happening>, low: nat)
    requires cutter.Valid() && KeepsUp(c, low) && forall h :: h in happenings ==> IsHappening(h)
    requires forall k :: 0 <= k < |happenings| ==> Lived(cutter, c, happenings[..k]).c.Buffered() >= low
    ensures
      var life := Lived(cutter, c, happenings);
      KeepsUp(life.c, low) && EarnsFor(low, life.earned, life.time)
    decreases |happenings|
  {
    if happenings != [] {
      var n := |happenings| - 1;
      var earlier, last := happenings[..n], happenings[n];
      forall k | 0 <= k < n ensures Lived(cutter, c, earlier[..k]).c.Buffered() >= low {
        assert earlier[..k] == happenings[..k];
      }
      RateStaysUp(cutter, c, earlier, low);
      assert last in happenings;
      var before, life := Lived(cutter, c, earlier), Lived(cutter, c, happenings);
      if last.Frame? {
        FrameKeepsUp(cutter, before.c, last.now, last.weight, low);
        RatesAdd(low, before.earned, before.time, Earned(before.c, last.now, last.weight), Elapsed(before.c, last.now));
        assert life.earned == before.earned + Earned(before.c, last.now, last.weight);
        assert life.time == before.time + Elapsed(before.c, last.now);
        hide Framed, Earned, Elapsed, EarnsFor, KeepsUp, IsHappening;
      } else {
        hide Framed, Earned, Elapsed, IsHappening;
      }
    }
  }

  /** Frames bring B buffered units down to `low` in less than (B - low + G - credit) * 600 / low ms. */
  lemma {:induction false} CatchesUpInTime(cutter: Cutter, c: Controller, frames: seq<Happening>, low: nat)
    requires cutter.Valid() && Paced(cutter, c) && KeepsUp(c, low) && low > 0
    requires forall h :: h in frames ==> IsHappening(h) && h.Frame?
    requires forall k :: 0 <= k <= |frames| ==> Lived(cutter, c, frames[..k]).c.Buffered() >= low
    ensures low as real * Lived(cutter, c, frames).time
          < 600.0 * (c.Buffered() as real - low as real + cutter.size as real - c.credit)
  {
    assert frames[..|frames|] == frames;
    RateStaysUp(cutter, c, frames, low);
    PacingIsTwoSided(cutter, c, frames);
    NothingLost(cutter, c, frames);
  }

  // ---- Every message of the smoother lives so ---------------------------------------------------------

  /** The action buffers text of the message. */
  predicate Buffers(a: Action, key: Key) {
    a.Push? && a.key == key && !a.chunk.immediate && (a.chunk.content != "" || a.chunk.reasoning != "")
  }

  /** When the message that plays now began: at the last chunk that found it not playing. */
  ghost function BornAt(states: seq<Smoother>, actions: seq<Action>, k: nat, key: Key): real
    requires k <= |actions| && k < |states|
  {
    if k == 0 then 0.0
    else if Buffers(actions[k - 1], key) && key !in states[k - 1].playing then actions[k - 1].now
    else BornAt(states, actions, k - 1, key)
  }

  /** What has happened to it since. */
  ghost function HistoryOf(states: seq<Smoother>, actions: seq<Action>, k: nat, key: Key): seq<Happening>
    requires k <= |actions| && k < |states|
  {
    if k == 0 then []
    else
      var s, a := states[k - 1], actions[k - 1];
      if Buffers(a, key) then
        (if key in s.playing then HistoryOf(states, actions, k - 1, key) else [])
        + [More(a.chunk.content, a.chunk.reasoning, a.now, a.weight)]
      else if a.Tick? && a.id in s.frames && s.frames[a.id] == key then
        HistoryOf(states, actions, k - 1, key) + [Frame(a.now, a.weight)]
      else HistoryOf(states, actions, k - 1, key)
  }

  lemma {:induction false} LivesOn(cutter: Cutter, c: Controller, happenings: seq<Happening>, last: Happening)
    requires cutter.Valid()
    ensures
      var before := Lived(cutter, c, happenings).c;
      Lived(cutter, c, happenings + [last]).c ==
        match last
        case Frame(now, weight) => Framed(cutter, before, now, weight).0
        case More(content, reasoning, now, weight) => Received(before, content, reasoning, now, weight)
  {
    assert (happenings + [last])[..|happenings|] == happenings;
    hide Framed, Received;
  }

  /** In every state of every run a message that plays is what its own chunks and frames have made of a new one. */
  lemma {:induction false} EveryMessageLives(
      cutter: Cutter, states: seq<Smoother>, actions: seq<Action>, k: nat, key: Key)
    requires cutter.Valid() && IsRun(cutter, states, actions) && k < |states| && key in states[k].playing
    ensures states[k].playing[key].c
         == Lived(cutter, Fresh(BornAt(states, actions, k, key)), HistoryOf(states, actions, k, key)).c
  {
    var s, a := states[k - 1], actions[k - 1];
    assert Enabled(s, a) && states[k] == After(cutter, s, a);
    if key in s.playing {
      EveryMessageLives(cutter, states, actions, k - 1, key);
    }
    var born := BornAt(states, actions, k, key);
    var history := if key in s.playing then HistoryOf(states, actions, k - 1, key) else [];
    AlwaysTidy(cutter, states, actions, k - 1);
    StepOfMessage(cutter, s, a, key);
    hide Lived, After, IsRun, Tidy, Enabled;
    if Buffers(a, key) {
      LivesOn(cutter, Fresh(born), history, More(a.chunk.content, a.chunk.reasoning, a.now, a.weight));
      NewLife(cutter, born);
    } else if a.Tick? && a.id in s.frames && s.frames[a.id] == key {
      LivesOn(cutter, Fresh(born), history, Frame(a.now, a.weight));
    }
  }

  lemma {:induction false} NewLife(cutter: Cutter, born: real)
    requires cutter.Valid()
    ensures Lived(cutter, Fresh(born), []).c == Fresh(born)
  {
  }

  /** What one action does to the controller of a message that plays afterwards. */
  lemma {:induction false} StepOfMessage(cutter: Cutter, s: Smoother, a: Action, key: Key)
    requires cutter.Valid() && Tidy(s) && Enabled(s, a) && key in After(cutter, s, a).playing
    ensures
      var after := After(cutter, s, a).playing[key].c;
      if Buffers(a, key) then
        after == Received(if key in s.playing then s.playing[key].c else Fresh(a.now),
                          a.chunk.content, a.chunk.reasoning, a.now, a.weight)
      else
        && key in s.playing
        && after == if a.Tick? && s.frames[a.id] == key then Framed(cutter, s.playing[key].c, a.now, a.weight).0
                    else s.playing[key].c
  {
    hide Framed, Received;
    match a
    case Push(_, _, _, _) =>
    case Tick(_, _, _) =>
    case FlushThread(_, order) =>
      FlushEachKeepsTidy(s, order);
      FlushEachKeepsControllers(s, order, key);
      hide FlushedEach, Tidy;
  }

  lemma {:induction false} FlushEachKeepsControllers(s: Smoother, order: seq<Key>, key: Key)
    requires key in FlushedEach(s, order).playing
    ensures key in s.playing && FlushedEach(s, order).playing[key] == s.playing[key]
    decreases |order|
  {
    if order != [] {
      FlushEachKeepsControllers(s.Flushed(order[0]), order[1..], key);
    }
  }
}
