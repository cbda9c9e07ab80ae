/**
 Pacing of one message: whole text segments are released against a credit that grows with time.

 A segmenter is any split of a text into non-empty pieces of bounded length (section 3 of Unicode
 Standard Annex 29); lengths are counted in code units.
 */
module TextPacing {
  import opened Wrappers

  function Flatten(pieces: seq<string>): string {
    if pieces == [] then "" else pieces[0] + Flatten(pieces[1..])
  }

  /** Pieces that make up the text, none of them empty or longer than the given size. */
  predicate Splits(pieces: seq<string>, text: string, size: nat) {
    Flatten(pieces) == text && forall i :: 0 <= i < |pieces| ==> 1 <= |pieces[i]| <= size
  }

  /** `pieces` cuts into graphemes, or into code points where the platform cannot do better. */
  datatype Cutter = Cutter(pieces: string -> seq<string>, graphemes: bool, size: nat) {
    ghost predicate Valid() {
      1 <= size && forall text :: Splits(pieces(text), text, size)
    }
  }

  datatype Taken = Taken(emitted: string, rest: string)

  /** Where the loop over the pieces stops, having already advanced to `end`. */
  function StopAt(graphemes: bool, pieces: seq<string>, count: int, end: nat): (stop: nat)
    decreases |pieces|
  {
    if pieces == [] then end
    else if graphemes && end + |pieces[0]| > count && end > 0 then end
    else if end + |pieces[0]| >= count then end + |pieces[0]|
    else StopAt(graphemes, pieces[1..], count, end + |pieces[0]|)
  }

  lemma {:induction false} StopWithin(graphemes: bool, pieces: seq<string>, count: int, end: nat, size: nat)
    requires forall i :: 0 <= i < |pieces| ==> 1 <= |pieces[i]| <= size
    requires end < count
    ensures end <= StopAt(graphemes, pieces, count, end) <= end + |Flatten(pieces)|
    ensures StopAt(graphemes, pieces, count, end) < count + size || pieces == []
    ensures end < StopAt(graphemes, pieces, count, end) || end > 0 || pieces == []
    ensures StopAt(graphemes, pieces, count, end) > count - size || StopAt(graphemes, pieces, count, end) == end + |Flatten(pieces)|
    decreases |pieces|
  {
    if pieces != [] && end + |pieces[0]| < count {
      StopWithin(graphemes, pieces[1..], count, end + |pieces[0]|, size);
    }
  }

  function Take(cutter: Cutter, value: string, count: int): (t: Taken)
    requires cutter.Valid()
    ensures t.emitted + t.rest == value
  {
    if value == "" || count <= 0 then Taken("", value)
    else if count >= |value| then Taken(value, "")
    else
      StopWithin(cutter.graphemes, cutter.pieces(value), count, 0, cutter.size);
      var end := StopAt(cutter.graphemes, cutter.pieces(value), count, 0);
      assert value[..end] + value[end..] == value;
      Taken(value[..end], value[end..])
  }

  /** At least something is released, less than a segment too much, and less than a segment too little. */
  lemma {:induction false} TakeBounds(cutter: Cutter, value: string, count: int)
    requires cutter.Valid()
    ensures
      var t := Take(cutter, value, count);
      && (count <= 0 ==> t.emitted == "")
      && (count >= 1 && value != "" ==> t.emitted != "")
      && (count >= 1 ==> |t.emitted| < count + cutter.size)
      && (t.rest != "" ==> |t.emitted| > count - cutter.size)
  {
    if 0 < count < |value| {
      StopWithin(cutter.graphemes, cutter.pieces(value), count, 0, cutter.size);
      assert Splits(cutter.pieces(value), value, cutter.size);
    }
  }

  /** The text is released up to the end of a whole segment: never inside one. */
  lemma {:induction false} TakesWholePieces(cutter: Cutter, value: string, count: int) returns (n: nat)
    requires cutter.Valid()
    ensures n <= |cutter.pieces(value)|
    ensures Take(cutter, value, count).emitted == Flatten(cutter.pieces(value)[..n])
  {
    var pieces := cutter.pieces(value);
    assert Splits(pieces, value, cutter.size);
    if value == "" || count <= 0 {
      n := 0;
    } else if count >= |value| {
      n := |pieces|;
      assert pieces[..n] == pieces;
    } else {
      n := StopIsBoundary(cutter.graphemes, pieces, count, 0);
    }
  }

  lemma {:induction false} StopIsBoundary(graphemes: bool, pieces: seq<string>, count: int, end: nat) returns (n: nat)
    ensures n <= |pieces| && StopAt(graphemes, pieces, count, end) == end + |Flatten(pieces[..n])|
    ensures Flatten(pieces[..n]) <= Flatten(pieces)
    ensures Flatten(pieces)[..|Flatten(pieces[..n])|] == Flatten(pieces[..n])
    decreases |pieces|
  {
    if pieces == [] || (graphemes && end + |pieces[0]| > count && end > 0) {
      n := 0;
      assert pieces[..n] == [];
    } else if end + |pieces[0]| >= count {
      n := 1;
      assert pieces[..1] == [pieces[0]] && [pieces[0]][1..] == [];
      assert Flatten([pieces[0]]) == pieces[0] + Flatten([]) == pieces[0];
    } else {
      var m := StopIsBoundary(graphemes, pieces[1..], count, end + |pieces[0]|);
      n := m + 1;
      assert pieces[..n][1..] == pieces[1..][..m] && pieces[..n][0] == pieces[0];
    }
  }

  /** The loop of the source over the segments. */
  method TakeFromBuffer(cutter: Cutter, value: string, count: int) returns (emitted: string, rest: string)
    requires cutter.Valid()
    ensures Taken(emitted, rest) == Take(cutter, value, count)
  {
    if value == "" || count <= 0 {
      return "", value;
    }
    if count >= |value| {
      return value, "";
    }
    var pieces := cutter.pieces(value);
    StopWithin(cutter.graphemes, pieces, count, 0, cutter.size);
    var end: nat, i := 0, 0;
    while i < |pieces|
      invariant i <= |pieces|
      invariant StopAt(cutter.graphemes, pieces[i..], count, end) == StopAt(cutter.graphemes, pieces, count, 0)
    {
      var length := |pieces[i]|;
      assert pieces[i..][1..] == pieces[i + 1..];
      if cutter.graphemes && end + length > count && end > 0 {
        break;
      }
      end := end + length;
      if end >= count {
        break;
      }
      i := i + 1;
    }
    return value[..end], value[end..];
  }

  // ---- One message --------------------------------------------------------------------------------

  const START_BUFFER := 180.0
  const RATE_SAMPLE := 200.0
  const CATCH_UP := 600.0
  const MIN_RATE := 32.0
  const MAX_ELAPSED := 64.0

  datatype Controller = Controller(
    content: string, reasoning: string,
    lastFrameAt: real, sampleAt: real, sampleChars: nat,
    arrivalRate: real, rate: real, credit: real)
  {
    function Buffered(): nat {
      |content| + |reasoning|
    }
  }

  datatype Delta = Delta(content: string, reasoning: string)

  function Max(x: real, y: real): real {
    if x >= y then x else y
  }

  function Blend(from: real, to: real, weight: real): real {
    from + (to - from) * weight
  }

  function Fresh(now: real): Controller {
    Controller("", "", now + START_BUFFER, now, 0, 0.0, 0.0, 0.0)
  }

  /** More text arrives; `weight` stands for the exponential smoothing weight of the sample. */
  function Received(c: Controller, content: string, reasoning: string, now: real, weight: real): Controller {
    var chars := c.sampleChars + |content| + |reasoning|;
    var grown := c.(content := c.content + content, reasoning := c.reasoning + reasoning);
    var sampled := now - c.sampleAt;
    if sampled >= RATE_SAMPLE then
      grown.(arrivalRate := Blend(c.arrivalRate, chars as real * 1000.0 / sampled, weight), sampleChars := 0, sampleAt := now)
    else grown.(sampleChars := chars)
  }

  function Elapsed(c: Controller, now: real): real {
    if now <= c.lastFrameAt then 0.0
    else if now - c.lastFrameAt <= MAX_ELAPSED then now - c.lastFrameAt
    else MAX_ELAPSED
  }

  function TargetRate(c: Controller): real {
    Max(MIN_RATE, Max(c.arrivalRate, c.Buffered() as real * 1000.0 / CATCH_UP))
  }

  function NewRate(c: Controller, weight: real): real {
    var target := TargetRate(c);
    Blend(if c.rate == 0.0 then target else c.rate, target, weight)
  }

  /** Units released per second, over milliseconds. */
  function Gain(rate: real, elapsed: real): real {
    rate * elapsed / 1000.0
  }

  /** The credit a frame adds. */
  function Earned(c: Controller, now: real, weight: real): real {
    if now <= c.lastFrameAt then 0.0 else Gain(NewRate(c, weight), Elapsed(c, now))
  }

  /** Release up to the whole credit: content first, reasoning with what is left of it. */
  function Release(cutter: Cutter, c: Controller): (Controller, Delta)
    requires cutter.Valid()
  {
    var budget := c.credit.Floor;
    var first := Take(cutter, c.content, budget);
    var second := Take(cutter, c.reasoning, budget - |first.emitted|);
    (c.(content := first.rest, reasoning := second.rest,
        credit := c.credit - (|first.emitted| + |second.emitted|) as real),
     Delta(first.emitted, second.emitted))
  }

  /** One animation frame. */
  function Framed(cutter: Cutter, c: Controller, now: real, weight: real): (Controller, Option<Delta>)
    requires cutter.Valid()
  {
    if now <= c.lastFrameAt then (c, None)
    else
      var credited := c.(
        lastFrameAt := now, rate := NewRate(c, weight), credit := c.credit + Earned(c, now, weight));
      if credited.credit.Floor <= 0 then (credited, None)
      else
        var (after, delta) := Release(cutter, credited);
        (after, Some(delta))
  }

  // ---- Pacing -------------------------------------------------------------------------------------

  /** The rate is unset or at least the minimum, and the credit is within a segment of what was released. */
  predicate Paced(cutter: Cutter, c: Controller) {
    && (c.rate == 0.0 || c.rate >= MIN_RATE)
    && -(cutter.size as real - 1.0) <= c.credit
    && (c.Buffered() > 0 ==> c.credit < cutter.size as real)
  }

  lemma {:induction false} NonNegativeProduct(x: real, y: real)
    requires x >= 0.0 && y >= 0.0
    ensures x * y >= 0.0
  {
  }

  lemma {:induction false} BlendAtLeast(from: real, to: real, weight: real, low: real)
    requires from >= low && to >= low && 0.0 < weight < 1.0
    ensures Blend(from, to, weight) >= low
  {
    NonNegativeProduct(from - low, 1.0 - weight);
    NonNegativeProduct(to - low, weight);
    assert (from - low) * (1.0 - weight) == (from - low) - (from - low) * weight;
    assert (to - low) * weight - (from - low) * weight == (to - from) * weight;
  }

  /** Once set the rate never drops below the minimum. */
  lemma {:induction false} RateAtLeastMinimum(c: Controller, weight: real)
    requires (c.rate == 0.0 || c.rate >= MIN_RATE) && 0.0 < weight < 1.0
    ensures NewRate(c, weight) >= MIN_RATE
  {
    BlendAtLeast(if c.rate == 0.0 then TargetRate(c) else c.rate, TargetRate(c), weight, MIN_RATE);
  }

  lemma {:induction false} ReleaseAccounts(cutter: Cutter, c: Controller)
    requires cutter.Valid() && c.credit.Floor >= 1
    ensures
      var (after, delta) := Release(cutter, c);
      && delta.content + after.content == c.content && delta.reasoning + after.reasoning == c.reasoning
      && after.credit == c.credit - (|delta.content| + |delta.reasoning|) as real
      && after.credit >= -(cutter.size as real - 1.0)
      && (after.Buffered() > 0 ==> after.credit < cutter.size as real)
      && (c.Buffered() > 0 ==> |delta.content| + |delta.reasoning| > 0)
  {
    var budget := c.credit.Floor;
    var first := Take(cutter, c.content, budget);
    TakeBounds(cutter, c.content, budget);
    TakeBounds(cutter, c.reasoning, budget - |first.emitted|);
  }

  lemma {:induction false} FrameEarns(c: Controller, now: real, weight: real)
    requires (c.rate == 0.0 || c.rate >= MIN_RATE) && 0.0 < weight < 1.0
    ensures Earned(c, now, weight) >= 0.032 * Elapsed(c, now) >= 0.0
    ensures NewRate(c, weight) >= MIN_RATE
  {
    RateAtLeastMinimum(c, weight);
    EarnedAtLeast(NewRate(c, weight), Elapsed(c, now));
    hide NewRate, Gain;
  }

  /** What a frame does to the text, the credit and the pace. */
  lemma {:induction false} FrameAccounts(cutter: Cutter, c: Controller, now: real, weight: real)
    requires cutter.Valid() && Paced(cutter, c) && 0.0 < weight < 1.0
    ensures
      var (after, delta) := Framed(cutter, c, now, weight);
      var released := delta.GetOr(Delta("", ""));
      && released.content + after.content == c.content && released.reasoning + after.reasoning == c.reasoning
      && after.credit == c.credit + Earned(c, now, weight) - (|released.content| + |released.reasoning|) as real
      && Earned(c, now, weight) >= 0.032 * Elapsed(c, now)
      && Paced(cutter, after)
  {
    if now > c.lastFrameAt {
      FrameEarns(c, now, weight);
      hide NewRate, Earned, Elapsed, Release;
      var credited := c.(
        lastFrameAt := now, rate := NewRate(c, weight), credit := c.credit + Earned(c, now, weight));
      if credited.credit.Floor >= 1 {
        ReleaseAccounts(cutter, credited);
      }
    }
  }

  lemma {:induction false} EarnedAtLeast(rate: real, elapsed: real)
    requires rate >= MIN_RATE && elapsed >= 0.0
    ensures Gain(rate, elapsed) >= 0.032 * elapsed
  {
    NonNegativeProduct(rate - MIN_RATE, elapsed);
    assert (rate - MIN_RATE) * elapsed == rate * elapsed - MIN_RATE * elapsed;
  }

  // ---- The life of one message ---------------------------------------------------------------------

  datatype Happening =
    | Frame(now: real, weight: real)
    | More(content: string, reasoning: string, now: real, weight: real)

  /** What became of a message: its controller, the credit earned, the credited time and the text released. */
  datatype Life = Life(c: Controller, earned: real, time: real, released: nat)

  predicate IsHappening(h: Happening) {
    0.0 < h.weight < 1.0 && (h.More? ==> h.content != "" || h.reasoning != "")
  }

  function Lived(cutter: Cutter, c: Controller, happenings: seq<Happening>): Life
    requires cutter.Valid()
    decreases |happenings|
  {
    if happenings == [] then Life(c, 0.0, 0.0, 0)
    else
      var before := Lived(cutter, c, happenings[..|happenings| - 1]);
      match happenings[|happenings| - 1]
      case Frame(now, weight) =>
        var (after, delta) := Framed(cutter, before.c, now, weight);
        var released := delta.GetOr(Delta("", ""));
        Life(after, before.earned + Earned(before.c, now, weight), before.time + Elapsed(before.c, now),
             before.released + |released.content| + |released.reasoning|)
      case More(content, reasoning, now, weight) =>
        before.(c := Received(before.c, content, reasoning, now, weight))
  }

  /** The message is alive while text is buffered: a frame that empties the buffer ends it. */
  ghost predicate Alive(cutter: Cutter, c: Controller, happenings: seq<Happening>)
    requires cutter.Valid()
  {
    forall k :: 0 <= k < |happenings| ==> Lived(cutter, c, happenings[..k]).c.Buffered() > 0
  }

  lemma {:induction false} MoreKeepsPace(cutter: Cutter, c: Controller, h: Happening)
    requires h.More? && Paced(cutter, c) && c.Buffered() > 0
    ensures
      var after := Received(c, h.content, h.reasoning, h.now, h.weight);
      Paced(cutter, after) && after.credit == c.credit && after.Buffered() > 0
  {
  }

  /**
   However frames and arrivals alternate, the text released is less than a segment ahead of the credit
   earned, and while text remains less than a segment behind it.
   */
  lemma {:induction false} PacingIsTwoSided(cutter: Cutter, c: Controller, happenings: seq<Happening>)
    requires cutter.Valid() && Paced(cutter, c)
    requires Alive(cutter, c, happenings) && forall h :: h in happenings ==> IsHappening(h)
    ensures
      var life, size := Lived(cutter, c, happenings), cutter.size as real;
      && Paced(cutter, life.c)
      && life.c.credit == c.credit + life.earned - life.released as real
      && life.released as real <= c.credit + life.earned + (size - 1.0)
      && (life.c.Buffered() > 0 ==> life.released as real > c.credit + life.earned - size)
      && life.earned >= 0.032 * life.time
    decreases |happenings|
  {
    if happenings != [] {
      var n := |happenings| - 1;
      var earlier, last := happenings[..n], happenings[n];
      forall k | 0 <= k < n ensures Lived(cutter, c, earlier[..k]).c.Buffered() > 0 {
        assert earlier[..k] == happenings[..k];
      }
      PacingIsTwoSided(cutter, c, earlier);
      var before := Lived(cutter, c, earlier);
      assert before.c.Buffered() > 0;
      assert IsHappening(last) by { assert last in happenings; }
      if last.Frame? {
        FrameAccounts(cutter, before.c, last.now, last.weight);
        hide Framed, Earned, Elapsed;
      } else {
        MoreKeepsPace(cutter, before.c, last);
        hide Received;
      }
    }
  }

  /**
   While text remains, frames alone have been credited for less than (L + G - credit) / 0.032 ms, which for
   the lowest credit a controller can have is (L + 2 G - 1) / 0.032 ms.
   */
  lemma {:induction false} DrainsInTime(cutter: Cutter, c: Controller, frames: seq<Happening>)
    requires cutter.Valid() && Paced(cutter, c)
    requires Alive(cutter, c, frames) && forall h :: h in frames ==> IsHappening(h) && h.Frame?
    requires Lived(cutter, c, frames).c.Buffered() > 0
    ensures 0.032 * Lived(cutter, c, frames).time < c.Buffered() as real + cutter.size as real - c.credit
    ensures 0.032 * Lived(cutter, c, frames).time < c.Buffered() as real + 2.0 * cutter.size as real - 1.0
  {
    PacingIsTwoSided(cutter, c, frames);
    NothingLost(cutter, c, frames);
  }

  lemma {:induction false} NothingLost(cutter: Cutter, c: Controller, frames: seq<Happening>)
    requires cutter.Valid() && Paced(cutter, c)
    requires Alive(cutter, c, frames) && forall h :: h in frames ==> IsHappening(h) && h.Frame?
    ensures Lived(cutter, c, frames).released + Lived(cutter, c, frames).c.Buffered() == c.Buffered()
    decreases |frames|
  {
    if frames != [] {
      var n := |frames| - 1;
      var earlier, last := frames[..n], frames[n];
      forall k | 0 <= k < n ensures Lived(cutter, c, earlier[..k]).c.Buffered() > 0 {
        assert earlier[..k] == frames[..k];
      }
      NothingLost(cutter, c, earlier);
      PacingIsTwoSided(cutter, c, earlier);
      var before := Lived(cutter, c, earlier);
      assert IsHappening(last) by { assert last in frames; }
      FrameAccounts(cutter, before.c, last.now, last.weight);
      hide Framed, Earned, Elapsed;
      var (after, delta) := Framed(cutter, before.c, last.now, last.weight);
      var released := delta.GetOr(Delta("", ""));
      assert |released.content + after.content| == |before.c.content|;
      assert |released.reasoning + after.reasoning| == |before.c.reasoning|;
    }
  }
}
