/**
 The smoother of streamed text: one paced controller and one pending animation frame per message.

 Its value is a record; the class changes it in place and is proved to follow the record's functions.
 */
module StreamSmoother {
  import opened Wrappers
  import opened TextPacing

  type FrameId = nat

  datatype Key = Key(thread: string, message: string)

  /** A chunk of a message; `immediate` when it carries tool calls or reduced motion is wanted. */
  datatype Chunk = Chunk(content: string, reasoning: string, immediate: bool)

  datatype Playing = Playing(c: Controller, frame: FrameId)

  /** `frames` holds the callbacks the browser has pending, `shown` what each message has been given. */
  datatype Smoother = Smoother(
    playing: map<Key, Playing>,
    frames: map<FrameId, Key>,
    nextFrame: FrameId,
    shown: map<Key, seq<Delta>>)
  {
    function Shown(key: Key): seq<Delta> {
      if key in shown then shown[key] else []
    }

    function Showing(key: Key, delta: Delta): Smoother {
      this.(shown := shown[key := Shown(key) + [delta]])
    }

    /** Deliver what is buffered of one message, at once, and cancel its frame. */
    function Flushed(key: Key): Smoother {
      if key !in playing then this
      else
        var p := playing[key];
        var delivered := if p.c.Buffered() > 0 then Showing(key, Delta(p.c.content, p.c.reasoning)) else this;
        delivered.(playing := playing - {key}, frames := frames - {p.frame})
    }

    /** A chunk arrives. */
    function Pushed(key: Key, chunk: Chunk, now: real, weight: real): Smoother {
      if chunk.immediate then Flushed(key).Showing(key, Delta(chunk.content, chunk.reasoning))
      else if chunk.content == "" && chunk.reasoning == "" then Showing(key, Delta("", ""))
      else if key in playing then
        var p := playing[key];
        this.(playing := playing[key := p.(c := Received(p.c, chunk.content, chunk.reasoning, now, weight))])
      else
        Showing(key, Delta("", "")).(
          playing := playing[key := Playing(Received(Fresh(now), chunk.content, chunk.reasoning, now, weight), nextFrame)],
          frames := frames[nextFrame := key],
          nextFrame := nextFrame + 1)
    }

    /** A pending frame fires. */
    function Ticked(cutter: Cutter, id: FrameId, now: real, weight: real): Smoother
      requires cutter.Valid() && id in frames
    {
      var key := frames[id];
      var fired := this.(frames := frames - {id});
      if key !in playing then fired
      else
        var (c, delta) := Framed(cutter, playing[key].c, now, weight);
        var played := if delta.Some? then fired.Showing(key, delta.value) else fired;
        if c.Buffered() > 0 then
          played.(playing := playing[key := Playing(c, nextFrame)], frames := fired.frames[nextFrame := key],
                  nextFrame := nextFrame + 1)
        else played.(playing := playing - {key})
    }
  }

  const IDLE := Smoother(map[], map[], 0, map[])

  /** Flush every message of the list, one after the other. */
  function FlushedEach(s: Smoother, keys: seq<Key>): Smoother
    decreases |keys|
  {
    if keys == [] then s else FlushedEach(s.Flushed(keys[0]), keys[1..])
  }

  function KeysOf(s: Smoother, thread: string): set<Key> {
    set key | key in s.playing && key.thread == thread
  }

  // ---- The smoother keeps its messages tidy -------------------------------------------------------

  /** Every message that is playing has text buffered and exactly one pending frame, and frames are nobody else's. */
  ghost predicate Tidy(s: Smoother) {
    && (forall key :: key in s.playing ==>
          && s.playing[key].c.Buffered() > 0
          && s.playing[key].frame in s.frames && s.frames[s.playing[key].frame] == key)
    && (forall id :: id in s.frames ==>
          s.frames[id] in s.playing && s.playing[s.frames[id]].frame == id && id < s.nextFrame)
  }

  lemma {:induction false} FlushKeepsTidy(s: Smoother, key: Key)
    requires Tidy(s)
    ensures Tidy(s.Flushed(key)) && key !in s.Flushed(key).playing
    ensures s.Flushed(key).playing == s.playing - {key}
  {
  }

  lemma {:induction false} FlushEachKeepsTidy(s: Smoother, keys: seq<Key>)
    requires Tidy(s)
    ensures Tidy(FlushedEach(s, keys))
    ensures FlushedEach(s, keys).playing == s.playing - (set key | key in keys)
    decreases |keys|
  {
    if keys != [] {
      FlushKeepsTidy(s, keys[0]);
      FlushEachKeepsTidy(s.Flushed(keys[0]), keys[1..]);
    }
  }

  lemma {:induction false} PushKeepsTidy(s: Smoother, key: Key, chunk: Chunk, now: real, weight: real)
    requires Tidy(s)
    ensures Tidy(s.Pushed(key, chunk, now, weight))
  {
    if chunk.immediate {
      FlushKeepsTidy(s, key);
      hide Smoother.Flushed;
    } else {
      hide Smoother.Flushed;
    }
  }

  lemma {:induction false} TickKeepsTidy(s: Smoother, cutter: Cutter, id: FrameId, now: real, weight: real)
    requires Tidy(s) && cutter.Valid() && id in s.frames
    ensures Tidy(s.Ticked(cutter, id, now, weight))
  {
    hide Framed;
  }

  // ---- No text is lost or reordered ----------------------------------------------------------------

  function ContentOf(deltas: seq<Delta>): string {
    if deltas == [] then "" else ContentOf(deltas[..|deltas| - 1]) + deltas[|deltas| - 1].content
  }

  function ReasoningOf(deltas: seq<Delta>): string {
    if deltas == [] then "" else ReasoningOf(deltas[..|deltas| - 1]) + deltas[|deltas| - 1].reasoning
  }

  lemma {:induction false} OneDeltaMore(deltas: seq<Delta>, delta: Delta)
    ensures ContentOf(deltas + [delta]) == ContentOf(deltas) + delta.content
    ensures ReasoningOf(deltas + [delta]) == ReasoningOf(deltas) + delta.reasoning
  {
    assert (deltas + [delta])[..|deltas|] == deltas;
  }

  /** What the page shows of a message, followed by what is still buffered. */
  function Content(s: Smoother, key: Key): string {
    ContentOf(s.Shown(key)) + if key in s.playing then s.playing[key].c.content else ""
  }

  function Reasoning(s: Smoother, key: Key): string {
    ReasoningOf(s.Shown(key)) + if key in s.playing then s.playing[key].c.reasoning else ""
  }

  predicate SameText(s: Smoother, s': Smoother, key: Key) {
    Content(s', key) == Content(s, key) && Reasoning(s', key) == Reasoning(s, key)
  }

  lemma {:induction false} FlushKeepsText(s: Smoother, key: Key, any: Key)
    ensures SameText(s, s.Flushed(key), any)
  {
    if any == key && key in s.playing {
      OneDeltaMore(s.Shown(key), Delta(s.playing[key].c.content, s.playing[key].c.reasoning));
    }
  }

  lemma {:induction false} FlushEachKeepsText(s: Smoother, keys: seq<Key>, any: Key)
    ensures SameText(s, FlushedEach(s, keys), any)
    decreases |keys|
  {
    if keys != [] {
      FlushKeepsText(s, keys[0], any);
      FlushEachKeepsText(s.Flushed(keys[0]), keys[1..], any);
    }
  }

  /** A push adds its text at the end of its own message, and nothing anywhere else. */
  lemma {:induction false} PushAddsText(s: Smoother, key: Key, chunk: Chunk, now: real, weight: real, any: Key)
    ensures
      var s' := s.Pushed(key, chunk, now, weight);
      && Content(s', any) == Content(s, any) + (if any == key then chunk.content else "")
      && Reasoning(s', any) == Reasoning(s, any) + (if any == key then chunk.reasoning else "")
  {
    if any != key {
      FlushKeepsText(s, key, any);
      AppendLast(Content(s, any), "", "");
      AppendLast(Reasoning(s, any), "", "");
    } else if chunk.immediate {
      PushImmediately(s, key, chunk);
    } else {
      PushBuffered(s, key, chunk, now, weight);
    }
  }

  lemma {:induction false} PushImmediately(s: Smoother, key: Key, chunk: Chunk)
    ensures
      var s' := s.Flushed(key).Showing(key, Delta(chunk.content, chunk.reasoning));
      Content(s', key) == Content(s, key) + chunk.content && Reasoning(s', key) == Reasoning(s, key) + chunk.reasoning
  {
    FlushKeepsText(s, key, key);
    var flushed := s.Flushed(key);
    assert key !in flushed.playing;
    OneDeltaMore(flushed.Shown(key), Delta(chunk.content, chunk.reasoning));
    AppendLast(ContentOf(flushed.Shown(key)), "", "");
    AppendLast(ReasoningOf(flushed.Shown(key)), "", "");
    AppendLast(ContentOf(flushed.Shown(key)) + chunk.content, "", "");
    AppendLast(ReasoningOf(flushed.Shown(key)) + chunk.reasoning, "", "");
    hide ContentOf, ReasoningOf, Smoother.Flushed;
  }

  lemma {:induction false} PushBuffered(s: Smoother, key: Key, chunk: Chunk, now: real, weight: real)
    requires !chunk.immediate
    ensures
      var s' := s.Pushed(key, chunk, now, weight);
      Content(s', key) == Content(s, key) + chunk.content && Reasoning(s', key) == Reasoning(s, key) + chunk.reasoning
  {
    var content, reasoning := ContentOf(s.Shown(key)), ReasoningOf(s.Shown(key));
    OneDeltaMore(s.Shown(key), Delta("", ""));
    AppendLast(content, "", "");
    AppendLast(reasoning, "", "");
    var c := if key in s.playing then s.playing[key].c else Fresh(now);
    ReceivedText(c, chunk, now, weight);
    AppendLast(content, c.content, chunk.content);
    AppendLast(reasoning, c.reasoning, chunk.reasoning);
    AppendLast(content + c.content, "", "");
    AppendLast(reasoning + c.reasoning, "", "");
    hide ContentOf, ReasoningOf, Received;
  }

  lemma {:induction false} ReceivedText(c: Controller, chunk: Chunk, now: real, weight: real)
    ensures
      var after := Received(c, chunk.content, chunk.reasoning, now, weight);
      after.content == c.content + chunk.content && after.reasoning == c.reasoning + chunk.reasoning
  {
  }

  lemma {:induction false} AppendLast(a: string, b: string, c: string)
    ensures a + (b + c) == a + b + c
    ensures a + "" == a && "" + c == c
  {
  }

  /** Text moved from the buffer to the page stays where it was. */
  lemma {:induction false} ReleasedText(deltas: seq<Delta>, delta: Option<Delta>, c: Controller, after: Controller)
    requires
      var released := delta.GetOr(Delta("", ""));
      released.content + after.content == c.content && released.reasoning + after.reasoning == c.reasoning
    ensures
      var longer := if delta.Some? then deltas + [delta.value] else deltas;
      && ContentOf(longer) + after.content == ContentOf(deltas) + c.content
      && ReasoningOf(longer) + after.reasoning == ReasoningOf(deltas) + c.reasoning
  {
    if delta.Some? {
      OneDeltaMore(deltas, delta.value);
      AppendLast(ContentOf(deltas), delta.value.content, after.content);
      AppendLast(ReasoningOf(deltas), delta.value.reasoning, after.reasoning);
    } else {
      AppendLast("", "", after.content);
      AppendLast("", "", after.reasoning);
    }
  }

  lemma {:induction false} TickKeepsText(s: Smoother, cutter: Cutter, id: FrameId, now: real, weight: real, any: Key)
    requires cutter.Valid() && id in s.frames
    ensures SameText(s, s.Ticked(cutter, id, now, weight), any)
  {
    var key := s.frames[id];
    if any == key && key in s.playing {
      var c := s.playing[key].c;
      var (after, delta) := Framed(cutter, c, now, weight);
      FrameKeepsText(cutter, c, now, weight);
      ReleasedText(s.Shown(key), delta, c, after);
      hide Framed, ContentOf, ReasoningOf;
      assert after.Buffered() == 0 ==> after.content == "" && after.reasoning == "";
    }
  }

  lemma {:induction false} FrameKeepsText(cutter: Cutter, c: Controller, now: real, weight: real)
    requires cutter.Valid()
    ensures
      var (after, delta) := Framed(cutter, c, now, weight);
      var released := delta.GetOr(Delta("", ""));
      released.content + after.content == c.content && released.reasoning + after.reasoning == c.reasoning
  {
    hide Take;
  }

  // ---- Whole runs ---------------------------------------------------------------------------------

  datatype Action =
    | Push(key: Key, chunk: Chunk, now: real, weight: real)
    | Tick(id: FrameId, now: real, weight: real)
    | FlushThread(thread: string, order: seq<Key>)

  ghost predicate Enabled(s: Smoother, a: Action) {
    match a
    case Push(_, _, _, _) => true
    case Tick(id, _, _) => id in s.frames
    case FlushThread(thread, order) => (set key | key in order) == KeysOf(s, thread)
  }

  function After(cutter: Cutter, s: Smoother, a: Action): Smoother
    requires cutter.Valid() && (a.Tick? ==> a.id in s.frames)
  {
    match a
    case Push(key, chunk, now, weight) => s.Pushed(key, chunk, now, weight)
    case Tick(id, now, weight) => s.Ticked(cutter, id, now, weight)
    case FlushThread(_, order) => FlushedEach(s, order)
  }

  ghost predicate IsRun(cutter: Cutter, states: seq<Smoother>, actions: seq<Action>)
    requires cutter.Valid()
  {
    && |states| == |actions| + 1
    && states[0] == IDLE
    && forall k {:trigger actions[k]} :: 0 <= k < |actions| ==>
         Enabled(states[k], actions[k]) && states[k + 1] == After(cutter, states[k], actions[k])
  }

  /** The text pushed to a message, in order. */
  function PushedContent(actions: seq<Action>, key: Key): string {
    if actions == [] then ""
    else
      var last := actions[|actions| - 1];
      PushedContent(actions[..|actions| - 1], key) + if last.Push? && last.key == key then last.chunk.content else ""
  }

  function PushedReasoning(actions: seq<Action>, key: Key): string {
    if actions == [] then ""
    else
      var last := actions[|actions| - 1];
      PushedReasoning(actions[..|actions| - 1], key) + if last.Push? && last.key == key then last.chunk.reasoning else ""
  }

  lemma {:induction false} ActionKeepsTidy(cutter: Cutter, s: Smoother, a: Action)
    requires cutter.Valid() && Tidy(s) && Enabled(s, a)
    ensures Tidy(After(cutter, s, a))
  {
    match a
    case Push(key, chunk, now, weight) => PushKeepsTidy(s, key, chunk, now, weight);
    case Tick(id, now, weight) => TickKeepsTidy(s, cutter, id, now, weight);
    case FlushThread(_, order) => FlushEachKeepsTidy(s, order);
  }

  /** Between any two actions every playing message has text buffered and exactly one frame pending. */
  lemma {:induction false} AlwaysTidy(cutter: Cutter, states: seq<Smoother>, actions: seq<Action>, k: nat)
    requires cutter.Valid() && IsRun(cutter, states, actions) && k < |states|
    ensures Tidy(states[k])
  {
    if k > 0 {
      AlwaysTidy(cutter, states, actions, k - 1);
      assert Enabled(states[k - 1], actions[k - 1]);
      ActionKeepsTidy(cutter, states[k - 1], actions[k - 1]);
    }
  }

  /**
   Over every interleaving of pushes, frames and flushes, what a message shows followed by what it
   buffers is what was pushed to it, in order.
   */
  lemma {:induction false} TextIsConserved(
      cutter: Cutter, states: seq<Smoother>, actions: seq<Action>, k: nat, key: Key)
    requires cutter.Valid() && IsRun(cutter, states, actions) && k < |states|
    ensures Content(states[k], key) == PushedContent(actions[..k], key)
    ensures Reasoning(states[k], key) == PushedReasoning(actions[..k], key)
  {
    hide Enabled, After, Content, Reasoning, PushedContent, PushedReasoning;
    if k == 0 {
      NothingYet(key);
    } else {
      TextIsConserved(cutter, states, actions, k - 1, key);
      assert Enabled(states[k - 1], actions[k - 1]);
      PushedOneMore(actions[..k - 1], actions[k - 1], key);
      assert actions[..k] == actions[..k - 1] + [actions[k - 1]];
      ActionConserves(cutter, states[k - 1], actions[k - 1], key);
    }
  }

  lemma {:induction false} NothingYet(key: Key)
    ensures Content(IDLE, key) == PushedContent([], key) && Reasoning(IDLE, key) == PushedReasoning([], key)
  {
  }

  lemma {:induction false} PushedOneMore(actions: seq<Action>, a: Action, key: Key)
    ensures PushedContent(actions + [a], key)
         == PushedContent(actions, key) + (if a.Push? && a.key == key then a.chunk.content else "")
    ensures PushedReasoning(actions + [a], key)
         == PushedReasoning(actions, key) + (if a.Push? && a.key == key then a.chunk.reasoning else "")
  {
    assert (actions + [a])[..|actions|] == actions;
  }

  lemma {:induction false} ActionConserves(cutter: Cutter, s: Smoother, a: Action, key: Key)
    requires cutter.Valid() && Enabled(s, a)
    ensures
      var s' := After(cutter, s, a);
      && Content(s', key) == Content(s, key) + (if a.Push? && a.key == key then a.chunk.content else "")
      && Reasoning(s', key) == Reasoning(s, key) + (if a.Push? && a.key == key then a.chunk.reasoning else "")
  {
    match a
    case Push(pushed, chunk, now, weight) => PushAddsText(s, pushed, chunk, now, weight, key);
    case Tick(id, now, weight) =>
      TickKeepsText(s, cutter, id, now, weight, key);
      AppendLast(Content(s, key), "", "");
      AppendLast(Reasoning(s, key), "", "");
    case FlushThread(_, order) =>
      FlushEachKeepsText(s, order, key);
      AppendLast(Content(s, key), "", "");
      AppendLast(Reasoning(s, key), "", "");
  }

  predicate NothingPending(s: Smoother, thread: string) {
    forall id :: id in s.frames ==> s.frames[id].thread != thread
  }

  /** After a flush everything pushed to the thread is shown, and nothing of it is pending. */
  lemma {:induction false} FlushDeliversEverything(cutter: Cutter, states: seq<Smoother>, actions: seq<Action>, k: nat, key: Key)
    requires cutter.Valid() && IsRun(cutter, states, actions) && k < |actions|
    requires actions[k].FlushThread? && actions[k].thread == key.thread
    ensures ContentOf(states[k + 1].Shown(key)) == PushedContent(actions[..k + 1], key)
    ensures ReasoningOf(states[k + 1].Shown(key)) == PushedReasoning(actions[..k + 1], key)
    ensures key !in states[k + 1].playing
    ensures NothingPending(states[k + 1], key.thread)
  {
    AlwaysTidy(cutter, states, actions, k);
    assert Enabled(states[k], actions[k]);
    FlushEachKeepsTidy(states[k], actions[k].order);
    TextIsConserved(cutter, states, actions, k + 1, key);
    forall other: Key | other.thread == key.thread ensures other !in states[k + 1].playing {
      assert other in states[k].playing ==> other in KeysOf(states[k], key.thread);
    }
  }

  // ---- Every message keeps its pace ----------------------------------------------------------------

  ghost predicate AllPaced(cutter: Cutter, s: Smoother) {
    forall key :: key in s.playing ==> Paced(cutter, s.playing[key].c)
  }

  predicate IsSmoothing(a: Action) {
    (a.Push? || a.Tick?) ==> 0.0 < a.weight < 1.0
  }

  lemma {:induction false} ActionKeepsPaced(cutter: Cutter, s: Smoother, a: Action)
    requires cutter.Valid() && Tidy(s) && AllPaced(cutter, s) && Enabled(s, a) && IsSmoothing(a)
    ensures AllPaced(cutter, After(cutter, s, a))
  {
    match a
    case Push(key, chunk, now, weight) =>
    case Tick(id, now, weight) =>
      FrameAccounts(cutter, s.playing[s.frames[id]].c, now, weight);
      hide Framed, Paced;
    case FlushThread(_, order) => FlushEachKeepsTidy(s, order);
  }

  /** In every state what each message was given is within a segment of the credit its time has earned. */
  lemma {:induction false} AlwaysPaced(cutter: Cutter, states: seq<Smoother>, actions: seq<Action>, k: nat)
    requires cutter.Valid() && IsRun(cutter, states, actions) && k < |states|
    requires forall a :: a in actions ==> IsSmoothing(a)
    ensures AllPaced(cutter, states[k])
  {
    if k > 0 {
      AlwaysPaced(cutter, states, actions, k - 1);
      AlwaysTidy(cutter, states, actions, k - 1);
      assert Enabled(states[k - 1], actions[k - 1]) && IsSmoothing(actions[k - 1]);
      ActionKeepsPaced(cutter, states[k - 1], actions[k - 1]);
    }
  }

  // ---- The smoother in place ------------------------------------------------------------------------

  class StreamSmootherState {
    const cutter: Cutter
    var playing: map<Key, Playing>
    var frames: map<FrameId, Key>
    var nextFrame: FrameId
    var shown: map<Key, seq<Delta>>

    function View(): Smoother
      reads this
    {
      Smoother(playing, frames, nextFrame, shown)
    }

    constructor (cutter: Cutter)
      requires cutter.Valid()
      ensures View() == IDLE && this.cutter == cutter
    {
      this.cutter := cutter;
      playing, frames, nextFrame, shown := map[], map[], 0, map[];
    }

    /** What the page has been given of every other message stays as it was. */
    twostate predicate OthersShownAlike(key: Key)
      reads this
    {
      forall other: Key :: other != key ==> View().Shown(other) == old(View()).Shown(other)
    }

    method AppendLoadingChunk(key: Key, delta: Delta)
      modifies this`shown
      ensures View().Shown(key) == old(View()).Shown(key) + [delta] && OthersShownAlike(key)
      ensures View() == old(View()).Showing(key, delta)
    {
      var chunks := if key in shown then shown[key] else [];
      shown := shown[key := chunks + [delta]];
    }

    method FlushMessage(key: Key)
      modifies this`playing, this`frames, this`shown
      ensures playing == old(playing) - {key} && OthersShownAlike(key)
      ensures key in old(playing) ==> frames == old(frames) - {old(playing)[key].frame}
      ensures key in old(playing) && old(playing)[key].c.Buffered() > 0 ==>
        var c := old(playing)[key].c;
        View().Shown(key) == old(View()).Shown(key) + [Delta(c.content, c.reasoning)]
      ensures View() == old(View()).Flushed(key)
    {
      if key !in playing {
        return;
      }
      var p := playing[key];
      frames := frames - {p.frame};
      if p.c.Buffered() > 0 {
        AppendLoadingChunk(key, Delta(p.c.content, p.c.reasoning));
      }
      playing := playing - {key};
    }

    /** A chunk that cannot wait is given to the page now, after all that waited; one without text changes nothing else. */
    method PushChunk(key: Key, chunk: Chunk, now: real, weight: real)
      modifies this
      ensures OthersShownAlike(key) && playing - {key} == old(playing) - {key}
      ensures
        var shown, before := View().Shown(key), old(View()).Shown(key);
        if chunk.immediate then
          key !in playing && |shown| > 0 && shown[|shown| - 1] == Delta(chunk.content, chunk.reasoning)
        else if chunk.content == "" && chunk.reasoning == "" then
          playing == old(playing) && frames == old(frames) && shown == before + [Delta("", "")]
        else
          && key in playing
          && shown == (if key in old(playing) then before else before + [Delta("", "")])
          && (key !in old(playing) ==> playing[key].frame == old(nextFrame) && frames == old(frames)[old(nextFrame) := key])
      ensures View() == old(View()).Pushed(key, chunk, now, weight)
    {
      if chunk.immediate {
        FlushMessage(key);
        AppendLoadingChunk(key, Delta(chunk.content, chunk.reasoning));
        return;
      }
      if chunk.content == "" && chunk.reasoning == "" {
        AppendLoadingChunk(key, Delta("", ""));
        return;
      }
      if key in playing {
        var p := playing[key];
        playing := playing[key := p.(c := Received(p.c, chunk.content, chunk.reasoning, now, weight))];
      } else {
        AppendLoadingChunk(key, Delta("", ""));
        var c := Received(Fresh(now), chunk.content, chunk.reasoning, now, weight);
        playing := playing[key := Playing(c, nextFrame)];
        frames := frames[nextFrame := key];
        nextFrame := nextFrame + 1;
      }
    }

    /** The content of a frame: what is released now, in both fields. */
    method PlayFrame(c: Controller, now: real, weight: real) returns (after: Controller, delta: Option<Delta>)
      requires cutter.Valid()
      ensures (after, delta) == Framed(cutter, c, now, weight)
    {
      after, delta := c, None;
      if now <= c.lastFrameAt {
        return;
      }
      var rate := NewRate(c, weight);
      after := c.(lastFrameAt := now, rate := rate, credit := c.credit + Gain(rate, Elapsed(c, now)));
      var budget := after.credit.Floor;
      if budget > 0 {
        var remaining := budget;
        var content, contentRest := TakeFromBuffer(cutter, after.content, remaining);
        remaining := remaining - |content|;
        var reasoning, reasoningRest := TakeFromBuffer(cutter, after.reasoning, remaining);
        remaining := remaining - |reasoning|;
        after := after.(content := contentRest, reasoning := reasoningRest,
                        credit := after.credit - (budget - remaining) as real);
        delta := Some(Delta(content, reasoning));
      }
    }

    method Tick(id: FrameId, now: real, weight: real)
      requires cutter.Valid() && id in frames
      modifies this
      ensures OthersShownAlike(old(frames)[id]) && playing - {old(frames)[id]} == old(playing) - {old(frames)[id]}
      ensures
        var key := old(frames)[id];
        if key in playing then frames == (old(frames) - {id})[old(nextFrame) := key] && playing[key].frame == old(nextFrame)
        else frames == old(frames) - {id}
      ensures View() == old(View()).Ticked(cutter, id, now, weight)
    {
      var key := frames[id];
      frames := frames - {id};
      if key !in playing {
        return;
      }
      var c, delta := PlayFrame(playing[key].c, now, weight);
      if delta.Some? {
        AppendLoadingChunk(key, delta.value);
      }
      if c.Buffered() > 0 {
        playing := playing[key := Playing(c, nextFrame)];
        frames := frames[nextFrame := key];
        nextFrame := nextFrame + 1;
      } else {
        playing := playing - {key};
      }
    }

    method FlushThread(thread: string) returns (ghost order: seq<Key>)
      requires Tidy(View())
      modifies this
      ensures (set key | key in order) == KeysOf(old(View()), thread)
      ensures View() == FlushedEach(old(View()), order)
    {
      order := [];
      var pending := set key | key in playing && key.thread == thread;
      while pending != {}
        invariant Tidy(View()) && View() == FlushedEach(old(View()), order)
        invariant pending == KeysOf(View(), thread)
        invariant (set key | key in order) + pending == KeysOf(old(View()), thread)
        decreases pending
      {
        var key :| key in pending;
        FlushKeepsTidy(View(), key);
        FlushedOneMore(old(View()), order, key);
        FlushMessage(key);
        order := order + [key];
        pending := pending - {key};
      }
    }
  }

  lemma {:induction false} FlushedOneMore(s: Smoother, keys: seq<Key>, key: Key)
    ensures FlushedEach(s, keys + [key]) == FlushedEach(s, keys).Flushed(key)
    decreases |keys|
  {
    if keys == [] {
      assert keys + [key] == [key];
    } else {
      FlushedOneMore(s.Flushed(keys[0]), keys[1..], key);
      assert (keys + [key])[1..] == keys[1..] + [key];
    }
  }
}
