/** Window: the registry of widgets and the frame loop that draws them, feeds
    them the polled events and calls the registered callbacks. One class
    serves both drafts; `draft` says which one an instance follows. */
module Windows {
  import opened Outcomes
  import opened Input
  import opened Focus
  import opened OrderedDict
  import opened Scheduler
  import opened Widgets

  /** software/main.py (Early) has no `after`; software/pygame_gui/main.py
      (Late) has it and processes the records in every frame. */
  datatype Draft = Early | Late

  /** What one frame reads from the outside world: the batch
      `pygame.event.get()` returns, the pointer position
      `pygame.mouse.get_pos()` reports during the frame, and `time.time()`
      when the after records are checked. */
  datatype FrameInput = FrameInput(events: seq<Event>, pointer: Point, clock: real)

  /** How one frame ends: the display is flipped, an exception escapes, or a
      QUIT event ends the process. */
  datatype FrameEnd = Flipped | Raised(error: Error) | Exited

  /** How `run` ends: the loop test finds the flag cleared, an exception
      escapes, QUIT ends the process, or the supplied frames run out while
      the window is still running. */
  datatype RunOutcome = Stopped | Crashed(error: Error) | QuitEvent | OutOfFrames

  /** draw_elements: the first exception in iteration order, if any. */
  function DrawOutcome(ws: seq<Widget>): (r: Outcome)
    ensures r.Raise? ==> r.error == NotImplementedError || r.error == AttributeError
    decreases |ws|
  {
    if ws == [] then Pass
    else if ws[0].DrawFailure().Some? then Raise(ws[0].DrawFailure().value)
    else DrawOutcome(ws[1..])
  }

  /** draw_elements passes exactly when no widget fails to draw, and
      otherwise raises the error of the first widget that fails. */
  lemma {:induction false} DrawOutcomeFirst(ws: seq<Widget>)
    ensures DrawOutcome(ws) == Pass <==> forall i :: 0 <= i < |ws| ==> ws[i].DrawFailure().None?
    ensures DrawOutcome(ws).Raise? ==>
              exists i :: && 0 <= i < |ws| && ws[i].DrawFailure() == Some(DrawOutcome(ws).error)
                          && forall j :: 0 <= j < i ==> ws[j].DrawFailure().None?
    decreases |ws|
  {
    if ws != [] && ws[0].DrawFailure().None? {
      DrawOutcomeFirst(ws[1..]);
      assert forall i :: 0 < i < |ws| ==> ws[i] == ws[1..][i - 1];
      if DrawOutcome(ws).Raise? {
        var i :| 0 <= i < |ws[1..]| && ws[1..][i].DrawFailure() == Some(DrawOutcome(ws).error)
                 && forall j :: 0 <= j < i ==> ws[1..][j].DrawFailure().None?;
        assert ws[i + 1].DrawFailure() == Some(DrawOutcome(ws).error);
      }
    }
  }

  /** update_elements: how many widgets are fed before the first one whose
      __feed__ raises (an instance of the base class). */
  function FeedLimit(ws: seq<Widget>): (n: nat)
    ensures n <= |ws|
    ensures forall j :: 0 <= j < n ==> !ws[j].Base?
    ensures n < |ws| ==> ws[n].Base?
    decreases |ws|
  {
    if ws == [] || ws[0].Base? then 0
    else
      var n := FeedLimit(ws[1..]);
      assert forall j :: 0 < j < |ws| ==> ws[j] == ws[1..][j - 1];
      n + 1
  }

  /** When every widget has drawn, none is an instance of the base class,
      so update_elements feeds them all. */
  lemma {:induction false} DrawnAllFed(ws: seq<Widget>)
    requires DrawOutcome(ws) == Pass
    ensures FeedLimit(ws) == |ws|
    decreases |ws|
  {
    if ws != [] {
      DrawnAllFed(ws[1..]);
    }
  }

  /** The buttons and image buttons among `ws`, whose fields decide the
      callbacks feeding `ws` invokes. */
  function Buttons(ws: seq<Widget>): set<Button>
  {
    set i | 0 <= i < |ws| && ws[i].ButtonWidget? :: ws[i].button
  }

  function ButtonImages(ws: seq<Widget>): set<ButtonImage>
  {
    set i | 0 <= i < |ws| && ws[i].ButtonImageWidget? :: ws[i].buttonImage
  }

  /** The onclick callbacks feeding every widget of `ws` the same batch
      invokes, in iteration order. */
  ghost function FeedCalls(ws: seq<Widget>, events: seq<Event>, pointer: Point): seq<Callback>
    reads Buttons(ws)`state, ButtonImages(ws)`state, ButtonImages(ws)`rect, ButtonImages(ws)`position
    decreases |ws|
  {
    if ws == [] then []
    else
      var init, last := ws[..|ws| - 1], ws[|ws| - 1];
      assert forall i :: 0 <= i < |init| ==> init[i] == ws[i];
      FeedCalls(init, events, pointer) + last.ClickCallbacks(events, pointer)
  }

  /** Each widget calls at most one callback per batch, however many
      releases the batch holds. */
  lemma {:induction false} FeedCallsAtMostOneEach(ws: seq<Widget>, events: seq<Event>, pointer: Point)
    ensures |FeedCalls(ws, events, pointer)| <= |ws|
    decreases |ws|
  {
    if ws != [] {
      FeedCallsAtMostOneEach(ws[..|ws| - 1], events, pointer);
    }
  }

  /** A batch without a mouse release fires no button, so feeding it calls
      no callback at all. */
  lemma {:induction false} NoReleaseNoCalls(ws: seq<Widget>, events: seq<Event>, pointer: Point)
    requires !HasMouseUp(events)
    ensures FeedCalls(ws, events, pointer) == []
    decreases |ws|
  {
    if ws != [] {
      NoReleaseNoCalls(ws[..|ws| - 1], events, pointer);
    }
  }

  lemma ButtonsPrefix(ws: seq<Widget>, n: nat)
    requires n <= |ws|
    ensures Buttons(ws[..n]) <= Buttons(ws) && ButtonImages(ws[..n]) <= ButtonImages(ws)
  {
    assert forall i :: 0 <= i < n ==> ws[..n][i] == ws[i];
  }

  /** The widgets of one feed with the batch and pointer they are fed; it
      only carries the argument of the two-state lemma FeedCallsStable. */
  datatype Feeding = Feeding(ws: seq<Widget>, events: seq<Event>, pointer: Point)

  /** Feeding depends only on the buttons' state, rectangle and position. */
  twostate lemma FeedCallsStable(f: Feeding)
    requires forall b :: b in Buttons(f.ws) ==> old(b.state) == b.state
    requires forall b :: b in ButtonImages(f.ws) ==>
               old(b.state) == b.state && old(b.rect) == b.rect && old(b.position) == b.position
    ensures old(FeedCalls(f.ws, f.events, f.pointer)) == FeedCalls(f.ws, f.events, f.pointer)
  {
    var ws := f.ws;
    for n := 0 to |ws|
      invariant old(FeedCalls(ws[..n], f.events, f.pointer)) == FeedCalls(ws[..n], f.events, f.pointer)
    {
      ButtonsPrefix(ws, n + 1);
      assert ws[..n + 1][..n] == ws[..n] && ws[..n + 1][n] == ws[n];
      if ws[n].ButtonWidget? {
        assert ws[n].button in Buttons(ws);
      } else if ws[n].ButtonImageWidget? {
        assert ws[n].buttonImage in ButtonImages(ws);
      }
    }
    assert ws[..|ws|] == ws;
  }

  /** The widgets, frames, starting records, per-frame calls and tick calls
      Window.Made relates; it only carries the argument of the two-state
      lemma Window.MadeStable. */
  datatype Making = Making(ws: seq<Widget>, frames: seq<FrameInput>, records: seq<AfterRecord>,
                           log: seq<seq<Callback>>, ticks: seq<seq<Callback>>)

  /** A Making with the next frame, the calls it made and its tick calls;
      it only carries the argument of the two-state lemma Window.MadeStep. */
  datatype NextFrame = NextFrame(m: Making, input: FrameInput, calls: seq<Callback>, ticked: seq<Callback>)

  /** Text inputs with the focus each had before a batch, and that batch; it
      only carries the argument of the two-state lemma FollowedStable. */
  datatype Focusing = Focusing(ts: set<TextInput>, before: map<TextInput, bool>, events: seq<Event>, pointer: Point)

  /** Followed depends only on the focus, keyboard and rectangle fields. */
  twostate lemma FollowedStable(f: Focusing)
    requires old(Followed(f.ts, f.before, f.events, f.pointer))
    requires forall t :: t in f.ts ==>
               old(t.active) == t.active && old(t.keyboardEnabled) == t.keyboardEnabled && old(t.rect) == t.rect
    ensures Followed(f.ts, f.before, f.events, f.pointer)
  {
  }

  /** Every text input of `ts` has followed the batches of `frames` from
      its focus in `before`. */
  ghost predicate Across(ts: set<TextInput>, before: map<TextInput, bool>, frames: seq<FrameInput>)
    reads ts`active, ts`rect
  {
    forall t :: t in ts && t in before ==> t.active == FocusAcross(before[t], frames, t.rect, t.keyboardRect)
  }

  /** Text inputs with their focus when `run` began, the frames run since,
      and the next frame; it only carries the argument of the two-state
      lemma AcrossStep. */
  datatype FrameStep = FrameStep(ts: set<TextInput>, before: map<TextInput, bool>, frames: seq<FrameInput>, input: FrameInput)

  /** One more frame that fed every text input extends Across by its batch. */
  twostate lemma AcrossStep(s: FrameStep)
    requires old(Across(s.ts, s.before, s.frames))
    requires Followed(s.ts, old(Actives(s.ts)), s.input.events, s.input.pointer)
    requires forall t :: t in s.ts ==> old(t.rect) == t.rect
    ensures Across(s.ts, s.before, s.frames + [s.input])
  {
    var frames, input := s.frames, s.input;
    forall t | t in s.ts && t in s.before
      ensures t.active == FocusAcross(s.before[t], frames + [input], t.rect, t.keyboardRect)
    {
      assert (frames + [input])[..|frames|] == frames;
    }
  }

  /** The text inputs among `ws`; one object may be registered twice. */
  function Inputs(ws: seq<Widget>): set<TextInput>
  {
    set i | 0 <= i < |ws| && ws[i].TextInputWidget? :: ws[i].input
  }

  /** The focus of each text input of `ts`. */
  function Actives(ts: set<TextInput>): map<TextInput, bool>
    reads ts`active
  {
    map t | t in ts :: t.active
  }

  /** Whether the keyboard of each text input of `ts` is enabled. */
  function Keyboards(ts: set<TextInput>): map<TextInput, bool>
    reads ts`keyboardEnabled
  {
    map t | t in ts :: t.keyboardEnabled
  }

  /** Every text input of `ts` has followed the batch from its focus in
      `before`, and its keyboard is enabled exactly when it is focused. */
  ghost predicate Followed(ts: set<TextInput>, before: map<TextInput, bool>, events: seq<Event>, pointer: Point)
    reads ts`active, ts`keyboardEnabled, ts`rect
  {
    forall t :: t in ts && t in before ==>
      t.active == FocusAfter(before[t], events, pointer, t.rect, t.keyboardRect)
      && t.keyboardEnabled == t.active
  }

  /** No text input of `ts` has changed its focus or its keyboard since
      `actives` and `keyboards` were taken. */
  ghost predicate Untouched(ts: set<TextInput>, actives: map<TextInput, bool>, keyboards: map<TextInput, bool>)
    reads ts`active, ts`keyboardEnabled
  {
    forall t :: t in ts && t in actives && t in keyboards ==>
      t.active == actives[t] && t.keyboardEnabled == keyboards[t]
  }

  /** The keyboard of every text input of `ts` is enabled exactly when the
      input is focused. */
  ghost predicate Synced(ts: set<TextInput>)
    reads ts`active, ts`keyboardEnabled
  {
    forall t :: t in ts ==> t.keyboardEnabled == t.active
  }

  /** The focus of one text input after the batches of a run of frames. */
  function FocusAcross(active: bool, frames: seq<FrameInput>, rect: Rect, keyboard: Rect): bool
    decreases |frames|
  {
    if frames == [] then active
    else
      var last := frames[|frames| - 1];
      FocusAfter(FocusAcross(active, frames[..|frames| - 1], rect, keyboard), last.events, last.pointer, rect, keyboard)
  }

  /** The durations at which a run of frames checks the after records. */
  function Nows(frames: seq<FrameInput>, begin: real): (nows: seq<real>)
    ensures |nows| == |frames|
    ensures forall j :: 0 <= j < |frames| ==> nows[j] == frames[j].clock - begin
  {
    seq(|frames|, j requires 0 <= j < |frames| => frames[j].clock - begin)
  }

  /** The callbacks of a run of frames, frame after frame. */
  function Flatten(log: seq<seq<Callback>>): (calls: seq<Callback>)
    decreases |log|
  {
    if log == [] then [] else Flatten(log[..|log| - 1]) + log[|log| - 1]
  }

  lemma FlattenSnoc(log: seq<seq<Callback>>, c: seq<Callback>)
    ensures Flatten(log + [c]) == Flatten(log) + c
  {
    assert (log + [c])[..|log|] == log;
  }

  /** A callback was called during a run exactly when some frame called it. */
  lemma {:induction false} FlattenMember(log: seq<seq<Callback>>, x: Callback)
    ensures x in Flatten(log) <==> exists j :: 0 <= j < |log| && x in log[j]
    decreases |log|
  {
    if log != [] {
      var n := |log| - 1;
      FlattenMember(log[..n], x);
      if x in Flatten(log[..n]) {
        var j :| 0 <= j < n && x in log[..n][j];
        assert log[j] == log[..n][j];
      }
      forall j | 0 <= j < n && x in log[j] ensures x in Flatten(log[..n]) {
        assert log[..n][j] == log[j];
      }
    }
  }

  /** No frame of the log before index `n` called `stop`. */
  ghost predicate NoStopBefore(log: seq<seq<Callback>>, n: int)
  {
    forall j :: 0 <= j < n && j < |log| ==> StopWindow !in log[j]
  }

  /** No frame before index `n` delivered a QUIT event. */
  predicate NoQuitBefore(frames: seq<FrameInput>, n: int)
  {
    forall j :: 0 <= j < n && j < |frames| ==> !HasQuit(frames[j].events)
  }

  /** Logging one more frame after a run that never called `stop`. */
  lemma LogStep(log: seq<seq<Callback>>, c: seq<Callback>)
    requires StopWindow !in Flatten(log)
    ensures Flatten(log + [c]) == Flatten(log) + c
    ensures NoStopBefore(log + [c], |log|)
  {
    FlattenSnoc(log, c);
    FlattenMember(log, StopWindow);
    forall j | 0 <= j < |log| ensures StopWindow !in (log + [c])[j] {
      assert (log + [c])[j] == log[j];
    }
  }

  /** When a run called `stop` but no frame before the last did, the last
      frame called it. */
  lemma StopInLast(log: seq<seq<Callback>>)
    requires |log| > 0 && StopWindow in Flatten(log)
    requires NoStopBefore(log, |log| - 1)
    ensures StopWindow in log[|log| - 1]
  {
    FlattenMember(log, StopWindow);
  }

  /** Feeding one more widget adds that widget's callbacks at the end. */
  lemma FeedCallsSnoc(ws: seq<Widget>, i: nat, events: seq<Event>, pointer: Point)
    requires i < |ws|
    ensures FeedCalls(ws[..i + 1], events, pointer) == FeedCalls(ws[..i], events, pointer) + ws[i].ClickCallbacks(events, pointer)
  {
    assert ws[..i + 1][..i] == ws[..i];
  }

  lemma InputsPrefix(ws: seq<Widget>, i: nat)
    requires i < |ws|
    ensures Inputs(ws[..i]) <= Inputs(ws) && ws[i].Owned() <= Inputs(ws)
    ensures Inputs(ws[..i + 1]) == Inputs(ws[..i]) + ws[i].Owned()
  {
    var a, b := ws[..i], ws[..i + 1];
    forall t | t in Inputs(a) ensures t in Inputs(ws) {
      var j :| 0 <= j < |a| && a[j].TextInputWidget? && a[j].input == t;
      assert ws[j] == a[j];
    }
    forall t | t in Inputs(b) ensures t in Inputs(a) || (ws[i].TextInputWidget? && t == ws[i].input) {
      var j :| 0 <= j < |b| && b[j].TextInputWidget? && b[j].input == t;
      if j < i {
        assert a[j] == b[j];
      }
    }
    if ws[i].TextInputWidget? {
      assert b[i] == ws[i];
    }
    forall t | t in Inputs(a) ensures t in Inputs(b) {
      var j :| 0 <= j < |a| && a[j].TextInputWidget? && a[j].input == t;
      assert b[j] == a[j];
    }
  }

  class Window {
    const draft: Draft
    const bg: string
    const fps: int
    /** `time.time()` when the window was built. */
    const begin: real
    var elements: Dict<Widget>
    var running: bool
    var tick: set<Callback>
    var after: seq<AfterRecord>

    ghost predicate Valid()
      reads this`elements
    {
      elements.Valid()
    }

    /** The registered widgets in the order draw_elements and
        update_elements visit them. */
    function Widgets(): seq<Widget>
      reads this`elements
      requires Valid()
    {
      elements.Values()
    }

    /** Window.__init__ of the later draft: empty registry, no callbacks,
        not running. */
    constructor (bg: string, fps: int, clock: real)
      ensures Valid() && draft == Late && this.bg == bg && this.fps == fps && begin == clock
      ensures elements == Empty() && !running && tick == {} && after == []
    {
      draft, this.bg, this.fps, begin := Late, bg, fps, clock;
      elements, running, tick, after := Empty(), false, {}, [];
    }

    /** Window.__init__ of the earlier draft. */
    constructor EarlyDraft(bg: string, fps: int, clock: real)
      ensures Valid() && draft == Early && this.bg == bg && this.fps == fps && begin == clock
      ensures elements == Empty() && !running && tick == {} && after == []
    {
      draft, this.bg, this.fps, begin := Early, bg, fps, clock;
      elements, running, tick, after := Empty(), false, {}, [];
    }

    /** The `duration` property at wall-clock time `clock`. */
    function Duration(clock: real): (d: real)
      ensures begin + d == clock
      ensures clock >= begin ==> d >= 0.0
    {
      clock - begin
    }

    /** The after records `run` holds after the frames `frames`, from the
        records `records` it began with: the later draft advances them at
        each frame's duration; the earlier draft has none to process. */
    function RecordsAfter(records: seq<AfterRecord>, frames: seq<FrameInput>): seq<AfterRecord>
    {
      if draft == Late then AdvanceAll(records, Nows(frames, begin)) else records
    }

    /** What `run` has built after the frames `done`, from the after
        records `records` and the focus `actives` its text inputs had when
        it began: the records have seen the frames' durations and every text
        input has followed the frames' batches. */
    ghost predicate Tracked(done: seq<FrameInput>, inputs: set<TextInput>,
                            actives: map<TextInput, bool>, records: seq<AfterRecord>)
      reads this`after, inputs`active, inputs`keyboardEnabled, inputs`rect
    {
      && after == RecordsAfter(records, done)
      && Across(inputs, actives, done)
      && (done != [] ==> Synced(inputs))
    }

    /** The callbacks one frame of `run` calls once every widget of `ws`
        has drawn, starting from the after records `before`: the onclick
        callbacks of feeding the batch, in iteration order, then `ticked`,
        which holds each tick callback once, then (later draft) the
        callbacks of the records due at the frame's duration. */
    ghost predicate FrameCalls(ws: seq<Widget>, input: FrameInput, before: seq<AfterRecord>,
                               calls: seq<Callback>, ticked: seq<Callback>)
      reads this`tick, Buttons(ws)`state, ButtonImages(ws)`state, ButtonImages(ws)`rect, ButtonImages(ws)`position
    {
      && Distinct(ticked) && (forall c :: c in ticked <==> c in tick)
      && calls == FeedCalls(ws, input.events, input.pointer) + ticked
                  + (if draft == Late then DueCallbacks(before, Duration(input.clock)) else [])
    }

    /** Every frame of `frames` made the calls `log` records, frame by
        frame, with the tick calls `ticks`, each starting from the records
        `records` advanced over the frames before it. */
    ghost predicate Made(ws: seq<Widget>, frames: seq<FrameInput>, records: seq<AfterRecord>,
                         log: seq<seq<Callback>>, ticks: seq<seq<Callback>>)
      reads this`tick, Buttons(ws)`state, ButtonImages(ws)`state, ButtonImages(ws)`rect, ButtonImages(ws)`position
    {
      && |log| == |frames| && |ticks| == |frames|
      && forall j {:trigger FrameCalls(ws, frames[j], RecordsAfter(records, frames[..j]), log[j], ticks[j])} ::
           0 <= j < |frames| ==> FrameCalls(ws, frames[j], RecordsAfter(records, frames[..j]), log[j], ticks[j])
    }

    /** Made depends only on the tick set and the buttons' state,
        rectangle and position. */
    twostate lemma MadeStable(m: Making)
      requires old(Made(m.ws, m.frames, m.records, m.log, m.ticks))
      requires old(tick) == tick
      requires forall b :: b in Buttons(m.ws) ==> old(b.state) == b.state
      requires forall b :: b in ButtonImages(m.ws) ==>
                 old(b.state) == b.state && old(b.rect) == b.rect && old(b.position) == b.position
      ensures Made(m.ws, m.frames, m.records, m.log, m.ticks)
    {
      forall j | 0 <= j < |m.frames|
        ensures FrameCalls(m.ws, m.frames[j], RecordsAfter(m.records, m.frames[..j]), m.log[j], m.ticks[j])
      {
        assert old(FrameCalls(m.ws, m.frames[j], RecordsAfter(m.records, m.frames[..j]), m.log[j], m.ticks[j]));
        FeedCallsStable(Feeding(m.ws, m.frames[j].events, m.frames[j].pointer));
      }
    }

    /** One more frame whose calls FrameCalls states extends Made, however
        the frame changed the focus, the flag and the after records. */
    twostate lemma MadeStep(n: NextFrame)
      requires old(Made(n.m.ws, n.m.frames, n.m.records, n.m.log, n.m.ticks))
      requires old(tick) == tick
      requires forall b :: b in Buttons(n.m.ws) ==> old(b.state) == b.state
      requires forall b :: b in ButtonImages(n.m.ws) ==>
                 old(b.state) == b.state && old(b.rect) == b.rect && old(b.position) == b.position
      requires FrameCalls(n.m.ws, n.input, RecordsAfter(n.m.records, n.m.frames), n.calls, n.ticked)
      ensures Made(n.m.ws, n.m.frames + [n.input], n.m.records, n.m.log + [n.calls], n.m.ticks + [n.ticked])
    {
      var m, input := n.m, n.input;
      MadeStable(m);
      forall j | 0 <= j < |m.frames| + 1
        ensures FrameCalls(m.ws, (m.frames + [input])[j], RecordsAfter(m.records, (m.frames + [input])[..j]),
                           (m.log + [n.calls])[j], (m.ticks + [n.ticked])[j])
      {
        if j < |m.frames| {
          assert (m.frames + [input])[..j] == m.frames[..j];
        } else {
          assert (m.frames + [input])[..j] == m.frames;
        }
      }
    }

    /** Assigning to `duration` always raises NotAllowedError. */
    method SetDuration(value: real) returns (r: Outcome)
      ensures r == Raise(NotAllowedError)
    {
      r := Raise(NotAllowedError);
    }

    /** window[key]: KeyError when the key is not registered. */
    function GetItem(key: string): (r: Result<Widget>)
      reads this`elements
      ensures r.Fail? <==> key !in elements.entries
      ensures r.Fail? ==> r.error == KeyError
      ensures r.Ok? ==> r.value == elements.entries[key]
    {
      if key in elements.entries then Ok(elements.entries[key]) else Fail(KeyError)
    }

    /** window[key] = value: anything that is not a widget raises TypeError
        and the registry stays as it was; any widget, the base class included,
        is stored under the key, replacing the previous value in its place. */
    method SetItem(key: string, value: Value) returns (r: Outcome)
      requires Valid()
      modifies this`elements
      ensures Valid()
      ensures value.NotAWidget? ==> r == Raise(TypeError) && elements == old(elements)
      ensures value.WidgetValue? ==> r == Pass && elements == old(elements).Put(key, value.widget)
      ensures value.WidgetValue? ==> GetItem(key) == Ok(value.widget)
    {
      match value
      case NotAWidget =>
        r := Raise(TypeError);
      case WidgetValue(w) =>
        elements := elements.Put(key, w);
        r := Pass;
    }

    /** del window[key]: KeyError when absent, otherwise only that key goes
        and the other keys keep their order. */
    method DelItem(key: string) returns (r: Outcome)
      requires Valid()
      modifies this`elements
      ensures Valid()
      ensures key !in old(elements.entries) ==> r == Raise(KeyError) && elements == old(elements)
      ensures key in old(elements.entries) ==> r == Pass && elements.entries == old(elements.entries) - {key}
      ensures key in old(elements.entries) ==>
                exists i :: && 0 <= i < |old(elements.keys)| && old(elements.keys)[i] == key
                            && elements.keys == old(elements.keys)[..i] + old(elements.keys)[i + 1..]
      ensures GetItem(key) == Fail(KeyError)
    {
      if key !in elements.entries {
        return Raise(KeyError);
      }
      elements := elements.Remove(key);
      r := Pass;
    }

    /** window.tick.add(callback): the set ignores a second addition. */
    method AddTick(callback: Callback)
      modifies this`tick
      ensures tick == old(tick) + {callback}
      ensures callback in old(tick) ==> tick == old(tick)
    {
      tick := tick + {callback};
    }

    /** Window.after (later draft only): appends a record that starts from
        the current duration. */
    method After(callback: Callback, delay: real, clock: real)
      requires draft == Late
      modifies this`after
      ensures after == old(after) + [AfterRecord(callback, delay, Duration(clock))]
    {
      after := after + [AfterRecord(callback, delay, Duration(clock))];
    }

    /** Window.stop: only clears the flag the loop tests. */
    method Stop()
      modifies this`running
      ensures !running
    {
      running := false;
    }

    /** Calling a callback: `stop` of this window clears the flag; the effect
        of any other callable is not modelled. */
    method Invoke(callback: Callback)
      modifies this`running
      ensures running == (old(running) && callback != StopWindow)
    {
      if callback == StopWindow {
        Stop();
      }
    }

    /** Window.draw_elements: the first widget whose __draw__ raises ends it. */
    method DrawElements() returns (r: Outcome)
      requires Valid()
      ensures r == DrawOutcome(Widgets())
    {
      var ws := elements.Values();
      for i := 0 to |ws|
        invariant DrawOutcome(ws[i..]) == DrawOutcome(ws)
      {
        assert ws[i..][0] == ws[i] && ws[i..][1..] == ws[i + 1..];
        var failure := ws[i].DrawFailure();
        if failure.Some? {
          return Raise(failure.value);
        }
      }
      assert ws[|ws|..] == [];
      r := Pass;
    }

    /** The __feed__ of a widget that is neither the base class nor a text
        input: a button that fires calls back through Invoke, every other
        widget ignores the batch. */
    method FeedWidget(w: Widget, events: seq<Event>, pointer: Point) returns (calls: seq<Callback>)
      requires !w.Base? && !w.TextInputWidget?
      modifies this`running
      ensures calls == w.ClickCallbacks(events, pointer)
      ensures running == (old(running) && StopWindow !in calls)
    {
      calls := [];
      match w {
        case ButtonWidget(b) =>
          var n := b.Feed(events, pointer);
          if n == 1 {
            Invoke(b.onclick);
            calls := [b.onclick];
          }
        case ButtonImageWidget(b) =>
          var n := b.Feed(events, pointer);
          if n == 1 {
            Invoke(b.onclick);
            calls := [b.onclick];
          }
        case _ =>
      }
    }

    /** Feeding a text input registered at index `i`: it follows the batch,
        or keeps the focus an earlier feed under another key gave it. */
    method FocusAt(ws: seq<Widget>, i: nat, events: seq<Event>, pointer: Point,
                   ghost actives: map<TextInput, bool>, ghost keyboards: map<TextInput, bool>)
      requires i < |ws| && ws[i].TextInputWidget?
      requires Inputs(ws) <= actives.Keys && Inputs(ws) <= keyboards.Keys
      requires Followed(Inputs(ws[..i]), actives, events, pointer)
      requires Untouched(Inputs(ws) - Inputs(ws[..i]), actives, keyboards)
      modifies ws[i].input`active, ws[i].input`keyboardEnabled
      ensures Followed(Inputs(ws[..i + 1]), actives, events, pointer)
      ensures Untouched(Inputs(ws) - Inputs(ws[..i + 1]), actives, keyboards)
    {
      InputsPrefix(ws, i);
      var t := ws[i].input;
      t.Feed(events, pointer);
      if t in Inputs(ws[..i]) {
        FocusIdempotent(actives[t], events, pointer, t.rect, t.keyboardRect);
      }
    }

    /** One iteration of the loop of update_elements on a text input before
        the first instance of the base class: no callback, and the input
        follows the batch as FocusAt says. */
    method FeedInputAt(ws: seq<Widget>, i: nat, events: seq<Event>, pointer: Point,
                       ghost actives: map<TextInput, bool>, ghost keyboards: map<TextInput, bool>)
      returns (calls: seq<Callback>)
      requires i < |ws| && ws[i].TextInputWidget?
      requires Inputs(ws) <= actives.Keys && Inputs(ws) <= keyboards.Keys
      requires Followed(Inputs(ws[..i]), actives, events, pointer)
      requires Untouched(Inputs(ws) - Inputs(ws[..i]), actives, keyboards)
      modifies ws[i].input`active, ws[i].input`keyboardEnabled
      ensures FeedCalls(ws[..i + 1], events, pointer) == old(FeedCalls(ws[..i], events, pointer)) + calls
      ensures running == old(running) && calls == []
      ensures Followed(Inputs(ws[..i + 1]), actives, events, pointer)
      ensures Untouched(Inputs(ws) - Inputs(ws[..i + 1]), actives, keyboards)
    {
      calls := [];
      label pre:
      FocusAt(ws, i, events, pointer, actives, keyboards);
      FeedCallsStable@pre(Feeding(ws[..i], events, pointer));
      FeedCallsSnoc(ws, i, events, pointer);
    }

    /** One iteration of the loop of update_elements on any other widget
        before the first instance of the base class: the callbacks so far
        grow by this widget's, and no text input changes. */
    method FeedOtherAt(ws: seq<Widget>, i: nat, events: seq<Event>, pointer: Point,
                       ghost actives: map<TextInput, bool>, ghost keyboards: map<TextInput, bool>)
      returns (calls: seq<Callback>)
      requires i < |ws| && !ws[i].Base?
      requires Inputs(ws) <= actives.Keys && Inputs(ws) <= keyboards.Keys
      requires Followed(Inputs(ws[..i]), actives, events, pointer)
      requires Untouched(Inputs(ws) - Inputs(ws[..i]), actives, keyboards)
      requires !ws[i].TextInputWidget?
      modifies this`running
      ensures FeedCalls(ws[..i + 1], events, pointer) == old(FeedCalls(ws[..i], events, pointer)) + calls
      ensures running == (old(running) && StopWindow !in calls)
      ensures Followed(Inputs(ws[..i + 1]), actives, events, pointer)
      ensures Untouched(Inputs(ws) - Inputs(ws[..i + 1]), actives, keyboards)
    {
      InputsPrefix(ws, i);
      assert ws[..i + 1][..i] == ws[..i];
      assert Followed(Inputs(ws[..i + 1]), actives, events, pointer);
      assert Untouched(Inputs(ws) - Inputs(ws[..i + 1]), actives, keyboards);
      label pre:
      calls := FeedWidget(ws[i], events, pointer);
      FeedCallsStable@pre(Feeding(ws[..i], events, pointer));
      FeedCallsSnoc(ws, i, events, pointer);
    }

    /** One iteration of the loop of update_elements on a widget before the
        first instance of the base class. */
    method FeedAt(ws: seq<Widget>, i: nat, events: seq<Event>, pointer: Point,
                  ghost actives: map<TextInput, bool>, ghost keyboards: map<TextInput, bool>)
      returns (calls: seq<Callback>)
      requires i < |ws| && !ws[i].Base?
      requires Inputs(ws) <= actives.Keys && Inputs(ws) <= keyboards.Keys
      requires Followed(Inputs(ws[..i]), actives, events, pointer)
      requires Untouched(Inputs(ws) - Inputs(ws[..i]), actives, keyboards)
      modifies this`running, ws[i].Owned()`active, ws[i].Owned()`keyboardEnabled
      ensures FeedCalls(ws[..i + 1], events, pointer) == old(FeedCalls(ws[..i], events, pointer)) + calls
      ensures running == (old(running) && StopWindow !in calls)
      ensures Followed(Inputs(ws[..i + 1]), actives, events, pointer)
      ensures Untouched(Inputs(ws) - Inputs(ws[..i + 1]), actives, keyboards)
    {
      if ws[i].TextInputWidget? {
        calls := FeedInputAt(ws, i, events, pointer, actives, keyboards);
      } else {
        calls := FeedOtherAt(ws, i, events, pointer, actives, keyboards);
      }
    }

    /** Window.update_elements: every widget up to the first instance of the
        base class is fed the same batch, and that instance raises. A text
        input registered under several keys is fed the batch several times,
        which leaves its focus where one feed does. */
    method UpdateElements(events: seq<Event>, pointer: Point) returns (r: Outcome, calls: seq<Callback>)
      requires Valid()
      modifies this`running, Inputs(Widgets())`active, Inputs(Widgets())`keyboardEnabled
      ensures FeedLimit(Widgets()) < |Widgets()| ==> r == Raise(NotImplementedError)
      ensures FeedLimit(Widgets()) == |Widgets()| ==> r == Pass
      ensures calls == FeedCalls(Widgets()[..FeedLimit(Widgets())], events, pointer)
      ensures running == (old(running) && StopWindow !in calls)
      ensures Followed(Inputs(Widgets()[..FeedLimit(Widgets())]), old(Actives(Inputs(Widgets()))), events, pointer)
      ensures Untouched(Inputs(Widgets()) - Inputs(Widgets()[..FeedLimit(Widgets())]),
                        old(Actives(Inputs(Widgets()))), old(Keyboards(Inputs(Widgets()))))
    {
      var ws := elements.Values();
      ghost var actives, keyboards := Actives(Inputs(ws)), Keyboards(Inputs(ws));
      calls := [];
      var i := 0;
      while i < |ws| && !ws[i].Base?
        invariant 0 <= i <= FeedLimit(ws)
        invariant calls == FeedCalls(ws[..i], events, pointer)
        invariant running == (old(running) && StopWindow !in calls)
        invariant Followed(Inputs(ws[..i]), actives, events, pointer)
        invariant Untouched(Inputs(ws) - Inputs(ws[..i]), actives, keyboards)
      {
        assert i < FeedLimit(ws);
        InputsPrefix(ws, i);
        var c := FeedAt(ws, i, events, pointer, actives, keyboards);
        calls := calls + c;
        i := i + 1;
      }
      assert i == FeedLimit(ws);
      r := if i < |ws| then Raise(NotImplementedError) else Pass;
    }

    /** `for action in self.tick`: each callback in the set once, in some
        order. */
    method RunTicks() returns (fired: seq<Callback>)
      modifies this`running
      ensures Distinct(fired)
      ensures forall c :: c in fired <==> c in tick
      ensures running == (old(running) && StopWindow !in fired)
    {
      var rest := tick;
      fired := [];
      while rest != {}
        invariant rest <= tick
        invariant forall c :: c in fired <==> c in tick && c !in rest
        invariant Distinct(fired)
        invariant running == (old(running) && StopWindow !in fired)
        decreases rest
      {
        var c :| c in rest;
        Invoke(c);
        fired := fired + [c];
        rest := rest - {c};
      }
    }

    /** One pass of the after loop: the record at index `i` is restarted in
        place, then its callback is called, when it is due at `now`. */
    method FireAt(i: nat, now: real) returns (called: seq<Callback>)
      requires i < |after|
      modifies this`after, this`running
      ensures after == old(after)[i := Fire(old(after)[i], now)]
      ensures called == (if Due(old(after)[i], now) then [old(after)[i].callback] else [])
      ensures running == (old(running) && StopWindow !in called)
    {
      var record := after[i];
      called := [];
      if Due(record, now) {
        after := after[i := Fire(record, now)];
        Invoke(record.callback);
        called := [record.callback];
      }
    }

    /** The after loop of a frame at duration `now`: each due record is
        restarted in place before its callback is called. */
    method ProcessAfter(now: real) returns (calls: seq<Callback>)
      modifies this`after, this`running
      ensures after == Advance(old(after), now)
      ensures calls == DueCallbacks(old(after), now)
      ensures running == (old(running) && StopWindow !in calls)
    {
      ghost var records := after;
      calls := [];
      for i := 0 to |after|
        invariant after == Advance(records[..i], now) + records[i..]
        invariant calls == DueCallbacks(records[..i], now)
        invariant running == (old(running) && StopWindow !in calls)
      {
        AdvanceStep(records, i, now);
        AdvanceInPlace(records, i, now);
        var c := FireAt(i, now);
        calls := calls + c;
      }
      assert records[..|records|] == records;
    }

    /** update_elements once every widget has drawn: no widget is an
        instance of the base class, so every one of them is fed. */
    method FeedAll(events: seq<Event>, pointer: Point) returns (calls: seq<Callback>)
      requires Valid() && DrawOutcome(Widgets()) == Pass
      modifies this`running, Inputs(Widgets())`active, Inputs(Widgets())`keyboardEnabled
      ensures calls == FeedCalls(Widgets(), events, pointer)
      ensures running == (old(running) && StopWindow !in calls)
      ensures Followed(Inputs(Widgets()), old(Actives(Inputs(Widgets()))), events, pointer)
    {
      var ws := elements.Values();
      DrawnAllFed(ws);
      assert ws[..|ws|] == ws;
      var fed;
      fed, calls := UpdateElements(events, pointer);
    }

    /** The callbacks of a frame after the feed: every tick callback, then
        (later draft) the after records due at the frame's duration. */
    method CallTimers(clock: real) returns (ticked: seq<Callback>, due: seq<Callback>)
      modifies this`running, this`after
      ensures Distinct(ticked) && forall c :: c in ticked <==> c in tick
      ensures due == (if draft == Late then DueCallbacks(old(after), Duration(clock)) else [])
      ensures after == (if draft == Late then Advance(old(after), Duration(clock)) else old(after))
      ensures running == (old(running) && StopWindow !in ticked + due)
    {
      ticked := RunTicks();
      due := [];
      if draft == Late {
        due := ProcessAfter(Duration(clock));
      }
    }

    /** The rest of a frame once every widget has drawn: feed, tick
        callbacks, after records (later draft), QUIT test. */
    method FeedAndCall(input: FrameInput) returns (end: FrameEnd, calls: seq<Callback>, ticked: seq<Callback>)
      requires Valid() && DrawOutcome(Widgets()) == Pass
      modifies this`running, this`after, Inputs(Widgets())`active, Inputs(Widgets())`keyboardEnabled
      ensures end == (if HasQuit(input.events) then Exited else Flipped)
      ensures Distinct(ticked) && forall c :: c in ticked <==> c in tick
      ensures calls == FeedCalls(Widgets(), input.events, input.pointer) + ticked
                       + (if draft == Late then DueCallbacks(old(after), Duration(input.clock)) else [])
      ensures after == (if draft == Late then Advance(old(after), Duration(input.clock)) else old(after))
      ensures running == (old(running) && StopWindow !in calls)
      ensures Followed(Inputs(Widgets()), old(Actives(Inputs(Widgets()))), input.events, input.pointer)
    {
      var ws := elements.Values();
      ghost var actives := Actives(Inputs(ws));
      var fed := FeedAll(input.events, input.pointer);
      label fed:
      var due;
      ticked, due := CallTimers(input.clock);
      calls := fed + ticked + due;
      FeedCallsStable@fed(Feeding(ws, input.events, input.pointer));
      FollowedStable@fed(Focusing(Inputs(ws), actives, input.events, input.pointer));
      end := if HasQuit(input.events) then Exited else Flipped;
    }

    /** One iteration of the `while` loop of `run`: fill, draw every widget,
        poll once, feed that batch to every widget, call the tick callbacks,
        process the after records (later draft), then test for QUIT. An
        exception from a widget's __draw__ ends the frame there. */
    method Frame(input: FrameInput) returns (end: FrameEnd, calls: seq<Callback>, ticked: seq<Callback>)
      requires Valid()
      modifies this`running, this`after, Inputs(Widgets())`active, Inputs(Widgets())`keyboardEnabled
      ensures DrawOutcome(Widgets()).Raise? ==> end == Raised(DrawOutcome(Widgets()).error)
      ensures DrawOutcome(Widgets()).Raise? ==> calls == [] && ticked == [] && running == old(running) && after == old(after)
      ensures DrawOutcome(Widgets()).Raise? ==>
                Untouched(Inputs(Widgets()), old(Actives(Inputs(Widgets()))), old(Keyboards(Inputs(Widgets()))))
      ensures DrawOutcome(Widgets()) == Pass ==> end == (if HasQuit(input.events) then Exited else Flipped)
      ensures DrawOutcome(Widgets()) == Pass ==> FrameCalls(Widgets(), input, old(after), calls, ticked)
      ensures DrawOutcome(Widgets()) == Pass ==>
                after == (if draft == Late then Advance(old(after), Duration(input.clock)) else old(after))
      ensures DrawOutcome(Widgets()) == Pass ==> running == (old(running) && StopWindow !in calls)
      ensures DrawOutcome(Widgets()) == Pass ==>
                Followed(Inputs(Widgets()), old(Actives(Inputs(Widgets()))), input.events, input.pointer)
    {
      var drawn := DrawElements();
      if drawn.Raise? {
        return Raised(drawn.error), [], [];
      }
      end, calls, ticked := FeedAndCall(input);
    }

    /** One frame of `run` with what it adds to the after records and the
        focus of the text inputs: `done` are the frames run since the flag
        was set, `input` the next one. */
    /** The after records and every text input's focus and keyboard are as
        they were when the loop was entered. */
    ghost predicate AsEntered(inputs: set<TextInput>, actives: map<TextInput, bool>,
                              keyboards: map<TextInput, bool>, records: seq<AfterRecord>)
      reads this`after, inputs`active, inputs`keyboardEnabled
    {
      after == records && Untouched(inputs, actives, keyboards)
    }

    method TrackedFrame(input: FrameInput, ghost done: seq<FrameInput>, ghost inputs: set<TextInput>,
                        ghost actives: map<TextInput, bool>, ghost records: seq<AfterRecord>)
      returns (end: FrameEnd, calls: seq<Callback>, ghost ticked: seq<Callback>)
      requires Valid() && inputs == Inputs(Widgets())
      requires Tracked(done, inputs, actives, records)
      modifies this`running, this`after, inputs`active, inputs`keyboardEnabled
      ensures end.Raised? <==> DrawOutcome(Widgets()).Raise?
      ensures end.Raised? ==> end.error == DrawOutcome(Widgets()).error && calls == []
      ensures !end.Raised? ==> end == (if HasQuit(input.events) then Exited else Flipped)
      ensures running == (old(running) && StopWindow !in calls)
      ensures end.Raised? ==> after == old(after) && unchanged(inputs`active, inputs`keyboardEnabled)
      ensures !end.Raised? ==> FrameCalls(Widgets(), input, RecordsAfter(records, done), calls, ticked)
      ensures !end.Raised? ==> Tracked(done + [input], inputs, actives, records)
    {
      assert Nows(done + [input], begin) == Nows(done, begin) + [Duration(input.clock)];
      assert Across(inputs, actives, done);
      label before:
      end, calls, ticked := Frame(input);
      if !end.Raised? {
        AcrossStep@before(FrameStep(inputs, actives, done, input));
        assert after == RecordsAfter(records, done + [input]);
      }
    }

    /** The next frame of `run`, with what it adds to the state the loop
        has built up since the flag was set, the calls each frame made
        included. */
    method RunFrame(input: FrameInput, ghost done: seq<FrameInput>, ghost log: seq<seq<Callback>>,
                    ghost ticks: seq<seq<Callback>>, ghost inputs: set<TextInput>,
                    ghost actives: map<TextInput, bool>, ghost records: seq<AfterRecord>)
      returns (end: FrameEnd, calls: seq<Callback>, ghost ticked: seq<Callback>)
      requires Valid() && inputs == Inputs(Widgets())
      requires StopWindow !in Flatten(log)
      requires Tracked(done, inputs, actives, records)
      requires Made(Widgets(), done, records, log, ticks)
      modifies this`running, this`after, inputs`active, inputs`keyboardEnabled
      ensures end.Raised? <==> DrawOutcome(Widgets()).Raise?
      ensures end.Raised? ==> end.error == DrawOutcome(Widgets()).error && calls == []
      ensures !end.Raised? ==> end == (if HasQuit(input.events) then Exited else Flipped)
      ensures running == (old(running) && StopWindow !in calls)
      ensures end.Raised? ==> after == old(after) && unchanged(inputs`active, inputs`keyboardEnabled)
      ensures !end.Raised? ==> Tracked(done + [input], inputs, actives, records)
      ensures !end.Raised? ==> Made(Widgets(), done + [input], records, log + [calls], ticks + [ticked])
      ensures Flatten(log + [calls]) == Flatten(log) + calls && NoStopBefore(log + [calls], |log|)
    {
      label before:
      end, calls, ticked := TrackedFrame(input, done, inputs, actives, records);
      if !end.Raised? {
        MadeStep@before(NextFrame(Making(Widgets(), done, records, log, ticks), input, calls, ticked));
      }
      LogStep(log, calls);
    }

    /** The `while self._runing` loop of run, entered with the flag set:
        `inputs`, `actives` and `records` are the text inputs, their focus
        and the after records when it was entered, `keyboards` whether
        their keyboards were enabled. */
    method RunLoop(frames: seq<FrameInput>, ghost inputs: set<TextInput>,
                   ghost actives: map<TextInput, bool>, ghost keyboards: map<TextInput, bool>,
                   ghost records: seq<AfterRecord>)
      returns (outcome: RunOutcome, count: nat, calls: seq<Callback>,
               ghost log: seq<seq<Callback>>, ghost ticks: seq<seq<Callback>>)
      requires Valid() && running && inputs == Inputs(Widgets()) && after == records
      requires Across(inputs, actives, []) && Untouched(inputs, actives, keyboards)
      modifies this`running, this`after, inputs`active, inputs`keyboardEnabled
      ensures 0 < count <= |frames| || (count == 0 && outcome == OutOfFrames && frames == [])
      ensures outcome.Crashed? <==> |frames| > 0 && DrawOutcome(Widgets()).Raise?
      ensures outcome.Crashed? ==> outcome.error == DrawOutcome(Widgets()).error && count == 1 && calls == []
      ensures outcome == QuitEvent ==> HasQuit(frames[count - 1].events)
      ensures NoQuitBefore(frames, count - 1)
      ensures outcome == Stopped || outcome == OutOfFrames ==> NoQuitBefore(frames, count)
      ensures |log| == count && calls == Flatten(log)
      ensures NoStopBefore(log, count - 1)
      ensures outcome == Stopped ==> !running && StopWindow in log[count - 1]
      ensures outcome == OutOfFrames ==> count == |frames| && running && StopWindow !in calls
      ensures !outcome.Crashed? ==>
                after == (if draft == Late then AdvanceAll(records, Nows(frames[..count], begin)) else records)
      ensures !outcome.Crashed? ==> Across(inputs, actives, frames[..count])
      ensures !outcome.Crashed? ==> Made(Widgets(), frames[..count], records, log, ticks)
      ensures !outcome.Crashed? && count > 0 ==> Synced(inputs)
      ensures outcome.Crashed? ==> running && AsEntered(inputs, actives, keyboards, records)
    {
      ghost var done: seq<FrameInput> := [];
      ghost var drawn := DrawOutcome(Widgets());
      count, calls, log, ticks := 0, [], [], [];
      outcome := OutOfFrames;
      while running && count < |frames| && outcome == OutOfFrames
        invariant count <= |frames| && done == frames[..count]
        invariant |log| == count && calls == Flatten(log)
        invariant NoStopBefore(log, count - 1)
        invariant running == (StopWindow !in calls)
        invariant Valid() && DrawOutcome(Widgets()) == drawn
        invariant count == 0 ==> calls == [] && outcome == OutOfFrames
        invariant outcome.Crashed? ==> count == 1 && calls == [] && drawn == Raise(outcome.error)
        invariant !outcome.Crashed? && count > 0 ==> drawn == Pass
        invariant outcome != Stopped
        invariant NoQuitBefore(frames, count - 1)
        invariant outcome == QuitEvent ==> HasQuit(frames[count - 1].events)
        invariant outcome == OutOfFrames ==> NoQuitBefore(frames, count)
        invariant !outcome.Crashed? ==> Tracked(done, inputs, actives, records)
        invariant !outcome.Crashed? ==> Made(Widgets(), done, records, log, ticks)
        invariant count == 0 || outcome.Crashed? ==> AsEntered(inputs, actives, keyboards, records)
      {
        var input := frames[count];
        var end, c, t := RunFrame(input, done, log, ticks, inputs, actives, records);
        assert frames[..count + 1] == done + [input];
        count, calls, done, log, ticks := count + 1, calls + c, done + [input], log + [c], ticks + [t];
        if end.Raised? {
          outcome := Crashed(end.error);
        } else if end == Exited {
          outcome := QuitEvent;
        }
      }
      if outcome == OutOfFrames && !running {
        StopInLast(log);
        outcome := Stopped;
      }
    }

    /** Window.run over the frames supplied: the flag is set, then frames run
        while it stays set. A `stop` during a frame lets that frame finish;
        QUIT ends the process at the end of its frame; an exception from a
        widget escapes from the first frame. */
    method Run(frames: seq<FrameInput>)
      returns (outcome: RunOutcome, count: nat, calls: seq<Callback>,
               ghost log: seq<seq<Callback>>, ghost ticks: seq<seq<Callback>>)
      requires Valid()
      modifies this`running, this`after, Inputs(Widgets())`active, Inputs(Widgets())`keyboardEnabled
      ensures 0 < count <= |frames| || (count == 0 && outcome == OutOfFrames && frames == [])
      ensures outcome.Crashed? <==> |frames| > 0 && DrawOutcome(Widgets()).Raise?
      ensures outcome.Crashed? ==> outcome.error == DrawOutcome(Widgets()).error && count == 1 && calls == []
      ensures outcome == QuitEvent ==> HasQuit(frames[count - 1].events)
      ensures NoQuitBefore(frames, count - 1)
      ensures outcome == Stopped || outcome == OutOfFrames ==> NoQuitBefore(frames, count)
      ensures |log| == count && calls == Flatten(log)
      ensures NoStopBefore(log, count - 1)
      ensures outcome == Stopped ==> !running && StopWindow in log[count - 1]
      ensures outcome == OutOfFrames ==> count == |frames| && running && StopWindow !in calls
      ensures !outcome.Crashed? ==>
                after == (if draft == Late then AdvanceAll(old(after), Nows(frames[..count], begin)) else old(after))
      ensures !outcome.Crashed? ==> Across(Inputs(Widgets()), old(Actives(Inputs(Widgets()))), frames[..count])
      ensures !outcome.Crashed? && count > 0 ==> Synced(Inputs(Widgets()))
      ensures outcome.Crashed? ==>
                running && after == old(after)
                && Untouched(Inputs(Widgets()), old(Actives(Inputs(Widgets()))), old(Keyboards(Inputs(Widgets()))))
      ensures !outcome.Crashed? ==> |ticks| == count
      ensures !outcome.Crashed? ==>
                forall j :: 0 <= j < count ==> FrameCalls(Widgets(), frames[j], RecordsAfter(old(after), frames[..j]), log[j], ticks[j])
    {
      var ws := elements.Values();
      ghost var inputs, actives, keyboards, records := Inputs(ws), Actives(Inputs(ws)), Keyboards(Inputs(ws)), after;
      running := true;
      outcome, count, calls, log, ticks := RunLoop(frames, inputs, actives, keyboards, records);
      assert Widgets() == ws && old(Actives(Inputs(Widgets()))) == actives;
      assert old(Keyboards(Inputs(Widgets()))) == keyboards;
      if !outcome.Crashed? {
        forall j | 0 <= j < count
          ensures FrameCalls(ws, frames[j], RecordsAfter(records, frames[..j]), log[j], ticks[j])
        {
          assert frames[..count][j] == frames[j] && frames[..count][..j] == frames[..j];
        }
      }
    }
  }
}
