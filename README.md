# Dpra-V GUI toolkit: window registry, frame loop and widget input rules

This project models the core of the small pygame GUI toolkit of Dpra-V in two
drafts: `software/main.py` (the earlier draft) and
`software/pygame_gui/main.py` (the later draft). Everything pygame does for
the toolkit is abstracted away:

- drawing and the event queue;
- the mouse position and the mask;
- time and the clock.

What remains is modelled:

- **the `Window` class**, in module `Windows`. It keeps a string-keyed widget
  registry, which iterates in insertion order (module `OrderedDict`). It keeps
  a `tick` set of callbacks, the later draft's `after` records (module
  `Scheduler`) and the `_runing` flag. `run` is a `while` loop over frames
  supplied as input: fill, draw every widget, poll once, feed that one batch
  to every widget, call every tick callback, process the after records
  (later draft only), then test for QUIT. One `Window` class serves both
  drafts. A `const draft` says which one an instance follows; the earlier
  draft has no after step.
- **the widgets**, in module `Widgets`: `Image`, `Label`, `Button`,
  `ButtonImage`, `TextInput`, `Line` and `Polygon`, as classes whose fields
  their methods update in place.
  - The hit tests of the two kinds of button are in module `Clicks`.
  - The focus state machine of a text input is in module `Focus`.
  - The "None keeps, anything else overwrites" rule of the in-place
    `configure` methods is in module `Attributes`.
  - Line corners and the polygon fill rule are in module `Geometry`.
- **the outside world**, in module `Input`. Events are `MouseUp`,
  `FingerUp(pos)`, `Quit` or `Other`. `Rect.collidepoint` is pygame's
  half-open box. A callback is either the running window's `stop` or an
  opaque callable. Each frame supplies its event batch, the pointer position
  (`pygame.mouse.get_pos()`) and the wall-clock time (`time.time()`).
- **exceptions** become values of the `Error` datatype, in module `Outcomes`.
  An operation that can raise returns an `Outcome` or a `Result`.

The quirks of the source are modelled as written:

- `configure` on `Label` and `Button` writes `text_offset` into the
  background (`Paint.Coordinates`).
- `Button.configure` always ends in AttributeError after changing the fields.
- `Polygon.configure` without `fill` fails reading `_fill` before changing
  anything.
- The deactivating branch for FINGERUP can never be taken.
- An instance of the base `Widget` class passes the registry check. It then
  raises NotImplementedError from the first `draw_elements`.
- `Image`, `Line` and `Polygon` raise from their `__draw__` too:
  - `Image.__draw__` reads the never-set `self._feed`;
  - `Line` and `Polygon` call `pygame.__draw__`, which does not exist.

  So a window holding one of them stops in its first frame.
- `Label.__draw__` fills its surface with `_bg` in every frame
  (software/pygame_gui/main.py:535). After `configure(text_offset=...)` has
  written the offset pair there, pygame's `fill` would reject it in every
  draw and stop the window. This pygame error is not modelled (see
  "## Left out"): the model draws such a Label without error.

## Model

| member | source | states |
|---|---|---|
| `Input.RectAt` | software/pygame_gui/main.py:373 | `pygame.Rect(*position, *size)` holds exactly the points from the position up to, but not including, the position plus the size, on each axis |
| `Focus.FingerUpOnlyActivates` | software/pygame_gui/main.py:258-264 | a FINGERUP event turns the focus on when it lands in the input and otherwise leaves it; it never turns it off (the inner `elif` is unreachable); the earlier draft (software/main.py:232-239) is the same |
| `Focus.FocusStep` | software/pygame_gui/main.py:249-264 | each event either settles the focus (a release inside the input turns it on; a mouse release outside both the input and the keyboard turns it off) or leaves it unchanged |
| `Focus.FocusAfter` | software/pygame_gui/main.py:248-264 | a batch whose last event settles the focus ends at that event's verdict, whatever the earlier events did |
| `Focus.LastDecisive` | software/pygame_gui/main.py:249-264 | the index of the last event of a batch that settles the focus, or -1; every later event leaves the focus alone |
| `Focus.FocusIsLastDecisive` | software/pygame_gui/main.py:248-264 | the focus after a batch is decided by its last settling event alone, or stays as it was when no event settles it |
| `Focus.FocusIdempotent` | software/pygame_gui/main.py:248-264 | feeding the same batch twice, as update_elements does for an input registered under two keys, leaves the focus where feeding it once does |
| `Focus.MouseUpInsideActivates` | software/pygame_gui/main.py:250-252 | a batch with a mouse release while the pointer is over the input always leaves it focused |
| `Focus.WithoutMouseUpNeverDeactivates` | software/pygame_gui/main.py:258-264 | without a mouse release a focused input stays focused |
| `Focus.MouseUpOutsideDeactivates` | software/pygame_gui/main.py:253-256 | a mouse release with the pointer outside both the input and the keyboard, with no finger release on the input, leaves it unfocused |
| `Clicks.CheckState` | software/pygame_gui/main.py:361-364 | a state passes exactly when it is in ALLOWED_STATES (`"enabled"`, `"disabled"`); any other state raises ValueError |
| `Clicks.ButtonFires` | software/pygame_gui/main.py:419-430 | a Button fires exactly when it is enabled, the pointer (not the event's position) is in its rectangle and the batch holds at least one MOUSEBUTTONUP; the number of releases does not matter |
| `Clicks.ImageButtonFires` | software/pygame_gui/main.py:630-650 | a ButtonImage fires exactly when the plain button test passes and the mask has its bit set at the pointer's local point |
| `Input.Local` | software/pygame_gui/main.py:632-635 | the pointer is inside the image's rectangle exactly when the local point looked up in the mask lies within the image's size, so the lookup never leaves the mask |
| `Attributes.Restyle` | software/pygame_gui/main.py:392-405 | after configure the background is the text offset when one is given, otherwise the new background when one is given, otherwise unchanged |
| `Attributes.RestyleNothing` | software/pygame_gui/main.py:496-518 | a configure call with every keyword None changes nothing |
| `Attributes.RestyleOverwrites` | software/pygame_gui/main.py:506-517 | every keyword given overwrites its attribute, whatever its old value |
| `Attributes.RestyleKeeps` | software/pygame_gui/main.py:506-517 | every keyword left as None keeps its attribute, whatever the other keywords do |
| `Attributes.RestyleIdempotent` | software/pygame_gui/main.py:383-406 | repeating the same configure call has no further effect |
| `Geometry.TopLeft` | software/pygame_gui/main.py:716 | `_topleft` lies at or before both end points on each axis and is one of them on each axis |
| `Geometry.BottomRight` | software/pygame_gui/main.py:717 | `_bottomright` lies at or after both end points on each axis and is one of them on each axis |
| `Geometry.CornersBoundLine` | software/pygame_gui/main.py:716-717 | the corners are ordered and do not depend on which end is the start (the earlier draft computes them the same way, software/main.py:501-502) |
| `Geometry.PolygonWidth` | software/pygame_gui/main.py:775-776 | a filled polygon stores width 0; an unfilled one stores the given width |
| `OrderedDict.Dict.Put` | software/pygame_gui/main.py:873-877 | `d[k] = v` keeps the dict valid; a new key goes last and an existing key keeps its place with the new value |
| `OrderedDict.Dict.Remove` | software/pygame_gui/main.py:878-879 | `del d[k]` on a present key removes exactly that key; the key order loses that key at its index and the other keys keep their order |
| `OrderedDict.Dict.Values` | software/pygame_gui/main.py:880-886 | `values()` lists each key's value in key order |
| `OrderedDict.Empty` | software/pygame_gui/main.py:832 | `dict()` is valid, with no keys and no entries |
| `OrderedDict.Drop` | software/pygame_gui/main.py:879 | removing a key from the key order keeps every other key and keeps the keys distinct |
| `OrderedDict.DropLengthOfPresent` | software/pygame_gui/main.py:879 | removing a key listed once shortens the key order by exactly one |
| `OrderedDict.DropOfAbsent` | software/pygame_gui/main.py:879 | removing an absent key leaves the key order as it was |
| `OrderedDict.DropAt` | software/pygame_gui/main.py:879 | removing the key at index `i` from a key order without repeats cuts out exactly that index; the other keys keep their order |
| `OrderedDict.RemoveCutsOut` | software/pygame_gui/main.py:878-886 | after `del d[k]`, iteration yields the old values with the value of `k` cut out where it stood, the others in their order |
| `OrderedDict.PutThenGet` | software/pygame_gui/main.py:870-877 | after `d[k] = v`, `d[k]` reads `v` and every other key reads as before |
| `OrderedDict.PutAppends` | software/pygame_gui/main.py:873-886 | after assigning a new key, iteration yields the old values followed by the new one |
| `OrderedDict.PutReplaces` | software/pygame_gui/main.py:873-886 | after assigning an existing key, iteration yields the old values with only that key's value replaced, in place |
| `OrderedDict.PutKeepsOrder` | software/pygame_gui/main.py:873-877 | assigning a key twice gives the same dict as assigning it once with the second value |
| `Scheduler.Due` | software/pygame_gui/main.py:900 | a record is due exactly from the instant its delay has passed since its last firing |
| `Scheduler.Fire` | software/pygame_gui/main.py:900-902 | a record due at `now` restarts from `now`; a record not due is unchanged; the callback and the delay never change |
| `Scheduler.Advance` | software/pygame_gui/main.py:899-902 | one frame's pass over the after records keeps their number and order and restarts each one on its own |
| `Scheduler.DueCallbacks` | software/pygame_gui/main.py:899-902 | a frame calls no more callbacks than there are records, and a callback is called exactly when some record holding it is due at `now` |
| `Scheduler.AdvanceAllPointwise` | software/pygame_gui/main.py:840-842 | records are never added or removed by the loop, and over a run of frames each record evolves independently of the others |
| `Scheduler.ReplayLast` | software/pygame_gui/main.py:900-901 | over a run of frames a record keeps its callback and delay, and its `last` is its latest firing, or its registration time if it never fired |
| `Scheduler.FiringsWithin` | software/pygame_gui/main.py:898-902 | a record fires at most once per frame, and only at the durations of the frames of the run |
| `Scheduler.FiringsSpaced` | software/pygame_gui/main.py:900-902 | a record first fires at least its delay after registration, and later firings are at least its delay apart |
| `Scheduler.OneSecondExample` | software/pygame_gui/main.py:898-902 | with a 1 s delay registered at t, frames at t+0.4, t+1.2 and t+1.3 fire the record once, at t+1.2; intervals that were skipped are not made up |
| `Widgets.Image.constructor` | software/pygame_gui/main.py:111-130 | `Image.__init__` stores the position, path, transparency and resize |
| `Widgets.Image.Configure` | software/pygame_gui/main.py:145-165 | each None keeps the stored attribute and anything else replaces it; once set, a resize can no longer be cleared |
| `Widgets.Label.constructor` | software/pygame_gui/main.py:469-495 | `Label.__init__` stores the text attributes, with the background a colour |
| `Widgets.Label.Configure` | software/pygame_gui/main.py:496-518 | the text attributes become `Restyle` of the old ones; this includes `text_offset` landing in the background. The earlier draft's Label.configure (software/main.py:372-394) does the same |
| `Widgets.Button.constructor` | software/pygame_gui/main.py:347-381 | a button built with an allowed state stores it, its callback, its text attributes and the rectangle at its position and size |
| `Widgets.Button.Create` | software/pygame_gui/main.py:360-364 | `Button(...)` raises ValueError exactly when the state is not allowed; otherwise it gives a new button with that state, callback, rectangle and text attributes. The earlier draft (software/main.py:270-273) is the same |
| `Widgets.Button.Feed` | software/pygame_gui/main.py:419-430 | `onclick` is called at most once per batch, exactly when the button fires; the earlier draft's `__feed__` (software/main.py:325-336) is the same |
| `Widgets.Button.Configure` | software/pygame_gui/main.py:383-410 | the text attributes become `Restyle` of the old ones and the state is kept or replaced, unchecked; the call then raises AttributeError |
| `Widgets.Button.ConfigureEarly` | software/main.py:292-316 | the earlier draft's Button.configure has no state keyword; the attributes are restyled and the call raises AttributeError |
| `Widgets.Button.ApplyArgs` | software/pygame_gui/main.py:392-405 | the keyword assignments leave the text attributes at `Restyle` of the old ones |
| `Widgets.ButtonImage.constructor` | software/pygame_gui/main.py:581-612 | `ButtonImage.__init__` stores its state unchecked; its rectangle is at its position with the picture's size |
| `Widgets.ButtonImage.Feed` | software/pygame_gui/main.py:630-650 | `onclick` is called at most once per batch, exactly when the image button fires; the earlier draft (software/main.py:467-485) is the same |
| `Widgets.ButtonImage.Configure` | software/pygame_gui/main.py:652-683 | each None keeps the stored attribute; the text, the callback and the picture stay; the rectangle follows the new position |
| `Widgets.TextInput.constructor` | software/pygame_gui/main.py:200-240 | a new text input is unfocused with an empty text, its rectangle is at its position and size, and its keyboard's enabled flag is the one pygame_vkeyboard gives a new keyboard |
| `Widgets.TextInput.Feed` | software/pygame_gui/main.py:248-270 | the focus follows the batch event by event (`FocusAfter`), and the keyboard ends enabled exactly when the input is focused; the earlier draft (software/main.py:223-244) is the same |
| `Widgets.TextInput.Configure` | software/pygame_gui/main.py:275-307 | each None keeps the stored attribute, the rectangle follows position and size, and the input is rebuilt unfocused with an empty text and a new keyboard, whose enabled flag is the one pygame_vkeyboard gives a new keyboard |
| `Widgets.Line.constructor` | software/pygame_gui/main.py:704-717 | a line stores its ends, colour and width, with its corners the componentwise minimum and maximum of the ends |
| `Widgets.Line.Configure` | software/pygame_gui/main.py:731-751 | each None keeps the stored attribute, and the corners follow the new ends |
| `Widgets.Polygon.constructor` | software/pygame_gui/main.py:772-779 | a polygon stores its points and colour, and width 0 when filled |
| `Widgets.Polygon.Configure` | software/pygame_gui/main.py:787-807 | without `fill` it raises AttributeError and changes nothing; with `fill` it rebuilds, keeping each attribute given as None |
| `Widgets.Widget.DrawFailure` | software/pygame_gui/main.py:73-82 | only labels, buttons, image buttons and text inputs draw; the base class raises NotImplementedError, and Image (main.py:141-143, reading the missing `_feed`), Line (main.py:728-729) and Polygon (main.py:784-785, both calling the missing `pygame.__draw__`) raise AttributeError |
| `Widgets.Widget.FeedFailure` | software/pygame_gui/main.py:61-71 | only the base class's `__feed__` raises, with NotImplementedError, and such a widget has already raised the same error from `__draw__` |
| `Windows.DrawOutcome` | software/pygame_gui/main.py:880-882 | draw_elements can only raise NotImplementedError or AttributeError |
| `Windows.DrawOutcomeFirst` | software/pygame_gui/main.py:880-882 | draw_elements passes exactly when no widget raises from `__draw__`; otherwise it raises the error of the first widget that does |
| `Windows.FeedCallsAtMostOneEach` | software/pygame_gui/main.py:884-886 | feeding a batch calls at most one callback per widget, however many releases the batch holds |
| `Windows.NoReleaseNoCalls` | software/pygame_gui/main.py:884-886 | a batch without a MOUSEBUTTONUP calls no callback at all |
| `Windows.FeedLimit` | software/pygame_gui/main.py:884-886 | update_elements feeds every widget before the first instance of the base class, whose `__feed__` raises |
| `Windows.DrawnAllFed` | software/pygame_gui/main.py:880-886 | when every widget has drawn, none is an instance of the base class, so every widget is fed |
| `Windows.Window.constructor` | software/pygame_gui/main.py:823-839 | a new window has an empty registry, no tick callbacks, no after records and the flag cleared |
| `Windows.Window.EarlyDraft` | software/main.py:535-549 | the earlier draft's window starts the same way and has no after step |
| `Windows.Window.Duration` | software/pygame_gui/main.py:862-864 | `duration` is the time since the window was built: it added to the start time gives the current time, and it is never negative once the clock has reached the start |
| `Windows.Window.SetDuration` | software/pygame_gui/main.py:866-868 | assigning to `duration` always raises NotAllowedError (the earlier draft, software/main.py:555-557, too) |
| `Windows.Window.GetItem` | software/pygame_gui/main.py:870-871 | `window[key]` raises KeyError exactly when the key is not registered, and otherwise gives its widget |
| `Windows.Window.SetItem` | software/pygame_gui/main.py:873-877 | a non-widget raises TypeError and leaves the registry unchanged; any widget, the base class included, is stored under the key, replacing a previous value in its place (the earlier draft, software/main.py:562-566, too) |
| `Windows.Window.DelItem` | software/pygame_gui/main.py:878-879 | deleting an absent key raises KeyError and changes nothing; deleting a present key removes only that key, at its index in the key order, and the other keys keep their order; afterwards the key reads as missing |
| `Windows.Window.AddTick` | software/pygame_gui/main.py:835 | `tick` is a set, so adding a callback already in it changes nothing |
| `Windows.Window.After` | software/pygame_gui/main.py:840-842 | `after` appends one record, with the current duration as its last firing, and keeps every earlier record |
| `Windows.Window.Stop` | software/pygame_gui/main.py:913-914 | `stop` only clears the flag |
| `Windows.Window.Invoke` | software/pygame_gui/main.py:896-897 | calling the window's `stop` clears the flag; no other callback changes it |
| `Windows.Window.DrawElements` | software/pygame_gui/main.py:880-882 | the loop over the registry's values ends at the first widget whose `__draw__` raises, with that error (the earlier draft, software/main.py:571-573, too) |
| `Windows.Window.FeedWidget` | software/pygame_gui/main.py:419-430 | feeding a non-input widget invokes exactly the callbacks its click test gives, and the flag is cleared exactly when one of them is `stop` |
| `Windows.Window.FocusAt` | software/pygame_gui/main.py:884-886 | after the input at index `i` is fed, every input registered up to it has followed the batch, and the others are untouched |
| `Windows.Window.FeedInputAt` | software/pygame_gui/main.py:884-886 | feeding a text input calls nothing, extends the followed inputs by it and keeps the callbacks of the earlier widgets |
| `Windows.Window.FeedOtherAt` | software/pygame_gui/main.py:884-886 | feeding any other widget appends its callbacks to those of the widgets before it and touches no text input |
| `Windows.Window.FeedAt` | software/pygame_gui/main.py:885-886 | one iteration of update_elements on a widget before the first base-class instance: the callbacks so far grow by that widget's, and the inputs so far have followed the batch |
| `Windows.Window.UpdateElements` | software/pygame_gui/main.py:884-886 | every widget before the first base-class instance is fed the same batch in registry order, and then NotImplementedError is raised if there is such an instance. The calls are the click callbacks of those widgets; the inputs among them follow the batch and later inputs are untouched (the earlier draft, software/main.py:575-577, too) |
| `Windows.Window.RunTicks` | software/pygame_gui/main.py:896-897 | each tick callback is called exactly once per frame, in some order, and the flag is cleared exactly when one of them is `stop` |
| `Windows.Window.FireAt` | software/pygame_gui/main.py:900-902 | the record at index `i` is restarted in place before its callback runs, exactly when it is due |
| `Windows.Window.ProcessAfter` | software/pygame_gui/main.py:898-902 | the after loop leaves the records at `Advance(records, now)` and calls `DueCallbacks(records, now)`, in list order |
| `Windows.Window.FeedAll` | software/pygame_gui/main.py:884-886 | once every widget has drawn, every widget is fed: the calls are all their click callbacks and every text input has followed the batch |
| `Windows.Window.CallTimers` | software/pygame_gui/main.py:896-902 | after the feed, every tick callback runs once; then, in the later draft only, the after records due at the frame's duration fire |
| `Windows.Window.FeedAndCall` | software/pygame_gui/main.py:893-910 | a frame whose widgets all drew calls the feed callbacks, then the tick callbacks, then the due after callbacks, in that order; it ends the process when the batch holds a QUIT |
| `Windows.Window.Frame` | software/pygame_gui/main.py:891-911 | one iteration of `run`: a widget that fails to draw ends the frame with nothing fed or called; otherwise feed, ticks, after records and the QUIT test follow in that order (the earlier draft, software/main.py:582-596, has no after step) |
| `Windows.Window.TrackedFrame` | software/pygame_gui/main.py:891-911 | a frame whose widgets all drew calls the feed callbacks, each tick callback once, then the callbacks of the after records due at its duration, starting from the records the earlier frames left; the after records have seen one more duration, the text inputs one more batch, and every text input's keyboard is enabled exactly when it is focused. A frame whose draw raised leaves the flag, the after records and every text input's focus and keyboard as they were, and calls nothing |
| `Windows.Window.RunFrame` | software/pygame_gui/main.py:890-911 | the next frame extends what the loop has built since the flag was set: the after records have seen one more duration, the text inputs one more batch, every text input's keyboard is enabled exactly when it is focused, and the record of each frame's calls grows by this frame's. A frame whose draw raised changes neither the flag, nor the after records, nor any text input's focus or keyboard |
| `Windows.Window.RunLoop` | software/pygame_gui/main.py:890-911 | the `while self._runing` loop: the ghost `log` holds each frame's callbacks, and `calls` is their concatenation. No frame before the last called `stop`. When the run ends `Stopped`, the last frame called it, so a `stop` lets its frame finish and the loop exits at the next test. QUIT ends the run in its frame, and a draw error escapes from the first frame with the flag still set and the after records and every text input's focus and keyboard as they were when the loop was entered. Unless a draw error ended the run, the after records and every text input's focus are what the frames run so far make of them, after at least one frame every text input's keyboard is enabled exactly when it is focused, and each frame's entry in `log` is its feed callbacks, then its tick callbacks (each once), then the callbacks of the after records due at its duration, those records being the ones the earlier frames left (`Made`) |
| `Windows.Window.Run` | software/pygame_gui/main.py:888-914 | `run` sets the flag and loops as RunLoop states, from the registry, tick set and after records the window has: no frame after the one that called `stop` starts; a draw error leaves the flag set and the after records and every text input's focus and keyboard as they were before the run; after at least one frame that drew, every text input's keyboard is enabled exactly when it is focused; and, unless a draw error ended the run, frame `j` called exactly its feed callbacks, its tick callbacks and the callbacks of the after records due at its duration, starting from the window's records advanced over frames `0..j-1` (the earlier draft, software/main.py:579-598, without the after step) |
| `Windows.FlattenMember` | software/pygame_gui/main.py:891-911 | a callback was called during a run exactly when some frame of the run called it |

## Left out

- Rendering is not modelled: surfaces, fill, blit, alpha, fonts, cursor changes, `display.flip` and `display.update`. pygame's own errors are left out with it, such as the one `fill` would raise for the offset pair that `configure` writes into a Label's or Button's background.
- Widgets.Label.Configure: the contract gives no error. pygame's own error from `fill`, when it rejects the offset pair written into the background, is not modelled. Nor is the same error in every later `__draw__` of that Label, which would stop the window.
- Widgets.Button.Configure: always ends in the AttributeError for `_text_offset`. An error that `fill` raises first, for an offset pair in the background, is not modelled.
- Widgets.Button.ConfigureEarly: the same pygame error is not modelled, as for Widgets.Button.Configure.
- The collision mask is supplied as a set of local points. `pygame.mask.from_surface` and image loading are not modelled; reloading the same path is taken to give the same picture.
- pygame_vkeyboard is reduced to its rectangle and its enabled flag. Its layout, rendering and `update` are not modelled, and neither is `TextInput.__update_text__` (software/pygame_gui/main.py:272-273), which only it calls. The flag of a newly built keyboard is set by pygame_vkeyboard's constructor, so the TextInput constructor and `configure` take it as a parameter.
- Audio is not modelled: `add_sound`, `play_sound` and the music methods (software/pygame_gui/main.py:843-860) pass straight through to pygame.mixer.
- Real time and frame pacing are inputs: each frame supplies its wall-clock time, and `Clock.tick(FPS)` is not modelled. Durations are exact reals rather than floats.
- Windows.Window.Run: QUIT is modelled only as the end of the run. `pygame.quit`, `sys.exit` and the assignment to the misspelt `self.runing` (software/pygame_gui/main.py:905-909) are not modelled.
- Windows.Window.RunLoop: runs over a finite sequence of supplied frames. A run that would go on forever ends with `OutOfFrames` once the frames run out.
- Windows.Window.Invoke: the only callback whose effect is modelled is the window's own `stop`. Any other callable is opaque. This includes one that reconfigures widgets, registers widgets or calls `run` again.
- FINGERUP is taken to carry a `pos` position, as the source reads it.
- The `__repr__` and `__str__` methods and `FONT` are not modelled; they have no state to speak of.
- The `surf` argument of the earlier draft's Window is not modelled.
- The application wiring is not part of this model: software/gui.py and software/main.py:604-634 build one window and start it.
- software/pygame_gui/__init__.py is not part of this model: it installs packages and prints a banner.
