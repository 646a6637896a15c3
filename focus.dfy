/** The focus state machine of TextInput.__feed__: which events of a batch
    switch the virtual keyboard's owner on or off. */
module Focus {
  import opened Input

  /** One iteration of the event loop in TextInput.__feed__. A MOUSEBUTTONUP
      is judged at the current pointer position; a FINGERUP at its own
      position, where the inner deactivating branch repeats the outer test
      negated and so can never be taken. Each event either settles the
      focus to its verdict or leaves it as it was. */
  function FocusStep(active: bool, e: Event, pointer: Point, rect: Rect, keyboard: Rect): (r: bool)
    ensures Decisive(e, pointer, rect, keyboard) ==> r == Verdict(e, pointer, rect)
    ensures !Decisive(e, pointer, rect, keyboard) ==> r == active
  {
    match e
    case MouseUp =>
      if Collides(rect, pointer) then true
      else if active && !Collides(keyboard, pointer) then false
      else active
    case FingerUp(p) =>
      if Collides(rect, p) then
        if Collides(rect, p) then true
        else if active && !Collides(keyboard, p) then false
        else active
      else active
    case _ => active
  }

  /** The focus after feeding a whole batch, event by event in order; a
      decisive last event settles it whatever came before. */
  function FocusAfter(active: bool, events: seq<Event>, pointer: Point, rect: Rect, keyboard: Rect): (r: bool)
    ensures events != [] && Decisive(events[|events| - 1], pointer, rect, keyboard) ==>
              r == Verdict(events[|events| - 1], pointer, rect)
    decreases |events|
  {
    if events == [] then active
    else FocusStep(FocusAfter(active, events[..|events| - 1], pointer, rect, keyboard),
                   events[|events| - 1], pointer, rect, keyboard)
  }

  /** An event that settles the focus whatever it was before. */
  predicate Decisive(e: Event, pointer: Point, rect: Rect, keyboard: Rect)
  {
    (e.MouseUp? && (Collides(rect, pointer) || !Collides(keyboard, pointer)))
    || (e.FingerUp? && Collides(rect, e.pos))
  }

  /** The focus a decisive event settles on: on for a release inside the
      input, off for a mouse release outside both the input and the keyboard. */
  function Verdict(e: Event, pointer: Point, rect: Rect): bool
  {
    e.FingerUp? || Collides(rect, pointer)
  }

  /** A FINGERUP can only switch the focus on. */
  lemma FingerUpOnlyActivates(active: bool, p: Point, pointer: Point, rect: Rect, keyboard: Rect)
    ensures FocusStep(active, FingerUp(p), pointer, rect, keyboard) == (active || Collides(rect, p))
  {
  }

  /** The index of the last decisive event of a batch, or -1 when none is. */
  function LastDecisive(events: seq<Event>, pointer: Point, rect: Rect, keyboard: Rect): (j: int)
    ensures -1 <= j < |events|
    ensures j >= 0 ==> Decisive(events[j], pointer, rect, keyboard)
    ensures forall k :: j < k < |events| ==> !Decisive(events[k], pointer, rect, keyboard)
    decreases |events|
  {
    if events == [] then -1
    else if Decisive(events[|events| - 1], pointer, rect, keyboard) then |events| - 1
    else LastDecisive(events[..|events| - 1], pointer, rect, keyboard)
  }

  /** The focus after a batch is the verdict of its last decisive event, or the
      focus before the batch when no event is decisive. */
  lemma {:induction false} FocusIsLastDecisive(active: bool, events: seq<Event>, pointer: Point, rect: Rect, keyboard: Rect)
    ensures var j := LastDecisive(events, pointer, rect, keyboard);
            FocusAfter(active, events, pointer, rect, keyboard)
              == if j < 0 then active else Verdict(events[j], pointer, rect)
    decreases |events|
  {
    if events != [] {
      var n := |events| - 1;
      var init := events[..n];
      FocusIsLastDecisive(active, init, pointer, rect, keyboard);
    }
  }

  /** Feeding the same batch twice leaves the focus where feeding it once does. */
  lemma {:induction false} FocusIdempotent(active: bool, events: seq<Event>, pointer: Point, rect: Rect, keyboard: Rect)
    ensures FocusAfter(FocusAfter(active, events, pointer, rect, keyboard), events, pointer, rect, keyboard)
         == FocusAfter(active, events, pointer, rect, keyboard)
  {
    FocusIsLastDecisive(active, events, pointer, rect, keyboard);
    FocusIsLastDecisive(FocusAfter(active, events, pointer, rect, keyboard), events, pointer, rect, keyboard);
  }

  /** A mouse release while the pointer is over the input always leaves it
      focused, whatever else the batch holds. */
  lemma {:induction false} MouseUpInsideActivates(active: bool, events: seq<Event>, pointer: Point, rect: Rect, keyboard: Rect)
    requires HasMouseUp(events) && Collides(rect, pointer)
    ensures FocusAfter(active, events, pointer, rect, keyboard)
  {
    var i :| 0 <= i < |events| && events[i].MouseUp?;
    assert Decisive(events[i], pointer, rect, keyboard);
    FocusIsLastDecisive(active, events, pointer, rect, keyboard);
  }

  /** Without a mouse release the focus can only be gained, never lost. */
  lemma {:induction false} WithoutMouseUpNeverDeactivates(active: bool, events: seq<Event>, pointer: Point, rect: Rect, keyboard: Rect)
    requires !HasMouseUp(events)
    ensures active ==> FocusAfter(active, events, pointer, rect, keyboard)
  {
    FocusIsLastDecisive(active, events, pointer, rect, keyboard);
  }

  /** A mouse release with the pointer outside both the input and the
      keyboard, in a batch with no finger release on the input, leaves the
      input unfocused. */
  lemma {:induction false} MouseUpOutsideDeactivates(active: bool, events: seq<Event>, pointer: Point, rect: Rect, keyboard: Rect)
    requires HasMouseUp(events)
    requires !Collides(rect, pointer) && !Collides(keyboard, pointer)
    requires forall j :: 0 <= j < |events| && events[j].FingerUp? ==> !Collides(rect, events[j].pos)
    ensures !FocusAfter(active, events, pointer, rect, keyboard)
  {
    var i :| 0 <= i < |events| && events[i].MouseUp?;
    assert Decisive(events[i], pointer, rect, keyboard);
    FocusIsLastDecisive(active, events, pointer, rect, keyboard);
  }
}
