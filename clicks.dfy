/** When Button and ButtonImage call their onclick: the states a button may
    be in and the hit tests of the two kinds of button. */
module Clicks {
  import opened Outcomes
  import opened Input

  /** ALLOWED_STATES. */
  const Enabled: string := "enabled"
  const Disabled: string := "disabled"
  const AllowedStates: seq<string> := [Enabled, Disabled]

  /** The check Button.__init__ makes before storing its state. */
  function CheckState(state: string): (r: Outcome)
    ensures r == Pass <==> (state == "enabled" || state == "disabled")
    ensures r != Pass ==> r == Raise(ValueError)
  {
    if state in AllowedStates then Pass else Raise(ValueError)
  }

  /** Button.__feed__: some event of the batch is a MOUSEBUTTONUP while the
      button is enabled and the pointer is inside its rectangle. */
  predicate ButtonFires(state: string, rect: Rect, pointer: Point, events: seq<Event>)
    ensures ButtonFires(state, rect, pointer, events)
        <==> state == Enabled && Collides(rect, pointer) && HasMouseUp(events)
  {
    exists i :: 0 <= i < |events| && events[i].MouseUp? && state == Enabled && Collides(rect, pointer)
  }

  /** ButtonImage.__feed__: the pointer is inside the rectangle, and some event
      is a MOUSEBUTTONUP while the button is enabled and the collision mask
      has its bit set at the pointer's position relative to the image. */
  predicate ImageButtonFires(state: string, rect: Rect, position: Point, mask: set<Point>,
                             pointer: Point, events: seq<Event>)
    ensures ImageButtonFires(state, rect, position, mask, pointer, events)
        <==> ButtonFires(state, rect, pointer, events) && Local(pointer, position) in mask
  {
    Collides(rect, pointer)
    && exists i :: 0 <= i < |events| && events[i].MouseUp? && state == Enabled
                   && Local(pointer, position) in mask
  }
}
