/** What the toolkit sees of the rendering and input library: pixel
    coordinates, pygame's rectangles, the input events it reacts to and the
    zero-argument callbacks it invokes. */
module Input {

  /** A pixel coordinate; also used for sizes and text offsets. */
  datatype Point = Point(x: int, y: int)

  /** pygame.Rect(left, top, width, height). */
  datatype Rect = Rect(left: int, top: int, width: int, height: int)

  /** Rect.collidepoint: pygame's half-open box, the left and top edges
      inside, the right and bottom edges outside. */
  predicate Collides(r: Rect, p: Point)
  {
    r.left <= p.x < r.left + r.width && r.top <= p.y < r.top + r.height
  }

  /** pygame.Rect(*position, *size): the box that starts at the position and
      spans the size, its far edges left out. */
  function RectAt(position: Point, size: Point): (r: Rect)
    ensures forall p :: Collides(r, p) <==>
              position.x <= p.x < position.x + size.x && position.y <= p.y < position.y + size.y
  {
    Rect(position.x, position.y, size.x, size.y)
  }

  /** The pointer position relative to a widget's top-left corner: it lies
      within the widget's size exactly when the pointer is inside the
      rectangle at the widget's position, so a mask lookup at it never
      leaves the image. */
  function Local(pointer: Point, position: Point): (r: Point)
    ensures forall size :: Collides(RectAt(position, size), pointer) <==> 0 <= r.x < size.x && 0 <= r.y < size.y
  {
    Point(pointer.x - position.x, pointer.y - position.y)
  }

  /** The events of one polled batch, as far as the toolkit distinguishes them:
      MOUSEBUTTONUP, FINGERUP with its position, QUIT, and anything else. */
  datatype Event = MouseUp | FingerUp(pos: Point) | Quit | Other

  predicate HasMouseUp(events: seq<Event>)
  {
    exists i :: 0 <= i < |events| && events[i].MouseUp?
  }

  predicate HasQuit(events: seq<Event>)
  {
    exists i :: 0 <= i < |events| && events[i].Quit?
  }

  /** A zero-argument callable handed to the toolkit (onclick, tick, after).
      The only one whose effect is modelled is the bound method `stop` of the
      window that is running; every other callable is opaque. */
  datatype Callback = StopWindow | Opaque(id: nat)
}
