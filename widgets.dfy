/** The widgets of the toolkit, with the state their methods read and update.
    Surfaces, fonts and blits are not modelled: a widget here is the data its
    feed and configure methods work on. Both drafts share these classes; the
    earlier draft lacks the reconstructing configure methods (Image,
    TextInput, ButtonImage, Line, Polygon) and its Button.configure has no
    state keyword (`ConfigureEarly`). */
module Widgets {
  import opened Outcomes
  import opened Input
  import opened Focus
  import opened Clicks
  import opened Attributes
  import opened Geometry

  /** An image file as the toolkit uses it: its size and the set of local
      points whose bit `pygame.mask.from_surface` sets. Loading a path is I/O;
      the picture is handed in, and reloading the same path gives it again. */
  datatype Picture = Picture(size: Point, mask: set<Point>)

  /** Image: a picture blitted at a position. */
  class Image {
    var position: Point
    var path: string
    var transparency: int
    var resize: Option<Point>

    constructor (position: Point, path: string, transparency: int, resize: Option<Point>)
      ensures this.position == position && this.path == path
      ensures this.transparency == transparency && this.resize == resize
    {
      this.position, this.path := position, path;
      this.transparency, this.resize := transparency, resize;
    }

    /** Image.configure rebuilds the image from the stored attributes with
        each given keyword replacing one; a resize, once set, can no longer
        be cleared, since None means "keep". */
    method Configure(position: Option<Point>, path: Option<string>, transparency: Option<int>, resize: Option<Point>)
      modifies this
      ensures this.position == Keep(position, old(this.position))
      ensures this.path == Keep(path, old(this.path))
      ensures this.transparency == Keep(transparency, old(this.transparency))
      ensures this.resize == (if resize.Some? then resize else old(this.resize))
      ensures old(this.resize).Some? ==> this.resize.Some?
    {
      var newResize := if resize.Some? then resize else this.resize;
      this.position, this.path := Keep(position, this.position), Keep(path, this.path);
      this.transparency, this.resize := Keep(transparency, this.transparency), newResize;
    }
  }

  /** Label: a text on a coloured box. */
  class Label {
    const position: Point
    const size: Point
    var text: string
    var fg: string
    var bg: Paint
    var textSize: int
    var textOffset: Point
    var transparency: int

    /** The attributes configure may change. */
    function Style(): TextStyle
      reads this
    {
      TextStyle(text, fg, bg, textSize, transparency)
    }

    constructor (position: Point, size: Point, text: string, bg: string, fg: string,
                 textSize: int, textOffset: Point, transparency: int)
      ensures this.position == position && this.size == size
      ensures Style() == TextStyle(text, fg, Colour(bg), textSize, transparency)
      ensures this.textOffset == textOffset
    {
      this.position, this.size := position, size;
      this.text, this.fg, this.bg := text, fg, Colour(bg);
      this.textSize, this.textOffset, this.transparency := textSize, textOffset, transparency;
    }

    /** Label.configure: in place; `text_offset` overwrites the background and
        never reaches `_text_offset`, which the frame below leaves out. */
    method Configure(args: TextArgs)
      modifies this`text, this`fg, this`bg, this`textSize, this`transparency
      ensures Style() == Restyle(old(Style()), args)
    {
      if args.textValue.Some? { text := args.textValue.value; }
      if args.foreground.Some? { fg := args.foreground.value; }
      if args.background.Some? { bg := Colour(args.background.value); }
      if args.textSize.Some? { textSize := args.textSize.value; }
      if args.textOffset.Some? { bg := Coordinates(args.textOffset.value); }
      if args.transparency.Some? { transparency := args.transparency.value; }
    }
  }

  /** Button: a rectangle that calls `onclick` when released on. */
  class Button {
    const position: Point
    const size: Point
    const rect: Rect
    const onclick: Callback
    var text: string
    var fg: string
    var bg: Paint
    var textSize: int
    var transparency: int
    var state: string

    function Style(): TextStyle
      reads this
    {
      TextStyle(text, fg, bg, textSize, transparency)
    }

    /** The assignments of Button.__init__ once its state check has passed;
        the text offset it takes is used only to render and is not kept. */
    constructor (size: Point, position: Point, text: string, bg: string, fg: string,
                 onclick: Callback, textSize: int, transparency: int, state: string)
      requires CheckState(state) == Pass
      ensures this.position == position && this.size == size && rect == RectAt(position, size)
      ensures this.onclick == onclick && this.state == state
      ensures Style() == TextStyle(text, fg, Colour(bg), textSize, transparency)
    {
      this.position, this.size, this.rect, this.onclick := position, size, RectAt(position, size), onclick;
      this.text, this.fg, this.bg := text, fg, Colour(bg);
      this.textSize, this.transparency, this.state := textSize, transparency, state;
    }

    /** Button(...): a state outside ALLOWED_STATES raises ValueError and
        builds nothing; any other state builds the button. */
    static method Create(size: Point, position: Point, text: string, bg: string, fg: string,
                         onclick: Callback, textSize: int, transparency: int, state: string)
      returns (r: Result<Button>)
      ensures r.Fail? <==> !(state == "enabled" || state == "disabled")
      ensures r.Fail? ==> r.error == ValueError
      ensures r.Ok? ==> fresh(r.value) && r.value.state == state && r.value.onclick == onclick
      ensures r.Ok? ==> r.value.rect == RectAt(position, size)
      ensures r.Ok? ==> r.value.Style() == TextStyle(text, fg, Colour(bg), textSize, transparency)
    {
      var check := CheckState(state);
      if check == Pass {
        var b := new Button(size, position, text, bg, fg, onclick, textSize, transparency, state);
        r := Ok(b);
      } else {
        r := Fail(check.error);
      }
    }

    /** Button.__feed__: the number of times it calls `onclick` for one
        batch, at most once however many releases the batch holds. */
    method Feed(events: seq<Event>, pointer: Point) returns (calls: nat)
      ensures calls <= 1
      ensures calls == 1 <==> ButtonFires(state, rect, pointer, events)
    {
      var clicked := false;
      for i := 0 to |events|
        invariant clicked <==> exists j :: 0 <= j < i && events[j].MouseUp? && state == Enabled && Collides(rect, pointer)
      {
        if events[i].MouseUp? && state == Enabled {
          if Collides(rect, pointer) {
            clicked := true;
          }
        }
      }
      calls := if clicked then 1 else 0;
    }

    /** Button.configure (later draft): the attributes change in place, the
        state unchecked, and the call then fails reading `_text_offset`,
        which a Button never sets. */
    method Configure(args: TextArgs, state: Option<string>) returns (r: Outcome)
      modifies this`text, this`fg, this`bg, this`textSize, this`transparency, this`state
      ensures Style() == Restyle(old(Style()), args)
      ensures this.state == Keep(state, old(this.state))
      ensures r == Raise(AttributeError)
    {
      ApplyArgs(args);
      if state.Some? { this.state := state.value; }
      r := Raise(AttributeError);
    }

    /** Button.configure of the earlier draft: no state keyword, otherwise the
        same, ending in the same AttributeError. */
    method ConfigureEarly(args: TextArgs) returns (r: Outcome)
      modifies this`text, this`fg, this`bg, this`textSize, this`transparency
      ensures Style() == Restyle(old(Style()), args)
      ensures r == Raise(AttributeError)
    {
      ApplyArgs(args);
      r := Raise(AttributeError);
    }

    /** The keyword assignments both drafts' configure begin with. */
    method ApplyArgs(args: TextArgs)
      modifies this`text, this`fg, this`bg, this`textSize, this`transparency
      ensures Style() == Restyle(old(Style()), args)
    {
      if args.textValue.Some? { text := args.textValue.value; }
      if args.foreground.Some? { fg := args.foreground.value; }
      if args.background.Some? { bg := Colour(args.background.value); }
      if args.textSize.Some? { textSize := args.textSize.value; }
      if args.textOffset.Some? { bg := Coordinates(args.textOffset.value); }
      if args.transparency.Some? { transparency := args.transparency.value; }
    }
  }

  /** ButtonImage: a clickable picture, hit-tested against its mask. */
  class ButtonImage {
    var position: Point
    const text: string
    var fg: string
    const onclick: Callback
    var textSize: int
    const path: string
    const picture: Picture
    var transparency: int
    var rect: Rect
    var state: string
    var textOffset: Point

    /** ButtonImage.__init__: unlike Button, the state is stored unchecked. */
    constructor (position: Point, text: string, fg: string, onclick: Callback, textSize: int,
                 path: string, picture: Picture, textOffset: Point, transparency: int, state: string)
      ensures this.position == position && this.text == text && this.fg == fg
      ensures this.onclick == onclick && this.textSize == textSize && this.path == path
      ensures this.picture == picture && this.textOffset == textOffset
      ensures this.transparency == transparency && this.state == state
      ensures rect == RectAt(position, picture.size)
    {
      this.position, this.text, this.fg, this.onclick := position, text, fg, onclick;
      this.textSize, this.path, this.picture := textSize, path, picture;
      this.transparency, this.rect, this.state := transparency, RectAt(position, picture.size), state;
      this.textOffset := textOffset;
    }

    /** ButtonImage.__feed__: `onclick` is called at most once, and only when
        the pointer is over an opaque pixel of the enabled image during a
        batch holding a mouse release. */
    method Feed(events: seq<Event>, pointer: Point) returns (calls: nat)
      ensures calls <= 1
      ensures calls == 1 <==> ImageButtonFires(state, rect, position, picture.mask, pointer, events)
    {
      var clicked := false;
      if Collides(rect, pointer) {
        var local := Local(pointer, position);
        for i := 0 to |events|
          invariant clicked <==> exists j :: 0 <= j < i && events[j].MouseUp? && state == Enabled && local in picture.mask
        {
          if events[i].MouseUp? && state == Enabled && local in picture.mask {
            clicked := true;
          }
        }
      }
      calls := if clicked then 1 else 0;
    }

    /** ButtonImage.configure rebuilds the button from the stored attributes
        with each given keyword replacing one; the text, the callback and the
        picture (reloaded from the same path) stay, and the rectangle follows
        the new position. */
    method Configure(position: Option<Point>, fg: Option<string>, textSize: Option<int>,
                     textOffset: Option<Point>, transparency: Option<int>, state: Option<string>)
      modifies this
      ensures this.position == Keep(position, old(this.position))
      ensures this.fg == Keep(fg, old(this.fg))
      ensures this.textSize == Keep(textSize, old(this.textSize))
      ensures this.textOffset == Keep(textOffset, old(this.textOffset))
      ensures this.transparency == Keep(transparency, old(this.transparency))
      ensures this.state == Keep(state, old(this.state))
      ensures rect == RectAt(this.position, picture.size)
    {
      this.position, this.fg := Keep(position, this.position), Keep(fg, this.fg);
      this.textSize, this.textOffset := Keep(textSize, this.textSize), Keep(textOffset, this.textOffset);
      this.transparency, this.state := Keep(transparency, this.transparency), Keep(state, this.state);
      this.rect := RectAt(this.position, picture.size);
    }
  }

  /** TextInput: a text box that owns a virtual keyboard while focused. The
      keyboard is kept only as its rectangle and whether it is enabled. */
  class TextInput {
    var position: Point
    var size: Point
    var bg: string
    var fg: string
    var textSize: int
    var textOffset: Point
    var transparency: int
    var rect: Rect
    const keyboardRect: Rect
    var active: bool
    var text: string
    var keyboardEnabled: bool

    /** TextInput.__init__: unfocused, with an empty text. `enabled` is
        whether pygame_vkeyboard builds a new keyboard enabled; its
        constructor decides that. */
    constructor (position: Point, size: Point, bg: string, fg: string, textSize: int,
                 textOffset: Point, transparency: int, keyboardRect: Rect, enabled: bool)
      ensures this.position == position && this.size == size && rect == RectAt(position, size)
      ensures this.bg == bg && this.fg == fg && this.textSize == textSize
      ensures this.textOffset == textOffset && this.transparency == transparency
      ensures this.keyboardRect == keyboardRect && keyboardEnabled == enabled
      ensures !active && text == ""
    {
      this.position, this.size, this.rect := position, size, RectAt(position, size);
      this.bg, this.fg, this.textSize := bg, fg, textSize;
      this.textOffset, this.transparency, this.keyboardRect := textOffset, transparency, keyboardRect;
      this.active, this.text, this.keyboardEnabled := false, "", enabled;
    }

    /** TextInput.__feed__: the focus follows the batch event by event, and
        the keyboard ends enabled exactly when the input is focused. */
    method Feed(events: seq<Event>, pointer: Point)
      modifies this`active, this`keyboardEnabled
      ensures active == FocusAfter(old(active), events, pointer, rect, keyboardRect)
      ensures keyboardEnabled == active
    {
      for i := 0 to |events|
        invariant active == FocusAfter(old(active), events[..i], pointer, rect, keyboardRect)
      {
        assert events[..i + 1][..i] == events[..i];
        match events[i]
        case MouseUp =>
          if Collides(rect, pointer) {
            active := true;
          } else if active && !Collides(keyboardRect, pointer) {
            active := false;
          }
        case FingerUp(p) =>
          if Collides(rect, p) {
            if Collides(rect, p) {
              active := true;
            } else if active && !Collides(keyboardRect, p) {
              active := false;
            }
          }
        case _ =>
      }
      assert events[..|events|] == events;
      keyboardEnabled := active;
    }

    /** TextInput.configure rebuilds the input from the stored attributes with
        each given keyword replacing one, so it also drops the focus and the
        text, and replaces the keyboard by a new one whose enabled flag is
        `enabled`, as for the constructor. */
    method Configure(position: Option<Point>, size: Option<Point>, bg: Option<string>, fg: Option<string>,
                     textSize: Option<int>, textOffset: Option<Point>, transparency: Option<int>, enabled: bool)
      modifies this
      ensures this.position == Keep(position, old(this.position))
      ensures this.size == Keep(size, old(this.size))
      ensures this.bg == Keep(bg, old(this.bg)) && this.fg == Keep(fg, old(this.fg))
      ensures this.textSize == Keep(textSize, old(this.textSize))
      ensures this.textOffset == Keep(textOffset, old(this.textOffset))
      ensures this.transparency == Keep(transparency, old(this.transparency))
      ensures rect == RectAt(this.position, this.size)
      ensures !active && text == "" && keyboardEnabled == enabled
    {
      this.position, this.size := Keep(position, this.position), Keep(size, this.size);
      this.bg, this.fg := Keep(bg, this.bg), Keep(fg, this.fg);
      this.textSize, this.textOffset := Keep(textSize, this.textSize), Keep(textOffset, this.textOffset);
      this.transparency := Keep(transparency, this.transparency);
      this.rect := RectAt(this.position, this.size);
      this.active, this.text, this.keyboardEnabled := false, "", enabled;
    }
  }

  /** Line: a segment, with the corners of its bounding box. */
  class Line {
    var start: Point
    var end: Point
    var color: string
    var width: int
    var topLeft: Point
    var bottomRight: Point

    constructor (start: Point, end: Point, color: string, width: int)
      ensures this.start == start && this.end == end && this.color == color && this.width == width
      ensures topLeft == TopLeft(start, end) && bottomRight == BottomRight(start, end)
    {
      this.start, this.end, this.color, this.width := start, end, color, width;
      topLeft, bottomRight := TopLeft(start, end), BottomRight(start, end);
    }

    /** Line.configure rebuilds the line; the corners follow the new ends. */
    method Configure(start: Option<Point>, end: Option<Point>, color: Option<string>, width: Option<int>)
      modifies this
      ensures this.start == Keep(start, old(this.start)) && this.end == Keep(end, old(this.end))
      ensures this.color == Keep(color, old(this.color)) && this.width == Keep(width, old(this.width))
      ensures topLeft == TopLeft(this.start, this.end) && bottomRight == BottomRight(this.start, this.end)
    {
      this.start, this.end := Keep(start, this.start), Keep(end, this.end);
      this.color, this.width := Keep(color, this.color), Keep(width, this.width);
      topLeft, bottomRight := TopLeft(this.start, this.end), BottomRight(this.start, this.end);
    }
  }

  /** Polygon: a closed outline, or a filled shape when its width is 0. */
  class Polygon {
    var points: seq<Point>
    var color: string
    var width: int

    constructor (points: seq<Point>, color: string, width: int, fill: bool)
      ensures this.points == points && this.color == color
      ensures this.width == PolygonWidth(width, fill)
    {
      this.points, this.color, this.width := points, color, PolygonWidth(width, fill);
    }

    /** Polygon.configure: without a `fill` keyword it reads `_fill`, which no
        Polygon sets, and fails before changing anything; with one it rebuilds
        the polygon. */
    method Configure(points: Option<seq<Point>>, color: Option<string>, width: Option<int>, fill: Option<bool>)
      returns (r: Outcome)
      modifies this
      ensures fill.None? ==> r == Raise(AttributeError) && unchanged(this)
      ensures fill.Some? ==> r == Pass
      ensures fill.Some? ==> this.points == Keep(points, old(this.points)) && this.color == Keep(color, old(this.color))
      ensures fill.Some? ==> this.width == PolygonWidth(Keep(width, old(this.width)), fill.value)
    {
      if fill.None? {
        return Raise(AttributeError);
      }
      this.points, this.color := Keep(points, this.points), Keep(color, this.color);
      this.width := PolygonWidth(Keep(width, this.width), fill.value);
      r := Pass;
    }
  }

  /** What a Window's registry holds: an instance of Widget or one of its
      subclasses. `Base` is an instance of the base class itself. */
  datatype Widget =
    | Base
    | ImageWidget(image: Image)
    | LabelWidget(textLabel: Label)
    | ButtonWidget(button: Button)
    | ButtonImageWidget(buttonImage: ButtonImage)
    | TextInputWidget(input: TextInput)
    | LineWidget(line: Line)
    | PolygonWidget(polygon: Polygon)
  {
    /** The exception the widget's __draw__ raises: the base class's is
        abstract, Image.__draw__ ends by reading `self._feed`, and Line and
        Polygon call `pygame.__draw__`, which does not exist. */
    function DrawFailure(): (r: Option<Error>)
      ensures r.None? <==> LabelWidget? || ButtonWidget? || ButtonImageWidget? || TextInputWidget?
      ensures r.Some? ==> r.value == (if Base? then NotImplementedError else AttributeError)
    {
      match this
      case Base => Some(NotImplementedError)
      case ImageWidget(_) => Some(AttributeError)
      case LineWidget(_) => Some(AttributeError)
      case PolygonWidget(_) => Some(AttributeError)
      case _ => None
    }

    /** The exception the widget's __feed__ raises: only the base class's,
        which has already raised from __draw__. */
    function FeedFailure(): (r: Option<Error>)
      ensures r.Some? <==> Base?
      ensures r.Some? ==> r.value == NotImplementedError && DrawFailure() == r
    {
      if Base? then Some(NotImplementedError) else None
    }

    /** The text input this widget is, if it is one. */
    function Owned(): set<TextInput>
    {
      if TextInputWidget? then {input} else {}
    }

    /** The button this widget is, if it is one. */
    function Buttons(): set<Button>
    {
      if ButtonWidget? then {button} else {}
    }

    /** The image button this widget is, if it is one. */
    function ButtonImages(): set<ButtonImage>
    {
      if ButtonImageWidget? then {buttonImage} else {}
    }

    /** The callbacks feeding this widget one batch invokes. */
    ghost function ClickCallbacks(events: seq<Event>, pointer: Point): seq<Callback>
      reads Buttons()`state, ButtonImages()`state, ButtonImages()`rect, ButtonImages()`position
    {
      match this
      case ButtonWidget(b) =>
        if ButtonFires(b.state, b.rect, pointer, events) then [b.onclick] else []
      case ButtonImageWidget(b) =>
        if ImageButtonFires(b.state, b.rect, b.position, b.picture.mask, pointer, events) then [b.onclick] else []
      case _ => []
    }
  }

  /** A value assigned into a Window: a widget, or anything else. */
  datatype Value = WidgetValue(widget: Widget) | NotAWidget
}
