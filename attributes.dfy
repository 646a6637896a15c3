/** The in-place `configure` of Label and Button: each keyword left at None
    keeps the stored attribute, any other value overwrites it, except that
    `text_offset` is written into the background. */
module Attributes {
  import opened Outcomes
  import opened Input

  /** What `_bg` holds: normally a colour code, but after a configure with
      `text_offset` the offset pair itself. */
  datatype Paint = Colour(code: string) | Coordinates(offset: Point)

  /** The text attributes Label and Button share (`_text`, `_fg`, `_bg`,
      `_text_size`, `_transparency`). */
  datatype TextStyle = TextStyle(text: string, fg: string, bg: Paint, textSize: int, transparency: int)

  /** The keyword arguments of Label.configure and Button.configure. */
  datatype TextArgs = TextArgs(
    textValue: Option<string>,
    foreground: Option<string>,
    background: Option<string>,
    textSize: Option<int>,
    textOffset: Option<Point>,
    transparency: Option<int>)

  /** A configure call with every keyword left out. */
  const NoTextArgs: TextArgs := TextArgs(None, None, None, None, None, None)

  /** The attributes after a configure call; the keywords are applied in the
      order the source tests them, so `text_offset` overrides `background`. */
  function Restyle(s: TextStyle, args: TextArgs): (r: TextStyle)
    ensures args.textOffset.Some? ==> r.bg == Coordinates(args.textOffset.value)
    ensures args.textOffset.None? && args.background.Some? ==> r.bg == Colour(args.background.value)
    ensures args.textOffset.None? && args.background.None? ==> r.bg == s.bg
  {
    var bg := if args.background.Some? then Colour(args.background.value) else s.bg;
    TextStyle(
      Keep(args.textValue, s.text),
      Keep(args.foreground, s.fg),
      if args.textOffset.Some? then Coordinates(args.textOffset.value) else bg,
      Keep(args.textSize, s.textSize),
      Keep(args.transparency, s.transparency))
  }

  /** Leaving every keyword out changes nothing. */
  lemma RestyleNothing(s: TextStyle)
    ensures Restyle(s, NoTextArgs) == s
  {
  }

  /** Every keyword given overwrites its attribute, whatever the old value. */
  lemma RestyleOverwrites(s: TextStyle, args: TextArgs)
    ensures args.textValue.Some? ==> Restyle(s, args).text == args.textValue.value
    ensures args.foreground.Some? ==> Restyle(s, args).fg == args.foreground.value
    ensures args.textSize.Some? ==> Restyle(s, args).textSize == args.textSize.value
    ensures args.transparency.Some? ==> Restyle(s, args).transparency == args.transparency.value
  {
  }

  /** Every keyword left out keeps its attribute, whatever the others do. */
  lemma RestyleKeeps(s: TextStyle, args: TextArgs)
    ensures args.textValue.None? ==> Restyle(s, args).text == s.text
    ensures args.foreground.None? ==> Restyle(s, args).fg == s.fg
    ensures args.textSize.None? ==> Restyle(s, args).textSize == s.textSize
    ensures args.transparency.None? ==> Restyle(s, args).transparency == s.transparency
  {
  }

  /** Repeating the same configure call has no further effect. */
  lemma RestyleIdempotent(s: TextStyle, args: TextArgs)
    ensures Restyle(Restyle(s, args), args) == Restyle(s, args)
  {
  }
}

/** The two values the Line and Polygon constructors derive from their
    arguments. */
module Geometry {
  import opened Input

  function Min(a: int, b: int): int { if a <= b then a else b }
  function Max(a: int, b: int): int { if a <= b then b else a }

  /** Line's `_topleft`: componentwise minimum of the two end points. */
  function TopLeft(start: Point, end: Point): (tl: Point)
    ensures tl.x <= start.x && tl.x <= end.x && (tl.x == start.x || tl.x == end.x)
    ensures tl.y <= start.y && tl.y <= end.y && (tl.y == start.y || tl.y == end.y)
  {
    Point(Min(start.x, end.x), Min(start.y, end.y))
  }

  /** Line's `_bottomright`: componentwise maximum of the two end points. */
  function BottomRight(start: Point, end: Point): (br: Point)
    ensures br.x >= start.x && br.x >= end.x && (br.x == start.x || br.x == end.x)
    ensures br.y >= start.y && br.y >= end.y && (br.y == start.y || br.y == end.y)
  {
    Point(Max(start.x, end.x), Max(start.y, end.y))
  }

  /** The two corners span the smallest box holding both end points, and
      swapping the end points does not move it. */
  lemma CornersBoundLine(start: Point, end: Point)
    ensures TopLeft(start, end).x <= BottomRight(start, end).x
    ensures TopLeft(start, end).y <= BottomRight(start, end).y
    ensures TopLeft(start, end) == TopLeft(end, start)
    ensures BottomRight(start, end) == BottomRight(end, start)
  {
  }

  /** Polygon's stored stroke width: a filled polygon is drawn with width 0. */
  function PolygonWidth(width: int, fill: bool): (w: int)
    ensures fill ==> w == 0
    ensures !fill ==> w == width
  {
    if fill then 0 else width
  }
}
