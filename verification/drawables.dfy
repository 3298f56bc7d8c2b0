/**
 * The drawables of the sketch pad: a freehand marker stroke, a placed
 * sticker and the hover preview of the active tool.  What a drawable's
 * `display` paints on the canvas is abstracted as a `Painted` value: the
 * data the drawable would be painted from at that moment.
 */
module Drawables {

  /** A point in the canvas's pixel space. */
  datatype Point = Point(x: int, y: int)

  /** The two tools of the toolbar. */
  datatype Tool = Marker | Sticker

  /** The sticker glyphs the toolbar offers. */
  datatype StickerTool = Poop | Toilet | Water
  {
    /** The glyph text of the sticker: a single Unicode code point, never empty. */
    function Text(): (s: string)
      ensures |s| == 1
    {
      match this
      case Poop => "\U{1F4A9}"
      case Toilet => "\U{1F6BD}"
      case Water => "\U{1F4A7}"
    }
  }

  /**
   * Two stickers have the same glyph exactly when they are the same sticker,
   * so comparing glyph texts, as the program does, compares stickers.
   */
  lemma GlyphsDistinct(a: StickerTool, b: StickerTool)
    ensures a.Text() == b.Text() <==> a == b
  {
  }

  /** What a tool carries besides its kind: a marker width or a sticker glyph. */
  datatype ToolValue = Width(thickness: int) | Glyph(sticker: StickerTool)

  /**
   * The value a preview of `tool` carries: the marker width when the
   * marker is active, the sticker glyph otherwise.
   */
  function PreviewValue(tool: Tool, thickness: int, sticker: StickerTool): (v: ToolValue)
    ensures v.Width? <==> tool == Marker
    ensures v.Width? ==> v.thickness == thickness
    ensures v.Glyph? ==> v.sticker == sticker
  {
    if tool == Marker then Width(thickness) else Glyph(sticker)
  }

  /** One "this drawable is painted" event, with the data it is painted from. */
  datatype Painted =
    | LinePainted(points: seq<Point>, width: int)
    | StickerPainted(at: Point, text: string)
    | PreviewPainted(at: Point, tool: Tool, value: ToolValue)
  {
    /**
     * What a stroke or a sticker paints after one drag to (x, y): a stroke
     * gains (x, y) as its new last point, a sticker moves to (x, y).
     */
    function Extend(x: int, y: int): (r: Painted)
      requires !PreviewPainted?
      ensures LinePainted? ==>
        r.LinePainted? && r.width == width && |r.points| == |points| + 1 &&
        r.points[..|points|] == points && r.points[|points|] == Point(x, y)
      ensures StickerPainted? ==> r.StickerPainted? && r.at == Point(x, y) && r.text == text
    {
      match this
      case LinePainted(ps, w) => LinePainted(ps + [Point(x, y)], w)
      case StickerPainted(_, t) => StickerPainted(Point(x, y), t)
    }
  }

  /** A freehand stroke: the points visited, oldest first, and its width. */
  class MarkerLine {
    var points: seq<Point>
    var lineWidth: int

    constructor (initialPoint: Point, lineWidth: int)
      ensures points == [initialPoint] && this.lineWidth == lineWidth
    {
      points := [initialPoint];
      this.lineWidth := lineWidth;
    }

    /** Extends the stroke to (x, y). */
    method Drag(x: int, y: int)
      modifies this
      ensures points == old(points) + [Point(x, y)]
      ensures lineWidth == old(lineWidth)
    {
      points := points + [Point(x, y)];
    }
  }

  /** A placed sticker: its anchor and its glyph text. */
  class StickerCommand {
    var x: int
    var y: int
    var text: string

    constructor (x: int, y: int, text: string)
      ensures this.x == x && this.y == y && this.text == text
    {
      this.x := x;
      this.y := y;
      this.text := text;
    }

    /** Moves the sticker to (x, y); it leaves no trail. */
    method Drag(x: int, y: int)
      modifies this
      ensures this.x == x && this.y == y
      ensures text == old(text)
    {
      this.x := x;
      this.y := y;
    }
  }

  /** The hover preview of the active tool at the pointer. */
  class ToolPreview {
    var x: int
    var y: int
    var toolType: Tool
    var thicknessOrText: ToolValue

    constructor (x: int, y: int, toolType: Tool, thicknessOrText: ToolValue)
      ensures View() == PreviewPainted(Point(x, y), toolType, thicknessOrText)
    {
      this.x := x;
      this.y := y;
      this.toolType := toolType;
      this.thicknessOrText := thicknessOrText;
    }

    /** The preview carries a width exactly when it previews the marker. */
    predicate Consistent()
      reads this
    {
      thicknessOrText.Width? <==> toolType == Marker
    }

    /**
     * What `display` paints for this preview: a preview at its position, of
     * its tool kind, with its width or glyph; a consistent preview paints a
     * width exactly when it previews the marker.
     */
    function View(): (p: Painted)
      reads this
      ensures p.PreviewPainted? && p.at == Point(x, y) && p.tool == toolType && p.value == thicknessOrText
      ensures Consistent() ==> (p.value.Width? <==> p.tool == Marker)
    {
      PreviewPainted(Point(x, y), toolType, thicknessOrText)
    }

    /** Moves the preview to (x, y), keeping its tool and value. */
    method UpdatePosition(x: int, y: int)
      modifies this
      ensures View() == PreviewPainted(Point(x, y), old(toolType), old(thicknessOrText))
    {
      this.x := x;
      this.y := y;
    }
  }

  /** An entry of the edit history: a reference to a stroke or to a sticker. */
  datatype Command = MarkerCmd(marker: MarkerLine) | StickerCmd(sticker: StickerCommand)
  {
    /** The object this entry refers to. */
    function Obj(): object
    {
      if MarkerCmd? then marker else sticker
    }

    /**
     * What `display` paints for this entry now: a stroke paints its points
     * and its width, a sticker its text at its anchor; an entry never paints
     * as a preview.
     */
    function View(): (p: Painted)
      reads Obj()
      ensures !p.PreviewPainted?
      ensures p.LinePainted? <==> MarkerCmd?
      ensures MarkerCmd? ==> p.points == marker.points && p.width == marker.lineWidth
      ensures StickerCmd? ==> p.at == Point(sticker.x, sticker.y) && p.text == sticker.text
    {
      match this
      case MarkerCmd(m) => LinePainted(m.points, m.lineWidth)
      case StickerCmd(s) => StickerPainted(Point(s.x, s.y), s.text)
    }

    /** The `drag` of the referenced drawable, updating it in place. */
    method Drag(x: int, y: int)
      modifies Obj()
      ensures View() == old(View()).Extend(x, y)
    {
      match this
      case MarkerCmd(m) => m.Drag(x, y);
      case StickerCmd(s) => s.Drag(x, y);
    }
  }

  /** Two entries refer to the same object only when they are the same entry. */
  lemma ObjInjective(c: Command, d: Command)
    ensures c.Obj() == d.Obj() ==> c == d
  {
  }
}
