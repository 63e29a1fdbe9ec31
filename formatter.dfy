/** CustomFormatter.format (highlighter.py:7-29).  The image is a log of the
    draw commands issued on it, so the order of painting can be stated.
    Pygments' own steps are abstract: the drawables made by
    _create_drawables and _draw_line_numbers are an input, and so are the
    image size (_get_image_size), the line height (_get_line_height) and the
    top of each line (_get_line_y). */
module Formatter {
  import opened Wrappers

  type Color = string

  datatype Point = Point(x: int, y: int)

  /** One entry of self.drawables: position, text, font, foreground and
      background colour. */
  datatype Drawable = Drawable(pos: Point, value: string, font: string, fg: Color, bg: Option<Color>)

  datatype DrawCmd =
    | PaintLineNumberBg
    | Rectangle(topLeft: Point, bottomRight: Point, fill: Color)
    | Text(pos: Point, value: string, font: string, fill: Color)

  datatype Canvas = Canvas(width: int, height: int, background: Color, commands: seq<DrawCmd>)

  /** The bands of the highlighted lines, in the order they are listed:
      the k-th spans from the left edge `left` of the code area to the right
      edge `width` of the image, from the top of its line (1-based, so
      lineY(n - 1)) down one line height. */
  function Bands(hlLines: seq<int>, left: int, width: int, lineHeight: int,
                 lineY: int -> int, fill: Color): (r: seq<DrawCmd>)
    ensures |r| == |hlLines|
    ensures forall k :: 0 <= k < |hlLines| ==>
              r[k] == Rectangle(Point(left, lineY(hlLines[k] - 1)),
                                Point(width, lineY(hlLines[k] - 1) + lineHeight), fill)
  {
    if hlLines == [] then []
    else
      var n := hlLines[|hlLines| - 1];
      Bands(hlLines[..|hlLines| - 1], left, width, lineHeight, lineY, fill)
      + [Rectangle(Point(left, lineY(n - 1)), Point(width, lineY(n - 1) + lineHeight), fill)]
  }

  /** One text per drawable, in order, in the drawable's foreground colour;
      its background colour is ignored. */
  function Texts(ds: seq<Drawable>): (r: seq<DrawCmd>)
    ensures |r| == |ds|
    ensures forall k :: 0 <= k < |ds| ==> r[k] == Text(ds[k].pos, ds[k].value, ds[k].font, ds[k].fg)
  {
    if ds == [] then []
    else
      var d := ds[|ds| - 1];
      Texts(ds[..|ds| - 1]) + [Text(d.pos, d.value, d.font, d.fg)]
  }

  /** The commands format issues: first the gutter, then one band per
      highlighted line (none when there are none), then one text per
      drawable. */
  function Commands(left: int, width: int, lineHeight: int, lineY: int -> int,
                    hlLines: seq<int>, hlColor: Color, ds: seq<Drawable>): (c: seq<DrawCmd>)
    ensures |c| == 1 + |hlLines| + |ds|
    ensures c[0] == PaintLineNumberBg
    ensures forall k :: 0 <= k < |hlLines| ==>
              c[1 + k] == Rectangle(Point(left, lineY(hlLines[k] - 1)),
                                    Point(width, lineY(hlLines[k] - 1) + lineHeight), hlColor)
    ensures forall k :: 0 <= k < |ds| ==>
              c[1 + |hlLines| + k] == Text(ds[k].pos, ds[k].value, ds[k].font, ds[k].fg)
  {
    [PaintLineNumberBg] + Bands(hlLines, left, width, lineHeight, lineY, hlColor) + Texts(ds)
  }

  /** No band is painted after any text, no text over a later band, and the
      gutter comes before both. */
  lemma BandsBeforeTexts(left: int, width: int, lineHeight: int, lineY: int -> int,
                         hlLines: seq<int>, hlColor: Color, ds: seq<Drawable>, i: nat, j: nat)
    requires i < j < |Commands(left, width, lineHeight, lineY, hlLines, hlColor, ds)|
    ensures var c := Commands(left, width, lineHeight, lineY, hlLines, hlColor, ds);
            !c[j].PaintLineNumberBg? && (c[j].Rectangle? ==> !c[i].Text?)
  {
    var c := Commands(left, width, lineHeight, lineY, hlLines, hlColor, ds);
    if j - 1 < |hlLines| {
      var k := j - 1;
      assert c[1 + k] == Rectangle(Point(left, lineY(hlLines[k] - 1)),
                                   Point(width, lineY(hlLines[k] - 1) + lineHeight), hlColor);
      if i > 0 {
        var k' := i - 1;
        assert c[1 + k'] == Rectangle(Point(left, lineY(hlLines[k'] - 1)),
                                      Point(width, lineY(hlLines[k'] - 1) + lineHeight), hlColor);
      }
    } else {
      var k := j - 1 - |hlLines|;
      assert c[1 + |hlLines| + k] == Text(ds[k].pos, ds[k].value, ds[k].font, ds[k].fg);
    }
  }

  /** get_formatter passes no hl_lines, so in this program format draws no
      rectangle at all: only the gutter and the texts. */
  lemma {:induction false} NoBandsWithoutHighlight(left: int, width: int, lineHeight: int, lineY: int -> int,
                                                   hlColor: Color, ds: seq<Drawable>)
    ensures var c := Commands(left, width, lineHeight, lineY, [], hlColor, ds);
            forall k :: 0 <= k < |c| ==> !c[k].Rectangle?
  {
    var c := Commands(left, width, lineHeight, lineY, [], hlColor, ds);
    forall k | 0 <= k < |c| ensures !c[k].Rectangle? {
      if k > 0 {
        var j := k - 1;
        assert c[1 + 0 + j] == Text(ds[j].pos, ds[j].value, ds[j].font, ds[j].fg);
      }
    }
  }

  /** The loop over hl_lines (highlighter.py:20-26): one filled rectangle
      per highlighted line, from x to x + rectw where rectw is the image
      width less x. */
  method DrawBands(hlLines: seq<int>, x: int, width: int, lineHeight: int,
                   lineY: int -> int, fill: Color) returns (cmds: seq<DrawCmd>)
    ensures cmds == Bands(hlLines, x, width, lineHeight, lineY, fill)
  {
    var recth := lineHeight;
    var rectw := width - x;
    cmds := [];
    var i := 0;
    while i < |hlLines|
      invariant 0 <= i <= |hlLines|
      invariant cmds == Bands(hlLines[..i], x, width, lineHeight, lineY, fill)
    {
      var y := lineY(hlLines[i] - 1);
      cmds := cmds + [Rectangle(Point(x, y), Point(x + rectw, y + recth), fill)];
      assert hlLines[..i + 1][..i] == hlLines[..i];
      i := i + 1;
    }
    assert hlLines[..i] == hlLines;
  }

  /** The loop over self.drawables (highlighter.py:27-28): one text per
      drawable, filled with text_fg. */
  method DrawTexts(ds: seq<Drawable>) returns (cmds: seq<DrawCmd>)
    ensures cmds == Texts(ds)
  {
    cmds := [];
    var j := 0;
    while j < |ds|
      invariant 0 <= j <= |ds|
      invariant cmds == Texts(ds[..j])
    {
      var d := ds[j];
      cmds := cmds + [Text(d.pos, d.value, d.font, d.fg)];
      assert ds[..j + 1][..j] == ds[..j];
      j := j + 1;
    }
    assert ds[..j] == ds;
  }

  class CustomFormatter {
    const imagePad: int
    const lineNumberWidth: int
    const lineNumberPad: int
    /** The 1-based numbers of the lines to highlight. */
    const hlLines: seq<int>
    const hlColor: Color
    const backgroundColor: Color
    var drawables: seq<Drawable>
    /** self.image, set by format. */
    var image: Option<Canvas>

    constructor (imagePad: int, lineNumberWidth: int, lineNumberPad: int,
                 hlLines: seq<int>, hlColor: Color, backgroundColor: Color)
      ensures this.imagePad == imagePad && this.lineNumberWidth == lineNumberWidth
      ensures this.lineNumberPad == lineNumberPad && this.hlLines == hlLines
      ensures this.hlColor == hlColor && this.backgroundColor == backgroundColor
      ensures drawables == [] && image == None
    {
      this.imagePad := imagePad;
      this.lineNumberWidth := lineNumberWidth;
      this.lineNumberPad := lineNumberPad;
      this.hlLines := hlLines;
      this.hlColor := hlColor;
      this.backgroundColor := backgroundColor;
      drawables := [];
      image := None;
    }

    /** format(tokensource, outfile): appends the drawables made for the
        tokens and the line numbers to self.drawables, draws into a fresh
        image of the given size and keeps it in self.image; nothing is
        written to outfile.  The bands start just right of the line-number
        gutter. */
    method Format(produced: seq<Drawable>, width: int, height: int, lineHeight: int, lineY: int -> int)
      modifies this
      ensures drawables == old(drawables) + produced
      ensures image == Some(Canvas(width, height, backgroundColor,
                                   Commands(imagePad + lineNumberWidth - lineNumberPad + 1,
                                            width, lineHeight, lineY, hlLines, hlColor, drawables)))
    {
      drawables := drawables + produced;
      var x := imagePad + lineNumberWidth - lineNumberPad + 1;
      var bands := [];
      if hlLines != [] {
        bands := DrawBands(hlLines, x, width, lineHeight, lineY, hlColor);
      }
      var texts := DrawTexts(drawables);
      image := Some(Canvas(width, height, backgroundColor, [PaintLineNumberBg] + bands + texts));
    }
  }
}
