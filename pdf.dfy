/** The part of a pdfkit document that the layout engine drives: a cursor
    (`doc.x`, `doc.y`), the current font, font size, fill colour, stroke colour
    and line width, and the log of what has been drawn. Text measurement,
    line height and the page width are pdfkit's own and are parameters here
    (`Env`): every cursor fact is stated relative to them. */
module Pdf {
  import opened Resume

  datatype Font = Helvetica | HelveticaBold

  /** One drawing command, with the style in force when it was issued. */
  datatype DrawOp =
    | FillRect(x: real, y: real, w: real, h: real, color: string)
    | DrawText(text: string, x: real, y: real, width: real, indent: real,
               font: Font, size: real, color: string)
    | StrokeLine(x1: real, y1: real, x2: real, y2: real, color: string, lineWidth: real)

  /** What pdfkit measures: the height a text block takes (text, font, size, width,
      first-line indent), the line height used by `moveDown` (font, size), the page width. */
  datatype Env = Env(
    pageWidth: real,
    measure: (string, Font, real, real, real) -> real,
    lineHeight: (Font, real) -> real)

  /** The page margin on every side (`margins: { top: 50, left: 50, right: 50, bottom: 50 }`). */
  const Margin: real := 50.0

  datatype DocState = DocState(
    x: real, y: real, font: Font, size: real,
    fill: string, stroke: string, lineWidth: real,
    ops: seq<DrawOp>)

  /** A fresh document: cursor at the top-left margin, Helvetica 12, black on white. */
  function Initial(): DocState
  {
    DocState(Margin, Margin, Helvetica, 12.0, "black", "black", 1.0, [])
  }

  /** `text(s, x, y, { width })`: moves the cursor to (x, y), draws, and leaves the cursor
      below the text. Without a width, pdfkit wraps at the right margin. */
  function TextAt(d: DocState, env: Env, s: string, x: real, y: real, width: Option<real>): DocState
  {
    var w := if width.Some? then width.value else env.pageWidth - x - Margin;
    d.(x := x, y := y + env.measure(s, d.font, d.size, w, 0.0),
       ops := d.ops + [DrawText(s, x, y, w, 0.0, d.font, d.size, d.fill)])
  }

  /** `text(s, { indent })`: draws at the cursor, wrapping at the right margin. */
  function TextFlow(d: DocState, env: Env, s: string, indent: real): DocState
  {
    var w := env.pageWidth - d.x - Margin;
    d.(y := d.y + env.measure(s, d.font, d.size, w, indent),
       ops := d.ops + [DrawText(s, d.x, d.y, w, indent, d.font, d.size, d.fill)])
  }

  /** `moveDown()`: one line of the current font further down. */
  function MoveDown(d: DocState, env: Env): DocState
  {
    d.(y := d.y + env.lineHeight(d.font, d.size))
  }

  /** `rect(x, y, w, h).fill(color)`. */
  function FillRectangle(d: DocState, x: real, y: real, w: real, h: real, color: string): DocState
  {
    d.(fill := color, ops := d.ops + [FillRect(x, y, w, h, color)])
  }

  /** `moveTo(x1, y1).lineTo(x2, y2).stroke()`. */
  function Stroke(d: DocState, x1: real, y1: real, x2: real, y2: real): DocState
  {
    d.(ops := d.ops + [StrokeLine(x1, y1, x2, y2, d.stroke, d.lineWidth)])
  }

  /** The pdfkit document object, whose chained calls update it in place. */
  class Doc {
    const env: Env
    var x: real
    var y: real
    var font: Font
    var size: real
    var fill: string
    var stroke: string
    var lineWidth: real
    var ops: seq<DrawOp>

    function State(): DocState
      reads this
    {
      DocState(x, y, font, size, fill, stroke, lineWidth, ops)
    }

    /** `new PDFDocument({ size: 'LETTER', margins: ... })`. */
    constructor (env: Env)
      ensures this.env == env && State() == Initial()
    {
      this.env := env;
      x, y, font, size := Margin, Margin, Helvetica, 12.0;
      fill, stroke, lineWidth := "black", "black", 1.0;
      ops := [];
    }

    method SetFont(f: Font)
      modifies this
      ensures State() == old(State()).(font := f)
    {
      font := f;
    }

    method FontSize(n: real)
      modifies this
      ensures State() == old(State()).(size := n)
    {
      size := n;
    }

    method FillColor(c: string)
      modifies this
      ensures State() == old(State()).(fill := c)
    {
      fill := c;
    }

    method StrokeColor(c: string)
      modifies this
      ensures State() == old(State()).(stroke := c)
    {
      stroke := c;
    }

    method LineWidth(w: real)
      modifies this
      ensures State() == old(State()).(lineWidth := w)
    {
      lineWidth := w;
    }

    method Rect(rx: real, ry: real, w: real, h: real, color: string)
      modifies this
      ensures State() == FillRectangle(old(State()), rx, ry, w, h, color)
    {
      fill := color;
      ops := ops + [FillRect(rx, ry, w, h, color)];
    }

    method Text(s: string, tx: real, ty: real, width: Option<real>)
      modifies this
      ensures State() == TextAt(old(State()), env, s, tx, ty, width)
    {
      var w := if width.Some? then width.value else env.pageWidth - tx - Margin;
      ops := ops + [DrawText(s, tx, ty, w, 0.0, font, size, fill)];
      x := tx;
      y := ty + env.measure(s, font, size, w, 0.0);
    }

    method TextIndented(s: string, indent: real)
      modifies this
      ensures State() == TextFlow(old(State()), env, s, indent)
    {
      var w := env.pageWidth - x - Margin;
      ops := ops + [DrawText(s, x, y, w, indent, font, size, fill)];
      y := y + env.measure(s, font, size, w, indent);
    }

    method MoveDownOneLine()
      modifies this
      ensures State() == MoveDown(old(State()), env)
    {
      y := y + env.lineHeight(font, size);
    }

    method Line(x1: real, y1: real, x2: real, y2: real)
      modifies this
      ensures State() == Stroke(old(State()), x1, y1, x2, y2)
    {
      ops := ops + [StrokeLine(x1, y1, x2, y2, stroke, lineWidth)];
    }
  }
}
