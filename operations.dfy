/**
 * The drawing compiler: each entry point turns one drawing request into the
 * ordered list of content-stream operators that draws it. Every entry point
 * builds an array literal of operators, gates some entries with `&&`, and drops
 * the falsy entries with `filter(Boolean)` (here `Compact`); `DrawLinesOfText`
 * then appends to its array in a loop.
 *
 * Collaborators whose code is not part of this model are parameters:
 * `toRadians` normalises a tagged angle, `svgPathToOperators` translates SVG
 * path text. Colour expansion is the single operator `SetFillingColor` or
 * `SetStrokingColor` carrying the colour.
 */
module Operations {
  import opened Wrappers
  import opened JsValues
  import opened Operators

  datatype Point = Point(x: real, y: real)

  datatype DrawTextOptions = DrawTextOptions(
    color: Color, font: string, size: real,
    rotate: Rotation, xSkew: Rotation, ySkew: Rotation,
    x: real, y: real, graphicsState: Option<NameArg>)

  /** The text options plus the distance between lines. */
  datatype DrawLinesOfTextOptions = DrawLinesOfTextOptions(text: DrawTextOptions, lineHeight: real)

  datatype DrawImageOptions = DrawImageOptions(
    x: real, y: real, width: real, height: real,
    rotate: Rotation, xSkew: Rotation, ySkew: Rotation,
    graphicsState: Option<NameArg>)

  datatype DrawPageOptions = DrawPageOptions(
    x: real, y: real, xScale: real, yScale: real,
    rotate: Rotation, xSkew: Rotation, ySkew: Rotation,
    graphicsState: Option<NameArg>)

  /** `lineCap` is the numeric code of the line-cap style enumeration. */
  datatype DrawLineOptions = DrawLineOptions(
    start: Point, end: Point, thickness: real, color: Option<Color>,
    lineCap: Option<int>, dashArray: Option<seq<real>>, dashPhase: Option<real>,
    graphicsState: Option<NameArg>)

  datatype DrawRectangleOptions = DrawRectangleOptions(
    x: real, y: real, width: real, height: real, borderWidth: NumArg,
    color: Option<Color>, borderColor: Option<Color>,
    rotate: Rotation, xSkew: Rotation, ySkew: Rotation,
    borderDashArray: Option<seq<real>>, borderDashPhase: Option<real>,
    graphicsState: Option<NameArg>)

  /** Centre `(x, y)` and the two radii. */
  datatype EllipseConfig = EllipseConfig(x: real, y: real, xScale: real, yScale: real)

  datatype DrawEllipseOptions = DrawEllipseOptions(
    x: real, y: real, xScale: real, yScale: real,
    color: Option<Color>, borderColor: Option<Color>, borderWidth: NumArg,
    borderDashArray: Option<seq<real>>, borderDashPhase: Option<real>,
    graphicsState: Option<NameArg>)

  datatype DrawSvgPathOptions = DrawSvgPathOptions(
    x: real, y: real, scale: Option<NumArg>,
    color: Option<Color>, borderColor: Option<Color>, borderWidth: NumArg,
    borderDashArray: Option<seq<real>>, borderDashPhase: Option<real>,
    graphicsState: Option<NameArg>)

  // ---------------------------------------------------------------------------
  // Entries shared by several array literals
  // ---------------------------------------------------------------------------

  /** The graphics state is set only when the option is truthy (an empty name is not). */
  function GraphicsStateEntry(gs: Option<NameArg>): (r: Option<Op>)
    ensures r.Some? <==> OptNameTruthy(gs)
    ensures r.Some? ==> r.value == SetGraphicsState(gs.value.s)
  {
    if OptNameTruthy(gs) then Some(SetGraphicsState(gs.value.s)) else None
  }

  /** The fill colour is set whenever a colour is given: a colour object is always truthy. */
  function FillColorEntry(color: Option<Color>): (r: Option<Op>)
    ensures r.Some? <==> color.Some?
    ensures r.Some? ==> r.value == SetFillingColor(color.value)
  {
    if color.Some? then Some(SetFillingColor(color.value)) else None
  }

  /** The stroking colour is set whenever a border colour is given. */
  function StrokeColorEntry(color: Option<Color>): (r: Option<Op>)
    ensures r.Some? <==> color.Some?
    ensures r.Some? ==> r.value == SetStrokingColor(color.value)
  {
    if color.Some? then Some(SetStrokingColor(color.value)) else None
  }

  /** The dash pattern, solid (no dashes, phase zero) for whichever part is not given. */
  function DashPattern(dashArray: Option<seq<real>>, dashPhase: Option<real>): (r: Op)
    ensures r.SetDashPattern?
    ensures r.dashArray == (if dashArray.Some? then dashArray.value else [])
    ensures r.dashPhase == (if dashPhase.Some? then dashPhase.value else 0.0)
  {
    SetDashPattern(Coalesce(dashArray, []), Coalesce(dashPhase, 0.0))
  }

  /**
   * The terminal paint operator, chosen the same way for rectangles, ellipses
   * and SVG paths: fill and stroke when there is a colour and a truthy border
   * width, fill when there is a colour only, stroke when there is a border
   * colour only, and otherwise a bare close of the path.
   */
  function PaintOperator(color: Option<Color>, borderColor: Option<Color>, borderWidth: NumArg): (r: Op)
    ensures r == FillAndStroke <==> color.Some? && NumTruthy(borderWidth)
    ensures r == Fill <==> color.Some? && !NumTruthy(borderWidth)
    ensures r == Stroke <==> color.None? && borderColor.Some?
    ensures r == ClosePath <==> color.None? && borderColor.None?
  {
    if color.Some? && NumTruthy(borderWidth) then FillAndStroke
    else if color.Some? then Fill
    else if borderColor.Some? then Stroke
    else ClosePath
  }

  // ---------------------------------------------------------------------------
  // Text
  // ---------------------------------------------------------------------------

  /** The single text-matrix operator built from the three normalised angles and the origin. */
  function TextMatrix(o: DrawTextOptions, toRadians: Rotation -> real): Op {
    SetTextMatrix(toRadians(o.rotate), toRadians(o.xSkew), toRadians(o.ySkew), o.x, o.y)
  }

  /** One line of text: save, optional graphics state, text object showing the line, restore. */
  function DrawText(line: string, o: DrawTextOptions, toRadians: Rotation -> real): (r: seq<Op>)
    ensures r == [Push] + Present(GraphicsStateEntry(o.graphicsState))
               + [BeginText, SetFillingColor(o.color), SetFontAndSize(o.font, o.size),
                  TextMatrix(o, toRadians), ShowText(line), EndText, Pop]
  {
    var entries := [
      Some(Push),
      GraphicsStateEntry(o.graphicsState),
      Some(BeginText),
      Some(SetFillingColor(o.color)),
      Some(SetFontAndSize(o.font, o.size)),
      Some(TextMatrix(o, toRadians)),
      Some(ShowText(line)),
      Some(EndText),
      Some(Pop)
    ];
    var rest := [BeginText, SetFillingColor(o.color), SetFontAndSize(o.font, o.size),
                 TextMatrix(o, toRadians), ShowText(line), EndText, Pop];
    assert entries == Lift([Push]) + [entries[1]] + Lift(rest);
    CompactAppendLift(Lift([Push]) + [entries[1]], rest);
    CompactSnoc(Lift([Push]), entries[1]);
    CompactLift([Push]);
    Compact(entries)
  }

  /** The filtered literal `drawLinesOfText` starts from, before any line is shown. */
  function LinesOfTextPreamble(o: DrawLinesOfTextOptions, toRadians: Rotation -> real): (r: seq<Op>)
    ensures r == [Push] + Present(GraphicsStateEntry(o.text.graphicsState))
               + [BeginText, SetFillingColor(o.text.color), SetFontAndSize(o.text.font, o.text.size),
                  SetLineHeight(o.lineHeight), TextMatrix(o.text, toRadians)]
  {
    var t := o.text;
    var entries := [
      Some(Push),
      GraphicsStateEntry(t.graphicsState),
      Some(BeginText),
      Some(SetFillingColor(t.color)),
      Some(SetFontAndSize(t.font, t.size)),
      Some(SetLineHeight(o.lineHeight)),
      Some(TextMatrix(t, toRadians))
    ];
    var rest := [BeginText, SetFillingColor(t.color), SetFontAndSize(t.font, t.size),
                 SetLineHeight(o.lineHeight), TextMatrix(t, toRadians)];
    assert entries == Lift([Push]) + [entries[1]] + Lift(rest);
    CompactAppendLift(Lift([Push]) + [entries[1]], rest);
    CompactSnoc(Lift([Push]), entries[1]);
    CompactLift([Push]);
    Compact(entries)
  }

  /** What the loop of `drawLinesOfText` appends: each line shown, then a move to the next line. */
  function ShowLines(lines: seq<string>): (r: seq<Op>)
    ensures |r| == 2 * |lines|
  {
    if lines == [] then [] else [ShowText(lines[0]), NextLine] + ShowLines(lines[1..])
  }

  /** Appending one more line to the shown lines appends its two operators. */
  lemma {:induction false} ShowLinesSnoc(lines: seq<string>, line: string)
    ensures ShowLines(lines + [line]) == ShowLines(lines) + [ShowText(line), NextLine]
  {
    if lines == [] {
      assert [line][1..] == [];
    } else {
      assert (lines + [line])[1..] == lines[1..] + [line];
      ShowLinesSnoc(lines[1..], line);
    }
  }

  /** Line `i` is shown at position `2 i`, followed by a move to the next line. */
  lemma {:induction false} ShowLinesIndex(lines: seq<string>, i: nat)
    requires i < |lines|
    ensures ShowLines(lines)[2 * i] == ShowText(lines[i]) && ShowLines(lines)[2 * i + 1] == NextLine
  {
    if i > 0 {
      ShowLinesIndex(lines[1..], i - 1);
      assert ShowLines(lines) == [ShowText(lines[0]), NextLine] + ShowLines(lines[1..]);
    }
  }

  /** The shown lines are two operators per line, in input order. */
  lemma ShowLinesAt(lines: seq<string>)
    ensures forall i | 0 <= i < |lines| ::
      ShowLines(lines)[2 * i] == ShowText(lines[i]) && ShowLines(lines)[2 * i + 1] == NextLine
  {
    forall i | 0 <= i < |lines|
      ensures ShowLines(lines)[2 * i] == ShowText(lines[i]) && ShowLines(lines)[2 * i + 1] == NextLine
    {
      ShowLinesIndex(lines, i);
    }
  }

  /** Showing lines emits only `ShowText` and `NextLine`, so it never touches the graphics-state stack. */
  lemma ShowLinesOnlyText(lines: seq<string>)
    ensures forall k | 0 <= k < |ShowLines(lines)| :: ShowLines(lines)[k].ShowText? || ShowLines(lines)[k].NextLine?
  {
    ShowLinesAt(lines);
    forall k | 0 <= k < |ShowLines(lines)| ensures ShowLines(lines)[k].ShowText? || ShowLines(lines)[k].NextLine? {
      if k % 2 == 0 {
        assert ShowLines(lines)[2 * (k / 2)] == ShowText(lines[k / 2]);
      } else {
        assert ShowLines(lines)[2 * (k / 2) + 1] == NextLine;
      }
    }
  }

  lemma ShowLinesStackFree(lines: seq<string>)
    ensures StackFree(ShowLines(lines))
  {
    ShowLinesOnlyText(lines);
  }

  /** Several lines of text are bracketed by their save and restore, whatever the number of lines. */
  lemma LinesOfTextBracketed(lines: seq<string>, o: DrawLinesOfTextOptions, toRadians: Rotation -> real)
    ensures Bracketed(LinesOfTextPreamble(o, toRadians) + ShowLines(lines) + [EndText, Pop])
  {
    var t := o.text;
    var gs := Present(GraphicsStateEntry(t.graphicsState));
    OpenedAppend([Push], gs);
    OpenedAppend([Push] + gs, [BeginText, SetFillingColor(t.color), SetFontAndSize(t.font, t.size),
                               SetLineHeight(o.lineHeight), TextMatrix(t, toRadians)]);
    ShowLinesStackFree(lines);
    OpenedAppend(LinesOfTextPreamble(o, toRadians), ShowLines(lines));
    OpenedClose(LinesOfTextPreamble(o, toRadians) + ShowLines(lines), [EndText, Pop]);
  }

  /** After any preamble, line `i` is shown at offset `2 i`, and the text object and frame close last. */
  lemma ShownAfter(pre: seq<Op>, lines: seq<string>)
    ensures var r := pre + ShowLines(lines) + [EndText, Pop]; var p := |pre|;
      |r| == p + 2 * |lines| + 2 &&
      (forall i | 0 <= i < |lines| :: r[p + 2 * i] == ShowText(lines[i]) && r[p + 2 * i + 1] == NextLine) &&
      r[p + 2 * |lines|..] == [EndText, Pop]
  {
    ShowLinesAt(lines);
    PairsAfter(pre, ShowLines(lines), lines);
  }

  /** Operators laid out two per line keep that layout behind any prefix and before the closing pair. */
  lemma PairsAfter(pre: seq<Op>, shown: seq<Op>, lines: seq<string>)
    requires |shown| == 2 * |lines|
    requires forall i | 0 <= i < |lines| :: shown[2 * i] == ShowText(lines[i]) && shown[2 * i + 1] == NextLine
    ensures var r := pre + shown + [EndText, Pop]; var p := |pre|;
      |r| == p + 2 * |lines| + 2 &&
      (forall i | 0 <= i < |lines| :: r[p + 2 * i] == ShowText(lines[i]) && r[p + 2 * i + 1] == NextLine) &&
      r[p + 2 * |lines|..] == [EndText, Pop]
  {
    var r := pre + shown + [EndText, Pop];
    var p := |pre|;
    forall i | 0 <= i < |lines|
      ensures r[p + 2 * i] == ShowText(lines[i]) && r[p + 2 * i + 1] == NextLine
    {
      assert r[p + 2 * i] == shown[2 * i];
      assert r[p + 2 * i + 1] == shown[2 * i + 1];
    }
    assert r[p + 2 * |lines|..] == [EndText, Pop];
  }

  /**
   * Several lines of text: the filtered preamble, then `ShowText`/`NextLine`
   * for each line in order (pushed onto the array in a loop), then end of text
   * and restore.
   */
  method DrawLinesOfText(lines: seq<string>, o: DrawLinesOfTextOptions, toRadians: Rotation -> real)
    returns (operators: seq<Op>)
    ensures operators == LinesOfTextPreamble(o, toRadians) + ShowLines(lines) + [EndText, Pop]
    ensures Bracketed(operators)
  {
    var preamble := LinesOfTextPreamble(o, toRadians);
    operators := preamble;
    var idx, len := 0, |lines|;
    while idx < len
      invariant 0 <= idx <= len
      invariant operators == preamble + ShowLines(lines[..idx])
    {
      ShowLinesSnoc(lines[..idx], lines[idx]);
      assert lines[..idx + 1] == lines[..idx] + [lines[idx]];
      operators := operators + [ShowText(lines[idx]), NextLine];
      idx := idx + 1;
    }
    assert lines[..idx] == lines;
    operators := operators + [EndText, Pop];
    LinesOfTextBracketed(lines, o, toRadians);
  }

  // ---------------------------------------------------------------------------
  // External objects: images and embedded pages
  // ---------------------------------------------------------------------------

  /**
   * Place an image XObject: save, optional graphics state, translate, rotate,
   * scale by the image's width and height, skew, draw, restore.
   */
  function DrawImage(name: string, o: DrawImageOptions, toRadians: Rotation -> real): (r: seq<Op>)
    ensures r == [Push] + Present(GraphicsStateEntry(o.graphicsState))
               + [Translate(o.x, o.y), Rotate(toRadians(o.rotate)), Scale(o.width, o.height),
                  Skew(toRadians(o.xSkew), toRadians(o.ySkew)), DrawObject(name), Pop]
  {
    var entries := [
      Some(Push),
      GraphicsStateEntry(o.graphicsState),
      Some(Translate(o.x, o.y)),
      Some(Rotate(toRadians(o.rotate))),
      Some(Scale(o.width, o.height)),
      Some(Skew(toRadians(o.xSkew), toRadians(o.ySkew))),
      Some(DrawObject(name)),
      Some(Pop)
    ];
    var rest := [Translate(o.x, o.y), Rotate(toRadians(o.rotate)), Scale(o.width, o.height),
                 Skew(toRadians(o.xSkew), toRadians(o.ySkew)), DrawObject(name), Pop];
    assert entries == Lift([Push]) + [entries[1]] + Lift(rest);
    CompactAppendLift(Lift([Push]) + [entries[1]], rest);
    CompactSnoc(Lift([Push]), entries[1]);
    CompactLift([Push]);
    Compact(entries)
  }

  /** Place an embedded page: as for an image, scaled by `xScale` and `yScale`. */
  function DrawPage(name: string, o: DrawPageOptions, toRadians: Rotation -> real): (r: seq<Op>)
    ensures r == [Push] + Present(GraphicsStateEntry(o.graphicsState))
               + [Translate(o.x, o.y), Rotate(toRadians(o.rotate)), Scale(o.xScale, o.yScale),
                  Skew(toRadians(o.xSkew), toRadians(o.ySkew)), DrawObject(name), Pop]
  {
    var entries := [
      Some(Push),
      GraphicsStateEntry(o.graphicsState),
      Some(Translate(o.x, o.y)),
      Some(Rotate(toRadians(o.rotate))),
      Some(Scale(o.xScale, o.yScale)),
      Some(Skew(toRadians(o.xSkew), toRadians(o.ySkew))),
      Some(DrawObject(name)),
      Some(Pop)
    ];
    var rest := [Translate(o.x, o.y), Rotate(toRadians(o.rotate)), Scale(o.xScale, o.yScale),
                 Skew(toRadians(o.xSkew), toRadians(o.ySkew)), DrawObject(name), Pop];
    assert entries == Lift([Push]) + [entries[1]] + Lift(rest);
    CompactAppendLift(Lift([Push]) + [entries[1]], rest);
    CompactSnoc(Lift([Push]), entries[1]);
    CompactLift([Push]);
    Compact(entries)
  }

  // ---------------------------------------------------------------------------
  // Lines and rectangles
  // ---------------------------------------------------------------------------

  /** JavaScript truthiness of the optional line-cap style, carried as its enumeration code: 0 is falsy. */
  predicate LineCapTruthy(lineCap: Option<int>)
    ensures !LineCapTruthy(lineCap) <==> lineCap == None || lineCap == Some(0)
  {
    lineCap.Some? && lineCap.value != 0
  }

  /** The line cap is set only when its code is truthy, so the zero code (butt) is never emitted. */
  function LineCapEntry(lineCap: Option<int>): (r: Option<Op>)
    ensures r.Some? <==> LineCapTruthy(lineCap)
    ensures r.Some? ==> r.value == SetLineCap(lineCap.value) && r.value.style != 0
  {
    if LineCapTruthy(lineCap) then Some(SetLineCap(lineCap.value)) else None
  }

  /**
   * A straight line: save, optional graphics state, optional stroke colour,
   * width, dash pattern, move to the start, optional line cap, line to the
   * end, stroke, restore.
   */
  function DrawLine(o: DrawLineOptions): (r: seq<Op>)
    ensures r == [Push] + Present(GraphicsStateEntry(o.graphicsState))
               + Present(StrokeColorEntry(o.color))
               + [SetLineWidth(o.thickness), DashPattern(o.dashArray, o.dashPhase),
                  MoveTo(o.start.x, o.start.y)]
               + Present(LineCapEntry(o.lineCap))
               + [LineTo(o.end.x, o.end.y), Stroke, Pop]
  {
    var entries := [
      Some(Push),
      GraphicsStateEntry(o.graphicsState),
      StrokeColorEntry(o.color),
      Some(SetLineWidth(o.thickness)),
      Some(DashPattern(o.dashArray, o.dashPhase)),
      Some(MoveTo(o.start.x, o.start.y)),
      LineCapEntry(o.lineCap),
      Some(LineTo(o.end.x, o.end.y)),
      Some(Stroke),
      Some(Pop)
    ];
    var mid := [SetLineWidth(o.thickness), DashPattern(o.dashArray, o.dashPhase), MoveTo(o.start.x, o.start.y)];
    var rest := [LineTo(o.end.x, o.end.y), Stroke, Pop];
    var front := Lift([Push]) + [entries[1]] + [entries[2]];
    assert entries == front + Lift(mid) + [entries[6]] + Lift(rest);
    CompactAppendLift(front + Lift(mid) + [entries[6]], rest);
    CompactSnoc(front + Lift(mid), entries[6]);
    CompactAppendLift(front, mid);
    CompactSnoc(Lift([Push]) + [entries[1]], entries[2]);
    CompactSnoc(Lift([Push]), entries[1]);
    CompactLift([Push]);
    Compact(entries)
  }

  /**
   * A rectangle: save, optional graphics state, optional fill and stroke
   * colours, border width, dash pattern, translate, rotate, skew (no scale),
   * the closed outline in local coordinates, the paint operator, restore.
   */
  function DrawRectangle(o: DrawRectangleOptions, toRadians: Rotation -> real): (r: seq<Op>)
    ensures r == [Push] + Present(GraphicsStateEntry(o.graphicsState))
               + Present(FillColorEntry(o.color)) + Present(StrokeColorEntry(o.borderColor))
               + [SetLineWidth(o.borderWidth.v), DashPattern(o.borderDashArray, o.borderDashPhase),
                  Translate(o.x, o.y), Rotate(toRadians(o.rotate)),
                  Skew(toRadians(o.xSkew), toRadians(o.ySkew)),
                  MoveTo(0.0, 0.0), LineTo(0.0, o.height), LineTo(o.width, o.height), LineTo(o.width, 0.0),
                  ClosePath, PaintOperator(o.color, o.borderColor, o.borderWidth), Pop]
  {
    // The gated entries come first; every entry after them is always present.
    var gated := [
      Some(Push),
      GraphicsStateEntry(o.graphicsState),
      FillColorEntry(o.color),
      StrokeColorEntry(o.borderColor)
    ];
    var rest := [SetLineWidth(o.borderWidth.v), DashPattern(o.borderDashArray, o.borderDashPhase),
                 Translate(o.x, o.y), Rotate(toRadians(o.rotate)),
                 Skew(toRadians(o.xSkew), toRadians(o.ySkew)),
                 MoveTo(0.0, 0.0), LineTo(0.0, o.height), LineTo(o.width, o.height), LineTo(o.width, 0.0),
                 ClosePath, PaintOperator(o.color, o.borderColor, o.borderWidth), Pop];
    var entries := gated + Lift(rest);
    assert gated == Lift([Push]) + [gated[1]] + [gated[2]] + [gated[3]];
    CompactAppendLift(gated, rest);
    CompactSnoc(Lift([Push]) + [gated[1]] + [gated[2]], gated[3]);
    CompactSnoc(Lift([Push]) + [gated[1]], gated[2]);
    CompactSnoc(Lift([Push]), gated[1]);
    CompactLift([Push]);
    Compact(entries)
  }

  // ---------------------------------------------------------------------------
  // Ellipses
  // ---------------------------------------------------------------------------

  /**
   * The control-point factor of the four-Bezier circle, `4 * ((sqrt(2) - 1) / 3)`,
   * as the IEEE 754 double that expression evaluates to.
   */
  const KAPPA: real := 0.55228474983079356430692996582365594804286956787109375

  /**
   * The ellipse path around centre `(x, y)` with radii `xScale`, `yScale`: its
   * own save, a move to the leftmost point, four Bezier quarter arcs, its own
   * restore.
   */
  function DrawEllipsePath(config: EllipseConfig): (r: seq<Op>)
    ensures |r| == 7 && r[0] == Push && r[6] == Pop && StackFree(r[1..6])
    ensures r[1] == MoveTo(config.x - config.xScale, config.y)
    ensures forall i | 2 <= i < 6 :: r[i].AppendBezierCurve?
  {
    var x := config.x - config.xScale;
    var y := config.y - config.yScale;
    var ox := config.xScale * KAPPA;
    var oy := config.yScale * KAPPA;
    var xe := x + config.xScale * 2.0;
    var ye := y + config.yScale * 2.0;
    var xm := x + config.xScale;
    var ym := y + config.yScale;
    [
      Push,
      MoveTo(x, ym),
      AppendBezierCurve(x, ym - oy, xm - ox, y, xm, y),
      AppendBezierCurve(xm + ox, y, xe, ym - oy, xe, ym),
      AppendBezierCurve(xe, ym + oy, xm + ox, ye, xm, ye),
      AppendBezierCurve(xm - ox, ye, x, ym + oy, x, ym),
      Pop
    ]
  }

  /**
   * An ellipse: save, optional graphics state, optional fill and stroke
   * colours, border width, dash pattern, the spliced ellipse path (with its
   * own save/restore), the paint operator, restore.
   */
  function DrawEllipse(o: DrawEllipseOptions): (r: seq<Op>)
    ensures r == [Push] + Present(GraphicsStateEntry(o.graphicsState))
               + Present(FillColorEntry(o.color)) + Present(StrokeColorEntry(o.borderColor))
               + [SetLineWidth(o.borderWidth.v), DashPattern(o.borderDashArray, o.borderDashPhase)]
               + DrawEllipsePath(EllipseConfig(o.x, o.y, o.xScale, o.yScale))
               + [PaintOperator(o.color, o.borderColor, o.borderWidth), Pop]
  {
    var path := DrawEllipsePath(EllipseConfig(o.x, o.y, o.xScale, o.yScale));
    // The entries up to the stroke colour may be absent; the rest always present.
    var gated := [
      Some(Push),
      GraphicsStateEntry(o.graphicsState),
      FillColorEntry(o.color),
      StrokeColorEntry(o.borderColor)
    ];
    var style := [SetLineWidth(o.borderWidth.v), DashPattern(o.borderDashArray, o.borderDashPhase)];
    var paint := [PaintOperator(o.color, o.borderColor, o.borderWidth), Pop];
    var entries := gated + Lift(style) + Lift(path) + Lift(paint);
    assert gated == Lift([Push]) + [gated[1]] + [gated[2]] + [gated[3]];
    CompactAppendLift(gated + Lift(style) + Lift(path), paint);
    CompactAppendLift(gated + Lift(style), path);
    CompactAppendLift(gated, style);
    CompactSnoc(Lift([Push]) + [gated[1]] + [gated[2]], gated[3]);
    CompactSnoc(Lift([Push]) + [gated[1]], gated[2]);
    CompactSnoc(Lift([Push]), gated[1]);
    CompactLift([Push]);
    Compact(entries)
  }

  // ---------------------------------------------------------------------------
  // SVG paths
  // ---------------------------------------------------------------------------

  /** The SVG y axis points down: scale by the factor with y negated when it is truthy, else by one and minus one. */
  function FlipScale(scale: Option<NumArg>): (r: Op)
    ensures r.Scale? && r.sy == -r.sx
    ensures OptNumTruthy(scale) ==> r.sx == scale.value.v
    ensures !OptNumTruthy(scale) ==> r.sx == 1.0
  {
    if OptNumTruthy(scale) then Scale(scale.value.v, -scale.value.v) else Scale(1.0, -1.0)
  }

  /** The line width of an SVG path is set only when the border width is truthy. */
  function LineWidthEntry(borderWidth: NumArg): (r: Option<Op>)
    ensures r.Some? <==> NumTruthy(borderWidth)
    ensures r.Some? ==> r.value == SetLineWidth(borderWidth.v)
  {
    if NumTruthy(borderWidth) then Some(SetLineWidth(borderWidth.v)) else None
  }

  /**
   * An SVG path: save, optional graphics state, translate, the y-flipping
   * scale, optional fill and stroke colours, optional line width, dash
   * pattern, the translated path operators unchanged, the paint operator,
   * restore.
   */
  function DrawSvgPath(path: string, o: DrawSvgPathOptions, svgPathToOperators: string -> seq<Op>): (r: seq<Op>)
    ensures r == [Push] + Present(GraphicsStateEntry(o.graphicsState))
               + [Translate(o.x, o.y), FlipScale(o.scale)]
               + Present(FillColorEntry(o.color)) + Present(StrokeColorEntry(o.borderColor))
               + Present(LineWidthEntry(o.borderWidth))
               + [DashPattern(o.borderDashArray, o.borderDashPhase)]
               + svgPathToOperators(path)
               + [PaintOperator(o.color, o.borderColor, o.borderWidth), Pop]
  {
    var pathOps := svgPathToOperators(path);
    // The entries up to the line width may be absent; the rest always present.
    var gated := [
      Some(Push),
      GraphicsStateEntry(o.graphicsState),
      Some(Translate(o.x, o.y)),
      Some(FlipScale(o.scale)),
      FillColorEntry(o.color),
      StrokeColorEntry(o.borderColor),
      LineWidthEntry(o.borderWidth)
    ];
    var dash := [DashPattern(o.borderDashArray, o.borderDashPhase)];
    var paint := [PaintOperator(o.color, o.borderColor, o.borderWidth), Pop];
    var entries := gated + Lift(dash) + Lift(pathOps) + Lift(paint);
    var flip := [Translate(o.x, o.y), FlipScale(o.scale)];
    assert gated == Lift([Push]) + [gated[1]] + Lift(flip) + [gated[4]] + [gated[5]] + [gated[6]];
    CompactAppendLift(gated + Lift(dash) + Lift(pathOps), paint);
    CompactAppendLift(gated + Lift(dash), pathOps);
    CompactAppendLift(gated, dash);
    CompactSnoc(Lift([Push]) + [gated[1]] + Lift(flip) + [gated[4]] + [gated[5]], gated[6]);
    CompactSnoc(Lift([Push]) + [gated[1]] + Lift(flip) + [gated[4]], gated[5]);
    CompactSnoc(Lift([Push]) + [gated[1]] + Lift(flip), gated[4]);
    CompactAppendLift(Lift([Push]) + [gated[1]], flip);
    CompactSnoc(Lift([Push]), gated[1]);
    CompactLift([Push]);
    Compact(entries)
  }
}
