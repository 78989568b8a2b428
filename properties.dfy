/**
 * What the drawing compiler promises about the operator lists it returns:
 * save/restore balance, where the optional operators appear and when, and
 * the paint selection.
 *
 * Each drawing has a decomposition lemma (`...Any`) that splits "some
 * operator of this kind occurs" along the parts of its array literal, in the
 * order they are concatenated; the gate lemmas then read off one kind.
 */
module DrawingProperties {
  import opened Wrappers
  import opened JsValues
  import opened Operators
  import opened Operations
  import opened Frames

  /** Operators that set the line width to anything but `w`. */
  function WidthOtherThan(w: real): Op -> bool {
    (op: Op) => op.SetLineWidth? && op.width != w
  }

  // ---------------------------------------------------------------------------
  // Text
  // ---------------------------------------------------------------------------

  lemma DrawTextFrame(line: string, o: DrawTextOptions, toRadians: Rotation -> real)
    ensures Bracketed(DrawText(line, o, toRadians))
    ensures GraphicsStateGated(DrawText(line, o, toRadians), o.graphicsState)
  {
    FrameStart(o.graphicsState);
    FrameClose([Push] + Present(GraphicsStateEntry(o.graphicsState)), o.graphicsState,
               [BeginText, SetFillingColor(o.color), SetFontAndSize(o.font, o.size),
                TextMatrix(o, toRadians), ShowText(line), EndText, Pop]);
  }

  /** Several lines are framed as one line is, whatever the number of lines. */
  lemma LinesOfTextFrame(lines: seq<string>, o: DrawLinesOfTextOptions, toRadians: Rotation -> real)
    ensures var r := LinesOfTextPreamble(o, toRadians) + ShowLines(lines) + [EndText, Pop];
      Bracketed(r) && GraphicsStateGated(r, o.text.graphicsState)
  {
    var t := o.text;
    var gs := t.graphicsState;
    var preamble := LinesOfTextPreamble(o, toRadians);
    FrameStart(gs);
    FrameAppend([Push] + Present(GraphicsStateEntry(gs)), gs,
                [BeginText, SetFillingColor(t.color), SetFontAndSize(t.font, t.size),
                 SetLineHeight(o.lineHeight), TextMatrix(t, toRadians)]);
    ShowLinesOnlyText(lines);
    ShowLinesStackFree(lines);
    assert !Any(ShowLines(lines), IsGraphicsStateOp);
    FrameAppend(preamble, gs, ShowLines(lines));
    FrameClose(preamble + ShowLines(lines), gs, [EndText, Pop]);
  }

  // ---------------------------------------------------------------------------
  // Images and pages
  // ---------------------------------------------------------------------------

  lemma DrawImageFrame(name: string, o: DrawImageOptions, toRadians: Rotation -> real)
    ensures Bracketed(DrawImage(name, o, toRadians))
    ensures GraphicsStateGated(DrawImage(name, o, toRadians), o.graphicsState)
  {
    FrameStart(o.graphicsState);
    FrameClose([Push] + Present(GraphicsStateEntry(o.graphicsState)), o.graphicsState,
               [Translate(o.x, o.y), Rotate(toRadians(o.rotate)), Scale(o.width, o.height),
                Skew(toRadians(o.xSkew), toRadians(o.ySkew)), DrawObject(name), Pop]);
  }

  lemma DrawPageFrame(name: string, o: DrawPageOptions, toRadians: Rotation -> real)
    ensures Bracketed(DrawPage(name, o, toRadians))
    ensures GraphicsStateGated(DrawPage(name, o, toRadians), o.graphicsState)
  {
    FrameStart(o.graphicsState);
    FrameClose([Push] + Present(GraphicsStateEntry(o.graphicsState)), o.graphicsState,
               [Translate(o.x, o.y), Rotate(toRadians(o.rotate)), Scale(o.xScale, o.yScale),
                Skew(toRadians(o.xSkew), toRadians(o.ySkew)), DrawObject(name), Pop]);
  }

  // ---------------------------------------------------------------------------
  // Lines
  // ---------------------------------------------------------------------------

  lemma DrawLineFrame(o: DrawLineOptions)
    ensures Bracketed(DrawLine(o)) && GraphicsStateGated(DrawLine(o), o.graphicsState)
  {
    var gs := o.graphicsState;
    var a := [Push] + Present(GraphicsStateEntry(gs));
    var b := a + Present(StrokeColorEntry(o.color));
    var c := b + [SetLineWidth(o.thickness), DashPattern(o.dashArray, o.dashPhase), MoveTo(o.start.x, o.start.y)];
    FrameStart(gs);
    Quiet(StrokeColorEntry(o.color));
    FrameAppend(a, gs, Present(StrokeColorEntry(o.color)));
    FrameAppend(b, gs, [SetLineWidth(o.thickness), DashPattern(o.dashArray, o.dashPhase), MoveTo(o.start.x, o.start.y)]);
    Quiet(LineCapEntry(o.lineCap));
    FrameAppend(c, gs, Present(LineCapEntry(o.lineCap)));
    FrameClose(c + Present(LineCapEntry(o.lineCap)), gs, [LineTo(o.end.x, o.end.y), Stroke, Pop]);
  }

  /** An operator kind occurs in a line exactly when it occurs in one part of its literal. */
  lemma DrawLineAny(o: DrawLineOptions, p: Op -> bool)
    ensures Any(DrawLine(o), p) <==>
      Any([Push], p) || Any(Present(GraphicsStateEntry(o.graphicsState)), p) ||
      Any(Present(StrokeColorEntry(o.color)), p) ||
      Any([SetLineWidth(o.thickness), DashPattern(o.dashArray, o.dashPhase), MoveTo(o.start.x, o.start.y)], p) ||
      Any(Present(LineCapEntry(o.lineCap)), p) || Any([LineTo(o.end.x, o.end.y), Stroke, Pop], p)
  {
    var a := [Push] + Present(GraphicsStateEntry(o.graphicsState));
    var b := a + Present(StrokeColorEntry(o.color));
    var c := b + [SetLineWidth(o.thickness), DashPattern(o.dashArray, o.dashPhase), MoveTo(o.start.x, o.start.y)];
    var d := c + Present(LineCapEntry(o.lineCap));
    AnyAppend([Push], Present(GraphicsStateEntry(o.graphicsState)), p);
    AnyAppend(a, Present(StrokeColorEntry(o.color)), p);
    AnyAppend(b, [SetLineWidth(o.thickness), DashPattern(o.dashArray, o.dashPhase), MoveTo(o.start.x, o.start.y)], p);
    AnyAppend(c, Present(LineCapEntry(o.lineCap)), p);
    AnyAppend(d, [LineTo(o.end.x, o.end.y), Stroke, Pop], p);
  }

  /** A line sets a stroking colour exactly when one is given. */
  lemma DrawLineColorGate(o: DrawLineOptions)
    ensures Any(DrawLine(o), IsStrokingColorOp) <==> o.color.Some?
  {
    DrawLineAny(o, IsStrokingColorOp);
    AnyPresent(GraphicsStateEntry(o.graphicsState), IsStrokingColorOp);
    AnyPresent(StrokeColorEntry(o.color), IsStrokingColorOp);
    AnyPresent(LineCapEntry(o.lineCap), IsStrokingColorOp);
  }

  /**
   * A line strokes whether or not a colour is given, and always sets a dash
   * pattern, solid (`[]`, phase 0) for whatever part is not given.
   */
  lemma DrawLineAlwaysStrokes(o: DrawLineOptions)
    ensures var r := DrawLine(o);
      r[|r| - 2] == Stroke && r[|r| - 1] == Pop &&
      SetDashPattern(Coalesce(o.dashArray, []), Coalesce(o.dashPhase, 0.0)) in r &&
      (o.dashArray.None? && o.dashPhase.None? ==> SetDashPattern([], 0.0) in r)
  {
    var r := DrawLine(o);
    var k := 1 + |Present(GraphicsStateEntry(o.graphicsState))| + |Present(StrokeColorEntry(o.color))| + 1;
    assert r[k] == DashPattern(o.dashArray, o.dashPhase);
  }

  /** A line always sets its line width, to its thickness and to nothing else. */
  lemma DrawLineWidth(o: DrawLineOptions)
    ensures Any(DrawLine(o), IsLineWidthOp) && !Any(DrawLine(o), WidthOtherThan(o.thickness))
  {
    var w := WidthOtherThan(o.thickness);
    DrawLineAny(o, IsLineWidthOp);
    DrawLineAny(o, w);
    AnyPresent(GraphicsStateEntry(o.graphicsState), w);
    AnyPresent(StrokeColorEntry(o.color), w);
    AnyPresent(LineCapEntry(o.lineCap), w);
    assert IsLineWidthOp([SetLineWidth(o.thickness), DashPattern(o.dashArray, o.dashPhase), MoveTo(o.start.x, o.start.y)][0]);
  }

  /**
   * A line sets its cap exactly when the cap option is truthy (a cap whose
   * code is 0 is dropped), and then between the move to the start and the
   * line to the end.
   */
  lemma DrawLineCapGate(o: DrawLineOptions)
    ensures Any(DrawLine(o), IsLineCapOp) <==> LineCapTruthy(o.lineCap)
  {
    DrawLineAny(o, IsLineCapOp);
    AnyPresent(GraphicsStateEntry(o.graphicsState), IsLineCapOp);
    AnyPresent(StrokeColorEntry(o.color), IsLineCapOp);
    AnyPresent(LineCapEntry(o.lineCap), IsLineCapOp);
  }

  /** The cap, when set, sits between the move to the start and the line to the end. */
  lemma DrawLineCapPlace(o: DrawLineOptions)
    ensures var r := DrawLine(o);
      |r| >= 5 &&
      (LineCapTruthy(o.lineCap) ==>
         r[|r| - 5] == MoveTo(o.start.x, o.start.y) && r[|r| - 4] == SetLineCap(o.lineCap.value) &&
         r[|r| - 3] == LineTo(o.end.x, o.end.y)) &&
      (!LineCapTruthy(o.lineCap) ==>
         r[|r| - 4] == MoveTo(o.start.x, o.start.y) && r[|r| - 3] == LineTo(o.end.x, o.end.y))
  {
    var r := DrawLine(o);
    var c := [Push] + Present(GraphicsStateEntry(o.graphicsState)) + Present(StrokeColorEntry(o.color))
             + [SetLineWidth(o.thickness), DashPattern(o.dashArray, o.dashPhase), MoveTo(o.start.x, o.start.y)];
    var cap := Present(LineCapEntry(o.lineCap));
    assert r == c + cap + [LineTo(o.end.x, o.end.y), Stroke, Pop];
    assert r[|c| - 1] == c[|c| - 1] == MoveTo(o.start.x, o.start.y);
    assert r[|c| + |cap|] == LineTo(o.end.x, o.end.y);
    if LineCapTruthy(o.lineCap) {
      assert r[|c|] == cap[0];
    }
  }

  // ---------------------------------------------------------------------------
  // Rectangles
  // ---------------------------------------------------------------------------

  /** The operators of a rectangle after its optional colours, its restore included. */
  function RectangleTail(o: DrawRectangleOptions, toRadians: Rotation -> real): seq<Op> {
    [SetLineWidth(o.borderWidth.v), DashPattern(o.borderDashArray, o.borderDashPhase),
     Translate(o.x, o.y), Rotate(toRadians(o.rotate)),
     Skew(toRadians(o.xSkew), toRadians(o.ySkew)),
     MoveTo(0.0, 0.0), LineTo(0.0, o.height), LineTo(o.width, o.height), LineTo(o.width, 0.0),
     ClosePath, PaintOperator(o.color, o.borderColor, o.borderWidth), Pop]
  }

  lemma DrawRectangleFrame(o: DrawRectangleOptions, toRadians: Rotation -> real)
    ensures Bracketed(DrawRectangle(o, toRadians))
    ensures GraphicsStateGated(DrawRectangle(o, toRadians), o.graphicsState)
  {
    var gs := o.graphicsState;
    var c := [Push] + Present(GraphicsStateEntry(gs)) + Present(FillColorEntry(o.color))
             + Present(StrokeColorEntry(o.borderColor));
    ColouredStart(gs, o.color, o.borderColor);
    FrameClose(c, gs, RectangleTail(o, toRadians));
  }

  /** An operator kind occurs in a rectangle exactly when it occurs in one part of its literal. */
  lemma DrawRectangleAny(o: DrawRectangleOptions, toRadians: Rotation -> real, p: Op -> bool)
    ensures Any(DrawRectangle(o, toRadians), p) <==>
      Any([Push], p) || Any(Present(GraphicsStateEntry(o.graphicsState)), p) ||
      Any(Present(FillColorEntry(o.color)), p) || Any(Present(StrokeColorEntry(o.borderColor)), p) ||
      Any(RectangleTail(o, toRadians), p)
  {
    var a := [Push] + Present(GraphicsStateEntry(o.graphicsState));
    var b := a + Present(FillColorEntry(o.color));
    var c := b + Present(StrokeColorEntry(o.borderColor));
    AnyAppend([Push], Present(GraphicsStateEntry(o.graphicsState)), p);
    AnyAppend(a, Present(FillColorEntry(o.color)), p);
    AnyAppend(b, Present(StrokeColorEntry(o.borderColor)), p);
    AnyAppend(c, RectangleTail(o, toRadians), p);
  }

  /** A rectangle sets a fill colour exactly when `color` is given. */
  lemma DrawRectangleFillGate(o: DrawRectangleOptions, toRadians: Rotation -> real)
    ensures Any(DrawRectangle(o, toRadians), IsFillingColorOp) <==> o.color.Some?
  {
    DrawRectangleAny(o, toRadians, IsFillingColorOp);
    AnyPresent(GraphicsStateEntry(o.graphicsState), IsFillingColorOp);
    AnyPresent(FillColorEntry(o.color), IsFillingColorOp);
    AnyPresent(StrokeColorEntry(o.borderColor), IsFillingColorOp);
  }

  /** A rectangle sets a stroking colour exactly when `borderColor` is given. */
  lemma DrawRectangleStrokeGate(o: DrawRectangleOptions, toRadians: Rotation -> real)
    ensures Any(DrawRectangle(o, toRadians), IsStrokingColorOp) <==> o.borderColor.Some?
  {
    DrawRectangleAny(o, toRadians, IsStrokingColorOp);
    AnyPresent(GraphicsStateEntry(o.graphicsState), IsStrokingColorOp);
    AnyPresent(FillColorEntry(o.color), IsStrokingColorOp);
    AnyPresent(StrokeColorEntry(o.borderColor), IsStrokingColorOp);
  }

  /**
   * Unlike the SVG path, a rectangle sets its line width whatever the border
   * width, and to that width alone.
   */
  lemma DrawRectangleLineWidth(o: DrawRectangleOptions, toRadians: Rotation -> real)
    ensures Any(DrawRectangle(o, toRadians), IsLineWidthOp)
    ensures !Any(DrawRectangle(o, toRadians), WidthOtherThan(o.borderWidth.v))
  {
    var w := WidthOtherThan(o.borderWidth.v);
    DrawRectangleAny(o, toRadians, IsLineWidthOp);
    DrawRectangleAny(o, toRadians, w);
    AnyPresent(GraphicsStateEntry(o.graphicsState), w);
    AnyPresent(FillColorEntry(o.color), w);
    AnyPresent(StrokeColorEntry(o.borderColor), w);
    RectangleTailWidth(o, toRadians);
  }

  /** The one line width of a rectangle sits at the head of its tail. */
  lemma RectangleTailWidth(o: DrawRectangleOptions, toRadians: Rotation -> real)
    ensures Any(RectangleTail(o, toRadians), IsLineWidthOp)
    ensures !Any(RectangleTail(o, toRadians), WidthOtherThan(o.borderWidth.v))
  {
    assert IsLineWidthOp(RectangleTail(o, toRadians)[0]);
  }

  /** A rectangle places itself with translate, rotate and skew only: its size is in the outline, never in a scale. */
  lemma DrawRectangleNoScale(o: DrawRectangleOptions, toRadians: Rotation -> real)
    ensures !Any(DrawRectangle(o, toRadians), IsScaleOp)
  {
    DrawRectangleAny(o, toRadians, IsScaleOp);
    AnyPresent(GraphicsStateEntry(o.graphicsState), IsScaleOp);
    AnyPresent(FillColorEntry(o.color), IsScaleOp);
    AnyPresent(StrokeColorEntry(o.borderColor), IsScaleOp);
  }

  /**
   * The outline of a rectangle is closed and then painted; with neither
   * colour the paint is a second close.
   */
  lemma DrawRectangleOutline(o: DrawRectangleOptions, toRadians: Rotation -> real)
    ensures var r := DrawRectangle(o, toRadians);
      |r| >= 12 &&
      r[|r| - 7..|r| - 2] == [MoveTo(0.0, 0.0), LineTo(0.0, o.height), LineTo(o.width, o.height),
                              LineTo(o.width, 0.0), ClosePath] &&
      r[|r| - 2] == PaintOperator(o.color, o.borderColor, o.borderWidth) && r[|r| - 1] == Pop &&
      (o.color.None? && o.borderColor.None? ==> r[|r| - 3..|r| - 1] == [ClosePath, ClosePath])
  {
    var r := DrawRectangle(o, toRadians);
    var c := [Push] + Present(GraphicsStateEntry(o.graphicsState)) + Present(FillColorEntry(o.color))
             + Present(StrokeColorEntry(o.borderColor));
    var t := RectangleTail(o, toRadians);
    assert r == c + t;
    assert |r| == |c| + 12;
    SliceOfSuffix(c, t, 5, 10);
    SliceOfSuffix(c, t, 9, 11);
    assert t[5..10] == [MoveTo(0.0, 0.0), LineTo(0.0, o.height), LineTo(o.width, o.height),
                        LineTo(o.width, 0.0), ClosePath];
    assert t[9..11] == [ClosePath, PaintOperator(o.color, o.borderColor, o.borderWidth)];
    assert r[|r| - 2] == t[10];
    assert r[|r| - 1] == t[11];
  }

  // ---------------------------------------------------------------------------
  // Ellipses
  // ---------------------------------------------------------------------------

  /** The ellipse path holds only its own save/restore, a move and Bezier segments. */
  lemma EllipsePathKinds(c: EllipseConfig)
    ensures var path := DrawEllipsePath(c);
      Bracketed(path) &&
      forall i | 0 <= i < |path| :: path[i].Push? || path[i].Pop? || path[i].MoveTo? || path[i].AppendBezierCurve?
  {
  }

  /** An operator kind occurs in an ellipse exactly when it occurs in one part of its literal. */
  lemma DrawEllipseAny(o: DrawEllipseOptions, p: Op -> bool)
    ensures Any(DrawEllipse(o), p) <==>
      Any([Push], p) || Any(Present(GraphicsStateEntry(o.graphicsState)), p) ||
      Any(Present(FillColorEntry(o.color)), p) || Any(Present(StrokeColorEntry(o.borderColor)), p) ||
      Any([SetLineWidth(o.borderWidth.v), DashPattern(o.borderDashArray, o.borderDashPhase)], p) ||
      Any(DrawEllipsePath(EllipseConfig(o.x, o.y, o.xScale, o.yScale)), p) ||
      Any([PaintOperator(o.color, o.borderColor, o.borderWidth), Pop], p)
  {
    var path := DrawEllipsePath(EllipseConfig(o.x, o.y, o.xScale, o.yScale));
    var a := [Push] + Present(GraphicsStateEntry(o.graphicsState));
    var b := a + Present(FillColorEntry(o.color));
    var c := b + Present(StrokeColorEntry(o.borderColor));
    var d := c + [SetLineWidth(o.borderWidth.v), DashPattern(o.borderDashArray, o.borderDashPhase)];
    AnyAppend([Push], Present(GraphicsStateEntry(o.graphicsState)), p);
    AnyAppend(a, Present(FillColorEntry(o.color)), p);
    AnyAppend(b, Present(StrokeColorEntry(o.borderColor)), p);
    AnyAppend(c, [SetLineWidth(o.borderWidth.v), DashPattern(o.borderDashArray, o.borderDashPhase)], p);
    AnyAppend(d, path, p);
    AnyAppend(d + path, [PaintOperator(o.color, o.borderColor, o.borderWidth), Pop], p);
  }

  /** The operators of an ellipse before its path: the coloured opening, border width and dash pattern. */
  function EllipseOpening(o: DrawEllipseOptions): seq<Op> {
    [Push] + Present(GraphicsStateEntry(o.graphicsState)) + Present(FillColorEntry(o.color))
    + Present(StrokeColorEntry(o.borderColor))
    + [SetLineWidth(o.borderWidth.v), DashPattern(o.borderDashArray, o.borderDashPhase)]
  }

  /** The opening of an ellipse leaves its frame open, with the graphics state in place. */
  lemma EllipseStart(o: DrawEllipseOptions)
    ensures Opened(EllipseOpening(o)) && GraphicsStateGated(EllipseOpening(o), o.graphicsState)
  {
    var c := [Push] + Present(GraphicsStateEntry(o.graphicsState)) + Present(FillColorEntry(o.color))
             + Present(StrokeColorEntry(o.borderColor));
    ColouredStart(o.graphicsState, o.color, o.borderColor);
    FrameAppend(c, o.graphicsState, [SetLineWidth(o.borderWidth.v), DashPattern(o.borderDashArray, o.borderDashPhase)]);
  }

  /**
   * An ellipse is well nested but not bracketed: its only stack operators are
   * its own save and restore and the inner pair that the spliced path brings,
   * and the paint operator comes after that inner restore.
   */
  lemma DrawEllipseNesting(o: DrawEllipseOptions)
    ensures var r := DrawEllipse(o); var k := |r| - 9;
      WellNested(r) && !Bracketed(r) &&
      r[k] == Push && r[|r| - 3] == Pop && r[|r| - 2] == PaintOperator(o.color, o.borderColor, o.borderWidth) &&
      (forall i | 0 <= i < |r| :: IsStackOp(r[i]) <==> i == 0 || i == k || i == |r| - 3 || i == |r| - 1)
  {
    var path := DrawEllipsePath(EllipseConfig(o.x, o.y, o.xScale, o.yScale));
    var d := EllipseOpening(o);
    EllipseStart(o);
    EllipsePathKinds(EllipseConfig(o.x, o.y, o.xScale, o.yScale));
    NestedAfter(d, path, [PaintOperator(o.color, o.borderColor, o.borderWidth), Pop]);
  }

  /** An ellipse sets a graphics state exactly when the option is truthy, right after its save. */
  lemma DrawEllipseGraphicsState(o: DrawEllipseOptions)
    ensures GraphicsStateGated(DrawEllipse(o), o.graphicsState)
  {
    var gs := o.graphicsState;
    var path := DrawEllipsePath(EllipseConfig(o.x, o.y, o.xScale, o.yScale));
    var d := EllipseOpening(o);
    EllipseStart(o);
    EllipsePathKinds(EllipseConfig(o.x, o.y, o.xScale, o.yScale));
    assert !Any(path, IsGraphicsStateOp);
    GatedAppend(d, gs, path);
    GatedAppend(d + path, gs, [PaintOperator(o.color, o.borderColor, o.borderWidth), Pop]);
  }

  /** An ellipse sets a fill colour exactly when `color` is given. */
  lemma DrawEllipseFillGate(o: DrawEllipseOptions)
    ensures Any(DrawEllipse(o), IsFillingColorOp) <==> o.color.Some?
  {
    DrawEllipseAny(o, IsFillingColorOp);
    AnyPresent(GraphicsStateEntry(o.graphicsState), IsFillingColorOp);
    AnyPresent(FillColorEntry(o.color), IsFillingColorOp);
    AnyPresent(StrokeColorEntry(o.borderColor), IsFillingColorOp);
    EllipsePathKinds(EllipseConfig(o.x, o.y, o.xScale, o.yScale));
  }

  /** An ellipse sets a stroking colour exactly when `borderColor` is given. */
  lemma DrawEllipseStrokeGate(o: DrawEllipseOptions)
    ensures Any(DrawEllipse(o), IsStrokingColorOp) <==> o.borderColor.Some?
  {
    DrawEllipseAny(o, IsStrokingColorOp);
    AnyPresent(GraphicsStateEntry(o.graphicsState), IsStrokingColorOp);
    AnyPresent(FillColorEntry(o.color), IsStrokingColorOp);
    AnyPresent(StrokeColorEntry(o.borderColor), IsStrokingColorOp);
    EllipsePathKinds(EllipseConfig(o.x, o.y, o.xScale, o.yScale));
  }

  /**
   * Unlike the SVG path, an ellipse sets its line width whatever the border
   * width, and to that width alone.
   */
  lemma DrawEllipseLineWidth(o: DrawEllipseOptions)
    ensures Any(DrawEllipse(o), IsLineWidthOp) && !Any(DrawEllipse(o), WidthOtherThan(o.borderWidth.v))
  {
    var w := WidthOtherThan(o.borderWidth.v);
    DrawEllipseAny(o, IsLineWidthOp);
    DrawEllipseAny(o, w);
    AnyPresent(GraphicsStateEntry(o.graphicsState), w);
    AnyPresent(FillColorEntry(o.color), w);
    AnyPresent(StrokeColorEntry(o.borderColor), w);
    EllipsePathKinds(EllipseConfig(o.x, o.y, o.xScale, o.yScale));
    assert IsLineWidthOp([SetLineWidth(o.borderWidth.v), DashPattern(o.borderDashArray, o.borderDashPhase)][0]);
  }

  // ---------------------------------------------------------------------------
  // Paint selection
  // ---------------------------------------------------------------------------

  /**
   * Whether a border is stroked together with the fill depends on the truthiness
   * of the width: a plain zero selects a fill alone, a zero wrapped as a PDF
   * number still selects fill-and-stroke.
   */
  lemma ZeroBorderWidthPaint(c: Color, borderColor: Option<Color>)
    ensures PaintOperator(Some(c), borderColor, Num(0.0)) == Fill
    ensures PaintOperator(Some(c), borderColor, PdfNumber(0.0)) == FillAndStroke
    ensures PaintOperator(None, Some(c), Num(0.0)) == Stroke
  {
  }

  // ---------------------------------------------------------------------------
  // SVG paths
  // ---------------------------------------------------------------------------

  /** The operators of an SVG path drawing before the converted path. */
  function SvgPathOpening(o: DrawSvgPathOptions): seq<Op> {
    [Push] + Present(GraphicsStateEntry(o.graphicsState))
    + [Translate(o.x, o.y), FlipScale(o.scale)]
    + Present(FillColorEntry(o.color)) + Present(StrokeColorEntry(o.borderColor))
    + Present(LineWidthEntry(o.borderWidth))
    + [DashPattern(o.borderDashArray, o.borderDashPhase)]
  }

  /** The opening of an SVG path drawing leaves its frame open, with the graphics state in place. */
  lemma SvgPathStart(o: DrawSvgPathOptions)
    ensures Opened(SvgPathOpening(o)) && GraphicsStateGated(SvgPathOpening(o), o.graphicsState)
  {
    var gs := o.graphicsState;
    var a := [Push] + Present(GraphicsStateEntry(gs));
    var b := a + [Translate(o.x, o.y), FlipScale(o.scale)];
    var c := b + Present(FillColorEntry(o.color));
    var d := c + Present(StrokeColorEntry(o.borderColor));
    var e := d + Present(LineWidthEntry(o.borderWidth));
    FrameStart(gs);
    FrameAppend(a, gs, [Translate(o.x, o.y), FlipScale(o.scale)]);
    Quiet(FillColorEntry(o.color));
    FrameAppend(b, gs, Present(FillColorEntry(o.color)));
    Quiet(StrokeColorEntry(o.borderColor));
    FrameAppend(c, gs, Present(StrokeColorEntry(o.borderColor)));
    Quiet(LineWidthEntry(o.borderWidth));
    FrameAppend(d, gs, Present(LineWidthEntry(o.borderWidth)));
    FrameAppend(e, gs, [DashPattern(o.borderDashArray, o.borderDashPhase)]);
  }

  /**
   * When the converted path neither saves nor restores nor sets a graphics
   * state, the SVG path is framed like every other drawing.
   */
  lemma DrawSvgPathFrame(path: string, o: DrawSvgPathOptions, svgPathToOperators: string -> seq<Op>)
    requires StackFree(svgPathToOperators(path)) && !Any(svgPathToOperators(path), IsGraphicsStateOp)
    ensures Bracketed(DrawSvgPath(path, o, svgPathToOperators))
    ensures GraphicsStateGated(DrawSvgPath(path, o, svgPathToOperators), o.graphicsState)
  {
    var gs := o.graphicsState;
    var f := SvgPathOpening(o);
    SvgPathStart(o);
    FrameAppend(f, gs, svgPathToOperators(path));
    FrameClose(f + svgPathToOperators(path), gs, [PaintOperator(o.color, o.borderColor, o.borderWidth), Pop]);
  }

  /**
   * An SVG path is translated and then scaled with the Y axis flipped: by the
   * given factor when it is truthy, by one otherwise (a plain zero included).
   */
  lemma DrawSvgPathFlip(path: string, o: DrawSvgPathOptions, svgPathToOperators: string -> seq<Op>)
    ensures var r := DrawSvgPath(path, o, svgPathToOperators);
      var p := 1 + |Present(GraphicsStateEntry(o.graphicsState))|;
      var s := if OptNumTruthy(o.scale) then o.scale.value.v else 1.0;
      r[p] == Translate(o.x, o.y) && r[p + 1] == Scale(s, -s)
  {
  }

  /**
   * The converted path is spliced in whole, directly after the dash pattern
   * and directly before the paint operator and the final restore.
   */
  lemma DrawSvgPathSplice(path: string, o: DrawSvgPathOptions, svgPathToOperators: string -> seq<Op>)
    ensures var r := DrawSvgPath(path, o, svgPathToOperators); var n := |svgPathToOperators(path)|;
      |r| >= n + 3 &&
      r[|r| - n - 3] == DashPattern(o.borderDashArray, o.borderDashPhase) &&
      r[|r| - n - 2..|r| - 2] == svgPathToOperators(path) &&
      r[|r| - 2..] == [PaintOperator(o.color, o.borderColor, o.borderWidth), Pop]
  {
    var f := [Push] + Present(GraphicsStateEntry(o.graphicsState)) + [Translate(o.x, o.y), FlipScale(o.scale)]
             + Present(FillColorEntry(o.color)) + Present(StrokeColorEntry(o.borderColor))
             + Present(LineWidthEntry(o.borderWidth)) + [DashPattern(o.borderDashArray, o.borderDashPhase)];
    var tail := [PaintOperator(o.color, o.borderColor, o.borderWidth), Pop];
    assert DrawSvgPath(path, o, svgPathToOperators) == f + svgPathToOperators(path) + tail;
    assert f[|f| - 1] == DashPattern(o.borderDashArray, o.borderDashPhase);
  }

  /**
   * Unlike the other shapes, an SVG path sets a line width only when the
   * border width is truthy (provided the converted path sets none itself).
   */
  lemma DrawSvgPathLineWidthGate(path: string, o: DrawSvgPathOptions, svgPathToOperators: string -> seq<Op>)
    requires !Any(svgPathToOperators(path), IsLineWidthOp)
    ensures Any(DrawSvgPath(path, o, svgPathToOperators), IsLineWidthOp) <==> NumTruthy(o.borderWidth)
  {
    var p := IsLineWidthOp;
    var a := [Push] + Present(GraphicsStateEntry(o.graphicsState));
    var b := a + [Translate(o.x, o.y), FlipScale(o.scale)];
    var c := b + Present(FillColorEntry(o.color));
    var d := c + Present(StrokeColorEntry(o.borderColor));
    var e := d + Present(LineWidthEntry(o.borderWidth));
    var f := e + [DashPattern(o.borderDashArray, o.borderDashPhase)];
    AnyPresent(GraphicsStateEntry(o.graphicsState), p);
    AnyPresent(FillColorEntry(o.color), p);
    AnyPresent(StrokeColorEntry(o.borderColor), p);
    AnyPresent(LineWidthEntry(o.borderWidth), p);
    AnyAppend([Push], Present(GraphicsStateEntry(o.graphicsState)), p);
    AnyAppend(a, [Translate(o.x, o.y), FlipScale(o.scale)], p);
    AnyAppend(b, Present(FillColorEntry(o.color)), p);
    AnyAppend(c, Present(StrokeColorEntry(o.borderColor)), p);
    AnyAppend(d, Present(LineWidthEntry(o.borderWidth)), p);
    AnyAppend(e, [DashPattern(o.borderDashArray, o.borderDashPhase)], p);
    AnyAppend(f, svgPathToOperators(path), p);
    AnyAppend(f + svgPathToOperators(path), [PaintOperator(o.color, o.borderColor, o.borderWidth), Pop], p);
  }
}
