# Drawing compiler: operator lists for text, images, pages, lines, rectangles, ellipses and SVG paths

This project models the drawing compiler of `src/api/operations.ts`. Each
entry point turns one drawing request into the ordered list of page-content
operators that draws it. Every list opens with a graphics-state save, then
the named graphics state when that option is truthy, and ends with the
matching restore. Between them:

- text (one line or several): begin text, fill colour, font and size, the
  line height for several lines, one combined text matrix, each line shown,
  end text;
- an image or an embedded page: translate, rotate, scale, skew, draw the
  object;
- a line: the optional stroking colour, line width, dash pattern, move to the
  start, the optional line cap, line to the end, stroke;
- a rectangle: the optional fill and stroking colours, line width, dash
  pattern, translate, rotate, skew, the outline, one terminal paint operator;
- an ellipse: the optional colours, line width, dash pattern, the ellipse
  path with its own save and restore, one terminal paint operator;
- an SVG path: translate, the y-flipping scale, the optional colours, the
  line width when the border width is truthy, dash pattern, the translated
  path, one terminal paint operator.

The source builds most lists as an array literal. Some entries are gated with
JavaScript's `&&`, and `filter(Boolean)` then drops the falsy ones.
`drawLinesOfText` instead pushes two operators per line in a loop.

How the model is organised:

- `Wrappers` holds `Option`. A `None` stands for `undefined`.
- `JsValues` models the JavaScript values the gates look at:
  - `number | PDFNumber` arguments. A PDFNumber is an object, so it is truthy whatever its value.
  - `string | PDFName` arguments. The empty string is falsy.
  - the `??` default (an entry gated with `&&` is an optional entry, `None` when the gate is falsy);
  - `filter(Boolean)` as `Compact` over a list of optional entries.
- `Operators` holds:
  - the operator datatype;
  - the predicates that pick out operator kinds;
  - the save/restore structure: `StackFree`, `Bracketed`, and `Run`/`WellNested`, which track stack depth.
- `Operations` is the compiler itself:
  - one function per array-literal entry point. Its `ensures` states the filtered list: each gated part is present exactly when its gate is truthy.
  - `DrawLinesOfText` is a method with the source's loop, proved against the function `ShowLines`.
  - `DrawEllipsePath` uses the exact binary64 value of `KAPPA`.
- `Frames` covers the save/restore frame and the graphics-state placement that every drawing shares. It reasons one literal part at a time.
- `DrawingProperties` holds what the compiler promises about its lists:
  - the framing of each drawing;
  - when each optional operator occurs, and where;
  - the line width;
  - the paint selection;
  - the nested path of the ellipse;
  - the splice and flip of the SVG path.
- `EllipseGeometry` holds the geometry of the four-segment ellipse path.

The source's collaborators are parameters of the model:

- `toRadians` (the angle normaliser) becomes a function parameter.
- `svgPathToOperators` (the SVG path translator) becomes a function parameter.

Colour expansion is the single operator `SetFillingColor(c)` or `SetStrokingColor(c)`, carrying the colour.

### Behaviour of the code a caller might not expect

- **Zero border width.** The paint choice tests the border width for truthiness. A plain `0` with a colour selects `fill` alone, while a zero wrapped in a PDFNumber selects fill-and-stroke (`DrawingProperties.ZeroBorderWidthPaint`).
- **Line cap.** The line cap is gated by truthiness, so the cap whose code is 0 (butt) is never emitted (`DrawingProperties.DrawLineCapGate`).
- **Ellipse direction.** The ellipse path runs from the leftmost point to `(cx, cy - ry)`, then to the rightmost point, then to `(cx, cy + ry)` and back. In page coordinates (y up) that is left, bottom, right, top (`EllipseGeometry.EllipsePathEndpoints`).
- **Circle of radius 10.** Its control offsets are `10 * KAPPA`, about 5.5228 (`EllipseGeometry.UnitTenCircle`).
- **Nested ellipse frame.** The ellipse keeps the path's own save/restore pair inside its frame. The list is therefore well nested but not a single bracket, and the paint operator comes after the inner restore (`DrawingProperties.DrawEllipseNesting`).
- **Rectangle with no colour.** A rectangle with neither colour ends its outline with two `closePath` operators (`DrawingProperties.DrawRectangleOutline`).

## Model

| member | source | states |
|---|---|---|
| JsValues.NumTruthy | src/api/operations.ts:204 | JavaScript truthiness of a number-or-PDFNumber argument: the only falsy one is the plain number 0 |
| JsValues.NameTruthy | src/api/operations.ts:53 | JavaScript truthiness of a string-or-PDFName argument: the only falsy one is the plain empty string |
| JsValues.Compact | src/api/operations.ts:67 | `filter(Boolean)` over the optional entries: the result is never longer than the array (what it keeps is stated by the three lemmas below) |
| JsValues.CompactKeepsTruthy | src/api/operations.ts:67 | `filter(Boolean)` keeps exactly the truthy entries: a value is in the filtered list iff it was a present entry of the array |
| JsValues.CompactAppend | src/api/operations.ts:67 | filtering a concatenation is filtering its parts and concatenating the results (order is preserved) |
| JsValues.CompactLift | src/api/operations.ts:67 | entries that are always truthy pass the filter unchanged |
| Operations.GraphicsStateEntry | src/api/operations.ts:53 | the graphics-state entry is present iff the option is truthy, and then sets that state by name |
| Operations.FillColorEntry | src/api/operations.ts:190 | the fill-colour entry is present iff a colour is given (a colour object is always truthy), and then sets that colour |
| Operations.StrokeColorEntry | src/api/operations.ts:191 | the stroking-colour entry is present iff a colour is given, and then sets that colour |
| Operations.DashPattern | src/api/operations.ts:164 | the dash pattern uses the given array and phase, each defaulting to the empty array and 0 when not given |
| Operations.PaintOperator | src/api/operations.ts:204-207 | fill-and-stroke iff a colour is given and the border width is truthy; fill iff a colour is given and the width is falsy; stroke iff there is only a border colour; a bare close of the path iff neither colour is given |
| Operations.DrawText | src/api/operations.ts:47-67 | the filtered list: save, the graphics state only when its name is truthy, begin text, fill colour, font and size, the combined text matrix from the three normalised angles and the anchor, show the line, end text, restore |
| Operations.LinesOfTextPreamble | src/api/operations.ts:77-91 | the filtered preamble: as for one line, with the line height set before the text matrix |
| Operations.ShowLines | src/api/operations.ts:93-95 | what the loop pushes: two operators per line, so twice as many operators as lines |
| Operations.ShowLinesAt | src/api/operations.ts:93-95 | the loop's output has two operators per line, line `i` shown at `2 i` and followed by a move to the next line, in input order |
| Operations.ShowLinesSnoc | src/api/operations.ts:94 | one more pass of the loop appends exactly the line shown and a move to the next line |
| Operations.ShowLinesOnlyText | src/api/operations.ts:94 | the loop emits only show-text and next-line operators |
| Operations.DrawLinesOfText | src/api/operations.ts:73-99 | the loop's result is the preamble, the shown lines and then end text and restore; the result is bracketed by a single save/restore pair, for any number of lines (none included) |
| Operations.LinesOfTextBracketed | src/api/operations.ts:77-97 | the preamble, the shown lines and the closing pair form one save/restore bracket |
| Operations.ShownAfter | src/api/operations.ts:93-97 | after the preamble, line `i` sits at offset `2 i` and the next-line operator at `2 i + 1`, and the list ends with end text and restore |
| Operations.DrawImage | src/api/operations.ts:101-123 | the filtered list: save, the graphics state when truthy, translate, rotate, scale by width and height, skew, draw the object, restore |
| Operations.DrawPage | src/api/operations.ts:125-147 | as for an image, scaled by `xScale` and `yScale` |
| Operations.DrawLine | src/api/operations.ts:149-170 | the filtered list: save, the graphics state when truthy, the stroking colour when given, line width, dash pattern (solid by default), move to the start, the cap when its code is truthy, line to the end, stroke, restore |
| Operations.LineCapTruthy | src/api/operations.ts:166 | the line-cap option is falsy exactly when it is absent or its code is 0 |
| Operations.LineCapEntry | src/api/operations.ts:166 | the line-cap entry is present iff the option is truthy, and then sets that (non-zero) cap code |
| Operations.DrawRectangle | src/api/operations.ts:172-210 | the filtered list: save, the graphics state when truthy, fill and stroking colours when given, border width, dash pattern, translate, rotate, skew, the outline (0,0), (0,h), (w,h), (w,0), close, the selected paint, restore |
| Operations.DrawEllipsePath | src/api/operations.ts:214-244 | seven operators: its own save, a move to the leftmost point `(x - xScale, y)`, four Bezier segments, its own restore, with no other stack operator |
| Operations.DrawEllipse | src/api/operations.ts:246-279 | the filtered list: save, the graphics state when truthy, colours when given, border width, dash pattern, the whole ellipse path spliced in, the selected paint, restore |
| Operations.FlipScale | src/api/operations.ts:302 | the SVG flip is a scale whose y factor is the negated x factor; the x factor is the given scale when truthy, else 1 |
| Operations.LineWidthEntry | src/api/operations.ts:306 | the SVG path's line-width entry is present iff the border width is truthy, and then sets that width |
| Operations.DrawSvgPath | src/api/operations.ts:281-319 | the filtered list: save, the graphics state when truthy, translate, the flip scale, colours when given, the line width only when the border width is truthy, dash pattern, the translated path spliced in, the selected paint, restore |
| Operators.BracketedWellNested | src/api/operations.ts:52-66 | a list framed by one save and one restore with no stack operator between is well nested, and those two are its only stack operators |
| Operators.NestedAfter | src/api/operations.ts:259-278 | an open frame, a bracketed list spliced into it and a tail ending in the restore are well nested, with exactly four stack operators, and so not one bracket |
| Frames.FrameStart | src/api/operations.ts:52-53 | the save followed by the optional graphics state opens a frame, and a graphics state occurs there iff the option is truthy, at index 1, naming that state |
| Frames.ColouredStart | src/api/operations.ts:188-191 | save, graphics state and the optional fill and stroking colours keep the frame open, with the graphics state still only at index 1 |
| DrawingProperties.DrawTextFrame | src/api/operations.ts:47-67 | one line of text is bracketed by one save/restore pair, and its graphics state is set iff the option is truthy, right after the save |
| DrawingProperties.LinesOfTextFrame | src/api/operations.ts:73-99 | the same for several lines, whatever their number |
| DrawingProperties.DrawImageFrame | src/api/operations.ts:113-123 | an image is bracketed, with the graphics state gated and placed as above |
| DrawingProperties.DrawPageFrame | src/api/operations.ts:137-147 | an embedded page is bracketed, with the graphics state gated and placed as above |
| DrawingProperties.DrawLineFrame | src/api/operations.ts:158-170 | a line is bracketed, with the graphics state gated and placed as above |
| DrawingProperties.DrawLineAny | src/api/operations.ts:159-170 | an operator kind occurs in a line iff it occurs in one part of the literal |
| DrawingProperties.DrawLineColorGate | src/api/operations.ts:162 | a line sets a stroking colour iff a colour is given |
| DrawingProperties.DrawLineAlwaysStrokes | src/api/operations.ts:164-169 | a line ends in stroke and restore whether or not a colour is given, and always sets a dash pattern, which is solid with phase 0 when neither part is given |
| DrawingProperties.DrawLineWidth | src/api/operations.ts:163 | a line sets its line width, and never to anything but its thickness |
| DrawingProperties.DrawLineCapGate | src/api/operations.ts:166 | a line sets a cap iff the cap's code is truthy |
| DrawingProperties.DrawLineCapPlace | src/api/operations.ts:165-167 | the cap, when set, sits between the move to the start and the line to the end; otherwise the move is directly followed by the line |
| DrawingProperties.DrawRectangleFrame | src/api/operations.ts:186-210 | a rectangle is bracketed, with the graphics state gated and placed as above |
| DrawingProperties.DrawRectangleAny | src/api/operations.ts:187-210 | an operator kind occurs in a rectangle iff it occurs in one part of the literal |
| DrawingProperties.DrawRectangleFillGate | src/api/operations.ts:190 | a rectangle sets a fill colour iff `color` is given |
| DrawingProperties.DrawRectangleStrokeGate | src/api/operations.ts:191 | a rectangle sets a stroking colour iff `borderColor` is given |
| DrawingProperties.DrawRectangleLineWidth | src/api/operations.ts:192 | a rectangle sets its line width whatever the border width, and never to anything but the border width |
| DrawingProperties.DrawRectangleNoScale | src/api/operations.ts:194-201 | a rectangle has no scale operator: its size lives in the outline |
| DrawingProperties.DrawRectangleOutline | src/api/operations.ts:197-209 | the outline (0,0), (0,h), (w,h), (w,0), close comes just before the paint, which is followed by the restore that ends the list; with neither colour the paint is a second close |
| DrawingProperties.EllipsePathKinds | src/api/operations.ts:235-243 | the ellipse path is bracketed and holds only its save/restore, one move and Bezier segments |
| DrawingProperties.DrawEllipseAny | src/api/operations.ts:258-279 | an operator kind occurs in an ellipse iff it occurs in one of the seven parts of its literal |
| DrawingProperties.EllipseStart | src/api/operations.ts:259-264 | the operators before the ellipse path keep the frame open, with the graphics state gated and at index 1 |
| DrawingProperties.DrawEllipseNesting | src/api/operations.ts:259-278 | an ellipse is well nested but not one bracket: its stack operators are exactly the outer save, the path's save (nine from the end), the path's restore and the outer restore, and the paint sits between the last two |
| DrawingProperties.DrawEllipseGraphicsState | src/api/operations.ts:260 | an ellipse sets a graphics state iff the option is truthy, right after its save |
| DrawingProperties.DrawEllipseFillGate | src/api/operations.ts:261 | an ellipse sets a fill colour iff `color` is given |
| DrawingProperties.DrawEllipseStrokeGate | src/api/operations.ts:262 | an ellipse sets a stroking colour iff `borderColor` is given |
| DrawingProperties.DrawEllipseLineWidth | src/api/operations.ts:263 | an ellipse sets its line width whatever the border width, and never to anything but the border width |
| DrawingProperties.ZeroBorderWidthPaint | src/api/operations.ts:204-207 | a plain zero border width with a colour selects fill alone; a zero PDFNumber selects fill-and-stroke; a border colour alone selects stroke |
| DrawingProperties.SvgPathStart | src/api/operations.ts:296-308 | the operators before the translated path keep the frame open, with the graphics state gated and at index 1 |
| DrawingProperties.DrawSvgPathFrame | src/api/operations.ts:295-319 | when the translated path neither saves, restores nor sets a graphics state, an SVG path is bracketed, with the graphics state gated and placed as above |
| DrawingProperties.DrawSvgPathFlip | src/api/operations.ts:299-302 | right after the optional graphics state come the translation and a scale by `(s, -s)`, where `s` is the given factor when truthy and 1 otherwise |
| DrawingProperties.DrawSvgPathSplice | src/api/operations.ts:308-318 | the translated path is spliced in whole, right after the dash pattern and right before the paint and the restore |
| DrawingProperties.DrawSvgPathLineWidthGate | src/api/operations.ts:306 | when the translated path sets no line width, an SVG path sets one iff the border width is truthy |
| EllipseGeometry.EllipsePathEndpoints | src/api/operations.ts:225-241 | the path starts at the leftmost point, and its segments end at `(cx, cy - ry)`, the rightmost point, `(cx, cy + ry)` and back at the start, so it is closed |
| EllipseGeometry.EllipsePathControlOffsets | src/api/operations.ts:228-241 | each control point lies off its neighbouring end point along one axis only, by `xScale * KAPPA` or `yScale * KAPPA` |
| EllipseGeometry.EllipsePathSmooth | src/api/operations.ts:235-243 | every joint, the closing one included, is the midpoint of the control points on either side, so the segments join smoothly |
| EllipseGeometry.KappaApproximatesCircleConstant | src/api/operations.ts:212 | `Operations.KAPPA` is the exact binary64 literal that the source's expression evaluates to; it lies between 0.5522847498 and 0.5522847499 and is within 10^-15 of the root of (3k/4 + 1)^2 = 2, which is 4(sqrt(2) - 1)/3 |
| EllipseGeometry.UnitTenCircle | src/api/operations.ts:214-244 | the circle of radius 10 at the origin starts at (-10, 0), its first segment uses control offsets of `10 * KAPPA`, and that offset is about 5.5228 |

## Left out

- Operator construction and serialisation are outside the model: each operator is a datatype value carrying its arguments, not a `PDFOperator` with its operands.
- Colour expansion (`setFillingColor`, `setStrokingColor` in `src/api/colors.ts`) is not part of this model. A colour becomes one operator carrying the colour.
- `svgPathToOperators` (`src/api/svgPath.ts`) is not part of this model. It is a function parameter, and the SVG path lemmas that depend on it state what they assume about its output.
- `toRadians` (`src/api/rotations.ts`) is not part of this model. It is a function parameter from the tagged angle to a real.
- Floating point is not modelled: numbers are reals and arithmetic is exact, so rounding, NaN and infinities are out of scope. `KAPPA` is the exact value of the double the source computes, and the ellipse coordinates are computed from it exactly.
- `asNumber` is the identity on the model's numbers. A PDFNumber and a plain number both carry a real, and only truthiness tells them apart.
- Negating a PDFNumber in the SVG flip scale is modelled as negating its value, which is what JavaScript's coercion of the number yields.
- `LineCapStyle` is carried as its numeric code. Only the code's truthiness and the code itself reach the output.
- Dash arrays are sequences of reals; the `number | PDFNumber` distinction inside them plays no part in the output.
- Referential transparency (the same options give the same list) holds of every Dafny function by construction and is not stated as a lemma.
- DrawingProperties.DrawSvgPathFrame: proved only when the translated path has no save, restore or graphics state operator. The source promises nothing about the translator's output.
- DrawingProperties.DrawSvgPathLineWidthGate: proved only when the translated path sets no line width of its own, for the same reason.
