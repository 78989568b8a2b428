/**
 * The PDF content-stream operators the drawing compiler emits (graphics state,
 * path construction and painting, text objects), each as one opaque token, and
 * what it means for a sequence of them to keep save/restore balanced.
 */
module Operators {
  import opened Wrappers

  /** A colour, as the colour-expansion collaborator receives it; its structure is not used here. */
  datatype Color = Color(components: seq<real>)

  /** An angle with its unit tag; it is converted to radians once, at each drawing call. */
  datatype Rotation = Degrees(angle: real) | Radians(angle: real)

  /** One content-stream operator. Every constructed operator is a JavaScript object, hence truthy. */
  datatype Op =
    | Push                                         // q
    | Pop                                          // Q
    | SetGraphicsState(name: string)               // gs
    | BeginText                                    // BT
    | EndText                                      // ET
    | SetFillingColor(fill: Color)                 // the colour expansion for non-stroking colour
    | SetStrokingColor(stroke: Color)              // the colour expansion for stroking colour
    | SetFontAndSize(font: string, size: real)     // Tf
    | SetLineHeight(lineHeight: real)              // TL
    | SetTextMatrix(rotate: real, xSkew: real, ySkew: real, x: real, y: real)  // Tm from angles and origin
    | ShowText(text: string)                       // Tj
    | NextLine                                     // T*
    | Translate(tx: real, ty: real)                // cm
    | Rotate(radians: real)                        // cm
    | Scale(sx: real, sy: real)                    // cm
    | Skew(xRadians: real, yRadians: real)         // cm
    | DrawObject(xObject: string)                  // Do
    | MoveTo(x: real, y: real)                     // m
    | LineTo(x: real, y: real)                     // l
    | AppendBezierCurve(x1: real, y1: real, x2: real, y2: real, x3: real, y3: real)  // c
    | ClosePath                                    // h
    | SetLineWidth(width: real)                    // w
    | SetLineCap(style: int)                       // J
    | SetDashPattern(dashArray: seq<real>, dashPhase: real)  // d
    | Fill                                         // f
    | Stroke                                       // S
    | FillAndStroke                                // B

  /** Whether some operator of `ops` is of the kind `p` picks out. */
  predicate Any(ops: seq<Op>, p: Op -> bool) {
    exists i | 0 <= i < |ops| :: p(ops[i])
  }

  /** An operator occurs in a concatenation iff it occurs in one of its parts. */
  lemma AnyAppend(a: seq<Op>, b: seq<Op>, p: Op -> bool)
    ensures Any(a + b, p) <==> Any(a, p) || Any(b, p)
  {
    if Any(a + b, p) {
      var i :| 0 <= i < |a + b| && p((a + b)[i]);
      if i >= |a| { assert b[i - |a|] == (a + b)[i]; }
    }
    if Any(a, p) {
      var i :| 0 <= i < |a| && p(a[i]);
      assert (a + b)[i] == a[i];
    }
    if Any(b, p) {
      var i :| 0 <= i < |b| && p(b[i]);
      assert (a + b)[|a| + i] == b[i];
    }
  }

  predicate IsGraphicsStateOp(op: Op) { op.SetGraphicsState? }
  predicate IsFillingColorOp(op: Op) { op.SetFillingColor? }
  predicate IsStrokingColorOp(op: Op) { op.SetStrokingColor? }
  predicate IsLineCapOp(op: Op) { op.SetLineCap? }
  predicate IsLineWidthOp(op: Op) { op.SetLineWidth? }
  predicate IsScaleOp(op: Op) { op.Scale? }

  /** The two operators that touch the graphics-state stack. */
  predicate IsStackOp(op: Op) {
    op.Push? || op.Pop?
  }

  predicate StackFree(ops: seq<Op>) {
    forall i | 0 <= i < |ops| :: !IsStackOp(ops[i])
  }

  /** One save at the front, its restore at the back, and no other stack operator. */
  predicate Bracketed(ops: seq<Op>) {
    |ops| >= 2 && ops[0] == Push && ops[|ops| - 1] == Pop && StackFree(ops[1..|ops| - 1])
  }

  /** Concatenating operators that never touch the stack gives operators that never touch it. */
  lemma StackFreeAppend(a: seq<Op>, b: seq<Op>)
    requires StackFree(a) && StackFree(b)
    ensures StackFree(a + b)
  {
    forall i | 0 <= i < |a + b| ensures !IsStackOp((a + b)[i]) {
      if i >= |a| { assert (a + b)[i] == b[i - |a|]; }
    }
  }

  /** A slice of the second part of a concatenation. */
  lemma SliceOfSuffix(c: seq<Op>, t: seq<Op>, i: nat, j: nat)
    requires i <= j <= |t|
    ensures (c + t)[|c| + i..|c| + j] == t[i..j]
  {
  }

  /** A frame under construction: its save first and no other stack operator so far. */
  predicate Opened(ops: seq<Op>) {
    |ops| >= 1 && ops[0] == Push && StackFree(ops[1..])
  }

  /** Extending a frame under construction with stack-free operators keeps it open. */
  lemma OpenedAppend(h: seq<Op>, x: seq<Op>)
    requires Opened(h) && StackFree(x)
    ensures Opened(h + x)
  {
    assert (h + x)[1..] == h[1..] + x;
    StackFreeAppend(h[1..], x);
  }

  /** Closing a frame under construction with stack-free operators and a restore brackets it. */
  lemma OpenedClose(h: seq<Op>, x: seq<Op>)
    requires Opened(h) && |x| >= 1 && x[|x| - 1] == Pop && StackFree(x[..|x| - 1])
    ensures Bracketed(h + x)
  {
    var r := h + x;
    assert r[1..|r| - 1] == h[1..] + x[..|x| - 1];
    StackFreeAppend(h[1..], x[..|x| - 1]);
  }

  /** The stack depth after running `ops` from depth `d`; `None` once a restore finds the stack empty. */
  function Run(ops: seq<Op>, d: nat): Option<nat>
    decreases |ops|
  {
    if ops == [] then Some(d)
    else if ops[0].Push? then Run(ops[1..], d + 1)
    else if ops[0].Pop? then (if d == 0 then None else Run(ops[1..], d - 1))
    else Run(ops[1..], d)
  }

  /** Every restore has a save before it and every save is restored. */
  predicate WellNested(ops: seq<Op>) {
    Run(ops, 0) == Some(0)
  }

  /** Running a concatenation is running its parts one after the other. */
  lemma {:induction false} RunAppend(a: seq<Op>, b: seq<Op>, d: nat)
    ensures Run(a + b, d) == if Run(a, d).None? then None else Run(b, Run(a, d).value)
    decreases |a|
  {
    if a == [] {
      assert a + b == b;
    } else {
      assert (a + b)[0] == a[0] && (a + b)[1..] == a[1..] + b;
      if a[0].Push? {
        RunAppend(a[1..], b, d + 1);
      } else if a[0].Pop? {
        if d > 0 { RunAppend(a[1..], b, d - 1); }
      } else {
        RunAppend(a[1..], b, d);
      }
    }
  }

  /** A run of operators that never touch the stack leaves the depth as it was. */
  lemma {:induction false} RunStackFree(a: seq<Op>, d: nat)
    requires StackFree(a)
    ensures Run(a, d) == Some(d)
    decreases |a|
  {
    if a != [] {
      assert StackFree(a[1..]) by {
        forall i | 0 <= i < |a[1..]| ensures !IsStackOp(a[1..][i]) {
          assert a[1..][i] == a[i + 1];
        }
      }
      RunStackFree(a[1..], d);
    }
  }

  /** An open frame, run from any depth, leaves one more save on the stack. */
  lemma RunOpened(h: seq<Op>, d: nat)
    requires Opened(h)
    ensures Run(h, d) == Some(d + 1)
  {
    assert h == [Push] + h[1..];
    RunAppend([Push], h[1..], d);
    RunStackFree(h[1..], d + 1);
  }

  /** Operators that end in a restore after stack-free ones take one save off a non-empty stack. */
  lemma RunClosing(x: seq<Op>, d: nat)
    requires |x| >= 1 && x[|x| - 1] == Pop && StackFree(x[..|x| - 1])
    ensures Run(x, d + 1) == Some(d)
  {
    assert x == x[..|x| - 1] + [Pop];
    RunAppend(x[..|x| - 1], [Pop], d + 1);
    RunStackFree(x[..|x| - 1], d + 1);
  }

  /** A bracketed sequence, run from any depth, returns to that depth. */
  lemma RunBracketed(ops: seq<Op>, d: nat)
    requires Bracketed(ops)
    ensures Run(ops, d) == Some(d)
  {
    var open := ops[..|ops| - 1];
    assert Opened(open) by {
      assert open[1..] == ops[1..|ops| - 1];
    }
    assert ops == open + [Pop];
    RunAppend(open, [Pop], d);
    RunOpened(open, d);
  }

  /** A bracketed sequence is well nested, and its save/restore pair is the only one. */
  lemma BracketedWellNested(ops: seq<Op>)
    requires Bracketed(ops)
    ensures WellNested(ops)
    ensures forall i | 0 <= i < |ops| :: IsStackOp(ops[i]) <==> i == 0 || i == |ops| - 1
  {
    RunBracketed(ops, 0);
    forall i | 0 < i < |ops| - 1 ensures !IsStackOp(ops[i]) {
      assert ops[i] == ops[1..|ops| - 1][i - 1];
    }
  }

  /**
   * An open frame, a bracketed sequence spliced into it, and operators ending
   * in the frame's restore: well nested, with exactly those four stack
   * operators, hence not bracketed.
   */
  lemma NestedAfter(h: seq<Op>, inner: seq<Op>, x: seq<Op>)
    requires Opened(h) && Bracketed(inner)
    requires |x| >= 1 && x[|x| - 1] == Pop && StackFree(x[..|x| - 1])
    ensures var r := h + inner + x;
      WellNested(r) && !Bracketed(r) &&
      forall i | 0 <= i < |r| :: IsStackOp(r[i]) <==> i == 0 || i == |h| || i == |h| + |inner| - 1 || i == |r| - 1
  {
    var r := h + inner + x;
    RunOpened(h, 0);
    RunBracketed(inner, 1);
    RunClosing(x, 0);
    RunAppend(h, inner, 0);
    RunAppend(h + inner, x, 0);
    BracketedWellNested(inner);
    forall i | 0 <= i < |r|
      ensures IsStackOp(r[i]) <==> i == 0 || i == |h| || i == |h| + |inner| - 1 || i == |r| - 1
    {
      if i < |h| {
        assert r[i] == h[i];
        if i > 0 { assert h[i] == h[1..][i - 1]; }
      } else if i < |h| + |inner| {
        assert r[i] == inner[i - |h|];
      } else {
        assert r[i] == x[i - |h| - |inner|];
        if i < |r| - 1 { assert x[i - |h| - |inner|] == x[..|x| - 1][i - |h| - |inner|]; }
      }
    }
    assert r[1..|r| - 1][|h| - 1] == r[|h|];
  }
}
