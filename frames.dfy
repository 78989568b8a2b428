/**
 * The frame every drawing puts around its operators: a leading save, the
 * optional graphics state right after it, and a final restore. A frame is
 * reasoned about while it is being built, one part of the array literal at a
 * time, in the order the parts are concatenated.
 */
module Frames {
  import opened Wrappers
  import opened JsValues
  import opened Operators
  import opened Operations

  /**
   * `SetGraphicsState` occurs exactly when the graphics-state option is
   * truthy, and then once, directly after the leading save, naming that state.
   */
  predicate GraphicsStateGated(r: seq<Op>, gs: Option<NameArg>) {
    (OptNameTruthy(gs) <==> Any(r, IsGraphicsStateOp)) &&
    (forall i | 0 <= i < |r| && r[i].SetGraphicsState? ::
       OptNameTruthy(gs) && i == 1 && r[i] == SetGraphicsState(gs.value.s))
  }

  /** An optional entry holds an operator of a kind exactly when it is present and of that kind. */
  lemma AnyPresent(e: Option<Op>, p: Op -> bool)
    ensures Any(Present(e), p) <==> e.Some? && p(e.value)
  {
    if e.Some? {
      assert Present(e)[0] == e.value;
    }
  }

  /** An optional entry that is neither a stack operator nor a graphics state. */
  lemma Quiet(e: Option<Op>)
    requires e.None? || !(IsStackOp(e.value) || IsGraphicsStateOp(e.value))
    ensures StackFree(Present(e)) && !Any(Present(e), IsGraphicsStateOp)
  {
    AnyPresent(e, IsGraphicsStateOp);
  }

  /** The opening of every frame: the save and the optional graphics state. */
  lemma FrameStart(gs: Option<NameArg>)
    ensures Opened([Push] + Present(GraphicsStateEntry(gs)))
    ensures GraphicsStateGated([Push] + Present(GraphicsStateEntry(gs)), gs)
  {
    var g := Present(GraphicsStateEntry(gs));
    OpenedAppend([Push], g);
    AnyPresent(GraphicsStateEntry(gs), IsGraphicsStateOp);
    AnyAppend([Push], g, IsGraphicsStateOp);
  }

  /** Appending operators without a graphics state keeps the graphics state where it was. */
  lemma GatedAppend(h: seq<Op>, gs: Option<NameArg>, x: seq<Op>)
    requires GraphicsStateGated(h, gs) && !Any(x, IsGraphicsStateOp)
    ensures GraphicsStateGated(h + x, gs)
  {
    AnyAppend(h, x, IsGraphicsStateOp);
    forall i | 0 <= i < |h + x| && (h + x)[i].SetGraphicsState?
      ensures OptNameTruthy(gs) && i == 1 && (h + x)[i] == SetGraphicsState(gs.value.s)
    {
      assert i < |h|;
      assert (h + x)[i] == h[i];
    }
  }

  /** Appending operators that touch neither the stack nor the graphics state to an open frame. */
  lemma FrameAppend(h: seq<Op>, gs: Option<NameArg>, x: seq<Op>)
    requires Opened(h) && GraphicsStateGated(h, gs)
    requires StackFree(x) && !Any(x, IsGraphicsStateOp)
    ensures Opened(h + x) && GraphicsStateGated(h + x, gs)
  {
    OpenedAppend(h, x);
    GatedAppend(h, gs, x);
  }

  /** Closing an open frame with operators that end in its restore. */
  lemma FrameClose(h: seq<Op>, gs: Option<NameArg>, x: seq<Op>)
    requires Opened(h) && GraphicsStateGated(h, gs)
    requires |x| >= 1 && x[|x| - 1] == Pop && StackFree(x[..|x| - 1]) && !Any(x, IsGraphicsStateOp)
    ensures Bracketed(h + x) && GraphicsStateGated(h + x, gs)
  {
    OpenedClose(h, x);
    GatedAppend(h, gs, x);
  }

  /** The opening shared by rectangles and ellipses: save, graphics state, fill colour, stroke colour. */
  lemma ColouredStart(gs: Option<NameArg>, color: Option<Color>, borderColor: Option<Color>)
    ensures var c := [Push] + Present(GraphicsStateEntry(gs)) + Present(FillColorEntry(color))
                     + Present(StrokeColorEntry(borderColor));
      Opened(c) && GraphicsStateGated(c, gs)
  {
    var a := [Push] + Present(GraphicsStateEntry(gs));
    FrameStart(gs);
    Quiet(FillColorEntry(color));
    FrameAppend(a, gs, Present(FillColorEntry(color)));
    Quiet(StrokeColorEntry(borderColor));
    FrameAppend(a + Present(FillColorEntry(color)), gs, Present(StrokeColorEntry(borderColor)));
  }
}
