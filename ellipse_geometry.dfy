/**
 * The geometry of the ellipse path: where its segments start and end, where
 * their control points lie, and how close KAPPA is to the circle constant.
 */
module EllipseGeometry {
  import opened Operators
  import opened Operations

  /** The end point of a Bezier segment. */
  function EndPoint(op: Op): Point
    requires op.AppendBezierCurve?
  {
    Point(op.x3, op.y3)
  }

  function FirstControl(op: Op): Point
    requires op.AppendBezierCurve?
  {
    Point(op.x1, op.y1)
  }

  function SecondControl(op: Op): Point
    requires op.AppendBezierCurve?
  {
    Point(op.x2, op.y2)
  }

  function Offset(p: Point, dx: real, dy: real): Point {
    Point(p.x + dx, p.y + dy)
  }

  function Midpoint(p: Point, q: Point): Point {
    Point((p.x + q.x) / 2.0, (p.y + q.y) / 2.0)
  }

  /**
   * The ellipse path starts at the leftmost point and its four segments end,
   * in turn, at the point below the centre, the rightmost point, the point
   * above the centre, and back at the start: the path is closed.
   */
  lemma EllipsePathEndpoints(c: EllipseConfig)
    ensures var r := DrawEllipsePath(c);
      EndPoint(r[2]) == Point(c.x, c.y - c.yScale) &&
      EndPoint(r[3]) == Point(c.x + c.xScale, c.y) &&
      EndPoint(r[4]) == Point(c.x, c.y + c.yScale) &&
      EndPoint(r[5]) == Point(c.x - c.xScale, c.y) &&
      r[1] == MoveTo(EndPoint(r[5]).x, EndPoint(r[5]).y)
  {
  }

  /**
   * Each control point lies off its neighbouring end point along one axis
   * only, by `xScale * KAPPA` horizontally or `yScale * KAPPA` vertically.
   */
  lemma EllipsePathControlOffsets(c: EllipseConfig)
    ensures var r := DrawEllipsePath(c);
      var ox := c.xScale * KAPPA; var oy := c.yScale * KAPPA;
      var start := Point(r[1].x, r[1].y);
      FirstControl(r[2]) == Offset(start, 0.0, -oy) && SecondControl(r[2]) == Offset(EndPoint(r[2]), -ox, 0.0) &&
      FirstControl(r[3]) == Offset(EndPoint(r[2]), ox, 0.0) && SecondControl(r[3]) == Offset(EndPoint(r[3]), 0.0, -oy) &&
      FirstControl(r[4]) == Offset(EndPoint(r[3]), 0.0, oy) && SecondControl(r[4]) == Offset(EndPoint(r[4]), ox, 0.0) &&
      FirstControl(r[5]) == Offset(EndPoint(r[4]), -ox, 0.0) && SecondControl(r[5]) == Offset(EndPoint(r[5]), 0.0, oy)
  {
  }

  /**
   * The four segments join smoothly: every end point, the closing one
   * included, is the midpoint of the control points on either side of it.
   */
  lemma EllipsePathSmooth(c: EllipseConfig)
    ensures var r := DrawEllipsePath(c);
      EndPoint(r[2]) == Midpoint(SecondControl(r[2]), FirstControl(r[3])) &&
      EndPoint(r[3]) == Midpoint(SecondControl(r[3]), FirstControl(r[4])) &&
      EndPoint(r[4]) == Midpoint(SecondControl(r[4]), FirstControl(r[5])) &&
      EndPoint(r[5]) == Midpoint(SecondControl(r[5]), FirstControl(r[2]))
  {
  }

  /** KAPPA is within 10^-15 of the root of (3k/4 + 1)^2 = 2, that is of 4(sqrt(2) - 1)/3. */
  lemma KappaApproximatesCircleConstant()
    ensures 0.5522847498 < KAPPA < 0.5522847499
    ensures var s := 3.0 * KAPPA / 4.0 + 1.0;
      -0.000000000000001 < s * s - 2.0 < 0.000000000000001
  {
  }

  /** The circle of radius 10 at the origin starts at (-10, 0) and its control offsets are 10 * KAPPA, about 5.5228. */
  lemma UnitTenCircle()
    ensures var r := DrawEllipsePath(EllipseConfig(0.0, 0.0, 10.0, 10.0));
      r[1] == MoveTo(-10.0, 0.0) &&
      r[2] == AppendBezierCurve(-10.0, -10.0 * KAPPA, -10.0 * KAPPA, -10.0, 0.0, -10.0) &&
      5.5228 < 10.0 * KAPPA < 5.5229
  {
  }
}
