/**
 * The part of android.graphics.Path the view relies on, recorded as a list
 * of drawing commands, and the pen that walks those commands.
 */
module Graphics {
  datatype Point = Point(x: real, y: real)

  datatype Direction = CW | CCW

  /** Path.FillType: which side of the outline counts as inside. */
  datatype FillType = Winding | EvenOdd | InverseWinding | InverseEvenOdd
  {
    predicate IsInverse()
    {
      this == InverseWinding || this == InverseEvenOdd
    }

    /** The same rule for the other side of the outline (Path.toggleInverseFillType). */
    function Toggled(): (f: FillType)
      ensures f.IsInverse() <==> !IsInverse()
    {
      match this
      case Winding => InverseWinding
      case EvenOdd => InverseEvenOdd
      case InverseWinding => Winding
      case InverseEvenOdd => EvenOdd
    }
  }

  /** One recorded call on a Path; the `R` commands are relative to the pen. */
  datatype Cmd =
    | MoveTo(x: real, y: real)
    | RLineTo(dx: real, dy: real)
    | RQuadTo(dx1: real, dy1: real, dx2: real, dy2: real)
    | AddCircle(cx: real, cy: real, radius: real, dir: Direction)
    | Close

  /** The pen: where it stands, and where its current contour started. */
  datatype Pen = Pen(at: Point, start: Point)

  /**
   * The pen after one command. A circle is a closed contour of its own;
   * where it leaves the pen is not modelled (the pen stays put), and no
   * lemma here walks a path holding one.
   */
  function Step(pen: Pen, c: Cmd): Pen
  {
    match c
    case MoveTo(x, y) => Pen(Point(x, y), Point(x, y))
    case RLineTo(dx, dy) => Pen(Point(pen.at.x + dx, pen.at.y + dy), pen.start)
    case RQuadTo(_, _, dx2, dy2) => Pen(Point(pen.at.x + dx2, pen.at.y + dy2), pen.start)
    case AddCircle(_, _, _, _) => pen
    case Close => Pen(pen.start, pen.start)
  }

  /** The pen after all of `cs`. */
  ghost function Trace(pen: Pen, cs: seq<Cmd>): Pen
    decreases |cs|
  {
    if cs == [] then pen else Trace(Step(pen, cs[0]), cs[1..])
  }

  /** The on-curve points: where the pen stands after each command. */
  ghost function Visits(pen: Pen, cs: seq<Cmd>): seq<Point>
    decreases |cs|
  {
    if cs == [] then [] else [Step(pen, cs[0]).at] + Visits(Step(pen, cs[0]), cs[1..])
  }

  /** The absolute control points of the quadratic segments, in order. */
  ghost function Controls(pen: Pen, cs: seq<Cmd>): seq<Point>
    decreases |cs|
  {
    if cs == [] then []
    else
      (if cs[0].RQuadTo? then [Point(pen.at.x + cs[0].dx1, pen.at.y + cs[0].dy1)] else [])
      + Controls(Step(pen, cs[0]), cs[1..])
  }

  /** Walking `a + b` is walking `a`, then `b` from where `a` left the pen. */
  lemma {:induction false} WalkAppend(pen: Pen, a: seq<Cmd>, b: seq<Cmd>)
    ensures Trace(pen, a + b) == Trace(Trace(pen, a), b)
    ensures Visits(pen, a + b) == Visits(pen, a) + Visits(Trace(pen, a), b)
    ensures Controls(pen, a + b) == Controls(pen, a) + Controls(Trace(pen, a), b)
    decreases |a|
  {
    if a == [] {
      assert a + b == b;
    } else {
      assert (a + b)[0] == a[0];
      assert (a + b)[1..] == a[1..] + b;
      WalkAppend(Step(pen, a[0]), a[1..], b);
    }
  }

  /** Walking five pieces one after the other, given where each piece leaves the pen. */
  lemma WalkFive(pen: Pen, a: seq<Cmd>, b: seq<Cmd>, c: seq<Cmd>, d: seq<Cmd>, e: seq<Cmd>,
                 p1: Pen, p2: Pen, p3: Pen, p4: Pen)
    requires Trace(pen, a) == p1 && Trace(p1, b) == p2 && Trace(p2, c) == p3 && Trace(p3, d) == p4
    ensures Trace(pen, a + b + c + d + e) == Trace(p4, e)
    ensures Controls(pen, a + b + c + d + e)
         == Controls(pen, a) + Controls(p1, b) + Controls(p2, c) + Controls(p3, d) + Controls(p4, e)
    ensures Visits(pen, a + b + c + d + e)
         == Visits(pen, a) + Visits(p1, b) + Visits(p2, c) + Visits(p3, d) + Visits(p4, e)
  {
    WalkAppend(pen, a, b);
    WalkAppend(pen, a + b, c);
    WalkAppend(pen, a + b + c, d);
    WalkAppend(pen, a + b + c + d, e);
  }

  /** A walk without control points has no curve. */
  lemma {:induction false} NoControlsNoCurves(pen: Pen, cs: seq<Cmd>)
    requires Controls(pen, cs) == []
    ensures forall i :: 0 <= i < |cs| ==> !cs[i].RQuadTo?
    decreases |cs|
  {
    if cs != [] {
      NoControlsNoCurves(Step(pen, cs[0]), cs[1..]);
      forall i | 1 <= i < |cs| ensures !cs[i].RQuadTo? {
        assert cs[i] == cs[1..][i - 1];
      }
    }
  }

  /**
   * android.graphics.Path, reduced to what the view observes of it: the
   * commands recorded since the last reset, and the fill type.
   */
  class Path {
    var cmds: seq<Cmd>
    var fillType: FillType

    constructor ()
      ensures cmds == [] && fillType == Winding
    {
      cmds := [];
      fillType := Winding;
    }

    /** Clears the commands; the fill type is kept. */
    method Reset()
      modifies this`cmds
      ensures cmds == []
    {
      cmds := [];
    }

    method MoveTo(x: real, y: real)
      modifies this`cmds
      ensures cmds == old(cmds) + [Cmd.MoveTo(x, y)]
    {
      cmds := cmds + [Cmd.MoveTo(x, y)];
    }

    method RLineTo(dx: real, dy: real)
      modifies this`cmds
      ensures cmds == old(cmds) + [Cmd.RLineTo(dx, dy)]
    {
      cmds := cmds + [Cmd.RLineTo(dx, dy)];
    }

    method RQuadTo(dx1: real, dy1: real, dx2: real, dy2: real)
      modifies this`cmds
      ensures cmds == old(cmds) + [Cmd.RQuadTo(dx1, dy1, dx2, dy2)]
    {
      cmds := cmds + [Cmd.RQuadTo(dx1, dy1, dx2, dy2)];
    }

    method AddCircle(cx: real, cy: real, radius: real, dir: Direction)
      modifies this`cmds
      ensures cmds == old(cmds) + [Cmd.AddCircle(cx, cy, radius, dir)]
    {
      cmds := cmds + [Cmd.AddCircle(cx, cy, radius, dir)];
    }

    method Close()
      modifies this`cmds
      ensures cmds == old(cmds) + [Cmd.Close]
    {
      cmds := cmds + [Cmd.Close];
    }

    method SetFillType(f: FillType)
      modifies this`fillType
      ensures fillType == f
    {
      fillType := f;
    }
  }
}
