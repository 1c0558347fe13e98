/**
 * The two outline builders of the view's companion object: `roundedRect`,
 * which walks a rectangle with selectively rounded corners, and
 * `circlePath`. Each is a method that resets a shared Path and records
 * commands into it, proved against a function giving the commands it must
 * record; the geometric facts are lemmas about those functions.
 */
module Shapes {
  import opened JvmInt
  import opened CornerMask
  import opened Graphics

  function Min(a: real, b: real): real
  {
    if a <= b then a else b
  }

  function Max(a: real, b: real): real
  {
    if a >= b then a else b
  }

  /** The fill type both builders pick: the inverse rule unless the mask is reversed. */
  function FillFor(reverseMask: bool): (f: FillType)
    ensures f == EvenOdd || f == InverseEvenOdd
    ensures f.IsInverse() <==> !reverseMask
  {
    if !reverseMask then InverseEvenOdd else EvenOdd
  }

  /** A radius raised to 0 and then lowered to half the extent, as roundedRect does with rx and ry. */
  function ClampRadius(r: real, extent: real): real
  {
    var c := if r < 0.0 then 0.0 else r;
    if c > extent / 2.0 then extent / 2.0 else c
  }

  /**
   * The clamped radius is min(max(r, 0), extent / 2): for a rectangle of
   * non-negative extent it lies in [0, extent / 2], and a radius already in
   * that range is kept as it is.
   */
  lemma ClampRadiusBounds(r: real, extent: real)
    ensures ClampRadius(r, extent) == Min(Max(r, 0.0), extent / 2.0)
    ensures extent >= 0.0 ==> 0.0 <= ClampRadius(r, extent) <= extent / 2.0
    ensures 0.0 <= r <= extent / 2.0 ==> ClampRadius(r, extent) == r
    ensures ClampRadius(ClampRadius(r, extent), extent) == ClampRadius(r, extent)
  {
  }

  /**
   * One corner: a leg (ux, uy) towards the corner's vertex, then a leg
   * (vx, vy) away from it. A rounded corner is one quadratic curve whose
   * control point is the vertex; a sharp one is the two legs as lines.
   */
  function CornerCmds(rounded: bool, ux: real, uy: real, vx: real, vy: real): seq<Cmd>
  {
    if rounded then [RQuadTo(ux, uy, ux + vx, uy + vy)]
    else [RLineTo(ux, uy), RLineTo(vx, vy)]
  }

  /** A corner followed by the straight part (lx, ly) of the next side. */
  function SideCmds(rounded: bool, ux: real, uy: real, vx: real, vy: real, lx: real, ly: real): seq<Cmd>
  {
    CornerCmds(rounded, ux, uy, vx, vy) + [RLineTo(lx, ly)]
  }

  /**
   * The part of roundedRect's walk that starts at corner `k`: the corner
   * itself and the straight part of the side after it, for radii radiusX,
   * radiusY already clamped.
   */
  function OutlineSide(k: Corner, left: real, top: real, right: real, bottom: real,
                       radiusX: real, radiusY: real, rounded: bool): seq<Cmd>
  {
    var widthMinusCorners := right - left - 2.0 * radiusX;
    var heightMinusCorners := bottom - top - 2.0 * radiusY;
    match k
    case TopRight => SideCmds(rounded, 0.0, -radiusY, -radiusX, 0.0, -widthMinusCorners, 0.0)
    case TopLeft => SideCmds(rounded, -radiusX, 0.0, 0.0, radiusY, 0.0, heightMinusCorners)
    case BottomLeft => SideCmds(rounded, 0.0, radiusY, radiusX, 0.0, widthMinusCorners, 0.0)
    case BottomRight => SideCmds(rounded, radiusX, 0.0, 0.0, -radiusY, 0.0, -heightMinusCorners)
  }

  /**
   * The walk for given radii: move to (right, top + radiusY), then the
   * top-right corner and top side, top-left corner and left side,
   * bottom-left corner and bottom side, bottom-right corner and right side,
   * and close.
   */
  function OutlineCmds(left: real, top: real, right: real, bottom: real,
                       radiusX: real, radiusY: real, c: Corners): seq<Cmd>
  {
    [MoveTo(right, top + radiusY)]
    + OutlineSide(TopRight, left, top, right, bottom, radiusX, radiusY, c.topRight)
    + OutlineSide(TopLeft, left, top, right, bottom, radiusX, radiusY, c.topLeft)
    + OutlineSide(BottomLeft, left, top, right, bottom, radiusX, radiusY, c.bottomLeft)
    + OutlineSide(BottomRight, left, top, right, bottom, radiusX, radiusY, c.bottomRight)
    + [Close]
  }

  /** The commands roundedRect records: the walk with rx and ry clamped first. */
  function RoundedRectCmds(left: real, top: real, right: real, bottom: real,
                           rx: real, ry: real, c: Corners): seq<Cmd>
  {
    OutlineCmds(left, top, right, bottom, ClampRadius(rx, right - left), ClampRadius(ry, bottom - top), c)
  }

  /** circlePath's radius: `min(viewWidth, viewHeight) / 2.0f`, the largest that fits both sides. */
  function CircleRadius(viewWidth: Int32, viewHeight: Int32): (r: real)
    ensures r <= viewWidth as real / 2.0 && r <= viewHeight as real / 2.0
    ensures r == viewWidth as real / 2.0 || r == viewHeight as real / 2.0
    ensures viewWidth >= 0 && viewHeight >= 0 ==> r >= 0.0
  {
    (if viewWidth <= viewHeight then viewWidth else viewHeight) as real / 2.0
  }

  /** The commands circlePath records: one counter-clockwise circle. */
  function CircleCmds(x: real, y: real, viewWidth: Int32, viewHeight: Int32): seq<Cmd>
  {
    [AddCircle(x, y, CircleRadius(viewWidth, viewHeight), CCW)]
  }

  /** Companion `circlePath`: reset the shared path, add the circle, pick the fill type. */
  method CirclePath(path: Path, x: real, y: real, viewWidth: Int32, viewHeight: Int32,
                    reverseMask: bool) returns (r: Path)
    modifies path
    ensures r == path
    ensures path.cmds == CircleCmds(x, y, viewWidth, viewHeight)
    ensures path.fillType == FillFor(reverseMask)
  {
    path.Reset();
    var radius := (if viewWidth <= viewHeight then viewWidth else viewHeight) as real / 2.0;
    path.AddCircle(x, y, radius, CCW);
    path.SetFillType(if reverseMask then EvenOdd else InverseEvenOdd);
    r := path;
  }

  /**
   * One corner of roundedRect and the straight part of the side after it:
   * `rQuadTo` with the vertex as control point when the corner is rounded,
   * else two `rLineTo` legs meeting at the vertex; then one `rLineTo`.
   */
  method Side(path: Path, rounded: bool, ux: real, uy: real, vx: real, vy: real, lx: real, ly: real)
    modifies path`cmds
    ensures path.cmds == old(path.cmds) + SideCmds(rounded, ux, uy, vx, vy, lx, ly)
  {
    if rounded {
      path.RQuadTo(ux, uy, ux + vx, uy + vy);
    } else {
      path.RLineTo(ux, uy);
      path.RLineTo(vx, vy);
    }
    path.RLineTo(lx, ly);
  }

  /**
   * The walk of roundedRect once the radii are clamped, recorded into the
   * freshly reset path: the move to the start, the four corners with their
   * sides, and the close.
   */
  method Walk(path: Path, left: real, top: real, right: real, bottom: real,
              radiusX: real, radiusY: real, c: Corners)
    requires path.cmds == []
    modifies path`cmds
    ensures path.cmds == OutlineCmds(left, top, right, bottom, radiusX, radiusY, c)
  {
    var width := right - left;
    var height := bottom - top;
    var widthMinusCorners := width - 2.0 * radiusX;
    var heightMinusCorners := height - 2.0 * radiusY;
    path.MoveTo(right, top + radiusY);
    assert path.cmds == [MoveTo(right, top + radiusY)];
    ghost var walked := [MoveTo(right, top + radiusY)];
    Side(path, c.topRight, 0.0, -radiusY, -radiusX, 0.0, -widthMinusCorners, 0.0);    // top-right corner, top side
    walked := walked + OutlineSide(TopRight, left, top, right, bottom, radiusX, radiusY, c.topRight);
    assert path.cmds == walked;
    Side(path, c.topLeft, -radiusX, 0.0, 0.0, radiusY, 0.0, heightMinusCorners);     // top-left corner, left side
    walked := walked + OutlineSide(TopLeft, left, top, right, bottom, radiusX, radiusY, c.topLeft);
    assert path.cmds == walked;
    Side(path, c.bottomLeft, 0.0, radiusY, radiusX, 0.0, widthMinusCorners, 0.0);    // bottom-left corner, bottom side
    walked := walked + OutlineSide(BottomLeft, left, top, right, bottom, radiusX, radiusY, c.bottomLeft);
    assert path.cmds == walked;
    Side(path, c.bottomRight, radiusX, 0.0, 0.0, -radiusY, 0.0, -heightMinusCorners); // bottom-right corner, right side
    walked := walked + OutlineSide(BottomRight, left, top, right, bottom, radiusX, radiusY, c.bottomRight);
    assert path.cmds == walked;
    path.Close();
  }

  /**
   * Companion `roundedRect`: reset the shared path, clamp rx and ry, record
   * the walk around the rectangle, close it and pick the fill type.
   * Whatever the path held before does not matter.
   */
  method RoundedRect(path: Path, left: real, top: real, right: real, bottom: real,
                     rx: real, ry: real, tl: bool, tr: bool, br: bool, bl: bool,
                     reverseMask: bool) returns (r: Path)
    modifies path
    ensures r == path
    ensures path.cmds == RoundedRectCmds(left, top, right, bottom, rx, ry, Corners(tl, tr, bl, br))
    ensures path.fillType == FillFor(reverseMask)
  {
    var radiusX := rx;
    var radiusY := ry;
    path.Reset();
    if radiusX < 0.0 {
      radiusX := 0.0;
    }
    if radiusY < 0.0 {
      radiusY := 0.0;
    }
    var width := right - left;
    var height := bottom - top;
    if radiusX > width / 2.0 {
      radiusX := width / 2.0;
    }
    if radiusY > height / 2.0 {
      radiusY := height / 2.0;
    }
    assert radiusX == ClampRadius(rx, width) && radiusY == ClampRadius(ry, height);

    Walk(path, left, top, right, bottom, radiusX, radiusY, Corners(tl, tr, bl, br));
    path.SetFillType(if !reverseMask then InverseEvenOdd else EvenOdd);
    r := path;
  }

  /** The vertex of the (unrounded) rectangle at corner `k`. */
  function Vertex(left: real, top: real, right: real, bottom: real, k: Corner): Point
  {
    match k
    case TopLeft => Point(left, top)
    case TopRight => Point(right, top)
    case BottomLeft => Point(left, bottom)
    case BottomRight => Point(right, bottom)
  }

  /** The vertices of the rounded corners, in the order roundedRect reaches them. */
  function RoundedVertices(left: real, top: real, right: real, bottom: real, c: Corners): seq<Point>
  {
    (if c.topRight then [Vertex(left, top, right, bottom, TopRight)] else [])
    + (if c.topLeft then [Vertex(left, top, right, bottom, TopLeft)] else [])
    + (if c.bottomLeft then [Vertex(left, top, right, bottom, BottomLeft)] else [])
    + (if c.bottomRight then [Vertex(left, top, right, bottom, BottomRight)] else [])
  }

  /**
   * A corner moves the pen by the sum of its two legs whether it is rounded
   * or sharp. Rounded, its only control point is the vertex (pen + first
   * leg); sharp, it has no control point and the pen stops at the vertex.
   */
  lemma CornerWalk(pen: Pen, rounded: bool, ux: real, uy: real, vx: real, vy: real)
    ensures Trace(pen, CornerCmds(rounded, ux, uy, vx, vy))
         == Trace(pen, CornerCmds(!rounded, ux, uy, vx, vy))
         == Pen(Point(pen.at.x + ux + vx, pen.at.y + uy + vy), pen.start)
    ensures rounded ==> Controls(pen, CornerCmds(rounded, ux, uy, vx, vy)) == [Point(pen.at.x + ux, pen.at.y + uy)]
    ensures !rounded ==> Controls(pen, CornerCmds(rounded, ux, uy, vx, vy)) == []
    ensures !rounded ==> Visits(pen, CornerCmds(rounded, ux, uy, vx, vy))[0] == Point(pen.at.x + ux, pen.at.y + uy)
  {
    var vertex := Point(pen.at.x + ux, pen.at.y + uy);
    var end := Pen(Point(pen.at.x + ux + vx, pen.at.y + uy + vy), pen.start);
    var quad := [RQuadTo(ux, uy, ux + vx, uy + vy)];
    assert quad[1..] == [];
    assert Step(pen, quad[0]) == end;
    assert Trace(pen, quad) == end;
    assert Controls(pen, quad) == [vertex];
    var lines := [RLineTo(ux, uy), RLineTo(vx, vy)];
    var mid := Pen(vertex, pen.start);
    assert Step(pen, lines[0]) == mid;
    assert lines[1..] == [RLineTo(vx, vy)];
    assert lines[1..][1..] == [];
    assert Step(mid, lines[1]) == end;
    assert Trace(mid, lines[1..]) == end;
    assert Trace(pen, lines) == end;
    assert Controls(mid, lines[1..]) == [];
    assert Controls(pen, lines) == [];
    assert Visits(pen, lines)[0] == vertex;
    assert CornerCmds(true, ux, uy, vx, vy) == quad;
    assert CornerCmds(false, ux, uy, vx, vy) == lines;
  }

  /** A corner and the side after it: where the pen ends, the control points, the vertex. */
  lemma SideWalk(pen: Pen, rounded: bool, ux: real, uy: real, vx: real, vy: real, lx: real, ly: real)
    ensures Trace(pen, SideCmds(rounded, ux, uy, vx, vy, lx, ly))
         == Pen(Point(pen.at.x + ux + vx + lx, pen.at.y + uy + vy + ly), pen.start)
    ensures Controls(pen, SideCmds(rounded, ux, uy, vx, vy, lx, ly))
         == if rounded then [Point(pen.at.x + ux, pen.at.y + uy)] else []
    ensures !rounded ==> Point(pen.at.x + ux, pen.at.y + uy) in Visits(pen, SideCmds(rounded, ux, uy, vx, vy, lx, ly))
  {
    var corner := CornerCmds(rounded, ux, uy, vx, vy);
    CornerWalk(pen, rounded, ux, uy, vx, vy);
    WalkAppend(pen, corner, [RLineTo(lx, ly)]);
    var mid := Trace(pen, corner);
    assert [RLineTo(lx, ly)][1..] == [];
    assert Controls(mid, [RLineTo(lx, ly)]) == [];
    if !rounded {
      assert Visits(pen, corner)[0] in Visits(pen, corner);
    }
  }

  /** The corner roundedRect's walk reaches after the side that starts at `k`. */
  function NextCorner(k: Corner): Corner
  {
    match k
    case TopRight => TopLeft
    case TopLeft => BottomLeft
    case BottomLeft => BottomRight
    case BottomRight => TopRight
  }

  /**
   * Where the pen stands when the walk reaches corner `k`: a radius away
   * from the vertex, on the side before it. Every subpath starts at the
   * top-right one, (right, top + radiusY).
   */
  function PenAt(k: Corner, left: real, top: real, right: real, bottom: real,
                 radiusX: real, radiusY: real): Pen
  {
    var start := Point(right, top + radiusY);
    match k
    case TopRight => Pen(start, start)
    case TopLeft => Pen(Point(left + radiusX, top), start)
    case BottomLeft => Pen(Point(left, bottom - radiusY), start)
    case BottomRight => Pen(Point(right - radiusX, bottom), start)
  }

  /**
   * The part of the walk at corner `k` takes the pen to the next corner;
   * when `k` is rounded its one control point is the vertex, and when it is
   * sharp the pen passes through the vertex.
   */
  lemma OutlineSideWalk(k: Corner, left: real, top: real, right: real, bottom: real,
                        radiusX: real, radiusY: real, rounded: bool)
    ensures var pen := PenAt(k, left, top, right, bottom, radiusX, radiusY);
      var side := OutlineSide(k, left, top, right, bottom, radiusX, radiusY, rounded);
      && Trace(pen, side) == PenAt(NextCorner(k), left, top, right, bottom, radiusX, radiusY)
      && Controls(pen, side) == (if rounded then [Vertex(left, top, right, bottom, k)] else [])
      && (!rounded ==> Vertex(left, top, right, bottom, k) in Visits(pen, side))
  {
    var pen := PenAt(k, left, top, right, bottom, radiusX, radiusY);
    var next := PenAt(NextCorner(k), left, top, right, bottom, radiusX, radiusY);
    var side := OutlineSide(k, left, top, right, bottom, radiusX, radiusY, rounded);
    var start := Point(right, top + radiusY);
    var widthMinusCorners := right - left - 2.0 * radiusX;
    var heightMinusCorners := bottom - top - 2.0 * radiusY;
    match k
    case TopRight =>
      assert pen == Pen(start, start) && next == Pen(Point(left + radiusX, top), start);
      assert Vertex(left, top, right, bottom, k) == Point(right, top);
      assert side == SideCmds(rounded, 0.0, -radiusY, -radiusX, 0.0, -widthMinusCorners, 0.0);
      SideWalk(pen, rounded, 0.0, -radiusY, -radiusX, 0.0, -widthMinusCorners, 0.0);
    case TopLeft =>
      assert pen == Pen(Point(left + radiusX, top), start) && next == Pen(Point(left, bottom - radiusY), start);
      assert Vertex(left, top, right, bottom, k) == Point(left, top);
      assert side == SideCmds(rounded, -radiusX, 0.0, 0.0, radiusY, 0.0, heightMinusCorners);
      SideWalk(pen, rounded, -radiusX, 0.0, 0.0, radiusY, 0.0, heightMinusCorners);
    case BottomLeft =>
      assert pen == Pen(Point(left, bottom - radiusY), start) && next == Pen(Point(right - radiusX, bottom), start);
      assert Vertex(left, top, right, bottom, k) == Point(left, bottom);
      assert side == SideCmds(rounded, 0.0, radiusY, radiusX, 0.0, widthMinusCorners, 0.0);
      SideWalk(pen, rounded, 0.0, radiusY, radiusX, 0.0, widthMinusCorners, 0.0);
    case BottomRight =>
      assert pen == Pen(Point(right - radiusX, bottom), start) && next == Pen(start, start);
      assert Vertex(left, top, right, bottom, k) == Point(right, bottom);
      assert side == SideCmds(rounded, radiusX, 0.0, 0.0, -radiusY, 0.0, -heightMinusCorners);
      SideWalk(pen, rounded, radiusX, 0.0, 0.0, -radiusY, 0.0, -heightMinusCorners);
  }

  /** The four parts of the walk, one after the other, from the top-right corner back to it. */
  lemma OutlineWalk(left: real, top: real, right: real, bottom: real,
                    radiusX: real, radiusY: real, c: Corners, pen: Pen)
    ensures var m := [MoveTo(right, top + radiusY)];
      var s1 := OutlineSide(TopRight, left, top, right, bottom, radiusX, radiusY, c.topRight);
      var s2 := OutlineSide(TopLeft, left, top, right, bottom, radiusX, radiusY, c.topLeft);
      var s3 := OutlineSide(BottomLeft, left, top, right, bottom, radiusX, radiusY, c.bottomLeft);
      var s4 := OutlineSide(BottomRight, left, top, right, bottom, radiusX, radiusY, c.bottomRight);
      var walk := m + s1 + s2 + s3 + s4;
      && Trace(pen, walk) == PenAt(TopRight, left, top, right, bottom, radiusX, radiusY)
      && Controls(pen, walk) == RoundedVertices(left, top, right, bottom, c)
      && Visits(pen, walk)
         == Visits(pen, m)
          + Visits(PenAt(TopRight, left, top, right, bottom, radiusX, radiusY), s1)
          + Visits(PenAt(TopLeft, left, top, right, bottom, radiusX, radiusY), s2)
          + Visits(PenAt(BottomLeft, left, top, right, bottom, radiusX, radiusY), s3)
          + Visits(PenAt(BottomRight, left, top, right, bottom, radiusX, radiusY), s4)
  {
    var m := [MoveTo(right, top + radiusY)];
    var s1 := OutlineSide(TopRight, left, top, right, bottom, radiusX, radiusY, c.topRight);
    var s2 := OutlineSide(TopLeft, left, top, right, bottom, radiusX, radiusY, c.topLeft);
    var s3 := OutlineSide(BottomLeft, left, top, right, bottom, radiusX, radiusY, c.bottomLeft);
    var s4 := OutlineSide(BottomRight, left, top, right, bottom, radiusX, radiusY, c.bottomRight);
    var p0 := PenAt(TopRight, left, top, right, bottom, radiusX, radiusY);
    var p1 := PenAt(TopLeft, left, top, right, bottom, radiusX, radiusY);
    var p2 := PenAt(BottomLeft, left, top, right, bottom, radiusX, radiusY);
    var p3 := PenAt(BottomRight, left, top, right, bottom, radiusX, radiusY);
    assert m[1..] == [];
    assert Trace(pen, m) == p0;
    assert Controls(pen, m) == [];
    OutlineSideWalk(TopRight, left, top, right, bottom, radiusX, radiusY, c.topRight);
    OutlineSideWalk(TopLeft, left, top, right, bottom, radiusX, radiusY, c.topLeft);
    OutlineSideWalk(BottomLeft, left, top, right, bottom, radiusX, radiusY, c.bottomLeft);
    OutlineSideWalk(BottomRight, left, top, right, bottom, radiusX, radiusY, c.bottomRight);
    WalkFive(pen, m, s1, s2, s3, s4, p0, p1, p2, p3);
    assert Controls(pen, m) + Controls(p0, s1) == Controls(p0, s1);
  }

  /**
   * roundedRect's outline starts with a move to (right, top + ry), ends
   * with close(), and its relative steps bring the pen back to the start
   * before the close, for any radii.
   */
  lemma OutlineCloses(left: real, top: real, right: real, bottom: real,
                      radiusX: real, radiusY: real, c: Corners, pen: Pen)
    ensures var cmds := OutlineCmds(left, top, right, bottom, radiusX, radiusY, c);
      var start := Point(right, top + radiusY);
      && |cmds| >= 2 && cmds[0] == MoveTo(start.x, start.y) && cmds[|cmds| - 1] == Close
      && Trace(pen, cmds[..|cmds| - 1]) == Pen(start, start)
  {
    var m := [MoveTo(right, top + radiusY)];
    var s1 := OutlineSide(TopRight, left, top, right, bottom, radiusX, radiusY, c.topRight);
    var s2 := OutlineSide(TopLeft, left, top, right, bottom, radiusX, radiusY, c.topLeft);
    var s3 := OutlineSide(BottomLeft, left, top, right, bottom, radiusX, radiusY, c.bottomLeft);
    var s4 := OutlineSide(BottomRight, left, top, right, bottom, radiusX, radiusY, c.bottomRight);
    var walk := m + s1 + s2 + s3 + s4;
    var cmds := walk + [Close];
    assert cmds == OutlineCmds(left, top, right, bottom, radiusX, radiusY, c);
    assert cmds[..|cmds| - 1] == walk;
    assert cmds[0] == walk[0] == m[0];
    OutlineWalk(left, top, right, bottom, radiusX, radiusY, c, pen);
  }

  /**
   * Every rounded corner of the outline is one curve whose control point is
   * the corner's vertex, and there are no other curves; the pen passes
   * through the vertex of every sharp corner. This holds for any radii.
   */
  lemma OutlineCorners(left: real, top: real, right: real, bottom: real,
                       radiusX: real, radiusY: real, c: Corners, pen: Pen)
    ensures Controls(pen, OutlineCmds(left, top, right, bottom, radiusX, radiusY, c))
         == RoundedVertices(left, top, right, bottom, c)
    ensures forall k :: !c.Has(k) ==>
      Vertex(left, top, right, bottom, k) in Visits(pen, OutlineCmds(left, top, right, bottom, radiusX, radiusY, c))
  {
    var m := [MoveTo(right, top + radiusY)];
    var s1 := OutlineSide(TopRight, left, top, right, bottom, radiusX, radiusY, c.topRight);
    var s2 := OutlineSide(TopLeft, left, top, right, bottom, radiusX, radiusY, c.topLeft);
    var s3 := OutlineSide(BottomLeft, left, top, right, bottom, radiusX, radiusY, c.bottomLeft);
    var s4 := OutlineSide(BottomRight, left, top, right, bottom, radiusX, radiusY, c.bottomRight);
    var walk := m + s1 + s2 + s3 + s4;
    assert walk + [Close] == OutlineCmds(left, top, right, bottom, radiusX, radiusY, c);
    OutlineWalk(left, top, right, bottom, radiusX, radiusY, c, pen);
    var p0 := PenAt(TopRight, left, top, right, bottom, radiusX, radiusY);
    WalkAppend(pen, walk, [Close]);
    assert [Close][1..] == [];
    assert Controls(p0, [Close]) == [];
    forall k | !c.Has(k)
      ensures Vertex(left, top, right, bottom, k) in Visits(pen, walk)
    {
      OutlineSideWalk(k, left, top, right, bottom, radiusX, radiusY, false);
    }
  }

  /** With every corner sharp the outline has no curve at all: four straight sides. */
  lemma SharpRectangle(left: real, top: real, right: real, bottom: real, rx: real, ry: real)
    ensures var cmds := RoundedRectCmds(left, top, right, bottom, rx, ry, NoCorners);
      forall i :: 0 <= i < |cmds| ==> !cmds[i].RQuadTo?
  {
    var pen := Pen(Point(0.0, 0.0), Point(0.0, 0.0));
    var cmds := RoundedRectCmds(left, top, right, bottom, rx, ry, NoCorners);
    OutlineCorners(left, top, right, bottom, ClampRadius(rx, right - left), ClampRadius(ry, bottom - top),
                   NoCorners, pen);
    NoControlsNoCurves(pen, cmds);
  }

  /**
   * The radii are clamped before use: every rx, ry yields the same outline
   * as its clamped value (over the limit it is the limit; negative is 0).
   */
  lemma RoundedRectClamped(left: real, top: real, right: real, bottom: real,
                           rx: real, ry: real, c: Corners)
    ensures RoundedRectCmds(left, top, right, bottom, rx, ry, c)
         == RoundedRectCmds(left, top, right, bottom,
                            ClampRadius(rx, right - left), ClampRadius(ry, bottom - top), c)
  {
    ClampRadiusBounds(rx, right - left);
    ClampRadiusBounds(ry, bottom - top);
  }

  /** Reversing the mask turns the fill rule to its other side and changes nothing else. */
  lemma ReverseMaskTogglesFill(reverseMask: bool)
    ensures FillFor(!reverseMask) == FillFor(reverseMask).Toggled()
  {
  }
}
