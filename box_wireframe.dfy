/** The simulation-box wireframe of `drawSimulationBoxTask`: a pen path over
    the corners of the parallelepiped spanned by the three cell rows a, b, c,
    and the lower-triangular cell that `run_single` builds from the box. */
module BoxWireframe {
  import opened Geometry

  /** One command given to the line-segment builder. */
  datatype PenCmd = MoveTo(p: Vec3) | DrawTo(p: Vec3)

  /** A drawn line from one point to another. */
  datatype Segment = Segment(from: Vec3, to: Vec3)

  /** A corner of the parallelepiped, named by which cell rows it adds up. */
  datatype Corner = Corner(a: bool, b: bool, c: bool)

  /** The point of corner `v`: the sum of the cell rows it names. */
  function At(a: Vec3, b: Vec3, c: Vec3, v: Corner): Vec3
  {
    Add(Add(if v.a then a else Zero, if v.b then b else Zero), if v.c then c else Zero)
  }

  /** The walks in corner terms, as pairs (draws a line?, corner reached).
      The bottom face: 0, a, a+b, b and back to 0. */
  const BottomWalk: seq<(bool, Corner)> := [
    (false, Corner(false, false, false)), (true, Corner(true, false, false)),
    (true, Corner(true, true, false)), (true, Corner(false, true, false)),
    (true, Corner(false, false, false))]

  /** The support sides: c drawn from each of 0, a, b, a+b. */
  const SideWalk: seq<(bool, Corner)> := [
    (false, Corner(false, false, false)), (true, Corner(false, false, true)),
    (false, Corner(true, false, false)), (true, Corner(true, false, true)),
    (false, Corner(false, true, false)), (true, Corner(false, true, true)),
    (false, Corner(true, true, false)), (true, Corner(true, true, true))]

  /** The top face: the bottom face walked from c. */
  const TopWalk: seq<(bool, Corner)> := [
    (false, Corner(false, false, true)), (true, Corner(true, false, true)),
    (true, Corner(true, true, true)), (true, Corner(false, true, true)),
    (true, Corner(false, false, true))]

  const CornerPath: seq<(bool, Corner)> := BottomWalk + SideWalk + TopWalk

  /** The pen command of one step of a corner walk for cell rows a, b, c. */
  function Cmd(step: (bool, Corner), a: Vec3, b: Vec3, c: Vec3): PenCmd
  {
    if step.0 then DrawTo(At(a, b, c, step.1)) else MoveTo(At(a, b, c, step.1))
  }

  /** The pen commands of a corner walk for cell rows a, b, c. */
  function Render(walk: seq<(bool, Corner)>, a: Vec3, b: Vec3, c: Vec3): seq<PenCmd>
  {
    seq(|walk|, i requires 0 <= i < |walk| => Cmd(walk[i], a, b, c))
  }

  /** Rendering two walks one after the other renders each of them. */
  lemma RenderAppend(p: seq<(bool, Corner)>, q: seq<(bool, Corner)>, a: Vec3, b: Vec3, c: Vec3)
    ensures Render(p + q, a, b, c) == Render(p, a, b, c) + Render(q, a, b, c)
  {
    var r, s := Render(p + q, a, b, c), Render(p, a, b, c) + Render(q, a, b, c);
    assert |r| == |s|;
    forall i | 0 <= i < |r| ensures r[i] == s[i] {
      if i < |p| {
        assert (p + q)[i] == p[i];
      } else {
        assert (p + q)[i] == q[i - |p|];
      }
    }
  }

  /** The pen path of the wireframe for cell rows a, b, c. */
  function BoxPath(a: Vec3, b: Vec3, c: Vec3): seq<PenCmd>
  {
    Render(CornerPath, a, b, c)
  }

  /** The line segments a pen path draws, starting with the pen at `pen`. */
  function Segments(path: seq<PenCmd>, pen: Vec3): seq<Segment>
  {
    if |path| == 0 then []
    else match path[0]
      case MoveTo(p) => Segments(path[1..], p)
      case DrawTo(p) => [Segment(pen, p)] + Segments(path[1..], p)
  }

  /** The same walk on corners: the edges (pairs of corners) it draws. */
  function CornerEdges(walk: seq<(bool, Corner)>, pen: Corner): seq<(Corner, Corner)>
  {
    if |walk| == 0 then []
    else (if walk[0].0 then [(pen, walk[0].1)] else []) + CornerEdges(walk[1..], walk[0].1)
  }

  /** Drawing two walks one after the other draws the edges of both. */
  lemma {:induction false} CornerEdgesAppend(p: seq<(bool, Corner)>, q: seq<(bool, Corner)>, pen: Corner)
    requires |p| > 0
    ensures CornerEdges(p + q, pen) == CornerEdges(p, pen) + CornerEdges(q, p[|p| - 1].1)
  {
    assert (p + q)[1..] == p[1..] + q;
    if |p| > 1 {
      CornerEdgesAppend(p[1..], q, p[0].1);
    }
  }

  /** Two corners are the ends of one edge when they differ in exactly one cell row. */
  predicate Adjacent(u: Corner, v: Corner)
  {
    (if u.a != v.a then 1 else 0) + (if u.b != v.b then 1 else 0) + (if u.c != v.c then 1 else 0) == 1
  }

  predicate SameEdge(e: (Corner, Corner), u: Corner, v: Corner)
  {
    (e.0 == u && e.1 == v) || (e.0 == v && e.1 == u)
  }

  /** The corner edges the wireframe draws, in drawing order. */
  const WalkEdges: seq<(Corner, Corner)> := [
    (Corner(false, false, false), Corner(true, false, false)), (Corner(true, false, false), Corner(true, true, false)),
    (Corner(true, true, false), Corner(false, true, false)), (Corner(false, true, false), Corner(false, false, false)),
    (Corner(false, false, false), Corner(false, false, true)), (Corner(true, false, false), Corner(true, false, true)),
    (Corner(false, true, false), Corner(false, true, true)), (Corner(true, true, false), Corner(true, true, true)),
    (Corner(false, false, true), Corner(true, false, true)), (Corner(true, false, true), Corner(true, true, true)),
    (Corner(true, true, true), Corner(false, true, true)), (Corner(false, true, true), Corner(false, false, true))]

  /** The three walks of the wireframe draw WalkEdges. */
  lemma WalkDrawsWalkEdges()
    ensures CornerEdges(CornerPath, Corner(false, false, false)) == WalkEdges
  {
    var o := Corner(false, false, false);
    CornerEdgesAppend(BottomWalk, SideWalk, o);
    CornerEdgesAppend(BottomWalk + SideWalk, TopWalk, o);
    assert (BottomWalk + SideWalk)[|BottomWalk + SideWalk| - 1] == SideWalk[7];
    assert CornerEdges(BottomWalk, o) == WalkEdges[..4];
    assert CornerEdges(SideWalk, o) == WalkEdges[4..8];
    assert CornerEdges(TopWalk, Corner(true, true, true)) == WalkEdges[8..];
  }

  /** The wireframe draws 12 lines, each an edge of the parallelepiped, no
      edge twice; with WalkCoversEveryEdge, every edge exactly once. */
  lemma WalkEdgesAreDistinctEdges()
    ensures |CornerEdges(CornerPath, Corner(false, false, false))| == 12
    ensures var es := CornerEdges(CornerPath, Corner(false, false, false));
      && (forall k :: 0 <= k < |es| ==> Adjacent(es[k].0, es[k].1))
      && (forall k, m :: 0 <= k < m < |es| ==> !SameEdge(es[m], es[k].0, es[k].1))
  {
    WalkDrawsWalkEdges();
  }

  /** Every edge of the parallelepiped is drawn by the wireframe. */
  lemma WalkCoversEveryEdge(u: Corner, v: Corner)
    requires Adjacent(u, v)
    ensures var es := CornerEdges(CornerPath, Corner(false, false, false));
      exists k :: 0 <= k < |es| && SameEdge(es[k], u, v)
  {
    WalkDrawsWalkEdges();
    var k := EdgeIndex(u, v);
    assert SameEdge(WalkEdges[k], u, v);
  }

  /** The position of the edge {u, v} in the walk. */
  function EdgeIndex(u: Corner, v: Corner): nat
    requires Adjacent(u, v)
  {
    var lo := if u.a || (u.a == v.a && u.b && !v.b) || (u.a == v.a && u.b == v.b && u.c && !v.c) then v else u;
    var hi := if lo == u then v else u;
    if lo.c != hi.c then (if lo.a then (if lo.b then 7 else 5) else (if lo.b then 6 else 4))
    else if lo.c then
      (if lo.a != hi.a then (if lo.b then 10 else 8) else (if lo.a then 9 else 11))
    else
      (if lo.a != hi.a then (if lo.b then 2 else 0) else (if lo.a then 1 else 3))
  }

  /** The bottom face visits 0, a, a+b, b and comes back to 0. */
  lemma BottomFace(a: Vec3, b: Vec3, c: Vec3)
    ensures Render(BottomWalk, a, b, c) ==
      [MoveTo(Zero), DrawTo(a), DrawTo(Add(a, b)), DrawTo(b), DrawTo(Zero)]
  {
  }

  /** The four support sides are the vector c drawn from 0, a, b and a+b. */
  lemma SupportSides(a: Vec3, b: Vec3, c: Vec3)
    ensures Render(SideWalk, a, b, c) ==
      [MoveTo(Zero), DrawTo(c), MoveTo(a), DrawTo(Add(a, c)),
       MoveTo(b), DrawTo(Add(b, c)), MoveTo(Add(a, b)), DrawTo(Add(Add(a, b), c))]
  {
  }

  /** `cmd` moved by the vector `d`. */
  function Shift(cmd: PenCmd, d: Vec3): PenCmd
  {
    match cmd
    case MoveTo(p) => MoveTo(Add(p, d))
    case DrawTo(p) => DrawTo(Add(p, d))
  }

  /** A corner on the c side is its bottom corner moved by c. */
  lemma AtTop(a: Vec3, b: Vec3, c: Vec3, v: Corner)
    ensures At(a, b, c, Corner(v.a, v.b, true)) == Add(At(a, b, c, Corner(v.a, v.b, false)), c)
  {
  }

  /** The top face is the bottom face shifted by c. */
  lemma TopFaceIsShiftedBottom(a: Vec3, b: Vec3, c: Vec3)
    ensures var bottom, top := Render(BottomWalk, a, b, c), Render(TopWalk, a, b, c);
      |top| == |bottom| && forall n :: 0 <= n < |top| ==> top[n] == Shift(bottom[n], c)
  {
    var bottom, top := Render(BottomWalk, a, b, c), Render(TopWalk, a, b, c);
    forall n | 0 <= n < |top| ensures top[n] == Shift(bottom[n], c) {
      var v := BottomWalk[n].1;
      assert TopWalk[n] == (BottomWalk[n].0, Corner(v.a, v.b, true));
      AtTop(a, b, c, v);
    }
  }

  /** The segments of a rendered walk are its corner edges placed at their points. */
  function Place(es: seq<(Corner, Corner)>, a: Vec3, b: Vec3, c: Vec3): seq<Segment>
  {
    if |es| == 0 then [] else [Segment(At(a, b, c, es[0].0), At(a, b, c, es[0].1))] + Place(es[1..], a, b, c)
  }

  /** The drawn segments are the walk's corner edges placed at their points. */
  lemma {:induction false} SegmentsFollowCorners(walk: seq<(bool, Corner)>, pen: Corner, a: Vec3, b: Vec3, c: Vec3)
    ensures Segments(Render(walk, a, b, c), At(a, b, c, pen)) == Place(CornerEdges(walk, pen), a, b, c)
  {
    if |walk| > 0 {
      var path := Render(walk, a, b, c);
      var next := At(a, b, c, walk[0].1);
      assert path[1..] == Render(walk[1..], a, b, c);
      SegmentsFollowCorners(walk[1..], walk[0].1, a, b, c);
      var es := CornerEdges(walk[1..], walk[0].1);
      if walk[0].0 {
        assert path[0] == DrawTo(next);
        assert Segments(path, At(a, b, c, pen)) == [Segment(At(a, b, c, pen), next)] + Segments(path[1..], next);
        assert CornerEdges(walk, pen) == [(pen, walk[0].1)] + es;
        assert ([(pen, walk[0].1)] + es)[1..] == es;
      } else {
        assert path[0] == MoveTo(next);
        assert CornerEdges(walk, pen) == es;
      }
    }
  }

  /** Starting with the pen at the origin, the wireframe path draws exactly
      the twelve edges of WalkEdges, in that order, at their points. */
  lemma BoxSegments(a: Vec3, b: Vec3, c: Vec3)
    ensures Segments(BoxPath(a, b, c), Zero) == Place(WalkEdges, a, b, c)
  {
    var o := Corner(false, false, false);
    assert At(a, b, c, o) == Zero;
    SegmentsFollowCorners(CornerPath, o, a, b, c);
    WalkDrawsWalkEdges();
  }

  /** The cell `run_single` builds each step: the box lengths on the diagonal,
      the tilts xy, xz, yz below it and zeros above it. */
  function CellEntry(boxlo: Vec3, boxhi: Vec3, xy: real, yz: real, xz: real, i: nat, j: nat): real
    requires i < 3 && j < 3
  {
    if i == j then (if i == 0 then boxhi.x - boxlo.x else if i == 1 then boxhi.y - boxlo.y else boxhi.z - boxlo.z)
    else if i == 1 && j == 0 then xy
    else if i == 2 && j == 0 then xz
    else if i == 2 && j == 1 then yz
    else 0.0
  }

  /** The determinant of a 3-by-3 matrix given by rows. */
  function Det(a: Vec3, b: Vec3, c: Vec3): real
  {
    a.x * (b.y * c.z - b.z * c.y) - a.y * (b.x * c.z - b.z * c.x) + a.z * (b.x * c.y - b.y * c.x)
  }

  /** The rows of the built cell are the edge vectors of a restricted
      triclinic box, and its volume is lx * ly * lz whatever the tilts. */
  lemma CellIsLowerTriangular(boxlo: Vec3, boxhi: Vec3, xy: real, yz: real, xz: real)
    ensures var row := (i: nat) requires i < 3 =>
        Vec3(CellEntry(boxlo, boxhi, xy, yz, xz, i, 0), CellEntry(boxlo, boxhi, xy, yz, xz, i, 1),
             CellEntry(boxlo, boxhi, xy, yz, xz, i, 2));
      && row(0) == Vec3(boxhi.x - boxlo.x, 0.0, 0.0)
      && row(1) == Vec3(xy, boxhi.y - boxlo.y, 0.0)
      && row(2) == Vec3(xz, yz, boxhi.z - boxlo.z)
      && Det(row(0), row(1), row(2)) == (boxhi.x - boxlo.x) * (boxhi.y - boxlo.y) * (boxhi.z - boxlo.z)
  {
  }
}
