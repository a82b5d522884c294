/** `PandaLabel`, the widget showing the rendered frame: it tracks a left-button
    drag through the optional last position `_last` and hands each drag step
    to the camera, and hands wheel notches to the zoom. */
module Drag {
  import opened Geometry
  import opened Panda

  /** A mouse event as the label sees it; `left` says whether the left button
      is among the buttons held. */
  datatype Event = Press(pos: Point, left: bool) | Move(pos: Point, left: bool) | Release

  /** The drag tracker: the new `_last` and the (dx, dy) the event hands to
      `rotate_camera`, if any. */
  function Next(last: Option<Point>, ev: Event): (r: (Option<Point>, Option<(real, real)>))
    ensures ev.Release? ==> r == (None, None)
    ensures ev.Press? ==> r.1.None? && r.0 == (if ev.left then Some(ev.pos) else last)
    ensures r.1.Some? <==> ev.Move? && ev.left && last.Some?
    ensures r.1.Some? ==> r.0 == Some(ev.pos) && r.1.value == (ev.pos.x - last.value.x, ev.pos.y - last.value.y)
    ensures ev.Move? && r.1.None? ==> r.0 == last
  {
    match ev
    case Press(pos, left) => (if left then Some(pos) else last, None)
    case Move(pos, left) =>
      if last.Some? && left then (Some(pos), Some((pos.x - last.value.x, pos.y - last.value.y)))
      else (last, None)
    case Release => (None, None)
  }

  /** The deltas handed to the camera over a run of events. */
  function Forwarded(last: Option<Point>, evs: seq<Event>): seq<(real, real)>
    decreases |evs|
  {
    if |evs| == 0 then []
    else
      var (l, d) := Next(last, evs[0]);
      (if d.Some? then [d.value] else []) + Forwarded(l, evs[1..])
  }

  /** `_last` after a run of events. */
  function LastAfter(last: Option<Point>, evs: seq<Event>): Option<Point>
    decreases |evs|
  {
    if |evs| == 0 then last else LastAfter(Next(last, evs[0]).0, evs[1..])
  }

  /** Moves to each of `ps` with the left button held. */
  function LeftMoves(ps: seq<Point>): (r: seq<Event>)
    ensures |r| == |ps| && forall i :: 0 <= i < |ps| ==> r[i] == Move(ps[i], true)
  {
    seq(|ps|, i requires 0 <= i < |ps| => Move(ps[i], true))
  }

  function SumX(ds: seq<(real, real)>): real
  {
    if |ds| == 0 then 0.0 else SumX(ds[..|ds| - 1]) + ds[|ds| - 1].0
  }

  function SumY(ds: seq<(real, real)>): real
  {
    if |ds| == 0 then 0.0 else SumY(ds[..|ds| - 1]) + ds[|ds| - 1].1
  }

  /** The heading after `rotate_camera` has been handed each delta in turn. */
  function HeadingAfter(h: real, ds: seq<(real, real)>): real
  {
    if |ds| == 0 then h else HeadingAfter(h, ds[..|ds| - 1]) - ds[|ds| - 1].0 * 0.2
  }

  /** While a position is recorded, every left move is forwarded, and the
      forwarded deltas telescope: they add up to the last position minus the
      one recorded at the start. */
  lemma {:induction false} MovesTelescope(start: Point, ps: seq<Point>)
    ensures |Forwarded(Some(start), LeftMoves(ps))| == |ps|
    ensures LastAfter(Some(start), LeftMoves(ps)) == Some(if |ps| == 0 then start else ps[|ps| - 1])
    ensures SumX(Forwarded(Some(start), LeftMoves(ps))) == (if |ps| == 0 then 0.0 else ps[|ps| - 1].x - start.x)
    ensures SumY(Forwarded(Some(start), LeftMoves(ps))) == (if |ps| == 0 then 0.0 else ps[|ps| - 1].y - start.y)
    decreases |ps|
  {
    if |ps| > 0 {
      var evs := LeftMoves(ps);
      var d := (ps[0].x - start.x, ps[0].y - start.y);
      assert evs[1..] == LeftMoves(ps[1..]);
      MovesTelescope(ps[0], ps[1..]);
      var rest := Forwarded(Some(ps[0]), LeftMoves(ps[1..]));
      assert Forwarded(Some(start), evs) == [d] + rest;
      SumsOfCons(d, rest);
    }
  }

  /** Sums taken from the back agree with prepending one delta. */
  lemma {:induction false} SumsOfCons(d: (real, real), ds: seq<(real, real)>)
    ensures SumX([d] + ds) == d.0 + SumX(ds)
    ensures SumY([d] + ds) == d.1 + SumY(ds)
    decreases |ds|
  {
    if |ds| > 0 {
      var init := ds[..|ds| - 1];
      assert ([d] + ds)[..|ds|] == [d] + init;
      SumsOfCons(d, init);
    }
  }

  /** The heading after the deltas is the starting heading minus 0.2 times
      their x sum. */
  lemma {:induction false} HeadingIsLinear(h: real, ds: seq<(real, real)>)
    ensures HeadingAfter(h, ds) == h - 0.2 * SumX(ds)
    decreases |ds|
  {
    if |ds| > 0 {
      HeadingIsLinear(h, ds[..|ds| - 1]);
    }
  }

  /** Over one left drag (press, then left moves, no release), the camera
      heading turns by -0.2 times the total horizontal travel of the mouse,
      however the drag was cut into move events. */
  lemma DragHeading(h: real, press: Point, ps: seq<Point>)
    ensures var ds := Forwarded(None, [Press(press, true)] + LeftMoves(ps));
      HeadingAfter(h, ds) == h - 0.2 * (if |ps| == 0 then 0.0 else ps[|ps| - 1].x - press.x)
  {
    var evs := [Press(press, true)] + LeftMoves(ps);
    assert evs[1..] == LeftMoves(ps);
    assert Forwarded(None, evs) == Forwarded(Some(press), LeftMoves(ps));
    MovesTelescope(press, ps);
    HeadingIsLinear(h, Forwarded(Some(press), LeftMoves(ps)));
  }

  /** After a release, moves forward nothing until the next left press. */
  lemma {:induction false} ReleasedMovesForwardNothing(evs: seq<Event>)
    requires forall i :: 0 <= i < |evs| ==> !evs[i].Press?
    ensures Forwarded(None, evs) == [] && LastAfter(None, evs) == None
    decreases |evs|
  {
    if |evs| > 0 {
      ReleasedMovesForwardNothing(evs[1..]);
    }
  }

  /** Whether the recorded position passes `if self._last`: Python treats
      None as false and PyQt treats a QPointF whose coordinates are both zero
      as false too. */
  predicate Truthy(last: Option<Point>)
  {
    last.Some? && !(last.value.x == 0.0 && last.value.y == 0.0)
  }

  /** `mouseMoveEvent` as written, with the truth test on `_last`. */
  function NextAsWritten(last: Option<Point>, ev: Event): (r: (Option<Point>, Option<(real, real)>))
    ensures ev.Move? && ev.left && last == Some(Point(0.0, 0.0)) ==> r == (last, None)
    ensures !(ev.Move? && last == Some(Point(0.0, 0.0))) ==> r == Next(last, ev)
  {
    match ev
    case Move(pos, left) =>
      if Truthy(last) && left then (Some(pos), Some((pos.x - last.value.x, pos.y - last.value.y)))
      else (last, None)
    case _ => Next(last, ev)
  }

  /** A left drag that starts exactly at the widget's origin never turns the
      camera as written: the recorded point tests false, so no move is
      forwarded and the recorded point never changes; with the None test the
      same drag is forwarded. */
  lemma OriginDragIsLost(ps: seq<Point>)
    requires |ps| > 0 && ps[0] != Point(0.0, 0.0)
    ensures var l := NextAsWritten(None, Press(Point(0.0, 0.0), true)).0;
      && l == Some(Point(0.0, 0.0))
      && (forall i :: 0 <= i < |ps| ==> NextAsWritten(l, Move(ps[i], true)) == (l, None))
      && Next(l, Move(ps[0], true)).1 == Some((ps[0].x, ps[0].y))
  {
  }

  /** The label over the panda view. `_last` follows Next; the class uses the
      None test, not the truth test of the code as written. */
  class PandaLabel {
    const panda: OffscreenPanda
    var last: Option<Point>

    constructor(panda: OffscreenPanda)
      ensures this.panda == panda && last == None
    {
      this.panda := panda;
      last := None;
    }

    /** `mousePressEvent`: a press with the left button records its position. */
    method MousePress(pos: Point, left: bool)
      modifies this`last
      ensures last == Next(old(last), Press(pos, left)).0
      ensures left ==> last == Some(pos)
      ensures !left ==> last == old(last)
    {
      if left {
        last := Some(pos);
      }
    }

    /** `mouseMoveEvent`: a left move with a recorded position turns the camera
        by the travel since that position and records the new one. */
    method MouseMove(pos: Point, left: bool)
      modifies this`last, panda`pivotH, panda`pivotP, panda`pivotR
      ensures last == Next(old(last), Move(pos, left)).0
      ensures var d := Next(old(last), Move(pos, left)).1;
        && (d.None? ==> unchanged(panda))
        && (d.Some? ==> && panda.pivotH == old(panda.pivotH) - d.value.0 * 0.2
                        && panda.pivotP == ClampPitch(old(panda.pivotP) + d.value.1 * 0.2)
                        && panda.pivotR == 0.0)
    {
      if last.Some? && left {
        var dx := pos.x - last.value.x;
        var dy := pos.y - last.value.y;
        panda.RotateCamera(dx, dy);
        last := Some(pos);
      }
    }

    /** `mouseReleaseEvent`: any release forgets the recorded position. */
    method MouseRelease()
      modifies this`last
      ensures last == None
    {
      last := None;
    }

    /** `wheelEvent`: one notch (120 units of angle delta) zooms by one. */
    method Wheel(angleDeltaY: int)
      modifies panda`camDistance, panda`camY
      ensures panda.camDistance == old(panda.camDistance) - angleDeltaY as real / 120.0
      ensures panda.camY == -panda.camDistance
    {
      panda.ZoomCamera(angleDeltaY as real / 120.0);
    }
  }
}
