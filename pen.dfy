/** The pen tool component: a polygon editor whose finished polygons and
    in-progress vertices are two state cells, changed by canvas clicks,
    vertex drags, edge clicks, polygon-body clicks and the tool-change
    effect. Each handler is a transition function on `ToolState`; the class
    `PenTool` holds the two cells and runs the handlers in place. */
module Pen {
  import opened Shapes

  /** Distance below which a click closes the polygon. */
  const CloseThreshold: int := 15

  /** Whether a click at `pointer` lies strictly within the threshold of
      the first vertex (which must exist). */
  predicate CloseToFirstPoint(pointer: Point, points: seq<Point>)
    requires |points| > 0
  {
    Near(pointer, points[0], CloseThreshold)
  }

  /** The closing condition of a canvas click. */
  predicate Closes(s: ToolState, pointer: Point)
  {
    |s.currentPolygon| > 2 && CloseToFirstPoint(pointer, s.currentPolygon)
  }

  /** A click on the canvas: only a stage click with the pen active and a
      known pointer position does anything; it closes the polygon in
      progress or appends the pointer position to it. */
  function CanvasClick(s: ToolState, activeTool: string, targetIsStage: bool, pointer: Option<Point>): ToolState
  {
    if targetIsStage && activeTool == PenToolName && pointer.Some? then
      if Closes(s, pointer.value) then ClosedCurrent(s) else WithPoint(s, pointer.value)
    else s
  }

  /** What a drag handler needs so as not to fail or leave holes: with the
      pen active, `polygonIndex` is a finished polygon or the sentinel
      `|polygons|`, and on a finished polygon `pointIndex` is at most one
      past its last vertex. */
  predicate DragTargetValid(s: ToolState, activeTool: string, pointIndex: int, polygonIndex: nat)
  {
    activeTool == PenToolName ==>
      polygonIndex <= |s.polygons| &&
      (polygonIndex < |s.polygons| ==> pointIndex <= |s.polygons[polygonIndex].points|)
  }

  /** Assigning `p` to element `i` of an array copy: an index into the
      array replaces that element, the index one past the end appends, and
      a negative index names no element, so the elements stay as they are. */
  function StoreAt(points: seq<Point>, i: int, p: Point): (r: seq<Point>)
    requires i <= |points|
    ensures |r| == if i == |points| then |points| + 1 else |points|
    ensures 0 <= i ==> r[i] == p
    ensures forall m :: 0 <= m < |points| && m != i ==> r[m] == points[m]
    ensures i < 0 ==> r == points
  {
    if i < 0 then points
    else if i < |points| then points[i := p]
    else points + [p]
  }

  /** Dragging vertex `pointIndex` of polygon `polygonIndex` (the sentinel
      `|polygons|` names the polygon in progress) to `pos`. */
  function DragMove(s: ToolState, activeTool: string, pointIndex: int, polygonIndex: nat, pos: Point): ToolState
    requires DragTargetValid(s, activeTool, pointIndex, polygonIndex)
  {
    if activeTool != PenToolName then s
    else if polygonIndex == |s.polygons| then
      ToolState(s.polygons, Replace(s.currentPolygon, pointIndex, pos))
    else
      var q := s.polygons[polygonIndex];
      ToolState(s.polygons[polygonIndex := q.(points := StoreAt(q.points, pointIndex, pos))], s.currentPolygon)
  }

  /** Inserting `p` into a copy of `points` at index `start`, as an array
      splice that removes nothing does: a start beyond the end inserts at the
      end. */
  function Splice(points: seq<Point>, start: nat, p: Point): (r: seq<Point>)
    ensures |r| == |points| + 1
    ensures var k := if start <= |points| then start else |points|;
      r[k] == p && r[..k] == points[..k] && r[k + 1..] == points[k..]
  {
    var k := if start <= |points| then start else |points|;
    points[..k] + [p] + points[k..]
  }

  /** Clicking the edge that starts at vertex `pointIndex` of finished
      polygon `polygonIndex` inserts the pointer position after that vertex. */
  function LineClick(s: ToolState, activeTool: string, pointIndex: nat, polygonIndex: int, pointer: Option<Point>): ToolState
  {
    if activeTool != PenToolName || pointer.None? || !(0 <= polygonIndex < |s.polygons|) then s
    else
      var q := s.polygons[polygonIndex];
      ToolState(Replace(s.polygons, polygonIndex, q.(points := Splice(q.points, pointIndex + 1, pointer.value))),
                s.currentPolygon)
  }

  /** The edges the component offers as click targets: the one from vertex
      `pointIndex` to vertex `pointIndex + 1`, for every vertex but the last. */
  predicate OffersEdge(points: seq<Point>, pointIndex: nat)
  {
    pointIndex < |points| - 1
  }

  /** A click on a polygon's body is re-sent as a stage click at the
      pointer position. */
  function PolygonClick(s: ToolState, activeTool: string, pointer: Option<Point>): ToolState
  {
    if activeTool == PenToolName && pointer.Some? then CanvasClick(s, activeTool, true, pointer) else s
  }

  /** The effect run when the tool changes: leaving the pen discards the
      polygon in progress. */
  function Deactivate(s: ToolState, activeTool: string): ToolState
  {
    if activeTool != PenToolName && |s.currentPolygon| > 0 then ToolState(s.polygons, []) else s
  }

  /** The coordinates in drawing order, x before y, as the line primitive
      takes them; built left to right, one vertex at a time. */
  function FlattenedPoints(points: seq<Point>): (r: seq<int>)
    ensures |r| == 2 * |points|
    ensures forall i :: 0 <= i < |points| ==> r[2 * i] == points[i].x && r[2 * i + 1] == points[i].y
  {
    if points == [] then []
    else
      var init := points[..|points| - 1];
      var last := points[|points| - 1];
      var acc := FlattenedPoints(init);
      assert forall i :: 0 <= i < |init| ==> init[i] == points[i];
      acc + [last.x, last.y]
  }

  /** Stage clicks with the pen active at each position in turn. */
  function ClickRun(s: ToolState, pointers: seq<Point>): ToolState
    decreases |pointers|
  {
    if pointers == [] then s
    else ClickRun(CanvasClick(s, PenToolName, true, Some(pointers[0])), pointers[1..])
  }

  // ---------------------------------------------------------------------
  // Canvas clicks

  /** A click that is not a stage click with the pen active and a pointer
      position changes nothing. */
  lemma CanvasClickGate(s: ToolState, activeTool: string, targetIsStage: bool, pointer: Option<Point>)
    requires activeTool != PenToolName || !targetIsStage || pointer.None?
    ensures CanvasClick(s, activeTool, targetIsStage, pointer) == s
  {
  }

  /** An accepted click either closes the polygon or appends the position;
      it closes exactly when more than two vertices are in progress and the
      squared distance to the first one is below 15 * 15. */
  lemma CanvasClickOutcome(s: ToolState, p: Point)
    ensures var r := CanvasClick(s, PenToolName, true, Some(p));
      if |s.currentPolygon| > 2 && SqDist(p, s.currentPolygon[0]) < 225 then
        r.polygons == s.polygons + [Polygon(s.currentPolygon, true)] && r.currentPolygon == []
      else
        r.polygons == s.polygons && r.currentPolygon == s.currentPolygon + [p]
  {
  }

  /** The state changes under an accepted click, and it grows the finished
      polygons exactly when it closes. */
  lemma CanvasClickClosesIff(s: ToolState, p: Point)
    ensures var r := CanvasClick(s, PenToolName, true, Some(p));
      r != s &&
      (|r.polygons| == |s.polygons| + 1 <==> Closes(s, p)) &&
      (|r.polygons| == |s.polygons| <==> !Closes(s, p))
  {
    var r := CanvasClick(s, PenToolName, true, Some(p));
    if !Closes(s, p) {
      assert |r.currentPolygon| == |s.currentPolygon| + 1;
    }
  }

  /** Canvas clicks keep every finished polygon closed with at least three
      vertices. */
  lemma CanvasClickKeepsInvariant(s: ToolState, activeTool: string, targetIsStage: bool, pointer: Option<Point>)
    requires AllClosed(s.polygons)
    ensures AllClosed(CanvasClick(s, activeTool, targetIsStage, pointer).polygons)
  {
    if targetIsStage && activeTool == PenToolName && pointer.Some? && Closes(s, pointer.value) {
      ClosingKeepsInvariant(s);
    }
  }

  /** Canvas clicks lose and reorder no vertex: an accepted click that does
      not close adds its position at the end, every other click keeps the
      vertex sequence as it was. */
  lemma CanvasClickKeepsVertices(s: ToolState, activeTool: string, targetIsStage: bool, pointer: Option<Point>)
    ensures var r := CanvasClick(s, activeTool, targetIsStage, pointer);
      if targetIsStage && activeTool == PenToolName && pointer.Some? && !Closes(s, pointer.value)
      then AllVertices(r) == AllVertices(s) + [pointer.value]
      else AllVertices(r) == AllVertices(s)
  {
    if targetIsStage && activeTool == PenToolName && pointer.Some? {
      if Closes(s, pointer.value) {
        ClosingKeepsVertices(s);
      } else {
        AppendingKeepsVertices(s, pointer.value);
      }
    }
  }

  /** Any run of clicks keeps every finished polygon closed with at least
      three vertices. */
  lemma {:induction false} ClickRunKeepsInvariant(s: ToolState, pointers: seq<Point>)
    requires AllClosed(s.polygons)
    ensures AllClosed(ClickRun(s, pointers).polygons)
    decreases |pointers|
  {
    if pointers != [] {
      var s' := CanvasClick(s, PenToolName, true, Some(pointers[0]));
      CanvasClickKeepsInvariant(s, PenToolName, true, Some(pointers[0]));
      ClickRunKeepsInvariant(s', pointers[1..]);
    }
  }

  /** Runs compose: clicking `xs` and then `ys` is clicking `xs + ys`. */
  lemma {:induction false} ClickRunAppend(s: ToolState, xs: seq<Point>, ys: seq<Point>)
    ensures ClickRun(ClickRun(s, xs), ys) == ClickRun(s, xs + ys)
    decreases |xs|
  {
    if xs == [] {
      assert xs + ys == ys;
    } else {
      assert (xs + ys)[0] == xs[0];
      assert (xs + ys)[1..] == xs[1..] + ys;
      ClickRunAppend(CanvasClick(s, PenToolName, true, Some(xs[0])), xs[1..], ys);
    }
  }

  /** A run of clicks that never closes appends every position in order. */
  lemma {:induction false} ClickRunWithoutClosing(s: ToolState, pointers: seq<Point>)
    requires |s.currentPolygon| + |pointers| <= 3
    ensures ClickRun(s, pointers) == ToolState(s.polygons, s.currentPolygon + pointers)
    decreases |pointers|
  {
    if pointers != [] {
      var s' := CanvasClick(s, PenToolName, true, Some(pointers[0]));
      assert s' == WithPoint(s, pointers[0]);
      ClickRunWithoutClosing(s', pointers[1..]);
      assert s.currentPolygon + [pointers[0]] + pointers[1..] == s.currentPolygon + pointers;
    }
  }

  // ---------------------------------------------------------------------
  // Dragging

  /** Dragging with another tool active changes nothing. */
  lemma DragMoveGate(s: ToolState, activeTool: string, pointIndex: int, polygonIndex: nat, pos: Point)
    requires activeTool != PenToolName
    ensures DragMove(s, activeTool, pointIndex, polygonIndex, pos) == s
  {
  }

  /** Dragging a vertex of the polygon in progress moves that vertex alone;
      an index that names no vertex changes nothing. */
  lemma DragMoveInProgress(s: ToolState, pointIndex: int, pos: Point)
    ensures var r := DragMove(s, PenToolName, pointIndex, |s.polygons|, pos);
      r.polygons == s.polygons &&
      |r.currentPolygon| == |s.currentPolygon| &&
      (forall k :: 0 <= k < |s.currentPolygon| && k != pointIndex ==> r.currentPolygon[k] == s.currentPolygon[k]) &&
      (0 <= pointIndex < |s.currentPolygon| ==> r.currentPolygon[pointIndex] == pos) &&
      (!(0 <= pointIndex < |s.currentPolygon|) ==> r == s)
  {
  }

  /** Dragging vertex `pointIndex` of a finished polygon makes it the drag
      position: inside the vertex list it replaces that vertex, one past the
      end it is appended, and a negative index changes nothing. The
      polygon's closed flag, every other vertex and polygon, and the polygon
      in progress are kept. */
  lemma DragMoveFinished(s: ToolState, pointIndex: int, polygonIndex: nat, pos: Point)
    requires polygonIndex < |s.polygons| && pointIndex <= |s.polygons[polygonIndex].points|
    ensures var r := DragMove(s, PenToolName, pointIndex, polygonIndex, pos);
      var before, after := s.polygons[polygonIndex], r.polygons[polygonIndex];
      r.currentPolygon == s.currentPolygon &&
      |r.polygons| == |s.polygons| &&
      (forall k :: 0 <= k < |s.polygons| && k != polygonIndex ==> r.polygons[k] == s.polygons[k]) &&
      after.isClosed == before.isClosed &&
      |after.points| == (if pointIndex == |before.points| then |before.points| + 1 else |before.points|) &&
      (0 <= pointIndex ==> after.points[pointIndex] == pos) &&
      (forall m :: 0 <= m < |before.points| && m != pointIndex ==> after.points[m] == before.points[m]) &&
      (pointIndex < 0 ==> r == s)
  {
  }

  /** Dragging never closes a polygon or adds one: the number of finished
      polygons and the length of the polygon in progress are kept, and every
      finished polygon stays closed with at least three vertices. */
  lemma DragMoveNeverCloses(s: ToolState, activeTool: string, pointIndex: int, polygonIndex: nat, pos: Point)
    requires DragTargetValid(s, activeTool, pointIndex, polygonIndex)
    requires AllClosed(s.polygons)
    ensures var r := DragMove(s, activeTool, pointIndex, polygonIndex, pos);
      |r.polygons| == |s.polygons| && |r.currentPolygon| == |s.currentPolygon| && AllClosed(r.polygons)
  {
    var r := DragMove(s, activeTool, pointIndex, polygonIndex, pos);
    if activeTool == PenToolName && polygonIndex < |s.polygons| {
      forall k | 0 <= k < |r.polygons|
        ensures r.polygons[k].isClosed && |r.polygons[k].points| >= 3
      {
        if k == polygonIndex {
          assert |r.polygons[k].points| >= |s.polygons[k].points|;
        }
      }
    }
  }

  // ---------------------------------------------------------------------
  // Edge insertion

  /** An edge click with another tool active, without a pointer position,
      or naming no finished polygon, changes nothing. */
  lemma LineClickGate(s: ToolState, activeTool: string, pointIndex: nat, polygonIndex: int, pointer: Option<Point>)
    requires activeTool != PenToolName || pointer.None? || !(0 <= polygonIndex < |s.polygons|)
    ensures LineClick(s, activeTool, pointIndex, polygonIndex, pointer) == s
  {
  }

  /** Clicking an offered edge puts the pointer position between the edge's
      two endpoints: at `pointIndex + 1`, with the vertices up to
      `pointIndex` in place and the rest shifted by one. The polygon's
      closed flag, every other polygon and the polygon in progress stay. */
  lemma LineClickInsertsOnEdge(s: ToolState, pointIndex: nat, polygonIndex: nat, p: Point)
    requires polygonIndex < |s.polygons| && OffersEdge(s.polygons[polygonIndex].points, pointIndex)
    ensures var r := LineClick(s, PenToolName, pointIndex, polygonIndex, Some(p));
      var before, after := s.polygons[polygonIndex].points, r.polygons[polygonIndex].points;
      r.currentPolygon == s.currentPolygon &&
      |r.polygons| == |s.polygons| &&
      (forall k :: 0 <= k < |s.polygons| && k != polygonIndex ==> r.polygons[k] == s.polygons[k]) &&
      r.polygons[polygonIndex].isClosed == s.polygons[polygonIndex].isClosed &&
      |after| == |before| + 1 &&
      after[pointIndex] == before[pointIndex] &&
      after[pointIndex + 1] == p &&
      after[pointIndex + 2] == before[pointIndex + 1] &&
      after[..pointIndex + 1] == before[..pointIndex + 1] &&
      after[pointIndex + 2..] == before[pointIndex + 1..]
  {
    var r := LineClick(s, PenToolName, pointIndex, polygonIndex, Some(p));
    var before, after := s.polygons[polygonIndex].points, r.polygons[polygonIndex].points;
    assert after == Splice(before, pointIndex + 1, p);
    assert after[pointIndex] == after[..pointIndex + 1][pointIndex];
    assert after[pointIndex + 2] == after[pointIndex + 2..][0];
  }

  /** The edge from the last vertex back to the first is never offered. */
  lemma ClosingEdgeNotOffered(points: seq<Point>)
    requires |points| > 0
    ensures !OffersEdge(points, |points| - 1)
  {
  }

  /** Edge insertion keeps every finished polygon closed with at least
      three vertices. */
  lemma LineClickKeepsInvariant(s: ToolState, activeTool: string, pointIndex: nat, polygonIndex: int, pointer: Option<Point>)
    requires AllClosed(s.polygons)
    ensures var r := LineClick(s, activeTool, pointIndex, polygonIndex, pointer);
      AllClosed(r.polygons) && |r.polygons| == |s.polygons| && r.currentPolygon == s.currentPolygon
  {
  }

  // ---------------------------------------------------------------------
  // Polygon-body clicks, the tool-change effect

  /** A click on a polygon's body is handled exactly like a stage click. */
  lemma PolygonClickIsCanvasClick(s: ToolState, activeTool: string, pointer: Option<Point>)
    ensures PolygonClick(s, activeTool, pointer) == CanvasClick(s, activeTool, true, pointer)
  {
  }

  /** Leaving the pen empties the polygon in progress and keeps the
      finished ones; with the pen active nothing changes; the effect is
      idempotent. */
  lemma DeactivateClears(s: ToolState, activeTool: string)
    ensures activeTool != PenToolName ==> Deactivate(s, activeTool) == ToolState(s.polygons, [])
    ensures activeTool == PenToolName ==> Deactivate(s, activeTool) == s
    ensures Deactivate(Deactivate(s, activeTool), activeTool) == Deactivate(s, activeTool)
  {
  }

  // ---------------------------------------------------------------------
  // Worked examples

  /** Three vertices, then a click near the first one, closes a triangle. */
  lemma ClosingATriangle()
    ensures ClickRun(Empty, [Point(0, 0), Point(10, 0), Point(10, 10), Point(2, 2)])
         == ToolState([Polygon([Point(0, 0), Point(10, 0), Point(10, 10)], true)], [])
  {
    var a := CanvasClick(Empty, PenToolName, true, Some(Point(0, 0)));
    var b := CanvasClick(a, PenToolName, true, Some(Point(10, 0)));
    var c := CanvasClick(b, PenToolName, true, Some(Point(10, 10)));
    assert c.currentPolygon == [Point(0, 0), Point(10, 0), Point(10, 10)];
    assert Closes(c, Point(2, 2));
    ClickRunAppend(Empty, [Point(0, 0), Point(10, 0), Point(10, 10)], [Point(2, 2)]);
    ClickRunWithoutClosing(Empty, [Point(0, 0), Point(10, 0), Point(10, 10)]);
  }

  /** With two vertices, a click near the first one is appended. */
  lemma NoClosingWithTwoVertices()
    ensures ClickRun(Empty, [Point(0, 0), Point(10, 0), Point(2, 2)])
         == ToolState([], [Point(0, 0), Point(10, 0), Point(2, 2)])
  {
    ClickRunWithoutClosing(Empty, [Point(0, 0), Point(10, 0), Point(2, 2)]);
  }

  /** Inserting on the edge from (10,0) to (10,10). */
  lemma InsertingOnAnEdge()
    ensures LineClick(ToolState([Polygon([Point(0, 0), Point(10, 0), Point(10, 10)], true)], []),
                      PenToolName, 1, 0, Some(Point(10, 5)))
         == ToolState([Polygon([Point(0, 0), Point(10, 0), Point(10, 5), Point(10, 10)], true)], [])
  {
    var pts := [Point(0, 0), Point(10, 0), Point(10, 10)];
    assert Splice(pts, 2, Point(10, 5)) == [Point(0, 0), Point(10, 0), Point(10, 5), Point(10, 10)];
  }

  /** Leaving the pen with two vertices in progress, then coming back and
      clicking once, starts a fresh polygon of one vertex. */
  lemma RestartAfterLeavingThePen()
    ensures var drawn := ClickRun(Empty, [Point(0, 0), Point(10, 0)]);
      var left := Deactivate(drawn, NoTool);
      var back := Deactivate(left, PenToolName);
      left.currentPolygon == [] &&
      CanvasClick(back, PenToolName, true, Some(Point(50, 50))).currentPolygon == [Point(50, 50)]
  {
    ClickRunWithoutClosing(Empty, [Point(0, 0), Point(10, 0)]);
  }

  // ---------------------------------------------------------------------
  // The component's state

  /** The component's two state cells. */
  class PenTool {
    var polygons: seq<Polygon>
    var currentPolygon: seq<Point>

    function State(): ToolState
      reads this
    {
      ToolState(polygons, currentPolygon)
    }

    constructor ()
      ensures State() == Empty
    {
      polygons := [];
      currentPolygon := [];
    }

    method HandleCanvasClick(activeTool: string, targetIsStage: bool, pointer: Option<Point>)
      modifies this
      ensures State() == CanvasClick(old(State()), activeTool, targetIsStage, pointer)
      ensures AllClosed(old(polygons)) ==> AllClosed(polygons)
    {
      if AllClosed(polygons) {
        CanvasClickKeepsInvariant(State(), activeTool, targetIsStage, pointer);
      }
      if targetIsStage && activeTool == PenToolName {
        if pointer.Some? {
          if |currentPolygon| > 2 && CloseToFirstPoint(pointer.value, currentPolygon) {
            polygons := polygons + [Polygon(currentPolygon, true)];
            currentPolygon := [];
          } else {
            currentPolygon := currentPolygon + [pointer.value];
          }
        }
      }
    }

    method HandleDragMove(activeTool: string, pointIndex: int, polygonIndex: nat, pos: Point)
      requires DragTargetValid(State(), activeTool, pointIndex, polygonIndex)
      modifies this
      ensures State() == DragMove(old(State()), activeTool, pointIndex, polygonIndex, pos)
      ensures AllClosed(old(polygons)) ==> AllClosed(polygons)
    {
      if AllClosed(polygons) {
        DragMoveNeverCloses(State(), activeTool, pointIndex, polygonIndex, pos);
      }
      if activeTool != PenToolName {
        return;
      }
      if polygonIndex == |polygons| {
        currentPolygon := Replace(currentPolygon, pointIndex, pos);
      } else {
        var newPolygons := polygons;
        var newPoints := newPolygons[polygonIndex].points;
        if 0 <= pointIndex < |newPoints| {
          newPoints := newPoints[pointIndex := pos];
        } else if pointIndex == |newPoints| {
          newPoints := newPoints + [pos];
        }
        newPolygons := newPolygons[polygonIndex := newPolygons[polygonIndex].(points := newPoints)];
        polygons := newPolygons;
      }
    }

    method HandleLineClick(activeTool: string, pointIndex: nat, polygonIndex: int, pointer: Option<Point>)
      modifies this
      ensures State() == LineClick(old(State()), activeTool, pointIndex, polygonIndex, pointer)
      ensures AllClosed(old(polygons)) ==> AllClosed(polygons)
    {
      if AllClosed(polygons) {
        LineClickKeepsInvariant(State(), activeTool, pointIndex, polygonIndex, pointer);
      }
      if activeTool != PenToolName {
        return;
      }
      if pointer.Some? && 0 <= polygonIndex < |polygons| {
        var polygon := polygons[polygonIndex];
        var newPoints := Splice(polygon.points, pointIndex + 1, pointer.value);
        polygons := Replace(polygons, polygonIndex, polygon.(points := newPoints));
      }
    }

    method HandlePolygonClick(activeTool: string, pointer: Option<Point>)
      modifies this
      ensures State() == PolygonClick(old(State()), activeTool, pointer)
      ensures AllClosed(old(polygons)) ==> AllClosed(polygons)
    {
      if activeTool == PenToolName && pointer.Some? {
        HandleCanvasClick(activeTool, true, pointer);
      }
    }

    method ToolChanged(activeTool: string)
      modifies this
      ensures State() == Deactivate(old(State()), activeTool)
      ensures polygons == old(polygons)
    {
      if activeTool != PenToolName && |currentPolygon| > 0 {
        currentPolygon := [];
      }
    }
  }
}
