/** The polygon-tool hook: the same two state cells as the pen tool, with
    its own click rule. Proximity to the first vertex is tested whenever a
    vertex exists, and closing separately needs more than two, so a click
    near the first of only one or two vertices is dropped. */
module PolygonTool {
  import opened Shapes
  import Pen

  /** The hook's default closing distance. */
  const DefaultCloseThreshold: int := 15

  /** `addPointToCurrentPolygon`. */
  function AddPointToCurrentPolygon(s: ToolState, p: Point): ToolState
  {
    WithPoint(s, p)
  }

  /** `closeCurrentPolygon`: closes only with more than two vertices. */
  function CloseCurrentPolygon(s: ToolState): ToolState
  {
    if |s.currentPolygon| > 2 then ClosedCurrent(s) else s
  }

  /** The hook's proximity test: a first vertex exists and the click is
      strictly within `closeThreshold` of it. */
  predicate IsCloseToFirstPoint(currentPolygon: seq<Point>, pointer: Point, closeThreshold: int)
  {
    |currentPolygon| > 0 && Near(currentPolygon[0], pointer, closeThreshold)
  }

  /** `handleCanvasClick`: with the pen active and a pointer position, a
      click near the first vertex tries to close, any other click appends. */
  function CanvasClick(s: ToolState, activeTool: string, pointer: Option<Point>, closeThreshold: int): ToolState
  {
    if activeTool != PenToolName || pointer.None? then s
    else if IsCloseToFirstPoint(s.currentPolygon, pointer.value, closeThreshold) then CloseCurrentPolygon(s)
    else AddPointToCurrentPolygon(s, pointer.value)
  }

  /** Stage clicks with the pen active at each position in turn, with the
      default threshold. */
  function ClickRun(s: ToolState, pointers: seq<Point>): ToolState
    decreases |pointers|
  {
    if pointers == [] then s
    else ClickRun(CanvasClick(s, PenToolName, Some(pointers[0]), DefaultCloseThreshold), pointers[1..])
  }

  /** With another tool active, or without a pointer position, a click
      changes nothing. */
  lemma CanvasClickGate(s: ToolState, activeTool: string, pointer: Option<Point>, closeThreshold: int)
    requires activeTool != PenToolName || pointer.None?
    ensures CanvasClick(s, activeTool, pointer, closeThreshold) == s
  {
  }

  /** The three outcomes of an accepted click: append (nothing in
      progress, or not near the first vertex), close (near it with more
      than two vertices), drop (near it with one or two). */
  lemma CanvasClickOutcome(s: ToolState, p: Point, closeThreshold: int)
    ensures var r := CanvasClick(s, PenToolName, Some(p), closeThreshold);
      var n := |s.currentPolygon|;
      (n == 0 || !Near(s.currentPolygon[0], p, closeThreshold) ==>
        r.polygons == s.polygons && r.currentPolygon == s.currentPolygon + [p]) &&
      (n > 2 && Near(s.currentPolygon[0], p, closeThreshold) ==>
        r.polygons == s.polygons + [Polygon(s.currentPolygon, true)] && r.currentPolygon == []) &&
      (1 <= n <= 2 && Near(s.currentPolygon[0], p, closeThreshold) ==> r == s)
  {
  }

  /** The proximity test is strict: a click at exactly the threshold
      distance is not near, and no non-positive threshold accepts a click. */
  lemma ProximityIsStrict(s: ToolState, p: Point, closeThreshold: int)
    requires |s.currentPolygon| > 0
    requires closeThreshold <= 0 || SqDist(s.currentPolygon[0], p) == closeThreshold * closeThreshold
    ensures CanvasClick(s, PenToolName, Some(p), closeThreshold) == AddPointToCurrentPolygon(s, p)
  {
  }

  /** Clicks keep every finished polygon closed with at least three
      vertices. */
  lemma CanvasClickKeepsInvariant(s: ToolState, activeTool: string, pointer: Option<Point>, closeThreshold: int)
    requires AllClosed(s.polygons)
    ensures AllClosed(CanvasClick(s, activeTool, pointer, closeThreshold).polygons)
  {
    if activeTool == PenToolName && pointer.Some?
       && IsCloseToFirstPoint(s.currentPolygon, pointer.value, closeThreshold) && |s.currentPolygon| > 2 {
      ClosingKeepsInvariant(s);
    }
  }

  /** Any run of clicks keeps every finished polygon closed with at least
      three vertices. */
  lemma {:induction false} ClickRunKeepsInvariant(s: ToolState, pointers: seq<Point>)
    requires AllClosed(s.polygons)
    ensures AllClosed(ClickRun(s, pointers).polygons)
    decreases |pointers|
  {
    if pointers != [] {
      CanvasClickKeepsInvariant(s, PenToolName, Some(pointers[0]), DefaultCloseThreshold);
      ClickRunKeepsInvariant(CanvasClick(s, PenToolName, Some(pointers[0]), DefaultCloseThreshold), pointers[1..]);
    }
  }

  /** Where the hook and the pen tool part ways. For a stage click with the
      default threshold the two rules give the same state except when the
      pen is active, a pointer position is known and one or two vertices
      are in progress with the click near the first: there the pen tool
      appends the click and the hook drops it. */
  lemma ClickRulesAgreeExceptNearShortPolygon(s: ToolState, activeTool: string, pointer: Option<Point>)
    ensures var pen := Pen.CanvasClick(s, activeTool, true, pointer);
      var hook := CanvasClick(s, activeTool, pointer, DefaultCloseThreshold);
      var diverges := activeTool == PenToolName && pointer.Some? &&
        1 <= |s.currentPolygon| <= 2 && Near(s.currentPolygon[0], pointer.value, DefaultCloseThreshold);
      (pen != hook <==> diverges) &&
      (diverges ==> pen == WithPoint(s, pointer.value) && hook == s)
  {
    var pen := Pen.CanvasClick(s, activeTool, true, pointer);
    var hook := CanvasClick(s, activeTool, pointer, DefaultCloseThreshold);
    if activeTool == PenToolName && pointer.Some? {
      var p := pointer.value;
      if |s.currentPolygon| > 0 {
        NearIsSymmetric(s.currentPolygon[0], p, DefaultCloseThreshold);
      }
      if 1 <= |s.currentPolygon| <= 2 && Near(s.currentPolygon[0], p, DefaultCloseThreshold) {
        assert |pen.currentPolygon| == |s.currentPolygon| + 1;
      }
    }
  }

  /** The pen tool also requires the click to land on the stage itself;
      the hook does not look at the target. */
  lemma OnlyThePenToolChecksTheTarget(s: ToolState, p: Point)
    ensures Pen.CanvasClick(s, PenToolName, false, Some(p)) == s
    ensures CanvasClick(s, PenToolName, Some(p), DefaultCloseThreshold) != s
         <==> !(1 <= |s.currentPolygon| <= 2 && Near(s.currentPolygon[0], p, DefaultCloseThreshold))
  {
    var hook := CanvasClick(s, PenToolName, Some(p), DefaultCloseThreshold);
    if !IsCloseToFirstPoint(s.currentPolygon, p, DefaultCloseThreshold) {
      assert |hook.currentPolygon| == |s.currentPolygon| + 1;
    } else if |s.currentPolygon| > 2 {
      assert |hook.polygons| == |s.polygons| + 1;
    }
  }

  /** The clicks (0,0), (10,0), (2,2): both later clicks lie within 15 of
      the first vertex, so the hook drops them and keeps one vertex, while
      the pen tool appends them. */
  lemma NearbyClicksDroppedByHook()
    ensures ClickRun(Empty, [Point(0, 0), Point(10, 0), Point(2, 2)])
         == ToolState([], [Point(0, 0)])
    ensures Pen.ClickRun(Empty, [Point(0, 0), Point(10, 0), Point(2, 2)])
         == ToolState([], [Point(0, 0), Point(10, 0), Point(2, 2)])
  {
    var a := CanvasClick(Empty, PenToolName, Some(Point(0, 0)), DefaultCloseThreshold);
    assert a == ToolState([], [Point(0, 0)]);
    assert Near(Point(0, 0), Point(10, 0), DefaultCloseThreshold);
    assert CanvasClick(a, PenToolName, Some(Point(10, 0)), DefaultCloseThreshold) == a;
    assert Near(Point(0, 0), Point(2, 2), DefaultCloseThreshold);
    assert CanvasClick(a, PenToolName, Some(Point(2, 2)), DefaultCloseThreshold) == a;
    Pen.NoClosingWithTwoVertices();
  }

  /** Vertices at least 15 away from the first are appended, and a click
      near the first then closes the triangle, as in the pen tool. */
  lemma ClosingATriangleWithTheHook()
    ensures ClickRun(Empty, [Point(0, 0), Point(30, 0), Point(30, 30), Point(2, 2)])
         == ToolState([Polygon([Point(0, 0), Point(30, 0), Point(30, 30)], true)], [])
  {
    var a := CanvasClick(Empty, PenToolName, Some(Point(0, 0)), DefaultCloseThreshold);
    assert a == ToolState([], [Point(0, 0)]);
    assert !Near(Point(0, 0), Point(30, 0), DefaultCloseThreshold);
    var b := CanvasClick(a, PenToolName, Some(Point(30, 0)), DefaultCloseThreshold);
    assert b == ToolState([], [Point(0, 0), Point(30, 0)]);
    assert !Near(Point(0, 0), Point(30, 30), DefaultCloseThreshold);
    var c := CanvasClick(b, PenToolName, Some(Point(30, 30)), DefaultCloseThreshold);
    assert c == ToolState([], [Point(0, 0), Point(30, 0), Point(30, 30)]);
    assert Near(Point(0, 0), Point(2, 2), DefaultCloseThreshold);
  }

  /** The hook's state cells. */
  class PolygonToolState {
    var polygons: seq<Polygon>
    var currentPolygon: seq<Point>

    function State(): ToolState
      reads this
    {
      ToolState(polygons, currentPolygon)
    }

    constructor ()
      ensures State() == Empty
    {
      polygons := [];
      currentPolygon := [];
    }

    method AddPoint(p: Point)
      modifies this
      ensures State() == AddPointToCurrentPolygon(old(State()), p)
    {
      currentPolygon := currentPolygon + [p];
    }

    method Close()
      modifies this
      ensures State() == CloseCurrentPolygon(old(State()))
      ensures AllClosed(old(polygons)) ==> AllClosed(polygons)
    {
      if |currentPolygon| > 2 {
        polygons := polygons + [Polygon(currentPolygon, true)];
        currentPolygon := [];
      }
    }

    method HandleCanvasClick(activeTool: string, pointer: Option<Point>, closeThreshold: int)
      modifies this
      ensures State() == CanvasClick(old(State()), activeTool, pointer, closeThreshold)
      ensures AllClosed(old(polygons)) ==> AllClosed(polygons)
    {
      if activeTool != PenToolName {
        return;
      }
      if pointer.None? {
        return;
      }
      var isCloseToFirstPoint := |currentPolygon| > 0 && Near(currentPolygon[0], pointer.value, closeThreshold);
      if isCloseToFirstPoint {
        Close();
      } else {
        AddPoint(pointer.value);
      }
    }

    method ToolChanged(activeTool: string)
      modifies this
      ensures State() == Pen.Deactivate(old(State()), activeTool)
      ensures polygons == old(polygons)
    {
      if activeTool != PenToolName && |currentPolygon| > 0 {
        currentPolygon := [];
      }
    }
  }
}
