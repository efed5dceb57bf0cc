/** Values shared by the pen tool, the polygon hook and the editor store:
    points, polygons, the two state cells of a polygon editor, the tool gate
    and the one geometric primitive (closeness by Euclidean distance). */
module Shapes {

  datatype Option<T> = None | Some(value: T)

  /** A canvas-space point. */
  datatype Point = Point(x: int, y: int)

  /** An ordered vertex list plus the closed flag. */
  datatype Polygon = Polygon(points: seq<Point>, isClosed: bool)

  /** The two state cells of a polygon editor: the finished polygons and
      the vertices of the polygon being drawn. */
  datatype ToolState = ToolState(polygons: seq<Polygon>, currentPolygon: seq<Point>)

  /** The initial state: nothing drawn, nothing in progress. */
  const Empty: ToolState := ToolState([], [])

  /** The tool identifier that opens the gate. */
  const PenToolName: string := "pen"

  /** The "no tool" identifier the store starts with. */
  const NoTool: string := ""

  /** The toolbar's pen button: switches between the pen and no tool. */
  function ToggledTool(activeTool: string): (r: string)
    ensures r == PenToolName <==> activeTool != PenToolName
    ensures r != PenToolName ==> r == NoTool
  {
    if activeTool == PenToolName then NoTool else PenToolName
  }

  lemma ToggleTwiceFromKnownTool(activeTool: string)
    requires activeTool == NoTool || activeTool == PenToolName
    ensures ToggledTool(ToggledTool(activeTool)) == activeTool
  {
  }

  /** The squared Euclidean distance between two points. */
  function SqDist(a: Point, b: Point): (d: int)
    ensures d >= 0
  {
    var dx := a.x - b.x;
    var dy := a.y - b.y;
    dx * dx + dy * dy
  }

  /** Exact form of `sqrt(dx*dx + dy*dy) < threshold`: a square root is never
      negative, so the comparison can hold only for a positive threshold, and
      then it is the comparison of the squares. */
  predicate Near(a: Point, b: Point, threshold: int)
  {
    threshold > 0 && SqDist(a, b) < threshold * threshold
  }

  /** `Near` is exactly the source's comparison of the Euclidean distance
      with the threshold: for any real `dist >= 0` whose square is the
      squared distance, `Near` holds exactly when `dist < threshold`. */
  lemma NearIsEuclidean(a: Point, b: Point, threshold: int, dist: real)
    ensures dist >= 0.0 && dist * dist == SqDist(a, b) as real ==>
      (Near(a, b, threshold) <==> dist < threshold as real)
  {
    if dist >= 0.0 && dist * dist == SqDist(a, b) as real {
      var t := threshold as real;
      assert (threshold * threshold) as real == t * t;
      if dist < t {
        MulMonotone(dist, dist, t);
        MulStrictlyMonotone(t, dist, t);
      } else if threshold > 0 {
        MulMonotone(t, t, dist);
        MulMonotone(dist, t, dist);
      }
    }
  }

  lemma MulStrictlyMonotone(k: real, lo: real, hi: real)
    requires 0.0 < k && lo < hi
    ensures k * lo < k * hi
  {
  }

  lemma MulMonotone(k: real, lo: real, hi: real)
    requires 0.0 <= k && lo <= hi
    ensures k * lo <= k * hi
  {
  }

  lemma NearIsSymmetric(a: Point, b: Point, threshold: int)
    ensures Near(a, b, threshold) <==> Near(b, a, threshold)
  {
    assert SqDist(a, b) == SqDist(b, a);
  }

  /** An index-matching map: the element at index `i`, if there is one,
      becomes `x`, and every other element is kept. */
  function Replace<T>(xs: seq<T>, i: int, x: T): (r: seq<T>)
    ensures 0 <= i < |xs| ==> r == xs[i := x]
    ensures !(0 <= i < |xs|) ==> r == xs
  {
    seq(|xs|, k requires 0 <= k < |xs| => if k == i then x else xs[k])
  }

  /** Every finished polygon is closed and has at least three vertices. */
  predicate AllClosed(polygons: seq<Polygon>)
  {
    forall i :: 0 <= i < |polygons| ==> polygons[i].isClosed && |polygons[i].points| >= 3
  }

  /** Closing: the in-progress vertices become a closed polygon appended at
      the end, and nothing stays in progress. */
  function ClosedCurrent(s: ToolState): ToolState
  {
    ToolState(s.polygons + [Polygon(s.currentPolygon, true)], [])
  }

  /** Appending one vertex to the polygon in progress. */
  function WithPoint(s: ToolState, p: Point): ToolState
  {
    ToolState(s.polygons, s.currentPolygon + [p])
  }

  /** All vertices of a list of polygons, in drawing order. */
  function Outline(polygons: seq<Polygon>): seq<Point>
  {
    if polygons == [] then []
    else Outline(polygons[..|polygons| - 1]) + polygons[|polygons| - 1].points
  }

  /** Every vertex held in the state: finished polygons first, then the one
      in progress. */
  function AllVertices(s: ToolState): seq<Point>
  {
    Outline(s.polygons) + s.currentPolygon
  }

  /** Closing a polygon with at least three vertices keeps every finished
      polygon closed with at least three vertices. */
  lemma ClosingKeepsInvariant(s: ToolState)
    requires AllClosed(s.polygons) && |s.currentPolygon| >= 3
    ensures AllClosed(ClosedCurrent(s).polygons)
  {
  }

  /** Closing loses and reorders no vertex. */
  lemma ClosingKeepsVertices(s: ToolState)
    ensures AllVertices(ClosedCurrent(s)) == AllVertices(s)
  {
    var ps := s.polygons + [Polygon(s.currentPolygon, true)];
    assert ps[..|ps| - 1] == s.polygons;
  }

  /** Appending a vertex adds exactly that vertex at the end of all vertices. */
  lemma AppendingKeepsVertices(s: ToolState, p: Point)
    ensures AllVertices(WithPoint(s, p)) == AllVertices(s) + [p]
  {
  }
}
