/** The editor's global store: the active tool, a polygon list, their
    setters, and an index-targeted vertex update. */
module EditorStore {
  import opened Shapes

  /** The vertex update as two nested index-matching maps: the polygon at
      `polygonIndex` gets a copy of its points in which the one at
      `pointIndex` is `newPoint`; every other polygon is kept as it is. */
  function UpdatedPolygons(polygons: seq<Polygon>, polygonIndex: int, pointIndex: int, newPoint: Point): (r: seq<Polygon>)
    ensures |r| == |polygons|
    ensures forall k :: 0 <= k < |polygons| ==>
      |r[k].points| == |polygons[k].points| && r[k].isClosed == polygons[k].isClosed
    ensures forall k, m :: 0 <= k < |polygons| && 0 <= m < |polygons[k].points| ==>
      r[k].points[m] == if k == polygonIndex && m == pointIndex then newPoint else polygons[k].points[m]
  {
    seq(|polygons|, k requires 0 <= k < |polygons| =>
      if k == polygonIndex then
        polygons[k].(points := seq(|polygons[k].points|, m requires 0 <= m < |polygons[k].points| =>
          if m == pointIndex then newPoint else polygons[k].points[m]))
      else polygons[k])
  }

  /** In range, the update writes exactly the one vertex: the result is the
      input with that single point replaced. */
  lemma UpdateInRange(polygons: seq<Polygon>, polygonIndex: int, pointIndex: int, newPoint: Point)
    requires 0 <= polygonIndex < |polygons| && 0 <= pointIndex < |polygons[polygonIndex].points|
    ensures var q := polygons[polygonIndex];
      UpdatedPolygons(polygons, polygonIndex, pointIndex, newPoint)
        == polygons[polygonIndex := q.(points := q.points[pointIndex := newPoint])]
  {
    var r := UpdatedPolygons(polygons, polygonIndex, pointIndex, newPoint);
    var q := polygons[polygonIndex];
    var expected := polygons[polygonIndex := q.(points := q.points[pointIndex := newPoint])];
    forall k | 0 <= k < |polygons|
      ensures r[k] == expected[k]
    {
      assert r[k].points == expected[k].points;
    }
  }

  /** Out of range, in either index, the update gives back the same list. */
  lemma UpdateOutOfRange(polygons: seq<Polygon>, polygonIndex: int, pointIndex: int, newPoint: Point)
    requires !(0 <= polygonIndex < |polygons| && 0 <= pointIndex < |polygons[polygonIndex].points|)
    ensures UpdatedPolygons(polygons, polygonIndex, pointIndex, newPoint) == polygons
  {
    var r := UpdatedPolygons(polygons, polygonIndex, pointIndex, newPoint);
    forall k | 0 <= k < |polygons|
      ensures r[k] == polygons[k]
    {
      assert r[k].points == polygons[k].points;
    }
  }

  /** The update keeps every polygon closed with at least three vertices. */
  lemma UpdateKeepsInvariant(polygons: seq<Polygon>, polygonIndex: int, pointIndex: int, newPoint: Point)
    requires AllClosed(polygons)
    ensures AllClosed(UpdatedPolygons(polygons, polygonIndex, pointIndex, newPoint))
  {
  }

  /** The store. The registered mouse-down handler is not part of this model. */
  class Store {
    var activeTool: string
    var polygons: seq<Polygon>

    constructor ()
      ensures activeTool == NoTool && polygons == []
    {
      activeTool := NoTool;
      polygons := [];
    }

    method SetActiveTool(tool: string)
      modifies this
      ensures activeTool == tool && polygons == old(polygons)
    {
      activeTool := tool;
    }

    method SetPolygons(newPolygons: seq<Polygon>)
      modifies this
      ensures polygons == newPolygons && activeTool == old(activeTool)
    {
      polygons := newPolygons;
    }

    method UpdatePolygonPoint(polygonIndex: int, pointIndex: int, newPoint: Point)
      modifies this
      ensures polygons == UpdatedPolygons(old(polygons), polygonIndex, pointIndex, newPoint)
      ensures activeTool == old(activeTool)
      ensures AllClosed(old(polygons)) ==> AllClosed(polygons)
    {
      polygons := UpdatedPolygons(polygons, polygonIndex, pointIndex, newPoint);
    }

    /** The toolbar's pen button. */
    method TogglePenTool()
      modifies this
      ensures activeTool == ToggledTool(old(activeTool)) && polygons == old(polygons)
    {
      SetActiveTool(ToggledTool(activeTool));
    }
  }
}
