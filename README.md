# Pen-tool polygon editor, modelled in Dafny

This models the polygon-editing core of a canvas editor. The user clicks vertices of a polygon onto a stage. Clicking near the first vertex closes the polygon. Afterwards the user can drag any vertex, or click an edge to insert a vertex after that edge's first endpoint. The pen tool's state is two cells: `polygons` for the finished polygons and `currentPolygon` for the vertices of the polygon being drawn. Every handler is gated on the active tool being `"pen"`.

The source has two versions of this logic, and both are modelled:

- `Pen.tsx`, the component (module `Pen`). It handles canvas clicks, vertex drags, edge clicks, clicks on a polygon body, and the tool-change effect.
- `usePolygonTool.ts`, a hook (module `PolygonTool`). It has the same two cells but a different click rule.

Module `EditorStore` models the global store. It is a class with the fields `activeTool` and `polygons` and their setters. Its index-targeted vertex update is the function `UpdatedPolygons` on a list of polygons. Module `Shapes` has no class: it holds the shared values, the distance test and the toolbar's toggle.

Modules `Pen` and `PolygonTool` follow the same structure:

- Every handler is a pure transition function on the value `ToolState(polygons, currentPolygon)`.
- A class with the same two fields runs the handler in place. Its `ensures` clauses tie the new state to the transition function applied to the old state.
- Lemmas state what the handlers promise. They cover the gates, the exact outcome of each click, what a drag or an insertion preserves, the invariant that every finished polygon is closed with at least three vertices, and the fact that a click never loses or reorders a vertex.

Modelling choices:

- Inputs are explicit parameters. An event becomes `(activeTool, targetIsStage, pointer: Option<Point>)`. A drag carries the dragged vertex's new position.
- Coordinates are integers, and the distance test is exact. `sqrt(dx*dx + dy*dy) < t` becomes `t > 0 && dx*dx + dy*dy < t*t`. `Shapes.NearIsEuclidean` proves that this agrees with comparing the real-valued distance itself, for every pair of points.

The two click rules differ. `Pen.tsx` closes only when more than two vertices are in progress and the click is near the first vertex; every other click is appended. The hook first asks whether the click is near the first vertex, and it asks this whenever at least one vertex exists. Only then does it check that more than two vertices exist before closing. So a click near the first vertex while only one or two vertices are in progress changes nothing in the hook, while the pen tool appends it. `PolygonTool.ClickRulesAgreeExceptNearShortPolygon` proves that this is the only case where the two rules, on a stage click, give different states. `PolygonTool.NearbyClicksDroppedByHook` shows the effect: after a first vertex at (0,0), the clicks at (10,0) and at (2,2) are both dropped.

Two behaviours of the component's edges:

- Edge targets exist only between consecutive vertices (`Pen.tsx:164`). The edge that closes the polygon, from the last vertex back to the first, is never offered. This is `Pen.ClosingEdgeNotOffered`.
- An edge click that names no finished polygon leaves every polygon unchanged, because the `map` at `Pen.tsx:100-110` matches no index (`Pen.LineClickGate`).

Dragging a vertex of a finished polygon assigns into a copy of its vertex array (`Pen.tsx:76-81`). An index inside the array replaces that vertex. The index one past the end appends a vertex. A negative index names no element, so the vertices stay as they are. `Pen.StoreAt` and `Pen.DragMoveFinished` state all three cases.

## Model

| member | source | states |
|---|---|---|
| `Shapes.ToggledTool` | src/app/editor/components/TopBar/TobBar.tsx:11 | the pen button selects the pen exactly when the pen was not active, and otherwise selects no tool |
| `Shapes.ToggleTwiceFromKnownTool` | src/app/editor/components/TopBar/TobBar.tsx:10-12 | pressing the pen button twice, starting from no tool or the pen, restores the tool |
| `Shapes.SqDist` | src/app/editor/components/Pen/Pen.tsx:54-56 | the sum of the squared coordinate differences, which is never negative |
| `Shapes.Near` | src/app/editor/components/Pen/Pen.tsx:53-56 | the closeness test: the threshold is positive and the squared distance is below its square |
| `Shapes.NearIsEuclidean` | src/app/editor/components/Pen/Pen.tsx:53-56 | for every real `dist >= 0` whose square is the squared distance, the squared-distance test holds exactly when `dist < threshold`, i.e. it is `Math.sqrt(...) < closeThreshold` |
| `Shapes.NearIsSymmetric` | src/app/editor/components/Pen/usePolygonTool.ts:37-40 | the hook's `first - pointer` differences give the same closeness as the component's `pointer - first` |
| `Shapes.Replace` | src/app/editor/components/Pen/Pen.tsx:67-73 | an index-matching `map` replaces the element at an in-range index and returns the list unchanged for any other index |
| `Shapes.ClosedCurrent` | src/app/editor/components/Pen/Pen.tsx:32-36 | closing: the in-progress vertices become a closed polygon appended to `polygons`, and `currentPolygon` becomes empty |
| `Shapes.WithPoint` | src/app/editor/components/Pen/Pen.tsx:38-41 | appending the pointer position to `currentPolygon`, with `polygons` kept |
| `Shapes.ClosingKeepsInvariant` | src/app/editor/components/Pen/Pen.tsx:32-35 | appending `{points: currentPolygon, isClosed: true}`, with at least three vertices, keeps every finished polygon closed with at least three vertices |
| `Shapes.ClosingKeepsVertices` | src/app/editor/components/Pen/Pen.tsx:32-36 | closing moves the vertices in progress into the finished list without losing or reordering any vertex |
| `Shapes.AppendingKeepsVertices` | src/app/editor/components/Pen/Pen.tsx:38-41 | appending a vertex adds exactly that vertex at the end of all vertices |
| `Pen.CloseToFirstPoint` | src/app/editor/components/Pen/Pen.tsx:49-57 | a click is close when it lies strictly within 15 of the first vertex |
| `Pen.Closes` | src/app/editor/components/Pen/Pen.tsx:28-30 | the closing condition: more than two vertices in progress and the click close to the first |
| `Pen.CanvasClick` | src/app/editor/components/Pen/Pen.tsx:23-47 | the canvas-click handler as a transition: a stage click with the pen active and a pointer position closes or appends; any other click keeps the state |
| `Pen.DragTargetValid` | src/app/editor/components/Pen/Pen.tsx:59-83 | the indices for which the drag handler neither fails nor leaves holes: with the pen active, `polygonIndex <= |polygons|`, and `pointIndex <= |points|` on a finished polygon |
| `Pen.StoreAt` | src/app/editor/components/Pen/Pen.tsx:77-79 | assigning into an array copy: an in-range index replaces that vertex, the index one past the end appends, a negative index keeps every vertex; all other vertices are kept |
| `Pen.DragMove` | src/app/editor/components/Pen/Pen.tsx:59-83 | the drag handler as a transition: the sentinel index maps over `currentPolygon`, any other index assigns into a copy of that finished polygon's vertices |
| `Pen.LineClick` | src/app/editor/components/Pen/Pen.tsx:93-114 | the edge-click handler as a transition: the polygon at `polygonIndex` gets the pointer position spliced in at `pointIndex + 1` |
| `Pen.OffersEdge` | src/app/editor/components/Pen/Pen.tsx:163-164 | an edge target is rendered from vertex `pointIndex` only when `pointIndex < length - 1` |
| `Pen.PolygonClick` | src/app/editor/components/Pen/Pen.tsx:116-138 | with the pen active and a pointer position, a body click is a stage click at that position; otherwise nothing happens |
| `Pen.Deactivate` | src/app/editor/components/Pen/Pen.tsx:140-144 | the tool-change effect as a transition: another tool with vertices in progress empties `currentPolygon` |
| `Pen.Splice` | src/app/editor/components/Pen/Pen.tsx:102-106 | the splice lengthens the list by one, places the point at the (clamped) start index, and keeps the prefix and the shifted suffix |
| `Pen.FlattenedPoints` | src/app/editor/components/Pen/Pen.tsx:85-86 | the result has length `2*|points|`, element `2i` is `points[i].x` and element `2i+1` is `points[i].y` |
| `Pen.CanvasClickGate` | src/app/editor/components/Pen/Pen.tsx:25-27 | a click that is not on the stage, is made with another tool, or has no pointer position leaves both cells unchanged |
| `Pen.CanvasClickOutcome` | src/app/editor/components/Pen/Pen.tsx:21-57 | an accepted click closes exactly when more than two vertices are in progress and the squared distance to the first is below 15*15; closing appends `{points: old currentPolygon, isClosed: true}` and empties `currentPolygon`; otherwise the position is appended to `currentPolygon` and `polygons` is unchanged |
| `Pen.CanvasClickClosesIff` | src/app/editor/components/Pen/Pen.tsx:28-42 | an accepted click always changes the state; `polygons` grows by one exactly when the click closes and keeps its length exactly when it does not |
| `Pen.CanvasClickKeepsInvariant` | src/app/editor/components/Pen/Pen.tsx:28-42 | every click keeps every finished polygon closed with at least three vertices |
| `Pen.CanvasClickKeepsVertices` | src/app/editor/components/Pen/Pen.tsx:23-47 | a non-closing accepted click adds its position at the end of all vertices; every other click keeps the vertex sequence unchanged |
| `Pen.ClickRunKeepsInvariant` | src/app/editor/components/Pen/Pen.tsx:23-47 | any sequence of stage clicks keeps every finished polygon closed with at least three vertices |
| `Pen.ClickRunWithoutClosing` | src/app/editor/components/Pen/Pen.tsx:28-41 | while at most three vertices are placed, each click appends its position in order |
| `Pen.DragMoveGate` | src/app/editor/components/Pen/Pen.tsx:62 | a drag with another tool active changes nothing |
| `Pen.DragMoveInProgress` | src/app/editor/components/Pen/Pen.tsx:66-74 | with the sentinel `polygonIndex == |polygons|`, only `currentPolygon[pointIndex]` changes, to the drag position, and an index that names no vertex changes nothing |
| `Pen.DragMoveFinished` | src/app/editor/components/Pen/Pen.tsx:75-82 | on a finished polygon the vertex at an in-range `pointIndex` becomes the drag position, the index one past the end appends it, and a negative index changes nothing; `isClosed`, every other vertex and polygon, and `currentPolygon` are kept |
| `Pen.DragMoveNeverCloses` | src/app/editor/components/Pen/Pen.tsx:59-83 | a drag keeps the number of finished polygons and the length of `currentPolygon`, so it never closes or adds a polygon, and keeps every finished polygon closed with at least three vertices |
| `Pen.LineClickGate` | src/app/editor/components/Pen/Pen.tsx:94-99 | an edge click with another tool active, with no pointer position, or naming no finished polygon changes nothing |
| `Pen.LineClickInsertsOnEdge` | src/app/editor/components/Pen/Pen.tsx:100-111 | on an offered edge the new point lands at `pointIndex+1`, between the edge's endpoints; the length grows by one, `[0..pointIndex]` and the shifted suffix are kept, and `isClosed`, other polygons and `currentPolygon` are unchanged |
| `Pen.ClosingEdgeNotOffered` | src/app/editor/components/Pen/Pen.tsx:163-164 | the edge from the last vertex back to the first is never an edge target |
| `Pen.LineClickKeepsInvariant` | src/app/editor/components/Pen/Pen.tsx:93-114 | edge insertion keeps every finished polygon closed with at least three vertices, keeps the number of polygons and leaves `currentPolygon` alone |
| `Pen.PolygonClickIsCanvasClick` | src/app/editor/components/Pen/Pen.tsx:116-138 | a click on a polygon's body has exactly the effect of a stage click at the pointer position |
| `Pen.DeactivateClears` | src/app/editor/components/Pen/Pen.tsx:140-144 | with another tool active, `currentPolygon` becomes empty and `polygons` is kept; with the pen active nothing changes; running the effect twice equals running it once |
| `Pen.ClosingATriangle` | src/app/editor/components/Pen/Pen.tsx:28-36 | clicks at (0,0), (10,0), (10,10), (2,2) close a three-vertex polygon and leave nothing in progress |
| `Pen.NoClosingWithTwoVertices` | src/app/editor/components/Pen/Pen.tsx:29 | clicks at (0,0), (10,0), (2,2) append all three, because two vertices cannot close |
| `Pen.InsertingOnAnEdge` | src/app/editor/components/Pen/Pen.tsx:100-111 | inserting (10,5) on edge 1 of the triangle (0,0), (10,0), (10,10) gives (0,0), (10,0), (10,5), (10,10) |
| `Pen.RestartAfterLeavingThePen` | src/app/editor/components/Pen/Pen.tsx:140-144 | leaving the pen with two vertices in progress, then returning and clicking once, gives a polygon in progress of one vertex |
| `Pen.PenTool.constructor` | src/app/editor/components/Pen/Pen.tsx:17-18 | both cells start empty |
| `Pen.PenTool.HandleCanvasClick` | src/app/editor/components/Pen/Pen.tsx:23-47 | the in-place handler's new cells are `CanvasClick` of the old ones, and it keeps the closed-polygon invariant |
| `Pen.PenTool.HandleDragMove` | src/app/editor/components/Pen/Pen.tsx:59-83 | the in-place handler's new cells are `DragMove` of the old ones, and it keeps the invariant |
| `Pen.PenTool.HandleLineClick` | src/app/editor/components/Pen/Pen.tsx:93-114 | the in-place handler's new cells are `LineClick` of the old ones, and it keeps the invariant |
| `Pen.PenTool.HandlePolygonClick` | src/app/editor/components/Pen/Pen.tsx:116-138 | the handler forwards to the canvas-click handler, and its new cells are `PolygonClick` of the old ones |
| `Pen.PenTool.ToolChanged` | src/app/editor/components/Pen/Pen.tsx:140-144 | the effect's new cells are `Deactivate` of the old ones, and `polygons` is untouched |
| `PolygonTool.AddPointToCurrentPolygon` | src/app/editor/components/Pen/usePolygonTool.ts:16-18 | the pointer position is appended to `currentPolygon` |
| `PolygonTool.CloseCurrentPolygon` | src/app/editor/components/Pen/usePolygonTool.ts:20-25 | with more than two vertices the polygon is closed; otherwise the state is kept |
| `PolygonTool.IsCloseToFirstPoint` | src/app/editor/components/Pen/usePolygonTool.ts:35-40 | a first vertex exists and the click lies strictly within `closeThreshold` of it |
| `PolygonTool.CanvasClick` | src/app/editor/components/Pen/usePolygonTool.ts:27-49 | the hook's click handler as a transition: with the pen active and a pointer position, a close click tries to close and any other click appends |
| `PolygonTool.CanvasClickGate` | src/app/editor/components/Pen/usePolygonTool.ts:29-33 | with another tool active or no pointer position, a click changes nothing |
| `PolygonTool.CanvasClickOutcome` | src/app/editor/components/Pen/usePolygonTool.ts:16-46 | a click with nothing in progress, or not near the first vertex, is appended; a click near the first vertex closes when more than two vertices are in progress and is dropped when there are one or two |
| `PolygonTool.ProximityIsStrict` | src/app/editor/components/Pen/usePolygonTool.ts:36-40 | a click at exactly `closeThreshold` from the first vertex, or any click under a non-positive threshold, is appended rather than treated as near |
| `PolygonTool.CanvasClickKeepsInvariant` | src/app/editor/components/Pen/usePolygonTool.ts:20-25 | every click keeps every finished polygon closed with at least three vertices |
| `PolygonTool.ClickRunKeepsInvariant` | src/app/editor/components/Pen/usePolygonTool.ts:27-49 | any sequence of clicks keeps every finished polygon closed with at least three vertices |
| `PolygonTool.ClickRulesAgreeExceptNearShortPolygon` | src/app/editor/components/Pen/usePolygonTool.ts:35-45 | on a stage click with threshold 15, the hook and the component produce different states exactly when the pen is active, a position is known, and one or two vertices are in progress with the click near the first; there the component appends and the hook leaves the state unchanged |
| `PolygonTool.OnlyThePenToolChecksTheTarget` | src/app/editor/components/Pen/usePolygonTool.ts:29-33 | a click off the stage does nothing in the component; the hook acts on it unless it is dropped |
| `PolygonTool.NearbyClicksDroppedByHook` | src/app/editor/components/Pen/usePolygonTool.ts:35-45 | the clicks (0,0), (10,0), (2,2) leave the hook with one vertex and the component with three |
| `PolygonTool.ClosingATriangleWithTheHook` | src/app/editor/components/Pen/usePolygonTool.ts:20-24 | the clicks (0,0), (30,0), (30,30), (2,2) close a three-vertex polygon in the hook |
| `PolygonTool.PolygonToolState.constructor` | src/app/editor/components/Pen/usePolygonTool.ts:13-14 | both cells start empty |
| `PolygonTool.PolygonToolState.AddPoint` | src/app/editor/components/Pen/usePolygonTool.ts:16-18 | the point is appended to `currentPolygon` |
| `PolygonTool.PolygonToolState.Close` | src/app/editor/components/Pen/usePolygonTool.ts:20-25 | with more than two vertices the polygon is closed and appended; otherwise nothing changes; the invariant is kept |
| `PolygonTool.PolygonToolState.HandleCanvasClick` | src/app/editor/components/Pen/usePolygonTool.ts:27-49 | the in-place handler's new cells are the hook's `CanvasClick` of the old ones, and it keeps the invariant |
| `PolygonTool.PolygonToolState.ToolChanged` | src/app/editor/components/Pen/usePolygonTool.ts:51-55 | leaving the pen empties `currentPolygon`; `polygons` is untouched |
| `EditorStore.UpdatedPolygons` | lib/zustand/stores/editorStore.ts:35-46 | the nested map keeps the number of polygons, each polygon's vertex count and `isClosed`; vertex `(polygonIndex, pointIndex)` becomes the new point and every other vertex is kept |
| `EditorStore.UpdateInRange` | lib/zustand/stores/editorStore.ts:35-46 | with both indices in range, the result is the input with that one vertex replaced |
| `EditorStore.UpdateOutOfRange` | lib/zustand/stores/editorStore.ts:35-46 | with either index out of range, including negative ones, the list is returned unchanged |
| `EditorStore.UpdateKeepsInvariant` | lib/zustand/stores/editorStore.ts:35-46 | the vertex update keeps every polygon closed with at least three vertices |
| `EditorStore.Store.constructor` | lib/zustand/stores/editorStore.ts:29-30 | the store starts with `activeTool = ""` and no polygons |
| `EditorStore.Store.SetActiveTool` | lib/zustand/stores/editorStore.ts:31 | `activeTool` is set and `polygons` is unchanged |
| `EditorStore.Store.SetPolygons` | lib/zustand/stores/editorStore.ts:32 | `polygons` is replaced and `activeTool` is unchanged |
| `EditorStore.Store.UpdatePolygonPoint` | lib/zustand/stores/editorStore.ts:33-48 | `polygons` becomes `UpdatedPolygons` of its old value and `activeTool` is unchanged |
| `EditorStore.Store.TogglePenTool` | src/app/editor/components/TopBar/TobBar.tsx:10-12 | the toolbar button sets `activeTool` to the toggled tool and leaves `polygons` alone |

## Left out

- Coordinates are integers, and so is the hook's `closeThreshold` (a `number` in `usePolygonTool.ts:12`). Fractional pointer positions, a fractional threshold and the floating-point rounding of `Math.sqrt` and `Math.hypot` are not modelled; the closeness test is exact.
- The event objects, `getStage`, `getPointerPosition` and `position()` are library calls. They are reduced to parameters: the active tool, whether the target is the stage, and an optional pointer position.
- `handleDragStart` only sets `cancelBubble`, so it has no effect on the state. `cancelBubble` itself, the JSX, and the line and circle properties are rendering and are not modelled.
- The mouse-down handler registered in the store (`onMouseDownEvent`, `setOnMouseDownEvent`, and the effect that installs it) stores function values and is not part of this model.
- React specifics are not modelled: stale closures, render batching, and the way effects are scheduled. Each handler is one atomic transition on the current state, with value semantics. So the write through the shared polygon object at `Pen.tsx:80`, which also mutates the old state's polygon, is not modelled.
- Pen.DragMove: a `polygonIndex` greater than `|polygons|` makes the source fail, because the copied list has no polygon there. This is a precondition, `DragTargetValid`, which applies only while the pen is active, because the handler returns earlier otherwise. `polygonIndex` is a natural number; a negative one fails in the source the same way.
- Pen.DragMove: on a finished polygon, a `pointIndex` more than one past the last vertex is also excluded by `DragTargetValid`. In the source that assignment leaves holes in the array, which a sequence cannot hold. The component only ever passes rendered indices.
- Pen.LineClick: `pointIndex` is a natural number. A negative splice start counts from the end in the source; that case is not modelled, because the component only passes indices of rendered edges.
- The hook's return value only exposes its two cells and the click handler, so it is not modelled separately.
- The editor page, its layout, the canvas wrapper and the toolbar markup are wiring and are not modelled. The only logic taken from them is the toolbar's toggle (`ToggledTool`, `TogglePenTool`).
