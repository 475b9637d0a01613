/**
 * The drawing state machine and the polygon colour lookup of components/MapComponent.tsx.
 * The event handlers change the shared store through its actions; the store is idle
 * while `isDrawing` is false and collects clicked pairs while it is true.
 */
module MapView {

  import opened Wrappers
  import opened Seqs
  import opened Types
  import opened Geometry
  import opened Store

  /** A click is refused once the new list would reach this length, so 11 pairs at most are kept. */
  const PointCap := 12

  /** The fewest pairs a polygon may be finished with. */
  const MinPoints := 3

  /** The colour a newly drawn polygon is stored with, and the colour of a polygon without data. */
  const DrawColor := "#1890ff"

  /** `currentDrawingPoints.map(([lat, lng]) => ({ lat, lng }))`. */
  function ToPoints(pairs: seq<LatLng>): seq<Point>
  {
    seq(|pairs|, i requires 0 <= i < |pairs| => Point(pairs[i].0, pairs[i].1))
  }

  /** The polygon `finishDrawing` builds from the drawn pairs. */
  function DrawnPolygon(pairs: seq<LatLng>, id: string, name: string, dataSource: string): Polygon
  {
    var c := Centroid(pairs);
    Polygon(id, name, ToPoints(pairs), dataSource, DrawColor, Point(c.0, c.1), BoundingBoxOf(pairs))
  }

  /**
   * A drawn polygon keeps the pairs in order, and every vertex as well as the centroid
   * lies inside its bounding box, whose south edge is below its north edge and whose
   * west edge is left of its east edge.
   */
  lemma DrawnPolygonGeometry(pairs: seq<LatLng>, id: string, name: string, dataSource: string)
    requires |pairs| > 0
    ensures var p := DrawnPolygon(pairs, id, name, dataSource);
      && |p.points| == |pairs|
      && (forall i :: 0 <= i < |pairs| ==> p.points[i] == Point(pairs[i].0, pairs[i].1))
      && (forall i :: 0 <= i < |pairs| ==> Encloses(p.boundingBox, pairs[i]))
      && Encloses(p.boundingBox, (p.centroid.lat, p.centroid.lng))
      && p.boundingBox.south <= p.boundingBox.north && p.boundingBox.west <= p.boundingBox.east
  {
    BoundingBoxEncloses(pairs);
    CentroidInBoundingBox(pairs);
  }

  /** The `click` handler: while drawing, append the clicked pair unless the list would reach the cap. */
  method Click(store: AppStore, lat: real, lng: real)
    modifies store`currentDrawingPoints
    ensures var before := old(store.currentDrawingPoints);
      store.currentDrawingPoints ==
        if store.isDrawing && |before| + 1 < PointCap then before + [(lat, lng)] else before
    ensures |old(store.currentDrawingPoints)| < PointCap ==> |store.currentDrawingPoints| < PointCap
  {
    if store.isDrawing {
      var newPoints := store.currentDrawingPoints + [(lat, lng)];
      if |newPoints| >= PointCap {
        return;
      }
      store.SetCurrentDrawingPoints(newPoints);
    }
  }

  /**
   * `finishDrawing`: with at least three pairs, append the drawn polygon bound to the
   * selected data source, then clear the pairs and stop drawing; with fewer, change nothing.
   */
  method FinishDrawing(store: AppStore, id: string, name: string)
    modifies store`polygons, store`currentDrawingPoints, store`isDrawing
    ensures |old(store.currentDrawingPoints)| < MinPoints ==>
      && store.polygons == old(store.polygons)
      && store.currentDrawingPoints == old(store.currentDrawingPoints)
      && store.isDrawing == old(store.isDrawing)
    ensures |old(store.currentDrawingPoints)| >= MinPoints ==>
      && store.polygons == old(store.polygons) +
           [DrawnPolygon(old(store.currentDrawingPoints), id, name, store.selectedDataSource)]
      && store.currentDrawingPoints == []
      && !store.isDrawing
  {
    var points := store.currentDrawingPoints;
    if |points| < MinPoints {
      return;
    }
    var centroid := CalculatePolygonCentroid(points);
    var boundingBox := CalculateBoundingBox(points);
    var polygon := Polygon(id, name, ToPoints(points), store.selectedDataSource, DrawColor,
                           Point(centroid.0, centroid.1), boundingBox);
    store.AddPolygon(polygon);
    store.SetCurrentDrawingPoints([]);
    store.SetIsDrawing(false);
  }

  /** `cancelDrawing`: drop the pairs and stop drawing. */
  method CancelDrawing(store: AppStore)
    modifies store`currentDrawingPoints, store`isDrawing
    ensures store.currentDrawingPoints == [] && !store.isDrawing
  {
    store.SetCurrentDrawingPoints([]);
    store.SetIsDrawing(false);
  }

  /**
   * The `keydown` handler: Enter finishes a drawing of at least three pairs, Escape
   * cancels a drawing, and every other key or state leaves the store as it was.
   */
  method KeyDown(store: AppStore, key: string, id: string, name: string)
    modifies store`polygons, store`currentDrawingPoints, store`isDrawing
    ensures var drawing, points := old(store.isDrawing), old(store.currentDrawingPoints);
      if key == "Enter" && drawing && |points| >= MinPoints then
        && store.polygons == old(store.polygons) + [DrawnPolygon(points, id, name, store.selectedDataSource)]
        && store.currentDrawingPoints == [] && !store.isDrawing
      else if key == "Escape" && drawing then
        store.polygons == old(store.polygons) && store.currentDrawingPoints == [] && !store.isDrawing
      else
        store.polygons == old(store.polygons) && store.currentDrawingPoints == points && store.isDrawing == drawing
  {
    if key == "Enter" && store.isDrawing && |store.currentDrawingPoints| >= MinPoints {
      FinishDrawing(store, id, name);
    } else if key == "Escape" && store.isDrawing {
      CancelDrawing(store);
    }
  }

  /** `startDrawing`: enter the drawing state, keeping whatever pairs are held. */
  method StartDrawing(store: AppStore)
    modifies store`isDrawing
    ensures store.isDrawing
  {
    store.SetIsDrawing(true);
  }

  /**
   * `getPolygonColor`: the colour of the first observation for the polygon, falling back
   * to the drawing colour when there is none or its colour is the empty string.
   */
  function PolygonColor(polygonData: seq<PolygonData>, polygonId: string): (color: string)
    ensures (forall i :: 0 <= i < |polygonData| ==> polygonData[i].polygonId != polygonId) ==> color == DrawColor
    ensures forall i :: 0 <= i < |polygonData| && polygonData[i].polygonId == polygonId &&
                        (forall j :: 0 <= j < i ==> polygonData[j].polygonId != polygonId) ==>
                        color == (if polygonData[i].color != "" then polygonData[i].color else DrawColor)
  {
    match Find(polygonData, (d: PolygonData) => d.polygonId == polygonId)
    case Some(i) => if polygonData[i].color != "" then polygonData[i].color else DrawColor
    case None => DrawColor
  }
}
