/**
 * The shared map component's view rules: zooming by half a level, fitting
 * the view to an extent with a fixed padding, and re-centring on a geometry
 * that lies outside the visible extent.
 */
module MapView {
  import opened Wrappers
  import opened OlMap

  /** Padding in pixels on each side when the view is fitted. */
  const FitPaddingPx: real := 25.0

  /** The zoom step of the zoom buttons. */
  const ZoomStep: real := 0.5

  /** The duration of a zoom animation in milliseconds. */
  const ZoomDurationMs: nat := 250

  /** A `View.animate` call for a zoom change. */
  datatype ZoomAnimation = ZoomAnimation(zoom: real, duration: nat)

  class MapComponent {
    var center: Point
    /** Map units per pixel. */
    var resolution: real
    /** The size of the view's viewport in pixels, which `calculateExtent` uses. */
    var viewportSize: Size
    /** `map.getSize()`: undefined until the map element has a size. */
    var mapSize: Option<Size>
    /** `getView().getZoom()`: undefined before the map exists. */
    var zoom: Option<real>
    /** Every zoom animation started, oldest first. */
    var zoomAnimations: seq<ZoomAnimation>
    /** Every `View.fit` requested, oldest first. */
    var fitRequests: seq<FitRequest>

    /** The state after `ngOnInit`. */
    constructor (resolution: real, viewportSize: Size, mapSize: Option<Size>)
      ensures center == Point(1110161.0, 7085688.0) && zoom == Some(14.0)
      ensures this.resolution == resolution && this.viewportSize == viewportSize && this.mapSize == mapSize
      ensures zoomAnimations == [] && fitRequests == []
    {
      center := Point(1110161.0, 7085688.0);
      zoom := Some(14.0);
      this.resolution := resolution;
      this.viewportSize := viewportSize;
      this.mapSize := mapSize;
      zoomAnimations := [];
      fitRequests := [];
    }

    /** `getView().calculateExtent()`. */
    function Visible(): Extent
      reads this
    {
      VisibleExtent(center, resolution, viewportSize)
    }

    /** `onZoomIn`: half a level in, animated, unless the zoom is undefined or 0. */
    method OnZoomIn()
      modifies this`zoomAnimations
      ensures ZoomIsFalsy(zoom) ==> zoomAnimations == old(zoomAnimations)
      ensures !ZoomIsFalsy(zoom) ==>
                zoomAnimations == old(zoomAnimations) + [ZoomAnimation(zoom.value + ZoomStep, ZoomDurationMs)]
    {
      if ZoomIsFalsy(zoom) {
        return;
      }
      zoomAnimations := zoomAnimations + [ZoomAnimation(zoom.value + ZoomStep, ZoomDurationMs)];
    }

    /** `onZoomOut`: half a level out, animated, unless the zoom is undefined or 0. */
    method OnZoomOut()
      modifies this`zoomAnimations
      ensures ZoomIsFalsy(zoom) ==> zoomAnimations == old(zoomAnimations)
      ensures !ZoomIsFalsy(zoom) ==>
                zoomAnimations == old(zoomAnimations) + [ZoomAnimation(zoom.value - ZoomStep, ZoomDurationMs)]
    {
      if ZoomIsFalsy(zoom) {
        return;
      }
      zoomAnimations := zoomAnimations + [ZoomAnimation(zoom.value - ZoomStep, ZoomDurationMs)];
    }

    /** `fitMapView(extent)`: fit with the current map size and 25 pixels on every side. */
    method FitMapView(extent: Extent)
      modifies this`fitRequests
      ensures fitRequests == old(fitRequests) + [FitRequest(extent, mapSize, UniformPadding(FitPaddingPx))]
    {
      fitRequests := fitRequests + [FitRequest(extent, mapSize, UniformPadding(FitPaddingPx))];
    }

    /**
     * `moveToOutsideGeometry(extent)`: when the extent does not meet the
     * visible extent, the view is centred on the extent's midpoint; the
     * centre is kept otherwise. Either way a well-formed extent is visible
     * afterwards.
     */
    method MoveToOutsideGeometry(extent: Extent)
      modifies this`center
      ensures old(Intersects(Visible(), extent)) ==> center == old(center)
      ensures !old(Intersects(Visible(), extent)) ==> center == Center(extent)
      ensures WellFormed(extent) && resolution >= 0.0 && viewportSize.width >= 0.0 && viewportSize.height >= 0.0 ==>
                Intersects(Visible(), extent)
    {
      var geometryVisible := Intersects(Visible(), extent);
      if !geometryVisible {
        center := Center(extent);
        if WellFormed(extent) && resolution >= 0.0 && viewportSize.width >= 0.0 && viewportSize.height >= 0.0 {
          SharedPointIntersects(Visible(), extent, center);
        }
      }
    }
  }

  /** Two extents that contain a common point intersect. */
  lemma SharedPointIntersects(a: Extent, b: Extent, p: Point)
    requires ContainsPoint(a, p) && ContainsPoint(b, p)
    ensures Intersects(a, b)
  {
  }
}
