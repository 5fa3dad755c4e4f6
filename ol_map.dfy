/**
 * The part of the map library's geometry that the components rely on:
 * points, pixel sizes, axis-aligned extents `[minX, minY, maxX, maxY]`,
 * `extend`, `intersects`, the extent a view shows for a pixel size,
 * fit requests, and the JavaScript truthiness of a zoom level.
 */
module OlMap {
  import opened Wrappers

  datatype Point = Point(x: real, y: real)

  datatype Size = Size(width: real, height: real)

  datatype Extent = Extent(minX: real, minY: real, maxX: real, maxY: real)

  /** Padding in pixels, in the library's order: top, right, bottom, left. */
  datatype Padding = Padding(top: real, right: real, bottom: real, left: real)

  /** A request to `View.fit`: the extent to show, the map size and the padding. */
  datatype FitRequest = FitRequest(extent: Extent, size: Option<Size>, padding: Padding)

  predicate WellFormed(e: Extent) {
    e.minX <= e.maxX && e.minY <= e.maxY
  }

  predicate ContainsPoint(e: Extent, p: Point) {
    e.minX <= p.x <= e.maxX && e.minY <= p.y <= e.maxY
  }

  /** `containsExtent(outer, inner)` */
  predicate ContainsExtent(outer: Extent, inner: Extent) {
    outer.minX <= inner.minX && inner.maxX <= outer.maxX &&
    outer.minY <= inner.minY && inner.maxY <= outer.maxY
  }

  /** `intersects(a, b)`: the two extents overlap or touch. */
  predicate Intersects(a: Extent, b: Extent) {
    a.minX <= b.maxX && a.maxX >= b.minX && a.minY <= b.maxY && a.maxY >= b.minY
  }

  function Min(a: real, b: real): real { if a <= b then a else b }

  function Max(a: real, b: real): real { if a >= b then a else b }

  /** `extend(a, b)`: the smallest extent that contains both arguments. */
  function Extend(a: Extent, b: Extent): (r: Extent)
    ensures ContainsExtent(r, a) && ContainsExtent(r, b)
    ensures forall e :: ContainsExtent(e, a) && ContainsExtent(e, b) ==> ContainsExtent(e, r)
  {
    Extent(Min(a.minX, b.minX), Min(a.minY, b.minY), Max(a.maxX, b.maxX), Max(a.maxY, b.maxY))
  }

  /** `start` extended by each of `exts`, left to right (a `forEach` over `extend`). */
  function ExtendAll(start: Extent, exts: seq<Extent>): Extent
    decreases |exts|
  {
    if exts == [] then start else ExtendAll(Extend(start, exts[0]), exts[1..])
  }

  /** The result of `ExtendAll` covers the start and every extent folded in. */
  lemma {:induction false} ExtendAllCovers(start: Extent, exts: seq<Extent>)
    ensures ContainsExtent(ExtendAll(start, exts), start)
    ensures forall i :: 0 <= i < |exts| ==> ContainsExtent(ExtendAll(start, exts), exts[i])
    decreases |exts|
  {
    if exts != [] {
      var next := Extend(start, exts[0]);
      ExtendAllCovers(next, exts[1..]);
      forall i | 0 <= i < |exts|
        ensures ContainsExtent(ExtendAll(start, exts), exts[i])
      {
        if i > 0 {
          assert exts[i] == exts[1..][i - 1];
        }
      }
    }
  }

  /** ... and it is the smallest extent that does so. */
  lemma {:induction false} ExtendAllLeast(start: Extent, exts: seq<Extent>, e: Extent)
    requires ContainsExtent(e, start)
    requires forall i :: 0 <= i < |exts| ==> ContainsExtent(e, exts[i])
    ensures ContainsExtent(e, ExtendAll(start, exts))
    decreases |exts|
  {
    if exts != [] {
      assert ContainsExtent(e, exts[0]);
      forall i | 0 <= i < |exts| - 1
        ensures ContainsExtent(e, exts[1..][i])
      {
        assert exts[1..][i] == exts[i + 1];
      }
      ExtendAllLeast(Extend(start, exts[0]), exts[1..], e);
    }
  }

  /** The midpoint of an extent, as `moveToOutsideGeometry` computes it. */
  function Center(e: Extent): (c: Point)
    ensures WellFormed(e) ==> ContainsPoint(e, c)
    ensures c.x - e.minX == e.maxX - c.x && c.y - e.minY == e.maxY - c.y
  {
    Point(e.minX + (e.maxX - e.minX) / 2.0, e.minY + (e.maxY - e.minY) / 2.0)
  }

  /**
   * `View.calculateExtent(size)` for an unrotated view: the extent of
   * `size` pixels at `resolution` map units per pixel around `center`.
   */
  function VisibleExtent(center: Point, resolution: real, size: Size): (r: Extent)
    ensures Center(r) == center
    ensures resolution >= 0.0 && size.width >= 0.0 && size.height >= 0.0 ==>
              WellFormed(r) && ContainsPoint(r, center)
  {
    var dx := resolution * size.width / 2.0;
    var dy := resolution * size.height / 2.0;
    assert resolution >= 0.0 && size.width >= 0.0 ==> dx >= 0.0;
    assert resolution >= 0.0 && size.height >= 0.0 ==> dy >= 0.0;
    Extent(center.x - dx, center.y - dy, center.x + dx, center.y + dy)
  }

  /** A map size with `padding` pixels taken off each side. */
  function Padded(size: Size, padding: real): Size {
    Size(size.width - 2.0 * padding, size.height - 2.0 * padding)
  }

  function UniformPadding(px: real): Padding {
    Padding(px, px, px, px)
  }

  /** The zoom a view settles on when asked for `z`: `z` held to the view's `[lo, hi]` zoom range. */
  function ConstrainZoom(z: real, lo: real, hi: real): (c: real)
    requires lo <= hi
    ensures lo <= c <= hi
    ensures lo <= z <= hi ==> c == z
    ensures z < lo ==> c == lo
    ensures hi < z ==> c == hi
  {
    if z < lo then lo else if hi < z then hi else z
  }

  /** `!zoom` in JavaScript: an undefined zoom or a zoom of 0. */
  predicate ZoomIsFalsy(zoom: Option<real>) {
    zoom.None? || zoom.value == 0.0
  }
}
