/**
 * The initial map view of both pages: the two corners handed to `L.latLngBounds`,
 * read from the feed's `bbox` array in (latitude, longitude) order.
 */
module Viewport {
  import opened Results

  /** A geographic point as Leaflet takes it: latitude first. */
  datatype LatLng = LatLng(lat: real, lng: real)

  /** The two corners passed to `L.latLngBounds`. */
  datatype Corners = Corners(corner1: LatLng, corner2: LatLng)

  /** The feed's `bbox` has no entry at an index the pages read (JavaScript would read `undefined`). */
  datatype BBoxError = MissingBBoxEntry(index: nat)

  /** A GeoJSON bounding box with elevation, under field names instead of positions. */
  datatype FeedBox = FeedBox(minLon: real, minLat: real, minDepth: real, maxLon: real, maxLat: real, maxDepth: real)

  /** The array layout of a `FeedBox` in the feed: `[minLon, minLat, minDepth, maxLon, maxLat, maxDepth]`. */
  function Encode(b: FeedBox): (s: seq<real>)
    ensures |s| == 6
  {
    [b.minLon, b.minLat, b.minDepth, b.maxLon, b.maxLat, b.maxDepth]
  }

  /**
   * The corners the pages build: `corner1 = (bbox[1], bbox[0])`, `corner2 = (bbox[4], bbox[3])`.
   * Both pages read up to index 4, so a box of fewer than five numbers has no bounds.
   */
  function MapCorners(bbox: seq<real>): (r: Result<Corners, BBoxError>)
    ensures r.Ok? <==> |bbox| >= 5
    ensures r.Err? ==> r.error == MissingBBoxEntry(|bbox|)
  {
    if |bbox| < 5 then Err(MissingBBoxEntry(|bbox|))
    else Ok(Corners(LatLng(bbox[1], bbox[0]), LatLng(bbox[4], bbox[3])))
  }

  /**
   * On a feed box the pages swap each (longitude, latitude) pair into a (latitude, longitude)
   * point: the first corner is the south-west (minLat, minLon) and the second the north-east.
   */
  lemma CornersOfFeedBox(b: FeedBox)
    ensures MapCorners(Encode(b)) == Ok(Corners(LatLng(b.minLat, b.minLon), LatLng(b.maxLat, b.maxLon)))
    ensures b.minLat <= b.maxLat && b.minLon <= b.maxLon ==>
      var c := MapCorners(Encode(b)).value;
      c.corner1.lat <= c.corner2.lat && c.corner1.lng <= c.corner2.lng
  {
  }

  /** A two-dimensional GeoJSON box `[minLon, minLat, maxLon, maxLat]` has no fifth entry, so no bounds are built. */
  lemma FlatBoxHasNoCorners(minLon: real, minLat: real, maxLon: real, maxLat: real)
    ensures MapCorners([minLon, minLat, maxLon, maxLat]) == Err(MissingBBoxEntry(4))
  {
  }

  /** The box of the example San Francisco Bay feed. */
  lemma BayAreaExample()
    ensures MapCorners([-122.5, 37.0, 0.0, -121.0, 38.0, 10.0])
      == Ok(Corners(LatLng(37.0, -122.5), LatLng(38.0, -121.0)))
  {
  }
}
