# Earthquake map styling, modelled in Dafny

The repository draws the past week's USGS earthquakes on a Leaflet map, in two pages:
`Leaflet-Part-1` (earthquakes only) and `Leaflet-Part-2` (earthquakes plus tectonic plate
boundaries and a choice of base maps). Both pages hold the same decision logic, character for
character, except for the legend:

- the depth palette `colours` and the classifier `getDepthRangeColor` (Part-1 lines 23-34,
  Part-2 lines 30-41);
- the map bounds read from the feed's `bbox` (Part-1 lines 12-15, Part-2 lines 19-22);
- the `pointToLayer` callback: marker radius, fill colour and popup (Part-1 lines 43-64,
  Part-2 lines 50-71);
- the `forEach` loop that fills the legend's `labels` (Part-1 lines 98-105, Part-2 lines 141-148).

Each of these is modelled once, in a module of its own, and the table below cites whichever
page's lines a member is checked against; the same statement holds for the other page's copy.
The legends differ: Part-2 adds the title `<div>Depth scale</div>` and writes " km" after each
range label; Part-1 has neither. Those two `legend.onAdd` bodies are `PartOne.OnAdd` and
`PartTwo.OnAdd`.

Modules:

- `DepthScale` (depth_scale.dfy): the palette, the catch-all colour, the classifier as the chained
  conditional the pages write, and a reference definition as a table of exclusive lower bounds
  scanned from the deepest range. The two are proved to agree, and the classifier is proved
  monotone in depth.
- `Viewport` (viewport.dfy): the two corners built from `bbox[1], bbox[0]` and `bbox[4], bbox[3]`.
- `Markers` (markers.dfy): the marker options, the popup built line by line, and the error a
  missing magnitude or depth raises. `toFixed(2)` and `new Date(ms)` are parameters
  (`fixed2`, `dateText`), because their output depends on IEEE-754 rounding and on the
  platform's locale and time zone.
- `Legend` (legend.dfy): the range labels, the loop that fills `labels`, `join("")`, and the
  agreement between legend rows and classifier ranges.
- `PartOne`, `PartTwo` (part_one.dfy, part_two.dfy): each page's `legend.onAdd`.
- `Results` (results.dfy): `Result` and `Option`.

Error behaviour follows the JavaScript. Reading a missing array index gives `undefined`, and
calling `toFixed` on `null` or `undefined` throws a `TypeError`. So the model reports an error for:

- a `bbox` of fewer than five numbers;
- a feature whose magnitude is `null`;
- a feature with fewer than three coordinates.

The popup is built before the marker options, so the magnitude is checked first.

## Model

| member | source | states |
|---|---|---|
| `DepthScale.DepthRangeColor` | Leaflet-Part-2/static/js/logic.js:33-41 | the result is the catch-all colour exactly when the depth is at most -10, and otherwise a palette colour |
| `DepthScale.PaletteIsDistinct` | Leaflet-Part-2/static/js/logic.js:30-40 | the six palette colours are pairwise different and the catch-all `#FFEDA0` is none of them |
| `DepthScale.ClassifierFollowsTable` | Leaflet-Part-2/static/js/logic.js:33-40 | the chained conditional picks the same colour as a first-match scan of the threshold table from the deepest range down |
| `DepthScale.RangeIndexIsRange` | Leaflet-Part-2/static/js/logic.js:34-39 | the table scan finds range i exactly when the depth lies in (bound i, bound i+1], and nothing exactly when the depth is at most -10 |
| `DepthScale.RangeColour` | Leaflet-Part-1/static/js/logic.js:26-32 | the classifier returns `colours[i]` if and only if the depth lies in range i: (-10,10], (10,30], (30,50], (50,70], (70,90] or above 90 |
| `DepthScale.CatchAllBelowRange` | Leaflet-Part-1/static/js/logic.js:23-33 | depths at most -10, and only those, get `#FFEDA0`, which is not in `colours` |
| `DepthScale.BoundariesExclusiveBelow` | Leaflet-Part-2/static/js/logic.js:34-40 | ranges are open below and closed above: 90 gives `colours[4]`, 70 gives `colours[3]`, 10 gives `colours[0]`, -10 gives the catch-all |
| `DepthScale.ScanMonotone` | Leaflet-Part-1/static/js/logic.js:27-32 | the range found by the threshold scan never decreases as the depth grows |
| `DepthScale.ClassifierMonotone` | Leaflet-Part-2/static/js/logic.js:33-39 | for d1 <= d2 the classifier's palette index for d1 is at most that for d2, the catch-all counting as -1 |
| `Viewport.MapCorners` | Leaflet-Part-1/static/js/logic.js:12-15 | bounds are built exactly when the bbox has at least five entries; otherwise the error names the missing index |
| `Viewport.CornersOfFeedBox` | Leaflet-Part-2/static/js/logic.js:19-22 | on a feed box `[minLon, minLat, minDepth, maxLon, maxLat, maxDepth]` the first corner is (minLat, minLon) and the second (maxLat, maxLon), so longitude and latitude are swapped; on a well-ordered box the first corner is the south-west one |
| `Viewport.FlatBoxHasNoCorners` | Leaflet-Part-2/static/js/logic.js:19-21 | a four-number bbox without elevations yields no bounds, because index 4 is missing |
| `Viewport.BayAreaExample` | Leaflet-Part-1/static/js/logic.js:12-15 | the bbox [-122.5, 37, 0, -121, 38, 10] gives corners (37, -122.5) and (38, -121) |
| `Markers.Radius` | Leaflet-Part-1/static/js/logic.js:58 | the radius is positive exactly when the magnitude exceeds -3, and zero exactly at -3 |
| `Markers.RadiusStrictlyIncreasing` | Leaflet-Part-2/static/js/logic.js:65 | a larger magnitude gives a strictly larger radius |
| `Markers.RadiusExamples` | Leaflet-Part-2/static/js/logic.js:65 | magnitude 0 gives radius 6 and magnitude 7 gives radius 20 |
| `Markers.PopupSplits` | Leaflet-Part-1/static/js/logic.js:45-48 | the popup is the place heading, the magnitude line, the depth line and the time line, in that order, and the depth line ends in " km</p>" |
| `Markers.PopupInjective` | Leaflet-Part-2/static/js/logic.js:52-55 | texts of the same lengths give the same popup only if place, magnitude, depth and time texts all agree |
| `Markers.PopupText` | Leaflet-Part-2/static/js/logic.js:52-55 | appending the four lines yields the popup template, and fails on a null magnitude or a missing depth |
| `Markers.PointToLayer` | Leaflet-Part-1/static/js/logic.js:43-64 | the marker sits at the given point, its radius is the radius of the magnitude, its fill colour is the classifier applied to `coordinates[2]`, its edge is black with weight 1, opacity 1 and fill opacity 0.8, and its popup is the template; it fails exactly when the magnitude is null or the depth missing |
| `Legend.BuildLabels` | Leaflet-Part-1/static/js/logic.js:94-105 | the loop leaves in `labels` the four fragments of each range in ascending depth order |
| `Legend.EntriesUpToAt` | Leaflet-Part-2/static/js/logic.js:141-148 | fragment 4i+j of the labels is fragment j of range i |
| `Legend.LabelsLayout` | Leaflet-Part-2/static/js/logic.js:137-148 | `labels` holds 24 fragments; for range i they are an opening div, the swatch of `colours[i]`, the span of `limits[i]` and a closing div |
| `Legend.LegendAgreesWithClassifier` | Leaflet-Part-2/static/js/logic.js:137-148 | the swatch of legend row i shows the colour the classifier gives a depth exactly when that depth lies in range i |
| `Legend.LimitsSpellBounds` | Leaflet-Part-1/static/js/logic.js:94 | the legend labels spell the classifier's thresholds: label i reads "lower - upper" of range i and the last reads "90+" |
| `Legend.JoinEntries` | Leaflet-Part-2/static/js/logic.js:154 | `labels.join("")` is the HTML of the six rows, each a div with its swatch and its label |
| `Legend.RowsHtmlAt` | Leaflet-Part-1/static/js/logic.js:110 | in the joined HTML, row i sits between rows i-1 and i+1, so rows appear in ascending depth order |
| `PartOne.OnAdd` | Leaflet-Part-1/static/js/logic.js:92-112 | the legend HTML is `<ul>`, the six rows and `</ul>`, with no title |
| `PartOne.RowsShowBareLimits` | Leaflet-Part-1/static/js/logic.js:103 | each row's span holds the bare range label, with no unit |
| `PartTwo.OnAdd` | Leaflet-Part-2/static/js/logic.js:135-156 | the legend HTML is the "Depth scale" title, then `<ul>`, the six rows and `</ul>` |
| `PartTwo.RowsShowLimitsInKm` | Leaflet-Part-2/static/js/logic.js:146 | each row's span holds the range label followed by " km" |

## Left out

- The `d3.json` fetch of the feed and its promise continuation: network input, asynchronous.
- Every Leaflet call (`L.map`, `L.tileLayer`, `L.geoJSON`, `L.circleMarker`, `bindPopup`,
  `L.latLng`, `L.latLngBounds`, `fitBounds`, `L.control`, `L.control.layers`,
  `L.DomUtil.create`, `addTo`). These belong to the rendering library. `PointToLayer` takes the
  marker position as a parameter, as Leaflet's callback receives it. `MapCorners` returns the two
  corners as given; Leaflet's own ordering of them into a bounds object is not modelled.
- `createFeatures`, which hands the whole feature list to `L.geoJSON`. The iteration over
  features is Leaflet's, so the model styles one feature at a time.
- `toFixed(2)` and `new Date(ms)`: these are function parameters of `PopupText` and
  `PointToLayer`, so the model states nothing about their output.
- NaN and infinite depths and magnitudes: depths and magnitudes are `real`.
- A `null` place: a template literal would print "null". The model types the place as a string.
- The plate-boundary layer and its fixed style (Part-2 lines 76-83), the base and overlay layer
  tables, tile URLs and attribution strings: static configuration handed to Leaflet.
- The `div` element the legend writes into: the model returns its final `innerHTML` as a string.
