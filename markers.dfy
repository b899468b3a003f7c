/**
 * The `pointToLayer` callback of both pages: the circle marker drawn for one
 * earthquake and the popup bound to it. `toFixed(2)` and `new Date(ms)` are
 * supplied by the caller as `fixed2` and `dateText`.
 */
module Markers {
  import opened Results
  import opened DepthScale
  import opened Viewport

  /** The parts of a feed feature the callback reads: `properties.place/mag/time` and `geometry.coordinates`. */
  datatype Feature = Feature(place: string, mag: Option<real>, time: int, coordinates: seq<real>)

  /** The `L.circleMarker` options the pages pass. */
  datatype MarkerOptions = MarkerOptions(
    radius: real, fillColor: string, color: string, weight: int, opacity: real, fillOpacity: real)

  /** A circle marker at `center` with its popup text. */
  datatype Marker = Marker(center: LatLng, options: MarkerOptions, popup: string)

  /** The `TypeError` the callback throws: `toFixed` called on a `null` magnitude or a missing depth. */
  datatype StyleError = NullMagnitude | MissingDepth

  /** Marker radius from magnitude: `(mag + 3.0) * 2.0`. */
  function Radius(mag: real): (r: real)
    ensures r > 0.0 <==> mag > -3.0
    ensures r == 0.0 <==> mag == -3.0
  {
    (mag + 3.0) * 2.0
  }

  /** Stronger earthquakes get larger markers. */
  lemma RadiusStrictlyIncreasing(m1: real, m2: real)
    requires m1 < m2
    ensures Radius(m1) < Radius(m2)
  {
  }

  lemma RadiusExamples()
    ensures Radius(0.0) == 6.0 && Radius(7.0) == 20.0
  {
  }

  function PlaceHeading(place: string): string { "<h3>" + place + "</h3><hr>" }
  function MagnitudeLine(magText: string): string { "<p>Magnitude: " + magText + "</p>" }
  function DepthLine(depthText: string): string { "<p>Depth: " + depthText + " km</p>" }
  function TimeLine(timeText: string): string { "<p>" + timeText + "</p>" }

  /** The popup template: place heading, magnitude, depth in km and time, in that order. */
  function Popup(place: string, magText: string, depthText: string, timeText: string): string
  {
    PlaceHeading(place) + MagnitudeLine(magText) + DepthLine(depthText) + TimeLine(timeText)
  }

  /**
   * The popup splits back into its four lines at fixed offsets, so each of them can be
   * read out of it: the heading first, then magnitude, depth (ending in " km</p>") and time.
   */
  lemma PopupSplits(place: string, magText: string, depthText: string, timeText: string)
    ensures var p := Popup(place, magText, depthText, timeText);
      var k1 := |PlaceHeading(place)|;
      var k2 := k1 + |MagnitudeLine(magText)|;
      var k3 := k2 + |DepthLine(depthText)|;
      && |p| == k3 + |TimeLine(timeText)|
      && p[..k1] == PlaceHeading(place)
      && p[k1..k2] == MagnitudeLine(magText)
      && p[k2..k3] == DepthLine(depthText)
      && p[k3..] == TimeLine(timeText)
      && p[k3 - 7..k3] == " km</p>"
  {
    var h, m, d, t := PlaceHeading(place), MagnitudeLine(magText), DepthLine(depthText), TimeLine(timeText);
    var p := Popup(place, magText, depthText, timeText);
    assert p == ((h + m) + d) + t;
    assert d[|d| - 7..] == " km</p>";
  }

  /** Two popups are equal only when their four texts are: the template loses nothing. */
  lemma PopupInjective(place: string, magText: string, depthText: string, timeText: string,
                       place': string, magText': string, depthText': string, timeText': string)
    requires |place| == |place'| && |magText| == |magText'| && |depthText| == |depthText'|
    requires Popup(place, magText, depthText, timeText) == Popup(place', magText', depthText', timeText')
    ensures place == place' && magText == magText' && depthText == depthText' && timeText == timeText'
  {
    PopupSplits(place, magText, depthText, timeText);
    PopupSplits(place', magText', depthText', timeText');
    var h, h' := PlaceHeading(place), PlaceHeading(place');
    assert place == h[4..|h| - 9] && place' == h'[4..|h'| - 9];
    var m, m' := MagnitudeLine(magText), MagnitudeLine(magText');
    assert magText == m[14..|m| - 4] && magText' == m'[14..|m'| - 4];
    var d, d' := DepthLine(depthText), DepthLine(depthText');
    assert depthText == d[10..|d| - 7] && depthText' == d'[10..|d'| - 7];
    var t, t' := TimeLine(timeText), TimeLine(timeText');
    assert timeText == t[3..|t| - 4] && timeText' == t'[3..|t'| - 4];
  }

  /**
   * The popup text, built as the pages build it, by appending one line at a time.
   * Fails as `toFixed` does when the magnitude is `null` or the depth is missing.
   */
  method PopupText(f: Feature, fixed2: real -> string, dateText: int -> string)
    returns (r: Result<string, StyleError>)
    ensures r.Ok? <==> f.mag.Some? && |f.coordinates| >= 3
    ensures f.mag.None? ==> r == Err(NullMagnitude)
    ensures r.Ok? ==> r.value == Popup(f.place, fixed2(f.mag.value), fixed2(f.coordinates[2]), dateText(f.time))
  {
    var popupText := "<h3>" + f.place + "</h3><hr>";
    if f.mag.None? {
      return Err(NullMagnitude);
    }
    popupText := popupText + "<p>Magnitude: " + fixed2(f.mag.value) + "</p>";
    if |f.coordinates| < 3 {
      return Err(MissingDepth);
    }
    popupText := popupText + "<p>Depth: " + fixed2(f.coordinates[2]) + " km</p>";
    popupText := popupText + "<p>" + dateText(f.time) + "</p>";
    return Ok(popupText);
  }

  /**
   * The marker for one feature at `latlng`: radius from the magnitude, fill colour from the
   * third coordinate (the depth), black edge, and the popup above.
   */
  method PointToLayer(f: Feature, latlng: LatLng, fixed2: real -> string, dateText: int -> string)
    returns (r: Result<Marker, StyleError>)
    ensures r.Ok? <==> f.mag.Some? && |f.coordinates| >= 3
    ensures f.mag.None? ==> r == Err(NullMagnitude)
    ensures r.Ok? ==> r.value.center == latlng
    ensures r.Ok? ==> r.value.options.radius == Radius(f.mag.value)
    ensures r.Ok? ==> r.value.options.fillColor == DepthRangeColor(f.coordinates[2])
    ensures r.Ok? ==> r.value.options == MarkerOptions(r.value.options.radius, r.value.options.fillColor, "#000", 1, 1.0, 0.8)
    ensures r.Ok? ==> r.value.popup == Popup(f.place, fixed2(f.mag.value), fixed2(f.coordinates[2]), dateText(f.time))
  {
    var popupText := PopupText(f, fixed2, dateText);
    if popupText.Err? {
      return Err(popupText.error);
    }
    var options := MarkerOptions(
      (f.mag.value + 3.0) * 2.0, DepthRangeColor(f.coordinates[2]), "#000", 1, 1.0, 0.8);
    return Ok(Marker(latlng, options, popupText.value));
  }
}
