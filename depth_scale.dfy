/**
 * The depth colour scale shared by both map pages: the six-colour palette and
 * the classifier `getDepthRangeColor`, together with a table-driven reference
 * definition of the same depth ranges against which the classifier is proved.
 */
module DepthScale {

  /** The palette, shallow to deep (ColorBrewer "Oranges"). */
  const Colours: seq<string> := ["#FED976", "#FEB24C", "#FD8D3C", "#FC4E2A", "#E31A1C", "#BD0026"]

  /** The colour for depths at or above the surface margin (-10 km and shallower). */
  const CatchAll: string := "#FFEDA0"

  /** Exclusive lower bound of each depth range in km, shallow to deep. */
  const LowerBounds: seq<int> := [-10, 10, 30, 50, 70, 90]

  /** No two colours of the palette agree, and the catch-all colour is none of them. */
  predicate PaletteDistinct()
  {
    && CatchAll !in Colours
    && forall i, j :: 0 <= i < j < |Colours| ==> Colours[i] != Colours[j]
  }

  lemma PaletteIsDistinct()
    ensures |Colours| == |LowerBounds| == 6
    ensures PaletteDistinct()
  {
  }

  /** The classifier of the marker fill colour, with the thresholds written out as the pages have them. */
  function DepthRangeColor(d: real): (c: string)
    ensures c == CatchAll <==> d <= -10.0
    ensures c != CatchAll ==> c in Colours
  {
    PaletteIsDistinct();
    if d > 90.0 then Colours[5]
    else if d > 70.0 then Colours[4]
    else if d > 50.0 then Colours[3]
    else if d > 30.0 then Colours[2]
    else if d > 10.0 then Colours[1]
    else if d > -10.0 then Colours[0]
    else CatchAll
  }

  /** Depth `d` lies in range `i`: above its lower bound and, except for the deepest range, at most the next one. */
  predicate InRange(d: real, i: nat)
    requires i < |LowerBounds|
  {
    && (LowerBounds[i] as real) < d
    && (i + 1 < |LowerBounds| ==> d <= LowerBounds[i + 1] as real)
  }

  /**
   * Reference definition of the classifier as a table scan: starting from range `i`
   * and going shallower, the index of the first range whose lower bound `d` exceeds,
   * or -1 when there is none.
   */
  function ScanFrom(d: real, i: int): (k: int)
    requires -1 <= i < |LowerBounds|
    ensures -1 <= k <= i
    decreases i + 1
  {
    if i < 0 then -1
    else if d > LowerBounds[i] as real then i
    else ScanFrom(d, i - 1)
  }

  /** The palette index of depth `d` (-1 for the catch-all), scanning from the deepest range. */
  function RangeIndex(d: real): (k: int)
    ensures -1 <= k < |Colours|
  {
    ScanFrom(d, |LowerBounds| - 1)
  }

  /** The colour a palette index stands for. */
  function ColourOf(k: int): string
    requires -1 <= k < |Colours|
  {
    if k < 0 then CatchAll else Colours[k]
  }

  /** What the scan from range `i` finds: a range whose bound `d` exceeds, with every deeper one not exceeded. */
  lemma {:induction false} ScanFromFinds(d: real, i: int)
    requires -1 <= i < |LowerBounds|
    ensures ScanFrom(d, i) >= 0 ==> d > LowerBounds[ScanFrom(d, i)] as real
    ensures forall m :: ScanFrom(d, i) < m <= i ==> d <= LowerBounds[m] as real
  {
    if i >= 0 && d <= LowerBounds[i] as real {
      ScanFromFinds(d, i - 1);
    }
  }

  /** The chained conditional of the pages and the table scan pick the same colour for every depth. */
  lemma ClassifierFollowsTable(d: real)
    ensures DepthRangeColor(d) == ColourOf(RangeIndex(d))
  {
    ScanFromFinds(d, 5);
  }

  /** The scan finds range `i` exactly when `d` lies in range `i`, and finds nothing exactly when `d <= -10`. */
  lemma RangeIndexIsRange(d: real, i: nat)
    requires i < |LowerBounds|
    ensures RangeIndex(d) == i <==> InRange(d, i)
    ensures RangeIndex(d) == -1 <==> d <= -10.0
  {
    ScanFromFinds(d, 5);
  }

  /**
   * Range `i` gets palette colour `i`, and only depths in range `i` get it:
   * (-10,10] -> Colours[0], (10,30] -> Colours[1], ..., (90,+inf) -> Colours[5].
   */
  lemma RangeColour(d: real, i: nat)
    requires i < |Colours|
    ensures DepthRangeColor(d) == Colours[i] <==> InRange(d, i)
  {
    PaletteIsDistinct();
    ClassifierFollowsTable(d);
    RangeIndexIsRange(d, i);
  }

  /** Depths at or below -10 km get the catch-all colour, which is outside the palette. */
  lemma CatchAllBelowRange(d: real)
    ensures DepthRangeColor(d) == CatchAll <==> d <= -10.0
    ensures d <= -10.0 ==> DepthRangeColor(d) !in Colours
  {
    PaletteIsDistinct();
  }

  /** The ranges are closed above and open below. */
  lemma BoundariesExclusiveBelow()
    ensures DepthRangeColor(90.0) == Colours[4]
    ensures DepthRangeColor(70.0) == Colours[3]
    ensures DepthRangeColor(10.0) == Colours[0]
    ensures DepthRangeColor(-10.0) == CatchAll
  {
  }

  /** A deeper event never gets a shallower colour: the palette index is monotone in depth. */
  lemma {:induction false} ScanMonotone(d1: real, d2: real, i: int)
    requires -1 <= i < |LowerBounds|
    requires d1 <= d2
    ensures ScanFrom(d1, i) <= ScanFrom(d2, i)
  {
    if i >= 0 && d2 <= LowerBounds[i] as real {
      ScanMonotone(d1, d2, i - 1);
    } else if i >= 0 {
      ScanFromFinds(d1, i);
    }
  }

  /** For depths d1 <= d2 the classifier's palette index for d1 is at most that for d2. */
  lemma ClassifierMonotone(d1: real, d2: real)
    requires d1 <= d2
    ensures DepthRangeColor(d1) == ColourOf(RangeIndex(d1))
    ensures DepthRangeColor(d2) == ColourOf(RangeIndex(d2))
    ensures RangeIndex(d1) <= RangeIndex(d2)
  {
    ClassifierFollowsTable(d1);
    ClassifierFollowsTable(d2);
    ScanMonotone(d1, d2, |LowerBounds| - 1);
  }
}
