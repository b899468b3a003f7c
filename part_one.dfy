/** The legend control of the earthquakes-only page: a bare list, range labels without a unit. */
module PartOne {
  import opened Legend
  import DepthScale

  /** What closes each range label in this page's legend: the bare closing tag. */
  const SpanEnd: string := "</span>"

  /**
   * `legend.onAdd`: fill `labels` and set the legend's inner HTML to
   * `"<ul>" + labels.join("") + "</ul>"`, with no title.
   */
  method OnAdd() returns (innerHTML: string)
    ensures innerHTML == "<ul>" + RowsHtml(|Limits|, SpanEnd) + "</ul>"
  {
    var labels := BuildLabels(SpanEnd);
    var rows := Join(labels);
    JoinEntries(|Limits|, SpanEnd);
    assert rows == RowsHtml(|Limits|, SpanEnd);
    var list := "<ul>" + rows + "</ul>";
    innerHTML := "";
    assert innerHTML + list == list;
    innerHTML := innerHTML + list;
  }

  /** Each row of this legend shows its swatch and the bare range label. */
  lemma RowsShowBareLimits(i: nat)
    requires i < |Limits|
    ensures EntryHtml(i, SpanEnd) == "<div>" + Swatch(DepthScale.Colours[i]) + "<span>" + Limits[i] + "</span>" + "</div>"
  {
  }
}
