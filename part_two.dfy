/** The legend control of the page with the plate boundaries: a title, then range labels in km. */
module PartTwo {
  import opened Legend
  import DepthScale

  /** What closes each range label in this page's legend: the unit, then the closing tag. */
  const SpanEnd: string := " km</span>"

  /** The heading above the list. */
  const Title: string := "<div>Depth scale</div>"

  /**
   * `legend.onAdd`: fill `labels`, clear the legend's inner HTML, append the title and then
   * `"<ul>" + labels.join("") + "</ul>"`.
   */
  method OnAdd() returns (innerHTML: string)
    ensures innerHTML == Title + ("<ul>" + RowsHtml(|Limits|, SpanEnd) + "</ul>")
  {
    var labels := BuildLabels(SpanEnd);
    var rows := Join(labels);
    JoinEntries(|Limits|, SpanEnd);
    assert rows == RowsHtml(|Limits|, SpanEnd);
    var list := "<ul>" + rows + "</ul>";
    innerHTML := "";
    innerHTML := innerHTML + "<div>Depth scale</div>";
    assert innerHTML == Title;
    innerHTML := innerHTML + list;
  }

  /** Each row of this legend shows its swatch and the range label followed by " km". */
  lemma RowsShowLimitsInKm(i: nat)
    requires i < |Limits|
    ensures EntryHtml(i, SpanEnd) == "<div>" + Swatch(DepthScale.Colours[i]) + "<span>" + Limits[i] + " km</span>" + "</div>"
  {
  }
}
