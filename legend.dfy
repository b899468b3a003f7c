/**
 * The legend shared by both pages: the six range labels and the `labels` array
 * that `legend.onAdd` fills, four fragments per range, pairing range `i` with
 * palette colour `i`. The pages differ only in the text that closes each range label.
 */
module Legend {
  import opened DepthScale

  /** The range labels of the legend, shallow to deep. */
  const Limits: seq<string> := ["-10 - 10", "10 - 30", "30 - 50", "50 - 70", "70 - 90", "90+"]

  /** The list item that shows a colour swatch. */
  function Swatch(colour: string): string
  {
    "<li style=\"background-color: " + colour + ";color: " + colour + "\">.</li>"
  }

  /** The span that shows a range label; `spanEnd` closes it (" km</span>" on one page, "</span>" on the other). */
  function RangeLabel(limit: string, spanEnd: string): string
  {
    "<span>" + limit + spanEnd
  }

  /** The four fragments pushed for range `i`. */
  function Entry(i: nat, spanEnd: string): seq<string>
    requires i < |Limits|
  {
    ["<div>", Swatch(Colours[i]), RangeLabel(Limits[i], spanEnd), "</div>"]
  }

  /** The fragments pushed for the first `n` ranges, in order. */
  function EntriesUpTo(n: nat, spanEnd: string): (labels: seq<string>)
    requires n <= |Limits|
    ensures |labels| == 4 * n
  {
    if n == 0 then [] else EntriesUpTo(n - 1, spanEnd) + Entry(n - 1, spanEnd)
  }

  /** `parts.join("")`. */
  function Join(parts: seq<string>): string
  {
    if parts == [] then "" else Join(parts[..|parts| - 1]) + parts[|parts| - 1]
  }

  /** The HTML of one legend row: a `div` with the swatch and the label. */
  function EntryHtml(i: nat, spanEnd: string): string
    requires i < |Limits|
  {
    "<div>" + Swatch(Colours[i]) + RangeLabel(Limits[i], spanEnd) + "</div>"
  }

  /** The HTML of the first `n` legend rows. */
  function RowsHtml(n: nat, spanEnd: string): string
    requires n <= |Limits|
  {
    if n == 0 then "" else RowsHtml(n - 1, spanEnd) + EntryHtml(n - 1, spanEnd)
  }

  /**
   * The `forEach` loop of `legend.onAdd`: for each range, push an opening `div`,
   * the colour swatch, the range label and a closing `div` onto `labels`.
   */
  method BuildLabels(spanEnd: string) returns (labels: seq<string>)
    ensures labels == EntriesUpTo(|Limits|, spanEnd)
  {
    labels := [];
    for index := 0 to |Limits|
      invariant labels == EntriesUpTo(index, spanEnd)
    {
      labels := labels + ["<div>"];
      labels := labels + ["<li style=\"background-color: " + Colours[index] + ";color: " + Colours[index] + "\">.</li>"];
      labels := labels + ["<span>" + Limits[index] + spanEnd];
      labels := labels + ["</div>"];
    }
  }

  /** Fragment `4 * i + j` of the labels of the first `n` ranges is fragment `j` of range `i`. */
  lemma {:induction false} EntriesUpToAt(n: nat, spanEnd: string, i: nat, j: nat)
    requires n <= |Limits| && i < n && j < 4
    ensures EntriesUpTo(n, spanEnd)[4 * i + j] == Entry(i, spanEnd)[j]
  {
    if i < n - 1 {
      EntriesUpToAt(n - 1, spanEnd, i, j);
    } else if n > 1 {
      EntriesUpToAt(n - 1, spanEnd, 0, 0);
    }
  }

  /**
   * The labels hold 24 fragments: for each range `i`, in ascending depth order,
   * an opening `div`, the swatch of `Colours[i]`, the label `Limits[i]` and a closing `div`.
   */
  lemma LabelsLayout(spanEnd: string)
    ensures |EntriesUpTo(|Limits|, spanEnd)| == 24
    ensures forall i, j :: 0 <= i < |Limits| && 0 <= j < 4 ==>
      EntriesUpTo(|Limits|, spanEnd)[4 * i + j] == Entry(i, spanEnd)[j]
  {
    forall i, j | 0 <= i < |Limits| && 0 <= j < 4
      ensures EntriesUpTo(|Limits|, spanEnd)[4 * i + j] == Entry(i, spanEnd)[j]
    {
      EntriesUpToAt(|Limits|, spanEnd, i, j);
    }
  }

  /** Joining distributes over concatenation. */
  lemma {:induction false} JoinAppend(a: seq<string>, b: seq<string>)
    ensures Join(a + b) == Join(a) + Join(b)
    decreases |b|
  {
    if b != [] {
      var b' := b[..|b| - 1];
      assert (a + b)[..|a + b| - 1] == a + b';
      JoinAppend(a, b');
    } else {
      assert a + b == a;
    }
  }

  /** Joining the fragments of the first `n` ranges gives the HTML of the first `n` rows. */
  lemma {:induction false} JoinEntries(n: nat, spanEnd: string)
    requires n <= |Limits|
    ensures Join(EntriesUpTo(n, spanEnd)) == RowsHtml(n, spanEnd)
  {
    if n > 0 {
      JoinEntries(n - 1, spanEnd);
      JoinAppend(EntriesUpTo(n - 1, spanEnd), Entry(n - 1, spanEnd));
      var e := Entry(n - 1, spanEnd);
      assert Join(e[..1]) == e[0] by { assert e[..1][..0] == []; }
      assert Join(e[..2]) == e[0] + e[1] by { assert e[..2][..1] == e[..1]; }
      assert Join(e[..3]) == e[0] + e[1] + e[2] by { assert e[..3][..2] == e[..2]; }
      assert Join(e) == e[0] + e[1] + e[2] + e[3] by { assert e[..3] == e[..|e| - 1]; }
    }
  }

  /** The HTML of fewer rows is a prefix of the HTML of more rows. */
  lemma {:induction false} RowsHtmlPrefix(m: nat, n: nat, spanEnd: string)
    requires m <= n <= |Limits|
    ensures |RowsHtml(m, spanEnd)| <= |RowsHtml(n, spanEnd)|
    ensures RowsHtml(n, spanEnd)[..|RowsHtml(m, spanEnd)|] == RowsHtml(m, spanEnd)
  {
    if m < n {
      RowsHtmlPrefix(m, n - 1, spanEnd);
      var prev := RowsHtml(n - 1, spanEnd);
      var whole := prev + EntryHtml(n - 1, spanEnd);
      assert RowsHtml(n, spanEnd) == whole;
      assert whole[..|prev|] == prev;
    }
  }

  /** The rows come in ascending depth order: row `i` occupies the text between the first `i` and the first `i + 1` rows. */
  lemma RowsHtmlAt(n: nat, spanEnd: string, i: nat)
    requires i < n <= |Limits|
    ensures |RowsHtml(i + 1, spanEnd)| <= |RowsHtml(n, spanEnd)|
    ensures RowsHtml(n, spanEnd)[|RowsHtml(i, spanEnd)|..|RowsHtml(i + 1, spanEnd)|] == EntryHtml(i, spanEnd)
  {
    RowsHtmlPrefix(i + 1, n, spanEnd);
    var head := RowsHtml(i, spanEnd);
    var upTo := head + EntryHtml(i, spanEnd);
    assert RowsHtml(i + 1, spanEnd) == upTo;
    assert upTo[|head|..] == EntryHtml(i, spanEnd);
  }

  /** The swatch text determines its colour. */
  lemma SwatchInjective(c1: string, c2: string)
    requires Swatch(c1) == Swatch(c2)
    ensures c1 == c2
  {
    var prefix := "<li style=\"background-color: ";
    assert |Swatch(c1)| == 2 * |c1| + |Swatch("")|;
    assert Swatch(c1)[|prefix|..|prefix| + |c1|] == c1;
    assert Swatch(c2)[|prefix|..|prefix| + |c2|] == c2;
  }

  /**
   * The legend and the classifier agree: the swatch of legend row `i` shows the colour
   * the classifier gives a depth exactly when that depth lies in range `i`.
   */
  lemma LegendAgreesWithClassifier(spanEnd: string, i: nat, d: real)
    requires i < |Limits|
    ensures EntriesUpTo(|Limits|, spanEnd)[4 * i + 1] == Swatch(DepthRangeColor(d)) <==> InRange(d, i)
  {
    EntriesUpToAt(|Limits|, spanEnd, i, 1);
    RangeColour(d, i);
    if EntriesUpTo(|Limits|, spanEnd)[4 * i + 1] == Swatch(DepthRangeColor(d)) {
      SwatchInjective(Colours[i], DepthRangeColor(d));
    }
  }

  /** The decimal digits of `n`. */
  function Digits(n: nat): string
  {
    if n < 10 then ["0123456789"[n]] else Digits(n / 10) + ["0123456789"[n % 10]]
  }

  /** An integer written in decimal with a leading '-' when negative. */
  function IntText(n: int): string
  {
    if n < 0 then "-" + Digits(-n) else Digits(n)
  }

  /**
   * The hand-written range labels spell the classifier's thresholds: label `i` is
   * "lower - upper" of range `i`, and the deepest, unbounded range reads "90+".
   */
  lemma LimitsSpellBounds()
    ensures |Limits| == |LowerBounds|
    ensures forall i :: 0 <= i < |Limits| - 1 ==>
      Limits[i] == IntText(LowerBounds[i]) + " - " + IntText(LowerBounds[i + 1])
    ensures Limits[5] == IntText(LowerBounds[5]) + "+"
  {
    assert IntText(-10) == "-10" by { assert Digits(10) == Digits(1) + ['0']; }
    assert IntText(10) == "10" by { assert Digits(10) == Digits(1) + ['0']; }
    assert IntText(30) == "30" by { assert Digits(30) == Digits(3) + ['0']; }
    assert IntText(50) == "50" by { assert Digits(50) == Digits(5) + ['0']; }
    assert IntText(70) == "70" by { assert Digits(70) == Digits(7) + ['0']; }
    assert IntText(90) == "90" by { assert Digits(90) == Digits(9) + ['0']; }
  }
}
