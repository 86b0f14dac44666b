/**
 * `plot_budget_vs_regnskab`: from three monthly columns of a table to what
 * the chart shows. The drawing calls are not modelled; the chart is the data
 * they are given: the plotted lines, the shaded months split into deficit and
 * surplus, the deviation labels with their positions, and the month axis.
 */
module BudgetChart {
  import opened Wrappers
  import opened FloatModel
  import opened Selection
  import LabelText

  /** A numeric column of the table, one cell per month. */
  type Column = seq<Value>

  /** The table read from the spreadsheet: column name to column. */
  type Frame = map<string, Column>

  const MonthNames: seq<string> :=
    ["Januar", "Februar", "Marts", "April", "Maj", "Juni",
     "Juli", "August", "September", "Oktober", "November", "December"]

  const DefaultTitle: string := "Budget vs. Regnskab (med 2024 som reference)"
  const XAxisLabel: string := "Måned"
  const YAxisLabel: string := "Timer"

  /** A column with one cell per calendar month, January first. */
  predicate IsYear(c: Column) {
    |c| == |MonthNames|
  }

  /** `x = np.arange(len(måneder))` */
  function XAxis(): seq<int> {
    Arange(|MonthNames|)
  }

  /**
   * The month positions and their tick texts, as `set_xticks(x)` and
   * `set_xticklabels(måneder)` pair them.
   */
  function Ticks(): (t: seq<(int, string)>)
    ensures |t| == 12
    ensures forall i :: 0 <= i < 12 ==> t[i].0 == i && t[i].1 == MonthNames[i]
  {
    var x := XAxis();
    seq(|x|, i requires 0 <= i < |x| => (x[i], MonthNames[i]))
  }

  /**
   * When a month takes part in shading and labelling: the actual figure is
   * a number other than zero and the budget figure is a number.
   */
  predicate Active(budget: Column, regnskab: Column, i: int)
    requires IsYear(budget) && IsYear(regnskab) && 0 <= i < 12
  {
    regnskab[i].Some? && regnskab[i].value != 0.0 && budget[i].Some?
  }

  /** `mask = (regnskab != 0) & ~np.isnan(regnskab) & ~np.isnan(budget)` */
  function Mask(budget: Column, regnskab: Column): (m: seq<bool>)
    requires IsYear(budget) && IsYear(regnskab)
    ensures |m| == 12
    ensures forall i :: 0 <= i < 12 ==> (m[i] <==> Active(budget, regnskab, i))
  {
    And(And(NotEqualTo(regnskab, 0.0), NotNaN(regnskab)), NotNaN(budget))
  }

  /** The test the labelling loop makes for month `i`; it picks the same months as `Mask`. */
  function LabelCondition(budget: Column, regnskab: Column, i: int): (c: bool)
    requires IsYear(budget) && IsYear(regnskab) && 0 <= i < 12
    ensures c <==> Active(budget, regnskab, i)
    ensures c <==> Mask(budget, regnskab)[i]
  {
    !IsNaN(regnskab[i]) && !IsNaN(budget[i]) && NotEqual(regnskab[i], 0.0)
  }

  /**
   * The shaded part of the chart: the selected months with their budget and
   * actual figures, and the two `where` masks of the deficit ("Afvigelse (n)")
   * and surplus ("Afvigelse (p)") regions.
   */
  datatype Shading = Shading(
    x: seq<int>,
    budget: Column,
    regnskab: Column,
    deficit: seq<bool>,
    surplus: seq<bool>)

  /**
   * `x_shaded`, `budget_shaded`, `regnskab_shaded` and the masks
   * `overskridelse_mask` and `besparelse_mask`.
   */
  function Shade(budget: Column, regnskab: Column): (s: Shading)
    requires IsYear(budget) && IsYear(regnskab)
    // all five sequences are aligned
    ensures |s.budget| == |s.x| && |s.regnskab| == |s.x|
    ensures |s.deficit| == |s.x| && |s.surplus| == |s.x|
    // exactly the active months, in calendar order
    ensures forall k :: 0 <= k < |s.x| ==> 0 <= s.x[k] < 12 && Active(budget, regnskab, s.x[k])
    ensures forall k :: 0 <= k < |s.x| ==> regnskab[s.x[k]].Some? && budget[s.x[k]].Some?
    ensures forall i :: 0 <= i < 12 && Active(budget, regnskab, i) ==> i in s.x
    ensures forall j, k :: 0 <= j < k < |s.x| ==> s.x[j] < s.x[k]
    // each kept month carries its own figures
    ensures forall k :: 0 <= k < |s.x| ==>
      s.budget[k] == budget[s.x[k]] && s.regnskab[k] == regnskab[s.x[k]]
    // deficit when actual is below budget, surplus when above
    ensures forall k :: 0 <= k < |s.x| ==>
      (s.deficit[k] <==> regnskab[s.x[k]].value < budget[s.x[k]].value)
    ensures forall k :: 0 <= k < |s.x| ==>
      (s.surplus[k] <==> regnskab[s.x[k]].value > budget[s.x[k]].value)
  {
    var mask := Mask(budget, regnskab);
    SelectedPositions(mask);
    SelectAt(budget, mask);
    SelectAt(regnskab, mask);
    var xs := Select(XAxis(), mask);
    var bs := Select(budget, mask);
    var rs := Select(regnskab, mask);
    Shading(xs, bs, rs, LessThan(rs, bs), GreaterThan(rs, bs))
  }

  /**
   * The two regions never overlap, a month whose figures are equal is in
   * neither, and together they cover every shaded month whose figures differ.
   */
  lemma RegionsPartition(budget: Column, regnskab: Column, k: int)
    requires IsYear(budget) && IsYear(regnskab)
    requires 0 <= k < |Shade(budget, regnskab).x|
    ensures var s := Shade(budget, regnskab); var i := s.x[k];
      && !(s.deficit[k] && s.surplus[k])
      && (regnskab[i] == budget[i] ==> !s.deficit[k] && !s.surplus[k])
      && (s.deficit[k] || s.surplus[k] <==> regnskab[i] != budget[i])
  {
  }

  /** A text item placed on the axes: position and content. */
  datatype Label = Label(x: int, y: real, text: string)

  /** The label of an active month: truncated difference, at the midpoint of the two figures. */
  function MonthLabel(i: int, actual: real, budget: real): (l: Label)
    ensures l.x == i
    ensures actual <= budget ==> actual <= l.y <= budget
    ensures budget <= actual ==> budget <= l.y <= actual
    ensures l.y - actual == budget - l.y
    ensures l.text == LabelText.Format(Truncate(actual - budget))
    ensures LabelText.Parse(l.text) == Some(Truncate(actual - budget))
  {
    LabelText.FormatRoundTrip(Truncate(actual - budget));
    Label(i, (actual + budget) / 2.0, LabelText.Format(Truncate(actual - budget)))
  }

  /** Labels for the listed months, all of which must be active. */
  function LabelsAt(budget: Column, regnskab: Column, months: seq<int>): seq<Label>
    requires IsYear(budget) && IsYear(regnskab)
    requires forall k :: 0 <= k < |months| ==> 0 <= months[k] < 12
    requires forall k :: 0 <= k < |months| ==> regnskab[months[k]].Some? && budget[months[k]].Some?
  {
    seq(|months|, k requires 0 <= k < |months| =>
      MonthLabel(months[k], regnskab[months[k]].value, budget[months[k]].value))
  }

  /** The labels the chart should carry: one per shaded month, in month order. */
  function Labels(budget: Column, regnskab: Column): seq<Label>
    requires IsYear(budget) && IsYear(regnskab)
  {
    LabelsAt(budget, regnskab, Shade(budget, regnskab).x)
  }

  /** The active months before month `n`, in order: `x[:n][mask[:n]]`. */
  ghost function ActiveBefore(budget: Column, regnskab: Column, n: nat): (ms: seq<int>)
    requires IsYear(budget) && IsYear(regnskab) && n <= 12
    ensures forall k :: 0 <= k < |ms| ==> 0 <= ms[k] < n && Active(budget, regnskab, ms[k])
    ensures forall k :: 0 <= k < |ms| ==> regnskab[ms[k]].Some? && budget[ms[k]].Some?
  {
    var whole := Mask(budget, regnskab);
    var mask := whole[..n];
    SelectedPositions(mask);
    assert forall j :: 0 <= j < n ==> mask[j] == whole[j];
    Select(Arange(n), mask)
  }

  lemma ActiveBeforeStep(budget: Column, regnskab: Column, n: nat)
    requires IsYear(budget) && IsYear(regnskab) && n < 12
    ensures ActiveBefore(budget, regnskab, n + 1) ==
      ActiveBefore(budget, regnskab, n) + (if Active(budget, regnskab, n) then [n] else [])
  {
    var mask := Mask(budget, regnskab);
    ArangePrefix(n + 1, n);
    assert mask[..n + 1][..n] == mask[..n];
  }

  lemma ActiveBeforeAll(budget: Column, regnskab: Column)
    requires IsYear(budget) && IsYear(regnskab)
    ensures ActiveBefore(budget, regnskab, 12) == Shade(budget, regnskab).x
  {
    assert Mask(budget, regnskab)[..12] == Mask(budget, regnskab);
  }

  lemma LabelsAtAppend(budget: Column, regnskab: Column, months: seq<int>, i: int)
    requires IsYear(budget) && IsYear(regnskab) && 0 <= i < 12
    requires regnskab[i].Some? && budget[i].Some?
    requires forall k :: 0 <= k < |months| ==> 0 <= months[k] < 12
    requires forall k :: 0 <= k < |months| ==> regnskab[months[k]].Some? && budget[months[k]].Some?
    ensures LabelsAt(budget, regnskab, months + [i]) ==
      LabelsAt(budget, regnskab, months) + [MonthLabel(i, regnskab[i].value, budget[i].value)]
  {
  }

  /** The k-th label is the `MonthLabel` of the k-th shaded month. */
  lemma LabelsOfShaded(budget: Column, regnskab: Column)
    requires IsYear(budget) && IsYear(regnskab)
    ensures |Labels(budget, regnskab)| == |Shade(budget, regnskab).x|
    ensures forall k :: 0 <= k < |Labels(budget, regnskab)| ==>
      Labels(budget, regnskab)[k].x == Shade(budget, regnskab).x[k]
  {
  }

  /**
   * One label per active month and none for any other month, each at its
   * month's index and carrying that month's own text and height, in
   * calendar order.
   */
  lemma LabelsPerMonth(budget: Column, regnskab: Column)
    requires IsYear(budget) && IsYear(regnskab)
    ensures var ls := Labels(budget, regnskab);
      && (forall i :: 0 <= i < 12 ==>
            (Active(budget, regnskab, i) <==> exists k :: 0 <= k < |ls| && ls[k].x == i))
      && (forall j, k :: 0 <= j < k < |ls| ==> ls[j].x < ls[k].x)
      && (forall k :: 0 <= k < |ls| ==>
            && 0 <= ls[k].x < 12
            && regnskab[ls[k].x].Some? && budget[ls[k].x].Some?
            && ls[k] == MonthLabel(ls[k].x, regnskab[ls[k].x].value, budget[ls[k].x].value))
  {
    var xs := Shade(budget, regnskab).x;
    var ls := Labels(budget, regnskab);
    LabelsOfShaded(budget, regnskab);
    assert |ls| == |xs| && forall k :: 0 <= k < |ls| ==> ls[k].x == xs[k];
    forall i | 0 <= i < 12 && Active(budget, regnskab, i)
      ensures exists k :: 0 <= k < |ls| && ls[k].x == i
    {
      var k :| 0 <= k < |xs| && xs[k] == i;
      assert ls[k].x == i;
    }
  }

  /** The labelling loop: one text item for every month that passes its test. */
  method PlaceLabels(budget: Column, regnskab: Column) returns (labels: seq<Label>)
    requires IsYear(budget) && IsYear(regnskab)
    ensures labels == Labels(budget, regnskab)
  {
    var x := XAxis();
    labels := [];
    for i := 0 to |x|
      invariant labels == LabelsAt(budget, regnskab, ActiveBefore(budget, regnskab, i))
    {
      ghost var before := ActiveBefore(budget, regnskab, i);
      ActiveBeforeStep(budget, regnskab, i);
      if LabelCondition(budget, regnskab, i) {
        assert Active(budget, regnskab, i);
        var forskel := Truncate(regnskab[i].value - budget[i].value);
        var tekst := LabelText.Format(forskel);
        var yPos := (regnskab[i].value + budget[i].value) / 2.0;
        LabelsAtAppend(budget, regnskab, before, i);
        assert Label(x[i], yPos, tekst) == MonthLabel(i, regnskab[i].value, budget[i].value);
        labels := labels + [Label(x[i], yPos, tekst)];
      } else {
        assert !Active(budget, regnskab, i);
      }
    }
    ActiveBeforeAll(budget, regnskab);
  }

  /** The figure: axis texts, the three plotted lines, the shading and the labels. */
  datatype Chart = Chart(
    title: string,
    xLabel: string,
    yLabel: string,
    ticks: seq<(int, string)>,
    budgetLine: Column,
    regnskabLine: Column,
    referenceLine: Column,
    shading: Shading,
    labels: seq<Label>)

  /** The three columns the chart reads, each twelve months long. */
  predicate HasYearColumns(df: Frame) {
    && "Budget" in df && IsYear(df["Budget"])
    && "Regnskab" in df && IsYear(df["Regnskab"])
    && "Regnskab t-1" in df && IsYear(df["Regnskab t-1"])
  }

  /** `plot_budget_vs_regnskab(df, title)` */
  method PlotBudgetVsRegnskab(df: Frame, title: string) returns (chart: Chart)
    requires HasYearColumns(df)
    // every month is plotted, missing figures included
    ensures chart.budgetLine == df["Budget"]
    ensures chart.regnskabLine == df["Regnskab"]
    ensures chart.referenceLine == df["Regnskab t-1"]
    // only the current year's figures decide shading and labels
    ensures chart.shading == Shade(df["Budget"], df["Regnskab"])
    ensures chart.labels == Labels(df["Budget"], df["Regnskab"])
    ensures chart.ticks == Ticks()
    ensures chart.title == title && chart.xLabel == XAxisLabel && chart.yLabel == YAxisLabel
  {
    var budget := df["Budget"];
    var regnskab := df["Regnskab"];
    var regnskab2024 := df["Regnskab t-1"];
    var shading := Shade(budget, regnskab);
    var labels := PlaceLabels(budget, regnskab);
    chart := Chart(title, XAxisLabel, YAxisLabel, Ticks(),
                   budget, regnskab, regnskab2024, shading, labels);
  }
}
