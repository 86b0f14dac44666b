/** Whole-chart consequences of the shading and labelling rules. */
module Scenarios {
  import opened Wrappers
  import opened FloatModel
  import opened Selection
  import opened BudgetChart

  /**
   * A month whose actual figure is zero or missing gets neither shading nor a
   * label, whatever its budget says.
   */
  lemma UnreportedMonthHidden(budget: Column, regnskab: Column, i: int)
    requires IsYear(budget) && IsYear(regnskab) && 0 <= i < 12
    requires regnskab[i].None? || regnskab[i] == Some(0.0)
    ensures i !in Shade(budget, regnskab).x
    ensures forall l :: l in Labels(budget, regnskab) ==> l.x != i
  {
  }

  /**
   * A year in which every month's actual figure equals its non-zero budget:
   * all twelve months are shaded, neither region has any month, and every
   * label reads "0".
   */
  lemma BalancedYear(budget: Column, regnskab: Column)
    requires IsYear(budget) && IsYear(regnskab)
    requires forall i :: 0 <= i < 12 ==> budget[i].Some? && budget[i].value != 0.0 && regnskab[i] == budget[i]
    ensures Shade(budget, regnskab).x == XAxis()
    ensures forall k :: 0 <= k < 12 ==> !Shade(budget, regnskab).deficit[k] && !Shade(budget, regnskab).surplus[k]
    ensures |Labels(budget, regnskab)| == 12
    ensures forall k :: 0 <= k < 12 ==> Labels(budget, regnskab)[k].text == "0"
  {
    var mask := Mask(budget, regnskab);
    SelectAll(XAxis(), mask);
    LabelText.FormatExamples();
  }

  /**
   * Only January reported, 120 hours against a budget of 100: one shaded
   * month, in the surplus region, labelled "+20" half-way between the figures.
   */
  lemma JanuaryOnly(budget: Column, regnskab: Column)
    requires IsYear(budget) && IsYear(regnskab)
    requires budget[0] == Some(100.0) && regnskab[0] == Some(120.0)
    requires forall i :: 1 <= i < 12 ==> regnskab[i].None? || regnskab[i] == Some(0.0)
    ensures Shade(budget, regnskab).x == [0]
    ensures Shade(budget, regnskab).surplus == [true]
    ensures Shade(budget, regnskab).deficit == [false]
    ensures Labels(budget, regnskab) == [Label(0, 110.0, "+20")]
  {
    var s := Shade(budget, regnskab);
    assert Active(budget, regnskab, 0);
    assert 0 in s.x;
    IncreasingSpan(s.x);
    assert s.x[0] == 0 && s.x[|s.x| - 1] == 0;
    assert s.x == [0];
    LabelText.FormatExamples();
    FloatModel.TruncateExamples();
  }
}
