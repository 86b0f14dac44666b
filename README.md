# Budget vs. Regnskab chart: a Dafny model

This project models the logic of a small Streamlit dashboard. The dashboard
reads a spreadsheet of monthly budgeted hours (`Budget`), actual hours
(`Regnskab`) and last year's corrected actual hours (`Regnskab t-1`), and it
draws one comparison chart. The model covers the part of
`plot_budget_vs_regnskab` (app.py) that decides what the chart shows:

- which months are *active*: the actual figure is a number other than zero and
  the budget is a number;
- the shaded selection of those months, and its split into a deficit region
  (actual below budget, "Afvigelse (n)") and a surplus region (actual above
  budget, "Afvigelse (p)");
- the deviation label of each active month: the difference truncated toward
  zero, written with a leading `+` only when it is positive, and placed half
  way between the two figures;
- the twelve-month axis with the Danish month names;
- the page logic: a waiting message until a file is uploaded, the chart only when
  all three columns are present, and otherwise a fixed error message.

A numeric cell is `Option<real>`. `None` stands for NaN. The NumPy comparisons
keep IEEE's NaN rules: NaN `!=` 0 is true, and NaN `<` x and NaN `>` x are false
(`FloatModel`). Boolean indexing `xs[mask]` is `Selection.Select`. The labelling
loop is the method `BudgetChart.PlaceLabels`. It is proved equal to
`BudgetChart.Labels`, which is defined independently as one label per shaded
month. The loop's own test (app.py:37) is proved to pick the same months as the
shading mask (app.py:16).

Modules: `Wrappers` (Option), `FloatModel` (NaN and `int()`), `Selection`
(NumPy masks and indexing), `LabelText` (label formatting and parsing),
`BudgetChart` (the plot function), `Dashboard` (the page around it) and
`Scenarios` (whole-chart consequences).

## Model

| member | source | states |
|---|---|---|
| FloatModel.Truncate | app.py:38 | `int()` on the difference truncates toward zero: the result has the sign of the input (or is 0) and lies within 1 of it without overshooting |
| FloatModel.TruncateExamples | app.py:38 | 4.9 gives 4, -3.7 gives -3, -0.5 gives 0: truncation, not rounding |
| Selection.SelectedPositions | app.py:17 | `arange(n)[mask]` holds exactly the positions whose mask entry is true, each once, in strictly increasing order |
| Selection.SelectAt | app.py:17-19 | selecting two columns with the same mask keeps them aligned: the k-th selected value comes from the k-th selected month |
| LabelText.Digits | app.py:40 | an int is rendered as a non-empty run of decimal digits with no leading zero except for "0" itself |
| LabelText.Format | app.py:39-40 | the label starts with `+` iff the difference is positive, with `-` iff it is negative, is exactly "0" iff it is zero, is digits after the first character, and has no leading zero after the sign |
| LabelText.DigitsRoundTrip | app.py:40 | reading back the digits gives the number they were made from |
| LabelText.FormatRoundTrip | app.py:38-40 | reading back a label gives exactly the truncated difference it was made from |
| LabelText.FormatInjective | app.py:38-40 | different differences never give the same label text |
| LabelText.FormatExamples | app.py:39-40 | 5 gives "+5", -3 gives "-3", 0 gives "0", 20 gives "+20", -120 gives "-120" |
| BudgetChart.Ticks | app.py:12-15 | the x axis has the 12 positions 0..11, paired in order with Januar…December as set by `set_xticks`/`set_xticklabels` (app.py:45-46) |
| BudgetChart.Mask | app.py:16 | the combined NumPy mask marks month i iff the month is active: actual present and non-zero, budget present |
| BudgetChart.LabelCondition | app.py:37 | the loop's test holds for month i iff the month is active, which is iff the shading mask marks it |
| BudgetChart.Shade | app.py:16-29 | the shaded sequences are aligned, keep exactly the active months in calendar order with their own figures, and mark deficit iff actual < budget and surplus iff actual > budget |
| BudgetChart.RegionsPartition | app.py:28-29 | deficit and surplus never overlap, an equal month is in neither, and their union is the shaded months whose figures differ |
| BudgetChart.MonthLabel | app.py:38-41 | a label sits at its month's index and at the exact midpoint of the two figures (so between them); its text is the formatted truncated difference and reads back as that difference |
| BudgetChart.LabelsPerMonth | app.py:36-43 | month i gets a label iff it is active (actual present and non-zero, budget present); each label is that month's `MonthLabel` (its index, midpoint height and formatted difference); the labels run in strictly increasing month order, so no month gets two |
| BudgetChart.PlaceLabels | app.py:36-43 | the loop places exactly one label per active month, in month order, and none for other months (equal to `Labels`) |
| BudgetChart.PlotBudgetVsRegnskab | app.py:7-54 | all twelve months of the three columns are plotted; shading and labels depend only on Budget and Regnskab; ticks and axis texts are fixed; the title is the one passed in |
| Dashboard.AllPresent | app.py:62 | `all(col in df.columns …)` holds iff every wanted column is a column of the table |
| Dashboard.RequiredColumnsCheck | app.py:62 | the check admits a table iff it has `Budget`, `Regnskab` and `Regnskab t-1` |
| Dashboard.ShowPage | app.py:60-68 | no upload shows the waiting message; a table missing a required column shows the fixed error and no chart; otherwise the page shows the chart `plot_budget_vs_regnskab` draws: the three full columns as lines, the month ticks, the axis texts, the default title, and the shading and labels of Budget and Regnskab |
| Scenarios.UnreportedMonthHidden | app.py:16-43 | a month whose actual figure is zero or missing is not among the selected months passed to `fill_between` and gets no label, whatever its budget |
| Scenarios.BalancedYear | app.py:16-43 | when every actual equals its non-zero budget, all twelve months are shaded, neither region has a month, and every label is "0" |
| Scenarios.JanuaryOnly | app.py:16-43 | with only January reported (120 against 100), exactly January is shaded, in the surplus region, with the label "+20" at height 110 |

## Left out

- Drawing: figure and axes creation, line styles, colours, alpha, z-order, legend, grid, `tight_layout`, `fill_between`'s interpolation geometry and the 45° tick rotation (app.py:21-26, 31-34, 42-52). These are calls into matplotlib. The chart is modelled as the data passed to them.
- The prior-year column `Regnskab t-1` is only carried into the chart as a line. It takes part in no mask or label (app.py:10, 25-26).
- Streamlit and file I/O: the page title, the upload widget, `pd.read_excel`, `st.pyplot`, `st.error`, `st.info` (app.py:57-68). An upload arrives as the table it parses to. The page is modelled as what it shows.
- The drawn bands: `fill_between` (app.py:31-34) joins consecutive selected months, so a band between two selected months of the same region also covers any unselected month between them. The model states which months are selected and in which region, not the area drawn.
- Float arithmetic: values are exact reals with `None` for NaN. Rounding of the difference and of the midpoint is not modelled.
- Tables whose length is not 12: the code does not check this, so twelve rows in the three chart columns is a precondition of drawing the chart. A table missing one of the columns may have any length: it gets the error.
- The error message: the code shows one fixed message naming all three columns (app.py:66), not a list of only the missing ones, and the model follows the code.
- A non-numeric cell makes `np.isnan` raise (app.py:16). Only numbers and NaN are modelled.
- Zero actual hours count as "not reported yet" (app.py:16), as in the code. A month really worked at zero hours is therefore never shaded. This is kept as written and not treated as a defect.
