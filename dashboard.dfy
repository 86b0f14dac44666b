/**
 * The page around the chart: a waiting message until a spreadsheet is
 * uploaded, and the chart is drawn only when the three columns it reads are
 * present; otherwise a fixed error message is shown. Reading the file and
 * putting things on the page are I/O: the upload arrives as the table it
 * parsed to, and the page is described by what it would show.
 */
module Dashboard {
  import opened Wrappers
  import opened BudgetChart

  const RequiredColumns: seq<string> := ["Budget", "Regnskab", "Regnskab t-1"]

  const MissingColumnsMessage: string :=
    "Excel-filen mangler nødvendige kolonner: 'Budget', 'Regnskab', 'Regnskab t-1'"

  const WaitingMessage: string :=
    "Vent på, at du uploader en Excel-fil med relevante data."

  /** What the page shows below its title. */
  datatype View =
    | Info(message: string)
    | Error(message: string)
    | Figure(chart: Chart)

  /** `all(col in columns for col in wanted)` */
  function AllPresent(wanted: seq<string>, columns: set<string>): (ok: bool)
    ensures ok <==> forall k :: 0 <= k < |wanted| ==> wanted[k] in columns
  {
    if |wanted| == 0 then true
    else wanted[0] in columns && AllPresent(wanted[1..], columns)
  }

  /** The column check admits a table exactly when it has all three named columns. */
  lemma RequiredColumnsCheck(df: Frame)
    ensures AllPresent(RequiredColumns, df.Keys) <==>
      "Budget" in df && "Regnskab" in df && "Regnskab t-1" in df
  {
    assert RequiredColumns[0] == "Budget";
    assert RequiredColumns[1] == "Regnskab";
    assert RequiredColumns[2] == "Regnskab t-1";
  }

  /** The page after the upload widget has returned `upload`. */
  method ShowPage(upload: Option<Frame>) returns (view: View)
    requires (upload.Some? && "Budget" in upload.value && "Regnskab" in upload.value &&
              "Regnskab t-1" in upload.value) ==> HasYearColumns(upload.value)
    ensures upload.None? <==> view.Info?
    ensures view.Info? ==> view.message == WaitingMessage
    ensures view.Error? <==> upload.Some? && !("Budget" in upload.value && "Regnskab" in upload.value && "Regnskab t-1" in upload.value)
    ensures view.Error? ==> view.message == MissingColumnsMessage
    ensures view.Figure? ==>
      && upload.Some? && HasYearColumns(upload.value)
      && view.chart.title == DefaultTitle
      && view.chart.budgetLine == upload.value["Budget"]
      && view.chart.regnskabLine == upload.value["Regnskab"]
      && view.chart.referenceLine == upload.value["Regnskab t-1"]
      && view.chart.ticks == Ticks()
      && view.chart.xLabel == XAxisLabel && view.chart.yLabel == YAxisLabel
      && view.chart.shading == Shade(upload.value["Budget"], upload.value["Regnskab"])
      && view.chart.labels == Labels(upload.value["Budget"], upload.value["Regnskab"])
  {
    if upload.Some? {
      var df := upload.value;
      RequiredColumnsCheck(df);
      if AllPresent(RequiredColumns, df.Keys) {
        var fig := PlotBudgetVsRegnskab(df, DefaultTitle);
        view := Figure(fig);
      } else {
        view := Error(MissingColumnsMessage);
      }
    } else {
      view := Info(WaitingMessage);
    }
  }
}
