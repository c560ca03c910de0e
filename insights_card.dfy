/** `src/components/InsightsCard.jsx`: the plain-text report of the dataset
    summary and the column insights, offered for download. */
module InsightsCard {
  import opened Options
  import opened JsText
  import opened JsValues
  import opened Helpers
  import opened ColumnInsights

  /** A count in a template literal. */
  function CountText(n: nat): string {
    NumberToString(FromNat(n))
  }

  /** `Math.min` / `Math.max` results in a template literal. */
  function BoundText(b: Bound): string {
    match b
    case Finite(n) => NumberToString(n)
    case PosInfinity => "Infinity"
    case NegInfinity => "-Infinity"
  }

  /** `mean.toFixed(2)`; the mean of no numbers is NaN. */
  function MeanText(mean: Option<real>): string {
    match mean
    case Some(x) => ToFixed2(x)
    case None => "NaN"
  }

  function TypeName(kind: ColumnType): string {
    match kind
    case Numeric => "numeric"
    case Text => "text"
  }

  /** Concatenation regroups freely; these instances keep the solver off
      the literals. */
  lemma Regroup3(a: string, b: string, c: string)
    ensures a + b + c == a + (b + c)
  {
  }

  lemma Regroup6(t: string, a: string, b: string, c: string, d: string, e: string)
    ensures t + a + b + c + d + e == t + (a + b + c + d + e)
  {
  }

  lemma DropEmpty(a: string)
    ensures "" + a == a && a + "" == a
  {
  }

  lemma Regroup4(a: string, b: string, c: string, d: string)
    ensures a + b + c + d == a + (b + c + d)
  {
  }

  lemma Regroup5(a: string, b: string, c: string, d: string, e: string)
    ensures a + b + c + d + e == a + (b + c + d + e)
  {
  }

  /** The report's lines, one function per `+=` of `formatInsightsText`. */
  const TitleLines: string := "Dataset Insights\n\n"

  function RowsLine(basic: BasicInsights): string {
    "Rows: " + (CountText(basic.rowCount) + "\n")
  }

  function ColumnsLine(basic: BasicInsights): string {
    "Columns: " + (CountText(basic.columnCount) + "\n")
  }

  function FileLine(basic: BasicInsights): string {
    "File: " + (ToStr(basic.fileName) + "\n")
  }

  function UploadedLine(basic: BasicInsights): string {
    "Uploaded At: " + (ToStr(basic.uploadedAt) + "\n")
  }

  function ColumnList(basic: BasicInsights): string {
    "\nColumns:\n- " + (Join(basic.columns, ", ") + "\n\n")
  }

  /** `line` when `v` is truthy, nothing otherwise. */
  function WhenTruthy(v: JsValue, line: string): string {
    if Truthy(v) then line else ""
  }

  /** The title and the two counts that open the report. */
  function Intro(basic: BasicInsights): string {
    TitleLines + RowsLine(basic) + ColumnsLine(basic)
  }

  /** Everything before the first column block. */
  function Heading(basic: BasicInsights): string {
    Intro(basic) + WhenTruthy(basic.fileName, FileLine(basic))
      + WhenTruthy(basic.uploadedAt, UploadedLine(basic)) + ColumnList(basic)
  }

  function ColumnLine(ci: ColumnInsight): string {
    "Column: " + (ci.column + "\n")
  }

  function TypeLine(ci: ColumnInsight): string {
    "Type: " + (TypeName(ci.kind) + "\n")
  }

  function UniqueLine(ci: ColumnInsight): string {
    "Unique Values: " + (CountText(ci.uniqueCount) + "\n")
  }

  /** Min, max and mean; a property the insight does not have prints as
      "undefined". */
  function StatsLine(ci: ColumnInsight): string {
    match ci.summary
    case NumericSummary(min, max, mean, _) =>
      "Min: " + (BoundText(min) + ", Max: " + BoundText(max) + ", Mean: " + MeanText(mean) + "\n")
    case TextSummary(_) => "Min: " + "undefined, Max: undefined, Mean: undefined\n"
  }

  /** The most frequent value; `null` when the column had none. */
  function TopLine(ci: ColumnInsight): string {
    match ci.summary
    case TextSummary(top) => "Most Frequent: " + ((if top.Some? then top.value else "null") + "\n")
    case NumericSummary(_, _, _, _) => "Most Frequent: " + "undefined\n"
  }

  /** The statistics line: chosen by the column's type. */
  function SummaryLine(ci: ColumnInsight): string {
    if ci.kind == Numeric then StatsLine(ci) else TopLine(ci)
  }

  function SampleLine(ci: ColumnInsight): string {
    "Sample Values: " + (Join(Strings(ci.sampleValues), ", ") + "\n\n")
  }

  /** The text one column adds to the report. */
  function Block(ci: ColumnInsight): string {
    ColumnLine(ci) + TypeLine(ci) + UniqueLine(ci) + SummaryLine(ci) + SampleLine(ci)
  }

  /** The blocks of the given insights, one after the other. */
  function Blocks(cis: seq<ColumnInsight>): string {
    if cis == [] then "" else Blocks(cis[..|cis| - 1]) + Block(cis[|cis| - 1])
  }

  /** The whole report. */
  function Report(basic: BasicInsights, cis: seq<ColumnInsight>): string {
    Heading(basic) + Blocks(cis)
  }

  lemma BlocksSnoc(cis: seq<ColumnInsight>, i: nat)
    requires i < |cis|
    ensures Blocks(cis[..i + 1]) == Blocks(cis[..i]) + Block(cis[i])
  {
    assert cis[..i + 1][..i] == cis[..i];
  }

  /** `formatInsightsText()`: the text grows by `+=`, one line at a time. */
  method FormatInsightsText(basic: BasicInsights, cis: seq<ColumnInsight>) returns (text: string)
    ensures text == Report(basic, cis)
  {
    text := TitleLines;
    text := text + RowsLine(basic);
    text := text + ColumnsLine(basic);
    DropEmpty(text);
    if Truthy(basic.fileName) {
      text := text + FileLine(basic);
    }
    assert text == Intro(basic) + WhenTruthy(basic.fileName, FileLine(basic));
    DropEmpty(text);
    if Truthy(basic.uploadedAt) {
      text := text + UploadedLine(basic);
    }
    text := text + ColumnList(basic);
    assert cis[..0] == [];
    DropEmpty(text);
    for i := 0 to |cis|
      invariant text == Heading(basic) + Blocks(cis[..i])
    {
      var ci := cis[i];
      ghost var before := text;
      text := text + ColumnLine(ci);
      text := text + TypeLine(ci);
      text := text + UniqueLine(ci);
      if ci.kind == Numeric {
        text := text + StatsLine(ci);
      } else {
        text := text + TopLine(ci);
      }
      text := text + SampleLine(ci);
      Regroup6(before, ColumnLine(ci), TypeLine(ci), UniqueLine(ci), SummaryLine(ci), SampleLine(ci));
      BlocksSnoc(cis, i);
      Regroup3(Heading(basic), Blocks(cis[..i]), Block(ci));
    }
    assert cis[..|cis|] == cis;
  }

  /** The card renders nothing without a summary; otherwise its downloads
      carry the report. */
  function Render(basic: Option<BasicInsights>, cis: seq<ColumnInsight>): (text: Option<string>)
    ensures basic.None? <==> text.None?
    ensures basic.Some? ==> text == Some(Report(basic.value, cis))
  {
    match basic
    case None => None
    case Some(b) => Some(Report(b, cis))
  }

  /** The report opens with the title, a blank line, and the row and column
      counts. */
  lemma ReportOpening(basic: BasicInsights, cis: seq<ColumnInsight>)
    ensures StartsWith(Report(basic, cis), TitleLines + RowsLine(basic) + ColumnsLine(basic))
  {
    var intro, f, u, c, b := Intro(basic), WhenTruthy(basic.fileName, FileLine(basic)),
      WhenTruthy(basic.uploadedAt, UploadedLine(basic)), ColumnList(basic), Blocks(cis);
    Regroup5(intro, f, u, c, b);
    StartsWithAppend(intro, f + u + c + b);
  }

  /** The text after the opening lines is a "File:" line exactly when the
      file name is truthy. */
  lemma FileLineIffTruthy(basic: BasicInsights, cis: seq<ColumnInsight>)
    ensures Truthy(basic.fileName) <==> StartsWith(Report(basic, cis)[|Intro(basic)|..], "File: ")
  {
    var intro, f, u, c, b := Intro(basic), WhenTruthy(basic.fileName, FileLine(basic)),
      WhenTruthy(basic.uploadedAt, UploadedLine(basic)), ColumnList(basic), Blocks(cis);
    Regroup5(intro, f, u, c, b);
    StartsWithAppend(intro, f + u + c + b);
    var rest := f + u + c + b;
    assert Report(basic, cis)[|intro|..] == rest;
    Regroup4(f, u, c, b);
    if Truthy(basic.fileName) {
      StartsWithAppend("File: ", ToStr(basic.fileName) + "\n");
      StartsWithExtend(f, u + c + b, "File: ");
    } else {
      DropEmpty(u);
      assert rest == u + c + b;
      if Truthy(basic.uploadedAt) {
        Regroup3(u, c, b);
        StartsWithAppend("Uploaded At: ", ToStr(basic.uploadedAt) + "\n");
        StartsWithExtend(u, c + b, "Uploaded At: ");
        PrefixesClash(rest, "Uploaded At: ", "File: ", 0);
      } else {
        DropEmpty(c);
        assert rest == c + b;
        StartsWithAppend("\nColumns:\n- ", Join(basic.columns, ", ") + "\n\n");
        StartsWithExtend(c, b, "\nColumns:\n- ");
        PrefixesClash(rest, "\nColumns:\n- ", "File: ", 0);
      }
    }
  }

  /** After the opening lines and any "File:" line comes an "Uploaded At:"
      line exactly when the upload time is truthy. */
  lemma UploadedLineIffTruthy(basic: BasicInsights, cis: seq<ColumnInsight>)
    ensures var skip := |Intro(basic)| + |WhenTruthy(basic.fileName, FileLine(basic))|;
      Truthy(basic.uploadedAt) <==> StartsWith(Report(basic, cis)[skip..], "Uploaded At: ")
  {
    var intro, f, u, c, b := Intro(basic), WhenTruthy(basic.fileName, FileLine(basic)),
      WhenTruthy(basic.uploadedAt, UploadedLine(basic)), ColumnList(basic), Blocks(cis);
    Regroup4(intro + f, u, c, b);
    StartsWithAppend(intro + f, u + c + b);
    var rest := u + c + b;
    assert Report(basic, cis)[|intro + f|..] == rest;
    Regroup3(u, c, b);
    if Truthy(basic.uploadedAt) {
      StartsWithAppend("Uploaded At: ", ToStr(basic.uploadedAt) + "\n");
      StartsWithExtend(u, c + b, "Uploaded At: ");
    } else {
      DropEmpty(c);
      assert rest == c + b;
      StartsWithAppend("\nColumns:\n- ", Join(basic.columns, ", ") + "\n\n");
      StartsWithExtend(c, b, "\nColumns:\n- ");
      PrefixesClash(rest, "\nColumns:\n- ", "Uploaded At: ", 0);
    }
  }

  /** The blocks of two lists of insights are the blocks of the first
      followed by those of the second: one block per insight, in order. */
  lemma {:induction false} BlocksAppend(a: seq<ColumnInsight>, b: seq<ColumnInsight>)
    ensures Blocks(a + b) == Blocks(a) + Blocks(b)
    decreases |b|
  {
    if b == [] {
      assert a + b == a;
    } else {
      var init := b[..|b| - 1];
      assert (a + b)[..|a + b| - 1] == a + init;
      BlocksAppend(a, init);
      Regroup3(Blocks(a), Blocks(init), Block(b[|b| - 1]));
    }
  }

  /** The report is the heading followed by each column's block in turn. */
  lemma ReportAddsColumn(basic: BasicInsights, cis: seq<ColumnInsight>, ci: ColumnInsight)
    ensures Report(basic, cis + [ci]) == Report(basic, cis) + Block(ci)
  {
    BlocksAppend(cis, [ci]);
    assert Blocks([ci]) == Block(ci) by {
      assert [ci][..0] == [];
    }
    Regroup3(Heading(basic), Blocks(cis), Block(ci));
  }

  /** The line after a block's first three lists min, max and mean exactly
      for a numeric column, and the most frequent value exactly for a text
      one. */
  lemma SummaryLineByType(ci: ColumnInsight)
    ensures var skip := |ColumnLine(ci) + TypeLine(ci) + UniqueLine(ci)|;
      && (ci.kind == Numeric <==> StartsWith(Block(ci)[skip..], "Min: "))
      && (ci.kind == Text <==> StartsWith(Block(ci)[skip..], "Most Frequent: "))
  {
    var head := ColumnLine(ci) + TypeLine(ci) + UniqueLine(ci);
    var rest := SummaryLine(ci) + SampleLine(ci);
    Regroup3(head, SummaryLine(ci), SampleLine(ci));
    StartsWithAppend(head, rest);
    assert Block(ci)[|head|..] == rest;
    if ci.kind == Numeric {
      assert StartsWith(StatsLine(ci), "Min: ") by {
        match ci.summary
        case NumericSummary(min, max, mean, _) =>
          StartsWithAppend("Min: ", BoundText(min) + ", Max: " + BoundText(max) + ", Mean: " + MeanText(mean) + "\n");
        case TextSummary(_) =>
          StartsWithAppend("Min: ", "undefined, Max: undefined, Mean: undefined\n");
      }
      StartsWithExtend(StatsLine(ci), SampleLine(ci), "Min: ");
      PrefixesClash(rest, "Min: ", "Most Frequent: ", 1);
    } else {
      assert StartsWith(TopLine(ci), "Most Frequent: ") by {
        match ci.summary
        case TextSummary(top) =>
          StartsWithAppend("Most Frequent: ", (if top.Some? then top.value else "null") + "\n");
        case NumericSummary(_, _, _, _) =>
          StartsWithAppend("Most Frequent: ", "undefined\n");
      }
      StartsWithExtend(TopLine(ci), SampleLine(ci), "Most Frequent: ");
      PrefixesClash(rest, "Most Frequent: ", "Min: ", 1);
    }
  }

  /** Every block opens with the column name and closes with the samples
      and a blank line. */
  lemma BlockFrame(ci: ColumnInsight)
    ensures StartsWith(Block(ci), "Column: " + (ci.column + "\n"))
    ensures var b := Block(ci);
      var tail := "Sample Values: " + (Join(Strings(ci.sampleValues), ", ") + "\n\n");
      |tail| <= |b| && b[|b| - |tail|..] == tail
  {
    Regroup5(ColumnLine(ci), TypeLine(ci), UniqueLine(ci), SummaryLine(ci), SampleLine(ci));
    StartsWithAppend(ColumnLine(ci), TypeLine(ci) + UniqueLine(ci) + SummaryLine(ci) + SampleLine(ci));
    var front := ColumnLine(ci) + TypeLine(ci) + UniqueLine(ci) + SummaryLine(ci);
    StartsWithAppend(front, SampleLine(ci));
  }

  /** The dashboard's summary has no file name and no upload time, so its
      report goes straight from the counts to the column list. */
  lemma DashboardReportHasNoFileLines(data: seq<JsValues.Row>, columns: seq<string>, cis: seq<ColumnInsight>)
    ensures var basic := GenerateBasicInsights(data, columns);
      Report(basic, cis) == Intro(basic) + ColumnList(basic) + Blocks(cis)
  {
    var basic := GenerateBasicInsights(data, columns);
    assert WhenTruthy(basic.fileName, FileLine(basic)) == "";
    assert WhenTruthy(basic.uploadedAt, UploadedLine(basic)) == "";
    DropEmpty(Intro(basic));
  }
}
