/** `src/components/DataPreview.jsx`: the table of the first rows, one cell
    per column. */
module DataPreview {
  import opened Options
  import opened JsText
  import opened JsValues
  import opened JsArray

  const MaxPreviewRows: nat := 50

  /** The text of one cell: "-" for a missing value, its string otherwise. */
  function CellText(v: JsValue): (s: string)
    ensures IsMissing(v) ==> s == "-"
    ensures !IsMissing(v) ==> s == ToStr(v)
  {
    if IsMissing(v) then "-" else ToStr(v)
  }

  /** The placeholder is told apart from a value only by the value's own
      string: a present value shows as "-" only when it is the string "-". */
  lemma CellTextDash(v: JsValue)
    ensures CellText(v) == "-" <==> IsMissing(v) || v == Str("-")
  {
    match v
    case Bool(b) =>
      assert |ToStr(v)| > 1;
    case Num(n) =>
      NumberTextIsNotDash(n);
    case _ =>
  }

  /** No number prints as a lone minus sign: a non-negative one starts
      with a digit, a negative one has digits after its sign. */
  lemma NumberTextIsNotDash(n: JsNumber)
    ensures NumberToString(n) != "-"
  {
    if n.coeff < 0 {
      NumberTextStartsWithDigit(Negate(n));
      assert NumberToString(n) == "-" + NumberToString(Negate(n));
    } else {
      NumberTextStartsWithDigit(n);
    }
  }

  lemma NumberTextStartsWithDigit(n: JsNumber)
    requires n.coeff >= 0
    ensures NumberToString(n) != [] && '0' <= NumberToString(n)[0] <= '9'
  {
    if n.coeff > 0 {
      var s := DigitString(n.coeff);
      assert '0' <= s[0] <= '9' by {
        assert IsDigit(s[0]);
      }
    }
  }

  /** One table row: the cells of `row`, in the order of `columns`. */
  function RowCells(row: Row, columns: seq<string>): (cells: seq<string>)
    ensures |cells| == |columns|
    ensures forall j :: 0 <= j < |columns| ==> cells[j] == CellText(Get(row, columns[j]))
  {
    seq(|columns|, j requires 0 <= j < |columns| => CellText(Get(row, columns[j])))
  }

  /** The table shown for `data` (`None` when it is missing), or `None` for
      the "No data preview" placeholder. */
  function Preview(data: Option<seq<Row>>, columns: seq<string>): (table: Option<seq<seq<string>>>)
    ensures table.None? <==> data.None? || data.value == []
    ensures table.Some? ==>
      var shown := Slice(data.value, 0, MaxPreviewRows);
      && |table.value| == |shown|
      && forall i :: 0 <= i < |shown| ==> table.value[i] == RowCells(shown[i], columns)
  {
    if data.None? || data.value == [] then None
    else
      var shown := Slice(data.value, 0, MaxPreviewRows);
      Some(seq(|shown|, i requires 0 <= i < |shown| => RowCells(shown[i], columns)))
  }

  /** The table holds the first rows, at most fifty, each with one cell per
      column. */
  lemma PreviewShape(data: seq<Row>, columns: seq<string>)
    requires data != []
    ensures var table := Preview(Some(data), columns).value;
      && |table| == (if |data| < MaxPreviewRows then |data| else MaxPreviewRows)
      && forall i :: 0 <= i < |table| ==> table[i] == RowCells(data[i], columns) && |table[i]| == |columns|
  {
  }
}
