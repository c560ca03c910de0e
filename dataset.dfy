/** The dataset logic of `src/pages/ExcelAnalyticsDashboard.jsx` that is a
    function of its inputs: the column headers, the row filter, the repair of
    the chart fields when the headers change, and the checks and names of an
    upload. */
module Dataset {
  import opened Options
  import opened JsText
  import opened JsValues
  import opened JsArray
  import opened Helpers

  /** One row of the built-in sample. */
  function SampleRow(quarter: string, sales: nat, profit: nat, region: string): Row {
    Row(["Quarter", "Sales", "Profit", "Region"],
      map["Quarter" := Str(quarter), "Sales" := Num(FromNat(sales)),
          "Profit" := Num(FromNat(profit)), "Region" := Str(region)])
  }

  /** The rows shown before any upload. */
  const SampleData: seq<Row> := [
    SampleRow("Q1", 120, 32, "East"),
    SampleRow("Q2", 180, 54, "West"),
    SampleRow("Q3", 140, 43, "North"),
    SampleRow("Q4", 210, 76, "South")
  ]

  /** `headers`: the keys of the first row only, in their order. */
  function Headers(data: seq<Row>): (h: seq<string>)
    ensures data == [] ==> h == []
    ensures data != [] ==> h == data[0].keys
  {
    if |data| > 0 then data[0].keys else []
  }

  /** The sample's columns. */
  lemma SampleHeaders()
    ensures Headers(SampleData) == ["Quarter", "Sales", "Profit", "Region"]
  {
  }

  /** On the sample, the repair of an unset selection picks the first
      column as X and no Y field. */
  lemma SampleRepair()
    ensures RepairX(Headers(SampleData), "") == "Quarter"
    ensures RepairY(Headers(SampleData), []) == []
  {
    SampleHeaders();
  }

  /** `numericHeaders`: the headers for which some row holds a number. */
  function NumericHeaders(data: seq<Row>): (h: seq<string>)
    ensures IsSubsequence(h, Headers(data))
    ensures forall k :: k in h <==> k in Headers(data) && IsNumericColumn(data, k)
  {
    Filter(Headers(data), (k: string) => IsNumericColumn(data, k))
  }

  /** Without rows there are no headers, numeric or not. */
  lemma NoRowsNoHeaders(data: seq<Row>)
    requires data == []
    ensures Headers(data) == [] && NumericHeaders(data) == []
  {
  }

  /** `filteredData`: with a field and a value chosen, the rows whose field,
      as a string, is the value; otherwise every row. */
  function FilterRows(data: seq<Row>, field: string, value: string): (r: seq<Row>)
    ensures field == "" || value == "" ==> r == data
    ensures IsSubsequence(r, data)
    ensures field != "" && value != "" ==>
      forall row :: row in r <==> row in data && ToStr(Get(row, field)) == value
    ensures field != "" && value != "" ==>
      forall row :: multiset(r)[row] == if ToStr(Get(row, field)) == value then multiset(data)[row] else 0
  {
    if field == "" || value == "" then
      PrefixIsSubsequence(data, data);
      data
    else
      FilterCounts(data, (row: Row) => ToStr(Get(row, field)) == value);
      Filter(data, (row: Row) => ToStr(Get(row, field)) == value)
  }

  /** Filtering the filtered rows again changes nothing. */
  lemma FilterRowsIdempotent(data: seq<Row>, field: string, value: string)
    ensures FilterRows(FilterRows(data, field, value), field, value) == FilterRows(data, field, value)
  {
    if field != "" && value != "" {
      FilterIdempotent(data, (row: Row) => ToStr(Get(row, field)) == value);
    }
  }

  /** The X field after the headers change: kept when it is still a header,
      otherwise the first header, or "" when there is none. */
  function RepairX(headers: seq<string>, x: string): (r: string)
    ensures x in headers ==> r == x
    ensures x !in headers && headers != [] ==> r == headers[0]
    ensures x !in headers && headers == [] ==> r == ""
  {
    if x in headers then x
    else if headers != [] && headers[0] != "" then headers[0]
    else ""
  }

  /** The repaired X field is a header whenever there are headers, and a
      second repair keeps it. */
  lemma RepairXSettles(headers: seq<string>, x: string)
    ensures headers != [] ==> RepairX(headers, x) in headers
    ensures RepairX(headers, RepairX(headers, x)) == RepairX(headers, x)
  {
  }

  /** The Y fields after the headers change: those still among the headers,
      in order, at most three. */
  function RepairY(headers: seq<string>, ys: seq<string>): (r: seq<string>)
    ensures var kept := Filter(ys, (y: string) => y in headers);
      |r| == (if |kept| < 3 then |kept| else 3) && r <= kept
    ensures |r| <= 3
    ensures forall y :: y in r ==> y in headers && y in ys
    ensures IsSubsequence(r, ys)
  {
    var kept := Filter(ys, (y: string) => y in headers);
    var r := Slice(kept, 0, 3);
    assert forall y :: y in r ==> y in kept;
    PrefixIsSubsequence(r, kept);
    SubsequenceTransitive(r, kept, ys);
    r
  }

  /** Fields that are all headers, at most three of them, are left alone. */
  lemma RepairYKeepsValid(headers: seq<string>, ys: seq<string>)
    requires |ys| <= 3 && forall y :: y in ys ==> y in headers
    ensures RepairY(headers, ys) == ys
  {
    FilterKeepsAll(ys, (y: string) => y in headers);
  }

  /** A second repair keeps the result of the first. */
  lemma RepairYSettles(headers: seq<string>, ys: seq<string>)
    ensures RepairY(headers, RepairY(headers, ys)) == RepairY(headers, ys)
  {
    RepairYKeepsValid(headers, RepairY(headers, ys));
  }

  /** The part of a browser `File` the upload looks at. */
  datatype File = File(name: string, mimeType: string, size: nat)

  const ExcelMimeTypes: seq<string> := [
    "application/vnd.openxmlformats-officedocument.spreadsheetml.sheet",
    "application/vnd.ms-excel"
  ]

  const MaxUploadBytes: nat := 5 * 1024 * 1024

  const InvalidTypeMessage := "Invalid file type. Please upload an Excel file (.xls or .xlsx)."
  const TooLargeMessage := "File too large. Max 5MB allowed."
  const NoRowsMessage := "No rows found in uploaded sheet."

  /** The checks made before the file is read: `None` lets it through,
      otherwise the message shown. The type is checked first. */
  function CheckFile(file: File): (r: Option<string>)
    ensures r == None <==> file.mimeType in ExcelMimeTypes && file.size <= MaxUploadBytes
    ensures file.mimeType !in ExcelMimeTypes ==> r == Some(InvalidTypeMessage)
    ensures file.mimeType in ExcelMimeTypes && file.size > MaxUploadBytes ==> r == Some(TooLargeMessage)
  {
    if file.mimeType !in ExcelMimeTypes then Some(InvalidTypeMessage)
    else if file.size > MaxUploadBytes then Some(TooLargeMessage)
    else None
  }

  /** Letter case folding of the `i` flag of a regular expression, on the
      letters that matter here. */
  function LowerAscii(c: char): char {
    if 'A' <= c <= 'Z' then (c as int + 32) as char else c
  }

  function LowerAsciiString(s: string): (r: string)
    ensures |r| == |s| && forall i :: 0 <= i < |s| ==> r[i] == LowerAscii(s[i])
  {
    seq(|s|, i requires 0 <= i < |s| => LowerAscii(s[i]))
  }

  /** `s` ends with `ext` (written in lower case), letter case ignored. */
  predicate EndsWithIgnoringCase(s: string, ext: string) {
    |ext| <= |s| && LowerAsciiString(s[|s| - |ext|..]) == ext
  }

  /** `name.replace(/\.(xlsx|xls)$/i, "")`: one trailing `.xlsx` or `.xls`,
      in any letter case, removed. */
  function StripExcelExtension(name: string): (r: string)
    ensures |r| <= |name| && r == name[..|r|]
    ensures EndsWithIgnoringCase(name, ".xlsx") ==> |r| == |name| - 5
    ensures !EndsWithIgnoringCase(name, ".xlsx") && EndsWithIgnoringCase(name, ".xls") ==> |r| == |name| - 4
    ensures !EndsWithIgnoringCase(name, ".xlsx") && !EndsWithIgnoringCase(name, ".xls") ==> r == name
  {
    if EndsWithIgnoringCase(name, ".xlsx") then name[..|name| - 5]
    else if EndsWithIgnoringCase(name, ".xls") then name[..|name| - 4]
    else name
  }

  /** Stripping undoes appending an Excel extension, whatever its case. */
  lemma StripAppendedExtension(base: string, ext: string)
    requires LowerAsciiString(ext) == ".xlsx" || LowerAsciiString(ext) == ".xls"
    ensures StripExcelExtension(base + ext) == base
  {
    var name := base + ext;
    assert name[|name| - |ext|..] == ext;
    assert name[..|base|] == base;
    if LowerAsciiString(ext) == ".xls" {
      assert LowerAscii(ext[3]) == 's';
      assert !EndsWithIgnoringCase(name, ".xlsx") by {
        if |name| >= 5 {
          assert LowerAsciiString(name[|name| - 5..])[4] == LowerAscii(ext[3]);
        }
      }
    }
  }

  const UploadedDatasetName := "Uploaded Dataset"

  /** The dataset's display name: the file name without its extension, or a
      fixed name when the server gave none (an absent name is written ""). */
  function DatasetName(fileName: string): (r: string)
    ensures fileName == "" ==> r == UploadedDatasetName
    ensures fileName != "" ==> r == StripExcelExtension(fileName)
  {
    if fileName == "" then UploadedDatasetName else StripExcelExtension(fileName)
  }

  /** The name recorded in the upload history: the file name as given. */
  function HistoryName(fileName: string): (r: string)
    ensures fileName == "" ==> r == UploadedDatasetName
    ensures fileName != "" ==> r == fileName
  {
    if fileName == "" then UploadedDatasetName else fileName
  }
}
