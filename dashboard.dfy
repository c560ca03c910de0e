/** The state of `src/pages/ExcelAnalyticsDashboard.jsx` and the handlers
    that change it: the upload, the reset to the sample, the chart and filter
    choices, and the effect that repairs the chart fields whenever the
    headers change. */
module AnalyticsDashboard {
  import opened Options
  import opened JsValues
  import opened JsArray
  import opened Dataset
  import opened UploadHistory
  import opened Toasts
  import ChartCard
  import MultiCheckbox

  /** How the upload request ended: an error, with the server's message and
      the error's own message ("" when missing), or the server's reply. */
  datatype UploadReply =
    | Failed(serverMessage: string, errorMessage: string)
    | Replied(data: seq<Row>, fileName: string)

  const SampleDatasetName := "Sample Dataset"
  const UploadFailedMessage := "Upload failed."
  const UploadedMessage := "File uploaded successfully!"
  const ResetMessage := "Dashboard reset to sample dataset"

  /** `err.response?.data?.message || err.message || "Upload failed."`. */
  function FailureMessage(serverMessage: string, errorMessage: string): (m: string)
    ensures m != ""
    ensures serverMessage != "" ==> m == serverMessage
    ensures serverMessage == "" && errorMessage != "" ==> m == errorMessage
    ensures serverMessage == "" && errorMessage == "" ==> m == UploadFailedMessage
  {
    if serverMessage != "" then serverMessage
    else if errorMessage != "" then errorMessage
    else UploadFailedMessage
  }

  /** Why an upload of `file` that ended with `reply` is refused, if it is:
      the type and size checks come first, then the request, then the rows. */
  function UploadError(file: File, reply: UploadReply): (m: Option<string>)
    ensures m == None <==> CheckFile(file) == None && reply.Replied? && reply.data != []
    ensures CheckFile(file).Some? ==> m == CheckFile(file)
    ensures CheckFile(file) == None && reply.Replied? && reply.data == [] ==> m == Some(NoRowsMessage)
    ensures m.Some? ==> m.value != ""
  {
    match CheckFile(file)
    case Some(msg) => Some(msg)
    case None =>
      match reply
      case Failed(server, err) => Some(FailureMessage(server, err))
      case Replied(data, _) => if data == [] then Some(NoRowsMessage) else None
  }

  /** Every field of the dashboard but the toast, and the upload history. */
  datatype View = View(
    rawData: seq<Row>,
    rawIsSample: bool,
    datasetName: string,
    uploadedFile: Option<File>,
    chartType: string,
    xField: string,
    yFields: seq<string>,
    filterField: string,
    filterValue: string,
    history: seq<Entry>)

  class Dashboard {
    var rawData: seq<Row>
    /** Whether `rawData` is the sample array itself: setting it to the same
        array again leaves `headers` as it was, so the repair effect does not
        run. */
    var rawIsSample: bool
    var datasetName: string
    var uploadedFile: Option<File>
    var chartType: string
    var xField: string
    var yFields: seq<string>
    var filterField: string
    var filterValue: string
    var toast: Option<Toast>
    const history: History

    function Snapshot(): View
      reads this, history
    {
      View(rawData, rawIsSample, datasetName, uploadedFile, chartType, xField, yFields,
        filterField, filterValue, history.entries)
    }

    /** What every handler keeps: the sample flag is honest, the chart type
        is one of the offered ones, the X field is unset or a header, and
        the Y fields are at most three headers. */
    ghost predicate Valid()
      reads this
    {
      && (rawIsSample ==> rawData == SampleData)
      && chartType in ChartCard.ChartTypes
      && (xField == "" || xField in Headers(rawData))
      && |yFields| <= 3
      && (forall y :: y in yFields ==> y in Headers(rawData))
    }

    /** `filteredData`. */
    function FilteredData(): (r: seq<Row>)
      reads this
      ensures IsSubsequence(r, rawData)
      ensures filterField == "" || filterValue == "" ==> r == rawData
      ensures filterField != "" && filterValue != "" ==>
        forall row :: multiset(r)[row] == if ToStr(Get(row, filterField)) == filterValue then multiset(rawData)[row] else 0
    {
      FilterRows(rawData, filterField, filterValue)
    }

    /** `previewData`: the first five rows. */
    function PreviewData(): (r: seq<Row>)
      reads this
      ensures |r| == if |rawData| < 5 then |rawData| else 5
      ensures r == rawData[..|r|]
    {
      Slice(rawData, 0, 5)
    }

    /** The first render: the sample, a line chart, no filter, and the
        history read from storage; the repair effect then picks the first
        header as X. */
    constructor(stored: Stored)
      ensures Valid() && fresh(history)
      ensures Snapshot() == View(SampleData, true, SampleDatasetName, None, "line", "Quarter", [], "", "", Load(stored))
      ensures toast == None
    {
      rawData := SampleData;
      rawIsSample := true;
      datasetName := SampleDatasetName;
      uploadedFile := None;
      chartType := "line";
      yFields := [];
      filterField := "";
      filterValue := "";
      toast := None;
      history := new History(stored);
      SampleRepair();
      xField := RepairX(Headers(SampleData), "");
    }

    /** The effect on `[headers]`: keep the X field if it is still a header,
        else take the first header; keep the Y fields that are still
        headers, at most three. */
    method RepairSelection()
      modifies this
      ensures Snapshot() == old(Snapshot()).(xField := RepairX(Headers(rawData), old(xField)),
        yFields := RepairY(Headers(rawData), old(yFields)))
      ensures toast == old(toast)
      ensures xField == "" || xField in Headers(rawData)
      ensures |yFields| <= 3 && forall y :: y in yFields ==> y in Headers(rawData)
    {
      var headers := Headers(rawData);
      xField := RepairX(headers, xField);
      yFields := RepairY(headers, yFields);
    }

    /** `onUpload`: without a file nothing happens; a refused upload only
        shows why; an accepted one replaces the rows, names the dataset,
        records the upload in the history and repairs the chart fields.
        `storageError` is the message of the exception thrown by saving the
        rows to browser storage, if it throws: the rows are then already
        replaced, and the rest of the `try` block is skipped. */
    method Upload(file: Option<File>, reply: UploadReply, storageError: Option<string>)
      requires Valid()
      modifies this, history
      ensures Valid()
      ensures file.None? ==> Snapshot() == old(Snapshot()) && toast == old(toast)
      ensures file.Some? && UploadError(file.value, reply).Some? ==>
        Snapshot() == old(Snapshot()) && toast == Some(Toast(UploadError(file.value, reply).value, Error))
      ensures file.Some? && UploadError(file.value, reply).None? && storageError.Some? ==>
        var data := reply.data;
        && Snapshot() == old(Snapshot()).(rawData := data, rawIsSample := false,
             xField := RepairX(Headers(data), old(xField)), yFields := RepairY(Headers(data), old(yFields)))
        && toast == Some(Toast(FailureMessage("", storageError.value), Error))
      ensures file.Some? && UploadError(file.value, reply).None? && storageError.None? ==>
        var data := reply.data;
        && Snapshot() == old(Snapshot()).(rawData := data, rawIsSample := false,
             datasetName := DatasetName(reply.fileName), uploadedFile := file,
             xField := RepairX(Headers(data), old(xField)), yFields := RepairY(Headers(data), old(yFields)),
             history := Added(old(history.entries), Entry(HistoryName(reply.fileName), |data|)))
        && toast == Some(Toast(UploadedMessage, Success))
    {
      if file.None? {
        return;
      }
      var error := UploadError(file.value, reply);
      if error.Some? {
        toast := Some(Toast(error.value, Error));
        return;
      }
      if storageError.Some? {
        StoreFailed(reply.data, storageError.value);
      } else {
        Accept(file.value, reply.data, reply.fileName);
      }
    }

    /** The `try` block of an upload whose rows could not be saved: the rows
        were set, then the exception's message is shown. The dataset name,
        the file and the history keep their values. */
    method StoreFailed(data: seq<Row>, message: string)
      requires Valid()
      modifies this
      ensures Valid()
      ensures Snapshot() == old(Snapshot()).(rawData := data, rawIsSample := false,
        xField := RepairX(Headers(data), old(xField)), yFields := RepairY(Headers(data), old(yFields)))
      ensures toast == Some(Toast(FailureMessage("", message), Error))
    {
      rawData := data;
      rawIsSample := false;
      toast := Some(Toast(FailureMessage("", message), Error));
      assert Snapshot() == old(Snapshot()).(rawData := data, rawIsSample := false);
      RepairSelection();
    }

    /** The `try` block of an upload that brought rows. */
    method Accept(file: File, data: seq<Row>, fileName: string)
      requires Valid() && data != []
      modifies this, history
      ensures Valid()
      ensures Snapshot() == old(Snapshot()).(rawData := data, rawIsSample := false,
        datasetName := DatasetName(fileName), uploadedFile := Some(file),
        xField := RepairX(Headers(data), old(xField)), yFields := RepairY(Headers(data), old(yFields)),
        history := Added(old(history.entries), Entry(HistoryName(fileName), |data|)))
      ensures toast == Some(Toast(UploadedMessage, Success))
    {
      rawData := data;
      rawIsSample := false;
      datasetName := DatasetName(fileName);
      uploadedFile := Some(file);
      history.Add(HistoryName(fileName), |data|);
      toast := Some(Toast(UploadedMessage, Success));
      assert Snapshot() == old(Snapshot()).(rawData := data, rawIsSample := false,
        datasetName := DatasetName(fileName), uploadedFile := Some(file),
        history := Added(old(history.entries), Entry(HistoryName(fileName), |data|)));
      RepairSelection();
    }

    /** `handleClearData`: back to the sample with every choice reset. The
        repair effect runs only when the rows were not already the sample,
        so clearing the sample leaves no X field chosen. The history is
        kept. */
    method ClearData()
      requires Valid()
      modifies this
      ensures Valid()
      ensures Snapshot() == old(Snapshot()).(rawData := SampleData, rawIsSample := true,
        datasetName := SampleDatasetName, uploadedFile := None, chartType := "line",
        xField := if old(rawIsSample) then "" else "Quarter", yFields := [],
        filterField := "", filterValue := "")
      ensures toast == Some(Toast(ResetMessage, Info))
    {
      var wasSample := rawIsSample;
      ResetToSample();
      if !wasSample {
        SampleRepair();
        RepairSelection();
      }
    }

    /** The setter calls of `handleClearData`, before any effect runs. */
    method ResetToSample()
      modifies this
      ensures Valid()
      ensures Snapshot() == old(Snapshot()).(rawData := SampleData, rawIsSample := true,
        datasetName := SampleDatasetName, uploadedFile := None, chartType := "line",
        xField := "", yFields := [], filterField := "", filterValue := "")
      ensures toast == Some(Toast(ResetMessage, Info))
    {
      rawData := SampleData;
      rawIsSample := true;
      datasetName := SampleDatasetName;
      uploadedFile := None;
      chartType := "line";
      xField := "";
      yFields := [];
      filterField := "";
      filterValue := "";
      toast := Some(Toast(ResetMessage, Info));
    }

    /** A chart-type button. */
    method ChooseChartType(t: string)
      requires Valid() && t in ChartCard.ChartTypes
      modifies this
      ensures Valid()
      ensures Snapshot() == old(Snapshot()).(chartType := t) && toast == old(toast)
    {
      chartType := t;
    }

    /** The X-axis select, whose options are the headers. */
    method ChooseXField(x: string)
      requires Valid() && x in Headers(rawData)
      modifies this
      ensures Valid()
      ensures Snapshot() == old(Snapshot()).(xField := x) && toast == old(toast)
    {
      xField := x;
    }

    /** A Y-series checkbox, whose options are the numeric headers: the
        toggled list, capped at three. */
    method ToggleSeries(v: string)
      requires Valid() && v in NumericHeaders(rawData)
      modifies this
      ensures Valid()
      ensures Snapshot() == old(Snapshot()).(yFields := ChartCard.CapSeries(MultiCheckbox.Toggle(old(yFields), v)))
      ensures toast == old(toast)
    {
      var toggled := MultiCheckbox.Toggle(yFields, v);
      assert forall y :: y in toggled ==> y in yFields || y == v;
      yFields := ChartCard.CapSeries(toggled);
      assert forall y :: y in yFields ==> y in toggled;
    }

    /** The filter selects; "" is the placeholder. */
    method ChooseFilter(field: string, value: string)
      requires Valid()
      modifies this
      ensures Valid()
      ensures Snapshot() == old(Snapshot()).(filterField := field, filterValue := value)
      ensures toast == old(toast)
    {
      filterField := field;
      filterValue := value;
    }

    /** The history card's delete button. */
    method DeleteHistory(index: int)
      requires Valid()
      modifies history
      ensures Valid()
      ensures Snapshot() == old(Snapshot()).(history := Deleted(old(history.entries), index))
      ensures toast == old(toast)
    {
      history.Delete(index);
    }
  }
}
