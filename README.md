# Excellytics analytics core, modelled in Dafny

Excellytics is a web application. A user uploads an Excel sheet, and the
application shows the sheet as a table, as charts and as per-column
insights. An admin page lists users, datasets and logins. This project
models the client logic that turns rows into what the dashboard shows,
and the server middleware that guards the API:

- the dashboard page state (`ExcelAnalyticsDashboard.jsx`), as a class
  with one field per piece of React state. Its handlers are methods: upload,
  reset to the sample, chart and filter choices, and history delete. The
  effect that repairs the chart fields when the headers change is one too;
- the derived values of the page:
  - headers and numeric headers;
  - the filtered rows;
  - the basic insights and the per-column insights (type, unique count,
    samples, min/max/mean/median, most frequent value);
- the upload history hook (`useHistory.js`), as a class over a list of at
  most ten entries;
- the components that compute something:
  - the chart builder (chart types, at most three Y series);
  - the multi-checkbox toggle;
  - the filter value list;
  - the chart panel's choice of view and its series, pie slices and 3D grid;
  - the 3D chart's axes;
  - the data preview table;
  - the plain-text insights report;
  - the protected route;
- the shared helpers (`helpers.js`);
- the admin page:
  - pagination, ten per page, with previous/next buttons;
  - delete URLs, messages and list updates;
  - the defaulting of missing login users;
- the authentication middleware (`protect`, `admin`, `superadmin`,
  `requireRole`).

JavaScript values are modelled by `JsValues.JsValue`: `undefined`, `null`,
booleans, numbers and strings. Numbers are exact decimals in normal form.
`String(v)`, truthiness, `Number(v)` on strings and `toFixed(2)` are written
out over that representation. Strings are `seq<char>`. Sorting by the string
order compares characters the way `Array.prototype.sort` compares UTF-16
code units when every character is in the Basic Multilingual Plane.

Some behaviours of the code that a reader might not expect, all of them
kept by the model:

- `headers` are the keys of the first row only. A key that appears only in
  later rows is not a column.
- `uniqueCount` counts distinct raw values, so `1` and `"1"` are two
  values.
- A column with no present value counts as `numeric`, because `every` on
  an empty list is true. Its min is `Infinity`, its max `-Infinity`, and
  its mean and median are `NaN`.
- The most frequent value is the first entry of `Object.entries` with the
  highest count. Array-index keys come first, in ascending numeric order,
  so ties do not always go to the value met first.
- `Chart3D` uses the raw `z` value. The chart panel's own 3D view uses
  `d[yKeys[1]] || 0`.
- The dashboard never sets `fileName` or `uploadedAt` in its basic
  insights, so its report never has the "File:" or "Uploaded At:" lines.
- Clearing the data while the sample is already shown leaves the X field
  empty. `setRawData(sampleData)` does not change `headers`, so the repair
  effect does not run.

## Model

| member | source | states |
|---|---|---|
| Dataset.Headers | src/pages/ExcelAnalyticsDashboard.jsx:55-58 | the headers are the first row's keys, or none without rows |
| Dataset.SampleHeaders | src/pages/ExcelAnalyticsDashboard.jsx:20-25 | the sample's columns are Quarter, Sales, Profit, Region in that order |
| Dataset.SampleRepair | src/pages/ExcelAnalyticsDashboard.jsx:82-85 | on the sample, repairing an empty selection gives X = "Quarter" and no Y field |
| Dataset.NumericHeaders | src/pages/ExcelAnalyticsDashboard.jsx:59-62 | the numeric headers are the headers, in order, for which some row holds a number |
| Dataset.NoRowsNoHeaders | src/pages/ExcelAnalyticsDashboard.jsx:55-62 | without rows there are no headers and no numeric headers |
| Dataset.FilterRows | src/pages/ExcelAnalyticsDashboard.jsx:91-96 | without a field or value every row is kept; otherwise exactly the rows whose stringified field equals the value, in order, each as many times as it occurs |
| JsArray.FilterCounts | src/pages/ExcelAnalyticsDashboard.jsx:93-95 | `filter` keeps every copy of an element that passes the test and no copy of one that fails it |
| Dataset.FilterRowsIdempotent | src/pages/ExcelAnalyticsDashboard.jsx:91-96 | filtering the filtered rows again changes nothing |
| Dataset.RepairX | src/pages/ExcelAnalyticsDashboard.jsx:83 | X is kept while it is a header, else the first header, else "" |
| Dataset.RepairXSettles | src/pages/ExcelAnalyticsDashboard.jsx:83 | with headers present the repaired X is a header, and repairing again keeps it |
| Dataset.RepairY | src/pages/ExcelAnalyticsDashboard.jsx:84 | the repaired Y fields are the first three of the old fields that are still headers (all of them when fewer), in order |
| Dataset.RepairYKeepsValid | src/pages/ExcelAnalyticsDashboard.jsx:84 | at most three Y fields that are all headers are left unchanged |
| Dataset.RepairYSettles | src/pages/ExcelAnalyticsDashboard.jsx:84 | repairing the Y fields twice is repairing them once |
| Dataset.CheckFile | src/pages/ExcelAnalyticsDashboard.jsx:170-180 | a file passes exactly when its MIME type is one of the two Excel types and it is at most 5 MiB; the type message wins over the size message |
| Dataset.LowerAsciiString | src/pages/ExcelAnalyticsDashboard.jsx:206 | lower-casing keeps the length and folds each letter |
| Dataset.StripExcelExtension | src/pages/ExcelAnalyticsDashboard.jsx:206 | the result is a prefix of the name, five or four characters shorter when the name ends in .xlsx or .xls in any case, otherwise the name |
| Dataset.StripAppendedExtension | src/pages/ExcelAnalyticsDashboard.jsx:206 | stripping undoes appending .xlsx or .xls in any letter case |
| Dataset.DatasetName | src/pages/ExcelAnalyticsDashboard.jsx:206 | the dataset name is the stripped file name, or "Uploaded Dataset" when the name is absent |
| Dataset.HistoryName | src/pages/ExcelAnalyticsDashboard.jsx:208 | the history name is the file name as given, or "Uploaded Dataset" when it is absent |
| AnalyticsDashboard.FailureMessage | src/pages/ExcelAnalyticsDashboard.jsx:212 | the error toast shows the server's message, else the error's message, else "Upload failed."; never empty |
| AnalyticsDashboard.UploadError | src/pages/ExcelAnalyticsDashboard.jsx:170-202 | an upload is refused exactly when the file check fails, the request fails or the reply has no rows; the file check's message comes first |
| AnalyticsDashboard.Dashboard.FilteredData | src/pages/ExcelAnalyticsDashboard.jsx:91-96 | all rows without a filter; otherwise an ordered selection holding every copy of each matching row and no other row |
| AnalyticsDashboard.Dashboard.PreviewData | src/pages/ExcelAnalyticsDashboard.jsx:87-89 | the preview holds the first five rows, or all of them when there are fewer |
| AnalyticsDashboard.Dashboard.constructor | src/pages/ExcelAnalyticsDashboard.jsx:48-69 | the first render shows the sample as a line chart with X = "Quarter", no Y field, no filter, and the stored history |
| AnalyticsDashboard.Dashboard.RepairSelection | src/pages/ExcelAnalyticsDashboard.jsx:82-85 | the effect changes only X and Y, to their repaired values, which are headers |
| AnalyticsDashboard.Dashboard.Upload | src/pages/ExcelAnalyticsDashboard.jsx:166-220 | no file: nothing changes; a refused upload: only an error toast; rows that cannot be saved to storage: the new rows and repaired fields, with the exception's message; an accepted upload: the new rows, name, file, history entry, repaired fields and a success toast; the dashboard invariant is kept |
| AnalyticsDashboard.Dashboard.StoreFailed | src/pages/ExcelAnalyticsDashboard.jsx:204-212 | when saving the rows throws, the rows are already replaced and the fields repaired, the name, file and history are unchanged, and the error's message is shown |
| AnalyticsDashboard.Dashboard.Accept | src/pages/ExcelAnalyticsDashboard.jsx:199-209 | an accepted reply replaces the rows, names the dataset, records the upload at the head of the history and repairs the chart fields |
| AnalyticsDashboard.Dashboard.ClearData | src/pages/ExcelAnalyticsDashboard.jsx:279-292 | reset to the sample with every choice cleared and the history kept; X becomes "Quarter" unless the sample was already shown |
| AnalyticsDashboard.Dashboard.ResetToSample | src/pages/ExcelAnalyticsDashboard.jsx:283-291 | the setter calls of the reset, before any effect runs |
| AnalyticsDashboard.Dashboard.ChooseChartType | src/components/ChartCard.jsx:77 | a chart-type button changes only the chart type |
| AnalyticsDashboard.Dashboard.ChooseXField | src/components/ChartCard.jsx:94-99 | the X select changes only X, to one of the headers |
| AnalyticsDashboard.Dashboard.ToggleSeries | src/components/ChartCard.jsx:109-112 | a Y checkbox sets Y to the toggled list capped at three, and Y stays among the headers |
| AnalyticsDashboard.Dashboard.ChooseFilter | src/components/FilterCard.jsx:44-57 | the filter selects change only the filter field and value |
| AnalyticsDashboard.Dashboard.DeleteHistory | src/pages/ExcelAnalyticsDashboard.jsx:367 | the history card's delete changes only the history, by deleting that position |
| UploadHistory.Load | src/hooks/useHistory.js:8-14 | the initial history is the stored list, or empty when nothing, unparsable text or a falsy value was stored |
| UploadHistory.Added | src/hooks/useHistory.js:20-22 | the new entry comes first, followed by the newest previous entries, ten in all at most |
| UploadHistory.AddedStaysBounded | src/hooks/useHistory.js:20-22 | a history of at most ten stays at most ten, and below ten nothing is dropped |
| UploadHistory.Deleted | src/hooks/useHistory.js:24-26 | deleting gives an ordered selection of the entries |
| UploadHistory.DeletedRemovesEntry | src/hooks/useHistory.js:24-26 | deleting a valid position removes exactly that entry and keeps the others in order |
| UploadHistory.DeletedOutOfRange | src/hooks/useHistory.js:24-26 | deleting a position outside the list changes nothing |
| UploadHistory.History.constructor | src/hooks/useHistory.js:8-14 | the hook starts from the loaded list |
| UploadHistory.History.Add | src/hooks/useHistory.js:20-22 | adding sets the list to the added list |
| UploadHistory.History.Delete | src/hooks/useHistory.js:24-26 | deleting sets the list to the deleted list |
| ColumnInsights.GenerateBasicInsights | src/pages/ExcelAnalyticsDashboard.jsx:98-104 | the row and column counts are those of the data and columns; no file name or upload time is set |
| ColumnInsights.PresentValues | src/pages/ExcelAnalyticsDashboard.jsx:108-110 | the present values are the column's non-missing cells, in row order, each value as many times as it occurs in the column |
| ColumnInsights.TypeOf | src/pages/ExcelAnalyticsDashboard.jsx:112-113 | a column is numeric exactly when every present value converts to a number |
| ColumnInsights.Numbers | src/pages/ExcelAnalyticsDashboard.jsx:123 | each number is what `Number` gives for the value at the same place |
| ColumnInsights.Least | src/pages/ExcelAnalyticsDashboard.jsx:134 | `Math.min` is Infinity on no numbers, else one of them and no greater than any |
| ColumnInsights.Greatest | src/pages/ExcelAnalyticsDashboard.jsx:135 | `Math.max` is -Infinity on no numbers, else one of them and no less than any |
| ColumnInsights.Tally | src/pages/ExcelAnalyticsDashboard.jsx:140-141 | the table's key list and its counts cover the same strings |
| ColumnInsights.TopKey | src/pages/ExcelAnalyticsDashboard.jsx:142-143 | the entry chosen after the stable sort by descending count is one of the keys |
| ColumnInsights.TopValue | src/pages/ExcelAnalyticsDashboard.jsx:143 | null exactly for an empty table, otherwise one of its keys |
| ColumnInsights.NumericSummaryOf | src/pages/ExcelAnalyticsDashboard.jsx:122-137 | a numeric summary, whose mean and median are missing exactly when there are no numbers |
| ColumnInsights.InsightOf | src/pages/ExcelAnalyticsDashboard.jsx:107-145 | the insight names its column and carries a numeric summary exactly when its type is numeric |
| ColumnInsights.TallyCounts | src/pages/ExcelAnalyticsDashboard.jsx:140-141 | the frequency table holds each string once, in first-seen order, with its number of occurrences |
| ColumnInsights.TopKeyIsFirstMaximum | src/pages/ExcelAnalyticsDashboard.jsx:142-143 | the chosen key has the highest count, and every other key with that count comes after it in entry order |
| ColumnInsights.TopValueIsMostFrequent | src/pages/ExcelAnalyticsDashboard.jsx:139-144 | on a text column the top value is a value's string with the highest count, first in entry order among the ties |
| ColumnInsights.CountFrequencies | src/pages/ExcelAnalyticsDashboard.jsx:140-141 | the counting loop builds the frequency table |
| ColumnInsights.SortNumbers | src/pages/ExcelAnalyticsDashboard.jsx:123-124 | the in-place sort gives the ascending arrangement of the numbers |
| ColumnInsights.SummarizeNumbers | src/pages/ExcelAnalyticsDashboard.jsx:122-137 | the numeric summary is min, max, mean and median of the numbers |
| ColumnInsights.MostFrequent | src/pages/ExcelAnalyticsDashboard.jsx:139-144 | the text summary is the top key of the frequency table, or null without values |
| ColumnInsights.ColumnInsightOf | src/pages/ExcelAnalyticsDashboard.jsx:107-145 | the insight built step by step is the column's insight |
| ColumnInsights.GenerateColumnInsights | src/pages/ExcelAnalyticsDashboard.jsx:106-147 | one insight per column, in column order |
| ColumnInsights.InsightShape | src/pages/ExcelAnalyticsDashboard.jsx:108-120 | the insight names its column; it is numeric exactly when every value converts, and then carries a numeric summary; the unique count is between 1 and the number of values when there are values; the samples are the first five values |
| ColumnInsights.EmptyColumnIsNumeric | src/pages/ExcelAnalyticsDashboard.jsx:112-137 | a column without values is numeric, with min Infinity, max -Infinity and no mean or median |
| ColumnInsights.NumericSummaryBounds | src/pages/ExcelAnalyticsDashboard.jsx:122-137 | on numbers, min and max are the ends of the sorted list, the mean is their average, and mean and median lie between min and max |
| ColumnInsights.TextColumnSummary | src/pages/ExcelAnalyticsDashboard.jsx:139-144 | a text column has values, and its summary is the top value of its table |
| ColumnInsights.ArrayIndexInjective | src/pages/ExcelAnalyticsDashboard.jsx:142 | two array-index keys with the same value are the same key |
| Stats.SumPermutation | src/pages/ExcelAnalyticsDashboard.jsx:125 | the sum does not depend on the order of the numbers |
| Stats.SumBounds | src/pages/ExcelAnalyticsDashboard.jsx:125 | a sum of n numbers lies between n times a lower and n times an upper bound |
| Stats.SortAscending | src/pages/ExcelAnalyticsDashboard.jsx:123-124 | the sort is ascending and a permutation of its input |
| Stats.AscendingUnique | src/pages/ExcelAnalyticsDashboard.jsx:123-124 | two ascending permutations of the same numbers are equal |
| Stats.SortedEnds | src/pages/ExcelAnalyticsDashboard.jsx:123-135 | the sorted list starts with the least number and ends with the greatest |
| Stats.MeanBetween | src/pages/ExcelAnalyticsDashboard.jsx:125 | the mean lies between the least and the greatest number |
| Stats.Mean | src/pages/ExcelAnalyticsDashboard.jsx:125 | the mean times the number of values is their sum |
| Stats.Median | src/pages/ExcelAnalyticsDashboard.jsx:126-129 | the median of a sorted list lies between its ends |
| InsightsCard.FormatInsightsText | src/components/InsightsCard.jsx:55-78 | the text built line by line is the report: the heading, then one block per column |
| InsightsCard.Report | src/components/InsightsCard.jsx:55-78 | the report: the heading lines, then one block per column; its properties are the lemmas below |
| InsightsCard.Render | src/components/InsightsCard.jsx:51-52 | without a summary nothing is shown, otherwise the report |
| InsightsCard.ReportOpening | src/components/InsightsCard.jsx:56-58 | the report opens with the title, a blank line, and the row and column counts |
| InsightsCard.FileLineIffTruthy | src/components/InsightsCard.jsx:59 | a "File:" line follows the counts exactly when the file name is truthy |
| InsightsCard.UploadedLineIffTruthy | src/components/InsightsCard.jsx:60 | an "Uploaded At:" line comes next exactly when the upload time is truthy |
| InsightsCard.ReportAddsColumn | src/components/InsightsCard.jsx:63-75 | one more insight appends exactly its block to the report |
| InsightsCard.BlocksAppend | src/components/InsightsCard.jsx:63-75 | the blocks of two insight lists are the blocks of each, in order |
| InsightsCard.SummaryLineByType | src/components/InsightsCard.jsx:68-72 | a block's fourth line starts "Min: " exactly for numeric columns and "Most Frequent: " exactly for text ones |
| InsightsCard.BlockFrame | src/components/InsightsCard.jsx:63-75 | each block opens with its column name and closes with its sample values and a blank line |
| InsightsCard.DashboardReportHasNoFileLines | src/pages/ExcelAnalyticsDashboard.jsx:98-104 | the dashboard's report goes from the counts straight to the column list |
| Chart3D.Axis | src/components/Chart3D.jsx:26-27 | an axis lists each value of the column once, and every row's value is on it |
| Chart3D.AxisInFirstSeenOrder | src/components/Chart3D.jsx:26-27 | axis labels are in the order their values first occur in the rows |
| Chart3D.Positions | src/components/Chart3D.jsx:30-32 | each position is the index of the value's label on the axis |
| Chart3D.Points | src/components/Chart3D.jsx:30-34 | the series zips the positions and heights |
| Chart3D.Layout | src/components/Chart3D.jsx:26-34 | one point per row, at the labels of its X and Y values, with its height |
| Chart3D.Render | src/components/Chart3D.jsx:17-34 | a placeholder exactly without rows, otherwise one bar per row whose height is the raw Z value |
| ChartCard.ChosenChartType | src/components/ChartCard.jsx:33-44 | a chart-type button sets one of the seven offered types |
| ChartCard.ChartTypesDistinct | src/components/ChartCard.jsx:33-44 | the seven chart types are distinct |
| ChartCard.CapSeries | src/components/ChartCard.jsx:47-56 | the Y choice keeps its first three series, all of them when there are at most three |
| ChartCard.CapSeriesIdempotent | src/components/ChartCard.jsx:47-56 | capping twice is capping once |
| ChartCard.FourthSeriesIgnored | src/components/ChartCard.jsx:109-112 | with three series chosen, ticking a fourth leaves the choice unchanged |
| MultiCheckbox.Without | src/components/MultiCheckbox.jsx:16 | removing a value drops every copy of it and keeps the rest in order |
| MultiCheckbox.Toggle | src/components/MultiCheckbox.jsx:14-19 | a selected value is removed, every copy of it; an unselected one is appended |
| MultiCheckbox.ToggleFlipsMembership | src/components/MultiCheckbox.jsx:14-19 | a toggle flips the membership of its value and of no other |
| MultiCheckbox.ToggleTwiceRestores | src/components/MultiCheckbox.jsx:14-19 | toggling an unselected value on and off restores the selection |
| FilterCard.ListableIsTrimTest | src/components/FilterCard.jsx:33 | a listable cell is present and not blank once stringified and trimmed |
| FilterCard.StringOrderIsTotalPreorder | src/components/FilterCard.jsx:37 | the default sort compares strings by a total order |
| FilterCard.CollectOffered | src/components/FilterCard.jsx:30-36 | the collecting loop gathers each offered string once |
| FilterCard.FilterValues | src/components/FilterCard.jsx:28-38 | no values without a field or rows; otherwise the offered strings, each once, sorted |
| ChartPanel.OrZero | src/components/ChartPanel.jsx:96 | a truthy value is kept, any other gives 0 |
| ChartPanel.NumberOrZero | src/components/ChartPanel.jsx:124 | the value as a number when it converts, else 0 (NaN and zero both give 0) |
| ChartPanel.Heights | src/components/ChartPanel.jsx:96 | each 3D height is the second Y field's value or 0 |
| ChartPanel.PieSlices | src/components/ChartPanel.jsx:122-125 | one slice per row, named by the X value's string and sized by the first Y field's number or 0 |
| ChartPanel.SeriesOf | src/components/ChartPanel.jsx:163-168 | one series per Y field, coloured by the palette in turn |
| ChartPanel.SeriesColorsCycle | src/components/ChartPanel.jsx:168 | series five apart share a colour and neighbouring series never do |
| ChartPanel.Render | src/components/ChartPanel.jsx:82-259 | the view chosen from the data, the fields and the type; nothing is drawn only with rows and fields present and a type the chart card does not offer |
| ChartPanel.PlaceholdersFirst | src/components/ChartPanel.jsx:82-85 | "no data" exactly without rows; "select fields" exactly with rows but no X or no Y |
| ChartPanel.BlankExactlyForUnknownTypes | src/components/ChartPanel.jsx:93-259 | with rows and fields, nothing is drawn exactly for a type the chart card does not offer |
| ChartPanel.ThreeDHeights | src/components/ChartPanel.jsx:93-96 | the 3D views put one bar per row, with height from the second Y field or 0 |
| ChartPanel.PieOneSlicePerRow | src/components/ChartPanel.jsx:121-125 | the pie has one slice per row, without grouping |
| ChartPanel.ScatterUsesFirstField | src/components/ChartPanel.jsx:237-248 | the scatter plots only the first Y field |
| DataPreview.CellText | src/components/DataPreview.jsx:71-73 | a missing cell shows "-", any other its string |
| DataPreview.CellTextDash | src/components/DataPreview.jsx:71-73 | a cell shows "-" exactly when it is missing or is the string "-" |
| DataPreview.NumberTextIsNotDash | src/components/DataPreview.jsx:72 | no number prints as "-" |
| DataPreview.RowCells | src/components/DataPreview.jsx:66-75 | one cell per column, in column order |
| DataPreview.Preview | src/components/DataPreview.jsx:15-21 | a placeholder exactly without rows; otherwise one table row per shown row |
| DataPreview.PreviewShape | src/components/DataPreview.jsx:59 | at most fifty rows are shown, each with one cell per column |
| Helpers.ClassNames | src/utils/helpers.js:1-3 | without a truthy argument the class list is empty |
| Helpers.ClassNamesSnoc | src/utils/helpers.js:1-3 | a falsy argument adds nothing; a truthy one adds its string after one space |
| Helpers.IsNumericColumn | src/utils/helpers.js:5-7 | a column is numeric exactly when some row holds a number there |
| Helpers.Unique | src/utils/helpers.js:9-11 | the values once each, with the same members |
| Helpers.UniqueFirstSeenOrder | src/utils/helpers.js:9-11 | the values come out in the order of their first occurrence |
| Helpers.UniqueOfDistinct | src/utils/helpers.js:9-11 | a list without repetitions is its own result |
| Helpers.UniqueIdempotent | src/utils/helpers.js:9-11 | applying it twice is applying it once |
| ProtectedRoute.Decide | src/components/ProtectedRoute.jsx:11-29 | login redirect exactly without a token; unauthorized redirect exactly when a non-empty role list does not hold the role |
| ProtectedRoute.RenderIffAllowed | src/components/ProtectedRoute.jsx:22-28 | the children render exactly with a token and a role allowed, or no role list |
| ProtectedRoute.NoTokenIgnoresRoles | src/components/ProtectedRoute.jsx:16-19 | without a token the roles do not matter |
| AuthMiddleware.BearerToken | backend/middlewares/authMiddleware.js:14 | the token is the second space-separated field, without spaces |
| AuthMiddleware.BearerTokenRoundTrip | backend/middlewares/authMiddleware.js:14 | "Bearer " followed by a token, and possibly more fields, gives that token back |
| AuthMiddleware.BareBearerHasNoToken | backend/middlewares/authMiddleware.js:9-14 | a bare "Bearer" header passes the prefix test but has no token |
| AuthMiddleware.Protect | backend/middlewares/authMiddleware.js:6-29 | no header or no Bearer prefix gives 401 "no token"; the request goes on exactly when the token verifies, with the user found; every refusal is 401 |
| AuthMiddleware.RejectedTokenMessage | backend/middlewares/authMiddleware.js:18-24 | an expired token gives the session-expired message, any other failure the invalid-token message |
| AuthMiddleware.Admin | backend/middlewares/authMiddleware.js:32-39 | passes exactly a user whose role is admin, otherwise 403 |
| AuthMiddleware.Superadmin | backend/middlewares/authMiddleware.js:42-49 | passes exactly a user whose role is superadmin, otherwise 403 |
| AuthMiddleware.RequireRole | backend/middlewares/authMiddleware.js:52-60 | passes exactly a user whose role is listed, otherwise 403 "Access denied" |
| AuthMiddleware.GuardsExclusive | backend/middlewares/authMiddleware.js:32-60 | no user passes both admin and superadmin; an empty role list refuses everyone |
| AuthMiddleware.RequireAdminRoleAgreesWithAdmin | backend/middlewares/authMiddleware.js:32-60 | requiring the role list ["admin"] passes exactly whom `admin` passes |
| AdminPanel.Paginate | src/pages/AdminDashboard.jsx:94-97 | a page holds the items from (page-1)*10 to page*10, clipped to the list |
| AdminPanel.PagesCoverPrefix | src/pages/AdminDashboard.jsx:94-97 | pages 1 to k together are the first 10k items |
| AdminPanel.PagesCoverAll | src/pages/AdminDashboard.jsx:94-97 | enough pages together are the whole list |
| AdminPanel.PagePastEndEmpty | src/pages/AdminDashboard.jsx:94-97 | a page past the end is empty |
| AdminPanel.PreviousPage | src/pages/AdminDashboard.jsx:197 | the previous button goes back one page, never below 1 |
| AdminPanel.NextPage | src/pages/AdminDashboard.jsx:205 | the next button moves forward exactly one page, with no upper bound |
| AdminPanel.PreviousUndoesNext | src/pages/AdminDashboard.jsx:197-205 | previous after next returns to the page |
| AdminPanel.DeleteUrl | src/pages/AdminDashboard.jsx:102-104 | logins use "/admin/login-history/id", other kinds "/admin/<kind>s/id" |
| AdminPanel.DeleteUrlIdentifiesRow | src/pages/AdminDashboard.jsx:102-104 | for the three row kinds, equal URLs mean the same kind and id |
| AdminPanel.Capitalize | src/pages/AdminDashboard.jsx:108 | the first letter is upper-cased and the rest kept |
| AdminPanel.WithoutId | src/pages/AdminDashboard.jsx:110-112 | exactly the rows with another id are kept, in order, each as many times as it occurs |
| AdminPanel.WithoutAbsentId | src/pages/AdminDashboard.jsx:110-112 | removing an id no row has changes nothing |
| AdminPanel.WithoutIdIdempotent | src/pages/AdminDashboard.jsx:110-112 | removing an id twice is removing it once |
| AdminPanel.WithDefaultUsers | src/pages/AdminDashboard.jsx:48-52 | logins keep their user, and a login without one gets the "Deleted" placeholder |
| AdminPanel.DefaultUsersComplete | src/pages/AdminDashboard.jsx:48-52 | afterwards every login has a user, only missing users changed, and defaulting again changes nothing |
| AdminPanel.Admin.constructor | src/pages/AdminDashboard.jsx:32-59 | all pages start at 1; the lists are filled from the requests, or left empty with an error toast |
| AdminPanel.Admin.VisibleUsers | src/pages/AdminDashboard.jsx:177 | at most ten users are shown |
| AdminPanel.Admin.VisibleDatasets | src/pages/AdminDashboard.jsx:231 | at most ten datasets are shown |
| AdminPanel.Admin.VisibleLogins | src/pages/AdminDashboard.jsx:285 | at most ten logins are shown |
| AdminPanel.Admin.Delete | src/pages/AdminDashboard.jsx:100-117 | requests the row's URL; on success only the list of that kind loses the rows with the id, with a success toast; on failure only an error toast |
| AdminPanel.Admin.GoToPreviousPage | src/pages/AdminDashboard.jsx:197 | one table's page goes back one, never below 1; nothing else changes |
| AdminPanel.Admin.GoToNextPage | src/pages/AdminDashboard.jsx:205 | one table's page goes forward one; nothing else changes |

## Left out

- Browser storage: the uploaded data, chart settings and filters written to `localStorage`, their restore on the first render, and the history hook's write-back. Of these writes, only the failure of the upload's write enters the model, as the `storageError` argument of `AnalyticsDashboard.Dashboard.Upload`. The stored history enters the model only as the result of reading it (`UploadHistory.Stored`), and a stored value that is truthy but not a list is not modelled.
- The restore of the latest dataset from the server on the first render, and the logout handlers.
- Network requests become parameters:
  - the upload's reply or error (`AnalyticsDashboard.UploadReply`);
  - the admin page's three fetches (`AdminPanel.Fetch`), where a falsy `data` is an empty list;
  - whether a delete request succeeded (the `deleted` argument);
  - `jwt.verify` and `User.findById` (the `verify` function of `AuthMiddleware.Protect`).
- `FileReader`, the upload progress and the uploading flag, which only drive the progress bar.
- The standard deviation, which needs a square root. The summary keeps min, max, mean and median.
- Floating point: numbers are exact decimals, so double rounding, `Infinity`, hexadecimal and other non-decimal literals accepted by `Number`, negative zero and `toFixed` on numbers of 1e21 or more are not modelled.
- The string order of the filter values' sort treats each character as one code unit; characters outside the Basic Multilingual Plane are not split into surrogate pairs.
- Keys of the frequency object that collide with `Object.prototype` members are treated as ordinary keys.
- Rendering, styling, animation, the toast's four-second timeout, and the TXT and PDF downloads of the insights report. The toast is kept as the last message shown.
- An absent `fileName` in the upload reply is written as the empty string, which JavaScript also treats as falsy.
- AdminPanel.Capitalize: upper-cases only the ASCII letters a to z, not the full Unicode case mapping of `toUpperCase`.
- UploadHistory.Deleted: the general contract only says the result is an ordered selection of the entries; the exact result is stated by `UploadHistory.DeletedRemovesEntry` and `UploadHistory.DeletedOutOfRange`.
