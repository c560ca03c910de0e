/** `src/components/ChartPanel.jsx`: picks what to draw from the chart type,
    the rows and the chosen fields. Only the data handed to the chart
    library is modelled, not the drawing. */
module ChartPanel {
  import opened Options
  import opened JsValues
  import opened JsArray
  import Chart3D
  import ChartCard

  /** The five series colours, used in turn. */
  const Palette: seq<string> := ["#7C3AED", "#8B5CF6", "#A78BFA", "#C4B5FD", "#DDD6FE"]

  /** One pie slice: `{ name, value }`. */
  datatype Slice = Slice(name: string, value: JsNumber)

  /** A line, area or bar series: its column and its colour. */
  datatype Series = Series(key: string, color: string)

  datatype View =
    | NoData                                    // "No data available"
    | SelectFields                              // "Please select X and Y fields"
    | ThreeD(kind: string, grid: Chart3D.Grid)  // `bar3D` or `scatter3D`
    | Pie(slices: seq<Slice>)
    | Cartesian(kind: string, xKey: string, series: seq<Series>)  // `line`, `area` or `bar`
    | Scatter(xKey: string, yKey: string, name: string)
    | Blank                                     // `return null`

  /** `d[yKeys[1]] || 0`: with a single Y field `yKeys[1]` is `undefined`,
      which as a property name is the string "undefined". */
  function HeightKey(yKeys: seq<string>): string {
    if |yKeys| > 1 then yKeys[1] else "undefined"
  }

  /** `v || 0`. */
  function OrZero(v: JsValue): (r: JsValue)
    ensures Truthy(v) ==> r == v
    ensures !Truthy(v) ==> r == Num(Zero)
  {
    if Truthy(v) then v else Num(Zero)
  }

  /** `Number(v) || 0`: NaN and zero both give zero. */
  function NumberOrZero(v: JsValue): (n: JsNumber)
    ensures ToNumber(v).Some? ==> n == ToNumber(v).value
    ensures ToNumber(v).None? ==> n == Zero
  {
    ToNumber(v).GetOr(Zero)
  }

  /** The bar heights of the 3D views. */
  function Heights(data: seq<Row>, yKeys: seq<string>): (zs: seq<JsValue>)
    ensures |zs| == |data|
    ensures forall i :: 0 <= i < |data| ==> zs[i] == OrZero(Get(data[i], HeightKey(yKeys)))
  {
    seq(|data|, i requires 0 <= i < |data| => OrZero(Get(data[i], HeightKey(yKeys))))
  }

  function PieSlices(data: seq<Row>, xKey: string, yKey: string): (r: seq<Slice>)
    ensures |r| == |data|
    ensures forall i :: 0 <= i < |data| ==>
      r[i].name == ToStr(Get(data[i], xKey)) && r[i].value == NumberOrZero(Get(data[i], yKey))
  {
    seq(|data|, i requires 0 <= i < |data| => Slice(ToStr(Get(data[i], xKey)), NumberOrZero(Get(data[i], yKey))))
  }

  function SeriesOf(yKeys: seq<string>): (r: seq<Series>)
    ensures |r| == |yKeys|
    ensures forall i :: 0 <= i < |yKeys| ==> r[i].key == yKeys[i] && r[i].color == Palette[i % |Palette|]
  {
    seq(|yKeys|, i requires 0 <= i < |yKeys| => Series(yKeys[i], Palette[i % |Palette|]))
  }

  /** Series five apart share a colour, and neighbouring ones never do. */
  lemma SeriesColorsCycle(yKeys: seq<string>, i: nat)
    requires i + 1 < |yKeys|
    ensures i + 5 < |yKeys| ==> SeriesOf(yKeys)[i].color == SeriesOf(yKeys)[i + 5].color
    ensures SeriesOf(yKeys)[i].color != SeriesOf(yKeys)[i + 1].color
  {
    var s := SeriesOf(yKeys);
    if i + 5 < |yKeys| {
      assert (i + 5) % 5 == i % 5;
    }
    assert (i + 1) % 5 != i % 5;
  }

  /** The `ChartPanel` component. */
  function Render(chartType: string, data: seq<Row>, xKey: string, yKeys: seq<string>): (v: View)
    ensures v.Blank? ==> |data| > 0 && xKey != "" && |yKeys| > 0 && chartType !in ChartCard.ChartTypes
  {
    if |data| == 0 then NoData
    else if xKey == "" || |yKeys| == 0 then SelectFields
    else if chartType == "bar3D" || chartType == "scatter3D" then
      ThreeD(chartType, Chart3D.Layout(data, xKey, yKeys[0], Heights(data, yKeys)))
    else if chartType == "pie" then Pie(PieSlices(data, xKey, yKeys[0]))
    else if chartType == "line" || chartType == "area" || chartType == "bar" then
      Cartesian(chartType, xKey, SeriesOf(yKeys))
    else if chartType == "scatter" then Scatter(xKey, yKeys[0], yKeys[0] + " vs " + xKey)
    else Blank
  }

  /** The placeholders come first, in this order, whatever the chart type. */
  lemma PlaceholdersFirst(chartType: string, data: seq<Row>, xKey: string, yKeys: seq<string>)
    ensures Render(chartType, data, xKey, yKeys).NoData? <==> |data| == 0
    ensures Render(chartType, data, xKey, yKeys).SelectFields? <==> |data| > 0 && (xKey == "" || |yKeys| == 0)
  {
  }

  /** Every type offered by the chart card draws something once rows and
      fields are there, and any other type draws nothing. */
  lemma BlankExactlyForUnknownTypes(chartType: string, data: seq<Row>, xKey: string, yKeys: seq<string>)
    requires |data| > 0 && xKey != "" && |yKeys| > 0
    ensures Render(chartType, data, xKey, yKeys).Blank? <==> chartType !in ChartCard.ChartTypes
  {
  }

  /** The 3D views: one bar per row at the positions of its X and first Y
      value, as high as its second Y value, or 0 when that is falsy. */
  lemma ThreeDHeights(chartType: string, data: seq<Row>, xKey: string, yKeys: seq<string>)
    requires |data| > 0 && xKey != "" && |yKeys| > 0
    requires chartType == "bar3D" || chartType == "scatter3D"
    ensures var v := Render(chartType, data, xKey, yKeys);
      && v.ThreeD? && v.kind == chartType
      && v.grid.xLabels == Chart3D.Axis(data, xKey) && v.grid.yLabels == Chart3D.Axis(data, yKeys[0])
      && |v.grid.series| == |data|
      && forall i :: 0 <= i < |data| ==>
        && v.grid.xLabels[v.grid.series[i].x] == Get(data[i], xKey)
        && v.grid.yLabels[v.grid.series[i].y] == Get(data[i], yKeys[0])
        && (Truthy(Get(data[i], HeightKey(yKeys))) ==> v.grid.series[i].z == Get(data[i], HeightKey(yKeys)))
        && (!Truthy(Get(data[i], HeightKey(yKeys))) ==> v.grid.series[i].z == Num(Zero))
  {
    var zs := Heights(data, yKeys);
    var g := Chart3D.Layout(data, xKey, yKeys[0], zs);
    assert Render(chartType, data, xKey, yKeys) == ThreeD(chartType, g);
    forall i | 0 <= i < |data| ensures g.series[i].z == OrZero(Get(data[i], HeightKey(yKeys))) {
    }
  }

  /** The pie: one slice per row (rows are not grouped), named by the X value
      as a string and sized by the first Y value as a number, 0 when it is
      not one. */
  lemma PieOneSlicePerRow(data: seq<Row>, xKey: string, yKeys: seq<string>)
    requires |data| > 0 && xKey != "" && |yKeys| > 0
    ensures var v := Render("pie", data, xKey, yKeys);
      && v.Pie? && |v.slices| == |data|
      && forall i :: 0 <= i < |data| ==>
        && v.slices[i].name == ToStr(Get(data[i], xKey))
        && (ToNumber(Get(data[i], yKeys[0])).None? ==> v.slices[i].value == Zero)
  {
  }

  /** Scatter plots only the first Y field; the others are ignored. */
  lemma ScatterUsesFirstField(data: seq<Row>, xKey: string, yKeys: seq<string>, more: seq<string>)
    requires |data| > 0 && xKey != "" && |yKeys| > 0
    ensures Render("scatter", data, xKey, yKeys + more) == Render("scatter", data, xKey, yKeys)
    ensures Render("scatter", data, xKey, yKeys) == Scatter(xKey, yKeys[0], yKeys[0] + " vs " + xKey)
  {
  }
}
