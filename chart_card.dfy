/** `src/components/ChartCard.jsx`: chooses the chart type, the X field and
    up to three Y series. */
module ChartCard {
  import opened JsArray
  import MultiCheckbox

  datatype ChartOption = ChartOption(title: string, value: string)

  /** The chart type buttons, in display order. */
  const ChartOptions: seq<ChartOption> := [
    ChartOption("Line", "line"),
    ChartOption("Area", "area"),
    ChartOption("Bar", "bar"),
    ChartOption("Scatter", "scatter"),
    ChartOption("Pie", "pie"),
    ChartOption("Bar 3D", "bar3D"),
    ChartOption("Scatter 3D", "scatter3D")
  ]

  const ChartTypes: seq<string> := ["line", "area", "bar", "scatter", "pie", "bar3D", "scatter3D"]

  /** Clicking the button at `index` passes that option's value to the setter,
      so the chart type set from this card is always one of the seven. */
  function ChosenChartType(index: nat): (t: string)
    requires index < |ChartOptions|
    ensures t in ChartTypes && t == ChartTypes[index]
  {
    ChartOptions[index].value
  }

  /** The seven types are distinct. */
  lemma ChartTypesDistinct()
    ensures |ChartTypes| == 7 && Distinct(ChartTypes)
  {
  }

  /** `handleYFieldChange(vals)`: at most three series, the first three chosen. */
  function CapSeries(vals: seq<string>): (r: seq<string>)
    ensures |r| <= 3 && |r| <= |vals| && r == vals[..|r|]
    ensures |vals| <= 3 ==> r == vals
    ensures |vals| > 3 ==> |r| == 3
  {
    if |vals| <= 3 then vals else vals[..3]
  }

  /** Capping twice is capping once. */
  lemma CapSeriesIdempotent(vals: seq<string>)
    ensures CapSeries(CapSeries(vals)) == CapSeries(vals)
  {
  }

  /** With three series chosen, ticking a fourth leaves the choice as it was:
      the toggle appends it and the cap drops it again. */
  lemma FourthSeriesIgnored(ys: seq<string>, v: string)
    requires |ys| == 3 && v !in ys
    ensures CapSeries(MultiCheckbox.Toggle(ys, v)) == ys
  {
    assert (ys + [v])[..3] == ys;
  }
}
