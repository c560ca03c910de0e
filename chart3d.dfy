/** `src/components/Chart3D.jsx`: a 3D bar chart whose two category axes are
    the distinct values of two columns, and whose bars are placed by the
    position of each row's values on those axes. */
module Chart3D {
  import opened JsValues
  import opened JsArray
  import opened Helpers

  /** One `[xIndex, yIndex, value]` entry of the series. */
  datatype Point = Point(x: int, y: int, z: JsValue)

  /** The axes and the series handed to the chart library. */
  datatype Grid = Grid(xLabels: seq<JsValue>, yLabels: seq<JsValue>, series: seq<Point>)

  datatype View = NoData | Bars(grid: Grid)

  /** `[...new Set(data.map(d => d[key]))]`: the values of a column, each
      once. */
  function Axis(data: seq<Row>, key: string): (r: seq<JsValue>)
    ensures Distinct(r)
    ensures forall v :: v in r ==> v in Column(data, key)
    ensures forall i :: 0 <= i < |data| ==> Get(data[i], key) in r
  {
    var col := Column(data, key);
    assert forall i :: 0 <= i < |data| ==> col[i] in col;
    Unique(col)
  }

  /** `xs.map(v => labels.indexOf(v))` when every value is among the labels. */
  function Positions(labels: seq<JsValue>, xs: seq<JsValue>): (r: seq<int>)
    requires forall i :: 0 <= i < |xs| ==> xs[i] in labels
    ensures |r| == |xs|
    ensures forall i :: 0 <= i < |xs| ==> 0 <= r[i] < |labels| && labels[r[i]] == xs[i]
  {
    seq(|xs|, i requires 0 <= i < |xs| => IndexOf(labels, xs[i]))
  }

  /** The two category axes and the series, where `zs[i]` is the height given
      to row `i` (`Chart3D` and `ChartPanel` differ only there). Every point
      carries the positions at which its row's values stand on the axes. */
  function Layout(data: seq<Row>, xKey: string, yKey: string, zs: seq<JsValue>): (g: Grid)
    requires |zs| == |data|
    ensures g.xLabels == Axis(data, xKey) && g.yLabels == Axis(data, yKey)
    ensures |g.series| == |data|
    ensures forall i :: 0 <= i < |data| ==>
      && 0 <= g.series[i].x < |g.xLabels| && g.xLabels[g.series[i].x] == Get(data[i], xKey)
      && 0 <= g.series[i].y < |g.yLabels| && g.yLabels[g.series[i].y] == Get(data[i], yKey)
      && g.series[i].z == zs[i]
  {
    var xLabels := Axis(data, xKey);
    var yLabels := Axis(data, yKey);
    var px := Positions(xLabels, Column(data, xKey));
    var py := Positions(yLabels, Column(data, yKey));
    Grid(xLabels, yLabels, Points(px, py, zs))
  }

  /** `[x, y, z]` entries zipped from three lists of the same length. */
  function Points(xs: seq<int>, ys: seq<int>, zs: seq<JsValue>): (r: seq<Point>)
    requires |xs| == |ys| == |zs|
    ensures |r| == |zs|
    ensures forall i :: 0 <= i < |zs| ==> r[i] == Point(xs[i], ys[i], zs[i])
  {
    seq(|zs|, i requires 0 <= i < |zs| => Point(xs[i], ys[i], zs[i]))
  }

  /** Axis labels appear in the order their value is first met in the rows. */
  lemma AxisInFirstSeenOrder(data: seq<Row>, key: string, i: int, j: int)
    requires 0 <= i < j < |Axis(data, key)|
    ensures IndexOf(Column(data, key), Axis(data, key)[i]) < IndexOf(Column(data, key), Axis(data, key)[j])
  {
    UniqueFirstSeenOrder(Column(data, key));
  }

  /** The `Chart3D` component: a placeholder without rows, otherwise bars
      of height `row[zKey]` (uncoerced). */
  function Render(data: seq<Row>, xKey: string, yKey: string, zKey: string): (v: View)
    ensures v.NoData? <==> |data| == 0
    ensures v.Bars? ==> |v.grid.series| == |data|
    ensures v.Bars? ==> forall i :: 0 <= i < |data| ==> v.grid.series[i].z == Get(data[i], zKey)
  {
    if |data| == 0 then NoData
    else Bars(Layout(data, xKey, yKey, Column(data, zKey)))
  }
}
