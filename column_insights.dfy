/** `generateBasicInsights` and `generateColumnInsights` of
    `src/pages/ExcelAnalyticsDashboard.jsx`: the dataset summary and one
    summary per column. */
module ColumnInsights {
  import opened Options
  import opened JsText
  import opened JsValues
  import opened JsArray
  import opened Helpers
  import opened Stats

  datatype ColumnType = Numeric | Text

  /** A result of `Math.min` / `Math.max`: the empty call gives an infinity. */
  datatype Bound = Finite(n: JsNumber) | PosInfinity | NegInfinity

  /** The type-specific part of a column insight. `mean` and `median` are
      kept exact here; `None` is NaN (no numbers). */
  datatype Summary =
    | NumericSummary(min: Bound, max: Bound, mean: Option<real>, median: Option<real>)
    | TextSummary(topValue: Option<string>)

  datatype ColumnInsight = ColumnInsight(
    column: string,
    kind: ColumnType,
    uniqueCount: nat,
    sampleValues: seq<JsValue>,
    summary: Summary)

  /** The dataset summary; `fileName` and `uploadedAt` are read by the
      insights card but never set by the dashboard. */
  datatype BasicInsights = BasicInsights(
    rowCount: nat,
    columnCount: nat,
    columns: seq<string>,
    fileName: JsValue,
    uploadedAt: JsValue)

  function GenerateBasicInsights(data: seq<Row>, columns: seq<string>): (b: BasicInsights)
    ensures b.rowCount == |data| && b.columnCount == |columns| && b.columns == columns
    ensures !Truthy(b.fileName) && !Truthy(b.uploadedAt)
  {
    BasicInsights(|data|, |columns|, columns, Undefined, Undefined)
  }

  /** `data.map(row => row[col]).filter(v => v !== null && v !== undefined)`. */
  function PresentValues(data: seq<Row>, col: string): (vs: seq<JsValue>)
    ensures IsSubsequence(vs, Column(data, col))
    ensures forall v :: v in vs ==> !IsMissing(v)
    ensures forall i :: 0 <= i < |data| && !IsMissing(Get(data[i], col)) ==> Get(data[i], col) in vs
    ensures forall v :: multiset(vs)[v] == if IsMissing(v) then 0 else multiset(Column(data, col))[v]
  {
    var cells := Column(data, col);
    assert forall i :: 0 <= i < |data| ==> cells[i] in cells;
    FilterCounts(cells, (v: JsValue) => !IsMissing(v));
    Filter(cells, (v: JsValue) => !IsMissing(v))
  }

  /** "numeric" when every value converts with `Number`, "text" otherwise. */
  function TypeOf(values: seq<JsValue>): (t: ColumnType)
    ensures t == Numeric <==> forall i :: 0 <= i < |values| ==> ConvertsToNumber(values[i])
  {
    if Every(values, ConvertsToNumber) then Numeric else Text
  }

  function NumberOf(v: JsValue): (n: JsNumber)
    requires ConvertsToNumber(v)
    ensures ToNumber(v) == Some(n)
  {
    ToNumber(v).value
  }

  /** `values.map(Number)` on values that all convert. */
  function Numbers(values: seq<JsValue>): (ns: seq<JsNumber>)
    requires forall i :: 0 <= i < |values| ==> ConvertsToNumber(values[i])
    ensures |ns| == |values| && forall i :: 0 <= i < |values| ==> ToNumber(values[i]) == Some(ns[i])
  {
    seq(|values|, i requires 0 <= i < |values| => NumberOf(values[i]))
  }

  function Reals(ns: seq<JsNumber>): (rs: seq<real>)
    ensures |rs| == |ns| && forall i :: 0 <= i < |ns| ==> rs[i] == Value(ns[i])
  {
    seq(|ns|, i requires 0 <= i < |ns| => Value(ns[i]))
  }

  /** `Math.min(...ns)`. */
  function Least(ns: seq<JsNumber>): (b: Bound)
    ensures b.PosInfinity? <==> ns == []
    ensures !b.NegInfinity?
    ensures b.Finite? ==> b.n in ns && forall i :: 0 <= i < |ns| ==> Value(b.n) <= Value(ns[i])
  {
    if ns == [] then PosInfinity
    else
      var rest := Least(ns[1..]);
      if rest.PosInfinity? || Value(ns[0]) <= Value(rest.n) then Finite(ns[0]) else rest
  }

  /** `Math.max(...ns)`. */
  function Greatest(ns: seq<JsNumber>): (b: Bound)
    ensures b.NegInfinity? <==> ns == []
    ensures !b.PosInfinity?
    ensures b.Finite? ==> b.n in ns && forall i :: 0 <= i < |ns| ==> Value(ns[i]) <= Value(b.n)
  {
    if ns == [] then NegInfinity
    else
      var rest := Greatest(ns[1..]);
      if rest.NegInfinity? || Value(ns[0]) >= Value(rest.n) then Finite(ns[0]) else rest
  }

  /** The numeric branch, computed on the ascending arrangement of the
      numbers as the program does after `nums.sort((a, b) => a - b)`. */
  function NumericSummaryOf(ns: seq<JsNumber>): (s: Summary)
    ensures s.NumericSummary?
    ensures s.mean.None? <==> ns == []
    ensures s.median.None? <==> ns == []
  {
    var sorted := SortAscending(Reals(ns));
    NumericSummary(Least(ns), Greatest(ns),
      if sorted == [] then None else Some(Mean(sorted)),
      if sorted == [] then None else Some(Median(sorted)))
  }

  /** The `freq` object: its keys in the order they were added, and the count
      of each. */
  datatype Table = Table(keys: seq<string>, freq: map<string, nat>)

  /** `freq` after counting values whose property keys (their `String`
      forms) are `ss`: `freq[v] = (freq[v] || 0) + 1` for each in turn. */
  function Tally(ss: seq<string>): (t: Table)
    ensures forall k :: k in t.keys <==> k in t.freq
  {
    if ss == [] then Table([], map[])
    else
      var t := Tally(ss[..|ss| - 1]);
      var key := ss[|ss| - 1];
      var count := if key in t.freq then t.freq[key] else 0;
      Table(if key in t.freq then t.keys else t.keys + [key], t.freq[key := count + 1])
  }

  /** The table lists each key once, in the order first met. */
  lemma {:induction false} TallyKeys(ss: seq<string>)
    ensures Tally(ss).keys == Unique(ss)
  {
    if ss != [] {
      TallyKeys(ss[..|ss| - 1]);
    }
  }

  /** Each count is the number of times its key occurs. */
  lemma {:induction false} TallyFreq(ss: seq<string>)
    ensures var t := Tally(ss);
      forall k :: k in t.freq ==> t.freq[k] == multiset(ss)[k]
  {
    if ss != [] {
      var p, key := ss[..|ss| - 1], ss[|ss| - 1];
      TallyFreq(p);
      assert ss == p + [key];
      var t := Tally(p);
      forall k | k in Tally(ss).freq
        ensures Tally(ss).freq[k] == multiset(ss)[k]
      {
        assert multiset(ss)[k] == multiset(p)[k] + if k == key then 1 else 0;
        if k != key {
          assert k in t.freq;
        } else if key !in t.freq {
          TallyKeys(p);
        }
      }
    }
  }

  /** The table holds each key once, in the order first met, with the number
      of times it occurs. */
  lemma TallyCounts(ss: seq<string>)
    ensures var t := Tally(ss);
      && t.keys == Unique(ss)
      && (forall k :: k in t.freq <==> k in ss)
      && (forall k :: k in t.freq ==> t.freq[k] == multiset(ss)[k])
  {
    TallyKeys(ss);
    TallyFreq(ss);
  }

  /** An array index (section 6.1.7 of ECMA-262): the canonical decimal form
      of an integer below 2^32 - 1. */
  predicate IsArrayIndex(k: string) {
    AllDigits(k) && DigitString(DigitsValue(k)) == k && DigitsValue(k) < 0xFFFF_FFFF
  }

  /** For `a` added to the object before `b`: `Object.entries` lists `a`
      first, since array indices come first, in ascending order, and the
      other keys follow in the order they were added. */
  predicate ListedFirst(a: string, b: string) {
    if IsArrayIndex(a) && IsArrayIndex(b) then DigitsValue(a) < DigitsValue(b)
    else IsArrayIndex(a) || !IsArrayIndex(b)
  }

  /** `Object.entries` of an object whose keys were added in the order
      `keys` lists `a` before `b`. */
  predicate EntryBefore(keys: seq<string>, a: string, b: string) {
    if IsArrayIndex(a) && IsArrayIndex(b) then DigitsValue(a) < DigitsValue(b)
    else if IsArrayIndex(a) || IsArrayIndex(b) then IsArrayIndex(a)
    else IndexOf(keys, a) < IndexOf(keys, b)
  }

  /** `sorted[0][0]` where `sorted` is `Object.entries(freq)` sorted by
      descending count: since the sort is stable, the first entry with the
      highest count. */
  function TopKey(keys: seq<string>, freq: map<string, nat>): (t: string)
    requires keys != [] && forall i :: 0 <= i < |keys| ==> keys[i] in freq
    ensures t in keys
  {
    if |keys| == 1 then keys[0]
    else
      var rest := TopKey(keys[1..], freq);
      var k := keys[0];
      if freq[k] > freq[rest] || (freq[k] == freq[rest] && ListedFirst(k, rest)) then k else rest
  }

  /** `sorted[0] ? sorted[0][0] : null`. */
  function TopValue(keys: seq<string>, freq: map<string, nat>): (t: Option<string>)
    requires forall i :: 0 <= i < |keys| ==> keys[i] in freq
    ensures t.None? <==> keys == []
    ensures t.Some? ==> t.value in keys
  {
    if keys == [] then None else Some(TopKey(keys, freq))
  }

  /** The insight of one column. */
  function InsightOf(data: seq<Row>, col: string): (ci: ColumnInsight)
    ensures ci.column == col
    ensures ci.kind == Numeric <==> ci.summary.NumericSummary?
  {
    var values := PresentValues(data, col);
    var kind := TypeOf(values);
    var table := Tally(Strings(values));
    ColumnInsight(col, kind, |Unique(values)|, Slice(values, 0, 5),
      if kind == Numeric then NumericSummaryOf(Numbers(values))
      else TextSummary(TopValue(table.keys, table.freq)))
  }

  /** Different array indices have different values. */
  lemma ArrayIndexInjective(a: string, b: string)
    requires IsArrayIndex(a) && IsArrayIndex(b) && DigitsValue(a) == DigitsValue(b)
    ensures a == b
  {
  }

  /** In a list without repetitions, a later key's position is one more than
      its position in the tail. */
  lemma IndexOfTail(keys: seq<string>, y: string)
    requires |keys| > 0 && y in keys[1..] && y != keys[0]
    ensures IndexOf(keys, y) == IndexOf(keys[1..], y) + 1
  {
  }

  /** The top key has the highest count, and every other key with that count
      comes after it in `Object.entries` order. */
  lemma {:induction false} TopKeyIsFirstMaximum(keys: seq<string>, freq: map<string, nat>)
    requires keys != [] && Distinct(keys) && forall i :: 0 <= i < |keys| ==> keys[i] in freq
    ensures var t := TopKey(keys, freq);
      forall i :: 0 <= i < |keys| ==> freq[keys[i]] <= freq[t]
    ensures var t := TopKey(keys, freq);
      forall i :: 0 <= i < |keys| && keys[i] != t && freq[keys[i]] == freq[t] ==> EntryBefore(keys, t, keys[i])
  {
    if |keys| > 1 {
      var tail := keys[1..];
      var k := keys[0];
      assert Distinct(tail);
      TopKeyIsFirstMaximum(tail, freq);
      var r := TopKey(tail, freq);
      var t := TopKey(keys, freq);
      assert IndexOf(keys, k) == 0;
      forall y | y in tail
        ensures y != k && IndexOf(keys, y) == IndexOf(tail, y) + 1
      {
        IndexOfTail(keys, y);
      }
      if t == k {
        forall i | 0 <= i < |keys| && keys[i] != t && freq[keys[i]] == freq[t]
          ensures EntryBefore(keys, t, keys[i])
        {
          var y := keys[i];
          assert y in tail;
          assert freq[k] == freq[r];
          if y != r {
            assert EntryBefore(tail, r, y);
          }
        }
      } else {
        assert t == r;
        if freq[k] == freq[r] && IsArrayIndex(k) && IsArrayIndex(r) && DigitsValue(k) == DigitsValue(r) {
          ArrayIndexInjective(k, r);
        }
      }
    }
  }

  /** The `forEach` that fills `freq`, updating it in place. */
  method CountFrequencies(values: seq<JsValue>) returns (keys: seq<string>, freq: map<string, nat>)
    ensures Table(keys, freq) == Tally(Strings(values))
  {
    var ss := Strings(values);
    keys := [];
    freq := map[];
    for i := 0 to |ss|
      invariant Table(keys, freq) == Tally(ss[..i])
    {
      var key := ss[i];
      assert ss[..i + 1][..i] == ss[..i];
      var count := if key in freq then freq[key] else 0;
      if key !in freq {
        keys := keys + [key];
      }
      freq := freq[key := count + 1];
    }
    assert ss[..|ss|] == ss;
  }

  /** `nums.sort((a, b) => a - b)`, in place on an array. */
  method SortNumbers(ns: seq<JsNumber>) returns (sorted: seq<real>)
    ensures sorted == SortAscending(Reals(ns))
  {
    var a := new real[|ns|](i requires 0 <= i < |ns| => Value(ns[i]));
    assert a[..] == Reals(ns);
    Sort(a, (x: real, y: real) => x <= y);
    sorted := a[..];
    AscendingUnique(sorted, SortAscending(Reals(ns)));
  }

  /** The numeric branch: sort the numbers, then take their extremes, their
      mean and their median. */
  method SummarizeNumbers(ns: seq<JsNumber>) returns (summary: Summary)
    ensures summary == NumericSummaryOf(ns)
  {
    var sorted := SortNumbers(ns);
    if sorted == [] {
      summary := NumericSummary(Least(ns), Greatest(ns), None, None);
    } else {
      summary := NumericSummary(Least(ns), Greatest(ns), Some(Mean(sorted)), Some(Median(sorted)));
    }
  }

  /** The text branch: count the values, then take the first entry with the
      highest count. */
  method MostFrequent(values: seq<JsValue>) returns (top: Option<string>)
    ensures top == TopValue(Tally(Strings(values)).keys, Tally(Strings(values)).freq)
  {
    var keys, freq := CountFrequencies(values);
    top := if keys == [] then None else Some(TopKey(keys, freq));
  }

  /** One column's insight, as `generateColumnInsights` builds it. */
  method ColumnInsightOf(data: seq<Row>, col: string) returns (ci: ColumnInsight)
    ensures ci == InsightOf(data, col)
  {
    var values := PresentValues(data, col);
    var kind := if Every(values, ConvertsToNumber) then Numeric else Text;
    var summary;
    if kind == Numeric {
      summary := SummarizeNumbers(Numbers(values));
    } else {
      var top := MostFrequent(values);
      summary := TextSummary(top);
    }
    ci := ColumnInsight(col, kind, |Unique(values)|, Slice(values, 0, 5), summary);
  }

  /** `columns.map(col => ...)`: one insight per column, in column order. */
  function GenerateColumnInsights(data: seq<Row>, columns: seq<string>): (cis: seq<ColumnInsight>)
    ensures |cis| == |columns|
    ensures forall i :: 0 <= i < |columns| ==> cis[i] == InsightOf(data, columns[i])
  {
    seq(|columns|, i requires 0 <= i < |columns| => InsightOf(data, columns[i]))
  }

  /** The common part of every insight: the present values are the column's
      non-missing cells in row order; the type is numeric exactly when each
      of them converts; the distinct raw values are counted; the samples are
      the first five. */
  lemma InsightShape(data: seq<Row>, col: string)
    ensures var ci, values := InsightOf(data, col), PresentValues(data, col);
      && ci.column == col
      && (ci.kind == Numeric <==> forall i :: 0 <= i < |values| ==> ConvertsToNumber(values[i]))
      && (ci.kind == Numeric <==> ci.summary.NumericSummary?)
      && ci.uniqueCount <= |values| && (|values| > 0 ==> ci.uniqueCount > 0)
      && ci.sampleValues == values[..if |values| < 5 then |values| else 5]
  {
    var values := PresentValues(data, col);
    if |values| > 0 {
      assert values[0] in Unique(values);
    }
  }

  /** A column without values counts as numeric, with the results of
      `Math.min()`, `Math.max()` and an average over nothing. */
  lemma EmptyColumnIsNumeric(data: seq<Row>, col: string)
    requires forall i :: 0 <= i < |data| ==> IsMissing(Get(data[i], col))
    ensures InsightOf(data, col).kind == Numeric
    ensures InsightOf(data, col).summary == NumericSummary(PosInfinity, NegInfinity, None, None)
  {
    FilterKeepsNone(Column(data, col), (v: JsValue) => !IsMissing(v));
    assert Numbers(PresentValues(data, col)) == [];
  }

  /** On at least one number: `min` and `max` are the ends of the ascending
      arrangement, the mean is the average of the column's numbers, and
      both the mean and the median lie between `min` and `max`. */
  lemma NumericSummaryBounds(ns: seq<JsNumber>)
    requires |ns| > 0
    ensures var s, sorted := NumericSummaryOf(ns), SortAscending(Reals(ns));
      && s.min.Finite? && s.max.Finite? && s.mean.Some? && s.median.Some?
      && Value(s.min.n) == sorted[0] && Value(s.max.n) == sorted[|sorted| - 1]
      && s.mean.value == Mean(Reals(ns))
      && Value(s.min.n) <= s.median.value <= Value(s.max.n)
      && Value(s.min.n) <= s.mean.value <= Value(s.max.n)
  {
    var rs := Reals(ns);
    var sorted := SortAscending(rs);
    var lo, hi := Value(Least(ns).n), Value(Greatest(ns).n);
    assert forall i :: 0 <= i < |rs| ==> lo <= rs[i] <= hi;
    assert lo in rs && hi in rs;
    SortedEnds(rs, lo, hi);
    SumPermutation(sorted, rs);
    MeanBetween(rs, lo, hi);
  }

  /** A text column has at least one value, and its summary is the top
      value of its frequency table. */
  lemma TextColumnSummary(data: seq<Row>, col: string)
    requires InsightOf(data, col).kind == Text
    ensures var values := PresentValues(data, col);
      && values != []
      && InsightOf(data, col).summary == TextSummary(TopValue(Tally(Strings(values)).keys, Tally(Strings(values)).freq))
  {
    var values := PresentValues(data, col);
  }

  /** The most frequent value: the string form of one of the values, with the
      highest count, and every other string with that count comes later in
      `Object.entries` order. */
  lemma TopValueIsMostFrequent(values: seq<JsValue>)
    requires values != []
    ensures var ss := Strings(values); var t := Tally(ss);
      && TopValue(t.keys, t.freq).Some?
      && var top := TopValue(t.keys, t.freq).value;
      && top in ss
      && (forall k :: k in ss ==> multiset(ss)[k] <= multiset(ss)[top])
      && (forall k :: k in ss && k != top && multiset(ss)[k] == multiset(ss)[top] ==> EntryBefore(Unique(ss), top, k))
  {
    var ss := Strings(values); var t := Tally(ss);
    TallyCounts(ss);
    assert ss[0] in t.keys;
    TopKeyIsFirstMaximum(t.keys, t.freq);
    forall k | k in ss ensures k in t.keys && k in t.freq {
    }
  }
}
