/** `src/components/FilterCard.jsx`: the column picker and the list of values
    a row filter can be set to. */
module FilterCard {
  import opened JsText
  import opened JsValues
  import opened JsArray

  /** A cell that gives a filter choice: present and not blank once stringified. */
  predicate Listable(v: JsValue) {
    !IsMissing(v) && !IsBlank(ToStr(v))
  }

  /** `Listable` is the source's test `val != null && String(val).trim() !== ""`. */
  lemma ListableIsTrimTest(v: JsValue)
    ensures Listable(v) <==> v != Undefined && v != Null && Trim(ToStr(v)) != ""
  {
    TrimEmptyIffBlank(ToStr(v));
  }

  lemma StringOrderIsTotalPreorder()
    ensures TotalPreorder((a: string, b: string) => StringLe(a, b))
  {
    forall x: string, y: string ensures StringLe(x, y) || StringLe(y, x) {
      StringLeTotal(x, y);
    }
    forall x: string, y: string, z: string | StringLe(x, y) && StringLe(y, z) ensures StringLe(x, z) {
      StringLeTransitive(x, y, z);
    }
  }

  /** Row `k` offers `s` as a filter value for `field`. */
  predicate Offers(data: seq<Row>, field: string, k: int, s: string)
    requires 0 <= k < |data|
  {
    Listable(Get(data[k], field)) && ToStr(Get(data[k], field)) == s
  }

  /** The strings offered by the first `n` rows. */
  ghost function OfferedBy(data: seq<Row>, field: string, n: nat): set<string>
    requires n <= |data|
  {
    if n == 0 then {}
    else
      var v := Get(data[n - 1], field);
      OfferedBy(data, field, n - 1) + (if Listable(v) then {ToStr(v)} else {})
  }

  lemma {:induction false} OfferedByMeansOffers(data: seq<Row>, field: string, n: nat, s: string)
    requires n <= |data|
    ensures s in OfferedBy(data, field, n) <==> exists k :: 0 <= k < n && Offers(data, field, k, s)
  {
    if n > 0 {
      OfferedByMeansOffers(data, field, n - 1, s);
      if Offers(data, field, n - 1, s) {
        assert s in OfferedBy(data, field, n);
      }
    }
  }

  /** The `forEach` that fills the `Set`: each offered string once, in the
      order first seen. */
  method CollectOffered(filterField: string, data: seq<Row>) returns (seen: seq<string>)
    ensures Distinct(seen)
    ensures forall s :: s in seen <==> exists k :: 0 <= k < |data| && Offers(data, filterField, k, s)
  {
    seen := [];
    for i := 0 to |data|
      invariant Distinct(seen)
      invariant forall s :: s in seen <==> s in OfferedBy(data, filterField, i)
    {
      var val := Get(data[i], filterField);
      if Listable(val) {
        var s := ToStr(val);
        if s !in seen {
          seen := seen + [s];
        }
      }
    }
    forall s ensures s in seen <==> exists k :: 0 <= k < |data| && Offers(data, filterField, k, s) {
      OfferedByMeansOffers(data, filterField, |data|, s);
    }
  }

  /** The `values` memo: every distinct non-blank `String(row[filterField])`,
      unchanged (not trimmed), in ascending default sort order; nothing when
      no field is chosen or there is no data. */
  method FilterValues(filterField: string, data: seq<Row>) returns (values: seq<string>)
    ensures filterField == "" || |data| == 0 ==> values == []
    ensures Distinct(values)
    ensures forall i, j :: 0 <= i < j < |values| ==> StringLe(values[i], values[j])
    ensures filterField != "" ==> forall s :: s in values <==>
      exists k :: 0 <= k < |data| && Offers(data, filterField, k, s)
  {
    if filterField == "" || |data| == 0 {
      return [];
    }
    var seen := CollectOffered(filterField, data);
    var arr := new string[|seen|](k requires 0 <= k < |seen| => seen[k]);
    assert arr[..] == seen;
    StringOrderIsTotalPreorder();
    Sort(arr, (a: string, b: string) => StringLe(a, b));
    values := arr[..];
    DistinctPermutation(seen, values);
    forall s ensures s in values <==> s in seen {
      assert s in values <==> multiset(values)[s] > 0;
      assert s in seen <==> multiset(seen)[s] > 0;
    }
  }
}
