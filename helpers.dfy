/** The shared helpers of `src/utils/helpers.js`. */
module Helpers {
  import opened JsText
  import opened JsValues
  import opened JsArray

  /** `vs.map(String)`, as `join` converts the elements it is given. */
  function Strings(vs: seq<JsValue>): (r: seq<string>)
    ensures |r| == |vs| && forall i :: 0 <= i < |vs| ==> r[i] == ToStr(vs[i])
  {
    seq(|vs|, i requires 0 <= i < |vs| => ToStr(vs[i]))
  }

  /** `classNames(...s)`: the truthy arguments, as strings, separated by one space. */
  function ClassNames(args: seq<JsValue>): (r: string)
    ensures (forall i :: 0 <= i < |args| ==> !Truthy(args[i])) ==> r == ""
  {
    Join(Strings(Filter(args, Truthy)), " ")
  }

  /** One more argument: a falsy one changes nothing, a truthy one is added
      at the end, after a single space when something precedes it. */
  lemma ClassNamesSnoc(args: seq<JsValue>, x: JsValue)
    ensures !Truthy(x) ==> ClassNames(args + [x]) == ClassNames(args)
    ensures Truthy(x) && Filter(args, Truthy) == [] ==> ClassNames(args + [x]) == ToStr(x)
    ensures Truthy(x) && Filter(args, Truthy) != [] ==>
      ClassNames(args + [x]) == ClassNames(args) + " " + ToStr(x)
  {
    FilterAppend(args, [x], Truthy);
    var kept := Filter(args, Truthy);
    if Truthy(x) {
      assert Filter([x], Truthy) == [x];
      assert Strings(kept + [x]) == Strings(kept) + [ToStr(x)];
      if kept != [] {
        JoinSnoc(Strings(kept), ToStr(x), " ");
      }
    } else {
      assert Filter([x], Truthy) == [];
      assert kept + [] == kept;
    }
  }

  /** `isNumericColumn(data, key)`: some row holds a number under `key`. */
  function IsNumericColumn(data: seq<Row>, key: string): (b: bool)
    ensures b <==> exists i :: 0 <= i < |data| && Get(data[i], key).Num?
    ensures |data| == 0 ==> !b
  {
    JsArray.Some(data, (row: Row) => Get(row, key).Num?)
  }

  /** `Array.from(new Set(arr))`: each value once, where it first occurs. */
  function Unique<T(==,!new)>(s: seq<T>): (r: seq<T>)
    ensures Distinct(r) && |r| <= |s|
    ensures forall x :: x in r <==> x in s
  {
    if s == [] then []
    else
      var u := Unique(s[..|s| - 1]);
      var x := s[|s| - 1];
      assert forall i :: 0 <= i < |s| - 1 ==> s[i] == s[..|s| - 1][i];
      if x in u then u else u + [x]
  }

  lemma IndexOfInPrefix<T(!new)>(s: seq<T>, n: nat, y: T)
    requires n <= |s| && y in s[..n]
    ensures IndexOf(s, y) == IndexOf(s[..n], y)
  {
    var r, r' := IndexOf(s, y), IndexOf(s[..n], y);
    assert s[..n][..r'] == s[..r'];
  }

  /** The values come out in the order of their first occurrence. */
  lemma {:induction false} UniqueFirstSeenOrder<T(!new)>(s: seq<T>)
    ensures forall i, j :: 0 <= i < j < |Unique(s)| ==> IndexOf(s, Unique(s)[i]) < IndexOf(s, Unique(s)[j])
  {
    if s != [] {
      var p := s[..|s| - 1];
      var u := Unique(p);
      var x := s[|s| - 1];
      UniqueFirstSeenOrder(p);
      forall y | y in u ensures IndexOf(s, y) == IndexOf(p, y) < |s| - 1 {
        IndexOfInPrefix(s, |s| - 1, y);
      }
      if x !in u {
        assert x !in p;
        assert s[..|s| - 1] == p;
        assert IndexOf(s, x) == |s| - 1;
      }
    }
  }

  /** A list without repetitions is its own `unique`. */
  lemma {:induction false} UniqueOfDistinct<T(!new)>(s: seq<T>)
    requires Distinct(s)
    ensures Unique(s) == s
  {
    if s != [] {
      var p := s[..|s| - 1];
      UniqueOfDistinct(p);
      assert s[|s| - 1] !in p;
      assert s == p + [s[|s| - 1]];
    }
  }

  /** `unique` is idempotent. */
  lemma UniqueIdempotent<T(!new)>(s: seq<T>)
    ensures Unique(Unique(s)) == Unique(s)
  {
    UniqueOfDistinct(Unique(s));
  }
}
