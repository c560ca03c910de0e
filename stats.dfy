/** Sums, ascending order, mean and median over exact numbers: the arithmetic
    behind the numeric column insights. */
module Stats {

  predicate Ascending(s: seq<real>) {
    forall i, j :: 0 <= i < j < |s| ==> s[i] <= s[j]
  }

  /** `nums.reduce((a, b) => a + b, 0)`. */
  function Sum(s: seq<real>): real {
    if s == [] then 0.0 else Sum(s[..|s| - 1]) + s[|s| - 1]
  }

  lemma {:induction false} SumAppend(a: seq<real>, b: seq<real>)
    ensures Sum(a + b) == Sum(a) + Sum(b)
    decreases |b|
  {
    if b != [] {
      var b' := b[..|b| - 1];
      assert (a + b)[..|a + b| - 1] == a + b';
      assert (a + b)[|a + b| - 1] == b[|b| - 1];
      SumAppend(a, b');
      calc {
        Sum(a + b);
        Sum(a + b') + b[|b| - 1];
        Sum(a) + Sum(b') + b[|b| - 1];
        Sum(a) + Sum(b);
      }
    } else {
      assert a + b == a;
    }
  }

  /** The sum does not depend on the order of the terms. */
  lemma {:induction false} SumPermutation(a: seq<real>, b: seq<real>)
    requires multiset(a) == multiset(b)
    ensures Sum(a) == Sum(b)
    decreases |a|
  {
    if a != [] {
      var x := a[|a| - 1];
      var a' := a[..|a| - 1];
      assert a == a' + [x];
      assert x in multiset(b);
      var i :| 0 <= i < |b| && b[i] == x;
      var b' := b[..i] + b[i + 1..];
      assert b == b[..i] + [x] + b[i + 1..];
      assert multiset(b) == multiset(b[..i]) + multiset{x} + multiset(b[i + 1..]);
      assert multiset(b') == multiset(b[..i]) + multiset(b[i + 1..]);
      assert multiset(a) == multiset(a') + multiset{x};
      assert multiset(a') == multiset(b') by {
        assert multiset(a') + multiset{x} == multiset(b') + multiset{x};
        assert multiset(a') == multiset(a') + multiset{x} - multiset{x};
        assert multiset(b') == multiset(b') + multiset{x} - multiset{x};
      }
      SumPermutation(a', b');
      SumAppend(b[..i] + [x], b[i + 1..]);
      SumAppend(b[..i], [x]);
      SumAppend(b[..i], b[i + 1..]);
      assert Sum([x]) == Sum([]) + x;
    }
  }

  /** A sum of `n` terms lies between `n` times the least and `n` times the greatest. */
  lemma {:induction false} SumBounds(s: seq<real>, lo: real, hi: real)
    requires forall i :: 0 <= i < |s| ==> lo <= s[i] <= hi
    ensures |s| as real * lo <= Sum(s) <= |s| as real * hi
  {
    if s != [] {
      SumBounds(s[..|s| - 1], lo, hi);
    }
  }

  /** `x` put into its place in an ascending list. */
  function Insert(x: real, s: seq<real>): (r: seq<real>)
    requires Ascending(s)
    ensures |r| == |s| + 1 && Ascending(r) && multiset(r) == multiset(s) + multiset{x}
    ensures r[0] == x || (s != [] && r[0] == s[0])
  {
    if s == [] || x <= s[0] then [x] + s
    else
      var t := Insert(x, s[1..]);
      assert s == [s[0]] + s[1..];
      assert s[0] <= t[0];
      [s[0]] + t
  }

  /** `nums.sort((a, b) => a - b)` on exact numbers: the ascending
      arrangement of the same numbers. */
  function SortAscending(s: seq<real>): (r: seq<real>)
    ensures |r| == |s| && Ascending(r) && multiset(r) == multiset(s)
  {
    if s == [] then []
    else
      assert s == s[..|s| - 1] + [s[|s| - 1]];
      Insert(s[|s| - 1], SortAscending(s[..|s| - 1]))
  }

  /** There is only one ascending arrangement of a collection of numbers, so
      any sort the program uses agrees with `SortAscending`. */
  lemma {:induction false} AscendingUnique(a: seq<real>, b: seq<real>)
    requires Ascending(a) && Ascending(b) && multiset(a) == multiset(b)
    ensures a == b
    decreases |a|
  {
    if a != [] {
      assert |b| == |multiset(b)| == |a|;
      assert a[0] in multiset(b) && b[0] in multiset(a);
      assert b[0] <= a[0] && a[0] <= b[0];
      assert a == [a[0]] + a[1..] && b == [b[0]] + b[1..];
      assert multiset(a) == multiset{a[0]} + multiset(a[1..]);
      assert multiset(b) == multiset{b[0]} + multiset(b[1..]);
      assert multiset(a[1..]) == multiset(b[1..]) by {
        assert multiset(a[1..]) == multiset(a) - multiset{a[0]};
        assert multiset(b[1..]) == multiset(b) - multiset{b[0]};
      }
      AscendingUnique(a[1..], b[1..]);
    }
  }

  /** The ends of an ascending list bound each of its elements. */
  lemma AscendingEnds(r: seq<real>, x: real)
    requires Ascending(r) && x in r
    ensures r[0] <= x <= r[|r| - 1]
  {
    var k :| 0 <= k < |r| && r[k] == x;
  }

  /** A member of a bounded list lies within the bounds. */
  lemma MemberBounded(s: seq<real>, lo: real, hi: real, x: real)
    requires x in s && forall i :: 0 <= i < |s| ==> lo <= s[i] <= hi
    ensures lo <= x <= hi
  {
    var k :| 0 <= k < |s| && s[k] == x;
  }

  /** Any ascending arrangement of a list bounded by two of its own members
      starts with the lower bound and ends with the upper one. */
  lemma ArrangementEnds(s: seq<real>, r: seq<real>, lo: real, hi: real)
    requires Ascending(r) && multiset(r) == multiset(s)
    requires lo in s && hi in s && forall i :: 0 <= i < |s| ==> lo <= s[i] <= hi
    ensures |r| == |s| && r[0] == lo && r[|r| - 1] == hi
  {
    assert |r| == |multiset(r)| == |multiset(s)| == |s|;
    assert lo in multiset(s) && hi in multiset(s);
    AscendingEnds(r, lo);
    AscendingEnds(r, hi);
    assert r[0] in multiset(r) && r[|r| - 1] in multiset(r);
    MemberBounded(s, lo, hi, r[0]);
    MemberBounded(s, lo, hi, r[|r| - 1]);
  }

  /** The ascending arrangement starts with the least number and ends with
      the greatest. */
  lemma SortedEnds(s: seq<real>, lo: real, hi: real)
    requires lo in s && hi in s && forall i :: 0 <= i < |s| ==> lo <= s[i] <= hi
    ensures var r := SortAscending(s); |r| == |s| && r[0] == lo && r[|r| - 1] == hi
  {
    ArrangementEnds(s, SortAscending(s), lo, hi);
  }

  /** The average of one or more numbers. */
  function Mean(s: seq<real>): (m: real)
    requires |s| > 0
    ensures m * |s| as real == Sum(s)
  {
    Sum(s) / |s| as real
  }

  /** The middle element of an ascending list of odd length, the average of
      the two middle ones for even length. */
  function Median(sorted: seq<real>): (m: real)
    requires |sorted| > 0
    ensures Ascending(sorted) ==> sorted[0] <= m <= sorted[|sorted| - 1]
  {
    var n := |sorted|;
    if n % 2 == 0 then (sorted[n / 2 - 1] + sorted[n / 2]) / 2.0 else sorted[n / 2]
  }

  /** The mean lies between the least and the greatest number. */
  lemma MeanBetween(s: seq<real>, lo: real, hi: real)
    requires |s| > 0
    requires forall i :: 0 <= i < |s| ==> lo <= s[i] <= hi
    ensures lo <= Mean(s) <= hi
  {
    SumBounds(s, lo, hi);
    var n := |s| as real;
    assert n * lo <= Sum(s) <= n * hi;
    assert Sum(s) / n >= lo by {
      assert Sum(s) >= n * lo;
    }
    assert Sum(s) / n <= hi by {
      assert Sum(s) <= n * hi;
    }
  }
}
