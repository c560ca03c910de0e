/** `src/components/MultiCheckbox.jsx`: a row of toggle buttons over a list
    of selected values. */
module MultiCheckbox {
  import opened JsArray

  /** Every element except `x`, in order. */
  function Without(values: seq<string>, x: string): (r: seq<string>)
    ensures x !in r
    ensures IsSubsequence(r, values)
    ensures multiset(r) == multiset(values)[x := 0]
  {
    var r := Filter(values, (v: string) => v != x);
    WithoutCount(values, x);
    r
  }

  lemma {:induction false} WithoutCount(values: seq<string>, x: string)
    ensures multiset(Filter(values, (v: string) => v != x)) == multiset(values)[x := 0]
  {
    if values != [] {
      WithoutCount(values[1..], x);
      assert values == [values[0]] + values[1..];
    }
  }

  /** `toggle(val)`: a selected value is removed (every occurrence of it),
      any other value is appended at the end. */
  function Toggle(values: seq<string>, val: string): (r: seq<string>)
    ensures val in values ==> val !in r && IsSubsequence(r, values) && multiset(r) == multiset(values)[val := 0]
    ensures val !in values ==> r == values + [val]
  {
    if val in values then Without(values, val) else values + [val]
  }

  /** A toggle flips the membership of the toggled value and of no other. */
  lemma ToggleFlipsMembership(values: seq<string>, val: string, other: string)
    requires other != val
    ensures val in Toggle(values, val) <==> val !in values
    ensures other in Toggle(values, val) <==> other in values
  {
    var r := Toggle(values, val);
    if val in values {
      assert other in r <==> multiset(r)[other] > 0;
      assert other in values <==> multiset(values)[other] > 0;
    }
  }

  /** Toggling an unselected value on and off again restores the selection. */
  lemma ToggleTwiceRestores(values: seq<string>, val: string)
    requires val !in values
    ensures Toggle(Toggle(values, val), val) == values
  {
    var once := values + [val];
    FilterAppend(values, [val], (v: string) => v != val);
    FilterKeepsAll(values, (v: string) => v != val);
    assert Filter([val], (v: string) => v != val) == [];
    assert values + [] == values;
  }
}
