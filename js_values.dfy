/** The values a parsed spreadsheet row can hold, as JavaScript sees them, and
    the coercions the dashboard applies to them: `String(v)`, `Number(v)`,
    truthiness, and `Number.prototype.toFixed(2)`.

    A JavaScript number is modelled by the shortest decimal that denotes it:
    a coefficient and a power of ten with no trailing zero in the coefficient.
    Two such decimals are equal exactly when they denote the same number, so
    datatype equality plays the part of `===`, of `indexOf` and of the
    SameValueZero test that `Set` and `includes` use (NaN is never stored). */
module JsValues {
  import opened Options
  import opened JsText

  datatype Decimal = Decimal(coeff: int, exp: int)

  /** No trailing zero in the coefficient; zero is written one way only. */
  predicate Normal(d: Decimal) {
    if d.coeff == 0 then d.exp == 0 else d.coeff % 10 != 0
  }

  /** A finite JavaScript number. */
  type JsNumber = d: Decimal | Normal(d) witness Decimal(0, 0)

  const Zero: JsNumber := Decimal(0, 0)

  function Pow10(e: nat): (p: nat)
    ensures p >= 1
  {
    if e == 0 then 1 else 10 * Pow10(e - 1)
  }

  function Pow10Real(e: int): (p: real)
    ensures p > 0.0
  {
    if e >= 0 then Pow10(e) as real else 1.0 / Pow10(-e) as real
  }

  lemma Pow10RealSucc(e: int)
    ensures Pow10Real(e + 1) == 10.0 * Pow10Real(e)
  {
    if e < 0 {
      var q := Pow10(-e - 1) as real;
      assert Pow10(-e) as real == 10.0 * q;
      calc {
        10.0 * Pow10Real(e);
        10.0 * (1.0 / (10.0 * q));
        1.0 / q;
      }
    }
  }

  /** The number a decimal denotes. */
  function Value(d: Decimal): real {
    d.coeff as real * Pow10Real(d.exp)
  }

  lemma NormalizeStep(c: int, e: int)
    requires c % 10 == 0
    ensures Value(Decimal(c / 10, e + 1)) == Value(Decimal(c, e))
  {
    var q := c / 10;
    var p := Pow10Real(e);
    Pow10RealSucc(e);
    assert c == 10 * q;
    assert c as real == 10.0 * q as real;
    calc {
      q as real * Pow10Real(e + 1);
      q as real * (10.0 * p);
      (10.0 * q as real) * p;
    }
  }

  function Abs(x: int): nat {
    if x < 0 then -x else x
  }

  lemma DivTenShrinks(c: int)
    requires c != 0 && c % 10 == 0
    ensures Abs(c / 10) < Abs(c)
  {
    var q := c / 10;
    assert c == 10 * q;
  }

  lemma NegateKeepsNormal(c: int)
    requires c % 10 != 0
    ensures (-c) % 10 != 0
  {
    var q, r := c / 10, c % 10;
    assert -c == (-q - 1) * 10 + (10 - r);
  }

  /** The normal form of `c` times ten to the power `e`. */
  function Normalize(c: int, e: int): (d: JsNumber)
    ensures Value(d) == Value(Decimal(c, e))
    decreases Abs(c)
  {
    if c == 0 then Zero
    else if c % 10 != 0 then Decimal(c, e)
    else
      DivTenShrinks(c);
      var d := Normalize(c / 10, e + 1);
      NormalizeStep(c, e);
      d
  }

  function Negate(d: JsNumber): (r: JsNumber)
    ensures Value(r) == -Value(d)
  {
    if d.coeff == 0 then d
    else
      NegateKeepsNormal(d.coeff);
      Decimal(-d.coeff, d.exp)
  }

  function FromNat(n: nat): (d: JsNumber)
    ensures Value(d) == n as real
  {
    Normalize(n, 0)
  }

  /** `Number::toString(x)` with radix 10 (section 6.1.6.1.20 of ECMA-262):
      plain notation for exponents from -6 to 20, exponent notation beyond. */
  function NumberToString(d: JsNumber): string
    decreases if d.coeff < 0 then 1 else 0
  {
    if d.coeff == 0 then "0"
    else if d.coeff < 0 then "-" + NumberToString(Negate(d))
    else
      var s := DigitString(d.coeff);
      var k := |s|;
      var n := d.exp + k;
      if k <= n <= 21 then s + Zeros(n - k)
      else if 0 < n <= 21 then s[..n] + "." + s[n..]
      else if -6 < n <= 0 then "0." + Zeros(-n) + s
      else
        var e := n - 1;
        var mantissa := if k == 1 then s else s[..1] + "." + s[1..];
        mantissa + "e" + (if e >= 0 then "+" else "-") + DigitString(Abs(e))
  }

  /** `x.toFixed(2)` (section 21.1.3.3 of ECMA-262) on an exact value: the
      nearest multiple of 1/100, the larger one on a tie, and a "-" for every
      negative input, including those that round to zero. */
  function ToFixed2(x: real): string {
    var negative := x < 0.0;
    var magnitude := if negative then -x else x;
    var n := (magnitude * 100.0 + 0.5).Floor;
    var m := if n <= 0 then "0" else DigitString(n);
    var padded := if |m| <= 2 then Zeros(3 - |m|) + m else m;
    (if negative then "-" else "") + padded[..|padded| - 2] + "." + padded[|padded| - 2..]
  }

  /** A cell value. */
  datatype JsValue =
    | Undefined
    | Null
    | Bool(b: bool)
    | Num(n: JsNumber)
    | Str(s: string)

  /** A missing cell: `v === null || v === undefined`. */
  predicate IsMissing(v: JsValue) {
    v.Undefined? || v.Null?
  }

  /** `Boolean(v)`: the values that `||`, `if` and `filter(Boolean)` treat as true. */
  predicate Truthy(v: JsValue) {
    match v
    case Undefined => false
    case Null => false
    case Bool(b) => b
    case Num(n) => n.coeff != 0
    case Str(s) => s != ""
  }

  /** `String(v)`. */
  function ToStr(v: JsValue): string {
    match v
    case Undefined => "undefined"
    case Null => "null"
    case Bool(b) => if b then "true" else "false"
    case Num(n) => NumberToString(n)
    case Str(s) => s
  }

  /** `Number(v)`; `None` stands for NaN. */
  function ToNumber(v: JsValue): Option<JsNumber> {
    match v
    case Undefined => None
    case Null => Some(Zero)
    case Bool(b) => Some(if b then FromNat(1) else Zero)
    case Num(n) => Some(n)
    case Str(s) => StringToNumber(s)
  }

  /** `isNaN(Number(v))` is false. */
  predicate ConvertsToNumber(v: JsValue) {
    ToNumber(v).Some?
  }

  /** The length of the run of decimal digits at the start of `s`. */
  function DigitRun(s: string): (k: nat)
    ensures k <= |s| && AllDigits(s[..k])
    ensures k < |s| ==> !IsDigit(s[k])
  {
    if s != [] && IsDigit(s[0]) then
      var k := 1 + DigitRun(s[1..]);
      assert s[..k] == [s[0]] + s[1..][..k - 1];
      k
    else 0
  }

  /** StringToNumber (section 7.1.4.1.1 of ECMA-262): white space around the
      literal is ignored, a blank string is 0, and the literal is an optional
      sign, digits with an optional fraction, and an optional exponent. */
  function StringToNumber(s: string): Option<JsNumber> {
    var t := Trim(s);
    if t == "" then Some(Zero)
    else if t[0] == '-' then
      match ParseUnsigned(t[1..])
      case Some(d) => Some(Negate(d))
      case None => None
    else if t[0] == '+' then ParseUnsigned(t[1..])
    else ParseUnsigned(t)
  }

  /** StrUnsignedDecimalLiteral without `Infinity`: `12`, `12.`, `12.5`, `.5`,
      each optionally followed by `e`/`E`, an optional sign and digits. */
  function ParseUnsigned(t: string): Option<JsNumber> {
    var i := DigitRun(t);
    var intPart := t[..i];
    var afterInt := t[i..];
    var hasPoint := afterInt != [] && afterInt[0] == '.';
    var afterPoint := if hasPoint then afterInt[1..] else afterInt;
    var f := if hasPoint then DigitRun(afterPoint) else 0;
    var fracPart := afterPoint[..f];
    var rest := afterPoint[f..];
    if i == 0 && f == 0 then None
    else
      match ParseExponent(rest)
      case None => None
      case Some(e) =>
        assert AllDigits(intPart + fracPart);
        Some(Normalize(DigitsValue(intPart + fracPart), e - f))
  }

  /** The ExponentPart, if `rest` is one (the empty string is exponent 0). */
  function ParseExponent(rest: string): Option<int> {
    if rest == [] then Some(0)
    else if rest[0] != 'e' && rest[0] != 'E' then None
    else
      var body := rest[1..];
      var negative := body != [] && body[0] == '-';
      var digits := if body != [] && (body[0] == '-' || body[0] == '+') then body[1..] else body;
      if digits == [] || !AllDigits(digits) then None
      else Some(if negative then -(DigitsValue(digits) as int) else DigitsValue(digits))
  }

  /** A spreadsheet row: a plain object whose own keys, in the order
      `Object.keys` lists them, are `keys`. */
  datatype Row = Row(keys: seq<string>, cells: map<string, JsValue>)

  /** `row[key]`: `undefined` for a key the object does not have. */
  function Get(row: Row, key: string): JsValue {
    if key in row.cells then row.cells[key] else Undefined
  }

  /** `data.map((d) => d[key])`. */
  function Column(data: seq<Row>, key: string): (r: seq<JsValue>)
    ensures |r| == |data|
    ensures forall i :: 0 <= i < |data| ==> r[i] == Get(data[i], key)
  {
    seq(|data|, i requires 0 <= i < |data| => Get(data[i], key))
  }
}
