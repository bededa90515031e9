/** The slice of JavaScript value semantics the gateway relies on: truthiness
    tests, `Number(x)`, the decimal text a template literal gives a number,
    `toUpperCase`, `startsWith` and `includes`. */
module Js {
  import opened Common

  /** A column value as the MySQL driver (and JSON) delivers it. */
  datatype Value = Null | Text(text: string) | Num(num: int)

  /** A result row: column names with their values, in column order.
      A JSON object has distinct keys, so looking up the first match is
      looking up the property. */
  type Row = seq<(string, Value)>

  /** A property read: `None` is `undefined`. */
  type Prop = Option<Value>

  /** A JavaScript number restricted to integers, plus `NaN`. */
  datatype JsNumber = NaN | Finite(n: int)

  // ---------------------------------------------------------------- truthiness

  /** `if (s)` for a string that may be `undefined`/`null`. */
  predicate TruthyText(s: Option<string>) {
    s.Some? && s.value != ""
  }

  /** `if (n)` for a number that may be `undefined`. */
  predicate TruthyInt(n: Option<int>) {
    n.Some? && n.value != 0
  }

  /** `if (x)` for a number: `0` and `NaN` are falsy. */
  predicate TruthyNumber(x: JsNumber) {
    x.Finite? && x.n != 0
  }

  /** `if (v)` for a property read. */
  predicate TruthyProp(p: Prop) {
    match p
    case None => false
    case Some(Null) => false
    case Some(Text(s)) => s != ""
    case Some(Num(i)) => i != 0
  }

  // ---------------------------------------------------------------- row access

  /** `row[key]`: the value of the first column with that name, or `undefined`. */
  function Get(row: Row, key: string): (p: Prop)
    ensures p.Some? <==> exists kv :: kv in row && kv.0 == key
    ensures p.Some? ==> (key, p.value) in row
  {
    if row == [] then None
    else if row[0].0 == key then Some(row[0].1)
    else Get(row[1..], key)
  }

  /** No two columns of the row share a name. */
  predicate DistinctKeys(row: Row) {
    forall i, j :: 0 <= i < j < |row| ==> row[i].0 != row[j].0
  }

  /** In a row with distinct names, reading a column's name gives its value. */
  lemma GetDistinct(row: Row, i: nat)
    requires DistinctKeys(row) && i < |row|
    ensures Get(row, row[i].0) == Some(row[i].1)
  {
    var p := Get(row, row[i].0);
    assert row[i] in row;
    var j :| 0 <= j < |row| && row[j] == (row[i].0, p.value);
    assert j == i;
  }

  /** `Object.values(row)[0]`. */
  function FirstValue(row: Row): (p: Prop)
    ensures p.Some? <==> row != []
  {
    if row == [] then None else Some(row[0].1)
  }

  // ---------------------------------------------------------------- decimal text

  predicate IsDigit(c: char) {
    '0' <= c <= '9'
  }

  predicate AllDigits(s: string) {
    forall i :: 0 <= i < |s| ==> IsDigit(s[i])
  }

  function DigitChar(d: nat): (c: char)
    requires d < 10
    ensures IsDigit(c)
  {
    ('0' as int + d) as char
  }

  function DigitValue(c: char): (d: nat)
    requires IsDigit(c)
    ensures d < 10
  {
    c as int - '0' as int
  }

  /** Decimal digits of a natural number, most significant first, no leading zeros. */
  function DecimalText(n: nat): string
    decreases n
  {
    if n < 10 then [DigitChar(n)] else DecimalText(n / 10) + [DigitChar(n % 10)]
  }

  /** The value of a string of decimal digits. */
  function DecimalValue(s: string): nat
    requires AllDigits(s)
  {
    if s == [] then 0 else DecimalValue(s[..|s| - 1]) * 10 + DigitValue(s[|s| - 1])
  }

  /** Reading back the digits of `n` gives `n`. */
  lemma {:induction false} DecimalRoundTrip(n: nat)
    ensures |DecimalText(n)| > 0 && AllDigits(DecimalText(n))
    ensures DecimalValue(DecimalText(n)) == n
    decreases n
  {
    if n >= 10 {
      DecimalRoundTrip(n / 10);
      var s := DecimalText(n);
      assert s[..|s| - 1] == DecimalText(n / 10);
    }
  }

  /** The text `${x}` gives a number. */
  function NumberText(x: JsNumber): string {
    match x
    case NaN => "NaN"
    case Finite(n) => if n < 0 then "-" + DecimalText(-n) else DecimalText(n)
  }

  /** `${x}` is fixed-point decimal: a minus sign exactly for a negative
      number, then one or more digits, never an exponent. */
  lemma NumberTextFixedPoint(x: JsNumber)
    ensures x == NaN ==> NumberText(x) == "NaN"
    ensures x.Finite? ==> NumberText(x) != [] && (NumberText(x)[0] == '-' <==> x.n < 0)
    ensures x.Finite? && x.n >= 0 ==> AllDigits(NumberText(x))
    ensures x.Finite? && x.n < 0 ==> NumberText(x)[1..] != [] && AllDigits(NumberText(x)[1..])
  {
    if x.Finite? {
      if x.n < 0 {
        DecimalRoundTrip(-x.n);
        assert NumberText(x)[1..] == DecimalText(-x.n);
      } else {
        DecimalRoundTrip(x.n);
      }
    }
  }

  /** `Number(s)` for a string: the empty string is 0, an optionally signed run
      of decimal digits is its value, anything else is `NaN`. */
  function ParseNumber(s: string): (x: JsNumber)
    ensures x.Finite? <==> AllDigits(s) || (|s| > 1 && (s[0] == '-' || s[0] == '+') && AllDigits(s[1..]))
    ensures s == [] ==> x == Finite(0)
    ensures x.Finite? && s != [] && s[0] != '-' ==> x.n >= 0
  {
    if s == [] then Finite(0)
    else if |s| > 1 && s[0] == '-' && AllDigits(s[1..]) then Finite(0 - DecimalValue(s[1..]))
    else if |s| > 1 && s[0] == '+' && AllDigits(s[1..]) then Finite(DecimalValue(s[1..]))
    else if AllDigits(s) then Finite(DecimalValue(s))
    else NaN
  }

  /** A number written into a command and read back with `Number` is the same number. */
  lemma NumberRoundTrip(x: JsNumber)
    ensures ParseNumber(NumberText(x)) == x
  {
    match x
    case NaN =>
      assert !IsDigit(NumberText(x)[0]);
    case Finite(n) =>
      if n < 0 {
        DecimalRoundTrip(-n);
        assert NumberText(x)[1..] == DecimalText(-n);
      } else {
        DecimalRoundTrip(n);
      }
  }

  /** `Number(v)` for a property read. */
  function ToNumber(p: Prop): (x: JsNumber)
    ensures p.None? ==> x == NaN
    ensures p == Some(Null) ==> x == Finite(0)
    ensures forall i :: p == Some(Num(i)) ==> x == Finite(i)
    ensures forall y :: p == Some(Text(NumberText(y))) ==> x == y
  {
    forall y | p == Some(Text(NumberText(y))) ensures ParseNumber(NumberText(y)) == y {
      NumberRoundTrip(y);
    }
    match p
    case None => NaN
    case Some(Null) => Finite(0)
    case Some(Num(i)) => Finite(i)
    case Some(Text(s)) => ParseNumber(s)
  }

  // ---------------------------------------------------------------- string helpers

  /** `s.startsWith(prefix)`. */
  predicate StartsWith(s: string, prefix: string) {
    |prefix| <= |s| && s[..|prefix|] == prefix
  }

  /** `s.includes(part)`. */
  predicate Contains(s: string, part: string) {
    exists i :: 0 <= i <= |s| && StartsWith(s[i..], part)
  }

  function UpperChar(c: char): char {
    if 'a' <= c <= 'z' then (c as int - 32) as char else c
  }

  /** `s.toUpperCase()` on ASCII text. */
  function ToUpper(s: string): (u: string)
    ensures |u| == |s|
    ensures forall i :: 0 <= i < |s| ==> u[i] == UpperChar(s[i])
  {
    if s == [] then [] else [UpperChar(s[0])] + ToUpper(s[1..])
  }
}
