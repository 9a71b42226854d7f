/** JavaScript primitive values as the dashboard's untyped records hold them, with the three
    conversions its code leans on: truthiness (`if (v)`, `a || b`), `Number(v)` and
    string interpolation `${v}`. Numbers are integers here: fractions, exponents, NaN
    and infinities are not modelled. */
module Js {
  import opened Wrappers
  import opened Strings

  datatype Value = Undefined | Null | Str(s: string) | Num(n: int)

  /** JavaScript truthiness: `undefined`, `null`, `""` and `0` are falsy. */
  predicate Truthy(v: Value) {
    match v
    case Str(s) => s != ""
    case Num(n) => n != 0
    case _ => false
  }

  /** `a || b`: the first operand when it is truthy, otherwise the second. */
  function Or(a: Value, b: Value): (r: Value)
    ensures Truthy(a) ==> r == a
    ensures !Truthy(a) ==> r == b
  {
    if Truthy(a) then a else b
  }

  /** `v0 || v1 || ... || vn`: the first truthy operand, or the last operand when none is
      truthy. */
  function OrAll(vs: seq<Value>): (r: Value)
    requires |vs| >= 1
    ensures r in vs
    ensures Truthy(r) <==> exists i :: 0 <= i < |vs| && Truthy(vs[i])
    ensures forall i :: 0 <= i < |vs| && Truthy(vs[i]) && (forall j :: 0 <= j < i ==> !Truthy(vs[j])) ==> r == vs[i]
    ensures (forall i :: 0 <= i < |vs| ==> !Truthy(vs[i])) ==> r == vs[|vs| - 1]
    decreases |vs|
  {
    if |vs| == 1 then vs[0]
    else
      var rest := OrAll(vs[1..]);
      assert forall i :: 1 <= i < |vs| ==> vs[i] == vs[1..][i - 1];
      Or(vs[0], rest)
  }

  /** A property bag (`Record<string, any>`); a missing key reads as `undefined`. */
  type Record = map<string, Value>

  function Get(r: Record, key: string): Value {
    if key in r then r[key] else Undefined
  }

  predicate IsDigit(c: char) {
    '0' <= c <= '9'
  }

  predicate AllDigits(s: string) {
    forall i :: 0 <= i < |s| ==> IsDigit(s[i])
  }

  function DigitChar(d: nat): (c: char)
    requires d < 10
    ensures IsDigit(c)
  {
    ('0' as int + d) as char
  }

  /** The value of a string of decimal digits, most significant first. */
  function DigitsValue(s: string): nat
    requires AllDigits(s)
    decreases |s|
  {
    if |s| == 0 then 0 else DigitsValue(s[..|s| - 1]) * 10 + (s[|s| - 1] as int - '0' as int)
  }

  /** `String(n)` for a non-negative integer: its decimal digits, no leading zero. */
  function NatToString(n: nat): (r: string)
    ensures |r| >= 1 && AllDigits(r)
    decreases n
  {
    if n < 10 then [DigitChar(n)] else NatToString(n / 10) + [DigitChar(n % 10)]
  }

  /** `String(n)` / `${n}` for an integer. */
  function IntToString(n: int): string {
    if n < 0 then "-" + NatToString(-n) else NatToString(n)
  }

  /** `Number(s)` for a string: surrounding white space is ignored, blank text is 0, and
      an optional sign followed by decimal digits is that integer; anything else is NaN
      (`None`). */
  function NumberOf(s: string): Option<int> {
    var t := Trim(s);
    if t == "" then Some(0)
    else if (t[0] == '-' || t[0] == '+') && |t| > 1 && AllDigits(t[1..]) then
      var d: int := DigitsValue(t[1..]);
      Some(if t[0] == '-' then -d else d)
    else if AllDigits(t) then Some(DigitsValue(t))
    else None
  }

  /** `Number(v)`; `None` is NaN. */
  function ToNumber(v: Value): Option<int> {
    match v
    case Undefined => None
    case Null => Some(0)
    case Str(s) => NumberOf(s)
    case Num(n) => Some(n)
  }

  /** `String(v)`, which is also what `${v}` interpolates and what a property key becomes. */
  function ToText(v: Value): string {
    match v
    case Undefined => "undefined"
    case Null => "null"
    case Str(s) => s
    case Num(n) => IntToString(n)
  }

  /** `h.includes(n)` on a value: only a string has `includes`, and the needle is turned
      into text first. */
  predicate Includes(h: Value, n: Value) {
    h.Str? && Contains(h.s, ToText(n))
  }

  lemma {:induction false} DigitsValueOfNatToString(n: nat)
    ensures DigitsValue(NatToString(n)) == n
    decreases n
  {
    if n >= 10 {
      DigitsValueOfNatToString(n / 10);
      var s := NatToString(n / 10) + [DigitChar(n % 10)];
      assert s[..|s| - 1] == NatToString(n / 10);
    }
  }

  /** Printing an integer and reading it back with `Number` gives the integer again. */
  lemma NumberOfIntToString(n: int)
    ensures NumberOf(IntToString(n)) == Some(n)
  {
    var s := IntToString(n);
    var d := NatToString(if n < 0 then -n else n);
    DigitsValueOfNatToString(if n < 0 then -n else n);
    assert !IsSpace(s[0]) && !IsSpace(s[|s| - 1]);
    TrimNoOp(s);
    if n < 0 {
      assert s[1..] == d;
    }
  }

  /** Leading zeros do not survive a trip through `Number`: "06" reads as 6, printed "6". */
  lemma LeadingZeroLost()
    ensures NumberOf("06") == Some(6) && IntToString(6) == "6"
  {
    assert Trim("06") == "06";
    assert DigitsValue("0") == 0;
  }
}
