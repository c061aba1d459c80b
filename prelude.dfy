/** Values shared by every part of the model: optional values (SQL NULL, JavaScript
    undefined/null), row identifiers, JavaScript truthiness of strings and the decimal
    rendering of identifiers used in room names and redirect paths. */
module Prelude {

  datatype Option<T> = None | Some(value: T)

  /** AUTO_INCREMENT keys start at 1, so every stored id is truthy in JavaScript. */
  type Id = x: int | 1 <= x witness 1

  /** The value of MySQL's NOW() at the moment a statement runs; the clock is a parameter. */
  type Timestamp = nat

  /** JavaScript truthiness of a string that may be missing: undefined, null and '' are falsy. */
  predicate Truthy(v: Option<string>) {
    v.Some? && v.value != ""
  }

  /** `v || null`: a falsy value becomes null, anything else is kept. */
  function OrNull(v: Option<string>): (r: Option<string>)
    ensures r.Some? <==> Truthy(v)
    ensures r.Some? ==> r == v
  {
    if Truthy(v) then v else None
  }

  /** A form field posted as text, where an absent field reads as "". */
  function FieldOrNull(s: string): (r: Option<string>)
    ensures r == None <==> s == ""
    ensures s != "" ==> r == Some(s)
    ensures r != Some("")
  {
    OrNull(Some(s))
  }

  function Digit(d: nat): (c: char)
    requires d < 10
  {
    ('0' as int + d) as char
  }

  /** Template-literal rendering of a natural number, as in `pedido:${id}`. */
  function Decimal(n: nat): (r: string)
    ensures |r| >= 1
    ensures n >= 10 ==> |r| >= 2
  {
    if n < 10 then [Digit(n)] else Decimal(n / 10) + [Digit(n % 10)]
  }

  predicate IsDigit(c: char) {
    '0' as int <= c as int <= '9' as int
  }

  /** The number a string of decimal digits denotes, most significant digit first. */
  function DigitsValue(s: string): nat
    requires forall i :: 0 <= i < |s| ==> IsDigit(s[i])
  {
    if s == [] then 0
    else
      assert IsDigit(s[|s| - 1]);
      DigitsValue(s[..|s| - 1]) * 10 + (s[|s| - 1] as int - '0' as int)
  }

  /** `Decimal(n)` is a numeral for `n`: decimal digits only, denoting `n`. */
  lemma {:induction false} DecimalValue(n: nat)
    ensures forall i :: 0 <= i < |Decimal(n)| ==> IsDigit(Decimal(n)[i])
    ensures DigitsValue(Decimal(n)) == n
  {
    if n >= 10 {
      DecimalValue(n / 10);
      var r := Decimal(n);
      assert r[..|r| - 1] == Decimal(n / 10);
    }
  }

  /** Distinct numbers render as distinct strings, so distinct ids give distinct rooms. */
  lemma DecimalInjective(a: nat, b: nat)
    requires Decimal(a) == Decimal(b)
    ensures a == b
  {
    DecimalValue(a);
    DecimalValue(b);
  }
}
