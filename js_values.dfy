/** JavaScript values as the widget's components hold them, with the
    "truthiness" that their `if (...)` tests and `v-if` bindings apply
    made explicit, and the conversion of a non-negative integer to its
    decimal string (what a template literal such as `comment-${index}`
    does with an array index). */
module JsValues {

  datatype Option<T> = None | Some(value: T)

  /** A slot that holds a string or nothing: `undefined` (a property
      the object never received), `null`, or a string. */
  datatype JsText = Undefined | Null | Str(text: string)

  /** A slot bound with `v-model.number`: `null` before any choice,
      otherwise a number. Only integers are modelled. */
  datatype JsNumber = NullNumber | Num(n: int)

  /** `undefined`, `null` and `""` are falsy; every other string is truthy. */
  predicate TextTruthy(t: JsText) {
    t.Str? && t.text != ""
  }

  /** `null` and `0` are falsy; every other number is truthy. */
  predicate NumberTruthy(x: JsNumber) {
    x.Num? && x.n != 0
  }

  predicate IsDigit(c: char) {
    '0' <= c <= '9'
  }

  function DigitChar(d: nat): (c: char)
    requires d < 10
    ensures IsDigit(c)
  {
    ('0' as int + d) as char
  }

  function DigitValue(c: char): (d: nat)
    requires IsDigit(c)
    ensures d < 10
  {
    c as int - '0' as int
  }

  /** The decimal string JavaScript produces for a non-negative integer:
      at least one character, all digits. */
  function Decimal(n: nat): (s: string)
    ensures |s| >= 1
    ensures forall i :: 0 <= i < |s| ==> IsDigit(s[i])
    decreases n
  {
    if n < 10 then [DigitChar(n)] else Decimal(n / 10) + [DigitChar(n % 10)]
  }

  /** Reads a string of digits back as the number it denotes. */
  function ParseDecimal(s: string): nat
    requires forall i :: 0 <= i < |s| ==> IsDigit(s[i])
    decreases |s|
  {
    if s == [] then 0 else ParseDecimal(s[..|s| - 1]) * 10 + DigitValue(s[|s| - 1])
  }

  lemma {:induction false} ParseDecimalOfDecimal(n: nat)
    ensures ParseDecimal(Decimal(n)) == n
    decreases n
  {
    if n >= 10 {
      var s := Decimal(n);
      assert s == Decimal(n / 10) + [DigitChar(n % 10)];
      assert s[..|s| - 1] == Decimal(n / 10);
      ParseDecimalOfDecimal(n / 10);
    }
  }

  /** Distinct numbers have distinct decimal strings. */
  lemma DecimalInjective(m: nat, n: nat)
    requires Decimal(m) == Decimal(n)
    ensures m == n
  {
    ParseDecimalOfDecimal(m);
    ParseDecimalOfDecimal(n);
  }
}
