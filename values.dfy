/** JavaScript values as the app and its server see them: absent values
    (`null`, `undefined`), truthiness, and the two shapes of an HTTP reply. */
module Values {

  /** A value that may be `null` or `undefined`. */
  datatype Option<+T> = None | Some(value: T)

  /** A string is truthy when it is present and non-empty. */
  predicate TruthyText(s: Option<string>)
  {
    s.Some? && s.value != ""
  }

  /** A number is truthy when it is present and not zero (NaN arrives as `null`). */
  predicate TruthyNumber(n: Option<int>)
  {
    n.Some? && n.value != 0
  }

  /** `s || fallback` on a possibly absent string. */
  function TextOr(s: Option<string>, fallback: string): string
  {
    if TruthyText(s) then s.value else fallback
  }

  /** An HTTP reply: a JSON body, or a status code with `{ error: message }`. */
  datatype Reply<+T> = Ok(value: T) | Failure(code: int, message: string)

  /** The value of a decimal digit. */
  function DigitValue(c: char): int
  {
    c as int - '0' as int
  }

  /** The number a string of decimal digits denotes, read left to right. */
  function DigitsValue(s: string): int
  {
    if s == [] then 0 else 10 * DigitsValue(s[..|s| - 1]) + DigitValue(s[|s| - 1])
  }

  /** Decimal digits of a natural number, as template literals print it:
      they denote the number, and there is no leading zero. */
  function DecimalText(n: nat): (r: string)
    ensures r != []
    ensures forall i :: 0 <= i < |r| ==> '0' <= r[i] <= '9'
    ensures DigitsValue(r) == n
    ensures |r| > 1 ==> r[0] != '0'
  {
    var d := ('0' as int + n % 10) as char;
    if n < 10 then [d]
    else
      var front := DecimalText(n / 10);
      var r := front + [d];
      assert r[..|r| - 1] == front;
      r
  }
}
