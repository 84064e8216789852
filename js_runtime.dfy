/** The few JavaScript runtime values and built-ins the metric relies on:
    optional values (null/undefined), thrown values, numbers that may be NaN,
    Array.prototype.join and the decimal rendering of integers. */
module JsRuntime {

  /** `null`/`undefined` (None) or a value. */
  datatype Option<+T> = None | Some(value: T) {
    /** The `??` operator. */
    function GetOr(default: T): T {
      if Some? then value else default
    }
  }

  /** A value passed to `throw`: an `Error` object carrying its message, or any other value. */
  datatype Thrown = Error(message: string) | NonError

  /** A computation that returns a value or throws. */
  datatype Result<+T> = Success(value: T) | Failure(error: Thrown)

  /** A computation that returns nothing or throws. */
  datatype Outcome = Pass | Fail(error: Thrown)

  /** A JavaScript number as the metric uses it: a finite value or NaN.
      Infinities, signed zero and binary rounding are not modelled. */
  datatype Num = Finite(value: real) | NaN

  /** `a + b`: NaN absorbs. */
  function Add(a: Num, b: Num): (r: Num)
    ensures r.Finite? <==> a.Finite? && b.Finite?
    ensures r.Finite? ==> r.value == a.value + b.value
  {
    if a.Finite? && b.Finite? then Finite(a.value + b.value) else NaN
  }

  /** `a / b` for a divisor that is a finite sum of probabilities. `0 / 0` is NaN;
      a non-zero value divided by zero would be an infinity, which callers rule out. */
  function Divide(a: Num, b: real): (r: Num)
    requires b == 0.0 && a.Finite? ==> a.value == 0.0
    ensures r.Finite? <==> a.Finite? && b != 0.0
    ensures r.Finite? ==> r.value == a.value / b
  {
    if a.NaN? || b == 0.0 then NaN else Finite(a.value / b)
  }

  /** `a < t`; every comparison with NaN is false. */
  predicate Less(a: Num, t: real) {
    a.Finite? && a.value < t
  }

  /** `a >= t`; every comparison with NaN is false. */
  predicate AtLeast(a: Num, t: real) {
    a.Finite? && a.value >= t
  }

  /** Truthiness of a string: only the empty string is falsy. */
  predicate Truthy(s: string) {
    s != ""
  }

  /** Array.prototype.join: the items separated by `sep`; "" for no items. */
  function Join(items: seq<string>, sep: string): string
  {
    if |items| == 0 then ""
    else if |items| == 1 then items[0]
    else items[0] + sep + Join(items[1..], sep)
  }

  /** Joining one more item appends the separator and the item. */
  lemma {:induction false} JoinSnoc(items: seq<string>, last: string, sep: string)
    requires |items| >= 1
    ensures Join(items + [last], sep) == Join(items, sep) + sep + last
  {
    if |items| == 1 {
      assert items + [last] == [items[0], last];
      assert [items[0], last][1..] == [last];
    } else {
      assert (items + [last])[1..] == items[1..] + [last];
      JoinSnoc(items[1..], last, sep);
    }
  }

  /** Two items: the separator between them. */
  lemma JoinPair(a: string, b: string, sep: string)
    ensures Join([a, b], sep) == a + sep + b
  {
    assert [a, b][1..] == [b];
  }

  /** The pieces written one after another (`+=` in a loop). */
  function Concat(pieces: seq<string>): string
  {
    if pieces == [] then "" else Concat(pieces[..|pieces| - 1]) + pieces[|pieces| - 1]
  }

  lemma ConcatOne(piece: string)
    ensures Concat([piece]) == piece
  {
    assert [piece][..0] == [];
  }

  /** Concatenation splits along any split of the pieces. */
  lemma {:induction false} ConcatAppend(a: seq<string>, b: seq<string>)
    ensures Concat(a + b) == Concat(a) + Concat(b)
    decreases |b|
  {
    if b == [] {
      assert a + b == a;
    } else {
      var front, last := b[..|b| - 1], b[|b| - 1];
      var ab := a + b;
      assert ab[..|ab| - 1] == a + front;
      assert ab[|ab| - 1] == last;
      calc {
        Concat(ab);
        Concat(a + front) + last;
        { ConcatAppend(a, front); }
        (Concat(a) + Concat(front)) + last;
        Concat(a) + (Concat(front) + last);
        Concat(a) + Concat(b);
      }
    }
  }

  predicate IsDigit(c: char) {
    '0' <= c <= '9'
  }

  predicate AllDigits(s: string) {
    forall i :: 0 <= i < |s| ==> IsDigit(s[i])
  }

  function DigitChar(d: nat): (c: char)
    requires d < 10
    ensures IsDigit(c)
  {
    ('0' as int + d) as char
  }

  /** The numeric value of a string of decimal digits, most significant first. */
  function DigitsValue(s: string): nat
    requires AllDigits(s)
  {
    if s == [] then 0
    else DigitsValue(s[..|s| - 1]) * 10 + (s[|s| - 1] as int - '0' as int)
  }

  /** `String(n)` for a natural number: its decimal digits without leading zeros. */
  function NatToDecimal(n: nat): (r: string)
    ensures |r| >= 1 && AllDigits(r)
    ensures DigitsValue(r) == n
    ensures r[0] == '0' <==> n == 0
  {
    if n < 10 then [DigitChar(n)]
    else
      var front := NatToDecimal(n / 10);
      var r := front + [DigitChar(n % 10)];
      assert r[..|r| - 1] == front && r[0] == front[0];
      r
  }

  /** `String(i)` for an integer (magnitudes below 10^21, where JavaScript
      writes plain digits). */
  function IntToDecimal(i: int): (r: string)
    ensures |r| >= 1
    ensures i >= 0 ==> AllDigits(r) && DigitsValue(r) == i
    ensures i < 0 ==> r[0] == '-' && AllDigits(r[1..]) && |r| >= 2 && DigitsValue(r[1..]) == -i
    ensures i >= 0 ==> (r[0] == '0' <==> i == 0)
    ensures i < 0 ==> r[1] != '0'
  {
    if i < 0 then "-" + NatToDecimal(-i) else NatToDecimal(i)
  }

  /** Different integers render differently, so matching a token against
      `String(score)` identifies the score. */
  lemma IntToDecimalInjective(i: int, j: int)
    requires IntToDecimal(i) == IntToDecimal(j)
    ensures i == j
  {
  }

  predicate IsAsciiLower(c: char) {
    'a' <= c <= 'z'
  }

  predicate IsAsciiUpper(c: char) {
    'A' <= c <= 'Z'
  }

  /** String.prototype.toLowerCase restricted to ASCII letters. */
  function AsciiToLower(c: char): (r: char)
    ensures !IsAsciiUpper(r)
    ensures !IsAsciiUpper(c) ==> r == c
    ensures IsAsciiUpper(c) ==> IsAsciiLower(r) && r as int == c as int - 'A' as int + 'a' as int
  {
    if IsAsciiUpper(c) then (c as int - 'A' as int + 'a' as int) as char else c
  }
}
