/** The two JavaScript conversions the scorer applies to a candidate token:
    `isNaN(Number(token))` decides whether it is numeric, `parseInt(token, 10)`
    gives the integer key it is recorded under. They agree on plain digit
    strings and disagree on others (the empty string, fractions, hexadecimal). */
module JsNumber {
  import opened JsRuntime

  /** WhiteSpace and LineTerminator code points, which both conversions skip. */
  predicate IsJsWhitespace(c: char) {
    var n := c as int;
    n == 0x09 || n == 0x0A || n == 0x0B || n == 0x0C || n == 0x0D || n == 0x20 ||
    n == 0xA0 || n == 0x1680 || (0x2000 <= n <= 0x200A) || n == 0x2028 || n == 0x2029 ||
    n == 0x202F || n == 0x205F || n == 0x3000 || n == 0xFEFF
  }

  /** Leading white space removed (String.prototype.trimStart). */
  function TrimStart(s: string): string
  {
    if s != [] && IsJsWhitespace(s[0]) then TrimStart(s[1..]) else s
  }

  /** Trailing white space removed (String.prototype.trimEnd). */
  function TrimEnd(s: string): string
  {
    if s != [] && IsJsWhitespace(s[|s| - 1]) then TrimEnd(s[..|s| - 1]) else s
  }

  /** trimStart drops a run of white space and leaves a suffix that does not
      start with white space. */
  lemma {:induction false} TrimStartShape(s: string)
    ensures var r := TrimStart(s);
      && |r| <= |s| && r == s[|s| - |r|..] && (r != [] ==> !IsJsWhitespace(r[0]))
      && forall k :: 0 <= k < |s| - |r| ==> IsJsWhitespace(s[k])
  {
    if s != [] && IsJsWhitespace(s[0]) {
      TrimStartShape(s[1..]);
      var r := TrimStart(s[1..]);
      forall k | 1 <= k < |s| - |r| ensures IsJsWhitespace(s[k]) {
        assert s[k] == s[1..][k - 1];
      }
    }
  }

  /** trimEnd drops a run of white space and leaves a prefix that does not
      end with white space. */
  lemma {:induction false} TrimEndShape(s: string)
    ensures var r := TrimEnd(s);
      && |r| <= |s| && r == s[..|r|] && (r != [] ==> !IsJsWhitespace(r[|r| - 1]))
      && forall k :: |r| <= k < |s| ==> IsJsWhitespace(s[k])
  {
    if s != [] && IsJsWhitespace(s[|s| - 1]) {
      TrimEndShape(s[..|s| - 1]);
      var r := TrimEnd(s[..|s| - 1]);
      forall k | |r| <= k < |s| - 1 ensures IsJsWhitespace(s[k]) {
        assert s[k] == s[..|s| - 1][k];
      }
    }
  }

  /** One leading `+` or `-` removed. */
  function StripSign(s: string): string {
    if s != [] && (s[0] == '+' || s[0] == '-') then s[1..] else s
  }

  /** The longest prefix of decimal digits. */
  function LeadingDigits(s: string): (r: string)
    ensures |r| <= |s|
  {
    if s != [] && IsDigit(s[0]) then [s[0]] + LeadingDigits(s[1..]) else []
  }

  /** The run of digits `parseInt` reads is a prefix of digits that stops before a non-digit. */
  lemma {:induction false} LeadingDigitsShape(s: string)
    ensures var r := LeadingDigits(s);
      r == s[..|r|] && AllDigits(r) && (|r| < |s| ==> !IsDigit(s[|r|]))
  {
    if s != [] && IsDigit(s[0]) {
      LeadingDigitsShape(s[1..]);
    }
  }

  /** `e`/`E` followed by an optionally signed digit string, or nothing. */
  predicate IsExponentPartOrEmpty(s: string) {
    s == [] || ((s[0] == 'e' || s[0] == 'E') && StripSign(s[1..]) != [] && AllDigits(StripSign(s[1..])))
  }

  /** StrUnsignedDecimalLiteral: `Infinity`, `12`, `12.`, `12.5`, `.5`, each with an optional exponent. */
  predicate IsUnsignedDecimalLiteral(u: string) {
    u == "Infinity" ||
    var whole := LeadingDigits(u);
    var rest := u[|whole|..];
    if rest != [] && rest[0] == '.' then
      var fraction := LeadingDigits(rest[1..]);
      (whole != [] || fraction != []) && IsExponentPartOrEmpty(rest[1 + |fraction|..])
    else
      whole != [] && IsExponentPartOrEmpty(rest)
  }

  predicate IsHexDigit(c: char) {
    IsDigit(c) || ('a' <= c <= 'f') || ('A' <= c <= 'F')
  }

  /** NonDecimalIntegerLiteral: `0x1F`, `0o17`, `0b101` (no sign allowed). */
  predicate IsNonDecimalIntegerLiteral(t: string) {
    |t| > 2 && t[0] == '0' &&
    (((t[1] == 'x' || t[1] == 'X') && forall i :: 2 <= i < |t| ==> IsHexDigit(t[i])) ||
     ((t[1] == 'o' || t[1] == 'O') && forall i :: 2 <= i < |t| ==> '0' <= t[i] <= '7') ||
     ((t[1] == 'b' || t[1] == 'B') && forall i :: 2 <= i < |t| ==> t[i] == '0' || t[i] == '1'))
  }

  /** `!isNaN(Number(token))`: after trimming, the token is empty, a signed
      decimal literal, or a non-decimal integer literal. */
  predicate IsNumeric(token: string) {
    var t := TrimEnd(TrimStart(token));
    t == [] || IsUnsignedDecimalLiteral(StripSign(t)) || IsNonDecimalIntegerLiteral(t)
  }

  /** The value `parseInt(token, 10)` stands for as a record key: an integer, or NaN. */
  datatype Key = IntKey(value: int) | NaNKey

  /** `parseInt(token, 10)`: skip leading whitespace, read an optional sign and
      the longest run of decimal digits; NaN when there is none. */
  function ParseInt(token: string): Key {
    var s := TrimStart(token);
    var digits := LeadingDigits(StripSign(s));
    LeadingDigitsShape(StripSign(s));
    if digits == [] then NaNKey
    else if s[0] == '-' then IntKey(-(DigitsValue(digits) as int))
    else IntKey(DigitsValue(digits))
  }

  lemma AllDigitsLeading(s: string)
    requires AllDigits(s)
    ensures LeadingDigits(s) == s
  {
    if s != [] {
      AllDigitsLeading(s[1..]);
    }
  }

  /** On a non-empty string of decimal digits both conversions agree, and the key is its value. */
  lemma {:induction false} DigitTokensAgree(token: string)
    requires token != [] && AllDigits(token)
    ensures IsNumeric(token)
    ensures ParseInt(token) == IntKey(DigitsValue(token))
  {
    assert !IsJsWhitespace(token[0]) && !IsJsWhitespace(token[|token| - 1]);
    assert TrimStart(token) == token;
    assert TrimEnd(token) == token;
    assert StripSign(token) == token;
    AllDigitsLeading(token);
    assert token[|token|..] == [];
  }

  /** The text `String(score)` of an integer score is numeric and keys to the score itself. */
  lemma {:induction false} ScoreTextKeysToScore(score: int)
    ensures IsNumeric(IntToDecimal(score))
    ensures ParseInt(IntToDecimal(score)) == IntKey(score)
  {
    var t := IntToDecimal(score);
    if score >= 0 {
      DigitTokensAgree(t);
    } else {
      var digits := t[1..];
      assert t == "-" + digits;
      assert TrimStart(t) == t;
      assert !IsJsWhitespace(t[|t| - 1]) by { assert t[|t| - 1] == digits[|digits| - 1]; }
      assert TrimEnd(t) == t;
      assert StripSign(t) == digits;
      AllDigitsLeading(digits);
      assert digits[|digits|..] == [];
    }
  }

  /** The empty token is numeric (`Number("")` is 0) but has no integer key. */
  lemma EmptyTokenDisagrees()
    ensures IsNumeric("")
    ensures ParseInt("") == NaNKey
  {
  }

  /** A fraction is numeric and keys to its integer part. */
  lemma FractionTokenTruncates()
    ensures IsNumeric("7.5")
    ensures ParseInt("7.5") == IntKey(7)
  {
    var s := "7.5";
    assert !IsJsWhitespace(s[0]) && !IsJsWhitespace(s[2]);
    assert TrimStart(s) == s;
    assert TrimEnd(s) == s;
    assert StripSign(s) == s;
    assert LeadingDigits(s[1..]) == [] by {
      assert s[1..] == ".5";
    }
    assert LeadingDigits(s) == "7";
    assert s[1..] == ".5";
    assert LeadingDigits("5") == "5";
    assert ".5"[1..] == "5";
    assert ".5"[2..] == [];
    assert IsUnsignedDecimalLiteral(s);
    assert DigitsValue("7") == 7;
  }

  /** A hexadecimal literal is numeric, but `parseInt(_, 10)` stops at the `x`. */
  lemma HexTokenKeysToZero()
    ensures IsNumeric("0x10")
    ensures ParseInt("0x10") == IntKey(0)
  {
    assert LeadingDigits("0x10") == "0" by {
      assert "0x10"[1..] == "x10";
      assert LeadingDigits("x10") == [];
    }
    assert DigitsValue("0") == 0;
  }

  /** A word is not numeric. */
  lemma WordTokenIsNotNumeric()
    ensures !IsNumeric("x")
  {
    assert TrimStart("x") == "x";
    assert TrimEnd("x") == "x";
    assert LeadingDigits("x") == [];
  }
}
