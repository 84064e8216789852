/** The string utilities of the metric: cutting the JSON object out of a judge
    answer, numbering a list of lines, and camelCase to snake_case. */
module Utils {
  import opened JsRuntime

  // ---------------------------------------------------------------------------
  // trimAndLoadJson

  /** String.prototype.indexOf for one character: the first position, or -1. */
  function IndexOf(s: string, c: char): (r: int)
    ensures -1 <= r < |s|
    ensures r == -1 <==> c !in s
    ensures r >= 0 ==> s[r] == c && forall k :: 0 <= k < r ==> s[k] != c
  {
    if s == [] then -1
    else if s[0] == c then 0
    else
      var i := IndexOf(s[1..], c);
      if i == -1 then -1 else i + 1
  }

  /** String.prototype.lastIndexOf for one character: the last position, or -1. */
  function LastIndexOf(s: string, c: char): (r: int)
    ensures -1 <= r < |s|
    ensures r == -1 <==> c !in s
    ensures r >= 0 ==> s[r] == c && forall k :: r < k < |s| ==> s[k] != c
  {
    if s == [] then -1
    else if s[|s| - 1] == c then |s| - 1
    else LastIndexOf(s[..|s| - 1], c)
  }

  /** `i` is the first position of `c` in `s`. */
  predicate FirstAt(s: string, c: char, i: int) {
    0 <= i < |s| && s[i] == c && forall k :: 0 <= k < i ==> s[k] != c
  }

  /** `j` is the last position of `c` in `s`. */
  predicate LastAt(s: string, c: char, j: int) {
    0 <= j < |s| && s[j] == c && forall k :: j < k < |s| ==> s[k] != c
  }

  const InvalidJsonFormat: Thrown := Error("Invalid JSON format")

  /** The part of trimAndLoadJson before `JSON.parse`: the text from the first
      `{` to the last `}` inclusive; empty when the last `}` comes before the
      first `{` (`slice` with start past end); an error when either is missing. */
  function ExtractJsonSpan(s: string): (r: Result<string>)
    ensures r.Failure? <==> '{' !in s || '}' !in s
    ensures r.Failure? ==> r.error == InvalidJsonFormat
    ensures forall i, j {:trigger FirstAt(s, '{', i), LastAt(s, '}', j)} ::
      FirstAt(s, '{', i) && LastAt(s, '}', j) ==>
        r == Success(if i <= j then s[i..j + 1] else [])
  {
    var start := IndexOf(s, '{');
    var end := LastIndexOf(s, '}') + 1;
    if start == -1 || end == 0 then Failure(InvalidJsonFormat)
    else Success(if start < end then s[start..end] else [])
  }

  /** trimAndLoadJson: the span handed to `parse`, which stands for `JSON.parse`. */
  function TrimAndLoadJson<T>(s: string, parse: string -> Result<T>): (r: Result<T>)
    ensures ('{' !in s || '}' !in s) ==> r == Failure(InvalidJsonFormat)
    ensures ('{' in s && '}' in s) ==> r == parse(ExtractJsonSpan(s).value)
  {
    match ExtractJsonSpan(s)
    case Failure(e) => Failure(e)
    case Success(span) => parse(span)
  }

  /** Prose around a JSON object is cut away exactly: any text without `{`
      before it and any text without `}` after it. */
  lemma {:induction false} ExtractJsonSpanRoundTrip(prefix: string, json: string, suffix: string)
    requires |json| >= 2 && json[0] == '{' && json[|json| - 1] == '}'
    requires '{' !in prefix && '}' !in suffix
    ensures ExtractJsonSpan(prefix + json + suffix) == Success(json)
  {
    var s := prefix + json + suffix;
    var i, j := |prefix|, |prefix| + |json| - 1;
    assert FirstAt(s, '{', i) by {
      forall k | 0 <= k < i ensures s[k] != '{' {
        assert s[k] == prefix[k];
      }
    }
    assert LastAt(s, '}', j) by {
      forall k | j < k < |s| ensures s[k] != '}' {
        assert s[k] == suffix[k - |prefix| - |json|];
      }
    }
    assert s[i..j + 1] == json;
  }

  /** Both characters present, with the last `}` before the first `{`: the span is empty. */
  lemma ReversedBracesGiveEmptySpan()
    ensures ExtractJsonSpan("} {") == Success([])
  {
    assert FirstAt("} {", '{', 2);
    assert LastAt("} {", '}', 0);
  }

  // ---------------------------------------------------------------------------
  // prettifyList

  /** The entry of `items.map((item, index) => `${index + 1}. ${item}`)` at `i`. */
  function NumberedItem(items: seq<string>, i: nat): string
    requires i < |items|
  {
    NatToDecimal(i + 1) + ". " + items[i]
  }

  /** prettifyList: the items numbered from 1, joined by newlines. */
  function PrettifyList(items: seq<string>): string
  {
    Join(seq(|items|, i requires 0 <= i < |items| => NumberedItem(items, i)), "\n")
  }

  /** String.prototype.split on one character. */
  function Split(s: string, c: char): (r: seq<string>)
    ensures |r| >= 1
  {
    if s == [] then [[]]
    else
      var rest := Split(s[1..], c);
      if s[0] == c then [[]] + rest else [[s[0]] + rest[0]] + rest[1..]
  }

  lemma {:induction false} SplitNoSeparator(x: string, c: char)
    requires c !in x
    ensures Split(x, c) == [x]
  {
    if x != [] {
      SplitNoSeparator(x[1..], c);
      assert [x[0]] + x[1..] == x;
    }
  }

  lemma {:induction false} SplitAfterSeparator(x: string, c: char, y: string)
    requires c !in x
    ensures Split(x + [c] + y, c) == [x] + Split(y, c)
  {
    if x == [] {
      assert x + [c] + y == [c] + y;
      assert ([c] + y)[1..] == y;
    } else {
      assert (x + [c] + y)[1..] == x[1..] + [c] + y;
      SplitAfterSeparator(x[1..], c, y);
      assert [x[0]] + x[1..] == x;
    }
  }

  /** Splitting lines joined by a character that none of them contains gives the lines back. */
  lemma {:induction false} SplitJoin(lines: seq<string>, c: char)
    requires |lines| >= 1
    requires forall k :: 0 <= k < |lines| ==> c !in lines[k]
    ensures Split(Join(lines, [c]), c) == lines
  {
    if |lines| == 1 {
      SplitNoSeparator(lines[0], c);
    } else {
      SplitJoin(lines[1..], c);
      SplitAfterSeparator(lines[0], c, Join(lines[1..], [c]));
      assert [lines[0]] + lines[1..] == lines;
    }
  }

  /** prettifyList of n items whose text has no newline is n lines, the i-th
      line reading `(i+1). item`. */
  lemma PrettifyListLines(items: seq<string>)
    requires |items| >= 1
    requires forall k :: 0 <= k < |items| ==> '\n' !in items[k]
    ensures var lines := Split(PrettifyList(items), '\n');
      |lines| == |items| &&
      forall i :: 0 <= i < |items| ==> lines[i] == NatToDecimal(i + 1) + ". " + items[i]
  {
    var lines := seq(|items|, i requires 0 <= i < |items| => NumberedItem(items, i));
    forall k | 0 <= k < |lines| ensures '\n' !in lines[k] {
      var d := NatToDecimal(k + 1);
      var line := d + ". " + items[k];
      forall p | 0 <= p < |line| ensures line[p] != '\n' {
        if p < |d| {
          assert line[p] == d[p] && IsDigit(d[p]);
        } else if p >= |d| + 2 {
          assert line[p] == items[k][p - |d| - 2];
        }
      }
      assert lines[k] == line;
    }
    assert "\n" == ['\n'];
    SplitJoin(lines, '\n');
  }

  /** The empty list renders as the empty string. */
  lemma PrettifyListEmpty()
    ensures PrettifyList([]) == ""
  {
  }

  // ---------------------------------------------------------------------------
  // camelToSnake

  /** `name.replace(/([a-z])([A-Z])/g, '$1_$2')`: scanning left to right, every
      match of a lower-case letter followed by an upper-case letter gets `_`
      between them, and the scan resumes after the match. */
  function ReplaceLowerUpper(s: string): string
    decreases |s|
  {
    if |s| < 2 then s
    else if IsAsciiLower(s[0]) && IsAsciiUpper(s[1]) then [s[0], '_', s[1]] + ReplaceLowerUpper(s[2..])
    else [s[0]] + ReplaceLowerUpper(s[1..])
  }

  /** `toLowerCase` on ASCII letters. */
  function LowerAll(s: string): (r: string)
    ensures |r| == |s|
    ensures forall i :: 0 <= i < |s| ==> r[i] == AsciiToLower(s[i])
  {
    seq(|s|, i requires 0 <= i < |s| => AsciiToLower(s[i]))
  }

  /** camelToSnake. */
  function CamelToSnake(name: string): string
  {
    LowerAll(ReplaceLowerUpper(name))
  }

  /** Reference: each character, followed by one `_` exactly when it is a
      lower-case letter and the next character is an upper-case letter. */
  function InsertAtBoundaries(s: string): string
  {
    if s == [] then []
    else [s[0]] + (if |s| >= 2 && IsAsciiLower(s[0]) && IsAsciiUpper(s[1]) then "_" else "")
         + InsertAtBoundaries(s[1..])
  }

  predicate NoAsciiUpper(s: string) {
    forall i :: 0 <= i < |s| ==> !IsAsciiUpper(s[i])
  }

  /** The global replace inserts one `_` at every adjacent lower/upper pair and
      nowhere else (the matches cannot overlap). */
  lemma {:induction false} ReplaceInsertsAtBoundaries(s: string)
    ensures ReplaceLowerUpper(s) == InsertAtBoundaries(s)
    decreases |s|
  {
    if |s| < 2 {
      if |s| == 1 {
        assert s[1..] == [];
        assert [s[0]] == s;
      }
    } else if IsAsciiLower(s[0]) && IsAsciiUpper(s[1]) {
      ReplaceInsertsAtBoundaries(s[2..]);
      var t := s[1..];
      assert t[1..] == s[2..];
      if |t| >= 2 {
        assert !IsAsciiLower(t[0]);
      } else {
        assert s[2..] == [];
      }
      assert InsertAtBoundaries(t) == [s[1]] + InsertAtBoundaries(s[2..]);
    } else {
      ReplaceInsertsAtBoundaries(s[1..]);
    }
  }

  /** camelToSnake leaves no upper-case ASCII letter. */
  lemma CamelToSnakeHasNoUpper(name: string)
    ensures NoAsciiUpper(CamelToSnake(name))
  {
  }

  lemma {:induction false} ReplaceWithoutUpper(s: string)
    requires NoAsciiUpper(s)
    ensures ReplaceLowerUpper(s) == s
    decreases |s|
  {
    if |s| >= 2 {
      assert !IsAsciiUpper(s[1]);
      ReplaceWithoutUpper(s[1..]);
      assert [s[0]] + s[1..] == s;
    }
  }

  /** A name with no upper-case ASCII letter is returned unchanged. */
  lemma CamelToSnakeFixesLowerCase(name: string)
    requires NoAsciiUpper(name)
    ensures CamelToSnake(name) == name
  {
    ReplaceWithoutUpper(name);
  }

  /** camelToSnake is idempotent. */
  lemma CamelToSnakeIdempotent(name: string)
    ensures CamelToSnake(CamelToSnake(name)) == CamelToSnake(name)
  {
    CamelToSnakeHasNoUpper(name);
    CamelToSnakeFixesLowerCase(CamelToSnake(name));
  }

  /** A lower-case letter followed by an upper-case one: `_` between them, both lower-cased. */
  lemma CamelToSnakePair(x: char, y: char, rest: string)
    requires IsAsciiLower(x) && IsAsciiUpper(y)
    ensures CamelToSnake([x, y] + rest) == [x, '_', AsciiToLower(y)] + CamelToSnake(rest)
  {
    var s := [x, y] + rest;
    assert s[2..] == rest;
    assert ReplaceLowerUpper(s) == [x, '_', y] + ReplaceLowerUpper(rest);
  }
}
