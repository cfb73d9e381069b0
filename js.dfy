/**
 * The few pieces of JavaScript semantics that both servers lean on:
 * a body field that may be `undefined`, the `||` fallback with its notion of
 * truthiness, `String.prototype.split` on one separator character, and the
 * decimal text of a non-negative integer (what `${Date.now()}` produces).
 */
module Js {

  /** A request-body field: `undefined` or a string. */
  datatype Option<T> = None | Some(value: T)

  /** JavaScript truthiness of an optional string: `undefined` and `""` are falsy. */
  predicate Truthy(v: Option<string>)
  {
    v.Some? && v.value != ""
  }

  /** `a || b`: `a` when it is truthy, otherwise `b`, whatever `b` is. */
  function Or(a: Option<string>, b: Option<string>): Option<string>
  {
    if Truthy(a) then a else b
  }

  // ---------------------------------------------------------------------------
  // s.split(sep)

  /**
   * `s.split(sep)` for a one-character separator: the pieces between the
   * separators, in order, including empty ones (`"/a".split('/')` is `["", "a"]`,
   * `"".split('/')` is `[""]`). There is always at least one piece, and no piece
   * contains the separator.
   */
  function Split(s: string, sep: char): (parts: seq<string>)
    ensures |parts| >= 1
    ensures forall i :: 0 <= i < |parts| ==> sep !in parts[i]
    decreases |s|
  {
    if s == [] then [[]]
    else
      var rest := Split(s[1..], sep);
      if s[0] == sep then [[]] + rest
      else [[s[0]] + rest[0]] + rest[1..]
  }

  /** `parts.join(sep)`: the inverse of `Split`. */
  function Join(parts: seq<string>, sep: char): string
    requires |parts| >= 1
    decreases |parts|
  {
    if |parts| == 1 then parts[0] else parts[0] + [sep] + Join(parts[1..], sep)
  }

  /** Joining the pieces of a split gives back the original string. */
  lemma {:induction false} JoinSplit(s: string, sep: char)
    ensures Join(Split(s, sep), sep) == s
    decreases |s|
  {
    if s != [] {
      var rest := Split(s[1..], sep);
      JoinSplit(s[1..], sep);
      if s[0] != sep && |rest| > 1 {
        calc {
          Join(Split(s, sep), sep);
          [s[0]] + rest[0] + [sep] + Join(rest[1..], sep);
          [s[0]] + Join(rest, sep);
          s;
        }
      }
    }
  }

  /** A string without the separator splits into itself alone. */
  lemma {:induction false} SplitWithoutSeparator(s: string, sep: char)
    requires sep !in s
    ensures Split(s, sep) == [s]
    decreases |s|
  {
    if s != [] {
      assert s[0] != sep;
      SplitWithoutSeparator(s[1..], sep);
      assert [s[0]] + s[1..] == s;
    }
  }

  /** Splitting at one occurrence of the separator splits both sides independently. */
  lemma {:induction false} SplitAround(a: string, b: string, sep: char)
    ensures Split(a + [sep] + b, sep) == Split(a, sep) + Split(b, sep)
    decreases |a|
  {
    var s := a + [sep] + b;
    if a == [] {
      assert s[1..] == b;
    } else {
      assert s[0] == a[0];
      assert s[1..] == a[1..] + [sep] + b;
      SplitAround(a[1..], b, sep);
    }
  }

  /** The index of the last `sep` in `s`, or -1. */
  ghost function LastIndexOf(s: string, sep: char): (k: int)
    ensures -1 <= k < |s|
    ensures k >= 0 ==> s[k] == sep
    ensures forall i :: k < i < |s| ==> s[i] != sep
    decreases |s|
  {
    if s == [] then -1
    else if s[|s| - 1] == sep then |s| - 1
    else LastIndexOf(s[..|s| - 1], sep)
  }

  /**
   * `parts[parts.length - 1]` of `s.split('/')`: the longest suffix of `s`
   * without a `/`. It is a suffix, it holds no `/`, and it is either all of
   * `s` or preceded by a `/`.
   */
  /** `r` is the longest suffix of `s` without a `/`. */
  predicate LongestSlashFreeSuffix(r: string, s: string)
  {
    && '/' !in r
    && |r| <= |s| && s[|s| - |r|..] == r
    && (|r| == |s| || s[|s| - |r| - 1] == '/')
  }

  function LastSegment(s: string): (r: string)
    ensures LongestSlashFreeSuffix(r, s)
  {
    var parts := Split(s, '/');
    LastPieceIsLongestSlashFreeSuffix(s);
    parts[|parts| - 1]
  }

  lemma LastPieceIsLongestSlashFreeSuffix(s: string)
    ensures var parts := Split(s, '/'); var r := parts[|parts| - 1];
      && |r| <= |s| && s[|s| - |r|..] == r
      && (|r| == |s| || s[|s| - |r| - 1] == '/')
  {
    var k := LastIndexOf(s, '/');
    if k < 0 {
      SplitWithoutSeparator(s, '/');
    } else {
      var tail := s[k + 1..];
      assert s == s[..k] + ['/'] + tail;
      SplitAround(s[..k], tail, '/');
      SplitWithoutSeparator(tail, '/');
      assert Split(s, '/') == Split(s[..k], '/') + [tail];
    }
  }

  /** Whatever precedes it, a `/`-free segment after a `/` is read back as the last segment. */
  lemma LastSegmentAfterSlash(prefix: string, segment: string)
    requires '/' !in segment
    ensures LastSegment(prefix + "/" + segment) == segment
  {
    assert prefix + "/" + segment == prefix + ['/'] + segment;
    SplitAround(prefix, segment, '/');
    SplitWithoutSeparator(segment, '/');
  }

  // ---------------------------------------------------------------------------
  // `${n}` for a non-negative integer n

  predicate IsDigit(c: char)
  {
    '0' <= c <= '9'
  }

  predicate AllDigits(s: string)
  {
    forall i :: 0 <= i < |s| ==> IsDigit(s[i])
  }

  function DigitChar(d: nat): (c: char)
    requires d < 10
    ensures IsDigit(c) && c as int - '0' as int == d
  {
    ('0' as int + d) as char
  }

  /** The decimal text of `n`, most significant digit first, as template literals print it. */
  function DecimalString(n: nat): (r: string)
    ensures |r| >= 1 && AllDigits(r)
    ensures r[0] == '0' ==> n == 0
    decreases n
  {
    if n < 10 then [DigitChar(n)] else DecimalString(n / 10) + [DigitChar(n % 10)]
  }

  /** The value of a string of decimal digits: the reference reading of `DecimalString`. */
  function ParseDecimal(s: string): nat
    requires AllDigits(s)
    decreases |s|
  {
    if s == [] then 0
    else
      assert AllDigits(s[..|s| - 1]);
      10 * ParseDecimal(s[..|s| - 1]) + (s[|s| - 1] as int - '0' as int)
  }

  /** Printing a number in decimal loses nothing: reading the digits back gives the number. */
  lemma {:induction false} ParseDecimalString(n: nat)
    ensures ParseDecimal(DecimalString(n)) == n
    decreases n
  {
    if n >= 10 {
      var s := DecimalString(n);
      assert s[..|s| - 1] == DecimalString(n / 10);
      ParseDecimalString(n / 10);
    }
  }

  // ---------------------------------------------------------------------------
  // Map.prototype.set / delete

  /** Two maps that hold the same keys with the same values, except perhaps at `key`. */
  ghost predicate AgreeExcept<K(!new), V>(m: map<K, V>, m': map<K, V>, key: K)
  {
    forall k | k != key :: (k in m <==> k in m') && (k in m ==> m[k] == m'[k])
  }
}
