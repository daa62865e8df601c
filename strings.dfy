/**
 * The few string operations the bot relies on: Python's `in` on strings,
 * `str.lower()`, `str(int)` and `s.split(sep)[0]`.
 */
module Strings {

  /** `prefix` is a prefix of `s`. */
  predicate StartsWith(s: string, prefix: string) {
    |prefix| <= |s| && s[..|prefix|] == prefix
  }

  /** Python's `needle in hay` for strings: `needle` occurs in `hay` at some offset. */
  predicate Contains(hay: string, needle: string) {
    exists i :: 0 <= i <= |hay| && StartsWith(hay[i..], needle)
  }

  lemma ContainsInfix(a: string, needle: string, b: string)
    ensures Contains(a + needle + b, needle)
  {
    var s := a + needle + b;
    assert s[|a|..][..|needle|] == needle;
    assert StartsWith(s[|a|..], needle);
  }

  /** A string that holds `needle` at some offset holds its first character. */
  lemma ContainsFirstChar(hay: string, needle: string)
    requires |needle| > 0 && Contains(hay, needle)
    ensures needle[0] in hay
  {
    var i :| 0 <= i <= |hay| && StartsWith(hay[i..], needle);
    assert hay[i] == needle[0];
  }

  /** `str.lower()` on ASCII letters; every other character is kept. */
  function LowerChar(c: char): char {
    if 'A' <= c <= 'Z' then (c as int + 32) as char else c
  }

  function Lower(s: string): (r: string)
    ensures |r| == |s|
  {
    seq(|s|, i requires 0 <= i < |s| => LowerChar(s[i]))
  }

  /** Lower-casing keeps every occurrence: `n in h` implies `n.lower() in h.lower()`. */
  lemma LowerKeepsContains(hay: string, needle: string)
    requires Contains(hay, needle)
    ensures Contains(Lower(hay), Lower(needle))
  {
    var i :| 0 <= i <= |hay| && StartsWith(hay[i..], needle);
    var lh := Lower(hay);
    assert lh[i..][..|needle|] == Lower(needle) by {
      forall k | 0 <= k < |needle|
        ensures lh[i..][..|needle|][k] == Lower(needle)[k]
      {
        assert hay[i..][..|needle|][k] == needle[k];
      }
    }
    assert StartsWith(lh[i..], Lower(needle));
  }

  function DigitChar(d: nat): char
    requires d < 10
  {
    ('0' as int + d) as char
  }

  /** A decimal numeral: one or more digits, with no leading zero unless it is "0" itself. */
  predicate IsDecimal(t: string) {
    |t| > 0
    && (forall k :: 0 <= k < |t| ==> '0' <= t[k] <= '9')
    && (t[0] == '0' ==> |t| == 1)
  }

  /** The value of a string of digits, read most significant first. */
  function DecimalValue(t: string): int {
    if t == [] then 0 else DecimalValue(t[..|t| - 1]) * 10 + (t[|t| - 1] as int - '0' as int)
  }

  /** Decimal digits of `n`, most significant first, with no leading zero. */
  function Digits(n: nat): (s: string)
    ensures IsDecimal(s)
    ensures DecimalValue(s) == n
    ensures s[0] == '0' <==> n == 0
    decreases n
  {
    if n < 10 then [DigitChar(n)]
    else
      var head := Digits(n / 10);
      var s := head + [DigitChar(n % 10)];
      assert s[..|s| - 1] == head;
      s
  }

  /**
   * Python's `str(i)` for an `int`: a minus sign exactly for a negative
   * number, followed by the decimal numeral of its magnitude.
   */
  function IntToString(i: int): (s: string)
    ensures |s| > 0
    ensures s[0] == '-' <==> i < 0
    ensures i < 0 ==> IsDecimal(s[1..]) && DecimalValue(s[1..]) == -i
    ensures i >= 0 ==> IsDecimal(s) && DecimalValue(s) == i
  {
    if i < 0 then
      var s := "-" + Digits(-i);
      assert s[1..] == Digits(-i);
      s
    else Digits(i)
  }

  /** Python's `int(t)` on a numeral with an optional leading minus sign. */
  function IntValue(t: string): int {
    if |t| > 0 && t[0] == '-' then -DecimalValue(t[1..]) else DecimalValue(t)
  }

  /** `int(str(i)) == i`: the text of an integer reads back as that integer. */
  lemma IntToStringRoundTrip(i: int)
    ensures IntValue(IntToString(i)) == i
  {
  }

  /**
   * `s.split(sep)[0]`: the longest prefix of `s` without `sep`; when `sep`
   * occurs, it is the character right after that prefix.
   */
  function UpTo(s: string, sep: char): (r: string)
    ensures StartsWith(s, r)
    ensures sep !in r
    ensures |r| < |s| ==> s[|r|] == sep
  {
    if s == [] || s[0] == sep then [] else [s[0]] + UpTo(s[1..], sep)
  }
}
