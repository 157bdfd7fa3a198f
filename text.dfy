/**
 * String helpers the service relies on: Java's `String.isBlank`, substring
 * search, decimal rendering of integers (Java's `"" + int`) and the reverse
 * reading used to show that query text carries its numbers exactly.
 */
module Text {

  import opened Wrappers

  /** Java's `Character.isWhitespace` on a code point. */
  predicate IsWhitespace(c: char)
  {
    || c == ' ' || c == '\t' || c == '\n' || c == '\U{000B}' || c == '\U{000C}' || c == '\r'
    || ('\U{001C}' <= c <= '\U{001F}')
    || c == '\U{1680}'
    || ('\U{2000}' <= c <= '\U{2006}') || ('\U{2008}' <= c <= '\U{200A}')
    || c == '\U{2028}' || c == '\U{2029}' || c == '\U{205F}' || c == '\U{3000}'
  }

  /** Java's `String.isBlank`: empty, or white space only. */
  predicate IsBlank(s: string)
    ensures |s| == 0 ==> IsBlank(s)
    ensures |s| > 0 ==> (IsBlank(s) <==> IsWhitespace(s[0]) && IsBlank(s[1..]))
  {
    forall i :: 0 <= i < |s| ==> IsWhitespace(s[i])
  }

  /** `pat` occurs in `s` starting at position `i`. */
  predicate OccursAt(s: string, pat: string, i: int)
  {
    0 <= i && i + |pat| <= |s| && s[i..i + |pat|] == pat
  }

  /** Java's `String.contains`. */
  predicate Contains(s: string, pat: string)
  {
    exists i :: 0 <= i <= |s| && OccursAt(s, pat, i)
  }

  predicate StartsWith(s: string, prefix: string)
  {
    |prefix| <= |s| && s[..|prefix|] == prefix
  }

  /** A text built as `a + m + b` starts with `a`, ends with `b`, and holds `m` between them. */
  lemma Framed(a: string, m: string, b: string)
    ensures StartsWith(a + m + b, a) && EndsWith(a + m + b, b)
    ensures (a + m + b)[|a|..|a + m + b| - |b|] == m
  {
    var s := a + m + b;
    assert s[..|a|] == a;
    assert s[|s| - |b|..] == b;
    assert s[|a|..|s| - |b|] == m;
  }

  lemma StartsWithConcat(prefix: string, rest: string)
    ensures StartsWith(prefix + rest, prefix)
  {
    assert (prefix + rest)[..|prefix|] == prefix;
  }

  lemma StartsWithRegroup(head: string, mid: string, rest: string)
    ensures StartsWith(head + (mid + rest), head + mid)
  {
    assert head + (mid + rest) == (head + mid) + rest;
    StartsWithConcat(head + mid, rest);
  }

  predicate EndsWith(s: string, suffix: string)
  {
    |suffix| <= |s| && s[|s| - |suffix|..] == suffix
  }

  predicate IsDigit(c: char)
  {
    '0' <= c <= '9'
  }

  predicate AllDigits(s: string)
  {
    forall i :: 0 <= i < |s| ==> IsDigit(s[i])
  }

  function DigitChar(d: nat): (c: char)
    requires d < 10
    ensures IsDigit(c)
  {
    "0123456789"[d]
  }

  function DigitValue(c: char): (d: nat)
    requires IsDigit(c)
    ensures d < 10
  {
    (c as int) - ('0' as int)
  }

  /** Decimal digits of `n`, most significant first, without leading zeros. */
  function NatToString(n: nat): (s: string)
    ensures |s| > 0 && AllDigits(s)
  {
    if n < 10 then [DigitChar(n)] else NatToString(n / 10) + [DigitChar(n % 10)]
  }

  /** Java's decimal rendering of an `int`, as in `" LIMIT " + limit`. */
  function IntToString(i: int): (s: string)
    ensures |s| > 0
    ensures i >= 0 ==> AllDigits(s)
    ensures i < 0 ==> s[0] == '-' && AllDigits(s[1..])
  {
    if i < 0 then "-" + NatToString(-i) else NatToString(i)
  }

  /** The value of a string of decimal digits. */
  function ParseNat(s: string): nat
    requires AllDigits(s)
  {
    if |s| == 0 then 0 else 10 * ParseNat(s[..|s| - 1]) + DigitValue(s[|s| - 1])
  }

  lemma {:induction false} ParseNatToString(n: nat)
    ensures ParseNat(NatToString(n)) == n
  {
    var s := NatToString(n);
    if n < 10 {
      assert s[..0] == [];
      assert DigitValue(DigitChar(n)) == n;
    } else {
      ParseNatToString(n / 10);
      assert s[..|s| - 1] == NatToString(n / 10);
      assert DigitValue(DigitChar(n % 10)) == n % 10;
    }
  }

  /** Number of decimal digits at the end of `s`. */
  function TrailingDigits(s: string): (k: nat)
    ensures k <= |s|
    ensures AllDigits(s[|s| - k..])
    ensures k < |s| ==> !IsDigit(s[|s| - k - 1])
  {
    if |s| == 0 || !IsDigit(s[|s| - 1]) then 0
    else
      var k' := TrailingDigits(s[..|s| - 1]);
      DigitsExtend(s, k');
      k' + 1
  }

  /** A run of trailing digits before a final digit extends by that digit. */
  lemma DigitsExtend(s: string, k: nat)
    requires |s| > 0 && k <= |s| - 1 && IsDigit(s[|s| - 1])
    requires AllDigits(s[..|s| - 1][|s| - 1 - k..])
    ensures AllDigits(s[|s| - 1 - k..])
  {
    var run := s[|s| - 1 - k..];
    var before := s[..|s| - 1][|s| - 1 - k..];
    forall j | 0 <= j < |run|
      ensures IsDigit(run[j])
    {
      if j < k {
        assert run[j] == before[j];
      }
    }
  }

  lemma {:induction false} TrailingDigitsAppend(x: string, d: string)
    requires |x| > 0 && !IsDigit(x[|x| - 1])
    requires AllDigits(d)
    ensures TrailingDigits(x + d) == |d|
  {
    if |d| == 0 {
      assert x + d == x;
    } else {
      var d' := d[..|d| - 1];
      assert (x + d)[..|x + d| - 1] == x + d';
      TrailingDigitsAppend(x, d');
    }
  }

  /**
   * Reads an integer rendered at the very end of `s`: the maximal run of
   * trailing digits, with a '-' sign if one stands right before it. Returns
   * the text before the number and the number.
   */
  function SplitTrailingInt(s: string): (r: Option<(string, int)>)
    ensures r.Some? ==> |r.value.0| < |s|
  {
    var k := TrailingDigits(s);
    if k == 0 then None
    else
      var digits := s[|s| - k..];
      var rest := s[..|s| - k];
      if |rest| > 0 && rest[|rest| - 1] == '-' then
        var magnitude: int := ParseNat(digits);
        Some((rest[..|rest| - 1], -magnitude))
      else
        Some((rest, ParseNat(digits)))
  }

  /** The digits of `n` written after a non-digit are exactly the trailing run, and read back as `n`. */
  lemma ReadDigitsAfter(x: string, n: nat)
    requires |x| > 0 && !IsDigit(x[|x| - 1])
    ensures var s := x + NatToString(n);
      && TrailingDigits(s) == |NatToString(n)|
      && s[..|s| - TrailingDigits(s)] == x
      && ParseNat(s[|s| - TrailingDigits(s)..]) == n
  {
    var digits := NatToString(n);
    TrailingDigitsAppend(x, digits);
    var s := x + digits;
    assert s[|s| - |digits|..] == digits;
    assert s[..|s| - |digits|] == x;
    ParseNatToString(n);
  }

  /** Digits written after a non-digit other than '-' are read back with the text before them. */
  lemma SplitAfterDigits(x: string, n: nat)
    requires |x| > 0 && !IsDigit(x[|x| - 1]) && x[|x| - 1] != '-'
    ensures SplitTrailingInt(x + NatToString(n)) == Some((x, n))
  {
    ReadDigitsAfter(x, n);
  }

  /** Digits written after a '-' are read back as a negative number, with the text before the sign. */
  lemma SplitAfterSignedDigits(x: string, n: nat)
    requires |x| > 0 && x[|x| - 1] == '-'
    ensures SplitTrailingInt(x + NatToString(n)) == Some((x[..|x| - 1], 0 - n))
  {
    assert !IsDigit(x[|x| - 1]);
    ReadDigitsAfter(x, n);
    var s := x + NatToString(n);
    var k := TrailingDigits(s);
    SignedSplitOf(s, k, s[..|s| - k], s[|s| - k..]);
  }

  /** A run of digits preceded by a '-' is read as a negative number, with the text before the sign. */
  lemma SignedSplitOf(s: string, k: nat, rest: string, digits: string)
    requires TrailingDigits(s) == k && k > 0
    requires rest == s[..|s| - k] && digits == s[|s| - k..]
    requires |rest| > 0 && rest[|rest| - 1] == '-'
    ensures SplitTrailingInt(s) == Some((rest[..|rest| - 1], 0 - ParseNat(digits)))
  {
  }

  /** Rendering an integer after a text that ends in a blank reads back exactly. */
  lemma SplitTrailingIntToString(x: string, i: int)
    requires |x| > 0 && x[|x| - 1] == ' '
    ensures SplitTrailingInt(x + IntToString(i)) == Some((x, i))
  {
    if i < 0 {
      NegativeReadsBack(x, i);
    } else {
      SplitAfterDigits(x, i);
    }
  }

  lemma NegativeReadsBack(x: string, i: int)
    requires |x| > 0 && x[|x| - 1] == ' ' && i < 0
    ensures SplitTrailingInt(x + IntToString(i)) == Some((x, i))
  {
    NegativeRendering(x, i);
    SignedDigitsAfter(x, i);
    SplitTrailingIntOfEqual(x + IntToString(i), (x + "-") + NatToString(-i), Some((x, i)));
  }

  lemma SignedDigitsAfter(x: string, i: int)
    requires |x| > 0 && i < 0
    ensures SplitTrailingInt((x + "-") + NatToString(-i)) == Some((x, i))
  {
    SplitAfterSignedDigits(x + "-", -i);
    SignRegroup(x, NatToString(-i));
  }

  lemma SplitTrailingIntOfEqual(s: string, t: string, r: Option<(string, int)>)
    requires s == t && SplitTrailingInt(t) == r
    ensures SplitTrailingInt(s) == r
  {
  }

  lemma NegativeRendering(x: string, i: int)
    requires i < 0
    ensures x + IntToString(i) == (x + "-") + NatToString(-i)
  {
    var d := NatToString(-i);
    assert IntToString(i) == "-" + d;
    SignRegroup(x, d);
  }

  lemma SignRegroup(x: string, d: string)
    ensures x + ("-" + d) == (x + "-") + d
    ensures (x + "-")[..|x + "-"| - 1] == x
  {
  }

  /** Items separated by ",": no separator before the first item, one between neighbours. */
  function Join(items: seq<string>): string
  {
    if |items| == 0 then ""
    else if |items| == 1 then items[0]
    else Join(items[..|items| - 1]) + "," + items[|items| - 1]
  }

  /** A join of at least one item begins with the first item. */
  lemma {:induction false} JoinFirst(items: seq<string>)
    requires |items| > 0
    ensures StartsWith(Join(items), items[0])
  {
    if |items| == 1 {
      StartsWithConcat(items[0], "");
      assert items[0] + "" == items[0];
    } else {
      var init := items[..|items| - 1];
      JoinFirst(init);
      var rest := "," + items[|items| - 1];
      assert Join(items) == Join(init) + rest;
      StartsWithPrefix(Join(init), items[0], rest);
    }
  }

  /** Putting the same text in front keeps a prefix a prefix. */
  lemma StartsWithPrepend(c: string, s: string, p: string)
    requires StartsWith(s, p)
    ensures StartsWith(c + s, c + p)
  {
    assert (c + s)[..|c + p|] == c + s[..|p|];
  }

  /** A prefix of a text is a prefix of any extension of it. */
  lemma StartsWithPrefix(s: string, p: string, rest: string)
    requires StartsWith(s, p)
    ensures StartsWith(s + rest, p)
  {
    assert (s + rest)[..|p|] == s[..|p|];
  }

  /** Joining two non-empty runs puts exactly one separator between them. */
  lemma {:induction false} JoinConcat(a: seq<string>, b: seq<string>)
    requires |a| > 0 && |b| > 0
    ensures Join(a + b) == Join(a) + "," + Join(b)
  {
    if |b| == 1 {
      assert (a + b)[..|a + b| - 1] == a;
    } else {
      var b' := b[..|b| - 1];
      assert (a + b)[..|a + b| - 1] == a + b';
      JoinConcat(a, b');
    }
  }
}
