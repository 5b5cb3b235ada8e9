/**
 * String helpers the plugin relies on: PHP's `implode`, a splitter that undoes
 * it, `(string)` on integers and `str_replace`.
 */
module Text {

  import opened Wrappers

  // ---------------------------------------------------------------------------
  // implode / explode
  // ---------------------------------------------------------------------------

  /** PHP `implode(sep, parts)`: the parts in order with `sep` between neighbours. */
  function Join(parts: seq<string>, sep: string): (r: string)
    ensures |parts| == 0 ==> r == ""
    ensures |parts| >= 1 ==> parts[0] <= r
    decreases |parts|
  {
    if |parts| == 0 then ""
    else if |parts| == 1 then parts[0]
    else parts[0] + sep + Join(parts[1..], sep)
  }

  /** Splits `s` at every occurrence of the character `c` (PHP `explode` on a one-character separator). */
  function SplitOn(s: string, c: char): (r: seq<string>)
    ensures |r| >= 1
    decreases |s|
  {
    if |s| == 0 then [""]
    else
      var rest := SplitOn(s[1..], c);
      if s[0] == c then [""] + rest
      else [[s[0]] + rest[0]] + rest[1..]
  }

  /** A string without the character `c` splits into itself alone. */
  lemma {:induction false} SplitOnFree(p: string, c: char)
    requires c !in p
    ensures SplitOn(p, c) == [p]
    decreases |p|
  {
    if |p| > 0 {
      SplitOnFree(p[1..], c);
      assert [p[0]] + p[1..] == p;
    }
  }

  /** Splitting `p + [c] + t` stops at the first `c` when `p` holds none. */
  lemma {:induction false} SplitOnFirst(p: string, c: char, t: string)
    requires c !in p
    ensures SplitOn(p + [c] + t, c) == [p] + SplitOn(t, c)
    decreases |p|
  {
    var s := p + [c] + t;
    if |p| == 0 {
      assert s[1..] == t;
    } else {
      assert s[1..] == p[1..] + [c] + t;
      SplitOnFirst(p[1..], c, t);
      assert [p[0]] + p[1..] == p;
    }
  }

  /**
   * Joining with a one-character separator can be undone by splitting, as long
   * as there is at least one part and no part contains the separator.
   */
  lemma {:induction false} SplitJoinRoundTrip(parts: seq<string>, c: char)
    requires |parts| >= 1
    requires forall i :: 0 <= i < |parts| ==> c !in parts[i]
    ensures SplitOn(Join(parts, [c]), c) == parts
    decreases |parts|
  {
    if |parts| == 1 {
      SplitOnFree(parts[0], c);
    } else {
      SplitJoinRoundTrip(parts[1..], c);
      SplitOnFirst(parts[0], c, Join(parts[1..], [c]));
      assert [parts[0]] + parts[1..] == parts;
    }
  }

  /** A part holding the separator makes two different lists join to the same text. */
  lemma JoinNotInjective()
    ensures Join(["a/b"], "/") == Join(["a", "b"], "/")
  {
  }

  // ---------------------------------------------------------------------------
  // (string) $int and its inverse
  // ---------------------------------------------------------------------------

  predicate IsDigit(ch: char) {
    '0' <= ch <= '9'
  }

  predicate AllDigits(s: string) {
    forall i :: 0 <= i < |s| ==> IsDigit(s[i])
  }

  function DigitChar(d: nat): (ch: char)
    requires d < 10
    ensures IsDigit(ch)
  {
    ('0' as int + d) as char
  }

  function DigitValue(ch: char): (d: nat)
    requires IsDigit(ch)
    ensures d < 10
  {
    ch as int - '0' as int
  }

  /** Decimal representation of a natural number, most significant digit first. */
  function NatToString(n: nat): (s: string)
    ensures |s| >= 1 && AllDigits(s)
    ensures |s| > 1 ==> s[0] != '0'
    decreases n
  {
    if n < 10 then [DigitChar(n)] else NatToString(n / 10) + [DigitChar(n % 10)]
  }

  /** The value of a string of decimal digits. */
  function DigitsValue(s: string): nat
    requires AllDigits(s)
    decreases |s|
  {
    if |s| == 0 then 0 else DigitsValue(s[..|s| - 1]) * 10 + DigitValue(s[|s| - 1])
  }

  lemma {:induction false} DigitsValueOfNatToString(n: nat)
    ensures DigitsValue(NatToString(n)) == n
    decreases n
  {
    var s := NatToString(n);
    if n >= 10 {
      DigitsValueOfNatToString(n / 10);
      assert s[..|s| - 1] == NatToString(n / 10);
    }
  }

  /** PHP `(string)` on an integer: an optional minus sign followed by the decimal digits. */
  function IntToString(i: int): (s: string)
    ensures |s| >= 1
    ensures s[0] == '-' <==> i < 0
  {
    if i < 0 then "-" + NatToString(-i) else NatToString(i)
  }

  /** Reads back a canonical integer string: optional `-`, then one or more digits. */
  function ParseInt(s: string): (r: Option<int>)
  {
    if |s| >= 2 && s[0] == '-' && AllDigits(s[1..]) then Some(0 - DigitsValue(s[1..]) as int)
    else if |s| >= 1 && AllDigits(s) then Some(DigitsValue(s))
    else None
  }

  /** `(string) $i` loses nothing: the integer can be read back from its text. */
  lemma IntToStringRoundTrip(i: int)
    ensures ParseInt(IntToString(i)) == Some(i)
  {
    var s := IntToString(i);
    if i < 0 {
      var digits := NatToString(-i);
      assert s == "-" + digits;
      assert s[1..] == digits;
      DigitsValueOfNatToString(-i);
    } else {
      assert s == NatToString(i);
      assert IsDigit(s[0]);
      DigitsValueOfNatToString(i);
    }
  }

  /** Distinct integers have distinct texts. */
  lemma IntToStringInjective(i: int, j: int)
    requires IntToString(i) == IntToString(j)
    ensures i == j
  {
    IntToStringRoundTrip(i);
    IntToStringRoundTrip(j);
  }

  // ---------------------------------------------------------------------------
  // str_replace
  // ---------------------------------------------------------------------------

  /**
   * PHP `str_replace(pat, rep, s)` for one non-empty search string: scans left
   * to right, replaces every non-overlapping occurrence, and never rescans the
   * inserted text.
   */
  function ReplaceAll(s: string, pat: string, rep: string): (r: string)
    requires |pat| > 0
    ensures pat <= s ==> rep <= r
    decreases |s|
  {
    if |s| == 0 then ""
    else if pat <= s then rep + ReplaceAll(s[|pat|..], pat, rep)
    else [s[0]] + ReplaceAll(s[1..], pat, rep)
  }

  /** The number of occurrences `ReplaceAll` replaces. */
  function Occurrences(s: string, pat: string): nat
    requires |pat| > 0
    decreases |s|
  {
    if |s| == 0 then 0
    else if pat <= s then 1 + Occurrences(s[|pat|..], pat)
    else Occurrences(s[1..], pat)
  }

  /** Each replacement changes the length by `|rep| - |pat|`, and nothing else does. */
  lemma {:induction false} ReplaceAllLength(s: string, pat: string, rep: string)
    requires |pat| > 0
    ensures |ReplaceAll(s, pat, rep)| == |s| + Occurrences(s, pat) * (|rep| - |pat|)
    decreases |s|
  {
    if |s| == 0 {
    } else if pat <= s {
      ReplaceAllLength(s[|pat|..], pat, rep);
      var k := Occurrences(s[|pat|..], pat);
      assert (k + 1) * (|rep| - |pat|) == k * (|rep| - |pat|) + (|rep| - |pat|);
    } else {
      ReplaceAllLength(s[1..], pat, rep);
    }
  }

  /** A replacement at least as long as the search string never shortens the text. */
  lemma {:induction false} ReplaceAllNotShorter(s: string, pat: string, rep: string)
    requires 0 < |pat| <= |rep|
    ensures |ReplaceAll(s, pat, rep)| >= |s|
    decreases |s|
  {
    if |s| == 0 {
    } else if pat <= s {
      ReplaceAllNotShorter(s[|pat|..], pat, rep);
    } else {
      ReplaceAllNotShorter(s[1..], pat, rep);
    }
  }

  /** When the replacement is longer than the search string, the result is unchanged exactly when nothing was found. */
  lemma {:induction false} ReplaceAllUnchangedIff(s: string, pat: string, rep: string)
    requires 0 < |pat| < |rep|
    ensures ReplaceAll(s, pat, rep) == s <==> Occurrences(s, pat) == 0
    decreases |s|
  {
    if |s| == 0 {
    } else if pat <= s {
      var rest := s[|pat|..];
      ReplaceAllNotShorter(rest, pat, rep);
      assert |ReplaceAll(s, pat, rep)| == |rep| + |ReplaceAll(rest, pat, rep)| > |s|;
    } else {
      var rest := s[1..];
      ReplaceAllUnchangedIff(rest, pat, rep);
      assert ReplaceAll(s, pat, rep) == [s[0]] + ReplaceAll(rest, pat, rep);
      assert s == [s[0]] + rest;
      assert ReplaceAll(s, pat, rep) == s <==> ReplaceAll(rest, pat, rep) == rest;
    }
  }

  /** A string with no occurrence of the search string comes back unchanged. */
  lemma {:induction false} ReplaceAllNoOccurrence(s: string, pat: string, rep: string)
    requires |pat| > 0
    requires Occurrences(s, pat) == 0
    ensures ReplaceAll(s, pat, rep) == s
    decreases |s|
  {
    if |s| > 0 {
      ReplaceAllNoOccurrence(s[1..], pat, rep);
      assert [s[0]] + s[1..] == s;
    }
  }
}
