/**
 * String helpers shared by the model: JavaScript's `trim`, `startsWith`,
 * `slice(-n)`, `join`, decimal rendering of integers and the digit parsing
 * used by `parseInt` / `parseFloat`.
 */
module Text {

  /** `s.startsWith(p)`. */
  predicate StartsWith(s: string, p: string) {
    |p| <= |s| && s[..|p|] == p
  }

  /** `p` occurs in `s` starting at index `i`. */
  predicate OccursAt(s: string, p: string, i: int) {
    0 <= i && i + |p| <= |s| && s[i..i + |p|] == p
  }

  /** `s.includes(p)`. */
  predicate Contains(s: string, p: string) {
    exists i :: 0 <= i <= |s| - |p| && OccursAt(s, p, i)
  }

  /** The characters that JavaScript's `String.prototype.trim` removes
      (WhiteSpace and LineTerminator of ECMA-262). */
  predicate IsWhite(c: char) {
    c == ' ' || c == '\t' || c == '\n' || c == '\r' || c == '\U{000B}' || c == '\U{000C}'
    || c == '\U{00A0}' || c == '\U{FEFF}' || c == '\U{1680}' || ('\U{2000}' <= c <= '\U{200A}')
    || c == '\U{2028}' || c == '\U{2029}' || c == '\U{202F}' || c == '\U{205F}' || c == '\U{3000}'
  }

  /** The characters that `.` in a JavaScript regular expression does not match. */
  predicate IsLineTerminator(c: char) {
    c == '\n' || c == '\r' || c == '\U{2028}' || c == '\U{2029}'
  }

  predicate AllWhite(s: string) {
    forall i :: 0 <= i < |s| ==> IsWhite(s[i])
  }

  function TrimStart(s: string): (r: string)
    ensures |r| <= |s|
    ensures r == [] || !IsWhite(r[0])
  {
    if s != [] && IsWhite(s[0]) then TrimStart(s[1..]) else s
  }

  function TrimEnd(s: string): (r: string)
    ensures |r| <= |s|
    ensures r == [] || !IsWhite(r[|r| - 1])
  {
    if s != [] && IsWhite(s[|s| - 1]) then TrimEnd(s[..|s| - 1]) else s
  }

  /** `TrimStart` keeps a suffix and drops only white characters. */
  lemma {:induction false} TrimStartDropsWhite(s: string)
    ensures var r := TrimStart(s);
            r == s[|s| - |r|..] && AllWhite(s[..|s| - |r|])
  {
    if s != [] && IsWhite(s[0]) {
      var t := s[1..];
      TrimStartDropsWhite(t);
      var r := TrimStart(t);
      assert t[|t| - |r|..] == s[|s| - |r|..];
      assert s[..|s| - |r|] == [s[0]] + t[..|t| - |r|];
    }
  }

  /** `TrimEnd` keeps a prefix and drops only white characters. */
  lemma {:induction false} TrimEndDropsWhite(s: string)
    ensures var r := TrimEnd(s);
            r == s[..|r|] && AllWhite(s[|r|..])
  {
    if s != [] && IsWhite(s[|s| - 1]) {
      var t := s[..|s| - 1];
      TrimEndDropsWhite(t);
      var r := TrimEnd(t);
      assert t[..|r|] == s[..|r|];
      assert s[|r|..] == t[|r|..] + [s[|s| - 1]];
    }
  }

  /** `s.trim()`: the longest slice of `s` with no white character at either end. */
  function Trim(s: string): (r: string)
    ensures |r| <= |s|
    ensures r == [] || (!IsWhite(r[0]) && !IsWhite(r[|r| - 1]))
  {
    var t := TrimStart(s);
    TrimEndDropsWhite(t);
    TrimEnd(t)
  }

  /** Trimming yields the empty string exactly when every character is white. */
  lemma TrimEmptyIff(s: string)
    ensures Trim(s) == [] <==> AllWhite(s)
  {
    var t := TrimStart(s);
    TrimStartDropsWhite(s);
    TrimEndDropsWhite(t);
    if Trim(s) == [] {
      assert s == s[..|s| - |t|] + t;
    }
  }

  /** A string with no white character at its ends is its own trim. */
  lemma TrimUnpadded(s: string)
    requires s == [] || (!IsWhite(s[0]) && !IsWhite(s[|s| - 1]))
    ensures Trim(s) == s
  {
  }

  /** `s.slice(-n)` for `n > 0`: the last `n` elements, or all of them. */
  function LastN<T>(s: seq<T>, n: nat): (r: seq<T>)
    ensures |r| == if |s| <= n then |s| else n
    ensures r == s[|s| - |r|..]
  {
    if |s| <= n then s else s[|s| - n..]
  }

  /** `s.slice(0, n)`. */
  function Take<T>(s: seq<T>, n: nat): (r: seq<T>)
    ensures |r| == if |s| <= n then |s| else n
    ensures r == s[..|r|]
  {
    if |s| <= n then s else s[..n]
  }

  /** A prefix holds no element more often than the whole sequence. */
  lemma TakeSubMultiset<T>(s: seq<T>, n: nat)
    ensures multiset(Take(s, n)) <= multiset(s)
  {
    var r := Take(s, n);
    assert s == r + s[|r|..];
  }

  /** `parts.join(sep)`. */
  function Join(parts: seq<string>, sep: string): string {
    if parts == [] then ""
    else if |parts| == 1 then parts[0]
    else parts[0] + sep + Join(parts[1..], sep)
  }

  /** Text put in front keeps an occurrence, shifted by its length. */
  lemma ContainsAfterPrefix(pre: string, s: string, p: string)
    requires Contains(s, p)
    ensures Contains(pre + s, p)
  {
    var i :| 0 <= i <= |s| - |p| && OccursAt(s, p, i);
    assert (pre + s)[|pre| + i..|pre| + i + |p|] == s[i..i + |p|];
    assert OccursAt(pre + s, p, |pre| + i);
  }

  /** Every part occurs in the joined text. */
  lemma {:induction false} JoinHasParts(parts: seq<string>, sep: string, k: nat)
    requires k < |parts|
    ensures Contains(Join(parts, sep), parts[k])
  {
    var joined := Join(parts, sep);
    if |parts| == 1 {
      assert OccursAt(joined, parts[k], 0);
    } else if k == 0 {
      assert joined[..|parts[0]|] == parts[0];
      assert OccursAt(joined, parts[k], 0);
    } else {
      JoinHasParts(parts[1..], sep, k - 1);
      ContainsAfterPrefix(parts[0] + sep, Join(parts[1..], sep), parts[k]);
      assert joined == (parts[0] + sep) + Join(parts[1..], sep);
    }
  }

  predicate IsDigit(c: char) {
    '0' <= c <= '9'
  }

  predicate AllDigits(s: string) {
    forall i :: 0 <= i < |s| ==> IsDigit(s[i])
  }

  function DigitChar(d: nat): (c: char)
    requires d < 10
    ensures IsDigit(c)
  {
    ('0' as int + d) as char
  }

  /** Decimal text of a natural number, as JavaScript prints it. */
  function NatToString(n: nat): (r: string)
    ensures |r| >= 1 && AllDigits(r)
    ensures n < 10 <==> |r| == 1
    ensures 10 <= n < 100 <==> |r| == 2
  {
    if n < 10 then [DigitChar(n)] else NatToString(n / 10) + [DigitChar(n % 10)]
  }

  /** Decimal text of an integer, with a leading '-' when negative. */
  function IntToString(i: int): (r: string)
    ensures r != []
    ensures i < 0 <==> r[0] == '-'
  {
    if i < 0 then "-" + NatToString(-i) else NatToString(i)
  }

  /** The value of a string of decimal digits. */
  function DigitsValue(s: string): nat
    requires AllDigits(s)
  {
    if s == [] then 0 else 10 * DigitsValue(s[..|s| - 1]) + (s[|s| - 1] as int - '0' as int)
  }

  /** Reading back the decimal text of `n` gives `n`. */
  lemma {:induction false} DigitsValueOfNatToString(n: nat)
    ensures DigitsValue(NatToString(n)) == n
  {
    if n >= 10 {
      var s := NatToString(n);
      assert s[..|s| - 1] == NatToString(n / 10);
      DigitsValueOfNatToString(n / 10);
    }
  }

  /** The number of leading decimal digits of `s`. */
  function LeadingDigits(s: string): (n: nat)
    ensures n <= |s| && AllDigits(s[..n])
    ensures n < |s| ==> !IsDigit(s[n])
  {
    if s != [] && IsDigit(s[0]) then
      var k := LeadingDigits(s[1..]);
      assert s[..k + 1] == [s[0]] + s[1..][..k];
      k + 1
    else 0
  }

  /** Two-digit, zero-padded text of a number below 100 (`if (h < 10) h = '0' + h`). */
  function Pad2(n: nat): (r: string)
    requires n < 100
    ensures |r| == 2 && AllDigits(r)
    ensures DigitsValue(r) == n
  {
    DigitsValueOfNatToString(n);
    if n < 10 then
      var r := "0" + NatToString(n);
      assert r[..1] == "0";
      r
    else NatToString(n)
  }
}
