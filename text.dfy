/**
 * The string primitives the pages rely on, over `seq<char>`:
 * ASCII `toLowerCase`, whitespace `trim`, `includes` (substring search),
 * and decimal printing of numbers as in template literals, together with
 * the parser that inverts that printing.
 */
module Text {
  import opened Wrappers

  // ---------------------------------------------------------------- case

  function LowerChar(c: char): char
  {
    if 'A' <= c <= 'Z' then (c as int + 32) as char else c
  }

  /** `s.toLowerCase()` restricted to ASCII letters. */
  function Lower(s: string): (r: string)
    ensures |r| == |s|
    ensures forall i :: 0 <= i < |s| ==> r[i] == LowerChar(s[i])
  {
    seq(|s|, i requires 0 <= i < |s| => LowerChar(s[i]))
  }

  lemma LowerIdempotent(s: string)
    ensures Lower(Lower(s)) == Lower(s)
  {
  }

  // ---------------------------------------------------------- substrings

  /** `sub` occurs in `s` starting at position `i`. */
  predicate OccursAt(s: string, sub: string, i: nat)
  {
    i + |sub| <= |s| && s[i..i + |sub|] == sub
  }

  /** `s.includes(sub)`. */
  predicate Includes(s: string, sub: string)
  {
    exists i: nat :: i <= |s| && OccursAt(s, sub, i)
  }

  lemma EmptyIncluded(s: string)
    ensures Includes(s, "")
  {
    assert OccursAt(s, "", 0);
  }

  /** `field.toLowerCase().includes(query.toLowerCase())`, the search test
      of every list page. */
  predicate MatchesQuery(field: string, query: string)
    ensures MatchesQuery(field, query) ==> |query| <= |field|
  {
    Includes(Lower(field), Lower(query))
  }

  /** The empty query matches every field. */
  lemma EmptyQueryMatches(field: string)
    ensures MatchesQuery(field, "")
  {
    EmptyIncluded(Lower(field));
  }

  /** Lowercasing the query first changes nothing. */
  lemma QueryCaseIrrelevant(field: string, query: string)
    ensures MatchesQuery(field, Lower(query)) == MatchesQuery(field, query)
  {
    LowerIdempotent(query);
  }

  // ---------------------------------------------------------- whitespace

  /** The characters `String.prototype.trim` removes: the ECMAScript
      WhiteSpace code points (tab, vertical tab, form feed, space, no-break
      space, the byte-order mark and the other space separators) and the
      LineTerminator code points. */
  predicate IsSpace(c: char)
  {
    c in SpaceChars || '\U{2000}' <= c <= '\U{200A}'
  }

  /** The whitespace code points outside the range U+2000..U+200A. */
  const SpaceChars: set<char> := {'\t', '\U{000B}', '\U{000C}', ' ', '\U{00A0}', '\U{FEFF}', '\U{1680}',
    '\U{202F}', '\U{205F}', '\U{3000}', '\n', '\r', '\U{2028}', '\U{2029}'}

  /** Every character is whitespace. */
  predicate AllSpace(s: string)
  {
    forall i :: 0 <= i < |s| ==> IsSpace(s[i])
  }

  /** Where `trimStart` cuts: the first position from `i` on that does not
      hold whitespace. */
  function StartOfText(s: string, i: nat): (k: nat)
    requires i <= |s|
    ensures i <= k <= |s|
    ensures forall j :: i <= j < k ==> IsSpace(s[j])
    ensures k < |s| ==> !IsSpace(s[k])
    decreases |s| - i
  {
    if i < |s| && IsSpace(s[i]) then StartOfText(s, i + 1) else i
  }

  /** Where `trimEnd` cuts the piece `s[lo..j]`: just after its last
      character that is not whitespace. */
  function EndOfText(s: string, lo: nat, j: nat): (k: nat)
    requires lo <= j <= |s|
    ensures lo <= k <= j
    ensures forall m :: k <= m < j ==> IsSpace(s[m])
    ensures k > lo ==> !IsSpace(s[k - 1])
    decreases j
  {
    if j > lo && IsSpace(s[j - 1]) then EndOfText(s, lo, j - 1) else j
  }

  /** No whitespace at either end. */
  predicate IsTrimmed(s: string)
  {
    s == [] || (!IsSpace(s[0]) && !IsSpace(s[|s| - 1]))
  }

  /** `s.trim()`: drops leading and trailing whitespace. */
  function Trim(s: string): (r: string)
    ensures |r| <= |s|
    ensures IsTrimmed(r)
  {
    var lo := StartOfText(s, 0);
    s[lo..EndOfText(s, lo, |s|)]
  }

  /** A trimmed string is the piece `s[lo..hi]` of the input with only
      whitespace before `lo` and after `hi`. */
  lemma TrimIsWhitespaceFramedSlice(s: string)
    ensures var lo := StartOfText(s, 0);
      var hi := EndOfText(s, lo, |s|);
      && Trim(s) == s[lo..hi]
      && AllSpace(s[..lo]) && AllSpace(s[hi..])
  {
    var lo := StartOfText(s, 0);
    var hi := EndOfText(s, lo, |s|);
    forall i | 0 <= i < |s| - hi
      ensures IsSpace(s[hi..][i])
    {
      assert s[hi..][i] == s[hi + i];
    }
  }

  /** The trimmed strings are exactly those that `trim` leaves alone. */
  lemma TrimmedIffFixed(s: string)
    ensures IsTrimmed(s) <==> Trim(s) == s
  {
    if IsTrimmed(s) && s != [] {
      assert StartOfText(s, 0) == 0;
      assert EndOfText(s, 0, |s|) == |s|;
      assert s[0..|s|] == s;
    }
  }

  lemma TrimIdempotent(s: string)
    ensures Trim(Trim(s)) == Trim(s)
  {
    TrimmedIffFixed(Trim(s));
  }

  /** The trimmed string is empty exactly when the input is all whitespace. */
  lemma TrimEmptyIffAllSpace(s: string)
    ensures Trim(s) == [] <==> AllSpace(s)
  {
    var lo := StartOfText(s, 0);
    var hi := EndOfText(s, lo, |s|);
    if Trim(s) == [] {
      assert hi == lo;
    }
  }

  // ------------------------------------------------------ decimal numbers

  predicate IsDigit(c: char)
  {
    '0' <= c <= '9'
  }

  predicate AllDigits(s: string)
  {
    forall i :: 0 <= i < |s| ==> IsDigit(s[i])
  }

  function DigitChar(d: nat): (c: char)
    requires d < 10
    ensures IsDigit(c)
  {
    ('0' as int + d) as char
  }

  function DigitValue(c: char): (d: nat)
    requires IsDigit(c)
    ensures d < 10
  {
    c as int - '0' as int
  }

  /** `${n}` for a non-negative integer: its decimal digits, most significant first. */
  function NatToString(n: nat): (s: string)
    ensures |s| >= 1 && AllDigits(s)
  {
    if n < 10 then [DigitChar(n)] else NatToString(n / 10) + [DigitChar(n % 10)]
  }

  /** The number a string of decimal digits denotes. */
  function DigitsValue(s: string): nat
    requires AllDigits(s)
  {
    if s == [] then 0 else 10 * DigitsValue(s[..|s| - 1]) + DigitValue(s[|s| - 1])
  }

  /** Reading the printed digits back gives the number. */
  lemma {:induction false} DigitsValueOfNatToString(n: nat)
    ensures DigitsValue(NatToString(n)) == n
  {
    if n >= 10 {
      var s := NatToString(n);
      assert s[..|s| - 1] == NatToString(n / 10);
      DigitsValueOfNatToString(n / 10);
    }
  }

  lemma NatToStringInjective(a: nat, b: nat)
    requires NatToString(a) == NatToString(b)
    ensures a == b
  {
    DigitsValueOfNatToString(a);
    DigitsValueOfNatToString(b);
  }

  /** The length of the longest prefix of `s` made of digits. */
  function DigitRun(s: string): (k: nat)
    ensures k <= |s| && AllDigits(s[..k])
    ensures k < |s| ==> !IsDigit(s[k])
  {
    if s != [] && IsDigit(s[0]) then
      assert s[..1 + DigitRun(s[1..])] == [s[0]] + s[1..][..DigitRun(s[1..])];
      1 + DigitRun(s[1..])
    else 0
  }

  /** Reads a non-empty run of leading digits: its value and what follows it. */
  function ParseNatPrefix(s: string): (r: Option<(nat, string)>)
    ensures r.None? <==> s == [] || !IsDigit(s[0])
  {
    var k := DigitRun(s);
    if k == 0 then None else Some((DigitsValue(s[..k]), s[k..]))
  }

  lemma {:induction false} DigitRunOfDigits(d: string, rest: string)
    requires AllDigits(d)
    requires rest == [] || !IsDigit(rest[0])
    ensures DigitRun(d + rest) == |d|
  {
    if d != [] {
      assert (d + rest)[1..] == d[1..] + rest;
      DigitRunOfDigits(d[1..], rest);
    }
  }

  /** Printing a number and parsing it back, in front of any text that does
      not start with a digit, recovers the number and the text. */
  lemma ParseNatPrefixOfNatToString(n: nat, rest: string)
    requires rest == [] || !IsDigit(rest[0])
    ensures ParseNatPrefix(NatToString(n) + rest) == Some((n, rest))
  {
    var d := NatToString(n);
    DigitRunOfDigits(d, rest);
    assert (d + rest)[..|d|] == d;
    assert (d + rest)[|d|..] == rest;
    DigitsValueOfNatToString(n);
  }
}
