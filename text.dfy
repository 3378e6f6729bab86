/** The handful of Python `str` operations the collectors rely on, on `seq<char>`:
    `isdigit`, `startswith`, `in`, `lower`, `replace(p, "")`, `strip`, `split()`,
    `split(c)`, `split(c, 1)`, `int(...)` and `str(...)` of an integer.
    Only the ASCII range is modelled (no Unicode digits or case folding). */
module Text {
  import opened Wrappers

  /** ASCII decimal digit. */
  predicate IsDigit(c: char) {
    '0' <= c <= '9'
  }

  /** Every character is a digit (true of the empty string). */
  predicate DigitChars(s: string) {
    forall i :: 0 <= i < |s| ==> IsDigit(s[i])
  }

  /** Python `s.isdigit()`: non-empty and every character a digit. */
  predicate IsDigits(s: string) {
    |s| > 0 && DigitChars(s)
  }

  /** Python `any(ch.isdigit() for ch in s)`. */
  predicate HasDigit(s: string) {
    exists i :: 0 <= i < |s| && IsDigit(s[i])
  }

  /** The ASCII characters Python's `str.split()` and `str.strip()` treat as white space. */
  const Whitespace: set<char> :=
    {' ', '\t', '\n', '\r', '\U{B}', '\U{C}', '\U{1C}', '\U{1D}', '\U{1E}', '\U{1F}'}

  predicate IsSpace(c: char) {
    c in Whitespace
  }

  /** Python `s.startswith(p)`. */
  predicate StartsWith(s: string, p: string) {
    p <= s
  }

  /** Python `sub in s`. */
  predicate Contains(s: string, sub: string)
    decreases |s|
  {
    sub <= s || (|s| > 0 && Contains(s[1..], sub))
  }

  function LowerChar(c: char): char {
    if 'A' <= c <= 'Z' then (c as int + 32) as char else c
  }

  /** Python `s.lower()` on ASCII letters. */
  function ToLower(s: string): (r: string)
    ensures |r| == |s|
    ensures forall i :: 0 <= i < |s| ==> r[i] == LowerChar(s[i])
  {
    seq(|s|, i requires 0 <= i < |s| => LowerChar(s[i]))
  }

  /** Python `s.replace(pat, "")`: drops every non-overlapping occurrence of `pat`,
      scanning left to right. */
  function RemoveAll(s: string, pat: string): string
    requires |pat| > 0
    decreases |s|
  {
    if |s| < |pat| then s
    else if pat <= s then RemoveAll(s[|pat|..], pat)
    else [s[0]] + RemoveAll(s[1..], pat)
  }

  function TrimStart(s: string, cs: set<char>): (r: string)
    ensures |r| > 0 ==> r[0] !in cs
    decreases |s|
  {
    if |s| > 0 && s[0] in cs then TrimStart(s[1..], cs) else s
  }

  function TrimEnd(s: string, cs: set<char>): (r: string)
    ensures |r| > 0 ==> r[|r| - 1] !in cs
    decreases |s|
  {
    if |s| > 0 && s[|s| - 1] in cs then TrimEnd(s[..|s| - 1], cs) else s
  }

  /** Python `s.strip(chars)`. */
  function StripChars(s: string, cs: set<char>): string {
    TrimEnd(TrimStart(s, cs), cs)
  }

  /** Python `s.strip()`. */
  function Strip(s: string): string {
    StripChars(s, Whitespace)
  }

  /** Length of the run of non-space characters at the front of `s`. */
  function TokenLength(s: string): (n: nat)
    ensures n <= |s|
    ensures forall i :: 0 <= i < n ==> !IsSpace(s[i])
    ensures n < |s| ==> IsSpace(s[n])
    decreases |s|
  {
    if |s| == 0 || IsSpace(s[0]) then 0 else 1 + TokenLength(s[1..])
  }

  /** Python `s.split()`: the maximal runs of non-space characters, in order. */
  function Words(s: string): seq<string>
    decreases |s|
  {
    if |s| == 0 then []
    else if IsSpace(s[0]) then Words(s[1..])
    else
      var n := TokenLength(s);
      [s[..n]] + Words(s[n..])
  }

  /** Position of the first `c` in `s`. */
  function IndexOf(s: string, c: char): (i: nat)
    requires c in s
    ensures i < |s| && s[i] == c && c !in s[..i]
  {
    if s[0] == c then 0 else 1 + IndexOf(s[1..], c)
  }

  /** Python `s.split(c)`. */
  function SplitOn(s: string, c: char): seq<string>
    decreases |s|
  {
    if c in s then
      var i := IndexOf(s, c);
      [s[..i]] + SplitOn(s[i + 1..], c)
    else [s]
  }

  /** Python `s.split(c, 1)`. */
  function SplitFirst(s: string, c: char): seq<string> {
    if c in s then
      var i := IndexOf(s, c);
      [s[..i], s[i + 1..]]
    else [s]
  }

  function DigitValue(c: char): nat
    requires IsDigit(c)
  {
    c as int - '0' as int
  }

  /** The value of a string of decimal digits (0 for the empty string). */
  function DigitsValue(s: string): nat
    requires DigitChars(s)
    decreases |s|
  {
    if |s| == 0 then 0 else 10 * DigitsValue(s[..|s| - 1]) + DigitValue(s[|s| - 1])
  }

  function DigitChar(d: nat): (c: char)
    requires d < 10
    ensures IsDigit(c) && DigitValue(c) == d
  {
    ('0' as int + d) as char
  }

  /** Python `str(n)` for a natural number. */
  function NatToString(n: nat): string
    decreases n
  {
    if n < 10 then [DigitChar(n)] else NatToString(n / 10) + [DigitChar(n % 10)]
  }

  /** Python `str(i)`. */
  function IntToString(i: int): string {
    if i < 0 then "-" + NatToString(-i) else NatToString(i)
  }

  /** Python `int(s)` on a decimal literal: surrounding white space, an optional sign and
      at least one digit; anything else is the ValueError case, `None`. */
  function ParseInt(s: string): Option<int> {
    var t := Strip(s);
    if |t| > 0 && (t[0] == '-' || t[0] == '+') then
      if IsDigits(t[1..]) then
        var v: int := DigitsValue(t[1..]);
        Some(if t[0] == '-' then -v else v)
      else None
    else if IsDigits(t) then Some(DigitsValue(t))
    else None
  }

  /** `str(n)` is a digit string whose value is `n`. */
  lemma {:induction false} NatToStringDigits(n: nat)
    ensures IsDigits(NatToString(n))
    ensures DigitsValue(NatToString(n)) == n
    decreases n
  {
    if n >= 10 {
      var p := NatToString(n / 10);
      NatToStringDigits(n / 10);
      var s := p + [DigitChar(n % 10)];
      assert s[..|s| - 1] == p;
      assert DigitChars(s) by {
        forall i | 0 <= i < |s| ensures IsDigit(s[i]) {
          if i < |p| { assert s[i] == p[i]; }
        }
      }
    }
  }

  /** A string with no white space at either end is left unchanged by `strip()`. */
  lemma StripUnpadded(s: string)
    requires |s| > 0 && !IsSpace(s[0]) && !IsSpace(s[|s| - 1])
    ensures Strip(s) == s
  {
    assert TrimStart(s, Whitespace) == s;
    assert TrimEnd(s, Whitespace) == s;
  }

  /** A digit string is left unchanged by `strip()`. */
  lemma StripDigits(s: string)
    requires IsDigits(s)
    ensures Strip(s) == s
  {
    assert !IsSpace(s[0]) && !IsSpace(s[|s| - 1]);
    StripUnpadded(s);
  }

  /** `str(i)` is not empty and neither starts nor ends with white space. */
  lemma IntToStringUnpadded(i: int)
    ensures var s := IntToString(i); |s| > 0 && !IsSpace(s[0]) && !IsSpace(s[|s| - 1])
  {
    var digits := NatToString(if i < 0 then -i else i);
    NatToStringDigits(if i < 0 then -i else i);
    assert !IsSpace(digits[0]) && !IsSpace(digits[|digits| - 1]);
    if i < 0 {
      var t := "-" + digits;
      assert t[|t| - 1] == digits[|digits| - 1];
    }
  }

  /** Round trip: `int(str(i)) == i` for every integer. */
  lemma ParseIntOfIntToString(i: int)
    ensures ParseInt(IntToString(i)) == Some(i)
  {
    var digits := NatToString(if i < 0 then -i else i);
    NatToStringDigits(if i < 0 then -i else i);
    if i < 0 {
      var t := "-" + digits;
      assert t[1..] == digits;
      IntToStringUnpadded(i);
      StripUnpadded(t);
    } else {
      StripDigits(digits);
      assert digits[0] != '-' && digits[0] != '+';
    }
  }

  /** Every word of `split()` is non-empty and free of white space. */
  lemma {:induction false} WordsAreTokens(s: string)
    ensures forall w :: w in Words(s) ==> |w| > 0 && forall i :: 0 <= i < |w| ==> !IsSpace(w[i])
    decreases |s|
  {
    if |s| > 0 {
      if IsSpace(s[0]) {
        WordsAreTokens(s[1..]);
      } else {
        WordsAreTokens(s[TokenLength(s)..]);
      }
    }
  }

  /** `split(c)` yields one more piece than there are separators, none containing `c`. */
  lemma {:induction false} SplitOnPieces(s: string, c: char)
    ensures |SplitOn(s, c)| == multiset(s)[c] + 1
    ensures forall p :: p in SplitOn(s, c) ==> c !in p
    decreases |s|
  {
    if c in s {
      var i := IndexOf(s, c);
      SplitOnPieces(s[i + 1..], c);
      CountAfterFirst(s, c);
      assert SplitOn(s, c) == [s[..i]] + SplitOn(s[i + 1..], c);
    } else {
      assert multiset(s)[c] == 0;
    }
  }

  /** Past the first `c`, one `c` fewer remains. */
  lemma CountAfterFirst(s: string, c: char)
    requires c in s
    ensures multiset(s)[c] == multiset(s[IndexOf(s, c) + 1..])[c] + 1
  {
    var i := IndexOf(s, c);
    assert s == s[..i] + [s[i]] + s[i + 1..];
    assert multiset(s) == multiset(s[..i]) + multiset{c} + multiset(s[i + 1..]);
    assert multiset(s[..i])[c] == 0;
  }
}
