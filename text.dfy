/** The Python `str` operations that the collector and the dashboard rely on:
    `isspace`, `strip`, `split()`, `in`, `endswith`, `replace`, `isdigit`,
    `str(int)` and `int(str)`. */
module Text {
  import opened Wrappers

  /** Python's `str.isspace` for one character: the ASCII controls tab to
      carriage return, the separators 0x1c to 0x1f, space, and the Unicode
      white space up to U+3000. */
  predicate IsSpace(c: char) {
    || '\t' <= c <= '\r' || '\U{1c}' <= c <= ' ' || c == '\U{85}' || c == '\U{a0}' || c == '\U{1680}'
    || '\U{2000}' <= c <= '\U{200a}' || c == '\U{2028}' || c == '\U{2029}' || c == '\U{202f}' || c == '\U{205f}' || c == '\U{3000}'
  }

  predicate IsDigit(c: char) {
    '0' <= c <= '9'
  }

  /** Python's `str.isdigit`, restricted to ASCII digits: false on the empty string. */
  predicate IsDigits(s: string) {
    |s| > 0 && forall i :: 0 <= i < |s| ==> IsDigit(s[i])
  }

  /** A non-empty run of non-space characters: what `split()` produces. */
  predicate IsToken(t: string) {
    |t| > 0 && forall i :: 0 <= i < |t| ==> !IsSpace(t[i])
  }

  predicate StartsWith(s: string, p: string) {
    |p| <= |s| && s[..|p|] == p
  }

  /** Python's `s.endswith(suffix)`. */
  predicate EndsWith(s: string, suffix: string) {
    |suffix| <= |s| && s[|s| - |suffix|..] == suffix
  }

  /** `f` occurs in `s` starting at index `i`. */
  predicate OccursAt(s: string, f: string, i: int) {
    0 <= i <= |s| - |f| && s[i..i + |f|] == f
  }

  /** Python's `f in s`: `f` occurs in `s` at some position. */
  function Contains(s: string, f: string): (b: bool)
    ensures b <==> exists i :: OccursAt(s, f, i)
    decreases |s|
  {
    if StartsWith(s, f) then
      assert OccursAt(s, f, 0);
      true
    else if |s| == 0 then
      false
    else
      var b := Contains(s[1..], f);
      if b then
        var k :| OccursAt(s[1..], f, k);
        OccurrenceInTail(s, f, k);
        true
      else
        OccurrencesShift(s, f);
        false
  }

  /** An occurrence in the tail is an occurrence one position further on. */
  lemma OccurrenceInTail(s: string, f: string, k: int)
    requires |s| > 0 && OccursAt(s[1..], f, k)
    ensures OccursAt(s, f, k + 1)
  {
    assert s[k + 1..k + 1 + |f|] == s[1..][k..k + |f|];
  }

  /** An occurrence past the first character is an occurrence in the tail. */
  lemma OccurrencesShift(s: string, f: string)
    requires |s| > 0
    ensures forall i :: OccursAt(s, f, i) ==> i == 0 || OccursAt(s[1..], f, i - 1)
  {
    forall i | OccursAt(s, f, i) && i != 0
      ensures OccursAt(s[1..], f, i - 1)
    {
      assert s[1..][i - 1..i - 1 + |f|] == s[i..i + |f|];
    }
  }

  /** The number of white-space characters at the start of `s`. */
  function LeadingSpaces(s: string): (n: nat)
    ensures n <= |s|
    ensures forall i :: 0 <= i < n ==> IsSpace(s[i])
    ensures n == |s| || !IsSpace(s[n])
  {
    if |s| == 0 || !IsSpace(s[0]) then 0 else 1 + LeadingSpaces(s[1..])
  }

  /** Leading white space removed. */
  function TrimLeft(s: string): (r: string)
    ensures |r| <= |s| && r == s[|s| - |r|..]
    ensures r == [] || !IsSpace(r[0])
    ensures forall i :: 0 <= i < |s| - |r| ==> IsSpace(s[i])
  {
    s[LeadingSpaces(s)..]
  }

  /** Trailing white space removed. */
  function TrimRight(s: string): (r: string)
    ensures |r| <= |s| && r == s[..|r|]
    ensures r == [] || !IsSpace(r[|r| - 1])
    ensures forall i :: |r| <= i < |s| ==> IsSpace(s[i])
  {
    if |s| > 0 && IsSpace(s[|s| - 1]) then
      var r := TrimRight(s[..|s| - 1]);
      assert s[..|s| - 1][..|r|] == s[..|r|];
      r
    else s
  }

  /** `r` is `s[i..]` up to white space that `s` has around it. */
  predicate FramedBySpace(s: string, r: string, i: int) {
    && 0 <= i <= |s| - |r| && r == s[i..i + |r|]
    && (forall k :: 0 <= k < i ==> IsSpace(s[k]))
    && (forall k :: i + |r| <= k < |s| ==> IsSpace(s[k]))
  }

  /** No white space at either end. */
  predicate Stripped(s: string) {
    s == [] || (!IsSpace(s[0]) && !IsSpace(s[|s| - 1]))
  }

  /** Python's `str.strip()`: the white space at both ends removed, nothing else. */
  function Strip(s: string): (r: string)
    ensures Stripped(r)
    ensures exists i :: FramedBySpace(s, r, i)
  {
    var u := TrimLeft(s);
    var r := TrimRight(u);
    assert FramedBySpace(s, r, |s| - |u|);
    r
  }

  /** Length of the run of non-space characters at the start of `s`. */
  function TokenLength(s: string): (n: nat)
    ensures n <= |s|
    ensures forall i :: 0 <= i < n ==> !IsSpace(s[i])
    ensures n == |s| || IsSpace(s[n])
  {
    if |s| == 0 || IsSpace(s[0]) then 0 else 1 + TokenLength(s[1..])
  }

  /** Python's `str.split()` with no separator: the maximal runs of non-space characters. */
  function SplitWs(s: string): (r: seq<string>)
    ensures forall t :: t in r ==> IsToken(t)
    decreases |s|
  {
    var u := TrimLeft(s);
    if u == [] then []
    else
      var n := TokenLength(u);
      var token, rest := u[..n], SplitWs(u[n..]);
      assert IsToken(token) by { assert token[0] == u[0]; }
      [token] + rest
  }

  /** The tokens joined by single spaces: `" ".join(ts)`. */
  function JoinSpaced(ts: seq<string>): string {
    if |ts| == 0 then ""
    else if |ts| == 1 then ts[0]
    else ts[0] + " " + JoinSpaced(ts[1..])
  }

  lemma {:induction false} TokenLengthOfToken(t: string, rest: string)
    requires IsToken(t)
    requires rest == [] || IsSpace(rest[0])
    ensures TokenLength(t + rest) == |t|
    decreases |t|
  {
    if |t| > 1 {
      assert (t + rest)[1..] == t[1..] + rest;
      TokenLengthOfToken(t[1..], rest);
    } else {
      assert (t + rest)[1..] == rest;
    }
  }

  lemma SplitLeadingSpace(s: string)
    ensures SplitWs(" " + s) == SplitWs(s)
  {
    var u := " " + s;
    assert u[1..] == s;
    assert LeadingSpaces(u) == 1 + LeadingSpaces(s);
    assert TrimLeft(u) == TrimLeft(s);
  }

  lemma SplitLeadingToken(t: string, rest: string)
    requires IsToken(t)
    requires rest == [] || IsSpace(rest[0])
    ensures SplitWs(t + rest) == [t] + SplitWs(rest)
  {
    var s := t + rest;
    assert s[0] == t[0] && LeadingSpaces(s) == 0;
    assert TrimLeft(s) == s;
    TokenLengthOfToken(t, rest);
    assert s[..|t|] == t;
    assert s[|t|..] == rest;
  }

  /** Splitting a space-joined list of tokens gives the tokens back. */
  lemma {:induction false} SplitJoinRoundTrip(ts: seq<string>)
    requires forall i :: 0 <= i < |ts| ==> IsToken(ts[i])
    ensures SplitWs(JoinSpaced(ts)) == ts
  {
    if |ts| == 0 {
      SplitEmpty();
    } else if |ts| == 1 {
      SplitOne(ts[0]);
    } else {
      SplitJoinRoundTrip(ts[1..]);
      JoinSpacedFirst(ts);
      SplitTokenThenSpace(ts[0], JoinSpaced(ts[1..]));
      assert [ts[0]] + ts[1..] == ts;
    }
  }

  /** A joined list of two or more texts is its first text, a space and the rest joined. */
  lemma JoinSpacedFirst(ts: seq<string>)
    requires |ts| > 1
    ensures JoinSpaced(ts) == ts[0] + (" " + JoinSpaced(ts[1..]))
  {
    assert ts[0] + " " + JoinSpaced(ts[1..]) == ts[0] + (" " + JoinSpaced(ts[1..]));
  }

  lemma SplitEmpty()
    ensures SplitWs("") == []
  {
    assert TrimLeft("") == "";
  }

  /** A single token splits as itself. */
  lemma SplitOne(t: string)
    requires IsToken(t)
    ensures SplitWs(t) == [t]
  {
    assert LeadingSpaces(t) == 0;
    assert TrimLeft(t) == t;
    TokenLengthAll(t);
    assert t[..|t|] == t && t[|t|..] == [];
    SplitEmpty();
  }

  lemma {:induction false} TokenLengthAll(t: string)
    requires forall i :: 0 <= i < |t| ==> !IsSpace(t[i])
    ensures TokenLength(t) == |t|
  {
    if |t| > 0 {
      TokenLengthAll(t[1..]);
    }
  }

  /** A token, a space and a text split as the token followed by the text's tokens. */
  lemma SplitTokenThenSpace(t: string, s: string)
    requires IsToken(t)
    ensures SplitWs(t + (" " + s)) == [t] + SplitWs(s)
  {
    SplitLeadingToken(t, " " + s);
    SplitLeadingSpace(s);
  }


  /** Python's `s.replace("", rep)`: `rep` inserted before every character and at the end. */
  function ReplaceEmpty(s: string, rep: string): string {
    if |s| == 0 then rep else rep + [s[0]] + ReplaceEmpty(s[1..], rep)
  }

  function ReplaceFrom(s: string, pat: string, rep: string): string
    requires |pat| > 0
    decreases |s|
  {
    if StartsWith(s, pat) then rep + ReplaceFrom(s[|pat|..], pat, rep)
    else if |s| == 0 then ""
    else [s[0]] + ReplaceFrom(s[1..], pat, rep)
  }

  /** Python's `s.replace(pat, rep)`: every non-overlapping occurrence, left to right. */
  function Replace(s: string, pat: string, rep: string): string {
    if |pat| == 0 then ReplaceEmpty(s, rep) else ReplaceFrom(s, pat, rep)
  }

  /** A string in which `pat` does not occur is left as it is. */
  lemma {:induction false} ReplaceAbsent(s: string, pat: string, rep: string)
    requires |pat| > 0 && !Contains(s, pat)
    ensures Replace(s, pat, rep) == s
    decreases |s|
  {
    if |s| > 0 {
      ReplaceAbsent(s[1..], pat, rep);
      assert s == [s[0]] + s[1..];
    }
  }

  /** Replacing a text by itself changes nothing. */
  lemma {:induction false} ReplaceBySelf(s: string, pat: string)
    ensures Replace(s, pat, pat) == s
    decreases |s|
  {
    if |pat| == 0 {
      ReplaceEmptyNothing(s);
    } else if StartsWith(s, pat) {
      ReplaceBySelf(s[|pat|..], pat);
      assert s == s[..|pat|] + s[|pat|..];
    } else if |s| > 0 {
      ReplaceBySelf(s[1..], pat);
      assert s == [s[0]] + s[1..];
    }
  }

  lemma {:induction false} ReplaceEmptyNothing(s: string)
    ensures ReplaceEmpty(s, "") == s
  {
    if |s| > 0 {
      ReplaceEmptyNothing(s[1..]);
      assert s == [s[0]] + s[1..];
    }
  }

  function DigitChar(d: nat): (c: char)
    requires d < 10
    ensures IsDigit(c)
  {
    ('0' as int + d) as char
  }

  function DigitValue(c: char): nat
    requires IsDigit(c)
  {
    c as int - '0' as int
  }

  /** The number written by a string of decimal digits. */
  function DigitsValue(ds: string): nat
    requires forall i :: 0 <= i < |ds| ==> IsDigit(ds[i])
  {
    if |ds| == 0 then 0 else DigitsValue(ds[..|ds| - 1]) * 10 + DigitValue(ds[|ds| - 1])
  }

  /** Python's `str(n)` for a natural number. */
  function NatText(n: nat): (r: string)
    ensures IsDigits(r)
  {
    if n < 10 then [DigitChar(n)] else NatText(n / 10) + [DigitChar(n % 10)]
  }

  /** Python's `str(i)` for an int. */
  function IntText(i: int): (r: string)
    ensures |r| > 0 && !IsSpace(r[0]) && !IsSpace(r[|r| - 1])
  {
    if i < 0 then "-" + NatText(-i) else NatText(i)
  }

  /** Python's `int(s)` on a string: white space around an optional sign and decimal
      digits. None stands for the ValueError Python raises. */
  function ParseInt(s: string): Option<int> {
    var t := Strip(s);
    if |t| > 0 && (t[0] == '+' || t[0] == '-') && IsDigits(t[1..]) then
      var v: int := DigitsValue(t[1..]);
      Some(if t[0] == '-' then -v else v)
    else if IsDigits(t) then Some(DigitsValue(t))
    else None
  }

  lemma {:induction false} NatTextValue(n: nat)
    ensures DigitsValue(NatText(n)) == n
    decreases n
  {
    if n >= 10 {
      var p := NatText(n / 10);
      var r := p + [DigitChar(n % 10)];
      assert r[..|r| - 1] == p;
      NatTextValue(n / 10);
    }
  }

  lemma StripUnspaced(s: string)
    requires |s| > 0 && !IsSpace(s[0]) && !IsSpace(s[|s| - 1])
    ensures Strip(s) == s
  {
  }

  /** `int(str(i)) == i`: the decimal text of an int parses back to it. */
  lemma ParseIntText(i: int)
    ensures ParseInt(IntText(i)) == Some(i)
  {
    var t := IntText(i);
    StripUnspaced(t);
    if i < 0 {
      NatTextValue(-i);
      assert t[0] == '-' && t[1..] == NatText(-i);
      assert DigitsValue(t[1..]) == -i;
    } else {
      NatTextValue(i);
      assert t == NatText(i) && t[0] != '+' && t[0] != '-';
    }
  }
}
