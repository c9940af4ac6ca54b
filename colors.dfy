/** `hex_color_to_rgba`: a colour code such as `#1a2b3c` turned into the CSS text
    `rgba(26,43,60,<alpha>)`. The alpha text (`str(opacity / 100)`) is a float and
    is taken as given. */
module Colors {
  import opened Wrappers
  import opened Text

  predicate IsHexDigit(c: char) {
    '0' <= c <= '9' || 'a' <= c <= 'f' || 'A' <= c <= 'F'
  }

  /** A non-empty run of hex digits. */
  predicate IsHexDigits(s: string) {
    |s| > 0 && forall i :: 0 <= i < |s| ==> IsHexDigit(s[i])
  }

  function HexValue(c: char): (v: nat)
    requires IsHexDigit(c)
    ensures v < 16
  {
    if '0' <= c <= '9' then c as int - '0' as int
    else if 'a' <= c <= 'f' then c as int - 'a' as int + 10
    else c as int - 'A' as int + 10
  }

  /** The number written by a string of hex digits. */
  function HexDigitsValue(ds: string): nat
    requires forall i :: 0 <= i < |ds| ==> IsHexDigit(ds[i])
  {
    if |ds| == 0 then 0 else HexDigitsValue(ds[..|ds| - 1]) * 16 + HexValue(ds[|ds| - 1])
  }

  /** Python's `int(s, 16)` on the short slices the conversion takes: white space
      around an optional sign and hex digits; None stands for ValueError. (A `0x`
      prefix or an underscore needs a digit on each side, so no text of two
      characters or fewer has one.) */
  function ParseHex(s: string): Option<int> {
    var t := Strip(s);
    if |t| > 0 && (t[0] == '+' || t[0] == '-') && IsHexDigits(t[1..]) then
      var v: int := HexDigitsValue(t[1..]);
      Some(if t[0] == '-' then -v else v)
    else if IsHexDigits(t) then Some(HexDigitsValue(t))
    else None
  }

  /** Python's `s[i:j]`: the bounds are clamped to the string. */
  function Slice(s: string, i: nat, j: nat): (r: string)
    requires i <= j
    ensures |s| <= i ==> r == ""
    ensures j <= |s| ==> r == s[i..j]
    ensures i <= |s| <= j ==> r == s[i..]
  {
    if |s| <= i then "" else if j <= |s| then s[i..j] else s[i..]
  }

  /** The CSS text `rgba(r,g,b,alpha)`. */
  function Rgba(r: int, g: int, b: int, alpha: string): string {
    "rgba(" + IntText(r) + "," + IntText(g) + "," + IntText(b) + "," + alpha + ")"
  }

  /** The three components read from characters 0-1, 2-3 and 4-5. */
  function Components(hex: string): (r: Result<(int, int, int), string>)
    ensures r.Failure? ==> r.error == "ValueError"
    ensures r.Success? <==>
      ParseHex(Slice(hex, 0, 2)).Some? && ParseHex(Slice(hex, 2, 4)).Some? && ParseHex(Slice(hex, 4, 6)).Some?
  {
    match (ParseHex(Slice(hex, 0, 2)), ParseHex(Slice(hex, 2, 4)), ParseHex(Slice(hex, 4, 6)))
    case (Some(r), Some(g), Some(b)) => Success((r, g, b))
    case _ => Failure("ValueError")
  }

  /** The CSS text of the components read from `hex`, or the ValueError. */
  function RgbaOf(hex: string, alpha: string): (r: Result<string, string>)
    ensures r.Failure? <==> Components(hex).Failure?
  {
    match Components(hex)
    case Failure(e) => Failure(e)
    case Success((r, g, b)) => Success(Rgba(r, g, b, alpha))
  }

  /** The three-digit expansion as written: each digit doubled, with a `$`
      before each copy. */
  function DollarExpanded(hex: string): (r: string)
    requires |hex| == 3
  {
    ['$', hex[0], '$', hex[0], '$', hex[1], '$', hex[1], '$', hex[2], '$', hex[2]]
  }

  /** `hex_color_to_rgba` as written: every `#` dropped, then a three-character
      code expanded with `$` signs, then the components parsed. */
  function HexColorToRgba(hexColor: string, alpha: string): Result<string, string> {
    var hex := Replace(hexColor, "#", "");
    RgbaOf(if |hex| == 3 then DollarExpanded(hex) else hex, alpha)
  }

  /** The first character of a text that does not start with white space
      survives `strip`. */
  lemma StripKeepsHead(s: string)
    requires |s| > 0 && !IsSpace(s[0])
    ensures |Strip(s)| > 0 && Strip(s)[0] == s[0]
  {
    var r := Strip(s);
    var i :| FramedBySpace(s, r, i);
  }

  /** A `$` followed by anything is not a number in base 16. */
  lemma DollarNotHex(c: char)
    ensures ParseHex(['$', c]) == None
  {
    assert !IsSpace('$');
    StripKeepsHead(['$', c]);
  }

  /** The three-digit short form as written always fails: `int("$1", 16)`
      raises ValueError, so `#123` never converts. */
  lemma ShortFormFails(hexColor: string, alpha: string)
    requires |Replace(hexColor, "#", "")| == 3
    ensures HexColorToRgba(hexColor, alpha) == Failure("ValueError")
  {
    var hex := Replace(hexColor, "#", "");
    var h := DollarExpanded(hex);
    assert Slice(h, 0, 2) == ['$', hex[0]];
    DollarNotHex(hex[0]);
  }

  /** The evident intent: each digit of a three-digit code doubled, so that `#abc`
      reads as `#aabbcc`. */
  function Doubled(hex: string): (r: string)
    requires |hex| == 3
    ensures |r| == 6
    ensures forall i :: 0 <= i < 6 ==> r[i] == hex[i / 2]
  {
    [hex[0], hex[0], hex[1], hex[1], hex[2], hex[2]]
  }

  /** `hex_color_to_rgba` with the short form doubled as intended. */
  function CorrectedHexColorToRgba(hexColor: string, alpha: string): Result<string, string> {
    var hex := Replace(hexColor, "#", "");
    RgbaOf(if |hex| == 3 then Doubled(hex) else hex, alpha)
  }

  /** Two hex digits are the number 16 times the first plus the second. */
  lemma PairDigits(s: string)
    requires |s| == 2 && IsHexDigit(s[0]) && IsHexDigit(s[1])
    ensures IsHexDigits(s) && HexDigitsValue(s) == 16 * HexValue(s[0]) + HexValue(s[1])
  {
    var a := s[..1];
    assert a[..0] == [] && a[0] == s[0];
    assert HexDigitsValue(a) == HexValue(s[0]);
  }

  /** Two hex digits read as one component. */
  lemma PairValue(s: string)
    requires |s| == 2 && IsHexDigit(s[0]) && IsHexDigit(s[1])
    ensures ParseHex(s) == Some(16 * HexValue(s[0]) + HexValue(s[1]))
  {
    assert !IsSpace(s[0]) && !IsSpace(s[1]);
    StripUnspaced(s);
    PairDigits(s);
  }

  /** Removing the `#` from `#` and hex digits leaves the digits. */
  lemma DropHash(digits: string)
    requires forall i :: 0 <= i < |digits| ==> IsHexDigit(digits[i])
    ensures Replace("#" + digits, "#", "") == digits
  {
    var s := "#" + digits;
    assert StartsWith(s, "#");
    assert s[1..] == digits;
    forall k | 0 <= k < |digits|
      ensures !OccursAt(digits, "#", k)
    {
      assert digits[k..k + 1][0] == digits[k];
    }
    ReplaceAbsent(digits, "#", "");
  }

  /** With the correction, `#abc` is the colour `#aabbcc`: each component is the
      digit times 17. */
  lemma ShortFormDoubles(a: char, b: char, c: char, alpha: string)
    requires IsHexDigit(a) && IsHexDigit(b) && IsHexDigit(c)
    ensures CorrectedHexColorToRgba("#" + [a, b, c], alpha) == CorrectedHexColorToRgba("#" + [a, a, b, b, c, c], alpha)
    ensures CorrectedHexColorToRgba("#" + [a, b, c], alpha) == Success(Rgba(17 * HexValue(a), 17 * HexValue(b), 17 * HexValue(c), alpha))
  {
    var h := [a, a, b, b, c, c];
    DropHash([a, b, c]);
    DropHash(h);
    assert Doubled([a, b, c]) == h;
    assert CorrectedHexColorToRgba("#" + [a, b, c], alpha) == RgbaOf(h, alpha);
    assert CorrectedHexColorToRgba("#" + h, alpha) == RgbaOf(h, alpha);
    var x, y, z := HexValue(a), HexValue(b), HexValue(c);
    assert HexValue(h[0]) == x && HexValue(h[1]) == x;
    assert HexValue(h[2]) == y && HexValue(h[3]) == y;
    assert HexValue(h[4]) == z && HexValue(h[5]) == z;
    SixComponents(h, 17 * x, 17 * y, 17 * z);
  }

  /** Characters `i` and `i + 1` of a code read as one component. */
  lemma SliceComponent(digits: string, i: nat, v: int)
    requires i + 2 <= |digits| && IsHexDigit(digits[i]) && IsHexDigit(digits[i + 1])
    requires v == 16 * HexValue(digits[i]) + HexValue(digits[i + 1])
    ensures ParseHex(Slice(digits, i, i + 2)) == Some(v)
  {
    var p := Slice(digits, i, i + 2);
    assert p[0] == digits[i] && p[1] == digits[i + 1];
    PairValue(p);
  }

  /** Six hex digits read as three components, `r`, `g` and `b`. */
  lemma SixComponents(digits: string, r: int, g: int, b: int)
    requires |digits| == 6 && forall i :: 0 <= i < 6 ==> IsHexDigit(digits[i])
    requires r == 16 * HexValue(digits[0]) + HexValue(digits[1])
    requires g == 16 * HexValue(digits[2]) + HexValue(digits[3])
    requires b == 16 * HexValue(digits[4]) + HexValue(digits[5])
    ensures Components(digits) == Success((r, g, b))
  {
    assert ParseHex(Slice(digits, 0, 2)) == Some(r) by { SliceComponent(digits, 0, r); }
    assert ParseHex(Slice(digits, 2, 4)) == Some(g) by { SliceComponent(digits, 2, g); }
    assert ParseHex(Slice(digits, 4, 6)) == Some(b) by { SliceComponent(digits, 4, b); }
    ComponentsOf(digits, r, g, b);
  }

  /** Three components that parse are the components of the code. */
  lemma ComponentsOf(hex: string, r: int, g: int, b: int)
    requires ParseHex(Slice(hex, 0, 2)) == Some(r)
    requires ParseHex(Slice(hex, 2, 4)) == Some(g)
    requires ParseHex(Slice(hex, 4, 6)) == Some(b)
    ensures Components(hex) == Success((r, g, b))
  {
  }

  /** A six-digit code converts to its three components, as written and as
      corrected alike. */
  lemma LongFormComponents(digits: string, r: int, g: int, b: int, alpha: string)
    requires |digits| == 6 && forall i :: 0 <= i < 6 ==> IsHexDigit(digits[i])
    requires r == 16 * HexValue(digits[0]) + HexValue(digits[1])
    requires g == 16 * HexValue(digits[2]) + HexValue(digits[3])
    requires b == 16 * HexValue(digits[4]) + HexValue(digits[5])
    ensures HexColorToRgba("#" + digits, alpha) == Success(Rgba(r, g, b, alpha))
    ensures CorrectedHexColorToRgba("#" + digits, alpha) == Success(Rgba(r, g, b, alpha))
  {
    DropHash(digits);
    assert HexColorToRgba("#" + digits, alpha) == RgbaOf(digits, alpha);
    assert CorrectedHexColorToRgba("#" + digits, alpha) == RgbaOf(digits, alpha);
    SixComponents(digits, r, g, b);
  }
}
