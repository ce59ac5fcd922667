/**
  The few JavaScript string built-ins that the application relies on,
  written out over `string` (a sequence of UTF-16 code units in JavaScript,
  a sequence of chars here):

  - `Number.prototype.toString()` on an integer value (decimal, with a
    leading '-' for negative values);
  - `String.prototype.padStart(width, fill)` with a one-character fill;
  - `String.prototype.trim()`, which strips JavaScript white space and
    line terminators from both ends.
 */
module JsText {

  // ---------------------------------------------------------------------
  // Decimal digits
  // ---------------------------------------------------------------------

  predicate IsDigit(c: char) {
    '0' <= c <= '9'
  }

  predicate IsDigits(s: string) {
    forall i :: 0 <= i < |s| ==> IsDigit(s[i])
  }

  /** A digit string without a superfluous leading zero: "0", "7", "42", not "042". */
  predicate IsCanonical(s: string) {
    |s| >= 1 && IsDigits(s) && (s == "0" || s[0] != '0')
  }

  function DigitValue(c: char): (d: nat)
    requires IsDigit(c)
    ensures d < 10
  {
    c as int - '0' as int
  }

  function DigitChar(d: nat): (c: char)
    requires d < 10
    ensures IsDigit(c) && DigitValue(c) == d
  {
    ('0' as int + d) as char
  }

  lemma DigitCharOfValue(c: char)
    requires IsDigit(c)
    ensures DigitChar(DigitValue(c)) == c
  {
  }

  /** The value of a digit string read in base ten; the empty string reads as 0. */
  function DecimalValue(s: string): nat
    requires IsDigits(s)
  {
    if s == [] then 0 else DecimalValue(s[..|s| - 1]) * 10 + DigitValue(s[|s| - 1])
  }

  /** The decimal spelling of a natural number, as `toString()` gives it. */
  function NatToDecimal(n: nat): string {
    if n < 10 then [DigitChar(n)] else NatToDecimal(n / 10) + [DigitChar(n % 10)]
  }

  /** The spelling is canonical, "0" only for zero, and one digit exactly below ten. */
  lemma {:induction false} NatToDecimalCanonical(n: nat)
    ensures var s := NatToDecimal(n);
            IsCanonical(s) && (s[0] == '0' <==> n == 0) && (n < 10 <==> |s| == 1)
  {
    if n >= 10 {
      NatToDecimalCanonical(n / 10);
      var p := NatToDecimal(n / 10);
      var s := NatToDecimal(n);
      assert s == p + [DigitChar(n % 10)];
      assert s[0] == p[0];
    }
  }

  /** Reading back the spelling of `n` gives `n`. */
  lemma {:induction false} DecimalOfNatToDecimal(n: nat)
    ensures IsDigits(NatToDecimal(n)) && DecimalValue(NatToDecimal(n)) == n
  {
    NatToDecimalCanonical(n);
    var s := NatToDecimal(n);
    if n < 10 {
      assert s[..0] == [];
    } else {
      assert s[..|s| - 1] == NatToDecimal(n / 10);
      DecimalOfNatToDecimal(n / 10);
    }
  }

  lemma {:induction false} CanonicalPositive(s: string)
    requires IsCanonical(s) && s != "0"
    ensures DecimalValue(s) >= 1
  {
    if |s| == 1 {
      assert s[..0] == [];
    } else {
      var p := s[..|s| - 1];
      assert p[0] == s[0];
      CanonicalPositive(p);
    }
  }

  /** Every canonical digit string is the spelling of its own value. */
  lemma {:induction false} NatToDecimalOfDecimal(s: string)
    requires IsCanonical(s)
    ensures NatToDecimal(DecimalValue(s)) == s
  {
    var c := s[|s| - 1];
    DigitCharOfValue(c);
    if |s| == 1 {
      assert s[..0] == [];
    } else {
      var p := s[..|s| - 1];
      assert p[0] == s[0];
      CanonicalPositive(p);
      NatToDecimalOfDecimal(p);
      var n := DecimalValue(s);
      assert n / 10 == DecimalValue(p) && n % 10 == DigitValue(c);
      assert s == p + [c];
    }
  }

  /** `Number.prototype.toString()` on an integer value. */
  function IntToString(i: int): string {
    if i < 0 then "-" + NatToDecimal(-i) else NatToDecimal(i)
  }

  /**
    A non-negative value is spelled canonically; a negative one is a minus
    sign followed by the canonical spelling of its magnitude.
   */
  lemma IntToStringShape(i: int)
    ensures var s := IntToString(i);
            && (i >= 0 ==> IsCanonical(s) && DecimalValue(s) == i)
            && (i < 0 ==> |s| >= 2 && s[0] == '-' && IsCanonical(s[1..]) && DecimalValue(s[1..]) == -i)
  {
    if i < 0 {
      NatToDecimalCanonical(-i);
      DecimalOfNatToDecimal(-i);
      assert IntToString(i)[1..] == NatToDecimal(-i);
    } else {
      NatToDecimalCanonical(i);
      DecimalOfNatToDecimal(i);
    }
  }

  // ---------------------------------------------------------------------
  // padStart
  // ---------------------------------------------------------------------

  /** `s.padStart(width, fill)` for a one-character `fill`. */
  function PadStart(s: string, width: nat, fill: char): string
    decreases width - |s|
  {
    if |s| >= width then s else PadStart([fill] + s, width, fill)
  }

  /** The result is `s` preceded by just enough `fill` to reach `width`, and never shorter than `s`. */
  lemma {:induction false} PadStartShape(s: string, width: nat, fill: char)
    ensures var r := PadStart(s, width, fill);
            && |r| == (if |s| >= width then |s| else width)
            && r[|r| - |s|..] == s
            && forall i :: 0 <= i < |r| - |s| ==> r[i] == fill
    decreases width - |s|
  {
    if |s| < width {
      PadStartShape([fill] + s, width, fill);
      var r := PadStart(s, width, fill);
      assert r[|r| - |s|..] == r[|r| - |s| - 1..][1..];
    }
  }

  // ---------------------------------------------------------------------
  // trim
  // ---------------------------------------------------------------------

  /**
    The characters `trim()` removes: the WhiteSpace and LineTerminator code
    points of ECMAScript (section 12.2 and 12.3 of ECMA-262): tab, vertical
    tab, form feed, space, no-break space, zero-width no-break space, the
    Unicode space separators, line feed, carriage return, line and
    paragraph separator.
   */
  predicate IsJsWhiteSpace(c: char) {
    c == '\t' || c == '\n' || c == '\U{000B}' || c == '\U{000C}' || c == '\r' || c == ' '
    || c == '\U{00A0}' || c == '\U{1680}' || ('\U{2000}' <= c <= '\U{200A}')
    || c == '\U{2028}' || c == '\U{2029}' || c == '\U{202F}' || c == '\U{205F}'
    || c == '\U{3000}' || c == '\U{FEFF}'
  }

  predicate AllWhiteSpace(s: string) {
    forall i :: 0 <= i < |s| ==> IsJsWhiteSpace(s[i])
  }

  /** Neither starts nor ends with white space (the empty string qualifies). */
  predicate IsTrimmed(t: string) {
    t == [] || (!IsJsWhiteSpace(t[0]) && !IsJsWhiteSpace(t[|t| - 1]))
  }

  /** Drops white space from the front. */
  function TrimStart(s: string): string {
    if s != [] && IsJsWhiteSpace(s[0]) then TrimStart(s[1..]) else s
  }

  /** Drops white space from the back. */
  function TrimEnd(s: string): string {
    if s != [] && IsJsWhiteSpace(s[|s| - 1]) then TrimEnd(s[..|s| - 1]) else s
  }

  /** `s.trim()`. */
  function Trim(s: string): string {
    TrimEnd(TrimStart(s))
  }

  /** TrimStart leaves a suffix of `s` that does not start with white space, and drops only white space. */
  lemma {:induction false} TrimStartSlice(s: string)
    ensures var r := TrimStart(s);
            |r| <= |s| && r == s[|s| - |r|..]
            && AllWhiteSpace(s[..|s| - |r|]) && (r == [] || !IsJsWhiteSpace(r[0]))
  {
    if s != [] && IsJsWhiteSpace(s[0]) {
      TrimStartSlice(s[1..]);
      var r := TrimStart(s);
      assert s[..|s| - |r|] == [s[0]] + s[1..][..|s| - 1 - |r|];
    }
  }

  /** TrimEnd leaves a prefix of `s` that does not end with white space, and drops only white space. */
  lemma {:induction false} TrimEndSlice(s: string)
    ensures var r := TrimEnd(s);
            |r| <= |s| && r == s[..|r|]
            && AllWhiteSpace(s[|r|..]) && (r == [] || !IsJsWhiteSpace(r[|r| - 1]))
  {
    if s != [] && IsJsWhiteSpace(s[|s| - 1]) {
      var p := s[..|s| - 1];
      TrimEndSlice(p);
      var r := TrimEnd(s);
      assert s[|r|..] == p[|r|..] + [s[|s| - 1]];
    }
  }

  /** How much white space `trim()` strips from the front of `s`. */
  function LeadingWhiteSpace(s: string): (n: nat)
    ensures n <= |s|
  {
    TrimStartSlice(s);
    |s| - |TrimStart(s)|
  }

  /**
    `s.trim()` is the slice of `s` that starts after the leading white space
    and stops before the trailing white space, and is itself trimmed.
   */
  lemma TrimSlice(s: string)
    ensures var r, k := Trim(s), LeadingWhiteSpace(s);
            IsTrimmed(r) && k + |r| <= |s| && r == s[k..k + |r|]
            && AllWhiteSpace(s[..k]) && AllWhiteSpace(s[k + |r|..])
  {
    var a := TrimStart(s);
    TrimStartSlice(s);
    TrimEndSlice(a);
    var r := TrimEnd(a);
    var k := |s| - |a|;
    assert r == s[k..k + |r|];
    assert s[k + |r|..] == a[|r|..];
  }

  /**
    The declarative reading of `trim()`: any slice of `s` that has only white
    space around it and is itself trimmed is `Trim(s)`. With the ensures of
    `Trim`, this says `Trim` computes exactly that slice.
   */
  lemma TrimUnique(s: string, i: nat, j: nat)
    requires i <= j <= |s|
    requires AllWhiteSpace(s[..i]) && AllWhiteSpace(s[j..]) && IsTrimmed(s[i..j])
    ensures Trim(s) == s[i..j]
  {
    var r := Trim(s);
    var k := LeadingWhiteSpace(s);
    var e := k + |r|;
    TrimSlice(s);
    if i < j {
      // s[i] and s[j - 1] are not white space, so they lie inside r's slice.
      assert s[i] == s[i..j][0] && s[j - 1] == s[i..j][j - i - 1];
      WhiteSpaceBefore(s, k, i);
      WhiteSpaceFrom(s, e, j - 1);
    }
    if r != [] {
      // likewise s[k] and s[e - 1] lie inside the slice i..j.
      assert s[k] == r[0] && s[e - 1] == r[|r| - 1];
      WhiteSpaceBefore(s, i, k);
      WhiteSpaceFrom(s, j, e - 1);
    }
    assert r == [] ==> i == j;
    assert r != [] ==> k == i && e == j;
  }

  lemma WhiteSpaceBefore(s: string, m: nat, p: nat)
    requires m <= |s| && AllWhiteSpace(s[..m])
    ensures p < m ==> IsJsWhiteSpace(s[p])
  {
    if p < m { assert s[..m][p] == s[p]; }
  }

  lemma WhiteSpaceFrom(s: string, m: nat, p: nat)
    requires m <= |s| && AllWhiteSpace(s[m..])
    ensures m <= p < |s| ==> IsJsWhiteSpace(s[p])
  {
    if m <= p < |s| { assert s[m..][p - m] == s[p]; }
  }

  lemma TrimIdempotent(s: string)
    ensures Trim(Trim(s)) == Trim(s)
  {
    var t := Trim(s);
    TrimSlice(s);
    assert t[..0] == [] && t[|t|..] == [] && t[0..|t|] == t;
    TrimUnique(t, 0, |t|);
  }
}
