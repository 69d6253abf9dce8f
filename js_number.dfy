/**
 * JavaScript's `Number(text)` conversion of a string, on exact reals: the
 * text is trimmed, the empty text is 0, and otherwise it must be a whole
 * numeric literal (decimal with optional sign, fraction and exponent;
 * `Infinity` with optional sign; or a 0x / 0o / 0b integer), else NaN.
 */
module JsNumber {
  import opened Js

  datatype Number = Finite(value: real) | PosInf | NegInf | NaN

  predicate IsDigit(c: char)
  {
    '0' <= c <= '9'
  }

  predicate AllDigits(s: string)
  {
    forall i :: 0 <= i < |s| ==> IsDigit(s[i])
  }

  /** The value of a run of decimal digits; the empty run is 0. */
  function DigitsValue(s: string): nat
    requires AllDigits(s)
    decreases |s|
  {
    if s == [] then 0 else DigitsValue(s[..|s| - 1]) * 10 + (s[|s| - 1] as int - '0' as int)
  }

  /** The value of one digit in base 2, 8 or 16, if it is one. */
  function RadixDigit(c: char, radix: nat): (d: Option<nat>)
    ensures d.Some? ==> d.value < radix
  {
    var v :=
      if '0' <= c <= '9' then c as int - '0' as int
      else if 'a' <= c <= 'f' then c as int - 'a' as int + 10
      else if 'A' <= c <= 'F' then c as int - 'A' as int + 10
      else 16;
    if v < radix then Some(v) else None
  }

  /** The value of a non-empty run of base-`radix` digits. */
  function RadixValue(s: string, radix: nat): Option<nat>
    decreases |s|
  {
    if s == [] then None
    else
      var d := RadixDigit(s[|s| - 1], radix);
      if d.None? then None
      else if |s| == 1 then d
      else
        match RadixValue(s[..|s| - 1], radix)
        case None => None
        case Some(v) => Some(v * radix + d.value)
  }

  function Pow10(n: nat): (p: nat)
    ensures p >= 1
  {
    if n == 0 then 1 else 10 * Pow10(n - 1)
  }

  /** The first position of `c` in `s`. */
  function IndexOf(s: string, c: char): (r: Option<nat>)
    ensures r.None? <==> c !in s
    ensures r.Some? ==> r.value < |s| && s[r.value] == c && c !in s[..r.value]
    decreases |s|
  {
    if s == [] then None
    else if s[0] == c then Some(0)
    else
      match IndexOf(s[1..], c)
      case None => None
      case Some(k) =>
        assert s[..k + 1] == [s[0]] + s[1..][..k];
        Some(k + 1)
  }

  /** Digits with at most one decimal point and at least one digit. */
  function Mantissa(m: string): Option<real>
  {
    match IndexOf(m, '.')
    case None => if m != "" && AllDigits(m) then Some(DigitsValue(m) as real) else None
    case Some(i) =>
      var whole := m[..i];
      var fraction := m[i + 1..];
      if (whole != "" || fraction != "") && AllDigits(whole) && AllDigits(fraction) then
        Some(DigitsValue(whole) as real + DigitsValue(fraction) as real / Pow10(|fraction|) as real)
      else None
  }

  /** An exponent: an optional sign and at least one digit. */
  function Exponent(e: string): Option<int>
  {
    var negative := e != "" && e[0] == '-';
    var digits := if e != "" && (e[0] == '-' || e[0] == '+') then e[1..] else e;
    if digits != "" && AllDigits(digits) then
      var v: int := DigitsValue(digits);
      Some(if negative then -v else v)
    else None
  }

  function Scale(x: real, e: int): real
  {
    if e >= 0 then x * Pow10(e) as real else x / Pow10(-e) as real
  }

  /** An unsigned decimal literal: a mantissa and an optional exponent. */
  function UnsignedDecimal(u: string): Option<real>
  {
    var lower := IndexOf(u, 'e');
    var upper := IndexOf(u, 'E');
    var cut :=
      if lower.Some? && (upper.None? || lower.value < upper.value) then lower else upper;
    match cut
    case None => Mantissa(u)
    case Some(i) =>
      match (Mantissa(u[..i]), Exponent(u[i + 1..]))
      case (Some(x), Some(e)) => Some(Scale(x, e))
      case _ => None
  }

  /** A 0x / 0o / 0b literal, when `t` starts with one of those prefixes. */
  function RadixPrefix(t: string): Option<nat>
  {
    if |t| >= 2 && t[0] == '0' then
      if t[1] == 'x' || t[1] == 'X' then Some(16)
      else if t[1] == 'o' || t[1] == 'O' then Some(8)
      else if t[1] == 'b' || t[1] == 'B' then Some(2)
      else None
    else None
  }

  /** A signed decimal literal. */
  function SignedDecimal(t: string): Number
  {
    var negative := t != "" && t[0] == '-';
    var u := if t != "" && (t[0] == '-' || t[0] == '+') then t[1..] else t;
    match UnsignedDecimal(u)
    case None => NaN
    case Some(x) => Finite(if negative then -x else x)
  }

  /** The conversion on trimmed text. */
  function ParseTrimmed(t: string): Number
  {
    if t == "" then Finite(0.0)
    else if t == "Infinity" || t == "+Infinity" then PosInf
    else if t == "-Infinity" then NegInf
    else if RadixPrefix(t).Some? then
      match RadixValue(t[2..], RadixPrefix(t).value)
      case None => NaN
      case Some(v) => Finite(v as real)
    else SignedDecimal(t)
  }

  /** Text that starts with a digit or a minus sign followed by a digit is
      read as a signed decimal literal. */
  lemma ParseDecimalStart(t: string)
    requires |t| >= 2 && (IsDigit(t[0]) || t[0] == '-') && IsDigit(t[1])
    ensures ParseTrimmed(t) == SignedDecimal(t)
  {
    assert t != "Infinity" && t != "+Infinity" by { assert t[0] != 'I' && t[0] != '+'; }
    assert t != "-Infinity" by { assert t[1] != 'I'; }
    assert RadixPrefix(t).None?;
  }

  /** `Number(s)` for a string `s`: white space around the literal is
      ignored, one character at a time from either end, and the text that
      remains is read as a numeric literal. */
  function ParseNumber(s: string): (n: Number)
    ensures n == ParseTrimmed(Trim(s))
    decreases |s|
  {
    if s != [] && IsSpace(s[0]) then
      TrimDropsLeadingSpace(s);
      ParseNumber(s[1..])
    else if s != [] && IsSpace(s[|s| - 1]) then
      TrimDropsTrailingSpace(s);
      ParseNumber(s[..|s| - 1])
    else
      TrimUnpadded(s);
      ParseTrimmed(s)
  }

  /** Dropping a white-space character at the front does not change the trim. */
  lemma TrimDropsLeadingSpace(s: string)
    requires s != [] && IsSpace(s[0])
    ensures Trim(s[1..]) == Trim(s)
  {
    var t := s[1..];
    var a, b := LeadingSpace(t), TrailingSpace(t);
    assert LeadingSpace(s) == a + 1;
    var bs := if b > 0 then b + 1 else 0;
    forall i | bs <= i < |s| ensures IsSpace(s[i]) {
      if i > 0 { assert s[i] == t[i - 1]; }
    }
    if b > 0 {
      assert s[b] == t[b - 1];
    }
    TrailingSpaceUnique(s, bs);
    if a < b {
      assert s[a + 1..b + 1] == t[a..b];
    }
  }

  /** Dropping a white-space character at the end of text that does not
      start with white space does not change the trim. */
  lemma TrimDropsTrailingSpace(s: string)
    requires s != [] && !IsSpace(s[0]) && IsSpace(s[|s| - 1])
    ensures Trim(s[..|s| - 1]) == Trim(s)
  {
    var t := s[..|s| - 1];
    assert TrailingSpace(s) == TrailingSpace(t);
    assert LeadingSpace(s) == 0;
    if t != [] {
      assert t[0] == s[0];
      assert LeadingSpace(t) == 0;
      var b := TrailingSpace(t);
      assert s[0..b] == t[0..b];
    }
  }

  /** `TrailingSpace` is the only position with its two properties. */
  lemma TrailingSpaceUnique(s: string, k: nat)
    requires k <= |s|
    requires forall i :: k <= i < |s| ==> IsSpace(s[i])
    requires k > 0 ==> !IsSpace(s[k - 1])
    ensures TrailingSpace(s) == k
  {
  }

  /** Text of white space only, the empty text included, reads as 0. */
  lemma {:induction false} BlankIsZero(s: string)
    requires AllSpace(s)
    ensures ParseNumber(s) == Finite(0.0)
    decreases |s|
  {
    if s != [] {
      assert IsSpace(s[0]);
      BlankIsZero(s[1..]);
    }
  }

  /** Digit text reads as its decimal value. */
  lemma DigitsAreDecimal(s: string)
    requires s != "" && AllDigits(s)
    ensures ParseNumber(s) == Finite(DigitsValue(s) as real)
  {
    assert IsDigit(s[0]) && IsDigit(s[|s| - 1]);
    DigitsParse(s);
  }

  lemma DigitsDecimal(s: string)
    requires s != "" && AllDigits(s)
    ensures UnsignedDecimal(s) == Some(DigitsValue(s) as real)
  {
    assert 'e' !in s && 'E' !in s && '.' !in s by {
      forall i | 0 <= i < |s| ensures IsDigit(s[i]) {}
    }
  }

  lemma DigitsParse(s: string)
    requires s != "" && AllDigits(s)
    ensures ParseTrimmed(s) == Finite(DigitsValue(s) as real)
  {
    DigitsDecimal(s);
    assert SignedDecimal(s) == Finite(DigitsValue(s) as real);
    if |s| >= 2 {
      ParseDecimalStart(s);
    } else {
      assert s != "Infinity" && s != "+Infinity" && s != "-Infinity";
    }
  }

  lemma {:induction false} DigitsOfNatText(n: nat)
    ensures AllDigits(NatText(n))
    ensures DigitsValue(NatText(n)) == n
    decreases n
  {
    if n >= 10 {
      DigitsOfNatText(n / 10);
      var t := NatText(n);
      assert t[..|t| - 1] == NatText(n / 10);
    }
  }

  /** `Number(String(n))` gives back the integer `n`. */
  lemma NumberOfIntText(n: int)
    ensures ParseNumber(IntText(n)) == Finite(n as real)
  {
    if n >= 0 {
      DigitsOfNatText(n);
      DigitsAreDecimal(NatText(n));
    } else {
      var d := NatText(-n);
      DigitsOfNatText(-n);
      var s := IntText(n);
      assert s == "-" + d && s[1..] == d;
      assert !IsSpace(s[|s| - 1]) by { assert s[|s| - 1] == d[|d| - 1]; }
      TrimUnpadded(s);
      DigitsDecimal(d);
      ParseDecimalStart(s);
      assert SignedDecimal(s) == Finite(-(DigitsValue(d) as real));
      assert ParseTrimmed(s) == Finite(-(DigitsValue(d) as real));
    }
  }
}
