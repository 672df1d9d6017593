/** Text the scripts write and read back: decimal integers (`str(int)`),
    zero-padded fields (`f"{m:02d}"`), ISO dates, substring tests and
    splitting on a separator (`str.split`). */
module Text {
  import opened Wrappers
  import Calendar

  predicate IsDigit(c: char) {
    '0' <= c <= '9'
  }

  predicate AllDigits(s: string) {
    forall i :: 0 <= i < |s| ==> IsDigit(s[i])
  }

  function DigitChar(d: int): (c: char)
    requires 0 <= d <= 9
    ensures IsDigit(c)
  {
    "0123456789"[d]
  }

  function DigitValue(c: char): (d: int)
    requires IsDigit(c)
    ensures 0 <= d <= 9
  {
    c as int - '0' as int
  }

  lemma DigitValueOfChar(d: int)
    requires 0 <= d <= 9
    ensures DigitValue(DigitChar(d)) == d
  {
  }

  /** `str(n)` for a natural number: shortest decimal, no leading zeros. */
  function NatToString(n: nat): (s: string)
    ensures |s| >= 1 && AllDigits(s)
    decreases n
  {
    if n < 10 then [DigitChar(n)] else NatToString(n / 10) + [DigitChar(n % 10)]
  }

  /** The value of a string of decimal digits. */
  function DigitsValue(s: string): nat
    requires AllDigits(s)
    decreases |s|
  {
    if s == [] then 0 else DigitsValue(s[..|s| - 1]) * 10 + DigitValue(s[|s| - 1])
  }

  /** `int(s)` on a string of digits: `None` where Python raises ValueError. */
  function ParseNat(s: string): (r: Option<nat>)
    ensures r.Some? <==> s != [] && AllDigits(s)
  {
    if s != [] && AllDigits(s) then Some(DigitsValue(s)) else None
  }

  lemma {:induction false} NatDigitsValue(n: nat)
    ensures DigitsValue(NatToString(n)) == n
    decreases n
  {
    if n >= 10 {
      var s := NatToString(n);
      assert s[..|s| - 1] == NatToString(n / 10);
      DigitValueOfChar(n % 10);
      NatDigitsValue(n / 10);
    } else {
      DigitValueOfChar(n);
    }
  }

  /** Reading back a written natural number gives the number. */
  lemma NatRoundTrip(n: nat)
    ensures ParseNat(NatToString(n)) == Some(n)
  {
    NatDigitsValue(n);
  }

  /** `str(i)` for any integer. */
  function IntToString(i: int): (s: string)
    ensures |s| >= 1
  {
    if i < 0 then "-" + NatToString(-i) else NatToString(i)
  }

  /** `int(s)` on an optionally signed decimal string. */
  function ParseInt(s: string): Option<int> {
    if |s| > 0 && s[0] == '-' then
      var n := ParseNat(s[1..]);
      if n.Some? then Some(-(n.value as int)) else None
    else
      var n := ParseNat(s);
      if n.Some? then Some(n.value as int) else None
  }

  lemma IntRoundTrip(i: int)
    ensures ParseInt(IntToString(i)) == Some(i)
  {
    var s := IntToString(i);
    if i < 0 {
      var n := NatToString(-i);
      assert s == "-" + n;
      assert s[0] == '-' && s[1..] == n;
      NatRoundTrip(-i);
    } else {
      var n := NatToString(i);
      assert s == n && AllDigits(n);
      assert IsDigit(s[0]);
      NatRoundTrip(i);
    }
  }

  /** Written integers never contain a comma or a line break. */
  lemma IntToStringChars(i: int)
    ensures ',' !in IntToString(i) && '\n' !in IntToString(i)
  {
    var s := IntToString(i);
    if i < 0 {
      assert s == "-" + NatToString(-i);
      assert forall k :: 1 <= k < |s| ==> IsDigit(s[k]);
    } else {
      assert AllDigits(s);
    }
  }

  /** `f"{n:02d}"` for 0 <= n <= 99. */
  function Pad2(n: int): (s: string)
    requires 0 <= n <= 99
    ensures |s| == 2 && AllDigits(s)
  {
    [DigitChar(n / 10), DigitChar(n % 10)]
  }

  /** `f"{n:04d}"` for 0 <= n <= 9999. */
  function Pad4(n: int): (s: string)
    requires 0 <= n <= 9999
    ensures |s| == 4 && AllDigits(s)
  {
    [DigitChar(n / 1000), DigitChar(n / 100 % 10), DigitChar(n / 10 % 10), DigitChar(n % 10)]
  }

  /** Four padded digits are the two-digit hundreds and the two-digit rest. */
  lemma Pad4Halves(n: int)
    requires 0 <= n <= 9999
    ensures Pad4(n) == Pad2(n / 100) + Pad2(n % 100)
  {
    var h, r := n / 100, n % 100;
    assert n == 100 * h + r && 0 <= r < 100;
    DigitsOfHundreds(n, h, r);
  }

  lemma DigitsOfHundreds(n: int, h: int, r: int)
    requires 0 <= n <= 9999 && n == 100 * h + r && 0 <= r < 100
    ensures n / 1000 == h / 10 && n / 100 == h && n / 10 % 10 == r / 10 && n % 10 == r % 10
  {
  }

  /** Distinct years in 0..9999 are padded differently. */
  lemma Pad4Injective(a: int, b: int)
    requires 0 <= a <= 9999 && 0 <= b <= 9999 && Pad4(a) == Pad4(b)
    ensures a == b
  {
    Pad4Halves(a);
    Pad4Halves(b);
    assert Pad4(a)[..2] == Pad2(a / 100) && Pad4(b)[..2] == Pad2(b / 100);
    assert Pad4(a)[2..] == Pad2(a % 100) && Pad4(b)[2..] == Pad2(b % 100);
    Pad2RoundTrip(a / 100);
    Pad2RoundTrip(b / 100);
    Pad2RoundTrip(a % 100);
    Pad2RoundTrip(b % 100);
  }

  /** A name made of a fixed prefix, a four-digit year, a two-digit month,
      `_`, a word and a fixed suffix determines the year, the month and
      the word. */
  lemma DatedNameFields(prefix: string, suffix: string, y1: int, m1: int, w1: string, y2: int, m2: int, w2: string)
    requires 0 <= y1 <= 9999 && 0 <= y2 <= 9999 && 0 <= m1 <= 99 && 0 <= m2 <= 99
    requires prefix + Pad4(y1) + Pad2(m1) + "_" + w1 + suffix == prefix + Pad4(y2) + Pad2(m2) + "_" + w2 + suffix
    ensures y1 == y2 && m1 == m2 && w1 == w2
  {
    var a := prefix + Pad4(y1) + Pad2(m1) + "_" + w1 + suffix;
    var b := prefix + Pad4(y2) + Pad2(m2) + "_" + w2 + suffix;
    var p := |prefix|;
    assert |w1| == |w2|;
    assert a[p..p + 4] == Pad4(y1) && b[p..p + 4] == Pad4(y2);
    assert a[p + 4..p + 6] == Pad2(m1) && b[p + 4..p + 6] == Pad2(m2);
    assert a[p + 7..p + 7 + |w1|] == w1 && b[p + 7..p + 7 + |w2|] == w2;
    Pad4Injective(y1, y2);
    Pad2RoundTrip(m1);
    Pad2RoundTrip(m2);
  }

  /** Two digits read back as a number. */
  function TwoDigits(s: string): (r: Option<int>)
    requires |s| == 2
    ensures r.Some? ==> 0 <= r.value <= 99
  {
    if AllDigits(s) then Some(DigitValue(s[0]) * 10 + DigitValue(s[1])) else None
  }

  lemma Pad2RoundTrip(n: int)
    requires 0 <= n <= 99
    ensures TwoDigits(Pad2(n)) == Some(n)
  {
    DigitValueOfChar(n / 10);
    DigitValueOfChar(n % 10);
  }

  /** A year as numpy prints it: four digits for years 0..9999, the plain
      decimal otherwise. */
  function YearText(y: int): (s: string)
    ensures 0 <= y <= 9999 ==> s == Pad4(y)
  {
    if 0 <= y <= 9999 then Pad4(y) else IntToString(y)
  }

  /** A date as numpy prints it, `YYYY-MM-DD`. */
  function FormatDate(d: Calendar.Date): (s: string)
    requires Calendar.ValidDate(d)
    ensures 0 <= d.year <= 9999 ==> |s| == 10
  {
    YearText(d.year) + "-" + Pad2(d.month) + "-" + Pad2(d.day)
  }

  /** Unsigned decimal `digits[.digits]`, at least one digit in all. */
  function ParseUnsignedDecimal(s: string): (r: Option<real>)
    ensures r.Some? ==> r.value >= 0.0
  {
    var k := IndexOf(s, '.');
    if k < 0 then
      if s != [] && AllDigits(s) then Some(DigitsValue(s) as real) else None
    else
      var whole := s[..k];
      var frac := s[k + 1..];
      if AllDigits(whole) && AllDigits(frac) && |whole| + |frac| > 0 then
        Some(DigitsValue(whole) as real + DigitsValue(frac) as real / Pow10(|frac|))
      else None
  }

  function Pow10(n: nat): (p: real)
    ensures p >= 1.0
  {
    if n == 0 then 1.0 else 10.0 * Pow10(n - 1)
  }

  /** What Python's `float` makes of a string: a finite number, a NaN or
      a signed infinity. */
  datatype Float = Finite(value: real) | NaN | Infinite(negative: bool)

  /** The characters `float` strips as white space: tab, line feed,
      vertical tab, form feed, carriage return, the separators 0x1C..0x1F,
      the space and the Unicode spaces and line separators. */
  predicate IsSpace(c: char) {
    var n := c as int;
    9 <= n <= 13 || 28 <= n <= 32 || n == 0x85 || n == 0xA0 || n == 0x1680 ||
    0x2000 <= n <= 0x200A || n == 0x2028 || n == 0x2029 || n == 0x202F ||
    n == 0x205F || n == 0x3000
  }

  /** `s` without its leading white space. */
  function TrimStart(s: string): string {
    if s != [] && IsSpace(s[0]) then TrimStart(s[1..]) else s
  }

  /** `s` without its trailing white space. */
  function TrimEnd(s: string): string {
    if s != [] && IsSpace(s[|s| - 1]) then TrimEnd(s[..|s| - 1]) else s
  }

  /** `TrimStart` removes a run of white space and stops at the first
      other character. */
  lemma {:induction false} TrimStartShape(s: string)
    ensures var t := TrimStart(s);
      |t| <= |s| && t == s[|s| - |t|..] &&
      (forall k :: 0 <= k < |s| - |t| ==> IsSpace(s[k])) &&
      (t != [] ==> !IsSpace(t[0]))
  {
    if s != [] && IsSpace(s[0]) {
      var t := TrimStart(s[1..]);
      TrimStartShape(s[1..]);
      assert TrimStart(s) == t;
      assert s[1..][|s| - 1 - |t|..] == s[|s| - |t|..];
      forall k | 0 <= k < |s| - |t|
        ensures IsSpace(s[k])
      {
        if k > 0 {
          assert s[k] == s[1..][k - 1];
        }
      }
    }
  }

  /** `TrimEnd` removes a run of white space and stops at the last other
      character. */
  lemma {:induction false} TrimEndShape(s: string)
    ensures var t := TrimEnd(s);
      |t| <= |s| && t == s[..|t|] &&
      (forall k :: |t| <= k < |s| ==> IsSpace(s[k])) &&
      (t != [] ==> !IsSpace(t[|t| - 1]))
  {
    if s != [] && IsSpace(s[|s| - 1]) {
      TrimEndShape(s[..|s| - 1]);
    }
  }

  /** `s.strip()`. */
  function Strip(s: string): string {
    TrimEnd(TrimStart(s))
  }

  /** `c` in lower case when it is an ASCII capital letter. */
  function LowerChar(c: char): char {
    if 'A' <= c <= 'Z' then (c as int + 32) as char else c
  }

  /** `s` spells the lower-case `word` in any mix of cases. */
  predicate SpellsInAnyCase(s: string, word: string) {
    |s| == |word| && forall i :: 0 <= i < |s| ==> LowerChar(s[i]) == word[i]
  }

  predicate IsExponentMark(c: char) {
    c == 'e' || c == 'E'
  }

  /** First position of `e` or `E` in `s`, or -1. */
  function ExponentIndex(s: string): (k: int)
    ensures -1 <= k < |s|
    ensures k >= 0 ==> IsExponentMark(s[k])
    ensures forall j :: 0 <= j < |s| && (k < 0 || j < k) ==> !IsExponentMark(s[j])
  {
    if |s| == 0 then -1
    else if IsExponentMark(s[0]) then 0
    else
      var k := ExponentIndex(s[1..]);
      if k < 0 then -1 else k + 1
  }

  /** The exponent after `e`: an optionally signed string of digits. */
  function ParseExponent(s: string): (r: Option<int>)
    ensures r.Some? <==> ParseNat(if |s| > 0 && (s[0] == '-' || s[0] == '+') then s[1..] else s).Some?
  {
    var signed := |s| > 0 && (s[0] == '-' || s[0] == '+');
    var n := ParseNat(if signed then s[1..] else s);
    if n.None? then None
    else if signed && s[0] == '-' then Some(-(n.value as int))
    else Some(n.value as int)
  }

  /** `m` times ten to the power `e`. */
  function Scale(m: real, e: int): (r: real)
    ensures m >= 0.0 ==> r >= 0.0
  {
    if e >= 0 then m * Pow10(e) else m / Pow10(-e)
  }

  /** An unsigned number: `digits[.digits]`, at least one digit in all,
      then an optional exponent `e[sign]digits` (`e` or `E`). */
  function ParseUnsignedNumber(s: string): (r: Option<real>)
    ensures r.Some? ==> r.value >= 0.0
  {
    var k := ExponentIndex(s);
    if k < 0 then ParseUnsignedDecimal(s)
    else
      var m := ParseUnsignedDecimal(s[..k]);
      var e := ParseExponent(s[k + 1..]);
      if m.None? || e.None? then None
      else Some(Scale(m.value, e.value))
  }

  /** `float(s)`: white space around the text is ignored, a sign may
      precede the number, `nan`, `inf` and `infinity` are read in any
      case, and `None` stands for the ValueError Python raises. */
  function ParseFloat(s: string): Option<Float> {
    ParseSigned(Strip(s))
  }

  /** `float` on stripped text: an optional sign, then the body. */
  function ParseSigned(t: string): Option<Float> {
    if |t| > 0 && t[0] == '-' then
      var f := ParseBody(t[1..]);
      if f.None? then None else Some(Negate(f.value))
    else if |t| > 0 && t[0] == '+' then ParseBody(t[1..])
    else ParseBody(t)
  }

  /** An unsigned body: a NaN or infinity spelled in any case, or a number. */
  function ParseBody(body: string): Option<Float> {
    if SpellsInAnyCase(body, "nan") then Some(NaN)
    else if SpellsInAnyCase(body, "inf") || SpellsInAnyCase(body, "infinity") then Some(Infinite(false))
    else
      var u := ParseUnsignedNumber(body);
      if u.None? then None else Some(Finite(u.value))
  }

  /** The reading of a text preceded by a minus sign. */
  function Negate(f: Float): (r: Float)
    ensures f.Finite? <==> r.Finite?
    ensures f.Finite? ==> r.value == -f.value
    ensures f.NaN? <==> r.NaN?
    ensures f.Infinite? ==> r == Infinite(!f.negative)
  {
    match f
    case Finite(x) => Finite(-x)
    case NaN => NaN
    case Infinite(n) => Infinite(!n)
  }

  lemma NoDotInDigits(s: string)
    requires AllDigits(s)
    ensures IndexOf(s, '.') == -1
  {
    var k := IndexOf(s, '.');
    assert k >= 0 ==> IsDigit(s[k]);
  }

  /** A written natural number reads back as that number. */
  lemma DecimalOfNat(n: nat)
    ensures ParseFloat(NatToString(n)) == Some(Finite(n as real))
  {
    DigitsRead(NatToString(n));
    NatDigitsValue(n);
  }

  /** A string of digits reads as the number it spells. */
  lemma DigitsRead(s: string)
    requires s != [] && AllDigits(s)
    ensures ParseFloat(s) == Some(Finite(DigitsValue(s) as real))
  {
    PlainNumber(s);
    assert ExponentIndex(s) == -1;
    NoDotInDigits(s);
    assert ParseUnsignedNumber(s) == ParseUnsignedDecimal(s);
  }

  lemma UnsignedDecimalOfNat(n: nat)
    ensures ParseUnsignedDecimal(NatToString(n)) == Some(n as real)
  {
    NoDotInDigits(NatToString(n));
    NatDigitsValue(n);
  }

  /** A text that starts and ends with a digit reads as an unsigned number. */
  lemma PlainNumber(s: string)
    requires s != [] && IsDigit(s[0]) && IsDigit(s[|s| - 1])
    ensures ParseFloat(s) == var u := ParseUnsignedNumber(s); if u.None? then None else Some(Finite(u.value))
  {
    StripUnpadded(s);
    assert IsDigit(LowerChar(s[0]));
    assert ParseSigned(s) == ParseBody(s);
  }

  /** Scientific notation: a written natural number, `e`, then a written
      exponent reads as the number times ten to the power of the exponent. */
  lemma ScientificOfNat(m: nat, e: int)
    ensures ParseFloat(NatToString(m) + "e" + IntToString(e)) == Some(Finite(Scale(m as real, e)))
  {
    var ms := NatToString(m);
    var es := IntToString(e);
    var s := ms + "e" + es;
    IntToStringEndsInDigit(e);
    ScientificShape(ms, es);
    PlainNumber(s);
    UnsignedDecimalOfNat(m);
    ExponentOfInt(e);
    NumberWithExponent(s, |ms|, m as real, e);
  }

  /** A written integer ends in a digit. */
  lemma IntToStringEndsInDigit(i: int)
    ensures IsDigit(IntToString(i)[|IntToString(i)| - 1])
  {
    var n := NatToString(if i < 0 then -i else i);
    if i < 0 {
      assert IntToString(i) == "-" + n;
    }
    assert IsDigit(n[|n| - 1]);
  }

  /** Digits, `e` and a text ending in a digit: digits at both ends, with
      the first `e` between the two parts. */
  lemma ScientificShape(ms: string, es: string)
    requires |ms| >= 1 && AllDigits(ms) && |es| >= 1 && IsDigit(es[|es| - 1])
    ensures var s := ms + "e" + es;
      IsDigit(s[0]) && IsDigit(s[|s| - 1]) && ExponentIndex(s) == |ms|
      && s[..|ms|] == ms && s[|ms| + 1..] == es
  {
    var s := ms + "e" + es;
    assert s == ms + ("e" + es);
    assert s[0] == ms[0] && s[|s| - 1] == es[|es| - 1];
    ExponentIndexAfterDigits(ms, "e" + es);
    assert s[..|ms|] == ms;
    assert s[|ms| + 1..] == es;
  }

  /** The reading of a mantissa and an exponent around the first `e`. */
  lemma NumberWithExponent(s: string, k: int, mantissa: real, exponent: int)
    requires ExponentIndex(s) == k >= 0
    requires ParseUnsignedDecimal(s[..k]) == Some(mantissa)
    requires ParseExponent(s[k + 1..]) == Some(exponent)
    ensures ParseUnsignedNumber(s) == Some(Scale(mantissa, exponent))
  {
  }

  /** A written integer reads back as an exponent. */
  lemma ExponentOfInt(e: int)
    ensures ParseExponent(IntToString(e)) == Some(e)
  {
    var es := IntToString(e);
    if e < 0 {
      assert es[0] == '-';
      assert es[1..] == NatToString(-e);
      NatRoundTrip(-e);
    } else {
      assert IsDigit(es[0]);
      NatRoundTrip(e);
    }
  }

  /** The first exponent mark after a run of digits is where the digits end. */
  lemma {:induction false} ExponentIndexAfterDigits(ds: string, rest: string)
    requires AllDigits(ds) && rest != [] && IsExponentMark(rest[0])
    ensures ExponentIndex(ds + rest) == |ds|
    decreases |ds|
  {
    if ds != [] {
      assert (ds + rest)[1..] == ds[1..] + rest;
      ExponentIndexAfterDigits(ds[1..], rest);
    } else {
      assert ds + rest == rest;
    }
  }

  /** A text with white space around it strips to the text. */
  lemma StripAround(pre: string, s: string, post: string)
    requires forall k :: 0 <= k < |pre| ==> IsSpace(pre[k])
    requires forall k :: 0 <= k < |post| ==> IsSpace(post[k])
    requires s != [] && !IsSpace(s[0]) && !IsSpace(s[|s| - 1])
    ensures Strip(pre + s + post) == s
  {
    var x := pre + s + post;
    var t := TrimStart(x);
    TrimStartShape(x);
    var d := |x| - |t|;
    assert x[|pre|] == s[0];
    assert d == |pre|;
    assert t == s + post;
    var u := TrimEnd(t);
    TrimEndShape(t);
    assert t[|s| - 1] == s[|s| - 1];
    assert |u| == |s|;
    assert u == s;
  }

  /** White space around a text does not change what `float` reads. */
  lemma PaddedText(pre: string, s: string, post: string)
    requires forall k :: 0 <= k < |pre| ==> IsSpace(pre[k])
    requires forall k :: 0 <= k < |post| ==> IsSpace(post[k])
    requires s != [] && !IsSpace(s[0]) && !IsSpace(s[|s| - 1])
    ensures ParseFloat(pre + s + post) == ParseFloat(s)
  {
    StripAround(pre, s, post);
    StripUnpadded(s);
  }

  /** `nan`, in any mix of cases and with any sign, is NaN. */
  lemma NanInAnyCase(sign: string, s: string)
    requires sign == "" || sign == "-" || sign == "+"
    requires SpellsInAnyCase(s, "nan")
    ensures ParseFloat(sign + s) == Some(NaN)
  {
    var x := sign + s;
    assert LowerChar(s[0]) == 'n' && LowerChar(s[2]) == 'n';
    assert x[0] == s[0] || x[0] == sign[0];
    assert x[|x| - 1] == s[2];
    StripUnpadded(x);
    if sign != "" {
      assert x[1..] == s;
      assert ParseFloat(x) == ParseSigned(x);
    } else {
      assert x == s;
    }
  }

  /** A minus sign negates a finite reading and flips an infinite one. */
  lemma NegatedText(s: string)
    requires s != [] && s[0] != '-' && s[0] != '+' && !IsSpace(s[0]) && !IsSpace(s[|s| - 1])
    ensures ParseFloat("-" + s) == if ParseFloat(s).None? then None else Some(Negate(ParseFloat(s).value))
  {
    var x := "-" + s;
    assert !IsSpace(x[0]) && x[|x| - 1] == s[|s| - 1];
    StripUnpadded(x);
    StripUnpadded(s);
    assert x[1..] == s;
    assert ParseFloat(x) == ParseSigned(x);
    assert ParseFloat(s) == ParseSigned(s) == ParseBody(s);
  }

  /** A text that neither starts nor ends with white space strips to itself. */
  lemma StripUnpadded(s: string)
    requires s != [] && !IsSpace(s[0]) && !IsSpace(s[|s| - 1])
    ensures Strip(s) == s
  {
    assert TrimStart(s) == s;
    assert TrimEnd(s) == s;
  }

  /** The month and day as `MM-DD`. */
  function MonthDay(d: Calendar.Date): (s: string)
    requires Calendar.ValidDate(d)
    ensures |s| == 5
  {
    Pad2(d.month) + "-" + Pad2(d.day)
  }

  /** Characters 5 to 10 of a formatted date are its `MM-DD`. */
  lemma FormatDateSlice(d: Calendar.Date)
    requires Calendar.ValidDate(d) && 0 <= d.year <= 9999
    ensures FormatDate(d)[5..10] == MonthDay(d)
  {
    assert YearText(d.year) == Pad4(d.year);
  }

  /** Reads an `MM-DD` string (`strptime("2001-" + s, "%Y-%m-%d")` for the
      two-digit form the scripts produce): `None` on a malformed string. */
  function ParseMonthDay(s: string): (r: Option<(int, int)>)
    ensures r.Some? ==> 0 <= r.value.0 <= 99 && 0 <= r.value.1 <= 99
  {
    if |s| == 5 && s[2] == '-' then
      match (TwoDigits(s[..2]), TwoDigits(s[3..]))
      case (Some(m), Some(dd)) => Some((m, dd))
      case _ => None
    else None
  }

  lemma ParseMonthDayOfDate(d: Calendar.Date)
    requires Calendar.ValidDate(d)
    ensures ParseMonthDay(MonthDay(d)) == Some((d.month, d.day))
  {
    var s := MonthDay(d);
    assert s[..2] == Pad2(d.month);
    assert s[3..] == Pad2(d.day);
    Pad2RoundTrip(d.month);
    Pad2RoundTrip(d.day);
  }

  /** `sub` occurs in `s` at position `i`. */
  predicate OccursAt(s: string, sub: string, i: int) {
    0 <= i && i + |sub| <= |s| && s[i..i + |sub|] == sub
  }

  /** Python's `sub in s`. */
  function Contains(s: string, sub: string): (b: bool)
    ensures b <==> exists i :: OccursAt(s, sub, i)
    decreases |s|
  {
    if |s| < |sub| then false
    else if s[..|sub|] == sub then assert OccursAt(s, sub, 0); true
    else
      var r := Contains(s[1..], sub);
      OccursShift(s, sub);
      r
  }

  lemma OccursShift(s: string, sub: string)
    requires |s| >= 1 && !OccursAt(s, sub, 0)
    ensures (exists i :: OccursAt(s[1..], sub, i)) <==> (exists i :: OccursAt(s, sub, i))
  {
    forall i | OccursAt(s[1..], sub, i) ensures OccursAt(s, sub, i + 1) {
      assert s[i + 1..i + 1 + |sub|] == s[1..][i..i + |sub|];
    }
    forall i | OccursAt(s, sub, i) ensures OccursAt(s[1..], sub, i - 1) {
      assert i >= 1;
      var j := i - 1;
      assert s[1..][j..j + |sub|] == s[j + 1..j + 1 + |sub|];
    }
  }

  /** First position of `c` in `s`, or -1. */
  function IndexOf(s: string, c: char): (k: int)
    ensures -1 <= k < |s|
    ensures k >= 0 ==> s[k] == c && c !in s[..k]
    ensures k == -1 ==> c !in s
  {
    if |s| == 0 then -1
    else if s[0] == c then 0
    else
      var k := IndexOf(s[1..], c);
      if k < 0 then -1 else (assert s[..k + 1] == [s[0]] + s[1..][..k]; k + 1)
  }

  /** `s.split(c)`: the pieces between occurrences of `c`. */
  function Split(s: string, c: char): (parts: seq<string>)
    ensures |parts| >= 1
    decreases |s|
  {
    var k := IndexOf(s, c);
    if k < 0 then [s] else [s[..k]] + Split(s[k + 1..], c)
  }

  /** `c.join(parts)`. */
  function Join(parts: seq<string>, c: char): string {
    if |parts| == 0 then ""
    else if |parts| == 1 then parts[0]
    else parts[0] + [c] + Join(parts[1..], c)
  }

  lemma IndexOfJoined(p: string, c: char, rest: string)
    requires c !in p
    ensures IndexOf(p + [c] + rest, c) == |p|
    decreases |p|
  {
    if |p| > 0 {
      assert (p + [c] + rest)[1..] == p[1..] + [c] + rest;
      IndexOfJoined(p[1..], c, rest);
    }
  }

  /** Splitting what was joined gives back the pieces, provided no piece
      contains the separator. */
  lemma {:induction false} SplitJoin(parts: seq<string>, c: char)
    requires |parts| >= 1
    requires forall i :: 0 <= i < |parts| ==> c !in parts[i]
    ensures Split(Join(parts, c), c) == parts
    decreases |parts|
  {
    if |parts| > 1 {
      var s := Join(parts, c);
      var rest := Join(parts[1..], c);
      assert s == parts[0] + [c] + rest;
      IndexOfJoined(parts[0], c, rest);
      assert s[..|parts[0]|] == parts[0];
      assert s[|parts[0]| + 1..] == rest;
      assert Split(s, c) == [parts[0]] + Split(rest, c);
      SplitJoin(parts[1..], c);
      assert parts == [parts[0]] + parts[1..];
    }
  }

  /** Appending one more piece extends the joined text by the separator and
      the piece. */
  lemma JoinSnoc(parts: seq<string>, c: char, p: string)
    requires |parts| >= 1
    ensures Join(parts + [p], c) == Join(parts, c) + [c] + p
    decreases |parts|
  {
    if |parts| > 1 {
      assert (parts + [p])[1..] == parts[1..] + [p];
      JoinSnoc(parts[1..], c, p);
    } else {
      assert (parts + [p])[1..] == [p];
    }
  }
}
