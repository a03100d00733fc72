/** Python's int() on a decimal string and str() on an int, as the modules
    use them to read numbers given as text. */
module PyInt {
  import opened Common

  predicate IsDigit(c: char) {
    '0' <= c <= '9'
  }

  predicate AllDigits(s: string) {
    forall i :: 0 <= i < |s| ==> IsDigit(s[i])
  }

  /** The code point of the digit zero of the run of ten decimal digits
      (general category Nd, Unicode 15.0) beyond ASCII that holds `c`, or
      -1 when `c` is in none. Each run holds the digits zero to nine at
      consecutive code points; the runs are looked up ten at a time. */
  function WideZero(c: int): (z: int)
    ensures z == -1 || (0x660 <= z <= c < z + 10)
  {
    if c < 0xCE6 then ZeroAmong0(c)
    else if c < 0x1946 then ZeroAmong1(c)
    else if c < 0xA900 then ZeroAmong2(c)
    else if c < 0x11136 then ZeroAmong3(c)
    else if c < 0x11C50 then ZeroAmong4(c)
    else if c < 0x1D7EC then ZeroAmong5(c)
    else ZeroAmong6(c)
  }

  function ZeroAmong0(c: int): (z: int)
    ensures z == -1 || (0x660 <= z <= c < z + 10)
  {
    if 0x660 <= c < 0x66A then 0x660
    else if 0x6F0 <= c < 0x6FA then 0x6F0
    else if 0x7C0 <= c < 0x7CA then 0x7C0
    else if 0x966 <= c < 0x970 then 0x966
    else if 0x9E6 <= c < 0x9F0 then 0x9E6
    else if 0xA66 <= c < 0xA70 then 0xA66
    else if 0xAE6 <= c < 0xAF0 then 0xAE6
    else if 0xB66 <= c < 0xB70 then 0xB66
    else if 0xBE6 <= c < 0xBF0 then 0xBE6
    else if 0xC66 <= c < 0xC70 then 0xC66
    else -1
  }

  function ZeroAmong1(c: int): (z: int)
    ensures z == -1 || (0xCE6 <= z <= c < z + 10)
  {
    if 0xCE6 <= c < 0xCF0 then 0xCE6
    else if 0xD66 <= c < 0xD70 then 0xD66
    else if 0xDE6 <= c < 0xDF0 then 0xDE6
    else if 0xE50 <= c < 0xE5A then 0xE50
    else if 0xED0 <= c < 0xEDA then 0xED0
    else if 0xF20 <= c < 0xF2A then 0xF20
    else if 0x1040 <= c < 0x104A then 0x1040
    else if 0x1090 <= c < 0x109A then 0x1090
    else if 0x17E0 <= c < 0x17EA then 0x17E0
    else if 0x1810 <= c < 0x181A then 0x1810
    else -1
  }

  function ZeroAmong2(c: int): (z: int)
    ensures z == -1 || (0x1946 <= z <= c < z + 10)
  {
    if 0x1946 <= c < 0x1950 then 0x1946
    else if 0x19D0 <= c < 0x19DA then 0x19D0
    else if 0x1A80 <= c < 0x1A8A then 0x1A80
    else if 0x1A90 <= c < 0x1A9A then 0x1A90
    else if 0x1B50 <= c < 0x1B5A then 0x1B50
    else if 0x1BB0 <= c < 0x1BBA then 0x1BB0
    else if 0x1C40 <= c < 0x1C4A then 0x1C40
    else if 0x1C50 <= c < 0x1C5A then 0x1C50
    else if 0xA620 <= c < 0xA62A then 0xA620
    else if 0xA8D0 <= c < 0xA8DA then 0xA8D0
    else -1
  }

  function ZeroAmong3(c: int): (z: int)
    ensures z == -1 || (0xA900 <= z <= c < z + 10)
  {
    if 0xA900 <= c < 0xA90A then 0xA900
    else if 0xA9D0 <= c < 0xA9DA then 0xA9D0
    else if 0xA9F0 <= c < 0xA9FA then 0xA9F0
    else if 0xAA50 <= c < 0xAA5A then 0xAA50
    else if 0xABF0 <= c < 0xABFA then 0xABF0
    else if 0xFF10 <= c < 0xFF1A then 0xFF10
    else if 0x104A0 <= c < 0x104AA then 0x104A0
    else if 0x10D30 <= c < 0x10D3A then 0x10D30
    else if 0x11066 <= c < 0x11070 then 0x11066
    else if 0x110F0 <= c < 0x110FA then 0x110F0
    else -1
  }

  function ZeroAmong4(c: int): (z: int)
    ensures z == -1 || (0x11136 <= z <= c < z + 10)
  {
    if 0x11136 <= c < 0x11140 then 0x11136
    else if 0x111D0 <= c < 0x111DA then 0x111D0
    else if 0x112F0 <= c < 0x112FA then 0x112F0
    else if 0x11450 <= c < 0x1145A then 0x11450
    else if 0x114D0 <= c < 0x114DA then 0x114D0
    else if 0x11650 <= c < 0x1165A then 0x11650
    else if 0x116C0 <= c < 0x116CA then 0x116C0
    else if 0x11730 <= c < 0x1173A then 0x11730
    else if 0x118E0 <= c < 0x118EA then 0x118E0
    else if 0x11950 <= c < 0x1195A then 0x11950
    else -1
  }

  function ZeroAmong5(c: int): (z: int)
    ensures z == -1 || (0x11C50 <= z <= c < z + 10)
  {
    if 0x11C50 <= c < 0x11C5A then 0x11C50
    else if 0x11D50 <= c < 0x11D5A then 0x11D50
    else if 0x11DA0 <= c < 0x11DAA then 0x11DA0
    else if 0x11F50 <= c < 0x11F5A then 0x11F50
    else if 0x16A60 <= c < 0x16A6A then 0x16A60
    else if 0x16AC0 <= c < 0x16ACA then 0x16AC0
    else if 0x16B50 <= c < 0x16B5A then 0x16B50
    else if 0x1D7CE <= c < 0x1D7D8 then 0x1D7CE
    else if 0x1D7D8 <= c < 0x1D7E2 then 0x1D7D8
    else if 0x1D7E2 <= c < 0x1D7EC then 0x1D7E2
    else -1
  }

  function ZeroAmong6(c: int): (z: int)
    ensures z == -1 || (0x1D7EC <= z <= c < z + 10)
  {
    if 0x1D7EC <= c < 0x1D7F6 then 0x1D7EC
    else if 0x1D7F6 <= c < 0x1D800 then 0x1D7F6
    else if 0x1E140 <= c < 0x1E14A then 0x1E140
    else if 0x1E2F0 <= c < 0x1E2FA then 0x1E2F0
    else if 0x1E4F0 <= c < 0x1E4FA then 0x1E4F0
    else if 0x1E950 <= c < 0x1E95A then 0x1E950
    else if 0x1FBF0 <= c < 0x1FBFA then 0x1FBF0
    else -1
  }

  /** The decimal value CPython gives a character when it reads a number:
      the digit value of a Unicode decimal digit, None for anything else. */
  function DecimalDigit(c: char): (r: Option<nat>)
    ensures r.Some? ==> r.value < 10
    ensures c <= '~' ==> r == if IsDigit(c) then Some(c as int - '0' as int) else None
  {
    if IsDigit(c) then Some(c as int - '0' as int)
    else
      var z := WideZero(c as int);
      if z < 0 then None else Some(c as int - z)
  }

  predicate IsDecimal(c: char) {
    DecimalDigit(c).Some?
  }

  /** The body of a decimal literal as `int()` reads it: decimal digits,
      where single underscores may separate two digits. */
  predicate Grouped(ds: string) {
    && ds != []
    && IsDecimal(ds[0]) && IsDecimal(ds[|ds| - 1])
    && forall i :: 0 <= i < |ds| ==> IsDecimal(ds[i]) || (ds[i] == '_' && 0 < i < |ds| - 1 && IsDecimal(ds[i + 1]))
  }

  /** The value of a string of decimal digits, underscores skipped. It is
      read only for grouped bodies, where every other character is a digit. */
  function DigitsValue(ds: string): nat
  {
    if ds == [] then 0
    else
      var c := ds[|ds| - 1];
      if c == '_' then DigitsValue(ds[..|ds| - 1])
      else 10 * DigitsValue(ds[..|ds| - 1]) + (match DecimalDigit(c) case Some(v) => v case None => 0)
  }

  /** The default limit on the number of digits `int()` reads and `str()`
      writes (`sys.get_int_max_str_digits()`, Python 3.11 and later). */
  const MaxStrDigits := 4300

  /** The number of digits in a literal body, underscores not counted. */
  function DigitCount(ds: string): (n: nat)
    ensures n <= |ds|
  {
    if ds == [] then 0
    else DigitCount(ds[..|ds| - 1]) + (if ds[|ds| - 1] == '_' then 0 else 1)
  }

  /** Python's `int(s)` with base 10: surrounding whitespace, an optional
      sign, then decimal digits (any Unicode decimal digit) with single
      underscores between them, at most MaxStrDigits of them. `None` is the
      ValueError. */
  function ToInt(s: string): (r: Option<int>)
    ensures r.Some? <==> var t := Strip(s);
      && t != ""
      && var digits := if t[0] == '-' || t[0] == '+' then t[1..] else t;
         Grouped(digits) && DigitCount(digits) <= MaxStrDigits
  {
    ReadSigned(Strip(s))
  }

  /** `int()` on a string with nothing left to strip: an optional sign, then
      the body. */
  function ReadSigned(t: string): Option<int> {
    if t == "" then None
    else
      var digits := if t[0] == '-' || t[0] == '+' then t[1..] else t;
      match ReadBody(digits)
      case None => None
      case Some(v) => Some(if t[0] == '-' then -(v as int) else v)
  }

  /** The value of a literal body, None unless it is grouped and within the
      digit limit. */
  function ReadBody(digits: string): Option<nat> {
    if Grouped(digits) && DigitCount(digits) <= MaxStrDigits then Some(DigitsValue(digits))
    else None
  }

  /** The decimal spelling of a natural number, most significant digit first. */
  function NatToDecimal(n: nat): (r: string)
    ensures r != "" && AllDigits(r)
  {
    if n < 10 then [('0' as int + n) as char]
    else NatToDecimal(n / 10) + [('0' as int + n % 10) as char]
  }

  /** Python's `str(i)` for an int. */
  function IntToDecimal(i: int): string {
    if i < 0 then "-" + NatToDecimal(-i) else NatToDecimal(i)
  }

  /** ASCII digits form a grouped body with no underscore. */
  lemma AsciiGrouped(ds: string)
    requires ds != [] && AllDigits(ds)
    ensures Grouped(ds)
  {
    forall i | 0 <= i < |ds|
      ensures IsDecimal(ds[i])
    {
    }
  }

  lemma {:induction false} DecimalValue(n: nat)
    ensures AllDigits(NatToDecimal(n)) && Grouped(NatToDecimal(n))
    ensures DigitsValue(NatToDecimal(n)) == n
  {
    var s := NatToDecimal(n);
    AsciiGrouped(s);
    if n >= 10 {
      DecimalValue(n / 10);
      assert s[..|s| - 1] == NatToDecimal(n / 10);
    }
  }

  /** Without underscores every character is a digit. */
  lemma {:induction false} DigitCountAll(ds: string)
    requires AllDigits(ds)
    ensures DigitCount(ds) == |ds|
  {
    if ds != [] {
      DigitCountAll(ds[..|ds| - 1]);
    }
  }

  /** A string of at most MaxStrDigits ASCII digits reads as its value. */
  lemma ReadsDigits(d: string)
    requires d != [] && AllDigits(d) && |d| <= MaxStrDigits
    ensures AllDigits(d) && Grouped(d)
    ensures ToInt(d) == Some(DigitsValue(d))
  {
    AsciiGrouped(d);
    DigitCountAll(d);
    assert IsDigit(d[0]) && IsDigit(d[|d| - 1]);
    StripNoSpace(d);
    assert ToInt(d) == ReadSigned(d);
    assert ReadBody(d) == Some(DigitsValue(d));
  }

  /** A grouped body after a minus sign, with nothing to strip, reads as the
      negated value of the body. */
  lemma ReadsMinus(d: string)
    requires Grouped(d) && DigitCount(d) <= MaxStrDigits
    ensures ReadSigned("-" + d) == Some(-(DigitsValue(d) as int))
  {
    var t := "-" + d;
    assert t[0] == '-' && t[1..] == d;
  }

  /** The same string after a minus sign reads as the negated value. */
  lemma ReadsNegated(d: string)
    requires d != [] && AllDigits(d) && |d| <= MaxStrDigits
    ensures AllDigits(d) && Grouped(d)
    ensures ToInt("-" + d) == Some(-(DigitsValue(d) as int))
  {
    AsciiGrouped(d);
    DigitCountAll(d);
    var s := "-" + d;
    assert s[0] == '-' && IsDigit(d[|d| - 1]) && s[|s| - 1] == d[|d| - 1];
    StripNoSpace(s);
    ReadsMinus(d);
    assert ToInt(s) == ReadSigned(s);
  }

  /** `int(str(i)) == i` for every int `str()` can write. */
  lemma ToIntRoundTrip(i: int)
    requires |NatToDecimal(if i < 0 then -i else i)| <= MaxStrDigits
    ensures ToInt(IntToDecimal(i)) == Some(i)
  {
    var n: nat := if i < 0 then -i else i;
    DecimalValue(n);
    if i < 0 {
      ReadsNegated(NatToDecimal(n));
    } else {
      ReadsDigits(NatToDecimal(n));
    }
  }

  /** Underscores between digits are skipped: `int("1_024") == 1024`. */
  lemma UnderscoreGrouping()
    ensures ToInt("1_024") == Some(1024)
  {
    var s := "1_024";
    assert s[0] == '1' && s[4] == '4';
    StripNoSpace(s);
    GroupedThousand();
    ThousandValue();
    assert ReadBody(s) == Some(1024);
    assert ToInt(s) == ReadSigned(s);
  }

  lemma GroupedThousand()
    ensures Grouped("1_024")
  {
    var s := "1_024";
    assert s[0] == '1' && s[1] == '_' && s[2] == '0' && s[3] == '2' && s[4] == '4';
    forall i | 0 <= i < |s|
      ensures IsDecimal(s[i]) || (s[i] == '_' && 0 < i < |s| - 1 && IsDecimal(s[i + 1]))
    {
      assert i == 0 || i == 1 || i == 2 || i == 3 || i == 4;
    }
  }

  lemma ThousandValue()
    ensures DigitsValue("1_024") == 1024
  {
    var s := "1_024";
    assert s[..4] == "1_02" && s[..3] == "1_0" && s[..2] == "1_" && s[..1] == "1";
    assert "1"[..0] == "";
    assert DigitsValue("1") == 1;
    assert DigitsValue("1_") == 1;
    assert DigitsValue("1_0") == 10;
    assert "1_02"[3] == '2' && "1_02"[..3] == "1_0";
    assert DigitsValue("1_02") == 102;
    assert s[4] == '4';
  }

  /** An underscore that does not stand between two digits is a ValueError. */
  lemma MisplacedUnderscore()
    ensures ToInt("1__024") == None && ToInt("_1") == None && ToInt("1_") == None
  {
    var doubled, leading, trailing := "1__024", "_1", "1_";
    assert doubled[0] == '1' && doubled[1] == '_' && doubled[2] == '_' && doubled[5] == '4';
    assert leading[0] == '_' && leading[1] == '1';
    assert trailing[0] == '1' && trailing[1] == '_';
    StripNoSpace(doubled);
    StripNoSpace(leading);
    StripNoSpace(trailing);
    assert !IsDecimal(doubled[2]);
  }

  /** Non-ASCII decimal digits read like ASCII ones: Arabic-Indic one, two
      is twelve. */
  lemma UnicodeDigits()
    ensures ToInt("\U{661}\U{662}") == Some(12)
  {
    var s := "\U{661}\U{662}";
    assert s[0] == '\U{661}' && s[1] == '\U{662}';
    assert DecimalDigit(s[0]) == Some(1) && DecimalDigit(s[1]) == Some(2);
    StripNoSpace(s);
    forall i | 0 <= i < |s|
      ensures IsDecimal(s[i])
    {
      assert i == 0 || i == 1;
    }
    assert Grouped(s);
    assert s[..1] == [s[0]] && [s[0]][..0] == "";
    assert DigitsValue([s[0]]) == 1;
    assert DigitsValue(s) == 12;
  }
}
