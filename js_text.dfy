/**
 * The JavaScript built-ins the scripts apply to configuration text: `parseInt` with no radix,
 * number-to-string conversion in a template literal, `toLowerCase` and `substring(1)`.
 * Numbers are unbounded integers here; `NaN` is kept as its own value.
 */
module JsText {
  import opened Wrappers

  /** A JavaScript number as `parseInt` can produce it: an integer or NaN. */
  datatype JsNumber = Num(n: int) | NaN

  /** The characters `parseInt` skips before the number (StrWhiteSpaceChar of ECMAScript). */
  predicate IsWhiteSpace(c: char) {
    || c == '\t' || c == '\n' || c == '\U{000B}' || c == '\U{000C}' || c == '\r' || c == ' '
    || c == '\U{00A0}' || c == '\U{1680}' || ('\U{2000}' <= c <= '\U{200A}')
    || c == '\U{2028}' || c == '\U{2029}' || c == '\U{202F}' || c == '\U{205F}'
    || c == '\U{3000}' || c == '\U{FEFF}'
  }

  /** The input without its leading white space. */
  function TrimStart(s: string): (r: string)
    ensures |r| <= |s| && r == s[|s| - |r|..]
    ensures r == [] || !IsWhiteSpace(r[0])
    ensures forall i :: 0 <= i < |s| - |r| ==> IsWhiteSpace(s[i])
  {
    if s != [] && IsWhiteSpace(s[0]) then TrimStart(s[1..]) else s
  }

  /** The value of one digit in the given radix (letters of either case stand for 10..35). */
  function DigitValue(c: char, radix: nat): (d: Option<nat>)
    ensures d.Some? ==> d.value < radix
    ensures '0' <= c <= '9' && (c as int - '0' as int) < radix ==> d == Some(c as int - '0' as int)
  {
    var v :=
      if '0' <= c <= '9' then c as int - '0' as int
      else if 'a' <= c <= 'z' then c as int - 'a' as int + 10
      else if 'A' <= c <= 'Z' then c as int - 'A' as int + 10
      else -1;
    if 0 <= v < radix then Some(v) else None
  }

  /** The longest prefix of `s` made of digits of the radix, as digit values. */
  function LeadingDigits(s: string, radix: nat): (ds: seq<nat>)
    ensures |ds| <= |s|
    ensures forall i :: 0 <= i < |ds| ==> DigitValue(s[i], radix) == Some(ds[i])
    ensures |ds| < |s| ==> DigitValue(s[|ds|], radix).None?
  {
    if s != [] && DigitValue(s[0], radix).Some? then
      [DigitValue(s[0], radix).value] + LeadingDigits(s[1..], radix)
    else
      []
  }

  /** The number a digit sequence denotes, most significant digit first. */
  function Value(ds: seq<nat>, radix: nat): nat {
    if ds == [] then 0 else Value(ds[..|ds| - 1], radix) * radix + ds[|ds| - 1]
  }

  /** The text after one optional sign. */
  function Unsigned(t: string): (u: string)
    ensures t != [] && (t[0] == '-' || t[0] == '+') ==> u == t[1..]
    ensures t == [] || (t[0] != '-' && t[0] != '+') ==> u == t
  {
    if t != [] && (t[0] == '-' || t[0] == '+') then t[1..] else t
  }

  /** "0x" or "0X" at the start switches `parseInt` to base 16. */
  predicate HasHexPrefix(u: string) {
    |u| >= 2 && u[0] == '0' && (u[1] == 'x' || u[1] == 'X')
  }

  function Radix(u: string): nat {
    if HasHexPrefix(u) then 16 else 10
  }

  /** Where the digits start: after the hex prefix, if there is one. */
  function DigitText(u: string): string {
    if HasHexPrefix(u) then u[2..] else u
  }

  /**
   * `parseInt(s)` without a radix: skip white space, take one optional sign, read base 16 after
   * a `0x`/`0X` prefix and base 10 otherwise, stop at the first character that is not a digit,
   * and give NaN when no digit was read.
   */
  function ParseInt(s: string): (r: JsNumber)
    ensures var u := Unsigned(TrimStart(s));
      r == NaN <==> DigitText(u) == [] || DigitValue(DigitText(u)[0], Radix(u)).None?
    ensures r.Num? && r.n < 0 ==> TrimStart(s) != [] && TrimStart(s)[0] == '-'
  {
    ParseSigned(TrimStart(s))
  }

  /** `parseInt` after the white space: the digits, negated after a minus sign. */
  function ParseSigned(t: string): (r: JsNumber)
    ensures r.NaN? <==> ParseDigits(Unsigned(t)).NaN?
    ensures r.Num? && r.n < 0 ==> t != [] && t[0] == '-'
  {
    var magnitude := ParseDigits(Unsigned(t));
    if t != [] && t[0] == '-' then Negate(magnitude) else magnitude
  }

  /** Unary minus on a number; NaN stays NaN. */
  function Negate(x: JsNumber): (r: JsNumber)
    ensures r.NaN? <==> x.NaN?
    ensures x.Num? ==> r.n == -x.n
  {
    match x
    case Num(n) => Num(-n)
    case NaN => NaN
  }

  /**
   * `parseInt` after the sign: the longest run of digits of the radix, read as a non-negative
   * number, or NaN when not even the first character is such a digit.
   */
  function ParseDigits(u: string): (r: JsNumber)
    ensures r.NaN? <==> DigitText(u) == [] || DigitValue(DigitText(u)[0], Radix(u)).None?
    ensures r.Num? ==> r.n >= 0
  {
    var ds := LeadingDigits(DigitText(u), Radix(u));
    if ds == [] then NaN else Num(Value(ds, Radix(u)))
  }

  function DigitChar(d: nat): (c: char)
    requires d < 10
    ensures '0' <= c <= '9' && c as int - '0' as int == d
  {
    ('0' as int + d) as char
  }

  /** The decimal numeral of a natural number, without leading zeros. */
  function NatToDecimal(n: nat): (s: string)
    ensures |s| >= 1
    ensures forall i :: 0 <= i < |s| ==> '0' <= s[i] <= '9'
    ensures s[0] == '0' ==> n == 0
  {
    if n < 10 then [DigitChar(n)] else NatToDecimal(n / 10) + [DigitChar(n % 10)]
  }

  /** `${n}` for an integer-valued number: a minus sign exactly for a negative number, then digits. */
  function IntToDecimal(n: int): (r: string)
    ensures |r| >= 1 && (r[0] == '-' <==> n < 0)
    ensures forall i :: (if n < 0 then 1 else 0) <= i < |r| ==> '0' <= r[i] <= '9'
  {
    if n < 0 then "-" + NatToDecimal(-n) else NatToDecimal(n)
  }

  /**
   * `${x}` for a number: "NaN", or a minus sign exactly for a negative number followed by
   * decimal digits (`ParseIntOfDecimal` shows that `parseInt` reads it back).
   */
  function NumberToString(x: JsNumber): (r: string)
    ensures x.NaN? ==> r == "NaN"
    ensures x.Num? ==> |r| >= 1 && (r[0] == '-' <==> x.n < 0)
    ensures x.Num? ==> forall i :: (if x.n < 0 then 1 else 0) <= i < |r| ==> '0' <= r[i] <= '9'
  {
    match x
    case Num(n) => IntToDecimal(n)
    case NaN => "NaN"
  }

  /** Appending a digit to a numeral appends its value to the digits read. */
  lemma {:induction false} LeadingDigitsAppend(s: string, c: char)
    requires forall i :: 0 <= i < |s| ==> '0' <= s[i] <= '9'
    requires '0' <= c <= '9'
    ensures LeadingDigits(s + [c], 10) == LeadingDigits(s, 10) + [c as int - '0' as int]
  {
    var d := c as int - '0' as int;
    if s == [] {
      assert [c][1..] == [];
      assert DigitValue(c, 10) == Some(d);
    } else {
      assert (s + [c])[1..] == s[1..] + [c];
      LeadingDigitsAppend(s[1..], c);
      assert DigitValue(s[0], 10) == Some(s[0] as int - '0' as int);
    }
  }

  /** The value of digits with one more digit at the end. */
  lemma ValueAppend(ds: seq<nat>, d: nat, radix: nat)
    ensures Value(ds + [d], radix) == Value(ds, radix) * radix + d
  {
    assert (ds + [d])[..|ds|] == ds;
  }

  /** Reading back the digits of a printed natural number gives the number. */
  lemma {:induction false} DecimalDigitsValue(n: nat)
    ensures |LeadingDigits(NatToDecimal(n), 10)| == |NatToDecimal(n)|
    ensures Value(LeadingDigits(NatToDecimal(n), 10), 10) == n
  {
    var s := NatToDecimal(n);
    if n >= 10 {
      var s' := NatToDecimal(n / 10);
      var c := DigitChar(n % 10);
      DecimalDigitsValue(n / 10);
      assert s == s' + [c];
      LeadingDigitsAppend(s', c);
      ValueAppend(LeadingDigits(s', 10), n % 10, 10);
      assert (n / 10) * 10 + n % 10 == n;
    } else {
      LeadingDigitsAppend([], s[0]);
      assert s == [] + [s[0]];
      ValueAppend([], n, 10);
    }
  }

  /** `parseInt` inverts the printing of an integer: `parseInt(`${n}`) === n`. */
  lemma ParseIntOfDecimal(n: int)
    ensures ParseInt(IntToDecimal(n)) == Num(n)
  {
    var s := IntToDecimal(n);
    assert TrimStart(s) == s by {
      assert s[0] == '-' || '0' <= s[0] <= '9';
      assert !IsWhiteSpace(s[0]);
    }
    ParseSignedOfDecimal(n);
  }

  /** After the (absent) white space: the sign, then the numeral of the magnitude. */
  lemma {:induction false} ParseSignedOfDecimal(n: int)
    ensures ParseSigned(IntToDecimal(n)) == Num(n)
  {
    var s := IntToDecimal(n);
    var m: nat := if n < 0 then -n else n;
    var d := NatToDecimal(m);
    DecimalDigitsValue(m);
    ParseDigitsOfNumeral(d, m);
    if n < 0 {
      assert s[0] == '-' && s[1..] == d;
    } else {
      assert s == d && '0' <= s[0] <= '9';
    }
  }

  /** `parseInt` of a decimal numeral without leading zeros, after its sign. */
  lemma ParseDigitsOfNumeral(d: string, m: nat)
    requires d == NatToDecimal(m) && Value(LeadingDigits(d, 10), 10) == m
    ensures ParseDigits(d) == Num(m)
  {
    assert !HasHexPrefix(d);
    assert LeadingDigits(d, 10) != [] by {
      assert DigitValue(d[0], 10).Some?;
    }
  }

  /**
   * `parseInt` of text whose first non-space character is a decimal digit, not followed by an
   * "x" or "X" after a "0": base 10, so "012" reads as 12.
   */
  lemma ParseIntDecimalPrefix(s: string, t: string)
    requires TrimStart(s) == t && |t| >= 1 && '0' <= t[0] <= '9' && !HasHexPrefix(t)
    ensures ParseInt(s) == Num(Value(LeadingDigits(t, 10), 10))
  {
    assert ParseSigned(t) == ParseDigits(t);
    assert LeadingDigits(t, 10) != [] by {
      assert DigitValue(t[0], 10).Some?;
    }
  }

  /** `parseInt` of text that starts with "0x" or "0X" and a hexadecimal digit: base 16. */
  lemma ParseIntHexPrefix(s: string, t: string)
    requires TrimStart(s) == t && |t| >= 3 && t[0] == '0' && (t[1] == 'x' || t[1] == 'X')
    requires DigitValue(t[2], 16).Some?
    ensures ParseInt(s) == Num(Value(LeadingDigits(t[2..], 16), 16))
  {
    assert ParseSigned(t) == ParseDigits(t);
    assert LeadingDigits(t[2..], 16) != [] by {
      assert t[2..][0] == t[2];
    }
  }

  /** Leading white space is skipped and trailing text is ignored: " 12abc" reads as 12. */
  lemma ParseIntSkipsSpaceAndTail()
    ensures ParseInt(" 12abc") == Num(12)
  {
    TrimStartOfExample();
    LeadingDigitsOfExample();
    assert Value([1, 2], 10) == 12 by {
      assert [1, 2][..1] == [1] && [1][..0] == [];
    }
    ParseIntDecimalPrefix(" 12abc", "12abc");
  }

  lemma TrimStartOfExample()
    ensures TrimStart(" 12abc") == "12abc"
  {
    var s := " 12abc";
    assert s[0] == ' ' && IsWhiteSpace(' ');
    assert s[1..] == "12abc";
    assert "12abc"[0] == '1' && !IsWhiteSpace('1');
  }

  lemma LeadingDigitsOfExample()
    ensures LeadingDigits("12abc", 10) == [1, 2]
  {
    assert LeadingDigits("abc", 10) == [];
    assert LeadingDigits("2abc", 10) == [2] by {
      assert "2abc"[1..] == "abc";
    }
    assert "12abc"[1..] == "2abc";
  }

  /** A "0x" prefix switches to base 16: "0x1F" reads as 31. */
  lemma ParseIntReadsHex()
    ensures ParseInt("0x1F") == Num(31)
  {
    assert TrimStart("0x1F") == "0x1F";
    assert "0x1F"[2..] == "1F";
    assert LeadingDigits("1F", 16) == [1, 15] by {
      assert "1F"[1..] == "F" && "F"[1..] == "";
      assert LeadingDigits("", 16) == [];
    }
    assert Value([1, 15], 16) == 31 by {
      assert [1, 15][..1] == [1] && [1][..0] == [];
    }
    ParseIntHexPrefix("0x1F", "0x1F");
  }

  lemma DecimalIsNotNaN(n: int)
    ensures IntToDecimal(n) != "NaN"
  {
    var t := IntToDecimal(n);
    assert t[0] == '-' || '0' <= t[0] <= '9';
  }

  /** The text of a number determines the number (so two different versions never print alike). */
  lemma NumberToStringInjective(x: JsNumber, y: JsNumber)
    ensures NumberToString(x) == NumberToString(y) ==> x == y
  {
    if NumberToString(x) == NumberToString(y) {
      if x.Num? && y.Num? {
        ParseIntOfDecimal(x.n);
        ParseIntOfDecimal(y.n);
      } else if x.Num? {
        DecimalIsNotNaN(x.n);
      } else if y.Num? {
        DecimalIsNotNaN(y.n);
      }
    }
  }

  /** One character of `toLowerCase`, on the ASCII letters. */
  function LowerChar(c: char): char {
    if 'A' <= c <= 'Z' then (c as int + 32) as char else c
  }

  /** `s.toLowerCase()` on the ASCII letters. */
  function ToLowerAscii(s: string): (r: string)
    ensures |r| == |s|
    ensures forall i :: 0 <= i < |s| ==> r[i] == LowerChar(s[i])
  {
    if s == [] then [] else [LowerChar(s[0])] + ToLowerAscii(s[1..])
  }

  /** `s.substring(1)`: everything after the first character; empty for the empty string. */
  function Substring1(s: string): (r: string)
    ensures |s| >= 1 ==> s == [s[0]] + r
    ensures s == [] ==> r == []
  {
    if s == [] then [] else s[1..]
  }
}
