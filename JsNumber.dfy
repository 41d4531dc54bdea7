/**
 * The two string-to-number conversions of JavaScript that the user route of
 * the node template applies to its path parameter: the test `isNaN(id)`, which
 * converts with `Number(id)` (the StringNumericLiteral grammar of ECMAScript,
 * section 7.1.4.1 of ECMA-262), and `parseInt(id)` without a radix (section
 * 19.2.5 of ECMA-262). Numbers are exact integers here; the precision limits
 * of IEEE doubles are not modelled.
 */
module JsNumber {
  import opened JsText

  /** The result of `parseInt`: an integer or NaN. */
  datatype JsInt = NaN | Int(value: int)

  /** The characters the scanners below stop at. */
  datatype Stop = ExponentMark | Dot | NonDigit(radix: nat)

  predicate StopsAt(c: char, k: Stop)
  {
    match k
    case ExponentMark => c == 'e' || c == 'E'
    case Dot => c == '.'
    case NonDigit(radix) => !IsRadixDigit(c, radix)
  }

  /** Index of the first character of class `k`, or `|s|` when there is none. */
  function FindFirst(s: string, k: Stop): (i: nat)
    ensures i <= |s|
    ensures forall j :: 0 <= j < i ==> !StopsAt(s[j], k)
    ensures i < |s| ==> StopsAt(s[i], k)
  {
    if s == [] then 0
    else if StopsAt(s[0], k) then 0
    else 1 + FindFirst(s[1..], k)
  }

  function TrimStart(s: string): (t: string)
    ensures |t| <= |s| && t == s[|s| - |t|..]
    ensures t != [] ==> !IsJsSpace(t[0])
    ensures forall i :: 0 <= i < |s| - |t| ==> IsJsSpace(s[i])
  {
    if s != [] && IsJsSpace(s[0]) then TrimStart(s[1..]) else s
  }

  function TrimEnd(s: string): (t: string)
    ensures |t| <= |s| && t == s[..|t|]
    ensures t != [] ==> !IsJsSpace(t[|t| - 1])
    ensures forall i :: |t| <= i < |s| ==> IsJsSpace(s[i])
  {
    if s != [] && IsJsSpace(s[|s| - 1]) then TrimEnd(s[..|s| - 1]) else s
  }

  function Trim(s: string): string
  {
    TrimEnd(TrimStart(s))
  }

  predicate IsSign(c: char)
  {
    c == '+' || c == '-'
  }

  /** ExponentPart without its `e`: an optional sign and at least one digit. */
  predicate IsExponentDigits(x: string)
  {
    var d := if x != [] && IsSign(x[0]) then x[1..] else x;
    d != [] && AllDigits(d)
  }

  /** `DecimalDigits [. DecimalDigits]` or `. DecimalDigits`: at least one digit in all. */
  predicate IsMantissa(m: string)
  {
    var d := FindFirst(m, Dot);
    if d == |m| then m != [] && AllDigits(m)
    else AllDigits(m[..d]) && AllDigits(m[d + 1..]) && (d > 0 || d + 1 < |m|)
  }

  /** StrUnsignedDecimalLiteral: `Infinity`, or a mantissa with an optional exponent. */
  predicate IsUnsignedDecimal(t: string)
  {
    t == "Infinity"
    || var k := FindFirst(t, ExponentMark);
       IsMantissa(t[..k]) && (k == |t| || IsExponentDigits(t[k + 1..]))
  }

  predicate IsStrDecimal(t: string)
  {
    IsUnsignedDecimal(t) || (t != [] && IsSign(t[0]) && IsUnsignedDecimal(t[1..]))
  }

  /** NonDecimalIntegerLiteral: `0x`, `0o` or `0b` and digits of that radix, without a sign. */
  predicate IsNonDecimalInteger(t: string)
  {
    |t| >= 3 && t[0] == '0' &&
    (((t[1] == 'x' || t[1] == 'X') && AllRadixDigits(t[2..], 16))
     || ((t[1] == 'o' || t[1] == 'O') && AllRadixDigits(t[2..], 8))
     || ((t[1] == 'b' || t[1] == 'B') && AllRadixDigits(t[2..], 2)))
  }

  /**
   * `Number(s)` is not NaN: after trimming white space the string is empty or a
   * StringNumericLiteral. `isNaN(s)` on a string is the negation.
   */
  predicate IsNumericString(s: string)
  {
    var t := Trim(s);
    t == [] || IsNonDecimalInteger(t) || IsStrDecimal(t)
  }

  /**
   * `parseInt(s)` with no radix: skip leading white space, take one sign, take a
   * `0x`/`0X` prefix as radix 16, then the longest run of digits of the radix;
   * no digit at all gives NaN. Trailing garbage is ignored.
   */
  function ParseInt(s: string): JsInt
  {
    var t := TrimStart(s);
    var negative := t != [] && t[0] == '-';
    var u := if t != [] && IsSign(t[0]) then t[1..] else t;
    var hex := |u| >= 2 && u[0] == '0' && (u[1] == 'x' || u[1] == 'X');
    var radix := if hex then 16 else 10;
    var w := if hex then u[2..] else u;
    var k := FindFirst(w, NonDigit(radix));
    DigitRun(w, radix);
    if k == 0 then NaN
    else
      var v: int := RadixValue(w[..k], radix);
      Int(if negative then -v else v)
  }

  /** The characters before the first non-digit are all digits. */
  lemma DigitRun(w: string, radix: nat)
    ensures AllRadixDigits(w[..FindFirst(w, NonDigit(radix))], radix)
  {
    var k := FindFirst(w, NonDigit(radix));
    assert forall i :: 0 <= i < k ==> w[..k][i] == w[i];
  }

  /** Trimming leaves a string that starts and ends with a non-space unchanged. */
  lemma TrimNoSpace(s: string)
    requires s != [] && !IsJsSpace(s[0]) && !IsJsSpace(s[|s| - 1])
    ensures TrimStart(s) == s && Trim(s) == s
  {
  }

  lemma DigitsAreUnsignedDecimal(d: string)
    requires d != [] && AllDigits(d)
    ensures IsUnsignedDecimal(d)
  {
    var k := FindFirst(d, ExponentMark);
    assert d[..k] == d;
  }

  /** A non-empty run of decimal digits passes `isNaN` and `parseInt` reads its value. */
  lemma DigitsAreNumeric(d: string)
    requires d != [] && AllDigits(d)
    ensures IsNumericString(d)
    ensures ParseInt(d) == Int(DecimalValue(d))
  {
    TrimNoSpace(d);
    DigitsAreUnsignedDecimal(d);
    var j := FindFirst(d, NonDigit(10));
    assert d[..j] == d;
  }

  /** A minus sign before a run of decimal digits: numeric, and read as the negated value. */
  lemma NegatedDigitsAreNumeric(d: string)
    requires d != [] && AllDigits(d)
    ensures IsNumericString("-" + d)
    ensures ParseInt("-" + d) == Int(-(DecimalValue(d) as int))
  {
    var s := "-" + d;
    assert s[1..] == d && s[0] == '-';
    assert s[|s| - 1] == d[|d| - 1];
    DigitsAreUnsignedDecimal(d);
    TrimNoSpace(s);
    SignedIsStrDecimal(s);
    NegatedParse(s, d);
  }

  lemma SignedIsStrDecimal(s: string)
    requires s != [] && IsSign(s[0]) && IsUnsignedDecimal(s[1..]) && Trim(s) == s
    ensures IsNumericString(s)
  {
  }

  lemma NegatedParse(s: string, d: string)
    requires d != [] && AllDigits(d) && s == "-" + d && TrimStart(s) == s
    ensures ParseInt(s) == Int(-(DecimalValue(d) as int))
  {
    assert s[1..] == d;
    assert !(|d| >= 2 && d[0] == '0' && (d[1] == 'x' || d[1] == 'X'));
    var j := FindFirst(d, NonDigit(10));
    assert j == |d|;
    assert d[..j] == d;
  }

  /**
   * Whatever integer `String` prints, `isNaN` accepts and `parseInt` reads back:
   * the two conversions are inverse on integer strings.
   */
  lemma ParseIntOfIntToString(n: int)
    ensures IsNumericString(IntToString(n))
    ensures ParseInt(IntToString(n)) == Int(n)
  {
    if n >= 0 {
      DigitsAreNumeric(IntToString(n));
    } else {
      NegatedDigitsAreNumeric(NatToString(-n));
    }
  }

  /** `isNaN` and `parseInt` disagree on trailing garbage: `Number("12abc")` is NaN. */
  lemma TrailingLettersAreNaN()
    ensures !IsNumericString("12abc")
    ensures ParseInt("12abc") == Int(12)
  {
    TrailingLettersNotNumeric();
    TrailingLettersParsed();
  }

  lemma TrailingLettersNotNumeric()
    ensures !IsNumericString("12abc")
  {
    var s := "12abc";
    TrimNoSpace(s);
    assert !IsNonDecimalInteger(s);
    var k := FindFirst(s, ExponentMark);
    assert k == 5;
    assert s[..k] == s;
    assert !IsMantissa(s) by {
      var d := FindFirst(s, Dot);
      assert d == 5;
      assert !IsDigit(s[2]);
    }
    assert !IsUnsignedDecimal(s);
    assert !IsSign(s[0]);
  }

  lemma TrailingLettersParsed()
    ensures ParseInt("12abc") == Int(12)
  {
    var s := "12abc";
    TrimNoSpace(s);
    assert !IsSign(s[0]) && s[0] != '0';
    assert HexValue(s[0]) == 1 && HexValue(s[1]) == 2 && HexValue(s[2]) == 10;
    var j := FindFirst(s, NonDigit(10));
    assert j == 2;
    assert s[..2] == "12";
    assert RadixValue("12", 10) == 12 by {
      assert "12"[..1] == "1";
      assert "1"[..0] == [];
    }
  }
}
