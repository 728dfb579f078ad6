/**
 * The global `parseInt(string)` of ECMA-262 section 19.2.5, called with no
 * radix, as `AmountWidget.setValue` uses it, and the number-to-string
 * conversion of integers (Number::toString, section 6.1.6.1.20) that feeds it
 * when the widget passes `value + 1` or `value - 1`.
 */
module JsParseInt {
  import opened Wrappers
  import opened Seqs

  /** WhiteSpace and LineTerminator code points, which parseInt trims from the start. */
  predicate IsStrWhiteSpace(c: char)
  {
    || c == '\t' || c == '\U{000B}' || c == '\U{000C}' || c == ' ' || c == '\U{00A0}'
    || c == '\U{1680}' || ('\U{2000}' <= c <= '\U{200A}') || c == '\U{202F}' || c == '\U{205F}'
    || c == '\U{3000}' || c == '\U{FEFF}'
    || c == '\n' || c == '\r' || c == '\U{2028}' || c == '\U{2029}'
  }

  /** TrimString(s, start): drops the leading white space. */
  function TrimStart(s: string): (r: string)
    ensures |r| <= |s|
  {
    if s != [] && IsStrWhiteSpace(s[0]) then TrimStart(s[1..]) else s
  }

  /** TrimStart drops exactly the leading white space: what it keeps is a
      suffix of the input that does not start with white space, and every
      character it dropped is white space. */
  lemma {:induction false} TrimStartDropsWhiteSpace(s: string)
    ensures TrimStart(s) == s[|s| - |TrimStart(s)|..]
    ensures TrimStart(s) == [] || !IsStrWhiteSpace(TrimStart(s)[0])
    ensures forall i :: 0 <= i < |s| - |TrimStart(s)| ==> IsStrWhiteSpace(s[i])
  {
    if s != [] && IsStrWhiteSpace(s[0]) {
      TrimStartDropsWhiteSpace(s[1..]);
      var r := TrimStart(s[1..]);
      assert TrimStart(s) == r;
      forall i | 0 <= i < |s| - |r|
        ensures IsStrWhiteSpace(s[i])
      {
        if i > 0 {
          assert s[i] == s[1..][i - 1];
        }
      }
    }
  }

  predicate IsDecimalDigit(c: char)
  {
    '0' <= c <= '9'
  }

  /** The value of `c` as a digit in base 36, or 36 when it is not a digit at all. */
  function DigitValue(c: char): (d: nat)
    ensures d <= 36
    ensures IsDecimalDigit(c) <==> d < 10
  {
    if '0' <= c <= '9' then c as int - '0' as int
    else if 'a' <= c <= 'z' then c as int - 'a' as int + 10
    else if 'A' <= c <= 'Z' then c as int - 'A' as int + 10
    else 36
  }

  /** Length of the longest prefix of `s` made of digits of the given radix. */
  function DigitRun(s: string, radix: nat): (n: nat)
    ensures n <= |s|
  {
    if s != [] && DigitValue(s[0]) < radix then 1 + DigitRun(s[1..], radix) else 0
  }

  /** The mathematical value of a digit string read in `radix`, most significant digit first. */
  function ValueOf(digits: string, radix: nat): nat
  {
    if digits == [] then 0
    else ValueOf(digits[..|digits| - 1], radix) * radix + DigitValue(digits[|digits| - 1])
  }

  /**
   * parseInt(input) with the radix undefined: skip white space, take one sign,
   * switch to radix 16 after a "0x" or "0X" prefix, read the longest run of
   * digits, and give NaN (None) when that run is empty. A negative zero is 0.
   */
  function ParseInt(input: string): Option<int>
  {
    ParseTrimmed(TrimStart(input))
  }

  /** Steps 3 to 16 of parseInt, on text that starts after the white space. */
  function ParseTrimmed(s: string): Option<int>
  {
    var negative := s != [] && s[0] == '-';
    var unsigned := if s != [] && (s[0] == '-' || s[0] == '+') then s[1..] else s;
    match ParseMagnitude(unsigned)
    case None => None
    case Some(m) => Some(if negative then -(m as int) else m)
  }

  /** The magnitude after the sign: an optional "0x" prefix, then the longest digit run. */
  function ParseMagnitude(u: string): Option<nat>
  {
    var hex := |u| >= 2 && u[0] == '0' && (u[1] == 'x' || u[1] == 'X');
    var radix := if hex then 16 else 10;
    var body := if hex then u[2..] else u;
    var z := body[..DigitRun(body, radix)];
    if z == [] then None else Some(ValueOf(z, radix))
  }

  function DigitChar(d: nat): (c: char)
    requires d < 10
    ensures IsDecimalDigit(c) && DigitValue(c) == d
  {
    ('0' as int + d) as char
  }

  /** Decimal digits of a natural number, without leading zeros. */
  function Digits(k: nat): (s: string)
    ensures s != []
    ensures forall i :: 0 <= i < |s| ==> IsDecimalDigit(s[i])
    ensures |s| >= 2 ==> s[0] != '0'
  {
    if k < 10 then [DigitChar(k)] else Digits(k / 10) + [DigitChar(k % 10)]
  }

  /** ToString of an integer-valued number: an optional minus sign and its decimal digits. */
  function DecimalString(n: int): (s: string)
    ensures s != [] && !IsStrWhiteSpace(s[0])
  {
    if n < 0 then "-" + Digits(-n) else Digits(n)
  }

  lemma {:induction false} ValueOfDigits(k: nat)
    ensures ValueOf(Digits(k), 10) == k
  {
    if k >= 10 {
      var s := Digits(k / 10) + [DigitChar(k % 10)];
      assert s[..|s| - 1] == Digits(k / 10);
      ValueOfDigits(k / 10);
    }
  }

  lemma {:induction false} DigitRunStops(s: string, t: string)
    requires forall i :: 0 <= i < |s| ==> IsDecimalDigit(s[i])
    requires t == [] || !IsDecimalDigit(t[0])
    ensures DigitRun(s + t, 10) == |s|
  {
    if s != [] {
      assert (s + t)[1..] == s[1..] + t;
      DigitRunStops(s[1..], t);
    }
  }

  lemma ParseTrimmedSigned(sign: char, u: string)
    requires sign == '-' || sign == '+'
    ensures ParseTrimmed([sign] + u)
         == match ParseMagnitude(u)
            case None => None
            case Some(m) => Some(if sign == '-' then -(m as int) else m)
  {
    assert ([sign] + u)[1..] == u;
  }

  lemma ParseTrimmedUnsigned(s: string)
    requires s == [] || (s[0] != '-' && s[0] != '+')
    ensures ParseTrimmed(s)
         == match ParseMagnitude(s)
            case None => None
            case Some(m) => Some(m as int)
  {
  }

  /** The magnitude of a decimal digit string followed by a non-digit. */
  lemma ParseMagnitudeDigits(k: nat, tail: string)
    requires tail == [] || !IsDecimalDigit(tail[0])
    requires k == 0 && tail != [] ==> tail[0] != 'x' && tail[0] != 'X'
    ensures ParseMagnitude(Digits(k) + tail) == Some(k)
  {
    var digits := Digits(k);
    var u := digits + tail;
    assert |digits| >= 2 ==> u[1] == digits[1];
    assert !(|u| >= 2 && u[0] == '0' && (u[1] == 'x' || u[1] == 'X'));
    DigitRunStops(digits, tail);
    assert u[..|digits|] == digits;
    ValueOfDigits(k);
  }

  /**
   * parseInt reads back the decimal text of any integer, whatever follows it,
   * as long as the next character is not a digit (and, after a lone "0",
   * not the "x" that would start a hexadecimal prefix).
   */
  lemma ParseIntDecimalPrefix(n: int, tail: string)
    requires tail == [] || !IsDecimalDigit(tail[0])
    requires n == 0 && tail != [] ==> tail[0] != 'x' && tail[0] != 'X'
    ensures ParseInt(DecimalString(n) + tail) == Some(n)
  {
    var input := DecimalString(n) + tail;
    assert input[0] == DecimalString(n)[0];
    TrimStartNoop(input);
    if n < 0 {
      NegativePrefix(-n, tail);
      ConcatAssoc("-", Digits(-n), tail);
    } else {
      NonNegativePrefix(n, tail);
    }
  }

  lemma NegativePrefix(k: nat, tail: string)
    requires tail == [] || !IsDecimalDigit(tail[0])
    requires k > 0
    ensures ParseTrimmed(['-'] + (Digits(k) + tail)) == Some(-(k as int))
  {
    ParseMagnitudeDigits(k, tail);
    ParseTrimmedSigned('-', Digits(k) + tail);
  }

  lemma NonNegativePrefix(k: nat, tail: string)
    requires tail == [] || !IsDecimalDigit(tail[0])
    requires k == 0 && tail != [] ==> tail[0] != 'x' && tail[0] != 'X'
    ensures ParseTrimmed(Digits(k) + tail) == Some(k)
  {
    ParseMagnitudeDigits(k, tail);
    ParseTrimmedUnsigned(Digits(k) + tail);
  }

  /** parseInt(String(n)) == n: the round trip the amount widget relies on. */
  lemma ParseIntRoundTrip(n: int)
    ensures ParseInt(DecimalString(n)) == Some(n)
  {
    ParseIntDecimalPrefix(n, []);
    assert DecimalString(n) + [] == DecimalString(n);
  }

  /** Leading white space never changes what parseInt reads. */
  lemma ParseIntSkipsWhiteSpace(ws: string, s: string)
    requires forall i :: 0 <= i < |ws| ==> IsStrWhiteSpace(ws[i])
    ensures ParseInt(ws + s) == ParseInt(s)
  {
    TrimStartSkips(ws, s);
  }

  lemma {:induction false} TrimStartSkips(ws: string, s: string)
    requires forall i :: 0 <= i < |ws| ==> IsStrWhiteSpace(ws[i])
    ensures TrimStart(ws + s) == TrimStart(s)
  {
    if ws == [] {
      assert ws + s == s;
    } else {
      assert (ws + s)[0] == ws[0];
      assert (ws + s)[1..] == ws[1..] + s;
      TrimStartSkips(ws[1..], s);
    }
  }

  /** A character that ends the text parseInt can read: neither digit, sign nor white space. */
  predicate IsStopChar(c: char)
  {
    !IsDecimalDigit(c) && c != '-' && c != '+' && !IsStrWhiteSpace(c)
  }

  /** Text with no digit after its white space and optional sign is NaN. */
  lemma ParseIntRejectsNonDigit(ws: string, sign: string, rest: string)
    requires forall i :: 0 <= i < |ws| ==> IsStrWhiteSpace(ws[i])
    requires sign == "" || sign == "-" || sign == "+"
    requires rest == [] || IsStopChar(rest[0])
    ensures ParseInt(ws + sign + rest) == None
  {
    var t := sign + rest;
    assert ws + sign + rest == ws + t;
    TrimStartSkips(ws, t);
    if sign == "" {
      assert t == rest;
      TrimStartNoop(rest);
    } else {
      assert t[0] == sign[0];
      SignIsNotWhiteSpace(sign[0]);
      TrimStartNoop(t);
    }
    SignedNonDigit(sign, rest);
  }

  /** After a sign, text that does not go on with a digit is NaN: "- 5", "+-1", "-x". */
  lemma ParseIntRejectsAfterSign(ws: string, sign: char, rest: string)
    requires forall i :: 0 <= i < |ws| ==> IsStrWhiteSpace(ws[i])
    requires sign == '-' || sign == '+'
    requires rest == [] || !IsDecimalDigit(rest[0])
    ensures ParseInt(ws + [sign] + rest) == None
  {
    var t := [sign] + rest;
    assert ws + [sign] + rest == ws + t;
    TrimStartSkips(ws, t);
    assert t[0] == sign;
    SignIsNotWhiteSpace(sign);
    TrimStartNoop(t);
    MagnitudeOfNonDigit(rest);
    ParseTrimmedSigned(sign, rest);
  }

  lemma SignIsNotWhiteSpace(c: char)
    requires c == '-' || c == '+'
    ensures !IsStrWhiteSpace(c)
  {
  }

  lemma TrimStartNoop(s: string)
    requires s == [] || !IsStrWhiteSpace(s[0])
    ensures TrimStart(s) == s
  {
  }

  lemma SignedNonDigit(sign: string, rest: string)
    requires sign == "" || sign == "-" || sign == "+"
    requires rest == [] || IsStopChar(rest[0])
    ensures ParseTrimmed(sign + rest) == None
  {
    MagnitudeOfNonDigit(rest);
    if sign == "" {
      assert sign + rest == rest;
      ParseTrimmedUnsigned(rest);
    } else {
      assert sign + rest == [sign[0]] + rest;
      ParseTrimmedSigned(sign[0], rest);
    }
  }

  lemma MagnitudeOfNonDigit(rest: string)
    requires rest == [] || !IsDecimalDigit(rest[0])
    ensures ParseMagnitude(rest) == None
  {
    if rest != [] {
      assert rest[0] != '0';
      assert DigitRun(rest, 10) == 0;
    }
  }
}
