/**
 * The two JavaScript built-ins the pages rely on to move an Aadhaar number (and an age)
 * between a text field and a Number: the global `parseInt` with no radix argument, and
 * `Number.prototype.toString()` on an integer.
 */
module Js {
  import opened Wrappers

  predicate IsDigit(c: char) { '0' <= c <= '9' }

  predicate AllDigits(s: string)
  {
    forall i :: 0 <= i < |s| ==> IsDigit(s[i])
  }

  /** The white space `parseInt` skips before the number (the ASCII and common Unicode ones). */
  predicate IsSpace(c: char)
  {
    c == ' ' || c == '\t' || c == '\n' || c == '\r' || c == '\U{B}' || c == '\U{C}'
    || c == '\U{A0}' || c == '\U{FEFF}' || c == '\U{2028}' || c == '\U{2029}'
  }

  /** The value of `c` as a digit in bases up to 36; 36 for a character that is no digit at all. */
  function DigitValue(c: char): (d: nat)
    ensures d <= 36
    ensures d < 10 <==> IsDigit(c)
  {
    if '0' <= c <= '9' then c as int - '0' as int
    else if 'a' <= c <= 'z' then c as int - 'a' as int + 10
    else if 'A' <= c <= 'Z' then c as int - 'A' as int + 10
    else 36
  }

  predicate DigitsIn(s: string, radix: nat)
  {
    forall i :: 0 <= i < |s| ==> DigitValue(s[i]) < radix
  }

  /** The digits of `s`, most significant first, read in `radix`. */
  function Value(s: string, radix: nat): nat
    requires DigitsIn(s, radix)
  {
    if s == [] then 0 else Value(s[..|s| - 1], radix) * radix + DigitValue(s[|s| - 1])
  }

  /** The length of the longest prefix of `s` that consists of digits of `radix`. */
  function DigitRun(s: string, radix: nat): (k: nat)
    ensures k <= |s| && DigitsIn(s[..k], radix)
    ensures k < |s| ==> DigitValue(s[k]) >= radix
  {
    if s == [] || DigitValue(s[0]) >= radix then 0
    else
      var k := 1 + DigitRun(s[1..], radix);
      assert s[..k] == [s[0]] + s[1..][..k - 1];
      k
  }

  /** `s` without its leading white space. */
  function TrimStart(s: string): (t: string)
    ensures |t| <= |s| && t == s[|s| - |t|..]
    ensures t == [] || !IsSpace(t[0])
    ensures s == [] || !IsSpace(s[0]) ==> t == s
  {
    if s != [] && IsSpace(s[0]) then TrimStart(s[1..]) else s
  }

  /**
   * `parseInt(s)` with no radix: skip leading white space, take an optional sign, then read
   * the unsigned part. No digit at all gives NaN, here `None`.
   */
  function ParseInt(s: string): (r: Option<int>)
  {
    var t := TrimStart(s);
    if |t| > 0 && (t[0] == '-' || t[0] == '+') then
      match ParseUnsigned(t[1..])
      case None => None
      case Some(v) => Some(if t[0] == '-' then -(v as int) else v)
    else ParseUnsigned(t)
  }

  /**
   * The unsigned part of `parseInt`: hexadecimal after a `0x` or `0X` prefix, decimal
   * otherwise, stopping at the first character that is not a digit.
   */
  function ParseUnsigned(u: string): (r: Option<nat>)
  {
    var hex := |u| >= 2 && u[0] == '0' && (u[1] == 'x' || u[1] == 'X');
    var radix := if hex then 16 else 10;
    var w := if hex then u[2..] else u;
    var k := DigitRun(w, radix);
    if k == 0 then None else Some(Value(w[..k], radix))
  }

  function DigitChar(d: nat): (c: char)
    requires d < 10
    ensures IsDigit(c) && DigitValue(c) == d
  {
    ('0' as int + d) as char
  }

  /** The decimal digits of `n` with no leading zero. */
  function Digits(n: nat): (s: string)
    ensures |s| > 0 && AllDigits(s)
    ensures s[0] == '0' <==> n == 0
  {
    if n < 10 then [DigitChar(n)] else Digits(n / 10) + [DigitChar(n % 10)]
  }

  /** `Number.prototype.toString()` for an integer (one below 10^21, where no exponent is used). */
  function NumberToString(n: int): string
  {
    if n < 0 then "-" + Digits(-n) else Digits(n)
  }

  /** Reading back the digits `Digits` writes gives the number again. */
  lemma {:induction false} ValueOfDigits(n: nat)
    ensures DigitsIn(Digits(n), 10) && Value(Digits(n), 10) == n
  {
    var s := Digits(n);
    if n >= 10 {
      ValueOfDigits(n / 10);
      assert s[..|s| - 1] == Digits(n / 10);
    }
  }

  /** Writing the value of a digit string without leading zero gives the string again. */
  lemma {:induction false} DigitsOfValue(s: string)
    requires |s| > 0 && AllDigits(s) && s[0] != '0'
    ensures DigitsIn(s, 10) && Digits(Value(s, 10)) == s
  {
    if |s| > 1 {
      var p := s[..|s| - 1];
      DigitsOfValue(p);
      ValuePositive(p);
      var v := Value(s, 10);
      assert v / 10 == Value(p, 10) && v % 10 == DigitValue(s[|s| - 1]);
      assert Digits(v) == Digits(v / 10) + [DigitChar(v % 10)];
    }
  }

  lemma {:induction false} ValuePositive(s: string)
    requires |s| > 0 && AllDigits(s) && s[0] != '0'
    ensures Value(s, 10) > 0
  {
    if |s| > 1 {
      ValuePositive(s[..|s| - 1]);
    }
  }

  /** The unsigned part of `parseInt` reads a whole run of decimal digits. */
  lemma ParseUnsignedOfDigits(s: string)
    requires |s| > 0 && AllDigits(s)
    ensures DigitsIn(s, 10) && ParseUnsigned(s) == Some(Value(s, 10))
  {
    var k := DigitRun(s, 10);
    assert k == |s| && s[..k] == s;
  }

  /** `parseInt` on a plain run of decimal digits reads all of them. */
  lemma ParseIntOfDigits(s: string)
    requires |s| > 0 && AllDigits(s)
    ensures DigitsIn(s, 10) && ParseInt(s) == Some(Value(s, 10))
  {
    assert !IsSpace(s[0]) && TrimStart(s) == s;
    ParseUnsignedOfDigits(s);
  }

  /** `parseInt(n.toString()) === n` for every integer `n`. */
  lemma ParseIntOfNumberToString(n: int)
    ensures ParseInt(NumberToString(n)) == Some(n)
  {
    if n >= 0 {
      ValueOfDigits(n);
      ParseIntOfDigits(Digits(n));
    } else {
      var m := -n;
      ValueOfDigits(m);
      ParseUnsignedOfDigits(Digits(m));
      var s := NumberToString(n);
      assert s[0] == '-' && s[1..] == Digits(m);
      assert TrimStart(s) == s;
    }
  }
}
