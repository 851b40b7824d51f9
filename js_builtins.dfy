/**
 * The few ECMAScript built-ins the orchestrator relies on: `String.prototype.trim`,
 * the global `parseInt` with no radix argument, and `toString` on the values
 * the renderer sends. Numbers are modelled only as far as these operations
 * need them: NaN, an integer, or a number with a fractional part, which is
 * carried with its rendering.
 */
module JsBuiltins {
  import opened Wrappers
  import opened Strings

  /**
   * A JavaScript number: NaN, an integer, or a finite number with a
   * fractional part (such as a recency weight of 0.7), given by the text
   * `toString` renders it as. `parseInt` only ever gives the first two.
   */
  datatype JsNumber = NaN | Finite(value: int) | Fraction(rendering: string)

  /** The values the renderer may send as an option. */
  datatype JsValue = JsString(s: string) | JsNum(n: JsNumber) | JsNull

  /** ECMAScript WhiteSpace and LineTerminator code points: what `trim` strips and `parseInt` skips. */
  predicate IsWhiteSpace(c: char) {
    if c <= ' ' then c == ' ' || ('\t' <= c <= '\r')
    else if c < '\U{00A0}' then false
    else
      c == '\U{00A0}' || c == '\U{1680}' || ('\U{2000}' <= c <= '\U{200A}') || c == '\U{2028}'
        || c == '\U{2029}' || c == '\U{202F}' || c == '\U{205F}' || c == '\U{3000}' || c == '\U{FEFF}'
  }

  /** `s` with its leading white space removed. */
  function TrimStart(s: string): (r: string)
    ensures |r| <= |s| && r == s[|s| - |r|..]
    ensures forall i :: 0 <= i < |s| - |r| ==> IsWhiteSpace(s[i])
    ensures r == [] || !IsWhiteSpace(r[0])
  {
    if |s| > 0 && IsWhiteSpace(s[0]) then TrimStart(s[1..]) else s
  }

  /** `s` with its trailing white space removed. */
  function TrimEnd(s: string): (r: string)
    ensures |r| <= |s| && r == s[..|r|]
    ensures forall i :: |r| <= i < |s| ==> IsWhiteSpace(s[i])
    ensures r == [] || !IsWhiteSpace(r[|r| - 1])
  {
    if |s| > 0 && IsWhiteSpace(s[|s| - 1]) then TrimEnd(s[..|s| - 1]) else s
  }

  /** Everything of `s` before index `i` and from index `j` on is white space. */
  predicate WhiteSpaceOutside(s: string, i: nat, j: nat)
    requires i <= j <= |s|
  {
    && (forall k :: 0 <= k < i ==> IsWhiteSpace(s[k]))
    && (forall k :: j <= k < |s| ==> IsWhiteSpace(s[k]))
  }

  /** `s.trim()`: the slice of `s` left when the white space at both ends is cut off. */
  function Trim(s: string): (r: string)
    ensures r == [] || (!IsWhiteSpace(r[0]) && !IsWhiteSpace(r[|r| - 1]))
    ensures |r| <= |s|
    ensures exists i: nat, j: nat :: i <= j <= |s| && r == s[i..j] && WhiteSpaceOutside(s, i, j)
  {
    var t := TrimStart(s);
    var r := TrimEnd(t);
    assert r != [] ==> r[0] == t[0];
    TrimSlice(s, t, r);
    r
  }

  /** Trimming the start and then the end keeps a slice of `s` with only white space around it. */
  lemma {:induction false} TrimSlice(s: string, t: string, r: string)
    requires t == TrimStart(s) && r == TrimEnd(t)
    ensures var i := |s| - |t|; i + |r| <= |s| && r == s[i..i + |r|] && WhiteSpaceOutside(s, i, i + |r|)
  {
    SuffixPrefix(s, t, r);
    SuffixTail(s, t, |r|);
  }

  /** A prefix of a suffix is a slice. */
  lemma {:induction false} SuffixPrefix(s: string, t: string, r: string)
    requires |t| <= |s| && t == s[|s| - |t|..] && |r| <= |t| && r == t[..|r|]
    ensures r == s[|s| - |t|..|s| - |t| + |r|]
  {
  }

  /** White space at the end of a suffix is white space at the end of the whole. */
  lemma {:induction false} SuffixTail(s: string, t: string, n: nat)
    requires |t| <= |s| && t == s[|s| - |t|..] && n <= |t|
    requires forall k :: n <= k < |t| ==> IsWhiteSpace(t[k])
    ensures forall k :: |s| - |t| + n <= k < |s| ==> IsWhiteSpace(s[k])
  {
    forall k | |s| - |t| + n <= k < |s|
      ensures IsWhiteSpace(s[k])
    {
      assert s[k] == t[k - (|s| - |t|)];
    }
  }

  /** Appending a character to text that trims to nothing leaves nothing or that character after the trim. */
  lemma {:induction false} TrimStartAppend(s: string, c: char)
    ensures TrimStart(s + [c]) == if TrimStart(s) == [] then TrimStart([c]) else TrimStart(s) + [c]
    decreases |s|
  {
    if |s| > 0 {
      assert (s + [c])[0] == s[0];
      assert (s + [c])[1..] == s[1..] + [c];
      if IsWhiteSpace(s[0]) {
        TrimStartAppend(s[1..], c);
      }
    } else {
      assert s + [c] == [c];
    }
  }

  /** Trailing white space, such as the carriage return of a Windows line break, does not change `trim`. */
  lemma {:induction false} TrimAppendWhiteSpace(s: string, c: char)
    requires IsWhiteSpace(c)
    ensures Trim(s + [c]) == Trim(s)
  {
    TrimStartAppend(s, c);
    var t := TrimStart(s);
    if t == [] {
      assert TrimStart([c]) == TrimStart([c][1..]);
      assert [c][1..] == [];
    } else {
      assert (t + [c])[..|t|] == t;
    }
  }

  /** A string whose two ends are not white space is left alone by trimming. */
  lemma {:induction false} TrimUnchanged(s: string)
    requires s == [] || (!IsWhiteSpace(s[0]) && !IsWhiteSpace(s[|s| - 1]))
    ensures Trim(s) == s
  {
    assert TrimStart(s) == s;
  }

  /** Trimming is idempotent. */
  lemma {:induction false} TrimIdempotent(s: string)
    ensures Trim(Trim(s)) == Trim(s)
  {
    TrimUnchanged(Trim(s));
  }

  /** The digit value of a character in radices up to 36; 36 for every other character. */
  function DigitValue(c: char): (d: nat)
    ensures d <= 36
    ensures IsDigit(c) <==> d < 10
  {
    if '0' <= c <= '9' then (c as int) - ('0' as int)
    else if 'a' <= c <= 'z' then (c as int) - ('a' as int) + 10
    else if 'A' <= c <= 'Z' then (c as int) - ('A' as int) + 10
    else 36
  }

  predicate IsRadixDigit(c: char, radix: nat) {
    DigitValue(c) < radix
  }

  /** The longest prefix of `s` made of digits of the radix. */
  function DigitPrefix(s: string, radix: nat): (z: string)
    ensures |z| <= |s| && z == s[..|z|]
    ensures forall i :: 0 <= i < |z| ==> IsRadixDigit(z[i], radix)
    ensures |z| == |s| || !IsRadixDigit(s[|z|], radix)
  {
    if |s| > 0 && IsRadixDigit(s[0], radix) then [s[0]] + DigitPrefix(s[1..], radix) else []
  }

  /** The value of a run of hexadecimal digits, most significant digit first. */
  function HexValue(z: string): nat
    requires forall i :: 0 <= i < |z| ==> IsRadixDigit(z[i], 16)
  {
    if |z| == 0 then 0 else HexValue(z[..|z| - 1]) * 16 + DigitValue(z[|z| - 1])
  }

  /**
   * The magnitude `parseInt` reads once white space and sign are gone: after a
   * `0x` or `0X` prefix the longest run of hexadecimal digits, otherwise the
   * longest run of decimal digits; no digits at all gives None.
   */
  function ParseMagnitude(u: string): Option<nat> {
    if |u| >= 2 && u[0] == '0' && (u[1] == 'x' || u[1] == 'X') then
      var z := DigitPrefix(u[2..], 16);
      if z == [] then None else Some(HexValue(z))
    else
      var z := DigitPrefix(u, 10);
      if z == [] then None else Some(DecimalValue(z))
  }

  /**
   * `parseInt(s)` with no radix: skip leading white space, take one optional
   * sign, then read the magnitude; whatever follows the digits is ignored.
   */
  function ParseInt(s: string): JsNumber {
    ParseSigned(TrimStart(s))
  }

  /** What `parseInt` reads from text that starts after the leading white space. */
  function ParseSigned(t: string): JsNumber {
    var negative := |t| > 0 && t[0] == '-';
    var unsigned := if |t| > 0 && (t[0] == '-' || t[0] == '+') then t[1..] else t;
    match ParseMagnitude(unsigned)
    case None => NaN
    case Some(v) => if negative then Finite(-(v as int)) else Finite(v)
  }

  /** A character that is not a digit of the radix does not extend the digit prefix. */
  lemma {:induction false} DigitPrefixAppend(u: string, c: char, radix: nat)
    requires !IsRadixDigit(c, radix)
    ensures DigitPrefix(u + [c], radix) == DigitPrefix(u, radix)
    decreases |u|
  {
    if |u| > 0 {
      assert (u + [c])[0] == u[0];
      assert (u + [c])[1..] == u[1..] + [c];
      if IsRadixDigit(u[0], radix) {
        DigitPrefixAppend(u[1..], c, radix);
      }
    } else {
      assert u + [c] == [c];
    }
  }

  /** A character that is neither a letter nor a digit does not change the magnitude read. */
  lemma {:induction false} ParseMagnitudeAppend(u: string, c: char)
    requires DigitValue(c) == 36
    ensures ParseMagnitude(u + [c]) == ParseMagnitude(u)
  {
    var v := u + [c];
    if |u| >= 2 && u[0] == '0' && (u[1] == 'x' || u[1] == 'X') {
      assert v[0] == u[0] && v[1] == u[1];
      assert v[2..] == u[2..] + [c];
      DigitPrefixAppend(u[2..], c, 16);
    } else {
      assert !(|v| >= 2 && v[0] == '0' && (v[1] == 'x' || v[1] == 'X')) by {
        if |u| >= 2 {
          assert v[0] == u[0] && v[1] == u[1];
        } else if |u| == 1 {
          assert v[1] == c;
        }
      }
      DigitPrefixAppend(u, c, 10);
    }
  }

  /** No white-space character is a digit or a letter. */
  lemma {:induction false} WhiteSpaceIsNoDigit(c: char)
    requires IsWhiteSpace(c)
    ensures DigitValue(c) == 36
  {
  }

  /**
   * Trailing white space, such as the carriage return of a Windows line
   * break, does not change what `parseInt` reads.
   */
  lemma {:induction false} ParseIntAppendWhiteSpace(s: string, c: char)
    requires IsWhiteSpace(c)
    ensures ParseInt(s + [c]) == ParseInt(s)
  {
    TrimStartAppend(s, c);
    if TrimStart(s) == [] {
      assert TrimStart([c]) == TrimStart([c][1..]);
      assert [c][1..] == [];
    } else {
      ParseSignedAppend(TrimStart(s), c);
    }
  }

  /** A trailing character that is neither a letter nor a digit does not change the signed reading. */
  lemma {:induction false} ParseSignedAppend(t: string, c: char)
    requires t != [] && IsWhiteSpace(c)
    ensures ParseSigned(t + [c]) == ParseSigned(t)
  {
    var t' := t + [c];
    assert t'[0] == t[0];
    assert t'[1..] == t[1..] + [c];
    WhiteSpaceIsNoDigit(c);
    if t[0] == '-' || t[0] == '+' {
      ParseMagnitudeAppend(t[1..], c);
    } else {
      ParseMagnitudeAppend(t, c);
    }
  }

  /** Without a hexadecimal prefix the magnitude is the decimal reading of the leading digits. */
  lemma {:induction false} ParseMagnitudeDecimal(u: string)
    requires !(|u| >= 2 && u[0] == '0' && (u[1] == 'x' || u[1] == 'X'))
    ensures var z := DigitPrefix(u, 10);
      ParseMagnitude(u) == if z == [] then None else Some(DecimalValue(z))
  {
  }

  /** The magnitude of a digit run followed by a non-alphanumeric tail is the run's decimal value. */
  lemma {:induction false} ParseMagnitudeOfDigits(d: string, tail: string)
    requires |d| >= 1 && AllDigits(d)
    requires tail == [] || DigitValue(tail[0]) == 36
    ensures ParseMagnitude(d + tail) == Some(DecimalValue(d))
  {
    var u := d + tail;
    assert !(|u| >= 2 && u[0] == '0' && (u[1] == 'x' || u[1] == 'X')) by {
      if |u| >= 2 {
        assert u[1] == if |d| >= 2 then d[1] else tail[0];
      }
    }
    ParseMagnitudeDecimal(u);
    DigitPrefixOfDigits(d, tail);
  }

  /** Text starting with neither white space nor a sign is read as a plain magnitude. */
  lemma {:induction false} ParseIntUnsigned(s: string)
    requires s != [] && !IsWhiteSpace(s[0]) && s[0] != '-' && s[0] != '+'
    ensures ParseInt(s) == match ParseMagnitude(s) case None => NaN case Some(v) => Finite(v)
  {
    assert TrimStart(s) == s;
  }

  /** A leading minus sign is not white space and is read as the sign: the magnitude that follows, negated. */
  lemma {:induction false} ParseIntMinus(rest: string, v: nat)
    requires ParseMagnitude(rest) == Some(v)
    ensures ParseInt("-" + rest) == Finite(-(v as int))
  {
    var u := "-" + rest;
    assert u[0] == '-';
    assert TrimStart(u) == u;
    assert u[1..] == rest;
  }

  lemma {:induction false} ParseIntOfDigits(d: string, tail: string)
    requires |d| >= 1 && AllDigits(d)
    requires tail == [] || DigitValue(tail[0]) == 36
    ensures ParseInt(d + tail) == Finite(DecimalValue(d))
  {
    ParseMagnitudeOfDigits(d, tail);
    assert (d + tail)[0] == d[0];
    ParseIntUnsigned(d + tail);
  }

  lemma {:induction false} ParseIntOfNegativeDigits(d: string, tail: string)
    requires |d| >= 1 && AllDigits(d)
    requires tail == [] || DigitValue(tail[0]) == 36
    ensures ParseInt("-" + (d + tail)) == Finite(-(DecimalValue(d) as int))
  {
    ParseMagnitudeOfDigits(d, tail);
    ParseIntMinus(d + tail, DecimalValue(d));
  }

  /**
   * A decimal rendering followed by text that does not start with a letter or
   * a digit parses back to the number.
   */
  lemma {:induction false} ParseIntOfDecimal(n: int, tail: string)
    requires tail == [] || DigitValue(tail[0]) == 36
    ensures ParseInt(IntToDecimal(n) + tail) == Finite(n)
  {
    if n < 0 {
      ParseIntOfNegativeNat(-n, tail);
    } else {
      ParseIntOfNat(n, tail);
    }
  }

  lemma {:induction false} ParseIntOfNat(n: nat, tail: string)
    requires tail == [] || DigitValue(tail[0]) == 36
    ensures ParseInt(NatToDecimal(n) + tail) == Finite(n)
  {
    DecimalRoundTrip(n);
    ParseIntOfDigits(NatToDecimal(n), tail);
  }

  lemma {:induction false} ParseIntOfNegativeNat(n: nat, tail: string)
    requires tail == [] || DigitValue(tail[0]) == 36
    ensures ParseInt("-" + NatToDecimal(n) + tail) == Finite(-(n as int))
  {
    var d := NatToDecimal(n);
    DecimalRoundTrip(n);
    ParseIntOfNegativeDigits(d, tail);
    Regroup("-", d, tail);
  }

  /** The digit prefix of digits followed by a non-digit is exactly those digits. */
  lemma {:induction false} DigitPrefixOfDigits(d: string, tail: string)
    requires AllDigits(d)
    requires tail == [] || !IsDigit(tail[0])
    ensures DigitPrefix(d + tail, 10) == d
  {
    if |d| > 0 {
      assert (d + tail)[1..] == d[1..] + tail;
      DigitPrefixOfDigits(d[1..], tail);
    }
  }

  /** `value.toString()`; on null it throws a TypeError. */
  function ToString(v: JsValue): (r: Result<string, string>)
    ensures r.Err? <==> v == JsNull
    ensures v.JsString? ==> r == Ok(v.s)
    ensures v.JsNum? && v.n.Finite? ==> r == Ok(IntToDecimal(v.n.value))
    ensures v.JsNum? && v.n.Fraction? ==> r == Ok(v.n.rendering)
    ensures v == JsNum(NaN) ==> r == Ok("NaN")
  {
    match v
    case JsString(s) => Ok(s)
    case JsNum(NaN) => Ok("NaN")
    case JsNum(Finite(n)) => Ok(IntToDecimal(n))
    case JsNum(Fraction(text)) => Ok(text)
    case JsNull => Err("Cannot read properties of null (reading 'toString')")
  }
}
