/** The global `parseInt(string, radix)` of ECMA-262 (section 19.2.5), as the
    product form calls it without a radix and the profile and user editors
    call it with radix 10. */
module JsParseInt {
  import opened Wrappers
  import opened Chars
  import opened JsValue
  import opened Patterns

  /** The input without its leading whitespace. */
  function TrimStart(s: string): (t: string)
    ensures |t| <= |s|
  {
    if |s| > 0 && IsSpace(s[0]) then TrimStart(s[1..]) else s
  }

  /** Trimming drops exactly the leading whitespace: what is left is a suffix
      that does not start with whitespace, and everything dropped is whitespace. */
  lemma {:induction false} TrimStartMeaning(s: string)
    ensures var t := TrimStart(s);
      t == s[|s| - |t|..] && (|t| > 0 ==> !IsSpace(t[0])) &&
      forall i :: 0 <= i < |s| - |t| ==> IsSpace(s[i])
  {
    if |s| > 0 && IsSpace(s[0]) {
      TrimStartMeaning(s[1..]);
      var t := TrimStart(s);
      forall i | 0 <= i < |s| - |t|
        ensures IsSpace(s[i])
      {
        if i > 0 {
          assert s[i] == s[1..][i - 1];
        }
      }
    }
  }

  /** The value of a digit in radices up to 36 ('a'/'A' = 10 ... 'z'/'Z' = 35);
      36 for a character that is a digit in no radix. */
  function DigitValue(c: char): (d: nat)
    ensures d <= 36
    ensures IsDigit(c) ==> d == c as int - '0' as int
  {
    if '0' <= c <= '9' then c as int - '0' as int
    else if 'a' <= c <= 'z' then c as int - 'a' as int + 10
    else if 'A' <= c <= 'Z' then c as int - 'A' as int + 10
    else 36
  }

  /** The length of the longest prefix of `s` made of digits of `radix`. */
  function DigitRun(s: string, radix: nat): (k: nat)
    ensures k <= |s|
  {
    if |s| > 0 && DigitValue(s[0]) < radix then 1 + DigitRun(s[1..], radix) else 0
  }

  /** The run is as long as it can be: every character in it is a digit of
      the radix and the one after it is not. */
  lemma {:induction false} DigitRunMeaning(s: string, radix: nat)
    ensures var k := DigitRun(s, radix);
      (forall i :: 0 <= i < k ==> DigitValue(s[i]) < radix) &&
      (k < |s| ==> DigitValue(s[k]) >= radix)
  {
    if |s| > 0 && DigitValue(s[0]) < radix {
      DigitRunMeaning(s[1..], radix);
      var k := DigitRun(s, radix);
      forall i | 0 <= i < k
        ensures DigitValue(s[i]) < radix
      {
        if i > 0 {
          assert s[i] == s[1..][i - 1];
        }
      }
    }
  }

  /** The number a numeral denotes in `radix`, most significant digit first. */
  function DigitsValue(z: string, radix: nat): nat {
    if |z| == 0 then 0 else DigitsValue(z[..|z| - 1], radix) * radix + DigitValue(z[|z| - 1])
  }

  /** The text after one leading `+` or `-`. */
  function StripSign(s: string): (u: string)
    ensures |s| > 0 && (s[0] == '-' || s[0] == '+') ==> u == s[1..]
    ensures !(|s| > 0 && (s[0] == '-' || s[0] == '+')) ==> u == s
  {
    if |s| > 0 && (s[0] == '-' || s[0] == '+') then s[1..] else s
  }

  /** Whether a `0x`/`0X` prefix is taken: only when the radix is absent or 16. */
  predicate HexPrefix(u: string, radix: int) {
    (radix == 0 || radix == 16) && |u| >= 2 && u[0] == '0' && (u[1] == 'x' || u[1] == 'X')
  }

  /** The value of the unsigned part: after an optional hex prefix, the longest
      run of digits of the radix (10 when absent); `None` when the run is empty. */
  function Magnitude(u: string, radix: int): (m: Option<nat>)
    requires radix == 0 || 2 <= radix <= 36
  {
    var hex := HexPrefix(u, radix);
    var body := if hex then u[2..] else u;
    var base := if hex then 16 else if radix == 0 then 10 else radix;
    var end := DigitRun(body, base);
    if end == 0 then None else Some(DigitsValue(body[..end], base))
  }

  /** `parseInt(input, radix)`; a radix of 0 stands for an absent radix, as
      ToInt32(undefined) is 0. Skip leading whitespace, take one sign, take a
      `0x`/`0X` prefix when the radix is absent or 16, then the longest run of
      digits; no digits gives NaN, as does a radix outside 2..36. */
  function ParseInt(input: string, radix: int): (r: Value)
    ensures r.Num? || r.NaN?
  {
    var s := TrimStart(input);
    if radix != 0 && (radix < 2 || 36 < radix) then NaN
    else
      match Magnitude(StripSign(s), radix)
      case None => NaN
      case Some(m) => Num(if |s| > 0 && s[0] == '-' then -(m as int) else m)
  }

  /** Reading back a decimal numeral gives the number it was printed from. */
  lemma {:induction false} DecimalValue(n: nat)
    ensures DigitsValue(NatDecimal(n), 10) == n
    decreases n
  {
    var s := NatDecimal(n);
    if n >= 10 {
      DecimalValue(n / 10);
      assert s[..|s| - 1] == NatDecimal(n / 10);
    }
  }

  /** A string made only of radix digits is read to its end. */
  lemma {:induction false} DigitRunWhole(s: string, radix: nat)
    requires forall i :: 0 <= i < |s| ==> DigitValue(s[i]) < radix
    ensures DigitRun(s, radix) == |s|
  {
    if |s| > 0 {
      DigitRunWhole(s[1..], radix);
    }
  }

  /** A string of decimal digits has no hex prefix (its second character is a
      digit, not an `x`) and is read to its end as a decimal number. */
  lemma DigitStringMagnitude(s: string, radix: int)
    requires AllDigits(s) && (radix == 10 || radix == 0)
    ensures Magnitude(s, radix) == Some(DigitsValue(s, 10))
  {
    if |s| >= 2 {
      assert IsDigit(s[1]);
    }
    assert !HexPrefix(s, radix);
    DigitRunWhole(s, 10);
    assert s[..|s|] == s;
  }

  /** A string of decimal digits is neither trimmed nor signed: parseInt reads
      all of it as a decimal number, with or without radix 10. */
  lemma ParseDigitString(s: string, radix: int)
    requires AllDigits(s) && (radix == 10 || radix == 0)
    ensures ParseInt(s, radix) == Num(DigitsValue(s, 10))
  {
    assert !IsSpace(s[0]);
    assert TrimStart(s) == s;
    assert StripSign(s) == s;
    DigitStringMagnitude(s, radix);
  }

  /** The same string after a minus sign reads as the negated number. */
  lemma ParseNegativeDigitString(s: string, radix: int)
    requires AllDigits(s) && (radix == 10 || radix == 0)
    ensures ParseInt("-" + s, radix) == Num(-(DigitsValue(s, 10) as int))
  {
    var t := "-" + s;
    assert !IsSpace(t[0]);
    assert TrimStart(t) == t;
    assert StripSign(t) == s;
    DigitStringMagnitude(s, radix);
  }

  /** Round trip: parseInt(String(n), 10) and parseInt(String(n)) are `n`. */
  lemma ParseIntRoundTrip(n: int)
    ensures ParseInt(ToStr(Num(n)), 10) == Num(n)
    ensures ParseInt(ToStr(Num(n)), 0) == Num(n)
  {
    var m := if n < 0 then -n else n;
    DecimalValue(m);
    NatDecimalDigits(m);
    if n >= 0 {
      ParseDigitString(NatDecimal(m), 10);
      ParseDigitString(NatDecimal(m), 0);
    } else {
      ParseNegativeDigitString(NatDecimal(m), 10);
      ParseNegativeDigitString(NatDecimal(m), 0);
    }
  }
}
