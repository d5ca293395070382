/**
  The three ECMAScript number built-ins the routers rely on, over unbounded
  integers and reals:
  - `parseInt(string)` with no radix (section 19.2.5 of ECMA-262);
  - `Number::toString` for an integral value, used by the template literals
    that put a parsed id into an error message;
  - `parseFloat(x.toFixed(2))` (section 21.1.3.3 of ECMA-262), used to round
    an average to two decimals.
  A parse that yields NaN is `None`.
*/
module JsNumber {
  import opened Wrappers

  /** WhiteSpace and LineTerminator code points, which `parseInt` skips at the start. */
  predicate IsWhiteSpace(c: char) {
    || c == '\t' || c == '\n' || c == '\U{000B}' || c == '\U{000C}' || c == '\r'
    || c == ' ' || c == '\U{00A0}' || c == '\U{1680}'
    || ('\U{2000}' <= c <= '\U{200A}')
    || c == '\U{2028}' || c == '\U{2029}' || c == '\U{202F}' || c == '\U{205F}'
    || c == '\U{3000}' || c == '\U{FEFF}'
  }

  predicate IsDecimalDigit(c: char) {
    '0' <= c <= '9'
  }

  /** Whether `c` is a digit of radix 10 or 16 (letters of either case for 16). */
  predicate IsDigit(c: char, radix: nat) {
    if radix == 16 then IsDecimalDigit(c) || 'a' <= c <= 'f' || 'A' <= c <= 'F'
    else IsDecimalDigit(c)
  }

  function DigitValue(c: char): (v: nat)
    ensures IsDecimalDigit(c) ==> v < 10
    ensures IsDigit(c, 16) ==> v < 16
  {
    if IsDecimalDigit(c) then c as nat - '0' as nat
    else if 'a' <= c <= 'f' then c as nat - 'a' as nat + 10
    else if 'A' <= c <= 'F' then c as nat - 'A' as nat + 10
    else 0
  }

  /** `s` without its leading white space (TrimString(s, start)). */
  function TrimStart(s: string): (r: string)
    ensures |r| <= |s| && r == s[|s| - |r|..]
    ensures forall i :: 0 <= i < |s| - |r| ==> IsWhiteSpace(s[i])
    ensures r == [] || !IsWhiteSpace(r[0])
  {
    if s != [] && IsWhiteSpace(s[0]) then TrimStart(s[1..]) else s
  }

  /** The length of the longest prefix of `s` made of radix-`radix` digits. */
  function DigitPrefixLength(s: string, radix: nat): (n: nat)
    ensures n <= |s|
    ensures forall i :: 0 <= i < n ==> IsDigit(s[i], radix)
    ensures n < |s| ==> !IsDigit(s[n], radix)
  {
    if s == [] || !IsDigit(s[0], radix) then 0 else 1 + DigitPrefixLength(s[1..], radix)
  }

  /** The integer that the digit string `z` denotes in radix `radix`, most significant digit first. */
  function ValueOf(z: string, radix: nat): nat {
    if z == [] then 0 else ValueOf(z[..|z| - 1], radix) * radix + DigitValue(z[|z| - 1])
  }

  /** `t` without one leading `+` or `-`. */
  function StripSign(t: string): string {
    if |t| > 0 && (t[0] == '+' || t[0] == '-') then t[1..] else t
  }

  predicate HasHexPrefix(u: string) {
    |u| >= 2 && u[0] == '0' && (u[1] == 'x' || u[1] == 'X')
  }

  /** The value of the longest digit prefix of `d`, or NaN when `d` does not start with a digit. */
  function ParseDigits(d: string, radix: nat): Option<nat> {
    var n := DigitPrefixLength(d, radix);
    if n == 0 then None else Some(ValueOf(d[..n], radix))
  }

  /** An unsigned number: radix 16 after a `0x`/`0X` prefix, radix 10 otherwise. */
  function ParseMagnitude(u: string): Option<nat> {
    if HasHexPrefix(u) then ParseDigits(u[2..], 16) else ParseDigits(u, 10)
  }

  /**
    `parseInt(s)`: skip leading white space, take an optional sign, read a
    `0x`/`0X` prefix as radix 16 (radix 10 otherwise), and convert the longest
    prefix of digits; no digits at all is NaN.
  */
  function ParseInt(s: string): Option<int> {
    ParseTrimmed(TrimStart(s))
  }

  /** `parseInt` once the leading white space is gone: sign, then magnitude. */
  function ParseTrimmed(t: string): Option<int> {
    match ParseMagnitude(StripSign(t))
    case None => None
    case Some(v) =>
      var magnitude: int := v;
      Some(if |t| > 0 && t[0] == '-' then -magnitude else magnitude)
  }

  /** The decimal digits of `n`, without leading zeros. */
  function NatToDigits(n: nat): (z: string)
    ensures |z| > 0
    ensures forall i :: 0 <= i < |z| ==> IsDecimalDigit(z[i])
    ensures n == 0 ==> z == "0"
    ensures n > 0 ==> z[0] != '0'
    decreases n
  {
    if n < 10 then [('0' as nat + n) as char]
    else NatToDigits(n / 10) + [('0' as nat + n % 10) as char]
  }

  /** `Number::toString` of an integral value: a minus sign for negatives, then the decimal digits. */
  function IntToString(n: int): string {
    if n < 0 then "-" + NatToDigits(-n) else NatToDigits(n)
  }

  lemma {:induction false} ValueOfDigits(n: nat)
    ensures ValueOf(NatToDigits(n), 10) == n
    decreases n
  {
    var z := NatToDigits(n);
    if n >= 10 {
      ValueOfDigits(n / 10);
      assert z[..|z| - 1] == NatToDigits(n / 10);
    }
  }

  /** A run of digits followed by a non-digit (or nothing) is exactly the digit prefix. */
  lemma {:induction false} DigitPrefixOfDigits(z: string, rest: string, radix: nat)
    requires forall i :: 0 <= i < |z| ==> IsDigit(z[i], radix)
    requires rest == [] || !IsDigit(rest[0], radix)
    ensures DigitPrefixLength(z + rest, radix) == |z|
  {
    if z == [] {
      assert z + rest == rest;
    } else {
      assert (z + rest)[0] == z[0];
      assert (z + rest)[1..] == z[1..] + rest;
      DigitPrefixOfDigits(z[1..], rest, radix);
    }
  }

  /** The decimal digits of `m`, then text that does not continue them, read back as `m`. */
  lemma ParseMagnitudeOfDigits(m: nat, rest: string)
    requires rest == [] || !IsDecimalDigit(rest[0])
    requires m == 0 ==> rest == [] || (rest[0] != 'x' && rest[0] != 'X')
    ensures ParseMagnitude(NatToDigits(m) + rest) == Some(m)
  {
    var z := NatToDigits(m);
    var u := z + rest;
    assert !HasHexPrefix(u) by {
      if |u| >= 2 && u[0] == '0' {
        assert u[1] == rest[0];
      }
    }
    DigitPrefixOfDigits(z, rest, 10);
    assert u[..|z|] == z;
    ValueOfDigits(m);
  }

  /**
    Reading back what `Number::toString` wrote: `parseInt` of the decimal
    rendering of `n`, followed by any text that does not continue the number,
    gives `n` (so "7abc" parses as 7). The exception is a zero followed by `x`
    or `X`, which `parseInt` reads as a hexadecimal prefix.
  */
  lemma ParseIntOfDecimal(n: int, rest: string)
    requires rest == [] || !IsDecimalDigit(rest[0])
    requires n == 0 ==> rest == [] || (rest[0] != 'x' && rest[0] != 'X')
    ensures ParseInt(IntToString(n) + rest) == Some(n)
  {
    var m := if n < 0 then -n else n;
    var u := NatToDigits(m) + rest;
    assert u[0] == NatToDigits(m)[0];
    if n < 0 {
      assert IntToString(n) + rest == "-" + u;
      assert !IsWhiteSpace(("-" + u)[0]);
      ParseTrimmedSigned(m, rest);
    } else {
      assert IntToString(n) + rest == u;
      assert !IsWhiteSpace(u[0]);
      ParseTrimmedUnsigned(m, rest);
    }
  }

  /** Without a sign, the digits of `m` and a non-continuing tail read back as `m`. */
  lemma ParseTrimmedUnsigned(m: nat, rest: string)
    requires rest == [] || !IsDecimalDigit(rest[0])
    requires m == 0 ==> rest == [] || (rest[0] != 'x' && rest[0] != 'X')
    ensures ParseTrimmed(NatToDigits(m) + rest) == Some(m)
  {
    var u := NatToDigits(m) + rest;
    ParseMagnitudeOfDigits(m, rest);
    assert u[0] == NatToDigits(m)[0];
    assert StripSign(u) == u;
  }

  /** After a minus sign, the digits of `m` and a non-continuing tail read back as `-m`. */
  lemma ParseTrimmedSigned(m: nat, rest: string)
    requires rest == [] || !IsDecimalDigit(rest[0])
    requires m == 0 ==> rest == [] || (rest[0] != 'x' && rest[0] != 'X')
    ensures ParseTrimmed("-" + (NatToDigits(m) + rest)) == Some(-(m as int))
  {
    var u := NatToDigits(m) + rest;
    ParseMagnitudeOfDigits(m, rest);
    var s := "-" + u;
    assert s[0] == '-' && s[1..] == u;
    assert StripSign(s) == u;
  }

  /** A string that holds no decimal digit at all parses as NaN (hexadecimal needs its leading `0`). */
  lemma ParseIntWithoutDigits(s: string)
    requires forall i :: 0 <= i < |s| ==> !IsDecimalDigit(s[i])
    ensures ParseInt(s) == None
  {
    var t := TrimStart(s);
    forall i | 0 <= i < |t| ensures !IsDecimalDigit(t[i]) {
      assert t[i] == s[|s| - |t| + i];
    }
    ParseTrimmedWithoutDigits(t);
  }

  lemma ParseTrimmedWithoutDigits(t: string)
    requires forall i :: 0 <= i < |t| ==> !IsDecimalDigit(t[i])
    ensures ParseTrimmed(t) == None
  {
    var u := StripSign(t);
    assert u == [] || !IsDigit(u[0], 10);
    assert !HasHexPrefix(u);
    assert DigitPrefixLength(u, 10) == 0;
  }

  lemma {:induction false} TrimStartSkips(w: string, s: string)
    requires forall i :: 0 <= i < |w| ==> IsWhiteSpace(w[i])
    ensures TrimStart(w + s) == TrimStart(s)
  {
    if w == [] {
      assert w + s == s;
    } else {
      assert (w + s)[0] == w[0];
      assert (w + s)[1..] == w[1..] + s;
      TrimStartSkips(w[1..], s);
    }
  }

  /** Leading white space never changes what `parseInt` returns. */
  lemma ParseIntSkipsWhiteSpace(w: string, s: string)
    requires forall i :: 0 <= i < |w| ==> IsWhiteSpace(w[i])
    ensures ParseInt(w + s) == ParseInt(s)
  {
    TrimStartSkips(w, s);
  }

  /** toFixed(2) on a magnitude: the nearest multiple of 1/100, a tie going upward. */
  function RoundCents(m: real): (r: real)
    requires m >= 0.0
    ensures r >= 0.0
  {
    if m >= 1_000_000_000_000_000_000_000.0 then m
    else ((m * 100.0 + 0.5).Floor as real) / 100.0
  }

  /**
    `parseFloat(x.toFixed(2))`: toFixed rounds the magnitude to the nearest
    hundredth, a tie going to the larger magnitude, and keeps the sign
    (so it rounds half away from zero); from 10^21 on it leaves the value as is.
  */
  function ToFixed2(x: real): (r: real)
    ensures -0.005 <= r - x <= 0.005
    ensures (x < 0.0 ==> r <= 0.0) && (x >= 0.0 ==> r >= 0.0)
  {
    if x < 0.0 then -RoundCents(-x) else RoundCents(x)
  }

  /** Below 10^21 a rounded magnitude, times 100, is a whole number: a step of `ToFixed2IsCents`. */
  lemma RoundCentsIsCents(m: real)
    requires 0.0 <= m < 1_000_000_000_000_000_000_000.0
    ensures RoundCents(m) * 100.0 == (m * 100.0 + 0.5).Floor as real
  {
    var k := (m * 100.0 + 0.5).Floor;
    assert RoundCents(m) == k as real / 100.0;
  }

  /** The rounded value is a whole number of hundredths (below 10^21). */
  lemma ToFixed2IsCents(x: real)
    requires -1_000_000_000_000_000_000_000.0 < x < 1_000_000_000_000_000_000_000.0
    ensures (ToFixed2(x) * 100.0).Floor as real == ToFixed2(x) * 100.0
  {
    var c: int;
    if x < 0.0 {
      RoundCentsIsCents(-x);
      c := -(-x * 100.0 + 0.5).Floor;
      assert ToFixed2(x) == -RoundCents(-x);
    } else {
      RoundCentsIsCents(x);
      c := (x * 100.0 + 0.5).Floor;
      assert ToFixed2(x) == RoundCents(x);
    }
    assert ToFixed2(x) * 100.0 == c as real;
    assert (c as real).Floor == c;
  }

  /** A value that already has at most two decimals is left unchanged, so rounding is idempotent. */
  lemma ToFixed2OfCents(k: int)
    ensures ToFixed2(k as real / 100.0) == k as real / 100.0
  {
    var x := k as real / 100.0;
    if k >= 0 {
      assert (x * 100.0 + 0.5).Floor == k;
    } else {
      assert (-x * 100.0 + 0.5).Floor == -k;
    }
  }

  /**
    A value exactly halfway between two hundredths rounds to the one of
    larger magnitude: k + 1/2 hundredths becomes k + 1, and its negation
    becomes -(k + 1).
  */
  lemma ToFixed2HalfRoundsAway(k: nat)
    requires k < 100_000_000_000_000_000_000_000
    ensures ToFixed2((k as real + 0.5) / 100.0) == (k + 1) as real / 100.0
    ensures ToFixed2(-(k as real + 0.5) / 100.0) == -((k + 1) as real / 100.0)
  {
    var m := (k as real + 0.5) / 100.0;
    assert 0.0 <= m < 1_000_000_000_000_000_000_000.0;
    assert (m * 100.0 + 0.5).Floor == k + 1 by {
      assert m * 100.0 + 0.5 == (k + 1) as real;
    }
    assert RoundCents(m) == (k + 1) as real / 100.0;
    assert -(k as real + 0.5) / 100.0 == -m;
    assert ToFixed2(-m) == -RoundCents(m);
  }

  /** Rounding is symmetric about zero. */
  lemma ToFixed2Odd(x: real)
    ensures ToFixed2(-x) == -ToFixed2(x)
  {
  }
}
