/** `strconv.Atoi` on a 64-bit platform, which the DELETE route uses to
    read its path id, with `strconv.Itoa` as its inverse. */
module Strconv {
  import opened Errors

  const MaxUint64: int := 0xFFFF_FFFF_FFFF_FFFF
  const MaxInt64: int := 0x7FFF_FFFF_FFFF_FFFF
  const MinInt64: int := -0x8000_0000_0000_0000

  predicate IsDigit(c: char) { '0' <= c <= '9' }

  predicate AllDigits(s: string) { forall i :: 0 <= i < |s| ==> IsDigit(s[i]) }

  function DigitValue(c: char): nat
    requires IsDigit(c)
  {
    c as int - '0' as int
  }

  /** The number a string of decimal digits denotes, read left to right. */
  function DigitsValue(ds: string): nat
    requires AllDigits(ds)
  {
    if ds == [] then 0 else 10 * DigitsValue(ds[..|ds| - 1]) + DigitValue(ds[|ds| - 1])
  }

  /** Length of the longest all-digit prefix of s. */
  function DigitPrefix(s: string): (n: nat)
    ensures n <= |s| && AllDigits(s[..n])
    ensures n < |s| ==> !IsDigit(s[n])
  {
    if s == [] || !IsDigit(s[0]) then 0
    else
      var n := 1 + DigitPrefix(s[1..]);
      assert s[..n] == [s[0]] + s[1..][..n - 1];
      n
  }

  /** Why a number does not parse: strconv.ErrSyntax or strconv.ErrRange. */
  datatype NumErrorKind = ErrSyntax | ErrRange

  datatype Parsed = Value(n: int) | Invalid(reason: NumErrorKind)

  /** `strconv.ParseUint(s, 10, 64)`. Go scans left to right and reports a
      range error as soon as the digits read so far exceed 2^64-1, so an
      overlong digit prefix is a range error even when a bad character
      follows it. */
  function ParseUint(s: string): Parsed
  {
    var j := DigitPrefix(s);
    if DigitsValue(s[..j]) > MaxUint64 then Invalid(ErrRange)
    else if s == [] || j < |s| then Invalid(ErrSyntax)
    else (assert s[..j] == s; Value(DigitsValue(s)))
  }

  /** `strconv.ParseInt(s, 10, 64)`: one optional sign, then ParseUint,
      then the int64 bounds. */
  function ParseInt(s: string): Parsed
  {
    if s == [] then Invalid(ErrSyntax)
    else
      var neg := s[0] == '-';
      var body := if s[0] == '+' || s[0] == '-' then s[1..] else s;
      match ParseUint(body)
      case Invalid(k) => Invalid(k)
      case Value(u) =>
        if !neg && u > MaxInt64 then Invalid(ErrRange)
        else if neg && u > -MinInt64 then Invalid(ErrRange)
        else Value(if neg then -u else u)
  }

  function Reason(k: NumErrorKind): string
  {
    match k
    case ErrSyntax => "invalid syntax"
    case ErrRange => "value out of range"
  }

  /** `strconv.Atoi(s)`: the int64 that s spells, or a *NumError. */
  function Atoi(s: string): (r: Result<int>)
    ensures r.Ok? ==> MinInt64 <= r.value <= MaxInt64
    ensures r.Ok? ==> s != [] && AllDigits(s[1..]) && (IsDigit(s[0]) || s[0] in "+-")
    ensures r.Ok? ==> (if IsDigit(s[0]) then s else s[1..]) != []
    ensures r.Ok? ==> (if s[0] == '-' then -r.value else r.value) == DigitsValue(if IsDigit(s[0]) then s else s[1..])
    ensures r.Fail? ==> r.error.Other?
  {
    match ParseInt(s)
    case Value(n) => Ok(n)
    case Invalid(k) => Fail(Other("strconv.Atoi: parsing \"" + s + "\": " + Reason(k)))
  }

  function DigitChar(d: nat): (c: char)
    requires d < 10
    ensures IsDigit(c) && DigitValue(c) == d
  {
    ('0' as int + d) as char
  }

  /** The decimal digits of n, without leading zeros. */
  function Digits(n: nat): (s: string)
    ensures s != [] && AllDigits(s)
  {
    if n < 10 then [DigitChar(n)] else Digits(n / 10) + [DigitChar(n % 10)]
  }

  /** `strconv.Itoa(n)`. */
  function Itoa(n: int): string
  {
    if n < 0 then "-" + Digits(-n) else Digits(n)
  }

  lemma {:induction false} DigitsValueOfDigits(n: nat)
    ensures DigitsValue(Digits(n)) == n
  {
    if n >= 10 {
      var s := Digits(n);
      assert s[..|s| - 1] == Digits(n / 10);
      DigitsValueOfDigits(n / 10);
    }
  }

  /** Atoi reads back every int64 that Itoa writes. */
  lemma AtoiItoa(n: int)
    requires MinInt64 <= n <= MaxInt64
    ensures Atoi(Itoa(n)) == Ok(n)
  {
    var m := if n < 0 then -n else n;
    var ds := Digits(m);
    DigitsValueOfDigits(m);
    assert DigitPrefix(ds) == |ds|;
    assert ds[..|ds|] == ds;
    assert ParseUint(ds) == Value(m);
    if n < 0 {
      assert ("-" + ds)[1..] == ds;
    }
  }

  /** Conversely, every decimal numeral within int64, with an optional
      sign and leading zeros allowed, parses to its value. */
  lemma AtoiDecimal(sign: string, ds: string)
    requires sign in {"", "+", "-"} && ds != [] && AllDigits(ds)
    requires MinInt64 <= (if sign == "-" then -(DigitsValue(ds) as int) else DigitsValue(ds)) <= MaxInt64
    ensures Atoi(sign + ds) == Ok(if sign == "-" then -(DigitsValue(ds) as int) else DigitsValue(ds))
  {
    assert DigitPrefix(ds) == |ds|;
    assert ds[..|ds|] == ds;
    assert ParseUint(ds) == Value(DigitsValue(ds));
    var s := sign + ds;
    if sign == "" {
      assert s == ds && !(s[0] == '+' || s[0] == '-');
    } else {
      assert s[0] == sign[0] && s[1..] == ds;
    }
  }

  /** A missing path variable reads as the empty string, which Atoi rejects. */
  lemma AtoiEmpty()
    ensures Atoi("") == Fail(Other("strconv.Atoi: parsing \"\": invalid syntax"))
  {
  }
}
