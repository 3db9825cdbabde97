/** The two number/text conversions the points ledger relies on:
    JavaScript's `parseInt(s) || 0` when a stored balance is read, and
    `n.toString()` when a new balance is written back.

    `parseInt` is modelled on its decimal core only: an optional `+` or `-`
    sign followed by the longest run of decimal digits; anything after that
    run is ignored, and no digits at all gives `NaN`. */
module JsNumbers {

  predicate IsDigit(c: char) {
    '0' <= c <= '9'
  }

  predicate AllDigits(s: string) {
    forall i :: 0 <= i < |s| ==> IsDigit(s[i])
  }

  function DigitValue(c: char): (d: nat)
    requires IsDigit(c)
    ensures d < 10
  {
    c as int - '0' as int
  }

  function DigitChar(d: nat): (c: char)
    requires d < 10
    ensures IsDigit(c) && DigitValue(c) == d
  {
    ('0' as int + d) as char
  }

  /** The longest prefix of `s` made of decimal digits. */
  function LeadingDigits(s: string): (ds: string)
    ensures ds <= s && AllDigits(ds)
    ensures |ds| < |s| ==> !IsDigit(s[|ds|])
  {
    if s != [] && IsDigit(s[0]) then [s[0]] + LeadingDigits(s[1..]) else []
  }

  /** The value of a run of decimal digits, most significant first. */
  function DigitsValue(ds: string): nat
    requires AllDigits(ds)
  {
    if ds == [] then 0 else DigitsValue(ds[..|ds| - 1]) * 10 + DigitValue(ds[|ds| - 1])
  }

  predicate HasSign(s: string) {
    |s| > 0 && (s[0] == '-' || s[0] == '+')
  }

  /** The text after an optional leading sign. */
  function Unsigned(s: string): string {
    if HasSign(s) then s[1..] else s
  }

  /** What `parseInt` yields: a number, or `NaN`. */
  datatype Parsed = NaN | Num(n: int)

  function ParseInt(s: string): (p: Parsed)
    ensures p.NaN? <==> LeadingDigits(Unsigned(s)) == []
    ensures p.Num? && p.n < 0 ==> s[0] == '-'
  {
    var ds := LeadingDigits(Unsigned(s));
    if ds == [] then NaN
    else if s[0] == '-' then Num(-(DigitsValue(ds) as int))
    else Num(DigitsValue(ds))
  }

  /** `parseInt(s) || 0`: both `NaN` and zero are falsy and become 0. */
  function ParseIntOrZero(s: string): (n: int)
    ensures n == 0 <==> ParseInt(s) in {NaN, Num(0)}
    ensures ParseInt(s).Num? ==> n == ParseInt(s).n
  {
    match ParseInt(s)
    case NaN => 0
    case Num(v) => v
  }

  /** `n.toString()` for a non-negative integer: its decimal digits. */
  function NatToString(n: nat): (s: string)
    ensures |s| > 0 && AllDigits(s)
    ensures s[0] == '0' <==> n == 0
    ensures n == 0 ==> s == "0"
    ensures |s| > 1 ==> s[0] != '0'
  {
    if n < 10 then [DigitChar(n)] else NatToString(n / 10) + [DigitChar(n % 10)]
  }

  /** `n.toString()` for any integer: a minus sign, then the digits. */
  function IntToString(n: int): (s: string)
    ensures |s| > 0 && (s[0] == '-' <==> n < 0)
  {
    if n < 0 then "-" + NatToString(-n) else NatToString(n)
  }

  lemma {:induction false} NatToStringValue(n: nat)
    ensures DigitsValue(NatToString(n)) == n
  {
    var s := NatToString(n);
    if n < 10 {
      assert s[..|s| - 1] == [];
    } else {
      assert s[..|s| - 1] == NatToString(n / 10);
      NatToStringValue(n / 10);
    }
  }

  /** `parseInt` stops at the first character that is not a digit. */
  lemma {:induction false} LeadingDigitsOfDigitsThenOther(ds: string, rest: string)
    requires AllDigits(ds)
    requires rest == [] || !IsDigit(rest[0])
    ensures LeadingDigits(ds + rest) == ds
  {
    if ds != [] {
      assert (ds + rest)[1..] == ds[1..] + rest;
      LeadingDigitsOfDigitsThenOther(ds[1..], rest);
    }
  }

  /** `parseInt` of a digit run followed by non-digit text. */
  lemma {:induction false} ParseIntOfUnsignedRun(ds: string, rest: string)
    requires |ds| > 0 && AllDigits(ds)
    requires rest == [] || !IsDigit(rest[0])
    ensures ParseInt(ds + rest) == Num(DigitsValue(ds))
  {
    LeadingDigitsOfDigitsThenOther(ds, rest);
    assert (ds + rest)[0] == ds[0];
    assert !HasSign(ds + rest);
  }

  /** `parseInt` of a sign, a digit run, then non-digit text. */
  lemma {:induction false} ParseIntOfSignedRun(c: char, ds: string, rest: string)
    requires c == '+' || c == '-'
    requires |ds| > 0 && AllDigits(ds)
    requires rest == [] || !IsDigit(rest[0])
    ensures ParseInt([c] + (ds + rest)) ==
      Num(if c == '-' then -(DigitsValue(ds) as int) else DigitsValue(ds))
  {
    var text := [c] + (ds + rest);
    LeadingDigitsOfDigitsThenOther(ds, rest);
    assert text[0] == c && HasSign(text);
    assert text[1..] == ds + rest;
    assert LeadingDigits(Unsigned(text)) == ds;
  }

  /** The value read from any text: an optional sign, a non-empty run of
      digits (leading zeros allowed), then text that does not start with a
      digit. */
  lemma {:induction false} ParseIntOrZeroOfSignedRun(sign: string, ds: string, rest: string)
    requires sign == "" || sign == "+" || sign == "-"
    requires |ds| > 0 && AllDigits(ds)
    requires rest == [] || !IsDigit(rest[0])
    ensures ParseIntOrZero(sign + ds + rest) ==
      if sign == "-" then -(DigitsValue(ds) as int) else DigitsValue(ds)
  {
    var text := sign + ds + rest;
    if sign == "" {
      assert text == ds + rest;
      ParseIntOfUnsignedRun(ds, rest);
    } else {
      var c := sign[0];
      assert sign == [c];
      assert text == [c] + (ds + rest);
      ParseIntOfSignedRun(c, ds, rest);
    }
  }

  /** Reading back a written balance: whatever integer `toString` wrote,
      `parseInt(...) || 0` recovers it, even with trailing non-digit text. */
  lemma {:induction false} ParseIntOrZeroOfIntToString(n: int, rest: string)
    requires rest == [] || !IsDigit(rest[0])
    ensures ParseIntOrZero(IntToString(n) + rest) == n
  {
    var m: nat := if n < 0 then -n else n;
    var digits := NatToString(m);
    NatToStringValue(m);
    if n < 0 {
      assert IntToString(n) == "-" + digits;
      ParseIntOrZeroOfSignedRun("-", digits, rest);
    } else {
      assert IntToString(n) + rest == "" + digits + rest;
      ParseIntOrZeroOfSignedRun("", digits, rest);
    }
  }
}
