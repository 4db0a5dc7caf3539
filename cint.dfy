/** The C integer types the extension uses, the narrowing of an `int` into an
    `int16`, and the C library's `atoi`. */
module CInt {

  newtype int16 = x: int | -0x8000 <= x < 0x8000
  newtype int32 = x: int | -0x8000_0000 <= x < 0x8000_0000

  /** Conversion of an integer value into `int16`, as the compilers the
      extension is built with perform it: two's-complement wrap-around. */
  function ToInt16(x: int): (r: int16)
    ensures (r as int - x) % 0x1_0000 == 0
    ensures -0x8000 <= x < 0x8000 ==> r as int == x
  {
    var m := x % 0x1_0000;
    if m < 0x8000 then m as int16 else (m - 0x1_0000) as int16
  }

  predicate IsDigit(c: char) {
    '0' <= c <= '9'
  }

  /** The characters `isspace` accepts in the C locale. */
  predicate IsSpace(c: char) {
    c == ' ' || c == '\t' || c == '\n' || c == '\U{000B}' || c == '\U{000C}' || c == '\r'
  }

  predicate AllDigits(s: string) {
    forall i :: 0 <= i < |s| ==> IsDigit(s[i])
  }

  function DigitValue(c: char): (d: nat)
    requires IsDigit(c)
    ensures d < 10
  {
    c as int - '0' as int
  }

  function Digit(d: nat): (c: char)
    requires d < 10
    ensures IsDigit(c) && DigitValue(c) == d
  {
    ('0' as int + d) as char
  }

  /** What is left of `s` once its leading white space is skipped. */
  function SkipSpaces(s: string): (r: string)
    ensures |r| <= |s| && r == s[|s| - |r|..]
    ensures r == [] || !IsSpace(r[0])
    ensures forall i :: 0 <= i < |s| - |r| ==> IsSpace(s[i])
  {
    if s != [] && IsSpace(s[0]) then SkipSpaces(s[1..]) else s
  }

  /** The longest prefix of `s` made of decimal digits. */
  function LeadingDigits(s: string): (r: string)
    ensures |r| <= |s| && r == s[..|r|]
    ensures AllDigits(r)
    ensures |r| < |s| ==> !IsDigit(s[|r|])
  {
    if s != [] && IsDigit(s[0]) then [s[0]] + LeadingDigits(s[1..]) else []
  }

  /** The value of a string of decimal digits, most significant first. */
  function DigitsValue(ds: string): nat
    requires AllDigits(ds)
  {
    if ds == [] then 0 else DigitsValue(ds[..|ds| - 1]) * 10 + DigitValue(ds[|ds| - 1])
  }

  /** The mathematical value `atoi` reads from `s`: white space, then what
      `SignedValue` reads. */
  function AtoiValue(s: string): (v: int)
    ensures var t := SkipSpaces(s);
            t == [] || !(t[0] == '-' || t[0] == '+' || IsDigit(t[0])) ==> v == 0
    ensures v < 0 ==> SkipSpaces(s) != [] && SkipSpaces(s)[0] == '-'
  {
    SignedValue(SkipSpaces(s))
  }

  /** An optional sign, then the longest run of digits; anything after it is
      ignored, and text with no digits there reads as 0. */
  function SignedValue(t: string): (v: int)
    ensures t == [] || !(t[0] == '-' || t[0] == '+' || IsDigit(t[0])) ==> v == 0
    ensures v < 0 ==> t != [] && t[0] == '-'
    ensures v > 0 ==> t != [] && t[0] != '-'
  {
    if t != [] && t[0] == '-' then -(DigitsValue(LeadingDigits(t[1..])) as int)
    else if t != [] && t[0] == '+' then DigitsValue(LeadingDigits(t[1..]))
    else DigitsValue(LeadingDigits(t))
  }

  /** `atoi(s)` stored into an `int16` variable. */
  function Atoi16(s: string): (r: int16)
    ensures (r as int - AtoiValue(s)) % 0x1_0000 == 0
    ensures -0x8000 <= AtoiValue(s) < 0x8000 ==> r as int == AtoiValue(s)
  {
    ToInt16(AtoiValue(s))
  }

  /** The canonical decimal rendering of a natural number. */
  function Decimal(n: nat): (r: string)
    ensures r != [] && AllDigits(r)
  {
    if n < 10 then [Digit(n)] else Decimal(n / 10) + [Digit(n % 10)]
  }

  lemma {:induction false} DigitsValueDecimal(n: nat)
    ensures DigitsValue(Decimal(n)) == n
  {
    var d := Decimal(n);
    if n < 10 {
      assert d[..|d| - 1] == [];
    } else {
      assert d[..|d| - 1] == Decimal(n / 10);
      DigitsValueDecimal(n / 10);
    }
  }

  /** The digit scan stops exactly at the first character that is not a digit. */
  lemma {:induction false} LeadingDigitsStops(ds: string, rest: string)
    requires AllDigits(ds)
    requires rest == [] || !IsDigit(rest[0])
    ensures LeadingDigits(ds + rest) == ds
  {
    if ds != [] {
      assert (ds + rest)[1..] == ds[1..] + rest;
      LeadingDigitsStops(ds[1..], rest);
    }
  }

  /** `atoi` reads back the number a decimal rendering was made from, with or
      without a minus sign, whatever non-digit text follows it. */
  lemma AtoiDecimal(n: nat, rest: string)
    requires rest == [] || !IsDigit(rest[0])
    ensures AtoiValue(Decimal(n) + rest) == n
    ensures AtoiValue("-" + Decimal(n) + rest) == -(n as int)
  {
    AtoiUnsigned(n, rest);
    AtoiNegated(n, rest);
  }

  lemma AtoiUnsigned(n: nat, rest: string)
    requires rest == [] || !IsDigit(rest[0])
    ensures AtoiValue(Decimal(n) + rest) == n
  {
    var t := Decimal(n) + rest;
    assert t[0] == Decimal(n)[0];
    NoSpaceFirst(t);
    DigitsRead(n, rest);
  }

  lemma AtoiNegated(n: nat, rest: string)
    requires rest == [] || !IsDigit(rest[0])
    ensures AtoiValue("-" + Decimal(n) + rest) == -(n as int)
  {
    var u := "-" + (Decimal(n) + rest);
    assert "-" + Decimal(n) + rest == u;
    assert u[1..] == Decimal(n) + rest;
    NoSpaceFirst(u);
    DigitsRead(n, rest);
  }

  /** Text that does not start with white space is read from its start. */
  lemma NoSpaceFirst(t: string)
    requires t != [] && !IsSpace(t[0])
    ensures AtoiValue(t) == SignedValue(t)
  {
  }

  /** The digit scan over a decimal rendering followed by non-digits yields
      the rendered number. */
  lemma DigitsRead(n: nat, rest: string)
    requires rest == [] || !IsDigit(rest[0])
    ensures DigitsValue(LeadingDigits(Decimal(n) + rest)) == n
  {
    DigitsValueDecimal(n);
    LeadingDigitsStops(Decimal(n), rest);
  }

  /** A decimal option value that fits an `int16` is read back unchanged. */
  lemma Atoi16Decimal(n: nat)
    requires n < 0x8000
    ensures Atoi16(Decimal(n)) as int == n
  {
    AtoiDecimal(n, []);
    assert Decimal(n) + [] == Decimal(n);
  }

  /** A decimal value from 32768 to 65535 (a valid TCP port) lands on a
      negative `int16` once narrowed. */
  lemma Atoi16HighIsNegative(n: nat)
    requires 0x8000 <= n < 0x1_0000
    ensures Atoi16(Decimal(n)) as int == n - 0x1_0000
  {
    AtoiDecimal(n, []);
    assert Decimal(n) + [] == Decimal(n);
    ToInt16High(n);
  }

  lemma ToInt16High(x: int)
    requires 0x8000 <= x < 0x1_0000
    ensures ToInt16(x) as int == x - 0x1_0000
  {
    assert x % 0x1_0000 == x;
  }
}
