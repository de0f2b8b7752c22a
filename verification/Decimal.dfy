/** Decimal printing, and parsing as `str::parse` does it for i64 and usize. */
module Decimal {
  import opened Wrappers

  const I64_MIN: int := -0x8000_0000_0000_0000
  const I64_MAX: int := 0x7fff_ffff_ffff_ffff
  const USIZE_MAX: int := 0xffff_ffff_ffff_ffff

  function Digit(d: nat): char
    requires d < 10
  {
    ['0', '1', '2', '3', '4', '5', '6', '7', '8', '9'][d]
  }

  function PrintNat(n: nat): (s: string)
    ensures s != []
  {
    if n < 10 then [Digit(n)] else PrintNat(n / 10) + [Digit(n % 10)]
  }

  /** `i64::to_string`. */
  function PrintInt(n: int): string { if n < 0 then "-" + PrintNat(-n) else PrintNat(n) }

  predicate IsDigit(c: char) { '0' <= c <= '9' }

  /** The digits' value, leading zeros and all. */
  function Value(s: string): Option<nat> {
    if s == [] then Some(0) else
    var c := s[|s| - 1];
    match Value(s[..|s| - 1])
    case Some(v) => if IsDigit(c) then Some(10 * v + (c as int - '0' as int)) else None
    case None => None
  }

  /** Parsing digits requires at least one. */
  function Digits(s: string): Option<nat> { if s == [] then None else Value(s) }

  function Within(v: Option<int>, low: int, high: int): Option<int> {
    if v.Some? && low <= v.value <= high then v else None
  }

  function Negated(v: Option<nat>): Option<int> {
    if v == None then None else
    var n := (0 as int) - (v.value as int);
    Some(n)
  }

  /** A sign is accepted, and leading zeros; a value out of range is an error. */
  function ParseI64(s: string): Option<int> {
    if s == [] then None
    else if s[0] == '-' then Within(Negated(Digits(s[1..])), I64_MIN, I64_MAX)
    else if s[0] == '+' then Within(Digits(s[1..]), I64_MIN, I64_MAX)
    else Within(Digits(s), I64_MIN, I64_MAX)
  }

  function ParseUsize(s: string): Option<int> {
    if s == [] then None
    else if s[0] == '+' then Within(Digits(s[1..]), 0, USIZE_MAX)
    else Within(Digits(s), 0, USIZE_MAX)
  }

  lemma {:induction false} ValueOfPrint(n: nat)
    ensures Value(PrintNat(n)) == Some(n) && IsDigit(PrintNat(n)[0])
  {
    if n >= 10 {
      ValueOfPrint(n / 10);
      assert PrintNat(n)[..|PrintNat(n)| - 1] == PrintNat(n / 10);
    } else {
      assert PrintNat(n)[..0] == [];
    }
  }

  /** Printing and parsing is the identity on all of i64. */
  lemma ParsePrintI64(n: int)
    requires I64_MIN <= n <= I64_MAX
    ensures ParseI64(PrintInt(n)) == Some(n)
  {
    ValueOfPrint(if n < 0 then -n else n);
    if n < 0 { assert PrintInt(n)[1..] == PrintNat(-n); }
  }

  lemma ParsePrintUsize(n: nat)
    requires n <= USIZE_MAX
    ensures ParseUsize(PrintNat(n)) == Some(n)
  {
    ValueOfPrint(n);
  }

  /** Base ten: one digit is itself, another digit is appended, and a minus sign precedes. */
  lemma PrintedInBaseTen(n: nat, d: nat)
    requires d < 10
    ensures PrintInt(d) == ["0123456789"[d]]
    ensures n > 0 ==> PrintInt(10 * n + d) == PrintInt(n) + ["0123456789"[d]] && PrintInt(0 - n as int) == "-" + PrintInt(n)
  {
    assert (10 * n + d) / 10 == n && (10 * n + d) % 10 == d;
  }

  lemma PrintInjective(n: nat, m: nat)
    ensures PrintNat(n) == PrintNat(m) ==> n == m
  {
    ValueOfPrint(n);
    ValueOfPrint(m);
  }
}
