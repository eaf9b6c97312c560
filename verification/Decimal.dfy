/** Decimal text of integers, as the program prints and parses them: natural numbers for
    the numbered model ids, signed 32-bit numbers with an optional sign for exit codes.
    Printing and parsing back is the identity, so no two numbers print alike. */
module Decimal {
  import opened Common

  predicate IsDigit(c: char) {
    '0' <= c <= '9'
  }

  function Digit(d: nat): char
    requires d < 10
  {
    ('0' as int + d) as char
  }

  function PrintNat(n: nat): (s: string)
    ensures s != "" && forall i :: 0 <= i < |s| ==> IsDigit(s[i])
  {
    if n < 10 then [Digit(n)] else PrintNat(n / 10) + [Digit(n % 10)]
  }

  function ParseDigits(s: string): Option<nat> {
    if s == "" then Some(0)
    else if !IsDigit(s[|s| - 1]) then None
    else match ParseDigits(s[..|s| - 1])
      case None => None
      case Some(n) => Some(n * 10 + (s[|s| - 1] as int - '0' as int))
  }

  function PrintInt(n: int): (s: string)
    ensures s != ""
  {
    if n < 0 then "-" + PrintNat(-n) else PrintNat(n)
  }

  predicate InI32(n: int) {
    -0x8000_0000 <= n < 0x8000_0000
  }

  /** `str::parse::<i32>`: an optional sign, at least one digit, within range. */
  function ParseI32(s: string): Option<int> {
    var negative := s != "" && s[0] == '-';
    var digits := if s != "" && (s[0] == '-' || s[0] == '+') then s[1..] else s;
    if digits == "" then None
    else match ParseDigits(digits)
      case None => None
      case Some(n) => var v: int := if negative then -(n as int) else n; if InI32(v) then Some(v) else None
  }

  lemma {:induction false} PrintedNatParses(n: nat)
    ensures ParseDigits(PrintNat(n)) == Some(n)
  {
    var s := PrintNat(n);
    if n < 10 {
      assert s[..|s| - 1] == "";
    } else {
      PrintedNatParses(n / 10);
      assert s[..|s| - 1] == PrintNat(n / 10);
    }
  }

  lemma {:induction false} PrintedIntParses(n: int)
    requires InI32(n)
    ensures ParseI32(PrintInt(n)) == Some(n)
  {
    var m := if n < 0 then -n else n;
    PrintedNatParses(m);
    assert IsDigit(PrintNat(m)[0]);
    if n < 0 { assert PrintInt(n)[1..] == PrintNat(-n); }
  }

  /** A plus sign is read too; what is out of range, or is no numeral, is not. */
  lemma {:induction false} OtherNumerals(n: nat, s: string, i: nat)
    requires i < |s| && !IsDigit(s[i]) && (i > 0 || (s[0] != '-' && s[0] != '+'))
    ensures n <= 2147483647 ==> ParseI32("+" + PrintNat(n)) == Some(n)
    ensures n > 2147483647 ==> ParseI32(PrintNat(n)) == None && ParseI32("+" + PrintNat(n)) == None
    ensures n > 2147483648 ==> ParseI32("-" + PrintNat(n)) == None
    ensures ParseI32(s) == None && ParseI32("") == ParseI32("-") == ParseI32("+") == None
  {
    PrintedNatParses(n);
    assert IsDigit(PrintNat(n)[0]);
    assert ("+" + PrintNat(n))[1..] == PrintNat(n) && ("-" + PrintNat(n))[1..] == PrintNat(n);
    assert "-"[1..] == "" && "+"[1..] == "";
    var digits := if s[0] == '-' || s[0] == '+' then s[1..] else s;
    NoNumeral(digits, if s[0] == '-' || s[0] == '+' then i - 1 else i);
  }

  lemma {:induction false} NoNumeral(s: string, i: nat)
    requires i < |s| && !IsDigit(s[i])
    ensures ParseDigits(s) == None
  {
    if i < |s| - 1 { NoNumeral(s[..|s| - 1], i); }
  }

  lemma {:induction false} PrintedNatsDiffer(a: nat, b: nat)
    requires PrintNat(a) == PrintNat(b)
    ensures a == b
  {
    PrintedNatParses(a);
    PrintedNatParses(b);
  }
}
