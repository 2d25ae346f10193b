/** Decimal text: `%d`/`%u` on non-negative numbers, and C's `atoi`. */
module Decimal {

  function Digit(d: nat): char
    requires d < 10
  {
    ('0' as int + d) as char
  }

  predicate IsDigit(c: char) { '0' <= c <= '9' }

  function Print(n: nat): (s: string)
    ensures s != "" && forall i :: 0 <= i < |s| ==> IsDigit(s[i])
  {
    if n < 10 then [Digit(n)] else Print(n / 10) + [Digit(n % 10)]
  }

  function Pow10(digits: nat): nat { if digits == 0 then 1 else 10 * Pow10(digits - 1) }

  /** Numbers below a power of ten print with at most that many digits. */
  lemma {:induction false} PrintLength(n: nat, digits: nat)
    requires digits > 0 && n < Pow10(digits)
    ensures |Print(n)| <= digits
  {
    if n >= 10 {
      PrintLength(n / 10, digits - 1);
    }
  }

  predicate IsSpace(c: char) { c == ' ' || ('\t' <= c <= '\r') }

  /** The number spelled by the leading digits of `s`, continuing from `acc`. */
  function LeadingDigits(s: string, acc: nat): nat {
    if s == "" || !IsDigit(s[0]) then acc else LeadingDigits(s[1..], 10 * acc + (s[0] as int - '0' as int))
  }

  /** Leading white space, an optional sign, then digits up to the first other character; 0 if there
      are none.  Values beyond `int` are undefined in C and not narrowed here. */
  function Atoi(s: string): int {
    if s == "" then 0
    else if IsSpace(s[0]) then Atoi(s[1..])
    else if s[0] == '-' then 0 - (LeadingDigits(s[1..], 0) as int)
    else if s[0] == '+' then LeadingDigits(s[1..], 0)
    else LeadingDigits(s, 0)
  }

  lemma {:induction false} LeadingDigitsSnoc(s: string, d: nat, acc: nat)
    requires d < 10 && forall i :: 0 <= i < |s| ==> IsDigit(s[i])
    ensures LeadingDigits(s + [Digit(d)], acc) == 10 * LeadingDigits(s, acc) + d
    decreases |s|
  {
    var t := s + [Digit(d)];
    if s == "" {
      assert t[1..] == "";
    } else {
      assert t[1..] == s[1..] + [Digit(d)];
      LeadingDigitsSnoc(s[1..], d, 10 * acc + (s[0] as int - '0' as int));
    }
  }

  lemma {:induction false} DigitsOfPrint(n: nat)
    ensures LeadingDigits(Print(n), 0) == n
  {
    if n < 10 {
      assert Print(n)[1..] == "";
    } else {
      DigitsOfPrint(n / 10);
      LeadingDigitsSnoc(Print(n / 10), n % 10, 0);
    }
  }

  /** Reading what was printed gives the number back. */
  lemma AtoiOfPrint(n: nat)
    ensures Atoi(Print(n)) == n
  {
    DigitsOfPrint(n);
    assert IsDigit(Print(n)[0]);
  }

  /** `%d`. */
  function PrintInt(n: int): string { if n < 0 then "-" + Print(-n) else Print(n) }

  /** Numbers as they are written. */
  lemma WrittenNumbers()
    ensures Print(0) == "0" && Print(9) == "9" && Print(10) == "10" && Print(1080) == "1080"
    ensures PrintInt(-25) == "-25" && Atoi(" +7|") == 7 && Atoi("") == 0
  {
    assert Print(1) == "1" && Print(108) == Print(10) + "8" && Print(25) == "25";
    assert " +7|"[1..] == "+7|" && "+7|"[1..] == "7|" && "7|"[1..] == "|";
  }

  lemma AtoiOfPrintInt(n: int)
    ensures Atoi(PrintInt(n)) == n
  {
    if n < 0 {
      DigitsOfPrint(-n);
      assert PrintInt(n)[1..] == Print(-n);
    } else {
      AtoiOfPrint(n);
    }
  }

  lemma PrintIntChars(n: int)
    ensures PrintInt(n) != "" && forall i :: 0 <= i < |PrintInt(n)| ==> IsDigit(PrintInt(n)[i]) || PrintInt(n)[i] == '-'
  {
  }
}
