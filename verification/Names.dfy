/** Decimal rendering of integers and the object names built from it.

    `Itoa` is Go's `strconv.Itoa`. A Metal3Data is called
    `<template>-<decimal index>`; the index is recovered from the text after the
    last dash, so the pair (template, index) can be read back from the name. */
module Names {
  import opened Wrappers

  function Digit(d: nat): (c: char)
    requires d < 10
    ensures '0' <= c <= '9'
  {
    '0' + d as char
  }

  function Digits(n: nat): (s: string)
    ensures |s| > 0
    ensures forall i :: 0 <= i < |s| ==> '0' <= s[i] <= '9'
  {
    if n < 10 then [Digit(n)] else Digits(n / 10) + [Digit(n % 10)]
  }

  function Itoa(n: int): (s: string)
    ensures |s| > 0
  {
    if n < 0 then "-" + Digits(-n) else Digits(n)
  }

  /** Reads back a string of decimal digits. */
  function DigitsValue(s: string): nat
    requires forall i :: 0 <= i < |s| ==> '0' <= s[i] <= '9'
  {
    if s == "" then 0
    else DigitsValue(s[..|s| - 1]) * 10 + (s[|s| - 1] as int - '0' as int)
  }

  lemma {:induction false} DigitsRoundTrip(n: nat)
    ensures DigitsValue(Digits(n)) == n
  {
    if n < 10 {
      assert Digits(n)[..0] == "";
      assert (Digits(n)[0] as int - '0' as int) == n;
    } else {
      var s := Digits(n);
      DigitsRoundTrip(n / 10);
      assert s[..|s| - 1] == Digits(n / 10);
      assert (s[|s| - 1] as int - '0' as int) == n % 10;
    }
  }

  /** What `Itoa` prints: digits, after a minus sign for a negative number. */
  predicate Printed(s: string) {
    |s| > 0 && forall i :: (if s[0] == '-' then 1 else 0) <= i < |s| ==> '0' <= s[i] <= '9'
  }

  function ItoaValue(s: string): int
    requires Printed(s)
  {
    if s[0] == '-' then -(DigitsValue(s[1..]) as int) else DigitsValue(s)
  }

  lemma ItoaRoundTrip(n: int)
    ensures Printed(Itoa(n)) && ItoaValue(Itoa(n)) == n
  {
    var s := Itoa(n);
    if n < 0 {
      DigitsRoundTrip(-n);
      assert s[0] == '-' && s[1..] == Digits(-n);
      assert forall i :: 1 <= i < |s| ==> s[i] == Digits(-n)[i - 1];
    } else {
      DigitsRoundTrip(n);
      assert '0' <= s[0];
    }
  }

  /** Different integers never print alike. */
  lemma ItoaInjective(a: int, b: int)
    ensures Itoa(a) == Itoa(b) <==> a == b
  {
    ItoaRoundTrip(a);
    ItoaRoundTrip(b);
  }

  /** The name given to the Metal3Data holding `index` of `template`. */
  function DataName(template: string, index: int): string {
    template + "-" + Itoa(index)
  }

  /** Position of the last dash, if any. */
  function LastDash(s: string): (p: Option<nat>)
    ensures p.Some? ==> p.value < |s| && s[p.value] == '-'
  {
    if s == "" then None
    else if s[|s| - 1] == '-' then Some(|s| - 1)
    else LastDash(s[..|s| - 1])
  }

  lemma {:induction false} LastDashSkipsDigits(prefix: string, digits: string)
    requires forall i :: 0 <= i < |digits| ==> digits[i] != '-'
    ensures LastDash(prefix + "-" + digits) == Some(|prefix|)
  {
    var s := prefix + "-" + digits;
    if digits != "" {
      assert s[..|s| - 1] == prefix + "-" + digits[..|digits| - 1];
      LastDashSkipsDigits(prefix, digits[..|digits| - 1]);
    } else {
      assert s == prefix + "-";
    }
  }

  /** Template and index can both be read off a Metal3Data name, whatever dashes
      and digits the template name itself contains. */
  lemma DataNameInjective(t1: string, i1: nat, t2: string, i2: nat)
    ensures DataName(t1, i1) == DataName(t2, i2) <==> t1 == t2 && i1 == i2
  {
    if DataName(t1, i1) == DataName(t2, i2) {
      LastDashSkipsDigits(t1, Itoa(i1));
      LastDashSkipsDigits(t2, Itoa(i2));
      assert t1 == DataName(t1, i1)[..|t1|] == t2;
      assert Itoa(i1) == DataName(t1, i1)[|t1| + 1..] == Itoa(i2);
      ItoaInjective(i1, i2);
    }
  }
}
