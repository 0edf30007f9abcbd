/** Decimal text of integers, as Go's %d and big.Int print and read it. */
module Decimal {
  import opened Types

  predicate IsDigit(ch: char) {
    '0' <= ch <= '9'
  }

  function DigitOf(d: nat): (ch: char)
    requires d < 10
    ensures IsDigit(ch) && ValueOf(ch) == d
  {
    ('0' as int + d) as char
  }

  function ValueOf(ch: char): (d: nat)
    requires IsDigit(ch)
    ensures d < 10
  {
    ch as int - '0' as int
  }

  function PrintNat(n: nat): string {
    if n < 10 then [DigitOf(n)] else PrintNat(n / 10) + [DigitOf(n % 10)]
  }

  function PrintInt(n: int): string {
    if n < 0 then "-" + PrintNat(-n) else PrintNat(n)
  }

  /** Digits only, at least one. */
  function ParseNat(s: string): Option<nat> {
    if s == [] || !IsDigit(s[|s| - 1]) then None
    else if |s| == 1 then Some(ValueOf(s[0]))
    else
      var high := ParseNat(s[..|s| - 1]);
      if high.None? then None else Some(10 * high.value + ValueOf(s[|s| - 1]))
  }

  /** big.Int.SetString in base 10: an optional sign, then digits. */
  function ParseInt(s: string): Option<int> {
    if s == [] then None
    else if s[0] == '-' then Signed(-1, ParseNat(s[1..]))
    else if s[0] == '+' then Signed(1, ParseNat(s[1..]))
    else Signed(1, ParseNat(s))
  }

  function Signed(sign: int, n: Option<nat>): Option<int> {
    if n.None? then None
    else
      var v: int := sign * n.value;
      Some(v)
  }

  lemma {:induction false} PrintedNat(n: nat)
    ensures ParseNat(PrintNat(n)) == Some(n)
    ensures PrintNat(n) != [] && forall ch :: ch in PrintNat(n) ==> IsDigit(ch)
  {
    if n >= 10 {
      PrintedNat(n / 10);
      var s := PrintNat(n);
      assert s[..|s| - 1] == PrintNat(n / 10);
    }
  }

  /** Every amount is read back as it was printed, negative ones included. */
  lemma PrintedInt(n: int)
    ensures ParseInt(PrintInt(n)) == Some(n)
  {
    PrintedNat(if n < 0 then -n else n);
    if n < 0 {
      assert PrintInt(n)[1..] == PrintNat(-n);
    } else {
      assert IsDigit(PrintNat(n)[0]);
    }
  }

  /** Decimal digits from the most significant on, as a number. */
  function Reading(s: string, acc: nat): nat
    requires forall ch :: ch in s ==> IsDigit(ch)
  {
    if s == [] then acc
    else
      assert s[0] in s;
      Reading(s[1..], acc * 10 + ValueOf(s[0]))
  }

  lemma {:induction false} ReadingPush(s: string, ch: char, acc: nat)
    requires IsDigit(ch) && forall x :: x in s ==> IsDigit(x)
    ensures forall x :: x in s + [ch] ==> IsDigit(x)
    ensures Reading(s + [ch], acc) == Reading(s, acc) * 10 + ValueOf(ch)
    decreases |s|
  {
    if s == [] {
      assert s + [ch] == [ch] && [ch][1..] == [];
    } else {
      assert s[0] in s && (s + [ch])[1..] == s[1..] + [ch];
      ReadingPush(s[1..], ch, acc * 10 + ValueOf(s[0]));
    }
  }

  /** The text of a number is its decimal digits, most significant first, without a leading zero. */
  lemma {:induction false} PrintedReads(n: nat)
    ensures (forall ch :: ch in PrintNat(n) ==> IsDigit(ch)) && Reading(PrintNat(n), 0) == n
    ensures |PrintNat(n)| > 1 ==> PrintNat(n)[0] != '0'
  {
    PrintedNat(n);
    if n >= 10 {
      PrintedReads(n / 10);
      ReadingPush(PrintNat(n / 10), DigitOf(n % 10), 0);
      assert PrintNat(n)[0] == PrintNat(n / 10)[0];
      if |PrintNat(n / 10)| == 1 {
        assert PrintNat(n / 10)[0] == DigitOf(n / 10);
      }
    } else {
      assert PrintNat(n)[1..] == [];
    }
  }
}
