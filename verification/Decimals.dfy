/** str() and int() on integers in decimal. */
module Decimals {
  import opened Messages

  const DIGITS := "0123456789"

  function DigitValue(c: char): Option<nat> {
    if '0' <= c <= '9' then Some((c - '0') as nat) else None
  }

  function DecimalOfNat(n: nat): (s: string)
    ensures s != "" && s[0] != '-'
  {
    if n < 10 then [DIGITS[n]] else DecimalOfNat(n / 10) + [DIGITS[n % 10]]
  }

  function Decimal(n: int): string {
    if n < 0 then "-" + DecimalOfNat(-n) else DecimalOfNat(n)
  }

  function ReadNat(s: string): Option<nat> {
    if s == "" then None
    else
      var last := DigitValue(s[|s| - 1]);
      if last.None? then None
      else if |s| == 1 then last
      else
        var rest := ReadNat(s[..|s| - 1]);
        if rest.None? then None else Some(10 * rest.value + last.value)
  }

  function ReadDecimal(s: string): Option<int> {
    var negative := s != "" && s[0] == '-';
    match ReadNat(if negative then s[1..] else s)
    case None => None
    case Some(n) => Some(if negative then -(n as int) else n)
  }

  lemma {:induction false} NatReadsBack(n: nat)
    ensures ReadNat(DecimalOfNat(n)) == Some(n)
  {
    var s := DecimalOfNat(n);
    assert DigitValue(DIGITS[n % 10]) == Some(n % 10);
    if n >= 10 {
      NatReadsBack(n / 10);
      assert s[..|s| - 1] == DecimalOfNat(n / 10);
    }
  }

  lemma DecimalReadsBack(n: int)
    ensures ReadDecimal(Decimal(n)) == Some(n)
  {
    hide DecimalOfNat, ReadNat;
    if n < 0 {
      NatReadsBack(-n);
      assert Decimal(n)[1..] == DecimalOfNat(-n);
    } else {
      NatReadsBack(n);
    }
  }
}
