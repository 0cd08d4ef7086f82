/** Decimal text of integers, as the %d verb prints it, and its inverse. */
module Decimal {

  function NatText(n: nat): (s: string)
    ensures |s| > 0
    ensures forall i :: 0 <= i < |s| ==> '0' <= s[i] <= '9'
  {
    var last := [((n % 10) + '0' as int) as char];
    if n < 10 then last else NatText(n / 10) + last
  }

  function NatValue(s: string): int {
    if s == [] then 0 else 10 * NatValue(s[..|s| - 1]) + (s[|s| - 1] as int - '0' as int)
  }

  function IntText(n: int): string {
    if n < 0 then "-" + NatText(-n) else NatText(n)
  }

  function IntValue(s: string): int {
    if s != [] && s[0] == '-' then -NatValue(s[1..]) else NatValue(s)
  }

  lemma {:induction false} NatRoundTrip(n: nat)
    ensures NatValue(NatText(n)) == n
  {
    var last := [((n % 10) + '0' as int) as char];
    if n < 10 {
      assert NatText(n) == last && last[..0] == [];
    } else {
      NatRoundTrip(n / 10);
      assert (NatText(n / 10) + last)[..|NatText(n / 10)|] == NatText(n / 10);
    }
  }

  /** Reading back the text of any integer gives that integer, so distinct integers have distinct texts. */
  lemma IntRoundTrip(n: int)
    ensures IntValue(IntText(n)) == n
  {
    if n < 0 {
      NatRoundTrip(-n);
      assert ("-" + NatText(-n))[1..] == NatText(-n);
    } else {
      NatRoundTrip(n);
    }
  }

  /** The text has no leading zero, except for zero itself. */
  lemma {:induction false} NatTextStarts(n: nat)
    ensures NatText(n)[0] == '0' <==> n == 0
  {
    if n >= 10 {
      NatTextStarts(n / 10);
    }
  }

  lemma NatTextOf(n: nat, d: nat)
    requires n > 0 && d < 10
    ensures NatText(10 * n + d) == NatText(n) + [(d + '0' as int) as char]
  {
  }

  /** The most significant digit comes first, after the sign. */
  lemma DigitsInOrder()
    ensures IntText(0) == "0" && IntText(-1205) == "-1205"
  {
    NatTextOf(1, 2);
    NatTextOf(12, 0);
    NatTextOf(120, 5);
    assert NatText(1) == "1" && NatText(12) == "12" && NatText(120) == "120";
  }
}
