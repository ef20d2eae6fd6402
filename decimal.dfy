/**
 * Decimal rendering of natural numbers, as a JavaScript template literal
 * renders a non-negative integer, and the chart labels built from it.
 */
module Decimal {

  function DigitChar(d: nat): (c: char)
    requires d < 10
    ensures '0' <= c <= '9'
  {
    (('0' as int) + d) as char
  }

  function DigitValue(c: char): nat {
    if '0' <= c <= '9' then (c as int) - ('0' as int) else 0
  }

  predicate IsDigits(s: string) {
    forall i :: 0 <= i < |s| ==> '0' <= s[i] <= '9'
  }

  /** Shortest decimal form of `n`: only digits, no leading zero except for 0 itself. */
  function NatToString(n: nat): (s: string)
    ensures |s| >= 1 && IsDigits(s)
    ensures s[0] == '0' <==> n == 0
    decreases n
  {
    if n < 10 then [DigitChar(n)] else NatToString(n / 10) + [DigitChar(n % 10)]
  }

  /** Reads a string of digits back as a number (the inverse of NatToString). */
  function ParseNat(s: string): nat {
    if s == [] then 0 else ParseNat(s[..|s| - 1]) * 10 + DigitValue(s[|s| - 1])
  }

  lemma {:induction false} ParseNatToString(n: nat)
    ensures ParseNat(NatToString(n)) == n
    decreases n
  {
    var s := NatToString(n);
    if n < 10 {
      assert s[..|s| - 1] == [];
    } else {
      var prefix := NatToString(n / 10);
      assert s == prefix + [DigitChar(n % 10)];
      assert s[..|s| - 1] == prefix;
      ParseNatToString(n / 10);
    }
  }

  /** The label of the `ordinal`-th chart point (`Trade ${index + 1}`). */
  function TradeLabel(ordinal: nat): string {
    "Trade " + NatToString(ordinal)
  }

  /** A label determines its ordinal: the digits after "Trade " parse back to it. */
  lemma TradeLabelOrdinal(ordinal: nat)
    ensures |TradeLabel(ordinal)| > 6 && TradeLabel(ordinal)[..6] == "Trade "
    ensures ParseNat(TradeLabel(ordinal)[6..]) == ordinal
  {
    assert TradeLabel(ordinal)[6..] == NatToString(ordinal);
    ParseNatToString(ordinal);
  }

  /** Distinct ordinals get distinct labels. */
  lemma TradeLabelInjective(m: nat, n: nat)
    ensures TradeLabel(m) == TradeLabel(n) <==> m == n
  {
    if TradeLabel(m) == TradeLabel(n) {
      TradeLabelOrdinal(m);
      TradeLabelOrdinal(n);
    }
  }
}
