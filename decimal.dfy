/** Decimal rendering of integers, as a JavaScript template literal `${n}` prints an integral number. */
module Decimal {

  function Digit(d: nat): (c: char)
    requires d < 10
    ensures '0' <= c <= '9'
  {
    ('0' as int + d) as char
  }

  function NatToString(n: nat): (s: string)
    ensures 1 <= |s|
    ensures (n < 10) == (|s| == 1)
    ensures forall i :: 0 <= i < |s| ==> '0' <= s[i] <= '9'
    decreases n
  {
    if n < 10 then [Digit(n)] else NatToString(n / 10) + [Digit(n % 10)]
  }

  /** Negative numbers print with a leading minus sign. */
  function IntToString(i: int): (s: string)
    ensures 1 <= |s|
    ensures (s[0] == '-') == (i < 0)
  {
    if i < 0 then "-" + NatToString(-i) else NatToString(i)
  }

  /** Different numbers never print the same. */
  lemma {:induction false} NatToStringInjective(a: nat, b: nat)
    requires NatToString(a) == NatToString(b)
    ensures a == b
    decreases a
  {
    if a >= 10 && b >= 10 {
      var sa, sb := NatToString(a), NatToString(b);
      assert sa == NatToString(a / 10) + [Digit(a % 10)];
      assert sb == NatToString(b / 10) + [Digit(b % 10)];
      assert sa[..|sa| - 1] == NatToString(a / 10);
      assert sb[..|sb| - 1] == NatToString(b / 10);
      assert Digit(a % 10) == sa[|sa| - 1] == sb[|sb| - 1] == Digit(b % 10);
      NatToStringInjective(a / 10, b / 10);
    }
  }

  lemma {:induction false} IntToStringInjective(a: int, b: int)
    requires IntToString(a) == IntToString(b)
    ensures a == b
  {
    if a < 0 && b < 0 {
      assert IntToString(a)[1..] == NatToString(-a);
      assert IntToString(b)[1..] == NatToString(-b);
      NatToStringInjective(-a, -b);
    } else if a >= 0 && b >= 0 {
      NatToStringInjective(a, b);
    }
  }
}
