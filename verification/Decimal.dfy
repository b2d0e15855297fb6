/** Numbers written in decimal, as file names and tensor names carry them. */
module Decimal {

  predicate IsAscii(c: char) {
    '0' <= c <= '9'
  }

  function ToDigit(d: nat): (c: char)
    requires d < 10
    ensures IsAscii(c) && c as int - '0' as int == d
  {
    ('0' as int + d) as char
  }

  /** The canonical decimal. */
  function ToDecimal(n: nat): (s: string)
    ensures s != [] && forall i :: 0 <= i < |s| ==> IsAscii(s[i])
  {
    if n < 10 then [ToDigit(n)] else ToDecimal(n / 10) + [ToDigit(n % 10)]
  }

  lemma {:induction false} DecimalIsNumber(m: nat, n: nat)
    ensures ToDecimal(m) == ToDecimal(n) ==> m == n
  {
    if ToDecimal(m) == ToDecimal(n) {
      var s := ToDecimal(m);
      if m >= 10 && n >= 10 {
        assert s[..|s| - 1] == ToDecimal(m / 10) && s[..|s| - 1] == ToDecimal(n / 10);
        DecimalIsNumber(m / 10, n / 10);
      }
    }
  }

  lemma NoDashAfter(a: string, m: nat)
    ensures forall k :: |a| < k < |a + "-" + ToDecimal(m)| ==> (a + "-" + ToDecimal(m))[k] != '-'
  {
    forall k | |a| < k < |a + "-" + ToDecimal(m)| ensures (a + "-" + ToDecimal(m))[k] != '-' {
      assert (a + "-" + ToDecimal(m))[k] == ToDecimal(m)[k - |a| - 1];
    }
  }

  /** A number after the last dash is determined by the whole, whatever comes before it. */
  lemma NumberAfterDash(a: string, m: nat, b: string, n: nat)
    requires a + "-" + ToDecimal(m) == b + "-" + ToDecimal(n)
    ensures a == b && m == n
  {
    var x, y := ToDecimal(m), ToDecimal(n);
    var s := a + "-" + x;
    assert s[|a|] == '-' && s[|b|] == '-';
    NoDashAfter(a, m);
    NoDashAfter(b, n);
    assert a == s[..|a|] && b == s[..|b|];
    assert x == s[|a| + 1..] && y == s[|b| + 1..];
    DecimalIsNumber(m, n);
  }
}
