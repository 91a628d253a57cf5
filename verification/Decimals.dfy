/** Natural numbers as decimal texts. */
module Decimals {

  predicate Digits(s: string) {
    s != "" && forall i :: 0 <= i < |s| ==> '0' <= s[i] <= '9'
  }

  function Decimal(n: nat): (s: string)
    ensures Digits(s)
  {
    if n < 10 then [('0' as int + n) as char] else Decimal(n / 10) + [('0' as int + n % 10) as char]
  }

  function ValueOf(s: string): nat
    requires forall i :: 0 <= i < |s| ==> '0' <= s[i] <= '9'
  {
    if s == "" then 0 else 10 * ValueOf(s[..|s| - 1]) + (s[|s| - 1] as int - '0' as int)
  }

  /** What is printed is read back. */
  lemma {:induction false} DecimalIsRead(n: nat)
    ensures ValueOf(Decimal(n)) == n
  {
    if n >= 10 {
      DecimalIsRead(n / 10);
    } else {
      assert ValueOf("") == 0;
    }
  }

  /** What is read is printed back, up to leading zeros. */
  lemma {:induction false} ReadIsDecimal(s: string)
    requires Digits(s) && s[0] != '0'
    ensures Decimal(ValueOf(s)) == s
  {
    var last := |s| - 1;
    assert s == s[..last] + [s[last]];
    if last > 0 {
      ReadIsDecimal(s[..last]);
      Positive(s[..last]);
    } else {
      assert ValueOf(s[..0]) == 0;
    }
  }

  lemma {:induction false} Positive(s: string)
    requires Digits(s) && s[0] != '0'
    ensures ValueOf(s) > 0
  {
    if |s| > 1 {
      Positive(s[..|s| - 1]);
    }
  }

  lemma {:induction false} LeadingZerosAreDropped(s: string)
    requires Digits(s)
    ensures Digits("0" + s) && ValueOf("0" + s) == ValueOf(s)
  {
    if |s| > 1 {
      LeadingZerosAreDropped(s[..|s| - 1]);
    } else {
      assert ("0" + s)[..1] == "0" && ValueOf("0"[..0]) == 0 && ValueOf(s[..0]) == 0;
    }
    assert ("0" + s)[..|s|] == "0" + s[..|s| - 1];
  }

  lemma DecimalIsInjective(m: nat, n: nat)
    requires Decimal(m) == Decimal(n)
    ensures m == n
  {
    DecimalIsRead(m);
    DecimalIsRead(n);
  }
}
