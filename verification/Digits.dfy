/** Natural numbers written in decimal, and read back. */
module Digits {

  predicate IsDigit(c: char) {
    '0' <= c <= '9'
  }

  predicate IsDigits(s: string) {
    forall i :: 0 <= i < |s| ==> IsDigit(s[i])
  }

  /** Python's rendering of a non-negative integer in an f-string. */
  function Render(n: nat): (s: string)
    ensures |s| > 0 && IsDigits(s)
  {
    if n < 10 then ['0' + n as char] else Render(n / 10) + ['0' + (n % 10) as char]
  }

  /** The number a string of digits denotes. */
  function ValueOf(s: string): nat
    requires IsDigits(s)
  {
    if s == "" then 0 else 10 * ValueOf(s[..|s| - 1]) + (s[|s| - 1] - '0') as nat
  }

  lemma {:induction false} RenderDenotes(n: nat)
    ensures ValueOf(Render(n)) == n
  {
    var s := Render(n);
    if n < 10 {
      assert s[..|s| - 1] == "";
    } else {
      RenderDenotes(n / 10);
      assert s[..|s| - 1] == Render(n / 10);
    }
  }

  lemma RenderInjective(m: nat, n: nat)
    requires Render(m) == Render(n)
    ensures m == n
  {
    RenderDenotes(m);
    RenderDenotes(n);
  }

  function Zeros(n: nat): (s: string)
    ensures |s| == n && IsDigits(s)
  {
    seq(n, _ => '0')
  }

  lemma {:induction false} LeadingZeros(n: nat, s: string)
    requires IsDigits(s)
    ensures IsDigits(Zeros(n) + s) && ValueOf(Zeros(n) + s) == ValueOf(s)
    decreases n + |s|
  {
    var z := Zeros(n) + s;
    if s == "" {
      if n > 0 {
        assert z[..|z| - 1] == Zeros(n - 1) + "";
        LeadingZeros(n - 1, "");
      }
    } else {
      assert z[..|z| - 1] == Zeros(n) + s[..|s| - 1];
      LeadingZeros(n, s[..|s| - 1]);
    }
  }
}
