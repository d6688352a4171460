/** Decimal notation: what fmt's %d prints, and what a string of digits is worth. */
module Decimal {

  predicate IsDigit(c: char) { '0' <= c <= '9' }

  predicate IsDigits(s: string) {
    forall i | 0 <= i < |s| :: IsDigit(s[i])
  }

  function Digit(c: char): (d: nat)
    requires IsDigit(c)
  {
    (c - '0') as nat
  }

  function DigitChar(d: nat): (c: char)
    requires d < 10
    ensures IsDigit(c) && Digit(c) == d
  {
    '0' + d as char
  }

  /** %d of a non-negative number. */
  function Dec(n: nat): (s: string)
    ensures s != "" && IsDigits(s)
    ensures n >= 10 ==> |s| > 1
    decreases n
  {
    if n < 10 then [DigitChar(n)] else Dec(n / 10) + [DigitChar(n % 10)]
  }

  function DigitsValue(s: string): (n: nat)
    requires IsDigits(s)
  {
    if s == "" then 0 else 10 * DigitsValue(s[..|s| - 1]) + Digit(s[|s| - 1])
  }

  lemma {:induction false} DecRoundTrip(n: nat)
    ensures DigitsValue(Dec(n)) == n
    decreases n
  {
    if n >= 10 {
      DecRoundTrip(n / 10);
      assert Dec(n)[..|Dec(n)| - 1] == Dec(n / 10);
    } else {
      assert Dec(n)[..0] == "";
    }
  }

  /** %d of any integer; toKey in src/core/db/utilities.go. */
  function ToKey(id: int): (s: string)
  {
    if id < 0 then "-" + Dec(-id) else Dec(id)
  }

  /** Different chats never share a cache key. */
  lemma ToKeyInjective(a: int, b: int)
    requires ToKey(a) == ToKey(b)
    ensures a == b
  {
    DecRoundTrip(if a < 0 then -a else a);
    DecRoundTrip(if b < 0 then -b else b);
    assert a < 0 <==> ToKey(a)[0] == '-';
    assert b < 0 <==> ToKey(b)[0] == '-';
    if a < 0 {
      assert ToKey(a)[1..] == Dec(-a) && ToKey(b)[1..] == Dec(-b);
    }
  }
}
