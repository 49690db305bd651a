/** The two text operations the alert engine relies on: JavaScript's
    `String.prototype.includes` and the decimal rendering of an integer in a
    template literal. */
module Text {

  predicate IsPrefix(p: string, s: string) {
    |p| <= |s| && s[..|p|] == p
  }

  /** `s.includes(sub)`: `sub` occurs in `s` at some position. */
  predicate Contains(s: string, sub: string)
    decreases |s|
  {
    IsPrefix(sub, s) || (|s| > 0 && Contains(s[1..], sub))
  }

  /** A string contains every piece it is built around. */
  lemma {:induction false} ContainsMiddle(p: string, sub: string, q: string)
    ensures Contains(p + sub + q, sub)
  {
    if p == [] {
      assert p + sub + q == sub + q;
      assert (sub + q)[..|sub|] == sub;
    } else {
      ContainsMiddle(p[1..], sub, q);
      assert (p + sub + q)[1..] == p[1..] + sub + q;
    }
  }

  function DigitChar(d: int): char
    requires 0 <= d < 10
  {
    "0123456789"[d]
  }

  /** The value of a decimal digit character. */
  function DigitValue(c: char): nat
    requires '0' <= c <= '9'
  {
    (c as int - '0' as int) as nat
  }

  /** The number a string of decimal digits stands for, most significant
      first. */
  function DigitsValue(s: string): nat
    requires forall i :: 0 <= i < |s| ==> '0' <= s[i] <= '9'
  {
    if s == [] then 0 else DigitsValue(s[..|s| - 1]) * 10 + DigitValue(s[|s| - 1])
  }

  /** Decimal digits of `n`, most significant first, with no leading zero;
      read back, they stand for `n`. */
  function NatToString(n: nat): (r: string)
    ensures |r| >= 1
    ensures forall i :: 0 <= i < |r| ==> '0' <= r[i] <= '9'
    ensures |r| > 1 ==> r[0] != '0'
    ensures DigitsValue(r) == n
  {
    if n < 10 then [DigitChar(n)]
    else
      var init := NatToString(n / 10);
      var r := init + [DigitChar(n % 10)];
      assert r[..|r| - 1] == init;
      assert DigitValue(r[|r| - 1]) == n % 10;
      assert DigitsValue(r) == (n / 10) * 10 + n % 10;
      r
  }

  /** `${n}` for an integer `n`: a minus sign before the digits of a negative
      number, and the digits read back give the number. */
  function IntToString(n: int): (r: string)
    ensures |r| >= 1
    ensures n >= 0 && |r| > 1 ==> r[0] != '0'
    ensures n < 0 ==> |r| >= 2 && r[1] != '0'
    ensures n < 0 ==> |r| >= 2 && r[0] == '-' && (forall i :: 1 <= i < |r| ==> '0' <= r[i] <= '9')
                      && DigitsValue(r[1..]) == -n
    ensures n >= 0 ==> (forall i :: 0 <= i < |r| ==> '0' <= r[i] <= '9') && DigitsValue(r) == n
  {
    if n < 0 then
      var r := "-" + NatToString(-n);
      assert r[1..] == NatToString(-n);
      r
    else NatToString(n)
  }
}
