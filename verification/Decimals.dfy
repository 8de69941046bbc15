/** Decimal numbers as text. */
module Decimals {
  import opened Wrappers

  function Digit(n: nat): char
    requires n < 10
  {
    (48 + n) as char
  }

  /** `%d` of a number that is not negative */
  function Decimal(n: nat): (s: string)
    ensures s != "" && forall i :: 0 <= i < |s| ==> '0' <= s[i] <= '9'
  {
    if n < 10 then [Digit(n)] else Decimal(n / 10) + [Digit(n % 10)]
  }

  predicate IsDigits(s: string) { s != "" && forall i :: 0 <= i < |s| ==> '0' <= s[i] <= '9' }

  function Digits(s: string): nat
    requires forall i :: 0 <= i < |s| ==> '0' <= s[i] <= '9'
  {
    if s == "" then 0 else Digits(s[..|s| - 1]) * 10 + (s[|s| - 1] as int - 48)
  }

  /** `strconv.Atoi`, without its limit on the size of numbers */
  function Atoi(s: string): Option<int> {
    if IsDigits(s) then Some(Digits(s))
    else if s != "" && (s[0] == '-' || s[0] == '+') && IsDigits(s[1..]) then
      var n: int := Digits(s[1..]);
      Some(if s[0] == '-' then -n else n)
    else None
  }

  lemma {:induction false} DigitsOfDecimal(n: nat)
    ensures Digits(Decimal(n)) == n
  {
    if n >= 10 {
      DigitsOfDecimal(n / 10);
      assert Decimal(n)[..|Decimal(n)| - 1] == Decimal(n / 10);
    } else {
      assert Decimal(n)[..0] == "";
    }
  }

  lemma DecimalRoundTrip(n: nat)
    ensures Atoi(Decimal(n)) == Some(n)
  {
    DigitsOfDecimal(n);
  }
}
