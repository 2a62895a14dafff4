/** `std::to_string` on integers, and reading digits back. */
module Decimals {

  function Digit(d: nat): char
    requires d < 10
  {
    "0123456789"[d]
  }

  predicate IsDigit(c: char) {
    '0' <= c <= '9'
  }

  predicate AllDigits(s: string) {
    forall i :: 0 <= i < |s| ==> IsDigit(s[i])
  }

  function Decimal(n: nat): string {
    if n < 10 then [Digit(n)] else Decimal(n / 10) + [Digit(n % 10)]
  }

  function ToString(n: int): string {
    if n < 0 then "-" + Decimal(-n) else Decimal(n)
  }

  /** The number that a run of digits denotes. */
  function Value(s: string): nat
    requires AllDigits(s)
  {
    if s == [] then 0
    else Value(s[..|s| - 1]) * 10 + (s[|s| - 1] as int - '0' as int)
  }

  lemma {:induction false} DecimalRoundTrip(n: nat)
    ensures Decimal(n) != [] && AllDigits(Decimal(n))
    ensures Value(Decimal(n)) == n
  {
    if n >= 10 {
      DecimalRoundTrip(n / 10);
      assert Decimal(n)[..|Decimal(n)| - 1] == Decimal(n / 10);
    } else {
      assert Decimal(n)[..0] == [];
    }
  }

  /** `find_last_of` a character, or -1. */
  function LastIndex(s: string, c: char): (i: int)
    ensures -1 <= i < |s|
    ensures i >= 0 ==> s[i] == c
    ensures forall j :: i < j < |s| ==> s[j] != c
  {
    if s == "" then -1 else if s[|s| - 1] == c then |s| - 1 else LastIndex(s[..|s| - 1], c)
  }

  /** Digits after a separator are what comes after its last occurrence. */
  lemma {:induction false} LastIndexBeforeDigits(head: string, c: char, digits: string)
    requires AllDigits(digits) && !IsDigit(c)
    ensures LastIndex(head + [c] + digits, c) == |head|
  {
    var s := head + [c] + digits;
    if digits == "" {
      assert s[|s| - 1] == c;
    } else {
      var n := |digits| - 1;
      assert s[|s| - 1] == digits[n] && IsDigit(digits[n]);
      assert s[..|s| - 1] == head + [c] + digits[..n];
      LastIndexBeforeDigits(head, c, digits[..n]);
    }
  }
}
