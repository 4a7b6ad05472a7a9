/** Decimal numerals, as strconv.Atoi reads and fmt.Sprintf writes them. */
module Decimals {
  import opened Wrappers

  predicate IsDigit(c: char) {
    '0' <= c <= '9'
  }

  /** The number that a string of digits stands for. */
  function Digits(s: string): Option<nat>
    decreases |s|
  {
    if s == "" then Some(0)
    else
      var high := Digits(s[..|s| - 1]);
      if high.None? || !IsDigit(s[|s| - 1]) then None
      else Some(10 * high.value + (s[|s| - 1] as int - '0' as int))
  }

  function Digit(d: nat): char
    requires d < 10
  {
    '0' + d as char
  }

  /** The decimal digits of n. */
  function Decimal(n: nat): string {
    if n < 10 then [Digit(n)] else Decimal(n / 10) + [Digit(n % 10)]
  }

  function Zeros(n: nat): string {
    seq(n, _ => '0')
  }

  /** Reading gives back what was written, with or without leading zeros. */
  lemma {:induction false} DecimalDigits(n: nat, zeros: nat)
    ensures Digits(Zeros(zeros) + Decimal(n)) == Some(n)
    ensures Decimal(n) != "" && forall c :: c in Decimal(n) ==> IsDigit(c)
    decreases n, zeros
  {
    var s := Zeros(zeros) + Decimal(n);
    if n >= 10 {
      DecimalDigits(n / 10, zeros);
      assert s[..|s| - 1] == Zeros(zeros) + Decimal(n / 10);
    } else if zeros > 0 {
      DecimalDigits(0, zeros - 1);
      assert s[..|s| - 1] == Zeros(zeros - 1) + Decimal(0);
    } else {
      assert s[..|s| - 1] == "";
    }
  }
}
