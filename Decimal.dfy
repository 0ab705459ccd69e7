/**
 * Decimal text of natural numbers, as Python writes an `int` in an f-string
 * (`str(n)`) and as `int(...)` reads a string of ASCII digits back.
 */
module Decimal {
  import opened Wrappers

  predicate IsDigit(c: char) {
    '0' <= c <= '9'
  }

  predicate IsDigits(s: string) {
    forall i :: 0 <= i < |s| ==> IsDigit(s[i])
  }

  function DigitValue(c: char): (d: nat)
    requires IsDigit(c)
    ensures d < 10
  {
    c as int - '0' as int
  }

  function DigitChar(d: nat): (c: char)
    requires d < 10
    ensures IsDigit(c) && DigitValue(c) == d
  {
    ('0' as int + d) as char
  }

  /** `str(n)`: no sign, no leading zero unless `n` is 0. */
  function Show(n: nat): (s: string)
    ensures s != [] && IsDigits(s)
    ensures s[0] == '0' ==> n == 0
    decreases n
  {
    if n < 10 then [DigitChar(n)] else Show(n / 10) + [DigitChar(n % 10)]
  }

  /** The number a digit string denotes, most significant digit first. */
  function Value(s: string): nat
    requires IsDigits(s)
  {
    if s == [] then 0 else Value(s[..|s| - 1]) * 10 + DigitValue(s[|s| - 1])
  }

  /** CPython's default cap on the digits `int(s)` converts (`sys.get_int_max_str_digits()`). */
  const MaxStrDigits: nat := 4300

  /**
   * `int(s)` on strings: a value exactly for non-empty ASCII digit strings
   * (leading zeros allowed) of at most `MaxStrDigits` digits, and `None`
   * where `int` raises `ValueError`.
   */
  function ParseNat(s: string): (r: Option<nat>)
    ensures r.Some? <==> s != [] && |s| <= MaxStrDigits && IsDigits(s)
  {
    if s != [] && |s| <= MaxStrDigits && IsDigits(s) then Some(Value(s)) else None
  }

  /** The digits `Show` writes denote the number. */
  lemma {:induction false} ValueShow(n: nat)
    ensures Value(Show(n)) == n
    decreases n
  {
    if n >= 10 {
      ValueShow(n / 10);
      var s := Show(n);
      assert s[..|s| - 1] == Show(n / 10);
      assert Value(s) == Value(Show(n / 10)) * 10 + n % 10;
    }
  }

  /** Ten to the power `k`. */
  function Pow10(k: nat): (p: nat)
    ensures p >= 1
  {
    if k == 0 then 1 else 10 * Pow10(k - 1)
  }

  /** A number below `10^k` is written with at most `k` digits. */
  lemma {:induction false} ShowLength(n: nat, k: nat)
    requires 0 < k && n < Pow10(k)
    ensures |Show(n)| <= k
    decreases k
  {
    if n >= 10 {
      assert k != 1;
      assert n / 10 < Pow10(k - 1);
      ShowLength(n / 10, k - 1);
    }
  }

  /**
   * Reading back what `Show` writes gives the number, unless it is written
   * with more digits than `int` converts.
   */
  lemma ParseShow(n: nat)
    ensures ParseNat(Show(n)) == if |Show(n)| <= MaxStrDigits then Some(n) else None
  {
    ValueShow(n);
  }

  lemma {:induction false} LeadingDigitPositive(s: string)
    requires s != [] && IsDigits(s) && s[0] != '0'
    ensures Value(s) > 0
    decreases |s|
  {
    if |s| > 1 {
      LeadingDigitPositive(s[..|s| - 1]);
    }
  }

  /** Conversely, a canonical digit string (no leading zero) is what `Show` writes for its value. */
  lemma {:induction false} ShowParse(s: string)
    requires s != [] && IsDigits(s) && (s[0] != '0' || |s| == 1)
    ensures Show(Value(s)) == s
    decreases |s|
  {
    var p := s[..|s| - 1];
    if |s| > 1 {
      LeadingDigitPositive(p);
      ShowParse(p);
      assert s == p + [s[|s| - 1]];
    }
  }
}
