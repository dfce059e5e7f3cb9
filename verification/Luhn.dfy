/** The Luhn modulus-10 check of Annex B of ISO/IEC 7812-1. */
module Luhn {
  predicate IsDigit(c: char) {
    '0' <= c <= '9'
  }

  predicate AllDigits(s: string) {
    forall i | 0 <= i < |s| :: IsDigit(s[i])
  }

  function Value(c: char): nat
    requires IsDigit(c)
  {
    c as int - '0' as int
  }

  /** What one digit adds: doubled digits above nine lose nine. */
  function Weight(n: nat, doubled: bool): nat {
    if !doubled then n else if 2 * n > 9 then 2 * n - 9 else 2 * n
  }

  /** The sum over the digits, the last one doubled or not, alternating towards the left. */
  function Sum(s: string, doubled: bool): nat
    requires AllDigits(s)
  {
    if s == [] then 0
    else Weight(Value(s[|s| - 1]), doubled) + Sum(s[..|s| - 1], !doubled)
  }

  predicate Passes(s: string)
    requires AllDigits(s)
  {
    Sum(s, false) % 10 == 0
  }

  method LuhnValid(digits: string) returns (valid: bool)
    ensures valid <==> AllDigits(digits) && 13 <= |digits| <= 19 && Passes(digits)
  {
    if !AllDigits(digits) || !(13 <= |digits| <= 19) {
      return false;
    }
    var total := 0;
    assert digits[..|digits|] == digits;
    for i := 0 to |digits|
      invariant total + Sum(digits[..|digits| - i], i % 2 == 1) == Sum(digits, false)
    {
      var rest := digits[..|digits| - i];
      var n := Value(digits[|digits| - 1 - i]);
      assert rest[..|rest| - 1] == digits[..|digits| - i - 1];
      if i % 2 == 1 {
        n := n * 2;
        if n > 9 {
          n := n - 9;
        }
      }
      total := total + n;
    }
    valid := total % 10 == 0;
  }

  // ---------- What the check detects ----------

  /** Whether the digit at position i is doubled, the last digit of s being doubled or not. */
  predicate DoubledAt(s: string, i: nat, doubled: bool)
    requires i < |s|
  {
    if (|s| - 1 - i) % 2 == 0 then doubled else !doubled
  }

  /** Changing one digit moves the sum by the difference of the two weights. */
  lemma DoubledInPrefix(s: string, i: nat, doubled: bool)
    requires i < |s| - 1
    ensures DoubledAt(s[..|s| - 1], i, !doubled) == DoubledAt(s, i, doubled)
  {
  }

  lemma SumUnfolds(s: string, last: char, doubled: bool)
    requires AllDigits(s) && IsDigit(last)
    ensures AllDigits(s + [last]) && Sum(s + [last], doubled) == Weight(Value(last), doubled) + Sum(s, !doubled)
  {
    assert (s + [last])[..|s|] == s;
  }

  lemma {:induction false} ChangeMovesSum(s: string, i: nat, c: char, doubled: bool)
    requires AllDigits(s) && i < |s| && IsDigit(c)
    ensures AllDigits(s[i := c])
    ensures Sum(s[i := c], doubled) - Sum(s, doubled)
         == Weight(Value(c), DoubledAt(s, i, doubled)) - Weight(Value(s[i]), DoubledAt(s, i, doubled))
  {
    var n := |s| - 1;
    var init, last := s[..n], s[n];
    assert s == init + [last];
    SumUnfolds(init, last, doubled);
    if i < n {
      ChangeMovesSum(init, i, c, !doubled);
      DoubledInPrefix(s, i, doubled);
      assert s[i := c] == init[i := c] + [last];
      SumUnfolds(init[i := c], last, doubled);
    } else {
      assert s[i := c] == init + [c];
      SumUnfolds(init, c, doubled);
    }
  }

  /** Every single-digit error is detected, at any length. */
  lemma SingleErrorDetected(s: string, i: nat, c: char)
    requires AllDigits(s) && Passes(s) && i < |s| && IsDigit(c) && c != s[i]
    ensures AllDigits(s[i := c]) && !Passes(s[i := c])
  {
    ChangeMovesSum(s, i, c, false);
    SameRemainder(Sum(s, false), Sum(s[i := c], false) - Sum(s, false));
    WeightsDiffer(Value(c), Value(s[i]), DoubledAt(s, i, false));
  }

  lemma WeightsDiffer(a: nat, b: nat, doubled: bool)
    requires a <= 9 && b <= 9 && a != b
    ensures (Weight(a, doubled) - Weight(b, doubled)) % 10 != 0
  {
  }

  function Swapped(s: string, i: nat): string
    requires i + 1 < |s|
  {
    s[i := s[i + 1]][i + 1 := s[i]]
  }

  lemma SwapMovesSum(s: string, i: nat)
    requires AllDigits(s) && i + 1 < |s|
    ensures AllDigits(Swapped(s, i))
    ensures var a, b, doubled := Value(s[i]), Value(s[i + 1]), DoubledAt(s, i, false);
            Sum(Swapped(s, i), false) - Sum(s, false)
            == Weight(b, doubled) - Weight(a, doubled) + Weight(a, !doubled) - Weight(b, !doubled)
  {
    var once := s[i := s[i + 1]];
    ChangeMovesSum(s, i, s[i + 1], false);
    ChangeMovesSum(once, i + 1, s[i], false);
    OppositeParity(s, i);
  }

  lemma OppositeParity(s: string, i: nat)
    requires i + 1 < |s|
    ensures DoubledAt(s[i := s[i + 1]], i + 1, false) == !DoubledAt(s, i, false)
  {
  }

  /** Swapping adjacent digits goes undetected exactly for equal digits and for the pair 0 and 9. */
  lemma AdjacentSwap(s: string, i: nat)
    requires AllDigits(s) && Passes(s) && i + 1 < |s|
    ensures AllDigits(Swapped(s, i))
    ensures Passes(Swapped(s, i)) <==>
              (s[i] == s[i + 1] || (s[i] == '0' && s[i + 1] == '9') || (s[i] == '9' && s[i + 1] == '0'))
  {
    SwapMovesSum(s, i);
    SameRemainder(Sum(s, false), Sum(Swapped(s, i), false) - Sum(s, false));
    SwapWeights(Value(s[i]), Value(s[i + 1]), DoubledAt(s, i, false));
  }

  lemma SameRemainder(sum: int, change: int)
    requires sum % 10 == 0
    ensures (sum + change) % 10 == 0 <==> change % 10 == 0
  {
  }

  lemma SwapWeights(a: nat, b: nat, doubled: bool)
    requires a <= 9 && b <= 9
    ensures (Weight(b, doubled) - Weight(a, doubled) + Weight(a, !doubled) - Weight(b, !doubled)) % 10 == 0
            <==> (a == b || (a == 0 && b == 9) || (a == 9 && b == 0))
  {
  }

  function CheckDigit(payload: string): char
    requires AllDigits(payload)
  {
    ('0' as int + (10 - Sum(payload, true) % 10) % 10) as char
  }

  /** Each payload has exactly one check digit that makes it pass. */
  lemma OneCheckDigit(payload: string, c: char)
    requires AllDigits(payload) && IsDigit(c)
    ensures AllDigits(payload + [c]) && (Passes(payload + [c]) <==> c == CheckDigit(payload))
  {
    assert (payload + [c])[..|payload|] == payload;
  }

  // ---------- The check as the standard words it ----------

  /** The sum of the decimal digits of a number below 100. */
  function DigitSum(n: nat): nat
    requires n < 100
  {
    n / 10 + n % 10
  }

  /** Position by position from the left: every second digit, counted from the one before the last, is
      doubled, and the digits of all the results are added. */
  function AnnexB(s: string, i: nat): nat
    requires AllDigits(s) && i <= |s|
    decreases |s| - i
  {
    if i == |s| then 0
    else DigitSum(if (|s| - 1 - i) % 2 == 1 then 2 * Value(s[i]) else Value(s[i])) + AnnexB(s, i + 1)
  }

  lemma WeightIsDigitSum(n: nat, doubled: bool)
    requires n <= 9
    ensures Weight(n, doubled) == DigitSum(if doubled then 2 * n else n)
  {
  }

  lemma SumUpTo(s: string, i: nat)
    requires AllDigits(s) && i < |s|
    ensures AllDigits(s[..i]) && AllDigits(s[..i + 1])
    ensures Sum(s[..i + 1], (|s| - 1 - i) % 2 == 1)
         == DigitSum(if (|s| - 1 - i) % 2 == 1 then 2 * Value(s[i]) else Value(s[i])) + Sum(s[..i], (|s| - i) % 2 == 1)
  {
    WeightIsDigitSum(Value(s[i]), (|s| - 1 - i) % 2 == 1);
    assert s[..i + 1][..i] == s[..i];
  }

  lemma {:induction false} SumSplits(s: string, i: nat)
    requires AllDigits(s) && i <= |s|
    ensures AllDigits(s[..i]) && Sum(s, false) == Sum(s[..i], (|s| - i) % 2 == 1) + AnnexB(s, i)
    decreases |s| - i
  {
    if i == |s| {
      assert s[..i] == s;
    } else {
      SumSplits(s, i + 1);
      SumUpTo(s, i);
    }
  }

  /** The sum the check takes is the standard's. */
  lemma SumIsAnnexB(s: string)
    requires AllDigits(s)
    ensures Sum(s, false) == AnnexB(s, 0)
    ensures Passes(s) <==> AnnexB(s, 0) % 10 == 0
  {
    SumSplits(s, 0);
  }
}
