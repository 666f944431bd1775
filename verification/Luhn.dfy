/** internal/pii/classifier.go: the check digit of a card number (Annex B of ISO/IEC 7812-1). */
module Luhn {
  predicate IsDigit(c: char) {
    '0' <= c <= '9'
  }

  predicate AllDigits(s: string) {
    forall i :: 0 <= i < |s| ==> IsDigit(s[i])
  }

  /** A digit as it counts: doubled and reduced to one digit, or as it is. */
  function Counts(c: char, doubled: bool): nat
    requires IsDigit(c)
  {
    var n := (c - '0') as int;
    if !doubled then n else if 2 * n > 9 then 2 * n - 9 else 2 * n
  }

  /** A doubled digit counts as the sum of the digits of its double. */
  lemma CountsIsDigitSum(c: char)
    requires IsDigit(c)
    ensures var n := (c - '0') as int;
            Counts(c, false) == n && Counts(c, true) == (2 * n) / 10 + (2 * n) % 10
  {
  }

  /** The sum by place: every second digit from the right is doubled. */
  function Sum(s: string, doubled: bool): nat
    requires AllDigits(s)
  {
    if |s| == 0 then 0 else Sum(s[..|s|-1], !doubled) + Counts(s[|s|-1], doubled)
  }

  predicate Valid(s: string)
    requires AllDigits(s)
  {
    Sum(s, false) % 10 == 0
  }

  /** Whether the digit at place i of n is doubled. */
  predicate Doubled(n: nat, i: nat, last: bool)
    requires i < n
  {
    if (n - 1 - i) % 2 == 0 then last else !last
  }

  /** luhnValid */
  method LuhnValid(digits: string) returns (valid: bool)
    requires AllDigits(digits)
    ensures valid <==> Valid(digits)
  {
    var sum, alt := 0, false;
    var i := |digits| - 1;
    assert digits[..i+1] == digits;
    while i >= 0
      invariant -1 <= i < |digits|
      invariant sum + Sum(digits[..i+1], alt) == Sum(digits, false)
    {
      assert digits[..i+1][..i] == digits[..i];
      var n := (digits[i] - '0') as int;
      if alt {
        n := n * 2;
        if n > 9 {
          n := n - 9;
        }
      }
      sum := sum + n;
      alt := !alt;
      i := i - 1;
    }
    return sum % 10 == 0;
  }

  function OnlyDigits(s: string): (d: string)
    ensures AllDigits(d)
  {
    if |s| == 0 then "" else OnlyDigits(s[..|s|-1]) + (if IsDigit(s[|s|-1]) then [s[|s|-1]] else [])
  }

  lemma {:induction false} OnlyDigitsJoins(a: string, b: string)
    ensures OnlyDigits(a + b) == OnlyDigits(a) + OnlyDigits(b)
  {
    if |b| == 0 {
      assert a + b == a;
    } else {
      OnlyDigitsJoins(a, b[..|b|-1]);
      assert (a + b)[..|a + b|-1] == a + b[..|b|-1];
    }
  }

  lemma OnlyDigitsOfOne(c: char)
    ensures OnlyDigits([c]) == if '0' <= c <= '9' then [c] else ""
  {
    assert [c][..0] == "";
  }

  /** From the right, every second digit is doubled, the last one is not. */
  lemma {:induction false} SumOfPairs(s: string, a: char, b: char)
    requires AllDigits(s) && IsDigit(a) && IsDigit(b)
    ensures AllDigits(s + [a, b]) && Sum("", false) == 0 && Sum([b], false) == Counts(b, false)
    ensures Sum(s + [a, b], false) == Sum(s, false) + Counts(a, true) + Counts(b, false)
  {
    var t := s + [a, b];
    assert t[..|t|-1] == s + [a] && (s + [a])[..|s|] == s && [b][..0] == "";
    hide Counts;
  }

  /** verifyCreditCard: separators of any kind are ignored. */
  method VerifyCreditCard(s: string) returns (ok: bool)
    ensures ok <==> 13 <= |OnlyDigits(s)| <= 19 && Valid(OnlyDigits(s))
  {
    var digits := "";
    for i := 0 to |s|
      invariant digits == OnlyDigits(s[..i])
    {
      assert s[..i+1][..i] == s[..i];
      if '0' <= s[i] <= '9' {
        digits := digits + [s[i]];
      }
    }
    assert s[..|s|] == s;
    if |digits| < 13 || |digits| > 19 {
      return false;
    }
    ok := LuhnValid(digits);
  }

  // ----- What the check catches -----

  /** Changing one digit changes the sum by what the digit counted. */
  lemma {:induction false} SumAfterChange(s: string, i: nat, c: char, last: bool)
    requires AllDigits(s) && i < |s| && IsDigit(c)
    ensures AllDigits(s[i := c])
    ensures Sum(s[i := c], last) == Sum(s, last) - Counts(s[i], Doubled(|s|, i, last)) + Counts(c, Doubled(|s|, i, last))
  {
    hide Counts;
    if i == |s| - 1 {
      assert s[i := c][..i] == s[..i];
    } else {
      SumAfterChange(s[..|s|-1], i, c, !last);
      assert s[i := c][..|s|-1] == s[..|s|-1][i := c];
    }
  }

  lemma CountsDiffer(c: char, d: char, doubled: bool)
    requires IsDigit(c) && IsDigit(d)
    ensures 0 <= Counts(c, doubled) <= 9 && 0 <= Counts(d, doubled) <= 9
    ensures Counts(c, doubled) == Counts(d, doubled) <==> c == d
  {
  }

  /** A valid number with one digit changed is not valid. */
  lemma {:induction false} SingleChangeCaught(s: string, i: nat, c: char)
    requires AllDigits(s) && Valid(s) && i < |s| && IsDigit(c)
    ensures AllDigits(s[i := c]) && (Valid(s[i := c]) <==> c == s[i])
  {
    SumAfterChange(s, i, c, false);
    CountsDiffer(s[i], c, Doubled(|s|, i, false));
    hide Sum, Counts;
    if c == s[i] {
      assert s[i := c] == s;
    }
  }

  /** A valid number with two neighbours exchanged is valid only if they are equal, or a 0 and a 9. */
  lemma {:induction false} SwapCaughtIff(s: string, i: nat)
    requires AllDigits(s) && Valid(s) && i + 1 < |s|
    ensures var swapped := s[i := s[i+1]][i+1 := s[i]];
            AllDigits(swapped) &&
            (Valid(swapped) <==> s[i] == s[i+1] || {s[i], s[i+1]} == {'0', '9'})
  {
    hide *;
    var a, b, d := s[i], s[i+1], Doubled(|s|, i, false);
    var once := s[i := b];
    var swapped := once[i+1 := a];
    NeighboursAreDigits(s, i);
    SumAfterChange(s, i, b, false);
    SumAfterChange(once, i + 1, a, false);
    PlacesAlternate(|s|, i);
    var change := Counts(b, d) - Counts(a, d) + Counts(a, !d) - Counts(b, !d);
    assert Sum(swapped, false) == Sum(s, false) + change;
    ExchangeKeepsIff(a, b, d);
    ValidMeans(s);
    ValidMeans(swapped);
    SameRemainder(Sum(s, false), change);
  }

  lemma NeighboursAreDigits(s: string, i: nat)
    requires AllDigits(s) && i + 1 < |s|
    ensures IsDigit(s[i]) && IsDigit(s[i+1])
  {
  }

  lemma SameRemainder(a: int, change: int)
    requires a % 10 == 0
    ensures (a + change) % 10 == change % 10
  {
  }

  lemma ValidMeans(s: string)
    requires AllDigits(s)
    ensures Valid(s) <==> Sum(s, false) % 10 == 0
  {
  }

  lemma PlacesAlternate(n: nat, i: nat)
    requires i + 1 < n
    ensures Doubled(n, i + 1, false) == !Doubled(n, i, false)
  {
  }

  lemma {:induction false} ExchangeKeepsIff(a: char, b: char, d: bool)
    requires IsDigit(a) && IsDigit(b)
    ensures var change := Counts(b, d) - Counts(a, d) + Counts(a, !d) - Counts(b, !d);
            -18 <= change <= 18 && (change % 10 == 0 <==> a == b || {a, b} == {'0', '9'})
  {
    var x, y := (a - '0') as int, (b - '0') as int;
    assert {a, b} == {'0', '9'} <==> (a == '0' && b == '9') || (a == '9' && b == '0') by {
      if {a, b} == {'0', '9'} {
        assert '0' in {a, b} && '9' in {a, b};
      }
    }
  }

  /** For every number there is exactly one check digit. */
  function CheckDigit(s: string): (c: char)
    requires AllDigits(s)
    ensures IsDigit(c)
  {
    '0' + ((10 - Sum(s, true) % 10) % 10) as char
  }

  lemma {:induction false} OneCheckDigit(s: string, c: char)
    requires AllDigits(s) && IsDigit(c)
    ensures AllDigits(s + [c]) && (Valid(s + [c]) <==> c == CheckDigit(s))
  {
    assert (s + [c])[..|s|] == s;
  }
}
