/** The two checksums that stand between a number and an identifier: the 11-proef of a BSN
    and the mod-97 of an IBAN (detectors.py). */
module Checksums {
  import opened Ascii

  predicate AllDigits(s: string) {
    forall i :: 0 <= i < |s| ==> IsDigit(s[i])
  }

  function Without(s: string, dropped: set<char>): string {
    if s == "" then ""
    else Without(s[..|s| - 1], dropped) + if s[|s| - 1] in dropped then "" else [s[|s| - 1]]
  }

  // ---- BSN ----

  function Weight(i: nat): int {
    if i == 8 then -1 else 9 - i
  }

  /** Over nine digits: 9*d1 + 8*d2 + ... + 2*d8 - d9. */
  function ElevenSum(s: string): int
    requires AllDigits(s)
  {
    if s == "" then 0
    else
      var last := |s| - 1;
      ElevenSum(s[..last]) + Weight(last) * DigitValue(s[last])
  }

  /** The proof over nine digits: not all zero, and divisible by 11. */
  predicate ElevenProof(s: string)
    requires |s| == 9 && AllDigits(s)
  {
    s != "000000000" && ElevenSum(s) % 11 == 0
  }

  /** Dots, dashes and spaces are dropped, and eight digits get a leading zero. */
  predicate IsValidBsn(text: string) {
    var compact := Without(text, {'.', '-', ' '});
    AllDigits(compact) && 8 <= |compact| <= 9 && ElevenProof(if |compact| == 8 then "0" + compact else compact)
  }

  lemma {:induction false} WithoutKeeps(s: string, dropped: set<char>)
    requires forall i :: 0 <= i < |s| ==> s[i] !in dropped
    ensures Without(s, dropped) == s
  {
    if s != "" {
      WithoutKeeps(s[..|s| - 1], dropped);
      assert s == s[..|s| - 1] + [s[|s| - 1]];
    }
  }

  lemma NineDigits(s: string)
    requires |s| == 9 && AllDigits(s)
    ensures IsValidBsn(s) <==> ElevenProof(s)
  {
    WithoutKeeps(s, {'.', '-', ' '});
  }

  lemma Distribute(w: int, a: int, b: int)
    ensures w * (a - b) == w * a - w * b
  {
  }

  lemma {:induction false} SumAfterChange(s: string, i: nat, c: char)
    requires AllDigits(s) && i < |s| && IsDigit(c)
    ensures AllDigits(s[i := c])
      && ElevenSum(s[i := c]) == ElevenSum(s) + Weight(i) * (DigitValue(c) - DigitValue(s[i]))
  {
    var last, t := |s| - 1, s[i := c];
    if i < last {
      SumAfterChange(s[..last], i, c);
      assert t[..last] == s[..last][i := c];
    } else {
      Distribute(Weight(i), DigitValue(c), DigitValue(s[i]));
      assert t[..last] == s[..last];
    }
  }

  // A small nonzero difference times any weight is no multiple of 11.
  lemma NoMultiple(w: int, d: int)
    requires -9 <= d <= 9 && d != 0 && (w == -1 || 2 <= w <= 9)
    ensures w * d % 11 != 0
  {
    if w == -1 {
      assert w * d == -d;
    } else if w == 2 {
    } else if w == 3 {
    } else if w == 4 {
    } else if w == 5 {
    } else if w == 6 {
    } else if w == 7 {
    } else if w == 8 {
    } else {
    }
  }

  lemma SumIsOff(a: int, b: int)
    requires a % 11 == 0 && (b - a) % 11 != 0
    ensures b % 11 != 0
  {
  }

  /** A valid nine-digit BSN with any one digit changed is not valid. */
  lemma OneDigitChanged(s: string, i: nat, c: char)
    requires |s| == 9 && AllDigits(s) && IsValidBsn(s) && i < 9 && IsDigit(c) && c != s[i]
    ensures !IsValidBsn(s[i := c])
  {
    NineDigits(s);
    SumAfterChange(s, i, c);
    NineDigits(s[i := c]);
    NoMultiple(Weight(i), DigitValue(c) - DigitValue(s[i]));
    SumIsOff(ElevenSum(s), ElevenSum(s[i := c]));
  }

  function Swapped(s: string, i: nat): string
    requires i + 1 < |s|
  {
    s[i := s[i + 1]][i + 1 := s[i]]
  }

  lemma WeightsApart(i: nat, d: int)
    requires i < 8
    ensures Weight(i) * d + Weight(i + 1) * -d == if i == 7 then 3 * d else d
  {
    assert Weight(i) * d + Weight(i + 1) * -d == (Weight(i) - Weight(i + 1)) * d;
  }

  lemma SumAfterSwap(s: string, i: nat)
    requires |s| == 9 && AllDigits(s) && i < 8
    ensures |Swapped(s, i)| == 9 && AllDigits(Swapped(s, i))
    ensures var d := DigitValue(s[i + 1]) - DigitValue(s[i]);
            ElevenSum(Swapped(s, i)) == ElevenSum(s) + if i == 7 then 3 * d else d
  {
    var d, t := DigitValue(s[i + 1]) - DigitValue(s[i]), s[i := s[i + 1]];
    SumAfterChange(s, i, s[i + 1]);
    SumAfterChange(t, i + 1, s[i]);
    assert t[i + 1] == s[i + 1] && DigitValue(s[i]) - DigitValue(t[i + 1]) == -d;
    WeightsApart(i, d);
  }

  /** Nor is one with two different neighbouring digits swapped. */
  lemma NeighboursSwapped(s: string, i: nat)
    requires |s| == 9 && AllDigits(s) && IsValidBsn(s) && i < 8 && s[i] != s[i + 1]
    ensures !IsValidBsn(Swapped(s, i))
  {
    NineDigits(s);
    SumAfterSwap(s, i);
    NineDigits(Swapped(s, i));
    NoMultiple(3, DigitValue(s[i + 1]) - DigitValue(s[i]));
    SumIsOff(ElevenSum(s), ElevenSum(Swapped(s, i)));
  }

  // ---- IBAN ----

  predicate IsAlnum(c: char) {
    IsDigit(c) || IsLetter(c)
  }

  // A = 10 up to Z = 35.
  function Base36(c: char): nat
    requires IsAlnum(c)
  {
    if IsDigit(c) then DigitValue(c) else c as int - 'A' as int + 10
  }

  predicate AllAlnum(s: string) {
    forall i :: 0 <= i < |s| ==> IsAlnum(s[i])
  }

  /** The number spelled by writing each character's value in decimal. */
  function Spelled(s: string): nat
    requires AllAlnum(s)
  {
    if s == "" then 0
    else
      var c := s[|s| - 1];
      Spelled(s[..|s| - 1]) * (if IsDigit(c) then 10 else 100) + Base36(c)
  }

  function Rearranged(s: string): string
    requires |s| >= 4
  {
    s[4..] + s[..4]
  }

  predicate IbanShape(s: string) {
    15 <= |s| <= 34 && IsLetter(s[0]) && IsLetter(s[1]) && IsDigit(s[2]) && IsDigit(s[3]) && AllAlnum(s)
  }

  predicate IsValidIban(candidate: string) {
    var compact := UpperCase(Without(candidate, {' '}));
    IbanShape(compact) && Spelled(Rearranged(compact)) % 97 == 1
  }

  lemma CompactIban(s: string)
    requires AllAlnum(s)
    ensures UpperCase(Without(s, {' '})) == s
  {
    WithoutKeeps(s, {' '});
  }

  predicate SameClass(c: char, d: char) {
    (IsDigit(c) && IsDigit(d)) || (IsLetter(c) && IsLetter(d))
  }

  // 97 is prime to 10: 10 * 68 is one more than 7 * 97.
  lemma TenDivides(x: int)
    ensures x * 10 % 97 == 0 ==> x % 97 == 0
  {
    var q := x * 10 / 97;
    if x * 10 == 97 * q {
      assert x == 97 * (68 * q - 7 * x);
    }
  }

  lemma TenKeepsRemainder(x: int)
    requires x % 97 != 0
    ensures x * 10 % 97 != 0 && x * 100 % 97 != 0
  {
    TenDivides(x);
    TenDivides(x * 10);
  }

  lemma {:induction false} ChangeMoves(s: string, i: nat, c: char)
    requires AllAlnum(s) && i < |s| && c != s[i] && SameClass(c, s[i])
    ensures AllAlnum(s[i := c]) && (Spelled(s[i := c]) - Spelled(s)) % 97 != 0
  {
    var n := |s| - 1;
    var t := s[i := c];
    if i == n {
      assert t[..n] == s[..n];
    } else {
      assert t[..n] == s[..n][i := c] && t[n] == s[n];
      ChangeMoves(s[..n], i, c);
      var x := Spelled(t[..n]) - Spelled(s[..n]);
      TenKeepsRemainder(x);
      var base := if IsDigit(s[n]) then 10 else 100;
      assert Spelled(t) - Spelled(s) == x * base;
    }
  }

  lemma RearrangedAt(s: string, i: nat, c: char) returns (j: nat)
    requires |s| >= 4 && AllAlnum(s) && i < |s| && IsAlnum(c)
    ensures j < |Rearranged(s)| && Rearranged(s)[j] == s[i] && Rearranged(s[i := c]) == Rearranged(s)[j := c]
    ensures AllAlnum(Rearranged(s)) && AllAlnum(s[i := c])
  {
    j := if i < 4 then |s| - 4 + i else i - 4;
  }

  /** A valid IBAN with one digit made another digit, or one letter another letter, is not
      valid. */
  lemma OneCharacterChanged(s: string, i: nat, c: char)
    requires AllAlnum(s) && IsValidIban(s) && i < |s| && c != s[i] && SameClass(c, s[i])
    ensures !IsValidIban(s[i := c])
  {
    var t := s[i := c];
    CompactIban(s);
    CompactIban(t);
    var j := RearrangedAt(s, i, c);
    ChangeMoves(Rearranged(s), j, c);
    RemainderMoved(Spelled(Rearranged(s)), Spelled(Rearranged(t)));
  }

  lemma RemainderMoved(a: int, b: int)
    requires a % 97 == 1 && (b - a) % 97 != 0
    ensures b % 97 != 1
  {
  }
}
