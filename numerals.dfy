/**
 The standard reading of a Roman numeral: each symbol has a value, and a
 symbol is subtracted when the symbol right after it is worth more, added
 otherwise. This is the meaning the conversion table is meant to encode;
 it is a specification only and has no counterpart in the program.
 */
module Numerals {

  /** The value of one Roman symbol; any other character is worth 0. */
  function SymbolValue(c: char): nat {
    match c
    case 'I' => 1
    case 'V' => 5
    case 'X' => 10
    case 'L' => 50
    case 'C' => 100
    case 'D' => 500
    case 'M' => 1000
    case _ => 0
  }

  /** The additive/subtractive value of a numeral, read left to right. */
  function RomanValue(s: string): int
    decreases |s|
  {
    if |s| == 0 then 0
    else if |s| >= 2 && SymbolValue(s[0]) < SymbolValue(s[1]) then
      RomanValue(s[1..]) - SymbolValue(s[0])
    else
      RomanValue(s[1..]) + SymbolValue(s[0])
  }

  /** True when some symbol of s is immediately followed by a larger one,
      that is, when the subtractive rule applies somewhere in s. */
  predicate HasSubtractivePair(s: string) {
    exists i :: 0 <= i < |s| - 1 && SymbolValue(s[i]) < SymbolValue(s[i + 1])
  }

  /** k copies of the character c. */
  function Repeat(c: char, k: nat): (r: string)
    ensures |r| == k
    ensures forall i :: 0 <= i < k ==> r[i] == c
  {
    if k == 0 then "" else [c] + Repeat(c, k - 1)
  }

  /** A run of k symbols 'I' is worth k. */
  lemma {:induction false} RunOfIValue(k: nat)
    ensures RomanValue(Repeat('I', k)) == k
  {
    if k > 0 {
      var s := Repeat('I', k);
      assert s[1..] == Repeat('I', k - 1);
      RunOfIValue(k - 1);
    }
  }

  /** "V" followed by k symbols 'I' is worth 5 + k. */
  lemma {:induction false} FiveThenRunOfIValue(k: nat)
    ensures RomanValue("V" + Repeat('I', k)) == 5 + k
  {
    var s := "V" + Repeat('I', k);
    assert s[1..] == Repeat('I', k);
    RunOfIValue(k);
  }

  /** The standard form of a number from 0 to 10, by the usual rules for a
      units digit: up to three 'I', the subtractive "IV" and "IX", 'V'
      followed by up to three 'I', and 'X' for ten. */
  function StandardNumeral(n: int): (r: string)
    requires 0 <= n <= 10
    ensures RomanValue(r) == n
    ensures |r| <= 4
  {
    if n == 10 then "X"
    else if n == 9 then "IX"
    else if n >= 5 then FiveThenRunOfIValue(n - 5); "V" + Repeat('I', n - 5)
    else if n == 4 then "IV"
    else RunOfIValue(n); Repeat('I', n)
  }
}
