/**
 The converter of src/roman-converter.ts: a fixed table of the numerals for
 0 to 10 and a lookup that falls back to the empty string for any index the
 table does not have. The class there holds no fields, so its one method is
 modelled as a top-level function.
 */
module RomanConverter {
  import opened Numerals

  /** The lookup table; index 0 holds the empty string. */
  const Romans: seq<string> := ["", "I", "II", "III", "IV", "V", "VI", "VII", "VIII", "IX", "X"]

  /** True when every character of s is 'I', 'V' or 'X'. */
  predicate OverIVX(s: string) {
    forall i :: 0 <= i < |s| ==> s[i] in "IVX"
  }

  /** The numeral for n: the table entry when n indexes the table, and the
      empty string (never an error) when it does not. */
  function Convert(n: int): (r: string)
    ensures r in Romans
    ensures r == "" <==> (n < 1 || n > 10)
    ensures OverIVX(r)
    ensures |r| <= 4
  {
    if 0 <= n < |Romans| then Romans[n] else ""
  }

  /** Every entry of the table, index by index. */
  lemma ConvertTable()
    ensures Convert(0) == ""
    ensures Convert(1) == "I" && Convert(2) == "II" && Convert(3) == "III"
    ensures Convert(4) == "IV" && Convert(5) == "V" && Convert(6) == "VI"
    ensures Convert(7) == "VII" && Convert(8) == "VIII" && Convert(9) == "IX"
    ensures Convert(10) == "X"
  {
    // Naming each entry keeps the solver from searching the whole table.
    assert Romans[0] == "" && Romans[1] == "I" && Romans[2] == "II";
    assert Romans[3] == "III" && Romans[4] == "IV" && Romans[5] == "V";
    assert Romans[6] == "VI" && Romans[7] == "VII" && Romans[8] == "VIII";
    assert Romans[9] == "IX" && Romans[10] == "X";
  }

  /** The literal outputs the test suite expects; a subset of ConvertTable,
      kept as the statement of tests/roman-converter.test.ts. */
  lemma ConvertTestCases()
    ensures Convert(1) == "I"
    ensures Convert(2) == "II"
    ensures Convert(3) == "III"
    ensures Convert(4) == "IV"
    ensures Convert(9) == "IX"
  {
    ConvertTable();
  }

  /** Only 8 reaches the largest length; "VIII" is the longest entry. */
  lemma ConvertLongest(n: int)
    ensures |Convert(n)| == 4 <==> n == 8
  {
  }

  /** Every table entry is the standard form of its index. */
  lemma ConvertIsStandard(n: int)
    requires 0 <= n <= 10
    ensures Convert(n) == StandardNumeral(n)
  {
  }

  /** Read as a standard Roman numeral, the result for 1..10 is worth n. */
  lemma {:induction false} ConvertValue(n: int)
    requires 1 <= n <= 10
    ensures RomanValue(Convert(n)) == n
  {
    ConvertIsStandard(n);
  }

  /** Distinct indexes of the table give distinct numerals. */
  lemma ConvertInjective(a: int, b: int)
    requires 0 <= a <= 10 && 0 <= b <= 10
    requires Convert(a) == Convert(b)
    ensures a == b
  {
    if a != 0 && b != 0 {
      ConvertValue(a);
      ConvertValue(b);
    }
  }

  /** The subtractive rule is used by exactly two entries, 4 and 9. */
  lemma ConvertSubtractive(n: int)
    ensures HasSubtractivePair(Convert(n)) <==> (n == 4 || n == 9)
  {
    if n == 4 {
      assert SymbolValue(Convert(n)[0]) < SymbolValue(Convert(n)[1]);
    } else if n == 9 {
      assert SymbolValue(Convert(n)[0]) < SymbolValue(Convert(n)[1]);
    } else {
      var s := Convert(n);
      forall i | 0 <= i < |s| - 1
        ensures SymbolValue(s[i]) >= SymbolValue(s[i + 1])
      {
        assert s in Romans;
      }
    }
  }
}
