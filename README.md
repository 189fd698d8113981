# Roman numeral converter — Dafny model

This project models `RomanConverter.convert` from `src/roman-converter.ts`. The
method builds a fixed 11-entry table, `["", "I", "II", …, "IX", "X"]`, and returns
`romans[number] ?? ""`. So an argument from 0 to 10 gives that table entry, and
any other argument gives the empty string. Nothing is thrown.

Files:
- `converter.dfy`, module `RomanConverter`: the table `Romans`, the function
  `Convert`, and lemmas about its results.
- `numerals.dfy`, module `Numerals`: a specification-only reading of Roman
  numerals (`SymbolValue`, `RomanValue`, `HasSubtractivePair`) and the standard
  form of a number from 0 to 10 (`StandardNumeral`, with its value proved). It is the
  reference the table is checked against. The program has no such parser.

`Convert` is a Dafny function with no `reads` clause. Its result therefore
depends on its argument alone. This matches the source: the class has no
fields, and the table is a fresh constant literal on every call.

## Model

| member | source | states |
|---|---|---|
| `RomanConverter.Convert` | src/roman-converter.ts:2-5 | the result is always an entry of the table; it is empty exactly when the argument is below 1 or above 10 (the missed lookup falls back to `""` and nothing is thrown); it uses only 'I', 'V' and 'X'; it has at most 4 characters |
| `RomanConverter.ConvertTable` | src/roman-converter.ts:3-4 | the exact numeral for each index 0 to 10, with index 0 giving the empty string |
| `RomanConverter.ConvertTestCases` | tests/roman-converter.test.ts:5-28 | the five literal outputs the test suite expects: 1 → "I", 2 → "II", 3 → "III", 4 → "IV", 9 → "IX" |
| `RomanConverter.ConvertLongest` | src/roman-converter.ts:3 | a result has the maximal length 4 exactly when the argument is 8 ("VIII") |
| `RomanConverter.ConvertIsStandard` | src/roman-converter.ts:3-4 | for 0 ≤ n ≤ 10 the result is the standard form of n, defined independently of the table (up to three 'I', "IV", 'V' followed by up to three 'I', "IX", "X"), whose value is proved to be n |
| `RomanConverter.ConvertValue` | src/roman-converter.ts:3-4 | for 1 ≤ n ≤ 10, the standard additive/subtractive value of the result is n |
| `RomanConverter.ConvertInjective` | src/roman-converter.ts:3 | two arguments in 0..10 with the same result are equal |
| `RomanConverter.ConvertSubtractive` | src/roman-converter.ts:3 | a result contains a symbol followed by a larger one exactly when the argument is 4 or 9 |

## Left out

- JavaScript `number` semantics: the argument is a Dafny `int`. Fractional, NaN and infinite arguments are outside the model. Under JavaScript indexing they also miss the table and give `""`.
- Creating the class (`new RomanConverter()`): the class holds no state, so `Convert` is a top-level function.
- Range errors: the code has no range check; every argument outside 0..10 returns `""` and nothing is thrown, which `Convert`'s contract states.
- The test harness (vitest `describe`/`it`/`expect`): only its expected values are used, in `ConvertTestCases`.
