# suan expression evaluator in Dafny

This project models the two-stage expression evaluator of the `suan` command-line calculator (`cmd/root.go`):

- `generateRPN` is a Shunting-Yard converter. It reads an infix string of digits, spaces, `+ - * / ^ ( )` one character at a time. It keeps an output list, an operator stack, a number accumulator and a "number open" flag. Its result is a reverse-Polish token list.
- `calculateRPN` folds that token list over a value stack.
- `calculate` chains the two and returns the converter's error without evaluating anything.

Modules:

- `Tokens`: the token type (`Num(n)` or `Op(c)`), the error type, the character classes, the operator precedence and the popping rule of each incoming symbol.
- `Converter`: the converter as pure functions. `Step` handles one character, `Scan` the whole input, `Finish` the end-of-input flush, and `Generate` is `generateRPN`.
- `ConverterProps`: properties of the converter. They cover the popping rules and parentheses, precedence and associativity, rejection of foreign characters, operator conservation and digit runs.
- `ConverterExamples`: worked conversions of the expressions in the source's doc comment and tests, and of small inputs that show one rule each.
- `Evaluator`: `calculateRPN` as a fold (`Run`) plus the final check (`Evaluate`). It also gives an exact characterisation of when and how evaluation fails.
- `Calculator`: `calculate`, and the end-to-end theorem for fully parenthesised expressions: printing an expression tree, converting it and evaluating it gives the tree's value. It also has worked examples for each error outcome.

Values are abstract. The evaluator is generic in the value type `V` and takes an `Arith<V>` record: how a literal becomes a value, and one total function per operator. All results hold for every choice of arithmetic, and float64 in particular is one such choice.

The model keeps these behaviours of the code:

- Only the space character is skipped, not other white space.
- An unmatched `(` is flushed into the token list. The evaluator's unknown-operator branch can therefore be reached (`"(1 2"`).
- Leftover values and missing operands produce the same "invalid syntax" error.
- An empty final value stack (input `""` or `"()"`) is not a returned error: the source indexes `stack[-1]` and panics. The model makes this an explicit error value, `IndexOutOfRange`.

## Model

| member | source | states |
|---|---|---|
| Converter.Generate | cmd/root.go:76-142 | the conversion succeeds exactly when every character is a digit, a space, an operator or a parenthesis; on failure the error is an unknown-character error |
| Converter.Step | cmd/root.go:81-131 | a character fails exactly when it is outside the alphabet, with its position and the character; a digit keeps the output and the stack and leaves a number open; every other character closes the open number |
| Converter.Scan | cmd/root.go:81-132 | the scan succeeds exactly when every remaining character is allowed; its only error is an unknown character |
| Converter.PopWhile | cmd/root.go:101-104 | a pop loop leaves a bottom part of the stack whose top the incoming symbol does not pop; every symbol above it was poppable and went to the output, top first |
| Converter.Flushed | cmd/root.go:93-97 | a non-digit closes an open number: its value is appended to the output, the run is closed and the stack is untouched; with no number open nothing changes |
| Converter.PushOperatorLands | cmd/root.go:100-117 | an operator lands on top of the bottom part of the stack its pop loop kept, which its rule does not pop; every symbol above that part was poppable and went to the output, top first; the number state is untouched |
| Converter.CloseParenSplits | cmd/root.go:120-127 | `)` keeps a bottom part of the stack; above it is the topmost `(`, which is dropped, and everything above that `(` goes to the output, top first; with no `(` the whole stack goes out |
| Converter.Finish | cmd/root.go:134-141 | at the end of input the output is the tokens so far, then the pending number if a run is open, then the operator stack from top to bottom |
| Converter.Flush | cmd/root.go:137-140 | the end-of-input flush appends the whole operator stack to the output in pop order (top first) |
| Converter.PopWhileConserves | cmd/root.go:107-110 | a pop loop emits no numbers, and the operators it emits are exactly the part of the stack it removed |
| Converter.FlushConserves | cmd/root.go:137-140 | the flush emits no numbers and emits every stacked symbol, unmatched `(` included |
| Converter.LifoOrder | cmd/root.go:137-140 | the symbol at stack position `j` is emitted at position `n-1-j` of the flushed part |
| Tokens.Pops | cmd/root.go:100-121 | only `)` and the five operators pop anything; an operator pops only operators; `)` pops every symbol except `(`; nothing pops `(` |
| ConverterProps.PopRuleIsPrecedence | cmd/root.go:100-117 | for an incoming arithmetic operator, the three symbol lists are exactly "pop while the stacked symbol is an operator with at least the incoming precedence", so equal precedence pops |
| ConverterProps.TwoOperators | cmd/root.go:100-141 | in `x p y q z`, `p` is emitted before `z` exactly when its precedence is at least that of `q`; otherwise `q` and then `p` follow `z`. Operators of equal precedence, `^` included, associate to the left |
| ConverterProps.ParenIsNeverPopped | cmd/root.go:101-124 | no incoming symbol pops a stacked `(` |
| ConverterProps.CloseParenMatches | cmd/root.go:120-127 | with a `(` on the stack, `)` emits everything above the topmost `(`, top first, and removes exactly that `(`, leaving the stack below it untouched |
| ConverterProps.CloseParenUnmatched | cmd/root.go:120-127 | with no `(` on the stack, `)` empties the stack into the output |
| ConverterProps.ScanStopsAtFirstBad | cmd/root.go:128-129 | the scan fails at the first character outside the alphabet, reporting its position |
| ConverterProps.GenerateRejectsFirstBad | cmd/root.go:98-129 | `generateRPN` fails with the first foreign character and its index, tabs and other white space included |
| ConverterExamples.LettersAreRejected | cmd/root_test.go:28-30 | `(1 + 2) * abc` is rejected at index 10 with `a` |
| ConverterProps.ScanCounts | cmd/root.go:81-132 | over a scan, every arithmetic symbol read is on the stack or in the output; `(` never reaches the output; the `(` left on the stack are the ones no `)` has closed |
| ConverterProps.GenerateOperatorCounts | cmd/root.go:81-141 | each of `+ - * / ^` is emitted exactly as often as it is written, `(` exactly once per unmatched `(`, and no other symbol (`)` included) ever |
| ConverterProps.ScanNumbers | cmd/root.go:82-97 | over a scan, the numbers emitted plus the pending one are the maximal digit runs read, the first continuing an open run |
| ConverterProps.GenerateNumbers | cmd/root.go:82-136 | the number tokens are the maximal digit runs of the input read as decimal numbers, in input order; any non-digit, a space included, ends a run |
| ConverterExamples.DocExample | cmd/root.go:72 | `(3 + 4) * 5 - 2 * (3 + 9)` converts to `3 4 + 5 * 2 3 9 + * -` |
| ConverterExamples.PowerIsLeftAssociative | cmd/root.go:100-105 | `2^3^2` converts to `2 3 ^ 2 ^` |
| ConverterExamples.UnmatchedParenIsEmitted | cmd/root.go:137-140 | `(1 2` converts to `1 2 (`: a space splits numbers and an unmatched `(` is flushed |
| ConverterExamples.TestExpressionConversion | cmd/root_test.go:34 | the test expression converts to `1 2 + 3 ^ 4 * 5 6 7 + / 8 9 ^ * -` |
| ConverterExamples.EmptyParensVanish | cmd/root.go:118-127 | `()` converts to the empty list |
| ConverterExamples.SpaceSplitsNumbers | cmd/root.go:93-99 | `1 2` converts to two numbers |
| ConverterExamples.TrailingOperator | cmd/root.go:112-140 | `1 +` converts to `1 +`: an operator without a right operand is still emitted |
| Evaluator.Apply | cmd/root.go:160-172 | an operator application succeeds exactly for the five arithmetic symbols; any other symbol is an unknown-operator error naming it |
| Evaluator.Run | cmd/root.go:148-174 | a successful fold changes the stack height by one up per number and one down per operator; its only errors are invalid syntax and an unknown operator |
| Evaluator.Evaluate | cmd/root.go:146-179 | a value is returned only when the list has one more number than operators; the evaluator never reports an unknown character |
| Evaluator.RunOkIff | cmd/root.go:153-172 | the fold succeeds exactly when no operator is reached with fewer than two values below it or with a symbol outside the five |
| Evaluator.RunFailsAtFirstBad | cmd/root.go:153-172 | the error is decided by the first offending operator: too few values there is invalid syntax (checked before the symbol), otherwise an unknown operator |
| Evaluator.RunAppend | cmd/root.go:148-174 | folding a concatenation is folding the second list from where the first left off; an error in the first stops the fold |
| Evaluator.OperatorReplacesTopTwo | cmd/root.go:157-169 | an operator replaces the second value from the top (left operand) and the top (right operand) by its result and leaves the rest of the stack alone |
| Evaluator.EvaluateOutcome | cmd/root.go:175-178 | a value exactly when the fold never stops and leaves one value, which is the result; the out-of-range index exactly when it leaves none; invalid syntax when it leaves more |
| Calculator.Calculate | cmd/root.go:57-66 | `calculate` fails with an unknown character exactly when the input has a character outside the alphabet |
| Calculator.CalculateRejectsFirstBad | cmd/root.go:59-62 | a converter error is returned as it is, with the first foreign character and its position |
| ConverterProps.DigitsRoundTrip | cmd/root.go:82-91 | reading the decimal numeral of `n` digit by digit (`acc*10+digit`) gives back `n` |
| Calculator.GeneratePrint | cmd/root.go:76-142 | a fully parenthesised expression converts to its postfix form (operands, then operator) |
| Calculator.RunPostfix | cmd/root.go:148-174 | folding the postfix form of an expression pushes exactly its value, with the left subexpression as left operand, and leaves the stack below alone |
| Calculator.CalculatePrint | cmd/root.go:57-66 | `calculate` of a fully parenthesised expression returns the expression's value |
| Calculator.PostfixIsBalanced | cmd/root.go:153-178 | the postfix form of a well-formed expression never runs short of operands and ends with exactly one value |
| Calculator.TestExpressionValue | cmd/root_test.go:33-37 | the test expression evaluates to `((1+2)^3*4) - ((5/(6+7)) * 8^9)` for any arithmetic |
| Calculator.EmptyInputHasNoValue | cmd/root.go:178 | the empty input leaves no value: the out-of-range index |
| Calculator.EmptyParensHaveNoValue | cmd/root.go:178 | `()` leaves no value: the out-of-range index |
| Calculator.LeftoverValues | cmd/root.go:175-176 | `1 2` leaves two values: invalid syntax |
| Calculator.MissingOperand | cmd/root.go:153-155 | `1 +` reaches `+` with one value: invalid syntax |
| Calculator.UnmatchedParenIsUnknownOperator | cmd/root.go:170-171 | `(1 2` reaches the flushed `(` with two values: unknown operator `(` |

## Left out

- The command-line layer (cmd/root.go:15-55) is not modelled: cobra wiring, the `--version` flag, joining the arguments, printing with `%f`, and `os.Exit`. It is I/O plumbing around `calculate`.
- Floating point is not modelled: `float64` arithmetic, `math.Pow` and division by zero. Values are abstract (`Arith<V>`), so every result holds for any arithmetic, and the operators' own numeric behaviour is a parameter.
- Calculator.TestExpressionValue: states the value as an expression in the abstract operators rather than the number `-5.162209507692308e+07`, because that number depends on double-precision rounding.
- Number literals are unbounded naturals (`acc*10+digit` in `nat`), not float64. The rounding of very long digit runs is not modelled.
- `unicode.IsDigit` also accepts non-ASCII decimal digits, and `strconv.ParseFloat` then rejects them (cmd/root.go:82, 87-89). The model accepts exactly `'0'..'9'`, so this error branch does not exist in it.
- Error positions are character indices. Go reports byte offsets of the UTF-8 string, which agree with indices on ASCII input only.
- The type switch in `calculateRPN` silently skips items that are neither numbers nor strings (cmd/root.go:149). The `Token` datatype makes such items impossible.
- Evaluator.Evaluate: the source panics on an empty final stack (cmd/root.go:178). The model returns the error value `IndexOutOfRange` in its place.
- Error messages are not modelled as text. The errors are constructors carrying the same data: the position and character, or the operator symbol.
