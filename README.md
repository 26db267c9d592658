# CalculatorBrain in Dafny

A model of the evaluator behind a small iOS calculator: `CalculatorBrain`, an
accumulator-based state machine. It holds three things: a numeric
accumulator, an optional pending binary operation, and a program log. The log
is an append-only list of every operand and symbol entered. A fixed table maps
the ten button symbols (`π e √ ± cos x ÷ + − =`, where `−` is U+2212 MINUS
SIGN) to a constant, a unary operation, a binary operation or equals.

Files:

- `options.dfy`: the `Option` type used for the pending operation.
- `operations.dfy`: the `Operation` kinds and the symbol table `OperationTable`.
  The floating-point library values (π, e, `sqrt`, `cos`, and division) come
  from a `MathLib` record and stay uninterpreted. Addition, subtraction,
  multiplication and negation are exact `real` arithmetic.
- `evaluation.dfy`: the behaviour as values. `Step` gives the effect of one
  log entry, and `Run` is the left fold of `Step` over a log. `DropOther`
  gives the entries a replay acts on. This file also holds the lemmas about
  single operations and about whole logs.
- `calculator_brain.dfy`: the class `CalculatorBrain`. It keeps the source's
  fields `accumulator`, `pending` and `internalProgram` and updates them in
  place. Its invariant `Valid()` says that `(accumulator, pending)` always
  equals `Run` of the log from the cleared state. The log alone therefore
  determines `result`, and assigning the `program` read from a brain back to
  it changes nothing.
- `scenarios.dfy`: key sequences worked through the fold. They cover
  left-to-right chaining, a repeated `=`, a binary operator after `=`,
  subtraction and division, and a square root followed by `=`.

`executePendingBinaryOperation` applies the pending operation but never
resets it. The model keeps this behaviour. `=` leaves the pending operation
in place, so `3 + 4 = =` gives 7 and then 10. A binary operator pressed after
`=` re-applies the old operation first (`Evaluation.EqualsSymbol`,
`Scenarios.RepeatedEquals`, `Scenarios.BinaryAfterEqualsReapplies`).

## Model

| member | source | states |
|---|---|---|
| `Operations.OperationTable` | Calculator/CalculatorBrain.swift:52-63 | the table's keys are exactly the ten symbols π, e, √, ±, cos, x, ÷, +, −, = |
| `Operations.BinarySymbols` | Calculator/CalculatorBrain.swift:58-61 | a symbol opens a pending operation exactly when it is one of x, ÷, +, − |
| `Evaluation.DropOther` | Calculator/CalculatorBrain.swift:116-123 | replay acts on operands and symbols only: the result holds no other entries, and equals the input when the input has none |
| `Evaluation.DropOtherContents` | Calculator/CalculatorBrain.swift:117-123 | the entries replay acts on are those of the input with each other entry removed and nothing else removed (as multisets) |
| `Evaluation.DropOtherConcat` | Calculator/CalculatorBrain.swift:117-123 | skipping entries distributes over concatenation, so replay keeps the order of the list |
| `Evaluation.RunConcat` | Calculator/CalculatorBrain.swift:117-123 | replaying a concatenation is replaying its halves in turn, starting the second from where the first ended |
| `Evaluation.RunAppend` | Calculator/CalculatorBrain.swift:117-123 | appending one entry to the log is exactly one more step of the fold |
| `Evaluation.RunIgnoresOther` | Calculator/CalculatorBrain.swift:116-123 | skipped entries have no effect: replaying the filtered list gives the same state as stepping through the whole list |
| `Evaluation.UnknownSymbolIsNoOp` | Calculator/CalculatorBrain.swift:72-74 | a symbol outside the table changes neither the accumulator nor the pending operation |
| `Evaluation.ConstantSymbols` | Calculator/CalculatorBrain.swift:76-77 | π and e set the accumulator to their constant whatever it held, and keep the pending operation |
| `Evaluation.UnarySymbols` | Calculator/CalculatorBrain.swift:78-79 | √, ± and cos replace the accumulator by their function of it, and keep the pending operation |
| `Evaluation.BinarySymbol` | Calculator/CalculatorBrain.swift:80-84 | a binary symbol first resolves any pending operation against the accumulator, then opens its own with the resolved value as first operand |
| `Evaluation.EqualsSymbol` | Calculator/CalculatorBrain.swift:94-99 | `=` never clears the pending operation; without one it changes nothing, with one it applies it to the accumulator |
| `Evaluation.PendingIffBinaryEntered` | Calculator/CalculatorBrain.swift:80-99 | after replaying a log, a pending operation exists exactly when one existed before or the log holds a binary symbol |
| `Evaluation.PendingOnlyAfterBinarySymbol` | Calculator/CalculatorBrain.swift:92 | from the cleared state, pending is present exactly when some binary symbol has been entered |
| `Scenarios.LeftToRightChaining` | Calculator/CalculatorBrain.swift:80-87 | 3 + 4 x 5 = yields (3 + 4) * 5 = 35: no operator precedence |
| `Scenarios.RepeatedEquals` | Calculator/CalculatorBrain.swift:86-99 | 3 + 4 = yields 7, and a second = re-applies + 3 to yield 10 |
| `Scenarios.BinaryAfterEqualsReapplies` | Calculator/CalculatorBrain.swift:80-99 | 3 + 4 = x re-applies the kept + to give 10 and opens x with first operand 10 |
| `Scenarios.SquareRootThenEquals` | Calculator/CalculatorBrain.swift:78-87 | 9 √ leaves sqrt(9) in the accumulator with nothing pending, and a following = changes nothing |
| `Scenarios.SubtractThenDivide` | Calculator/CalculatorBrain.swift:59-61 | 5 − 3 = gives 2 with − the U+2212 minus sign, and 5 − 3 ÷ 4 = gives the division of 2 by 4 |
| `Calculator.ReplayedLog` | Calculator/CalculatorBrain.swift:114-125 | after `program` is set, the log holds no other entries; it is empty for a value that is not an array, and equals an array that holds only operands and symbols |
| `Calculator.CalculatorBrain.constructor` | Calculator/CalculatorBrain.swift:41-42 | a new brain has accumulator 0, no pending operation and an empty log, and satisfies the invariant |
| `Calculator.CalculatorBrain.SetOperand` | Calculator/CalculatorBrain.swift:46-50 | the operand becomes the accumulator, pending is unchanged, exactly `Num(operand)` is appended to the log, and the invariant is kept |
| `Calculator.CalculatorBrain.PerformOperation` | Calculator/CalculatorBrain.swift:72-90 | exactly `Sym(symbol)` is appended to the log; the new state is one fold step from the old one; an unknown symbol leaves accumulator and pending as they were; the invariant is kept |
| `Calculator.CalculatorBrain.ExecutePendingBinaryOperation` | Calculator/CalculatorBrain.swift:94-99 | with a pending operation the accumulator becomes its function of the first operand and the old accumulator; pending and the log are unchanged |
| `Calculator.CalculatorBrain.Program` | Calculator/CalculatorBrain.swift:109-112 | returns the log as an array of operands and symbols whose replay from the cleared state is the current state |
| `Calculator.CalculatorBrain.SetProgram` | Calculator/CalculatorBrain.swift:114-125 | clears, then replays in order: the log becomes the list without its other entries, the state equals the replay of the given list, and assigning back the brain's own log leaves accumulator, pending and log unchanged |
| `Calculator.CalculatorBrain.Clear` | Calculator/CalculatorBrain.swift:128-132 | accumulator 0, no pending operation, empty log: the same state as a new brain |
| `Calculator.CalculatorBrain.Result` | Calculator/CalculatorBrain.swift:133-135 | returns the accumulator without changing anything, and that value is fixed by the log alone |

## Left out

- Floating-point semantics of `Double`: the model computes +, −, x and ± exactly over `real`, with no rounding. Division, `sqrt`, `cos`, `M_PI` and `M_E` are uninterpreted members of `MathLib`. Infinity and NaN from a zero divisor are therefore not modelled.
- `Calculator/ViewController.swift` is not part of this model. It is UIKit glue: the display label, typing state, and parsing of the display text into a number.
- The debug `print` calls in `setOperand` and `performOperation`. They are output only.
- The unused fields `description` and `isPartialResult`, the free function `multiply`, and the comment block about closures. Nothing in the brain uses them.
- `AnyObject` and `NSNumber` bridging. A program entry is an `Entry` (`Num`, `Sym` or `Other`), so which Objective-C values cast to `Double` or `String` is not modelled. Any other property-list value is `NotAList`.
- Symbols are compared as sequences of code points. Swift's `String` comparison uses canonical equivalence, and the model does not capture it.
- Aliasing of the array returned by `program` is not modelled. Swift arrays have value semantics, and the model returns a `seq`.
