/**
 * The brain's fixed symbol table: every button symbol the brain knows, mapped
 * to the kind of operation it stands for.
 *
 * Floating-point library values (pi, e, square root, cosine and division,
 * which yields infinity or NaN on a zero divisor) are not modelled: they are
 * supplied by a `MathLib` value and stay uninterpreted. Addition, subtraction,
 * multiplication and negation are exact `real` arithmetic.
 */
module Operations {

  /** The platform numerics the symbol table draws on. */
  datatype MathLib = MathLib(
    pi: real,
    e: real,
    sqrt: real -> real,
    cos: real -> real,
    divide: (real, real) -> real)

  /** The four kinds of operation a symbol can stand for. */
  datatype Operation =
    | Constant(value: real)
    | UnaryOperation(unaryFunction: real -> real)
    | BinaryOperation(binaryFunction: (real, real) -> real)
    | Equals

  const Pi: string := "\U{03C0}"          // π
  const E: string := "e"
  const SquareRoot: string := "\U{221A}"  // √
  const PlusMinus: string := "\U{00B1}"   // ±
  const Cos: string := "cos"
  const Times: string := "x"
  const Divide: string := "\U{00F7}"      // ÷
  const Plus: string := "+"
  const Minus: string := "\U{2212}"       // − (MINUS SIGN, not the ASCII hyphen)
  const EqualsSign: string := "="

  /** The ten keys of the table; every other string is an unknown symbol. */
  const Symbols: set<string> :=
    {Pi, E, SquareRoot, PlusMinus, Cos, Times, Divide, Plus, Minus, EqualsSign}

  /** The table the brain consults on every `performOperation`. */
  function OperationTable(lib: MathLib): (table: map<string, Operation>)
    ensures table.Keys == Symbols
  {
    map[
      Pi := Constant(lib.pi),
      E := Constant(lib.e),
      SquareRoot := UnaryOperation(lib.sqrt),
      PlusMinus := UnaryOperation(x => -x),
      Cos := UnaryOperation(lib.cos),
      Times := BinaryOperation((a, b) => a * b),
      Divide := BinaryOperation(lib.divide),
      Plus := BinaryOperation((a, b) => a + b),
      Minus := BinaryOperation((a, b) => a - b),
      EqualsSign := Equals
    ]
  }

  /** True of the symbols whose table entry is a binary operation. */
  predicate IsBinarySymbol(lib: MathLib, symbol: string)
  {
    symbol in OperationTable(lib) && OperationTable(lib)[symbol].BinaryOperation?
  }

  /** Exactly four symbols open a pending binary operation. */
  lemma BinarySymbols(lib: MathLib, symbol: string)
    ensures IsBinarySymbol(lib, symbol) <==> symbol in {Times, Divide, Plus, Minus}
  {
  }
}
