/**
 * The accumulator-based calculator brain as an object whose methods update
 * its fields in place. Its invariant `Valid()` says that the accumulator and
 * the pending operation are always the left fold of the program log from the
 * cleared state, so the log alone determines `result`.
 */
module Calculator {
  import opened Options
  import opened Operations
  import opened Evaluation

  /** What the `program` property holds: an array of entries, or some other
      property-list value, which the setter does not replay. */
  datatype PropertyList = EntryList(entries: seq<Entry>) | NotAList

  /** The log a brain holds after its `program` is set to `value`. */
  function ReplayedLog(value: PropertyList): (log: seq<Entry>)
    ensures NoOther(log)
    ensures value.NotAList? ==> log == []
    ensures value.EntryList? && NoOther(value.entries) ==> log == value.entries
  {
    match value
    case EntryList(entries) => DropOther(entries)
    case NotAList => []
  }

  class CalculatorBrain {
    const lib: MathLib
    const operations: map<string, Operation>
    var accumulator: real
    var internalProgram: seq<Entry>
    var pending: Option<PendingBinaryOperationInfo>

    ghost function State(): BrainState
      reads this
    {
      BrainState(accumulator, pending)
    }

    /** The object invariant: the log holds only operands and symbols, and
        the state is what replaying the log from the cleared state yields. */
    ghost predicate Valid()
      reads this
    {
      && operations == OperationTable(lib)
      && NoOther(internalProgram)
      && State() == Run(lib, Cleared, internalProgram)
    }

    constructor (lib: MathLib)
      ensures Valid() && this.lib == lib
      ensures accumulator == 0.0 && pending.None? && internalProgram == []
    {
      this.lib := lib;
      operations := OperationTable(lib);
      accumulator := 0.0;
      internalProgram := [];
      pending := None;
    }

    /** Enters an operand: it becomes the accumulator and is logged. */
    method SetOperand(operand: real)
      requires Valid()
      modifies this
      ensures Valid()
      ensures accumulator == operand && pending == old(pending)
      ensures internalProgram == old(internalProgram) + [Num(operand)]
    {
      RunAppend(lib, Cleared, internalProgram, Num(operand));
      accumulator := operand;
      internalProgram := internalProgram + [Num(operand)];
    }

    /** Logs a symbol and applies the operation the table gives it, if any. */
    method PerformOperation(symbol: string)
      requires Valid()
      modifies this
      ensures Valid()
      ensures internalProgram == old(internalProgram) + [Sym(symbol)]
      ensures State() == PerformStep(lib, old(State()), symbol)
      ensures symbol !in Symbols ==> accumulator == old(accumulator) && pending == old(pending)
    {
      RunAppend(lib, Cleared, internalProgram, Sym(symbol));
      internalProgram := internalProgram + [Sym(symbol)];
      if symbol in operations {
        match operations[symbol]
        case Constant(value) =>
          accumulator := value;
        case UnaryOperation(f) =>
          accumulator := f(accumulator);
        case BinaryOperation(f) =>
          ExecutePendingBinaryOperation();
          pending := Some(PendingBinaryOperationInfo(f, accumulator));
        case Equals =>
          ExecutePendingBinaryOperation();
      }
    }

    /** Applies the pending operation to the accumulator without clearing it. */
    method ExecutePendingBinaryOperation()
      modifies this
      ensures State() == ExecutePending(old(State()))
      ensures pending == old(pending) && internalProgram == old(internalProgram)
      ensures old(pending).Some? ==>
        accumulator == old(pending).value.binaryFunction(old(pending).value.firstOperand, old(accumulator))
    {
      if pending.Some? {
        accumulator := pending.value.binaryFunction(pending.value.firstOperand, accumulator);
      }
    }

    /** Reads the `program` property: the log of everything entered. */
    method Program() returns (value: PropertyList)
      requires Valid()
      ensures value == EntryList(internalProgram) && NoOther(value.entries)
      ensures Run(lib, Cleared, value.entries) == State()
    {
      value := EntryList(internalProgram);
    }

    /** Sets the `program` property: clears, then replays the entries in order,
        skipping anything that is neither an operand nor a symbol. */
    method SetProgram(newValue: PropertyList)
      requires Valid()
      modifies this
      ensures Valid()
      ensures internalProgram == ReplayedLog(newValue)
      ensures newValue.EntryList? ==> State() == Run(lib, Cleared, newValue.entries)
      ensures newValue == EntryList(old(internalProgram)) ==>
        accumulator == old(accumulator) && pending == old(pending) && internalProgram == old(internalProgram)
    {
      Clear();
      if newValue.EntryList? {
        var ops := newValue.entries;
        for i := 0 to |ops|
          invariant Valid()
          invariant internalProgram == DropOther(ops[..i])
        {
          assert ops[..i + 1] == ops[..i] + [ops[i]];
          DropOtherConcat(ops[..i], [ops[i]]);
          var op := ops[i];
          if op.Num? {
            SetOperand(op.x);
            assert DropOther([op]) == [op];
          } else if op.Sym? {
            PerformOperation(op.symbol);
            assert DropOther([op]) == [op];
          } else {
            assert DropOther([op]) == [];
          }
        }
        assert ops[..|ops|] == ops;
        RunIgnoresOther(lib, Cleared, ops);
      }
    }

    /** Resets to the initial state: accumulator 0, no pending operation, empty log. */
    method Clear()
      requires Valid()
      modifies this
      ensures Valid()
      ensures accumulator == 0.0 && pending.None? && internalProgram == []
    {
      accumulator := 0.0;
      pending := None;
      internalProgram := [];
    }

    /** Reads `result`; it changes nothing, and it is fixed by the log alone. */
    method Result() returns (r: real)
      requires Valid()
      ensures r == Run(lib, Cleared, internalProgram).accumulator
    {
      r := accumulator;
    }
  }
}
