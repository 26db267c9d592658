/**
 * The brain's behaviour as values: one step per program entry, and the left
 * fold of a program log from the cleared state. The class in
 * calculator_brain.dfy keeps its fields equal to this fold at all times.
 */
module Evaluation {
  import opened Options
  import opened Operations

  /** One entry of the program log: an operand, an operator symbol, or any
      other property-list value, which replay skips. */
  datatype Entry = Num(x: real) | Sym(symbol: string) | Other

  /** A binary operation waiting for its second operand. */
  datatype PendingBinaryOperationInfo =
    PendingBinaryOperationInfo(binaryFunction: (real, real) -> real, firstOperand: real)

  /** The part of the brain that determines `result`. */
  datatype BrainState = BrainState(accumulator: real, pending: Option<PendingBinaryOperationInfo>)

  /** The state of a new or cleared brain. */
  const Cleared: BrainState := BrainState(0.0, None)

  predicate NoOther(log: seq<Entry>)
  {
    forall i :: 0 <= i < |log| ==> !log[i].Other?
  }

  /** Applies the pending operation, if any, to the accumulator. The pending
      operation itself is kept. */
  function ExecutePending(st: BrainState): BrainState
  {
    match st.pending
    case None => st
    case Some(p) => st.(accumulator := p.binaryFunction(p.firstOperand, st.accumulator))
  }

  /** The effect of `performOperation(symbol)` on the state. */
  function PerformStep(lib: MathLib, st: BrainState, symbol: string): BrainState
  {
    var table := OperationTable(lib);
    if symbol !in table then st
    else
      match table[symbol]
      case Constant(v) => st.(accumulator := v)
      case UnaryOperation(f) => st.(accumulator := f(st.accumulator))
      case BinaryOperation(f) =>
        var resolved := ExecutePending(st).accumulator;
        BrainState(resolved, Some(PendingBinaryOperationInfo(f, resolved)))
      case Equals => ExecutePending(st)
  }

  /** The effect of replaying one entry. */
  function Step(lib: MathLib, st: BrainState, e: Entry): BrainState
  {
    match e
    case Num(x) => st.(accumulator := x)
    case Sym(s) => PerformStep(lib, st, s)
    case Other => st
  }

  /** Left fold of `Step` over a log. */
  function Run(lib: MathLib, st: BrainState, log: seq<Entry>): BrainState
    decreases |log|
  {
    if log == [] then st else Run(lib, Step(lib, st, log[0]), log[1..])
  }

  /** The entries a replay acts on: the log with every `Other` removed, in order. */
  function DropOther(log: seq<Entry>): (r: seq<Entry>)
    ensures NoOther(r)
    ensures NoOther(log) ==> r == log
    decreases |log|
  {
    if log == [] then []
    else
      var rest := DropOther(log[1..]);
      if log[0].Other? then rest else [log[0]] + rest
  }

  /** Filtering removes every `Other` entry and nothing else. */
  lemma {:induction false} DropOtherContents(log: seq<Entry>)
    ensures multiset(DropOther(log)) == multiset(log)[Other := 0]
    decreases |log|
  {
    if log != [] {
      DropOtherContents(log[1..]);
      assert log == [log[0]] + log[1..];
    }
  }

  // ---------------------------------------------------------------- the fold

  /** Folding a concatenation folds the two halves one after the other. */
  lemma {:induction false} RunConcat(lib: MathLib, st: BrainState, a: seq<Entry>, b: seq<Entry>)
    ensures Run(lib, st, a + b) == Run(lib, Run(lib, st, a), b)
    decreases |a|
  {
    if a != [] {
      assert (a + b)[1..] == a[1..] + b;
      RunConcat(lib, Step(lib, st, a[0]), a[1..], b);
    } else {
      assert a + b == b;
    }
  }

  /** Appending one entry to the log is one more step. */
  lemma RunAppend(lib: MathLib, st: BrainState, log: seq<Entry>, e: Entry)
    ensures Run(lib, st, log + [e]) == Step(lib, Run(lib, st, log), e)
  {
    RunConcat(lib, st, log, [e]);
  }

  /** Filtering distributes over concatenation, so it keeps the order. */
  lemma {:induction false} DropOtherConcat(a: seq<Entry>, b: seq<Entry>)
    ensures DropOther(a + b) == DropOther(a) + DropOther(b)
    decreases |a|
  {
    if a != [] {
      var ab := a + b;
      assert ab[0] == a[0] && ab[1..] == a[1..] + b;
      DropOtherConcat(a[1..], b);
      if a[0].Other? {
        assert DropOther(ab) == DropOther(a[1..] + b);
        assert DropOther(a) == DropOther(a[1..]);
      } else {
        assert DropOther(ab) == [a[0]] + DropOther(a[1..] + b);
        assert DropOther(a) == [a[0]] + DropOther(a[1..]);
      }
    } else {
      assert a + b == b;
    }
  }

  /** Replay skips `Other` entries: folding the filtered log gives the same state. */
  lemma {:induction false} RunIgnoresOther(lib: MathLib, st: BrainState, log: seq<Entry>)
    ensures Run(lib, st, DropOther(log)) == Run(lib, st, log)
    decreases |log|
  {
    if log != [] {
      RunIgnoresOther(lib, Step(lib, st, log[0]), log[1..]);
      if !log[0].Other? {
        assert ([log[0]] + DropOther(log[1..]))[1..] == DropOther(log[1..]);
      }
    }
  }

  // ------------------------------------------------------ a single operation

  /** An unknown symbol changes neither the accumulator nor the pending operation. */
  lemma UnknownSymbolIsNoOp(lib: MathLib, st: BrainState, symbol: string)
    requires symbol !in Symbols
    ensures PerformStep(lib, st, symbol) == st
  {
  }

  /** A constant symbol sets the accumulator whatever it held; pending is kept. */
  lemma ConstantSymbols(lib: MathLib, st: BrainState)
    ensures PerformStep(lib, st, Pi) == BrainState(lib.pi, st.pending)
    ensures PerformStep(lib, st, E) == BrainState(lib.e, st.pending)
  {
  }

  /** A unary symbol replaces the accumulator by its function of it; pending is kept. */
  lemma UnarySymbols(lib: MathLib, st: BrainState)
    ensures PerformStep(lib, st, SquareRoot) == BrainState(lib.sqrt(st.accumulator), st.pending)
    ensures PerformStep(lib, st, PlusMinus) == BrainState(-st.accumulator, st.pending)
    ensures PerformStep(lib, st, Cos) == BrainState(lib.cos(st.accumulator), st.pending)
  {
  }

  /** A binary symbol first resolves any pending operation against the
      accumulator, then opens a new pending operation whose first operand is
      the resolved value. */
  lemma BinarySymbol(lib: MathLib, st: BrainState, symbol: string)
    requires IsBinarySymbol(lib, symbol)
    ensures var r := PerformStep(lib, st, symbol);
      && r.pending == Some(PendingBinaryOperationInfo(
           OperationTable(lib)[symbol].binaryFunction, r.accumulator))
      && (st.pending.None? ==> r.accumulator == st.accumulator)
      && (st.pending.Some? ==>
            r.accumulator == st.pending.value.binaryFunction(st.pending.value.firstOperand, st.accumulator))
  {
  }

  /** `=` never clears the pending operation. Without one it changes nothing;
      with one it applies it to the accumulator. */
  lemma EqualsSymbol(lib: MathLib, st: BrainState)
    ensures PerformStep(lib, st, EqualsSign).pending == st.pending
    ensures st.pending.None? ==> PerformStep(lib, st, EqualsSign) == st
    ensures st.pending.Some? ==>
      PerformStep(lib, st, EqualsSign).accumulator
        == st.pending.value.binaryFunction(st.pending.value.firstOperand, st.accumulator)
  {
  }

  // ---------------------------------------------------- whole-log invariants

  /** A pending operation exists after a replay exactly when one existed
      before it or the log holds a binary symbol. */
  lemma {:induction false} PendingIffBinaryEntered(lib: MathLib, st: BrainState, log: seq<Entry>)
    ensures Run(lib, st, log).pending.Some? <==>
      st.pending.Some? || exists i :: 0 <= i < |log| && log[i].Sym? && IsBinarySymbol(lib, log[i].symbol)
    decreases |log|
  {
    if log != [] {
      var next := Step(lib, st, log[0]);
      PendingIffBinaryEntered(lib, next, log[1..]);
      if next.pending.Some? && !st.pending.Some? {
        assert log[0].Sym? && IsBinarySymbol(lib, log[0].symbol);
      }
      if exists i :: 0 <= i < |log| && log[i].Sym? && IsBinarySymbol(lib, log[i].symbol) {
        var i :| 0 <= i < |log| && log[i].Sym? && IsBinarySymbol(lib, log[i].symbol);
        if i == 0 {
          assert next.pending.Some?;
        } else {
          assert log[1..][i - 1] == log[i];
        }
      }
    }
  }

  /** From the cleared state there is a pending operation exactly when a
      binary symbol was entered. */
  lemma PendingOnlyAfterBinarySymbol(lib: MathLib, log: seq<Entry>)
    ensures Run(lib, Cleared, log).pending.Some? <==>
      exists i :: 0 <= i < |log| && log[i].Sym? && IsBinarySymbol(lib, log[i].symbol)
  {
    PendingIffBinaryEntered(lib, Cleared, log);
  }
}
