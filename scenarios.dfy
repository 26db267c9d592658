/**
 * Key sequences worked through the replay fold: left-to-right chaining
 * without precedence, and the consequences of `=` keeping the pending
 * operation.
 */
module Scenarios {
  import opened Options
  import opened Operations
  import opened Evaluation

  /** 3 + 4 x 5 = gives (3 + 4) * 5 = 35, not 3 + 4 * 5 = 23. */
  lemma LeftToRightChaining(lib: MathLib)
    ensures Run(lib, Cleared, [Num(3.0), Sym(Plus), Num(4.0), Sym(Times), Num(5.0), Sym(EqualsSign)]).accumulator == 35.0
  {
    var add := OperationTable(lib)[Plus].binaryFunction;
    var mul := OperationTable(lib)[Times].binaryFunction;
    calc {
      Run(lib, Cleared, [Num(3.0), Sym(Plus), Num(4.0), Sym(Times), Num(5.0), Sym(EqualsSign)]);
      Run(lib, BrainState(3.0, None), [Sym(Plus), Num(4.0), Sym(Times), Num(5.0), Sym(EqualsSign)]);
      Run(lib, BrainState(3.0, Some(PendingBinaryOperationInfo(add, 3.0))), [Num(4.0), Sym(Times), Num(5.0), Sym(EqualsSign)]);
      Run(lib, BrainState(4.0, Some(PendingBinaryOperationInfo(add, 3.0))), [Sym(Times), Num(5.0), Sym(EqualsSign)]);
      Run(lib, BrainState(7.0, Some(PendingBinaryOperationInfo(mul, 7.0))), [Num(5.0), Sym(EqualsSign)]);
      Run(lib, BrainState(5.0, Some(PendingBinaryOperationInfo(mul, 7.0))), [Sym(EqualsSign)]);
      Run(lib, BrainState(35.0, Some(PendingBinaryOperationInfo(mul, 7.0))), []);
    }
  }

  /** `=` keeps the pending operation, so 3 + 4 = gives 7 and a second `=`
      adds 3 again, giving 10. */
  lemma RepeatedEquals(lib: MathLib)
    ensures Run(lib, Cleared, [Num(3.0), Sym(Plus), Num(4.0), Sym(EqualsSign)]).accumulator == 7.0
    ensures Run(lib, Cleared, [Num(3.0), Sym(Plus), Num(4.0), Sym(EqualsSign), Sym(EqualsSign)]).accumulator == 10.0
  {
    var add := OperationTable(lib)[Plus].binaryFunction;
    var afterPlus := BrainState(3.0, Some(PendingBinaryOperationInfo(add, 3.0)));
    calc {
      Run(lib, Cleared, [Num(3.0), Sym(Plus), Num(4.0), Sym(EqualsSign)]);
      Run(lib, BrainState(3.0, None), [Sym(Plus), Num(4.0), Sym(EqualsSign)]);
      Run(lib, afterPlus, [Num(4.0), Sym(EqualsSign)]);
      Run(lib, afterPlus.(accumulator := 4.0), [Sym(EqualsSign)]);
      Run(lib, afterPlus.(accumulator := 7.0), []);
    }
    calc {
      Run(lib, Cleared, [Num(3.0), Sym(Plus), Num(4.0), Sym(EqualsSign), Sym(EqualsSign)]);
      Run(lib, BrainState(3.0, None), [Sym(Plus), Num(4.0), Sym(EqualsSign), Sym(EqualsSign)]);
      Run(lib, afterPlus, [Num(4.0), Sym(EqualsSign), Sym(EqualsSign)]);
      Run(lib, afterPlus.(accumulator := 4.0), [Sym(EqualsSign), Sym(EqualsSign)]);
      Run(lib, afterPlus.(accumulator := 7.0), [Sym(EqualsSign)]);
      Run(lib, afterPlus.(accumulator := 10.0), []);
    }
  }

  /** A binary operator after `=` first re-applies the old pending operation:
      3 + 4 = x resolves 3 + 7 and opens multiplication with first operand 10. */
  lemma BinaryAfterEqualsReapplies(lib: MathLib)
    ensures var st := Run(lib, Cleared, [Num(3.0), Sym(Plus), Num(4.0), Sym(EqualsSign), Sym(Times)]);
      st.accumulator == 10.0 && st.pending.Some? && st.pending.value.firstOperand == 10.0
  {
    var add := OperationTable(lib)[Plus].binaryFunction;
    var mul := OperationTable(lib)[Times].binaryFunction;
    var afterPlus := BrainState(3.0, Some(PendingBinaryOperationInfo(add, 3.0)));
    calc {
      Run(lib, Cleared, [Num(3.0), Sym(Plus), Num(4.0), Sym(EqualsSign), Sym(Times)]);
      Run(lib, BrainState(3.0, None), [Sym(Plus), Num(4.0), Sym(EqualsSign), Sym(Times)]);
      Run(lib, afterPlus, [Num(4.0), Sym(EqualsSign), Sym(Times)]);
      Run(lib, afterPlus.(accumulator := 4.0), [Sym(EqualsSign), Sym(Times)]);
      Run(lib, afterPlus.(accumulator := 7.0), [Sym(Times)]);
      Run(lib, BrainState(10.0, Some(PendingBinaryOperationInfo(mul, 10.0))), []);
    }
  }

  /** 9 √ leaves the square root of 9 in the accumulator; a following `=`
      with nothing pending leaves it there. */
  lemma SquareRootThenEquals(lib: MathLib)
    ensures Run(lib, Cleared, [Num(9.0), Sym(SquareRoot)]) == BrainState(lib.sqrt(9.0), None)
    ensures Run(lib, Cleared, [Num(9.0), Sym(SquareRoot), Sym(EqualsSign)]) == BrainState(lib.sqrt(9.0), None)
  {
    calc {
      Run(lib, Cleared, [Num(9.0), Sym(SquareRoot)]);
      Run(lib, BrainState(9.0, None), [Sym(SquareRoot)]);
      Run(lib, BrainState(lib.sqrt(9.0), None), []);
    }
    calc {
      Run(lib, Cleared, [Num(9.0), Sym(SquareRoot), Sym(EqualsSign)]);
      Run(lib, BrainState(9.0, None), [Sym(SquareRoot), Sym(EqualsSign)]);
      Run(lib, BrainState(lib.sqrt(9.0), None), [Sym(EqualsSign)]);
      Run(lib, BrainState(lib.sqrt(9.0), None), []);
    }
  }

  /** − (U+2212) subtracts the accumulator from the first operand: 5 − 3 = gives
      2. ÷ divides the same way: 5 − 3 ÷ 4 = divides the resolved 2 by 4. */
  lemma SubtractThenDivide(lib: MathLib)
    ensures Run(lib, Cleared, [Num(5.0), Sym(Minus), Num(3.0), Sym(EqualsSign)]).accumulator == 2.0
    ensures Run(lib, Cleared, [Num(5.0), Sym(Minus), Num(3.0), Sym(Divide), Num(4.0), Sym(EqualsSign)]).accumulator
      == lib.divide(2.0, 4.0)
  {
    var sub := OperationTable(lib)[Minus].binaryFunction;
    var afterMinus := BrainState(5.0, Some(PendingBinaryOperationInfo(sub, 5.0)));
    var afterDivide := BrainState(2.0, Some(PendingBinaryOperationInfo(lib.divide, 2.0)));
    calc {
      Run(lib, Cleared, [Num(5.0), Sym(Minus), Num(3.0), Sym(EqualsSign)]);
      Run(lib, BrainState(5.0, None), [Sym(Minus), Num(3.0), Sym(EqualsSign)]);
      Run(lib, afterMinus, [Num(3.0), Sym(EqualsSign)]);
      Run(lib, afterMinus.(accumulator := 3.0), [Sym(EqualsSign)]);
      Run(lib, afterMinus.(accumulator := 2.0), []);
    }
    calc {
      Run(lib, Cleared, [Num(5.0), Sym(Minus), Num(3.0), Sym(Divide), Num(4.0), Sym(EqualsSign)]);
      Run(lib, BrainState(5.0, None), [Sym(Minus), Num(3.0), Sym(Divide), Num(4.0), Sym(EqualsSign)]);
      Run(lib, afterMinus, [Num(3.0), Sym(Divide), Num(4.0), Sym(EqualsSign)]);
      Run(lib, afterMinus.(accumulator := 3.0), [Sym(Divide), Num(4.0), Sym(EqualsSign)]);
      Run(lib, afterDivide, [Num(4.0), Sym(EqualsSign)]);
      Run(lib, afterDivide.(accumulator := 4.0), [Sym(EqualsSign)]);
      Run(lib, afterDivide.(accumulator := lib.divide(2.0, 4.0)), []);
    }
  }
}
