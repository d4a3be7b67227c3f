/**
 * What the evaluator promises, token by token and for whole expressions:
 * arity checks come first, operands are combined as `num1 OP num2` with
 * `num2` the former top, only the first character of an operator token
 * matters, and an expression succeeds only when its tokens never ask for
 * more values than the stack holds and leave exactly one behind.
 */
module RpnProperties {
  import opened Wrappers
  import opened OperandStack
  import opened Tokens
  import opened Rpn

  /** A number token pushes its parsed value on any stack and never fails. */
  lemma NumberPushes<N>(ops: NumberOps<N>, st: Stack<N>, t: string)
    requires LooksNumeric(t)
    ensures Step(ops, st, t) == Success(Stack([ops.parse(t)] + st.items))
  {
  }

  /**
   * `sin`, `cos` and `tan` fail on an empty stack; otherwise they replace the
   * top value by the function's value on it and leave the rest alone.
   */
  lemma TrigReplacesTop<N>(ops: NumberOps<N>, st: Stack<N>, t: string, f: TrigFn)
    requires Classify(t) == Trig(f)
    ensures Depth(st) == 0 ==> Step(ops, st, t) == Failure(NotEnoughOperands(t))
    ensures Depth(st) > 0 ==>
      Step(ops, st, t) == Success(Stack([ApplyTrig(ops, f, st.items[0])] + st.items[1..]))
  {
  }

  /**
   * Any token that is neither a number nor a function name fails with
   * not-enough-operands when fewer than two values are present, whatever its
   * first character: a lone `$` is reported as missing operands.
   */
  lemma OperatorUnderflowWins<N>(ops: NumberOps<N>, st: Stack<N>, t: string)
    requires Classify(t) == Operator
    requires Depth(st) < 2
    ensures Step(ops, st, t) == Failure(NotEnoughOperands(t))
  {
  }

  /**
   * With two or more values, the top is `num2`, the one below it is `num1`,
   * and the outcome depends on the first character of the token only:
   * an unknown operator and a zero divisor are failures, anything else
   * replaces both values by `num1 OP num2`.
   */
  lemma OperatorOnTwoValues<N>(ops: NumberOps<N>, st: Stack<N>, t: string)
    requires Classify(t) == Operator
    requires Depth(st) >= 2
    ensures var num2, num1, below := st.items[0], st.items[1], st.items[2..];
      match OperatorOf(Lead(t))
      case None => Step(ops, st, t) == Failure(InvalidOperator(t))
      case Some(Div) =>
        Step(ops, st, t) ==
          if ops.isZero(num2) then Failure(DivisionByZero)
          else Success(Stack([ops.div(num1, num2)] + below))
      case Some(op) => Step(ops, st, t) == Success(Stack([ApplyTotal(ops, op, num1, num2)] + below))
    ensures var num2, num1, below := st.items[0], st.items[1], st.items[2..];
      && (Lead(t) == '+' ==> Step(ops, st, t) == Success(Stack([ops.add(num1, num2)] + below)))
      && (Lead(t) == '-' ==> Step(ops, st, t) == Success(Stack([ops.sub(num1, num2)] + below)))
      && (Lead(t) == '*' ==> Step(ops, st, t) == Success(Stack([ops.mul(num1, num2)] + below)))
      && (Lead(t) == '/' && !ops.isZero(num2) ==> Step(ops, st, t) == Success(Stack([ops.div(num1, num2)] + below)))
      && (Lead(t) == '/' && ops.isZero(num2) ==> Step(ops, st, t) == Failure(DivisionByZero))
  {
    var p2 := Pop(st).value;
    assert p2.rest.items == st.items[1..];
    var p1 := Pop(p2.rest).value;
    assert p1.rest.items == st.items[2..];
  }

  /** Two operator tokens with the same known first character act alike: `+x` is `+`. */
  lemma OnlyFirstCharacterCounts<N>(ops: NumberOps<N>, st: Stack<N>, t: string, u: string)
    requires Classify(t) == Operator && Classify(u) == Operator
    requires Lead(t) == Lead(u) && OperatorOf(Lead(t)).Some?
    ensures Step(ops, st, t).Success? <==> Step(ops, st, u).Success?
    ensures Depth(st) >= 2 ==> Step(ops, st, t) == Step(ops, st, u)
  {
  }

  /** A token the evaluator can act on: not an operator token with an unknown first character. */
  predicate Recognized(t: string) {
    Classify(t) != Operator || OperatorOf(Lead(t)).Some?
  }

  /** The stack never runs short: every token finds at least as many values as it needs. */
  predicate ArityOk(depth: int, ts: seq<string>)
    decreases |ts|
  {
    |ts| == 0 ||
    (depth >= Arity(Classify(ts[0])) && ArityOk(depth + Effect(Classify(ts[0])), ts[1..]))
  }

  /** A successful run never lacked operands along the way. */
  lemma {:induction false} RunSuccessNeedsArity<N>(ops: NumberOps<N>, st: Stack<N>, ts: seq<string>)
    requires Run(ops, st, ts).Success?
    ensures ArityOk(Depth(st), ts)
    decreases |ts|
  {
    if |ts| > 0 {
      var st' := Step(ops, st, ts[0]).value;
      RunSuccessNeedsArity(ops, st', ts[1..]);
    }
  }

  /**
   * When the arity condition holds, the only failures left are an unknown
   * operator and a zero divisor; when moreover every token is recognized,
   * only a zero divisor can stop the run.
   */
  lemma {:induction false} ArityOkLeavesOnlyOperatorFailures<N>(ops: NumberOps<N>, st: Stack<N>, ts: seq<string>)
    requires ArityOk(Depth(st), ts)
    ensures Run(ops, st, ts).Failure? ==>
      Run(ops, st, ts).error == DivisionByZero || Run(ops, st, ts).error.InvalidOperator?
    ensures (forall i :: 0 <= i < |ts| ==> Recognized(ts[i])) && Run(ops, st, ts).Failure? ==>
      Run(ops, st, ts).error == DivisionByZero
    decreases |ts|
  {
    if |ts| > 0 {
      var r := Step(ops, st, ts[0]);
      if r.Success? {
        assert forall i :: 0 <= i < |ts[1..]| ==> ts[1..][i] == ts[i + 1];
        ArityOkLeavesOnlyOperatorFailures(ops, r.value, ts[1..]);
      } else if Recognized(ts[0]) {
        if Classify(ts[0]) == Operator {
          OperatorOnTwoValues(ops, st, ts[0]);
        }
      }
    }
  }

  /** An invalid-operator failure names a token of the input whose first character is unknown. */
  lemma {:induction false} InvalidOperatorIsUnrecognized<N>(ops: NumberOps<N>, st: Stack<N>, ts: seq<string>)
    requires Run(ops, st, ts).Failure? && Run(ops, st, ts).error.InvalidOperator?
    ensures Run(ops, st, ts).error.token in ts
    ensures !Recognized(Run(ops, st, ts).error.token)
    decreases |ts|
  {
    var r := Step(ops, st, ts[0]);
    if r.Success? {
      InvalidOperatorIsUnrecognized(ops, r.value, ts[1..]);
    } else if Classify(ts[0]) == Operator && Depth(st) >= 2 {
      OperatorOnTwoValues(ops, st, ts[0]);
    }
  }

  /**
   * Whole expressions: success needs the arity condition on a fresh stack
   * and a net effect of exactly one value; conversely, with those two and
   * every token recognized, the only possible failure is a zero divisor.
   */
  lemma EvaluateShape<N>(ops: NumberOps<N>, expr: string)
    ensures Evaluate(ops, expr).Success? ==>
      ArityOk(0, Tokenize(expr)) && NetEffect(Tokenize(expr)) == 1
    ensures (&& ArityOk(0, Tokenize(expr))
             && NetEffect(Tokenize(expr)) == 1
             && (forall i :: 0 <= i < |Tokenize(expr)| ==> Recognized(Tokenize(expr)[i])))
      ==> Evaluate(ops, expr).Success? || Evaluate(ops, expr) == Failure(DivisionByZero)
  {
    var ts := Tokenize(expr);
    var st: Stack<N> := Empty();
    if Run(ops, st, ts).Success? {
      RunSuccessNeedsArity(ops, st, ts);
    }
    if ArityOk(0, ts) {
      ArityOkLeavesOnlyOperatorFailures(ops, st, ts);
    }
  }

  /**
   * The final-stack rule seen from the whole expression: when every token
   * ran, the result is the last remaining value if it is alone, and one of
   * the two final-stack failures otherwise.
   */
  lemma EvaluateFinalStack<N>(ops: NumberOps<N>, expr: string)
    requires Run(ops, Empty(), Tokenize(expr)).Success?
    ensures var st := Run(ops, Empty(), Tokenize(expr)).value;
      && (Depth(st) == 0 ==> Evaluate(ops, expr) == Failure(NotEnoughValues))
      && (Depth(st) == 1 ==> Evaluate(ops, expr) == Success(st.items[0]))
      && (Depth(st) > 1 ==> Evaluate(ops, expr) == Failure(TooManyValues))
  {
  }

  /** An empty or all-space expression has no tokens and so no value. */
  lemma BlankExpression<N>(ops: NumberOps<N>, expr: string)
    requires forall k :: 0 <= k < |expr| ==> expr[k] == ' '
    ensures Evaluate(ops, expr) == Failure(NotEnoughValues)
  {
    NoTokensInBlank(expr);
  }
}
