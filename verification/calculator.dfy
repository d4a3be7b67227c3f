/**
 * `rpn_calculator` written as the C function is structured: a loop over the
 * tokens that mutates one stack and returns as soon as a token fails, then
 * the final-stack check.  Its outcome is proved to be the one the fold
 * `Rpn.Evaluate` defines.
 */
module Calculator {
  import opened Wrappers
  import opened OperandStack
  import opened Tokens
  import opened Rpn

  method RpnCalculator<N>(ops: NumberOps<N>, expr: string) returns (r: Result<N, EvalError>)
    ensures r == Evaluate(ops, expr)
    ensures r.Success? ==> NetEffect(Tokenize(expr)) == 1
  {
    var tokens := Tokenize(expr);
    var st: Stack<N> := Empty();
    var i := 0;
    while i < |tokens|
      invariant 0 <= i <= |tokens|
      invariant Run(ops, Empty(), tokens) == Run(ops, st, tokens[i..])
    {
      var token := tokens[i];
      assert tokens[i..][0] == token && tokens[i..][1..] == tokens[i + 1..];
      if LooksNumeric(token) {
        st := Push(st, ops.parse(token));
      } else if token == "sin" || token == "cos" || token == "tan" {
        if IsEmpty(st) {
          return Failure(NotEnoughOperands(token));
        }
        var num1 := Pop(st).value;
        var res;
        if token == "sin" {
          res := ops.sinDeg(num1.value);
        } else if token == "cos" {
          res := ops.cosDeg(num1.value);
        } else {
          res := ops.tanDeg(num1.value);
        }
        st := Push(num1.rest, res);
      } else {
        if IsEmpty(st) {
          return Failure(NotEnoughOperands(token));
        }
        var num2 := Pop(st).value;
        if IsEmpty(num2.rest) {
          return Failure(NotEnoughOperands(token));
        }
        var num1 := Pop(num2.rest).value;
        var c := Lead(token);
        if c == '+' {
          st := Push(num1.rest, ops.add(num1.value, num2.value));
        } else if c == '-' {
          st := Push(num1.rest, ops.sub(num1.value, num2.value));
        } else if c == '*' {
          st := Push(num1.rest, ops.mul(num1.value, num2.value));
        } else if c == '/' {
          if !ops.isZero(num2.value) {
            st := Push(num1.rest, ops.div(num1.value, num2.value));
          } else {
            return Failure(DivisionByZero);
          }
        } else {
          return Failure(InvalidOperator(token));
        }
      }
      i := i + 1;
    }

    if !IsEmpty(st) {
      var last := Pop(st).value;
      if IsEmpty(last.rest) {
        return Success(last.value);
      } else {
        return Failure(TooManyValues);
      }
    } else {
      return Failure(NotEnoughValues);
    }
  }
}
