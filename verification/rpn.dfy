/**
 * The RPN evaluator `rpn_calculator` (main.c): each token of the expression
 * either pushes a number, applies a degree-based trigonometric function to
 * the top value, or pops two values and combines them with the operator
 * named by the token's first character.  Exactly one value left at the end
 * is the result.
 *
 * Numbers are abstract: the evaluator is generic in the value type `N` and
 * receives the arithmetic it needs (the `strtold` parse, the trigonometric
 * functions, the four operators and the zero test) as a `NumberOps<N>`
 * record.  What is modelled is the control structure: arity checks, which
 * failure wins, operand order and the stack-depth effect of each token.
 */
module Rpn {
  import opened Wrappers
  import opened OperandStack
  import opened Tokens

  /**
   * The numeric primitives the evaluator calls.  `parse` stands for
   * `strtold(token, NULL)`; `sinDeg`, `cosDeg` and `tanDeg` stand for the
   * function applied to `x * M_PI / 180` and narrowed to `double`;
   * `isZero` is the test `num2 != 0` negated.
   */
  datatype NumberOps<!N> = NumberOps(
    parse: string -> N,
    sinDeg: N -> N,
    cosDeg: N -> N,
    tanDeg: N -> N,
    add: (N, N) -> N,
    sub: (N, N) -> N,
    mul: (N, N) -> N,
    div: (N, N) -> N,
    isZero: N -> bool)

  /** The distinct failures the evaluator reports, one per error message. */
  datatype EvalError =
    | NotEnoughOperands(token: string)  // "Not enough operands for '<token>'"
    | DivisionByZero                    // "Division by zero."
    | InvalidOperator(token: string)    // "Invalid operator '<token>'"
    | TooManyValues                     // "Too many values remaining on the stack."
    | NotEnoughValues                   // "Not enough values on the stack."

  datatype TrigFn = Sin | Cos | Tan

  /** How a token is treated; every token falls in exactly one class. */
  datatype TokenKind = Number | Trig(fn: TrigFn) | Operator

  datatype BinOp = Add | Sub | Mul | Div

  predicate IsDigit(c: char) {
    '0' <= c <= '9'
  }

  /** `token[0]` as C reads it: the terminating NUL for the empty string. */
  function Lead(t: string): char {
    if |t| == 0 then '\0' else t[0]
  }

  /** The number test: a digit first, or `-` immediately followed by a digit. */
  predicate LooksNumeric(t: string) {
    (|t| > 0 && IsDigit(t[0])) || (|t| > 1 && t[0] == '-' && IsDigit(t[1]))
  }

  /** Classification in the order the evaluator tests: number, then the three names, then the rest. */
  function Classify(t: string): (k: TokenKind)
    ensures k == Number <==> LooksNumeric(t)
    ensures k == Trig(Sin) <==> !LooksNumeric(t) && t == "sin"
    ensures k == Trig(Cos) <==> !LooksNumeric(t) && t == "cos"
    ensures k == Trig(Tan) <==> !LooksNumeric(t) && t == "tan"
  {
    if LooksNumeric(t) then Number
    else if t == "sin" then Trig(Sin)
    else if t == "cos" then Trig(Cos)
    else if t == "tan" then Trig(Tan)
    else Operator
  }

  /** The `switch (token[0])` of the evaluator: only the first character is looked at. */
  function OperatorOf(c: char): (r: Option<BinOp>)
    ensures r.None? <==> c !in {'+', '-', '*', '/'}
    ensures c == '+' ==> r == Some(Add)
    ensures c == '-' ==> r == Some(Sub)
    ensures c == '*' ==> r == Some(Mul)
    ensures c == '/' ==> r == Some(Div)
  {
    match c
    case '+' => Some(Add)
    case '-' => Some(Sub)
    case '*' => Some(Mul)
    case '/' => Some(Div)
    case _ => None
  }

  /** Values needed on the stack before a token of this kind can act. */
  function Arity(k: TokenKind): nat {
    match k
    case Number => 0
    case Trig(_) => 1
    case Operator => 2
  }

  /** Change in stack depth when a token of this kind succeeds. */
  function Effect(k: TokenKind): int {
    match k
    case Number => 1
    case Trig(_) => 0
    case Operator => -1
  }

  function ApplyTrig<N>(ops: NumberOps<N>, f: TrigFn, x: N): N {
    match f
    case Sin => ops.sinDeg(x)
    case Cos => ops.cosDeg(x)
    case Tan => ops.tanDeg(x)
  }

  /** `num1 OP num2` for the three operators that cannot fail. */
  function ApplyTotal<N>(ops: NumberOps<N>, op: BinOp, num1: N, num2: N): N
    requires op != Div
  {
    match op
    case Add => ops.add(num1, num2)
    case Sub => ops.sub(num1, num2)
    case Mul => ops.mul(num1, num2)
  }

  /**
   * One iteration of the evaluator's loop.  A binary token checks for an
   * empty stack before each of its two pops and only then inspects its
   * first character; `num2` is the value popped first.
   */
  function Step<N>(ops: NumberOps<N>, st: Stack<N>, t: string): (r: Result<Stack<N>, EvalError>)
    ensures r.Success? ==> Depth(r.value) == Depth(st) + Effect(Classify(t))
    ensures r == Failure(NotEnoughOperands(t)) <==> Depth(st) < Arity(Classify(t))
    ensures r.Failure? && r.error.NotEnoughOperands? ==> r.error.token == t
    ensures Classify(t) == Number ==> r.Success?
  {
    match Classify(t)
    case Number =>
      Success(Push(st, ops.parse(t)))
    case Trig(f) =>
      if IsEmpty(st) then Failure(NotEnoughOperands(t))
      else
        var p := Pop(st).value;
        Success(Push(p.rest, ApplyTrig(ops, f, p.value)))
    case Operator =>
      if IsEmpty(st) then Failure(NotEnoughOperands(t))
      else
        var p2 := Pop(st).value;
        if IsEmpty(p2.rest) then Failure(NotEnoughOperands(t))
        else
          var p1 := Pop(p2.rest).value;
          match OperatorOf(Lead(t))
          case None => Failure(InvalidOperator(t))
          case Some(op) =>
            if op == Div then
              if ops.isZero(p2.value) then Failure(DivisionByZero)
              else Success(Push(p1.rest, ops.div(p1.value, p2.value)))
            else Success(Push(p1.rest, ApplyTotal(ops, op, p1.value, p2.value)))
  }

  /** Sum of the depth effects of a token sequence. */
  function NetEffect(ts: seq<string>): int {
    if |ts| == 0 then 0 else Effect(Classify(ts[0])) + NetEffect(ts[1..])
  }

  /** The loop over all tokens; the first failing token ends the evaluation. */
  function Run<N>(ops: NumberOps<N>, st: Stack<N>, ts: seq<string>): (r: Result<Stack<N>, EvalError>)
    ensures r.Success? ==> Depth(r.value) == Depth(st) + NetEffect(ts)
    ensures r.Failure? && r.error.NotEnoughOperands? ==> r.error.token in ts
    decreases |ts|
  {
    if |ts| == 0 then Success(st)
    else
      var st' :- Step(ops, st, ts[0]);
      Run(ops, st', ts[1..])
  }

  /**
   * The final-stack rule: pop once; the popped value is the result when the
   * stack is then empty.  An empty stack and a stack of two or more values
   * are the two distinct failures.
   */
  function Finish<N>(st: Stack<N>): (r: Result<N, EvalError>)
    ensures r.Success? <==> Depth(st) == 1
    ensures r.Success? ==> Peek(st) == Success(r.value)
    ensures r == Failure(NotEnoughValues) <==> Depth(st) == 0
    ensures r == Failure(TooManyValues) <==> Depth(st) > 1
  {
    if IsEmpty(st) then Failure(NotEnoughValues)
    else
      var p := Pop(st).value;
      if IsEmpty(p.rest) then Success(p.value) else Failure(TooManyValues)
  }

  /** `rpn_calculator` on a fresh, empty stack. */
  function Evaluate<N>(ops: NumberOps<N>, expr: string): (r: Result<N, EvalError>)
    ensures r.Success? ==> NetEffect(Tokenize(expr)) == 1
  {
    var st :- Run(ops, Empty(), Tokenize(expr));
    Finish(st)
  }
}
