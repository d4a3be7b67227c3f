/**
 * Concrete expressions and input lines, evaluated with the numeric
 * primitives left abstract: each result is stated in terms of `ops`.
 */
module Scenarios {
  import opened Wrappers
  import opened OperandStack
  import opened Tokens
  import opened Rpn
  import opened LineInput

  lemma TokensOf(ts: seq<string>, expr: string)
    requires forall i :: 0 <= i < |ts| ==> IsToken(ts[i])
    requires Join(ts) == expr
    ensures Tokenize(expr) == ts
  {
    TokenizeJoin(ts);
  }

  /** `10 3 -` subtracts the top value from the one below it: `10 - 3`, not `3 - 10`. */
  lemma SubtractionOrder<N>(ops: NumberOps<N>)
    ensures Evaluate(ops, "10 3 -") == Success(ops.sub(ops.parse("10"), ops.parse("3")))
  {
    TokensOf(["10", "3", "-"], "10 3 -");
    var st: Stack<N> := Stack([ops.parse("3"), ops.parse("10")]);
    assert Run(ops, Empty(), ["10", "3", "-"]) == Run(ops, st, ["-"]);
    assert Classify("-") == Operator && Lead("-") == '-';
  }

  /** `10 2 /` divides 10 by 2 when 2 is not zero. */
  lemma DivisionOrder<N>(ops: NumberOps<N>)
    requires !ops.isZero(ops.parse("2"))
    ensures Evaluate(ops, "10 2 /") == Success(ops.div(ops.parse("10"), ops.parse("2")))
  {
    TokensOf(["10", "2", "/"], "10 2 /");
    var st: Stack<N> := Stack([ops.parse("2"), ops.parse("10")]);
    assert Run(ops, Empty(), ["10", "2", "/"]) == Run(ops, st, ["/"]);
    assert Classify("/") == Operator && Lead("/") == '/';
  }

  /** `5 0 /` is a division by zero. */
  lemma DivideByZero<N>(ops: NumberOps<N>)
    requires ops.isZero(ops.parse("0"))
    ensures Evaluate(ops, "5 0 /") == Failure(DivisionByZero)
  {
    TokensOf(["5", "0", "/"], "5 0 /");
    var st: Stack<N> := Stack([ops.parse("0"), ops.parse("5")]);
    assert Run(ops, Empty(), ["5", "0", "/"]) == Run(ops, st, ["/"]);
    assert Classify("/") == Operator && Lead("/") == '/';
  }

  /** A lone `$` lacks operands before it is ever looked at as an operator. */
  lemma LoneDollarLacksOperands<N>(ops: NumberOps<N>)
    ensures Evaluate(ops, "$") == Failure(NotEnoughOperands("$"))
  {
    TokensOf(["$"], "$");
  }

  /** With two values present, `$` is an invalid operator. */
  lemma DollarIsInvalid<N>(ops: NumberOps<N>)
    ensures Evaluate(ops, "3 4 $") == Failure(InvalidOperator("$"))
  {
    TokensOf(["3", "4", "$"], "3 4 $");
    var st: Stack<N> := Stack([ops.parse("4"), ops.parse("3")]);
    assert Run(ops, Empty(), ["3", "4", "$"]) == Run(ops, st, ["$"]);
    assert Classify("$") == Operator && OperatorOf(Lead("$")) == None;
  }

  /** `5 +` fails at the emptiness check before its second pop; `3 4` leaves two values. */
  lemma ShortAndLongStacks<N>(ops: NumberOps<N>)
    ensures Evaluate(ops, "5 +") == Failure(NotEnoughOperands("+"))
    ensures Evaluate(ops, "3 4") == Failure(TooManyValues)
  {
    TokensOf(["5", "+"], "5 +");
    TokensOf(["3", "4"], "3 4");
  }

  /** `+x` is treated as `+`, and `-5` is a number rather than an operator. */
  lemma FirstCharacterHeuristics<N>(ops: NumberOps<N>)
    ensures Evaluate(ops, "4 5 +x") == Success(ops.add(ops.parse("4"), ops.parse("5")))
    ensures Evaluate(ops, "-5") == Success(ops.parse("-5"))
  {
    TokensOf(["4", "5", "+x"], "4 5 +x");
    var st: Stack<N> := Stack([ops.parse("5"), ops.parse("4")]);
    assert Run(ops, Empty(), ["4", "5", "+x"]) == Run(ops, st, ["+x"]);
    assert Classify("+x") == Operator && OperatorOf(Lead("+x")) == Some(Add);
    TokensOf(["-5"], "-5");
    assert LooksNumeric("-5");
  }

  /** Functions take degrees through `ops`: `0 sin` is `sinDeg` of the parsed zero. */
  lemma SineOfNumber<N>(ops: NumberOps<N>)
    ensures Evaluate(ops, "0 sin") == Success(ops.sinDeg(ops.parse("0")))
    ensures Evaluate(ops, "sin") == Failure(NotEnoughOperands("sin"))
  {
    TokensOf(["0", "sin"], "0 sin");
    TokensOf(["sin"], "sin");
  }

  /** A line of nothing but '/' has no text left once the slashes are cut: status 2, not a continuation. */
  lemma SlashOnlyLine()
    ensures EndsWithContinuation("/") == (SlashOnly, "")
    ensures EndsWithContinuation(" // ") == (SlashOnly, "")
  {
    assert "/"[0..1] == "/" && "/"[..0] == "" && "/"[1..] == "";
    assert IsTrimOf("/", "/");
    TrimUnique("/", "/");
    assert KeepBeforeSlashes("/", 1) == 0;
    assert " // "[1..3] == "//" && " // "[..1] == " " && " // "[3..] == " ";
    assert IsTrimOf("//", " // ");
    TrimUnique("//", " // ");
    assert KeepBeforeSlashes("//", 2) == 0;
    assert "//"[..0] == "";
  }

  /** A line ending in the division operator is read as a continuation and loses the `/`. */
  lemma DivisionLineIsContinued()
    ensures EndsWithContinuation("10 2 /") == (Continued, "10 2")
  {
    var t := Trim("10 2 /");
    TrimUnique("10 2 /", "10 2 /");
    assert t == "10 2 /";
    assert KeepBeforeSlashes(t, 6) == 5;
    assert t[..5] == "10 2 ";
    assert "10 2 "[0..4] == "10 2";
    assert IsTrimOf("10 2", "10 2 ");
    TrimUnique("10 2", "10 2 ");
  }
}
