# RPN calculator core in Dafny

This project models the evaluation core of a command-line calculator for
Reverse Polish Notation (RPN) expressions written in C. It has three parts.

- **The operand stack** (`stack.h`). In C this is a linked list behind a
  global `top` pointer, with `isEmpty`, `push`, `pop` and `peek`. Here it is
  `OperandStack.Stack`, a sequence whose element 0 is the node `top` points
  to. The C code ends the process on underflow. Here `Pop` and `Peek` on an
  empty stack return `Failure(Underflow)`.
- **The evaluator** (`rpn_calculator` in `main.c`):
  - `Tokens.Tokenize` splits the expression the way `strtok(expr, " ")` does.
  - `Rpn.Step` handles one token.
  - `Rpn.Run` is the loop over the tokens, with the first failure ending the run.
  - `Rpn.Finish` applies the final-stack rule.
  - `Rpn.Evaluate` chains the three on a fresh, empty stack.
  - `Evaluate` is a function of the expression alone, so calling it twice on
    the same input gives the same outcome. No state carries over between calls.
  - `Calculator.RpnCalculator` is the same function written as the C code is
    structured: one mutable stack and early returns. It is proved to agree
    with `Evaluate`.
  - Numbers are abstract. The evaluator is generic in the value type `N`. It
    receives the `strtold` parse, the degree-based `sin`/`cos`/`tan`, the
    four operators and the zero test as a `Rpn.NumberOps<N>` record of
    functions. The proofs are about the control structure: arity checks,
    which failure wins, operand order, and the depth effect of each token.
    `RpnProperties` states these properties. `Scenarios` works through
    concrete expressions.
- **The line helpers** (`main.c`). These are `trim_whitespace`,
  `ends_with_continuation` and the joining rule of `append_to_string`. The C
  functions rewrite a buffer in place. Here each is a pure function on strings
  (`LineInput`).

The error type `Rpn.EvalError` has one constructor per distinct error message
of `rpn_calculator`:

- `NotEnoughOperands(token)`
- `DivisionByZero`
- `InvalidOperator(token)`
- `TooManyValues`
- `NotEnoughValues`

Behaviour kept exactly as the code has it:

- Tokens are separated by the space character only. A tab stays inside its
  token.
- A token is a number when it starts with a digit, or with `-` followed by a
  digit.
- Any token that is not a number and not exactly `sin`, `cos` or `tan` pops
  two values before its first character is examined. So a lone `$` reports
  missing operands, and `3 4 $` reports an invalid operator.
- Only `token[0]` selects the operator, so `+x` acts as `+`.
- The value popped first is `num2`, and the result is `num1 OP num2`.
- A line whose last visible character is `/` loses the whole trailing run
  of `/`. If text remains, the line is a continuation line (status 1), so
  `10 2 /` is read as `10 2` followed by more input. If nothing remains, the
  line held only `/` and gets status 2. That line adds nothing to the
  expression and leaves the continuation flag as it was (main.c:389-393),
  so as a first line it asks for no further input.

Two more details of the code:

- An empty final stack has its own message, "Not enough values on the
  stack." (main.c:318). It is modelled as `NotEnoughValues`, separate from
  `NotEnoughOperands(token)`.
- A zero divisor is found only after both operands have been popped
  (main.c:273-297). Nothing is pushed in that case.

## Model

| member | source | states |
|---|---|---|
| OperandStack.IsEmpty | stack.h:12-17 | true exactly when the list holds no node |
| OperandStack.Push | stack.h:18-31 | the pushed value becomes the top, the old list lies unchanged below it, depth grows by one, the stack is non-empty afterwards |
| OperandStack.Pop | stack.h:34-46 | fails exactly on an empty stack; otherwise returns the top value and the list below it, and pushing the value back rebuilds the original stack |
| OperandStack.Peek | stack.h:47-54 | fails exactly on an empty stack; otherwise returns the value `pop` would return, without producing a new stack |
| OperandStack.PushPopRoundTrip | stack.h:29-42 | push(v) then pop returns v and exactly the original stack, and peek after push sees v |
| OperandStack.PopPushRoundTrip | stack.h:34-46 | on a non-empty stack, pop then push of the popped value restores the stack |
| OperandStack.EmptyHasNoValue | stack.h:34-54 | pop and peek on an empty stack are underflow failures, never a value |
| Tokens.Tokenize | main.c:241 | every token is non-empty and contains no space character |
| Tokens.TokenizeJoin | main.c:241 | splitting undoes joining: well-formed tokens joined by single spaces split back into the same tokens |
| Tokens.TokenizeAroundSpace | main.c:241 | a space between two strings keeps their tokens apart: the tokens of `a + " " + b` are those of `a` followed by those of `b` |
| Tokens.TokenizeKeepsContents | main.c:241 | the tokens, concatenated, are the input with its spaces deleted: nothing but spaces is lost, and order is kept |
| Tokens.NoTokensInBlank | main.c:241-244 | an empty or all-space expression has no tokens |
| Rpn.Classify | main.c:245-248 | a token is a number iff its first character is a digit or it is `-` then a digit; otherwise it is a function exactly when it is `sin`, `cos` or `tan`; every other token is an operator token |
| Rpn.OperatorOf | main.c:281-301 | the first character names an operator iff it is one of `+ - * /`, and `+`, `-`, `*`, `/` select addition, subtraction, multiplication and division respectively |
| Rpn.Step | main.c:245-302 | on success depth changes by +1 for a number, 0 for a function and -1 for an operator; the result is not-enough-operands for the token iff the stack holds fewer values than the token's arity (0, 1, 2); a number never fails |
| Rpn.Run | main.c:244-306 | a successful run changes the depth by the sum of the tokens' effects; a not-enough-operands failure names a token of the input |
| Rpn.Finish | main.c:308-320 | success iff exactly one value remains, and the result is that top value; empty gives not-enough-values; more than one gives too-many-values |
| Rpn.Evaluate | main.c:240-321 | success implies the tokens' net depth effect is exactly one |
| RpnProperties.NumberPushes | main.c:245-246 | a number token pushes its parsed value on any stack and does not fail |
| RpnProperties.TrigReplacesTop | main.c:248-265 | `sin`/`cos`/`tan` fail with not-enough-operands on an empty stack, otherwise replace the top value by the function of it and leave the rest unchanged |
| RpnProperties.OperatorUnderflowWins | main.c:267-279 | with fewer than two values, every operator token fails with not-enough-operands whatever its first character |
| RpnProperties.OperatorOnTwoValues | main.c:273-302 | with two or more values, `num2` is the top and `num1` the next; an unknown first character is an invalid operator, `/` with zero `num2` is division by zero, otherwise both values are replaced by `num1 OP num2`; stated per character: `+` gives `add(num1, num2)`, `-` gives `sub`, `*` gives `mul`, `/` gives `div` for a non-zero `num2` |
| RpnProperties.OnlyFirstCharacterCounts | main.c:281-290 | two operator tokens with the same known first character have the same effect |
| RpnProperties.RunSuccessNeedsArity | main.c:249-279 | a successful run never asked for more values than the stack held |
| RpnProperties.ArityOkLeavesOnlyOperatorFailures | main.c:267-302 | when no token asks for more values than the stack holds, the only failures left are invalid operator and division by zero; with all tokens recognized, only division by zero |
| RpnProperties.InvalidOperatorIsUnrecognized | main.c:299-301 | an invalid-operator failure names an input token whose first character is not an operator |
| RpnProperties.EvaluateShape | main.c:240-321 | success implies the arity condition from an empty stack and a net effect of one; conversely, those two conditions and recognized tokens leave division by zero as the only possible failure |
| RpnProperties.EvaluateFinalStack | main.c:308-320 | after all tokens ran, depth 0 gives not-enough-values, depth 1 gives the remaining value, and more gives too-many-values |
| RpnProperties.BlankExpression | main.c:241-319 | an empty or all-space expression fails with not-enough-values |
| Calculator.RpnCalculator | main.c:240-321 | the loop-and-early-return form of the evaluator gives exactly the outcome of the token fold |
| Scenarios.SubtractionOrder | main.c:273-287 | `10 3 -` evaluates to `10 - 3`, not `3 - 10` |
| Scenarios.DivisionOrder | main.c:291-293 | `10 2 /` evaluates to `10 / 2` when 2 is not zero |
| Scenarios.DivideByZero | main.c:291-297 | `5 0 /` fails with division by zero |
| Scenarios.LoneDollarLacksOperands | main.c:267-271 | `$` alone fails with not-enough-operands for `$` |
| Scenarios.DollarIsInvalid | main.c:299-301 | `3 4 $` fails with invalid operator `$` |
| Scenarios.ShortAndLongStacks | main.c:274-316 | `5 +` fails at the emptiness check before the second pop; `3 4` fails with too-many-values |
| Scenarios.FirstCharacterHeuristics | main.c:245-283 | `4 5 +x` adds; `-5` is a number |
| Scenarios.SineOfNumber | main.c:248-265 | `0 sin` is the sine of the parsed 0; `sin` alone lacks an operand |
| Scenarios.DivisionLineIsContinued | main.c:105-126 | the line `10 2 /` is a continuation line that becomes `10 2` |
| Scenarios.SlashOnlyLine | main.c:105-124 | a line of nothing but `/`, with or without surrounding whitespace, gets status 2 with nothing left, not the continuation status |
| LineInput.Trim | main.c:38-58 | the result is a contiguous piece of the input with only whitespace before and after it and no whitespace at either end; all-whitespace input gives the empty string |
| LineInput.SkipSpaces | main.c:43 | the scan stops at the first non-whitespace character at or after its start, or at the end of the string; everything it passed over is whitespace |
| LineInput.BackOverSpaces | main.c:51-52 | the scan moves back from `end` but never below `start`; everything it passed over is whitespace, and when it stops above `start` it stands on a non-whitespace character |
| LineInput.TrimUnique | main.c:38-58 | any piece of the input meeting that description is the trim, so the description pins the result down |
| LineInput.TrimIdempotent | main.c:38-58 | trimming a trimmed string changes nothing |
| LineInput.KeepBeforeSlashes | main.c:112-115 | the result is the length of the prefix that precedes the trailing run of `/`: every character from there to the end is `/`, and the character just before it, if any, is not |
| LineInput.EndsWithContinuation | main.c:105-130 | status 0 iff the trimmed line is empty or does not end in `/`, and then the line is the trimmed one; otherwise the whole trailing run of `/` is cut and the rest re-trimmed; status 2 iff nothing remains, else 1; the result never has whitespace at its ends |
| LineInput.AppendLine | main.c:340-344 | the result starts with `dest`, ends with `src`, and has one extra space between them exactly when both are non-empty |
| LineInput.AppendLineKeepsTokens | main.c:340-344 | the tokens of the joined text are the tokens of `dest` followed by those of `src` |

## Left out

- Input, output and the user interface are not modelled. This covers
  `read_line_dynamic`, `save_to_history`, `show_history`, `selection_mode`,
  the prompt loop of `calculation_mode` (including the `exit` sentinel),
  `system("clear")` and every `printf`. They are streams and terminal
  handling. The error messages become `EvalError` constructors.
- Floating-point arithmetic is not modelled. This covers `long double`
  arithmetic, `strtold`, `sin`/`cos`/`tan`, the `M_PI / 180` factor and the
  narrowing of the trigonometric result to `double`. They are parameters in
  `NumberOps<N>`, and the zero test is `isZero`.
- `factorial` is left out. The evaluator never calls it.
- Allocation failure is left out: `push` exiting when `malloc` fails, and the
  buffer-growth paths of `read_line_dynamic` and `append_to_string`. This is
  memory management with no effect on results.
- The process-wide `top` pointer is not modelled, nor is draining it. The loop
  after `rpn_calculator` (main.c:426-428) empties the stack after every
  calculation, including failed ones. `free_stack` empties it once at exit
  (main.c:463). Each evaluation in the model starts from an empty stack, which
  is what that loop ensures.
- C strings end at their first NUL character. Model strings are sequences with
  no terminator, so an embedded NUL is not modelled. The C code reads the
  terminator in a few places. `token[1]` of the one-character token `-`
  (main.c:245) is covered by the length test in `Rpn.LooksNumeric`. The scans
  of `trim_whitespace` stopping at the end of the string (main.c:43, 45) are
  covered by the bounds in `LineInput.SkipSpaces` and `LineInput.Trim`.
  `Rpn.Lead` also gives `token[0]` of an empty token as NUL, but `strtok`
  never returns an empty token.
- Rpn.Evaluate: its own contract states only the net-effect consequence of
  success. Its full behaviour is stated by `Rpn.Step`, `Rpn.Run` and
  `Rpn.Finish`, by the `RpnProperties` lemmas, and by
  `Calculator.RpnCalculator`.
