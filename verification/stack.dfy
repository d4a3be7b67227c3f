/**
 * The operand stack of the calculator: a singly linked LIFO list of values
 * hanging off one `top` pointer.  The list is modelled as a sequence whose
 * element 0 is the node `top` points to, element 1 the node it links to, and
 * so on.  Underflow, which the C code reports by terminating the process,
 * is an explicit `Failure(Underflow)` here.
 */
module OperandStack {
  import opened Wrappers

  datatype Stack<V> = Stack(items: seq<V>)

  datatype StackError = Underflow

  /** What a successful pop hands back: the removed value and the list below it. */
  datatype Popped<V> = Popped(value: V, rest: Stack<V>)

  /** Number of nodes in the list. */
  function Depth<V>(s: Stack<V>): nat {
    |s.items|
  }

  /** The stack before anything is pushed (`top == NULL`). */
  function Empty<V>(): (s: Stack<V>)
    ensures Depth(s) == 0
  {
    Stack([])
  }

  /** `isEmpty`: true exactly when `top` is the null pointer, i.e. no node is linked. */
  function IsEmpty<V>(s: Stack<V>): (b: bool)
    ensures b <==> Depth(s) == 0
  {
    s.items == []
  }

  /** `push`: a new node holding `v` becomes the top and links to the old list. */
  function Push<V>(s: Stack<V>, v: V): (r: Stack<V>)
    ensures !IsEmpty(r)
    ensures Depth(r) == Depth(s) + 1
    ensures r.items[0] == v
    ensures r.items[1..] == s.items
  {
    Stack([v] + s.items)
  }

  /**
   * `pop`: fails on an empty stack; otherwise returns the top value and the
   * list below it, and pushing that value back rebuilds the original stack.
   */
  function Pop<V>(s: Stack<V>): (r: Result<Popped<V>, StackError>)
    ensures r.Failure? <==> IsEmpty(s)
    ensures r.Success? ==> Push(r.value.rest, r.value.value) == s
    ensures r.Success? ==> Depth(r.value.rest) + 1 == Depth(s)
  {
    if IsEmpty(s) then Failure(Underflow)
    else Success(Popped(s.items[0], Stack(s.items[1..])))
  }

  /** `peek`: fails on an empty stack; otherwise the value `pop` would return. */
  function Peek<V>(s: Stack<V>): (r: Result<V, StackError>)
    ensures r.Failure? <==> IsEmpty(s)
    ensures r.Success? ==> Pop(s).Success? && r.value == Pop(s).value.value
  {
    if IsEmpty(s) then Failure(Underflow) else Success(s.items[0])
  }

  /** Pushing `v` and popping again gives back `v` and exactly the original stack. */
  lemma PushPopRoundTrip<V>(s: Stack<V>, v: V)
    ensures Pop(Push(s, v)) == Success(Popped(v, s))
    ensures Peek(Push(s, v)) == Success(v)
  {
    assert Push(s, v).items[1..] == s.items;
  }

  /**
   * A successful pop followed by a push of the same value restores the stack.
   * This restates the contract of `Pop` as a lemma for callers.
   */
  lemma PopPushRoundTrip<V>(s: Stack<V>)
    requires !IsEmpty(s)
    ensures Pop(s).Success?
    ensures Push(Pop(s).value.rest, Pop(s).value.value) == s
  {
  }

  /** Pop and peek never produce a value from an empty stack. */
  lemma EmptyHasNoValue<V>(s: Stack<V>)
    requires IsEmpty(s)
    ensures Pop(s) == Failure(Underflow)
    ensures Peek(s) == Failure(Underflow)
  {
  }
}
