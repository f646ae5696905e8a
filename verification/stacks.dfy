/** The bounded evaluation stack of `lib/stack.c`. The bottom of the stack is the
    first element of the sequence and the top is the last; the capacity bound of the
    C array is part of the type. */
module Stacks {
  import opened Values
  import opened Outcomes
  import opened Output

  const MaxStackSize: nat := 100

  type Stack = s: seq<Value> | |s| <= MaxStackSize

  /** A successful pop: the removed top value and the stack left below it. */
  datatype Removal = Removal(value: Value, rest: Stack)

  /** `stack_new`: a fresh stack holds nothing. */
  function New(): (s: Stack)
    ensures |s| == 0
  {
    []
  }

  /** `stack_empty`: the stack is empty exactly when it is the fresh stack. */
  predicate IsEmpty(s: Stack)
    ensures IsEmpty(s) <==> s == New()
  {
    |s| == 0
  }

  /** `stack_push`: below capacity the value goes on top and nothing underneath moves;
      at capacity the push is a fatal overflow. */
  function Push(s: Stack, v: Value): (r: Outcome<Stack>)
    ensures r.Ok? <==> |s| < MaxStackSize
    ensures r.Ok? ==> |r.value| == |s| + 1 && r.value[|s|] == v && r.value[..|s|] == s
    ensures r.Abort? ==> r.fault == Overflow
  {
    if |s| >= MaxStackSize then Abort(Overflow) else Ok(s + [v])
  }

  /** `stack_pop`: a non-empty stack gives back its most recently pushed value and
      shrinks by one; an empty stack is a fatal underflow. */
  function Pop(s: Stack): (r: Outcome<Removal>)
    ensures r.Ok? <==> !IsEmpty(s)
    ensures r.Ok? ==> r.value.rest + [r.value.value] == s
    ensures r.Abort? ==> r.fault == Underflow
  {
    if IsEmpty(s) then Abort(Underflow) else Ok(Removal(s[|s| - 1], s[..|s| - 1]))
  }

  /** `stack_peek`: reports the top value, or the empty indicator. It returns only an
      event, so the stack cannot change. */
  function Peek(s: Stack): (e: Event)
    ensures e == StackEmpty <==> IsEmpty(s)
    ensures !IsEmpty(s) ==> e == Top(s[|s| - 1])
  {
    if IsEmpty(s) then StackEmpty else Top(s[|s| - 1])
  }

  /** Push then pop gives back the pushed value and the original stack. */
  lemma PushThenPop(s: Stack, v: Value)
    requires |s| < MaxStackSize
    ensures Push(s, v).Ok? && Pop(Push(s, v).value) == Ok(Removal(v, s))
  {
    var t := Push(s, v).value;
    assert t[..|t| - 1] == s;
  }

  /** Pop then push of the popped value restores the stack: the room a pop makes is
      always enough for one push. */
  lemma PopThenPush(s: Stack)
    requires !IsEmpty(s)
    ensures Pop(s).Ok? && Push(Pop(s).value.rest, Pop(s).value.value) == Ok(s)
  {
  }

  /** A script of raw stack calls, for reasoning about sequences of them. */
  datatype StackCall = PushCall(v: Value) | PopCall

  function Pushes(calls: seq<StackCall>): nat
  {
    if calls == [] then 0 else (if calls[0].PushCall? then 1 else 0) + Pushes(calls[1..])
  }

  /** Runs the calls in order; the first fault ends the run. */
  function RunCalls(s: Stack, calls: seq<StackCall>): Outcome<Stack>
    decreases |calls|
  {
    if calls == [] then Ok(s)
    else
      var next := match calls[0]
        case PushCall(v) => Push(s, v)
        case PopCall => match Pop(s) case Ok(p) => Ok(p.rest) case Abort(f) => Abort(f);
      match next
      case Ok(t) => RunCalls(t, calls[1..])
      case Abort(f) => Abort(f)
  }

  /** Over any run of pushes and pops that does not fault, the size moves by one per
      call, up for a push and down for a pop. The bound 0..MaxStackSize on the final
      size is also guaranteed by the `Stack` type; it is restated here so that the
      lemma reads as the whole promise of the C code. */
  lemma {:induction false} RunCallsSize(s: Stack, calls: seq<StackCall>)
    requires RunCalls(s, calls).Ok?
    ensures |RunCalls(s, calls).value| + (|calls| - Pushes(calls)) == |s| + Pushes(calls)
    ensures 0 <= |RunCalls(s, calls).value| <= MaxStackSize
    decreases |calls|
  {
    if calls != [] {
      match calls[0]
      case PushCall(v) =>
        RunCallsSize(Push(s, v).value, calls[1..]);
      case PopCall =>
        RunCallsSize(Pop(s).value.rest, calls[1..]);
    }
  }
}
