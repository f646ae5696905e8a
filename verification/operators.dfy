/** The binary operators of `lib/operators.c`: each pops `y`, then pops `x`, then
    pushes `x OP y`. */
module Operators {
  import opened Values
  import opened Outcomes
  import opened Stacks

  /** `op_add`, `op_sub`, `op_mul` and `op_div`, told apart by `op`. The topmost value
      is the right operand; the two values underneath are replaced by one result and
      everything below them stays put. Fewer than two values is a fatal underflow (the
      process ends, so no half-consumed stack is ever seen), and the final push can
      never overflow because two pops made room for it. */
  function Binary(op: Op, s: Stack): (r: Outcome<Stack>)
    ensures |s| >= 2 ==> r == Ok(s[..|s| - 2] + [Apply(op, s[|s| - 2], s[|s| - 1])])
    ensures |s| < 2 ==> r == Abort(Underflow)
    ensures r != Abort(Overflow)
  {
    match Pop(s)
    case Abort(f) => Abort(f)
    case Ok(first) =>
      match Pop(first.rest)
      case Abort(f) => Abort(f)
      case Ok(second) =>
        var r := Push(second.rest, Apply(op, second.value, first.value));
        assert second.rest == s[..|s| - 2] && second.value == s[|s| - 2] && first.value == s[|s| - 1] by {
          assert s[..|s| - 2] == (second.rest + [second.value] + [first.value])[..|s| - 2];
        }
        assert r.value == second.rest + [Apply(op, second.value, first.value)];
        r
  }

  /** Stated on a stack written as `below + [x, y]`: the result is `below + [x OP y]`. */
  lemma {:induction false} OperandOrder(op: Op, below: seq<Value>, x: Value, y: Value)
    requires |below| + 2 <= MaxStackSize
    ensures Binary(op, below + [x, y]) == Ok(below + [Apply(op, x, y)])
  {
    var s: Stack := below + [x, y];
    assert s[..|s| - 2] == below;
  }
}
