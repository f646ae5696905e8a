/** Values held on the calculator stack.

    The program stores IEEE-754 doubles. Here a value is either a literal (the real
    number the parser produced) or a symbolic application of one of the four
    arithmetic operators to two values. The operators are therefore uninterpreted:
    `Apply(Sub, x, y)` and `Apply(Sub, y, x)` are different values whenever `x != y`,
    so operand order is visible in every result. */
module Values {
  datatype Op = Add | Sub | Mul | Div

  datatype Value = Num(r: real) | Apply(op: Op, x: Value, y: Value)
}
