/**
 * The tree-walking evaluator of expressions: a stateless function from an AST to
 * a runtime value or a failure. Numbers are of an abstract type N whose
 * operations are passed in, so that only the type dispatch, the order of the
 * checks, truthiness and equality are modelled.
 */
module Interpreter {
  import opened Tokens

  /** A runtime value: nil, a boolean, a number or a string. */
  datatype Value<N> = NilVal | BoolVal(b: bool) | NumVal(n: N) | StrVal(s: string)

  /** The four expression node shapes. */
  datatype Expr<N> =
    | Binary(left: Expr<N>, operator: Token, right: Expr<N>)
    | Grouping(expression: Expr<N>)
    | Literal(value: Value<N>)
    | Unary(operator: Token, right: Expr<N>)

  /** The double-precision operations the evaluator applies, left abstract. */
  datatype Arithmetic<!N> = Arithmetic(
    negate: N -> N,
    add: (N, N) -> N,
    subtract: (N, N) -> N,
    multiply: (N, N) -> N,
    divide: (N, N) -> N,
    greater: (N, N) -> bool,
    greaterEqual: (N, N) -> bool,
    less: (N, N) -> bool,
    lessEqual: (N, N) -> bool)

  /**
   * What an evaluation ends with: a value; the language's runtime error, carrying
   * the operator token; or the exception a Java cast raises on a value that is not
   * a number (ClassCast for a boolean or a string, NullPointer for nil).
   */
  datatype Outcome<N> =
    | Val(value: Value<N>)
    | RuntimeError(token: Token, message: string)
    | ClassCast
    | NullPointer

  const OperandMustBeNumber: string := "Operand must be a number."

  /** Only nil and false are falsy. */
  predicate IsTruthy<N>(v: Value<N>) {
    match v
    case NilVal => false
    case BoolVal(b) => b
    case _ => true
  }

  /** nil equals only nil; any other value equals a value of its own kind and content. */
  predicate IsEqual<N(==)>(a: Value<N>, b: Value<N>) {
    if a.NilVal? && b.NilVal? then true
    else if a.NilVal? then false
    else a == b
  }

  /**
   * Both `checkNumberOperand` calls, on the left operand and then on the right,
   * followed by the operation when both are numbers.
   */
  function CheckNumberOperands<N>(operator: Token, left: Value<N>, right: Value<N>, op: (N, N) -> Value<N>): Outcome<N> {
    if !left.NumVal? then RuntimeError(operator, OperandMustBeNumber)
    else if !right.NumVal? then RuntimeError(operator, OperandMustBeNumber)
    else Val(op(left.n, right.n))
  }

  /** The operator switch of a unary node, on the already evaluated operand. */
  function ApplyUnary<N>(operator: Token, right: Value<N>, arith: Arithmetic<N>): Outcome<N> {
    match operator.kind
    case Bang => Val(BoolVal(!IsTruthy(right)))
    case Minus =>
      // an unchecked cast to double
      if right.NumVal? then Val(NumVal(arith.negate(right.n)))
      else if right.NilVal? then NullPointer
      else ClassCast
    case _ => Val(NilVal)
  }

  /** The operator switch of a binary node, on the already evaluated operands. */
  function ApplyBinary<N(==)>(operator: Token, left: Value<N>, right: Value<N>, arith: Arithmetic<N>): Outcome<N> {
    match operator.kind
    case Greater => CheckNumberOperands(operator, left, right, (a, b) => BoolVal(arith.greater(a, b)))
    case GreaterEqual => CheckNumberOperands(operator, left, right, (a, b) => BoolVal(arith.greaterEqual(a, b)))
    case Less => CheckNumberOperands(operator, left, right, (a, b) => BoolVal(arith.less(a, b)))
    case LessEqual => CheckNumberOperands(operator, left, right, (a, b) => BoolVal(arith.lessEqual(a, b)))
    case Minus => CheckNumberOperands(operator, left, right, (a, b) => NumVal(arith.subtract(a, b)))
    case Plus =>
      if left.NumVal? && right.NumVal? then Val(NumVal(arith.add(left.n, right.n)))
      else if left.StrVal? && right.StrVal? then Val(StrVal(left.s + right.s))
      else Val(NilVal)
    case Slash => CheckNumberOperands(operator, left, right, (a, b) => NumVal(arith.divide(a, b)))
    case Star => CheckNumberOperands(operator, left, right, (a, b) => NumVal(arith.multiply(a, b)))
    case BangEqual => Val(BoolVal(!IsEqual(left, right)))
    case EqualEqual => Val(BoolVal(IsEqual(left, right)))
    case _ => Val(NilVal)
  }

  /** Evaluates a tree: operands left to right, and the first failure ends the evaluation. */
  function Evaluate<N(==)>(expr: Expr<N>, arith: Arithmetic<N>): Outcome<N> {
    match expr
    case Literal(value) => Val(value)
    case Grouping(inner) => Evaluate(inner, arith)
    case Unary(operator, right) =>
      var r := Evaluate(right, arith);
      if !r.Val? then r else ApplyUnary(operator, r.value, arith)
    case Binary(left, operator, right) =>
      var l := Evaluate(left, arith);
      if !l.Val? then l
      else
        var r := Evaluate(right, arith);
        if !r.Val? then r else ApplyBinary(operator, l.value, r.value, arith)
  }
}
