/** Properties of the evaluator: each rule of the language, the order of evaluation, and where failures come from. */
module InterpreterLemmas {
  import opened Tokens
  import opened Interpreter

  /** A literal evaluates to its value; a grouping to whatever its child evaluates to. */
  lemma LiteralAndGrouping<N>(v: Value<N>, e: Expr<N>, arith: Arithmetic<N>)
    ensures Evaluate(Literal(v), arith) == Val(v)
    ensures Evaluate(Grouping(e), arith) == Evaluate(e, arith)
  {
  }

  /** Only nil and false are falsy: zero and the empty string are truthy. */
  lemma Truthiness<N>(v: Value<N>)
    ensures IsTruthy(v) <==> v != NilVal && v != BoolVal(false)
    ensures v.NumVal? || v == StrVal("") ==> IsTruthy(v)
  {
  }

  /** `!` gives the negated truthiness of its operand, whatever its kind, and never fails by itself. */
  lemma Not<N>(operator: Token, e: Expr<N>, arith: Arithmetic<N>)
    requires operator.kind == Bang
    ensures var r := Evaluate(e, arith);
      Evaluate(Unary(operator, e), arith) == if r.Val? then Val(BoolVal(!IsTruthy(r.value))) else r
  {
  }

  /**
   * Unary `-` negates a number. On any other value it fails through the cast, not
   * with the language's runtime error: on nil with a null unboxing, on a boolean or
   * a string with a class cast.
   */
  lemma Negate<N>(operator: Token, e: Expr<N>, arith: Arithmetic<N>)
    requires operator.kind == Minus && Evaluate(e, arith).Val?
    ensures var v, r := Evaluate(e, arith).value, Evaluate(Unary(operator, e), arith);
      !r.RuntimeError? &&
      (v.NumVal? ==> r == Val(NumVal(arith.negate(v.n)))) &&
      (v.NilVal? ==> r == NullPointer) &&
      (v.BoolVal? || v.StrVal? ==> r == ClassCast)
  {
  }

  /** The operators that check both operands are numbers. */
  predicate IsNumberOperator(kind: TokenType) {
    kind in {Greater, GreaterEqual, Less, LessEqual, Minus, Slash, Star}
  }

  /** What a number operator gives on two numbers. */
  function NumberResult<N>(kind: TokenType, a: N, b: N, arith: Arithmetic<N>): Value<N>
    requires IsNumberOperator(kind)
  {
    match kind
    case Greater => BoolVal(arith.greater(a, b))
    case GreaterEqual => BoolVal(arith.greaterEqual(a, b))
    case Less => BoolVal(arith.less(a, b))
    case LessEqual => BoolVal(arith.lessEqual(a, b))
    case Minus => NumVal(arith.subtract(a, b))
    case Slash => NumVal(arith.divide(a, b))
    case _ => NumVal(arith.multiply(a, b))
  }

  /**
   * `>`, `>=`, `<`, `<=`, `-`, `/`, `*`: a non-number on either side gives the runtime
   * error on the operator token, and two numbers give the comparison or the
   * arithmetic result.
   */
  lemma NumberOperators<N>(l: Expr<N>, operator: Token, r: Expr<N>, arith: Arithmetic<N>)
    requires IsNumberOperator(operator.kind)
    requires Evaluate(l, arith).Val? && Evaluate(r, arith).Val?
    ensures var a, b, res := Evaluate(l, arith).value, Evaluate(r, arith).value, Evaluate(Binary(l, operator, r), arith);
      (!(a.NumVal? && b.NumVal?) <==> res == RuntimeError(operator, OperandMustBeNumber)) &&
      (a.NumVal? && b.NumVal? ==> res == Val(NumberResult(operator.kind, a.n, b.n, arith)))
  {
    var a, b := Evaluate(l, arith).value, Evaluate(r, arith).value;
    assert Evaluate(Binary(l, operator, r), arith) == ApplyBinary(operator, a, b, arith);
  }

  /**
   * `+` adds two numbers and concatenates two strings; on any other pair of
   * operands it gives nil, without an error.
   */
  lemma PlusOperator<N>(l: Expr<N>, operator: Token, r: Expr<N>, arith: Arithmetic<N>)
    requires operator.kind == Plus
    requires Evaluate(l, arith).Val? && Evaluate(r, arith).Val?
    ensures var a, b, res := Evaluate(l, arith).value, Evaluate(r, arith).value, Evaluate(Binary(l, operator, r), arith);
      (a.NumVal? && b.NumVal? ==> res == Val(NumVal(arith.add(a.n, b.n)))) &&
      (a.StrVal? && b.StrVal? ==> res == Val(StrVal(a.s + b.s))) &&
      (!(a.NumVal? && b.NumVal?) && !(a.StrVal? && b.StrVal?) ==> res == Val(NilVal))
  {
  }

  /**
   * The equality rule: nil equals nil and nothing else, and other values are equal
   * exactly when they are of the same kind with the same content. It is the
   * structural equality of values, hence reflexive and symmetric.
   */
  lemma EqualityRule<N>(a: Value<N>, b: Value<N>)
    ensures IsEqual(a, b) <==> a == b
    ensures IsEqual(a, b) == IsEqual(b, a)
    ensures a.NilVal? && b.NilVal? ==> IsEqual(a, b)
    ensures a.NilVal? != b.NilVal? ==> !IsEqual(a, b)
    ensures (a.NumVal? && b.StrVal?) || (a.BoolVal? && !b.BoolVal?) ==> !IsEqual(a, b)
  {
  }

  /**
   * `==` and `!=` never fail once their operands are evaluated, and `!=` gives
   * exactly the negation of what `==` gives on the same operands.
   */
  lemma Equality<N>(l: Expr<N>, eq: Token, ne: Token, r: Expr<N>, arith: Arithmetic<N>)
    requires eq.kind == EqualEqual && ne.kind == BangEqual
    ensures var x, y := Evaluate(Binary(l, eq, r), arith), Evaluate(Binary(l, ne, r), arith);
      (Evaluate(l, arith).Val? && Evaluate(r, arith).Val? ==>
        x == Val(BoolVal(IsEqual(Evaluate(l, arith).value, Evaluate(r, arith).value))) &&
        y.Val? && y.value == BoolVal(!x.value.b)) &&
      (!x.Val? ==> y == x)
  {
  }

  /**
   * Operands are evaluated left to right: a failure of the left operand is the
   * result, whatever the right one would do; then a failure of the right operand.
   */
  lemma LeftToRight<N>(l: Expr<N>, operator: Token, r: Expr<N>, arith: Arithmetic<N>)
    ensures !Evaluate(l, arith).Val? ==> Evaluate(Binary(l, operator, r), arith) == Evaluate(l, arith)
    ensures Evaluate(l, arith).Val? && !Evaluate(r, arith).Val? ==>
      Evaluate(Binary(l, operator, r), arith) == Evaluate(r, arith)
    ensures !Evaluate(r, arith).Val? ==> Evaluate(Unary(operator, r), arith) == Evaluate(r, arith)
  {
  }

  /** Operator kinds no switch handles give nil. */
  lemma UnhandledOperators<N>(l: Expr<N>, operator: Token, r: Expr<N>, arith: Arithmetic<N>)
    requires Evaluate(l, arith).Val? && Evaluate(r, arith).Val?
    ensures operator.kind !in {Bang, Minus} ==> Evaluate(Unary(operator, r), arith) == Val(NilVal)
    ensures !IsNumberOperator(operator.kind) && operator.kind !in {Plus, BangEqual, EqualEqual} ==>
      Evaluate(Binary(l, operator, r), arith) == Val(NilVal)
  {
  }

  /** The operator tokens of the number-checking binary nodes of a tree. */
  function CheckedOperators<N>(e: Expr<N>): set<Token> {
    match e
    case Literal(_) => {}
    case Grouping(inner) => CheckedOperators(inner)
    case Unary(_, right) => CheckedOperators(right)
    case Binary(left, operator, right) =>
      CheckedOperators(left) + CheckedOperators(right) +
      (if IsNumberOperator(operator.kind) then {operator} else {})
  }

  /** Whether a tree holds a unary minus node. */
  predicate HasNegation<N>(e: Expr<N>) {
    match e
    case Literal(_) => false
    case Grouping(inner) => HasNegation(inner)
    case Unary(operator, right) => operator.kind == Minus || HasNegation(right)
    case Binary(left, _, right) => HasNegation(left) || HasNegation(right)
  }

  /**
   * Where failures come from: a runtime error always says "Operand must be a
   * number." and carries the operator of a number-checking node of the tree, and a
   * cast failure needs a unary minus in the tree.
   */
  lemma {:induction false} FailureOrigins<N>(e: Expr<N>, arith: Arithmetic<N>)
    ensures Evaluate(e, arith).RuntimeError? ==>
      Evaluate(e, arith).message == OperandMustBeNumber && Evaluate(e, arith).token in CheckedOperators(e)
    ensures Evaluate(e, arith).ClassCast? || Evaluate(e, arith).NullPointer? ==> HasNegation(e)
  {
    match e
    case Literal(_) =>
    case Grouping(inner) => FailureOrigins(inner, arith);
    case Unary(_, right) => FailureOrigins(right, arith);
    case Binary(left, _, right) =>
      FailureOrigins(left, arith);
      FailureOrigins(right, arith);
  }

  /** A tree without number-checking operators and without unary minus always evaluates to a value. */
  lemma NeverFailsWithoutChecks<N>(e: Expr<N>, arith: Arithmetic<N>)
    requires CheckedOperators(e) == {} && !HasNegation(e)
    ensures Evaluate(e, arith).Val?
  {
    FailureOrigins(e, arith);
  }
}
