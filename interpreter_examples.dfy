/**
 * Evaluations of small trees, with exact rationals standing in for doubles
 * (division by zero gives 0 here; the evaluator never looks at the numbers).
 */
module InterpreterExamples {
  import opened Tokens
  import opened Interpreter

  const Rationals: Arithmetic<real> := Arithmetic(
    a => -a,
    (a, b) => a + b,
    (a, b) => a - b,
    (a, b) => a * b,
    (a, b) => if b == 0.0 then 0.0 else a / b,
    (a, b) => a > b,
    (a, b) => a >= b,
    (a, b) => a < b,
    (a, b) => a <= b)

  function Op(kind: TokenType, lexeme: string): Token {
    Token(kind, lexeme, Absent, 1)
  }

  function Num(x: real): Expr<real> { Literal(NumVal(x)) }

  function Str(s: string): Expr<real> { Literal(StrVal(s)) }

  const NilLit: Expr<real> := Literal(NilVal)

  /** `1 + 2 * 3` is 7. */
  lemma ArithmeticExample()
    ensures Evaluate(Binary(Num(1.0), Op(Plus, "+"), Binary(Num(2.0), Op(Star, "*"), Num(3.0))), Rationals) == Val(NumVal(7.0))
  {
  }

  /** `"a" + "b"` is `"ab"`; `"1" + 1` is nil, not an error. */
  lemma PlusExamples()
    ensures Evaluate(Binary(Str("a"), Op(Plus, "+"), Str("b")), Rationals) == Val(StrVal("ab"))
    ensures Evaluate(Binary(Str("1"), Op(Plus, "+"), Num(1.0)), Rationals) == Val(NilVal)
  {
    assert "a" + "b" == "ab";
  }

  /** `!nil` is true and `!0` is false. */
  lemma NotExamples()
    ensures Evaluate(Unary(Op(Bang, "!"), NilLit), Rationals) == Val(BoolVal(true))
    ensures Evaluate(Unary(Op(Bang, "!"), Num(0.0)), Rationals) == Val(BoolVal(false))
  {
  }

  /** `nil == nil` is true; `nil == false` is false. */
  lemma EqualityExamples()
    ensures Evaluate(Binary(NilLit, Op(EqualEqual, "=="), NilLit), Rationals) == Val(BoolVal(true))
    ensures Evaluate(Binary(NilLit, Op(EqualEqual, "=="), Literal(BoolVal(false))), Rationals) == Val(BoolVal(false))
  {
  }

  /** `1 < 2` is true; `"a" < 1` is the runtime error on the `<` token. */
  lemma ComparisonExamples()
    ensures Evaluate(Binary(Num(1.0), Op(Less, "<"), Num(2.0)), Rationals) == Val(BoolVal(true))
    ensures Evaluate(Binary(Str("a"), Op(Less, "<"), Num(1.0)), Rationals) ==
      RuntimeError(Op(Less, "<"), "Operand must be a number.")
  {
  }

  /** `-"a"` fails with a class cast and `-nil` with a null unboxing. */
  lemma NegationExamples()
    ensures Evaluate(Unary(Op(Minus, "-"), Str("a")), Rationals) == ClassCast
    ensures Evaluate(Unary(Op(Minus, "-"), NilLit), Rationals) == NullPointer
    ensures Evaluate(Unary(Op(Minus, "-"), Num(2.0)), Rationals) == Val(NumVal(-2.0))
  {
  }
}
