# jlox scanner and expression evaluator

A Dafny model of two parts of jlox, the tree-walking Lox interpreter:

- **The scanner.** `Scanner` makes one left-to-right pass over a source string. It moves a
  cursor (`start`, `current`, `line`, and the block-comment depth `mcnest`) and appends
  tokens, then ends the list with one `EOF` token. Lexical errors go to an error sink and do
  not stop the pass. Module `ScanSpec` states what one `scanToken` call does as a function,
  `Step` (new cursor, new line, and the token or diagnostic sent out), and builds the whole
  pass from it (`ScanFrom`, `Lex`, `Scan`). Module `Scanning` is the scanner as a class with
  the same fields and loops as the Java class. The switch of `scanToken` is split into four
  helper methods (`ScanPunctuation`, `AddOneOrTwo`, `ScanOther`, `SlashOrComment`), `Error`
  stands for the call to `Lox.error`, and `isDigit`, `isAlpha` and `isAlphaNumeric` are the
  predicates `IsDigit`, `IsAlpha` and `IsAlphaNumeric` of `ScanSpec`. Each method is proved
  to compute the matching `ScanSpec` function, and `ScanTokens` on a fresh scanner returns
  `Scan(source)`. `ScanLemmas` proves the lexical rules and the shape of the token list
  about `ScanSpec`. `ScanExamples` works through whole scans of small sources.
- **The expression evaluator.** `Interpreter.Evaluate` is a pure function over the four
  expression nodes (`Binary`, `Grouping`, `Literal`, `Unary`). It returns a value (nil, a
  boolean, a number or a string), the language's runtime error (the operator token and
  "Operand must be a number."), or the Java cast failure that unary minus on a non-number
  raises. Numbers are of an abstract type `N`, and their operations come in as an
  `Arithmetic<N>` record. What is modelled is the type dispatch, the order of the checks,
  truthiness and equality. `InterpreterLemmas` states the rules of the language about
  `Evaluate`. `InterpreterExamples` evaluates small trees, with exact rationals standing in
  for doubles. Evaluation is deterministic and has no state because `Evaluate` is a
  function: the same tree always gives the same outcome.

Two behaviours of the code are kept as written:

- After the outermost `*/` of a block comment, the code advances twice more. The loop has
  already consumed the `*`, so one character after the `/` is swallowed as well. When the
  `*/` is the last two characters of the source, the second advance reads past the end,
  which is an exception in Java. `Step` and `BlockComment` return `ReadPastEnd` for this
  case, and the whole scan is then `Crashed`: on such a source `scanTokens` throws an index
  exception and returns no token list (`ScanExamples.CommentClosedAtEnd`,
  `ScanExamples.CommentSwallowsNextCharacter`).
- Unary minus casts its operand to `double` without `checkNumberOperand`. On a string or a
  boolean it fails with a class cast, and on nil with a null unboxing. It never fails with
  the Lox runtime error "Operand must be a number.". A `+` on mismatched operands gives
  nil, with no error (`Interpreter.java:57-64`, `:79-80`).

The modules are `Tokens` (`tokens.dfy`), `ScanSpec` (`scan_spec.dfy`), `ScanLemmas`
(`scan_lemmas.dfy`), `Scanning` (`scanner.dfy`), `ScanExamples` (`scan_examples.dfy`),
`Interpreter` (`interpreter.dfy`), `InterpreterLemmas` (`interpreter_lemmas.dfy`) and
`InterpreterExamples` (`interpreter_examples.dfy`).

## Model

| member | source | states |
|---|---|---|
| ScanSpec.DigitsEnd | com/craftinginterpreters/lox/Scanner.java:173-175 | the digit loop stops at the end of the maximal run of digits: every character it passes is a digit and the next one (or the end, read as NUL) is not |
| ScanSpec.WordEnd | com/craftinginterpreters/lox/Scanner.java:160-162 | the identifier loop stops at the end of the maximal run of letters, digits and underscores |
| ScanSpec.FindChar | com/craftinginterpreters/lox/Scanner.java:191-194 | the string and line-comment loops stop at the first occurrence of the character they look for, or at the end of the source |
| ScanSpec.NumberEnd | com/craftinginterpreters/lox/Scanner.java:172-185 | a number ends inside the source, no earlier than where it started |
| ScanSpec.CommentScan | com/craftinginterpreters/lox/Scanner.java:211-217 | the block-comment loop stops either at depth 0 or at the end of the source. The depth never goes negative and the line never decreases. When it closes, it has just stepped over the `*` of a `*/` whose `/` is still in the source |
| ScanSpec.Step | com/craftinginterpreters/lox/Scanner.java:54-117 | one `scanToken` call that does not crash advances the cursor by at least one and never decreases the line. A token it emits has exactly the consumed slice as lexeme, the current line, and a kind other than EOF |
| ScanSpec.Scan | com/craftinginterpreters/lox/Scanner.java:43-52 | no contract of its own: the whole pass, the tokens of `Lex` followed by EOF; its shape is proved by `ScanLemmas.ScanTokensShape` and the class computes it (`Scanning.Scanner.ScanTokens`) |
| ScanSpec.Lex | com/craftinginterpreters/lox/Scanner.java:43-48 | no contract of its own: the scanning loop from position 0 on line 1; see `ScanLemmas.ScanFromKeepsSpans` and `ScanLemmas.ScanTokensShape` |
| ScanSpec.ScanFrom | com/craftinginterpreters/lox/Scanner.java:43-48 | no contract of its own: repeats `Step` until the end of the source or a crash; what it keeps is proved by `ScanLemmas.ScanFromKeepsSpans`, and it is the invariant of the loop of `Scanning.Scanner.ScanTokens` |
| ScanSpec.OneOrTwo | com/craftinginterpreters/lox/Scanner.java:79-82 | no contract of its own; its rule is proved by `ScanLemmas.OneOrTwoCharacterOperators` |
| ScanSpec.SlashStep | com/craftinginterpreters/lox/Scanner.java:84-96 | no contract of its own; its rules are proved by `ScanLemmas.LineComment` and `ScanLemmas.BlockComment` |
| ScanSpec.DefaultStep | com/craftinginterpreters/lox/Scanner.java:105-116 | no contract of its own; its rules are proved by `ScanLemmas.NumberLiterals`, `ScanLemmas.Words` and `ScanLemmas.UnexpectedCharacter` |
| ScanSpec.Word | com/craftinginterpreters/lox/Scanner.java:159-170 | no contract of its own; its rule is proved by `ScanLemmas.Words` |
| ScanSpec.WordKind | com/craftinginterpreters/lox/Scanner.java:164-168 | no contract of its own: the keyword kind of a word in the table, IDENTIFIER otherwise; see `ScanLemmas.Words` and `ScanLemmas.KeywordTable` |
| ScanSpec.NumberLiteral | com/craftinginterpreters/lox/Scanner.java:172-188 | no contract of its own; its rule is proved by `ScanLemmas.NumberLiterals` |
| ScanSpec.StringLiteral | com/craftinginterpreters/lox/Scanner.java:190-208 | no contract of its own; its rules are proved by `ScanLemmas.StringLiterals` and `ScanLemmas.UnterminatedString` |
| ScanSpec.BlockComment | com/craftinginterpreters/lox/Scanner.java:210-228 | no contract of its own; its rules are proved by `ScanLemmas.BlockComment` and `ScanLemmas.CommentCounts` |
| ScanSpec.CharAt | com/craftinginterpreters/lox/Scanner.java:124-134 | no contract of its own: the character at an index, NUL past the end; `Scanning.Scanner.Peek` and `Scanning.Scanner.PeekNext` are proved to return it |
| ScanSpec.Matches | com/craftinginterpreters/lox/Scanner.java:136-142 | no contract of its own: the index is in the source and holds the expected character; `Scanning.Scanner.Match` is proved to consume exactly then |
| ScanSpec.IsDigit | com/craftinginterpreters/lox/Scanner.java:144-146 | no contract of its own: `0` to `9`; used by `ScanSpec.DigitsEnd` and `ScanLemmas.NumberLiterals` |
| ScanSpec.IsAlpha | com/craftinginterpreters/lox/Scanner.java:148-153 | no contract of its own: ASCII letters and `_`; used by `ScanLemmas.Words` |
| ScanSpec.IsAlphaNumeric | com/craftinginterpreters/lox/Scanner.java:155-157 | no contract of its own: a letter, `_` or a digit; used by `ScanSpec.WordEnd` and `ScanLemmas.Words` |
| ScanLemmas.ScanFromKeepsSpans | com/craftinginterpreters/lox/Scanner.java:43-48 | the scanning loop only appends tokens and diagnostics. It keeps the spans ordered, non-overlapping and equal to their lexemes, with nondecreasing lines |
| ScanLemmas.ScanTokensShape | com/craftinginterpreters/lox/Scanner.java:43-52 | `scanTokens` returns a non-empty list whose last token, and only that one, is EOF with an empty lexeme, no literal and the final line. Every other token is the token of a span whose lexeme is the spanned source slice. Spans are in increasing, non-overlapping order and lines never decrease. The result crashes exactly when the loop does |
| ScanLemmas.Whitespace | com/craftinginterpreters/lox/Scanner.java:59-65 | space, tab and carriage return are skipped without effect; a newline is skipped and adds one to the line; none emits anything |
| ScanLemmas.LineComment | com/craftinginterpreters/lox/Scanner.java:84-89 | `//` emits nothing and stops before the next newline (or at the end); that newline is then counted by the next step |
| ScanLemmas.OneOrTwoCharacterOperators | com/craftinginterpreters/lox/Scanner.java:79-82 | `!`, `=`, `<`, `>` followed by `=` give the two-character kind with a two-character lexeme; otherwise the one-character kind and one character |
| ScanLemmas.NewlinesFront | com/craftinginterpreters/lox/Scanner.java:192 | counting newlines from the front, one character at a time as the loops do, gives the same count |
| ScanLemmas.CommentCounts | com/craftinginterpreters/lox/Scanner.java:211-217 | after the comment loop, the depth is the starting depth plus the `/*` pairs minus the `*/` pairs it stepped over, and the line has grown by the newlines it stepped over |
| ScanLemmas.BlockComment | com/craftinginterpreters/lox/Scanner.java:90-92 | a block comment starts at depth 1 and never emits a token. Its newlines advance the line. Left open at the end it reports "Unterminated multiline comment."; closed, it consumes exactly one character after the `*/`, and crashes when there is none |
| ScanLemmas.StringLiterals | com/craftinginterpreters/lox/Scanner.java:190-208 | a string ends at the first quote after the opening one. Its literal is the raw text between the quotes, its lexeme includes the quotes, and its line is the line after the newlines inside it |
| ScanLemmas.UnterminatedString | com/craftinginterpreters/lox/Scanner.java:196-198 | without a closing quote the step consumes the rest of the source, counts its newlines, reports "Unterminated string." and emits no token |
| ScanLemmas.StepOnQuote | com/craftinginterpreters/lox/Scanner.java:99 | a `"` starts a string literal |
| ScanLemmas.NumberLiterals | com/craftinginterpreters/lox/Scanner.java:172-188 | a number is a NUMBER token whose lexeme (kept as its literal) is digits, optionally a `.` and more digits. It is maximal: no digit follows it, and without a fraction no `.` followed by a digit follows it |
| ScanLemmas.FractionText | com/craftinginterpreters/lox/Scanner.java:178-185 | digits, a `.` and one or more further digits form the text of a number |
| ScanLemmas.Words | com/craftinginterpreters/lox/Scanner.java:159-170 | an identifier is a maximal run of letters, digits and underscores. It gets a keyword kind exactly when the keyword table holds it, and IDENTIFIER otherwise |
| ScanLemmas.KeywordTable | com/craftinginterpreters/lox/Scanner.java:12-30 | every word of the table maps to one of the fifteen keyword kinds AND, CLASS, ELSE, FALSE, FOR, FUN, IF, NIL, PRINT, RETURN, SUPER, THIS, TRUE, VAR, WHILE, and `or` is not in it |
| ScanLemmas.KeywordWords | com/craftinginterpreters/lox/Scanner.java:12-30 | the words of the table are exactly the fifteen reserved words |
| ScanLemmas.KeywordCount | com/craftinginterpreters/lox/Scanner.java:12-30 | the table has fifteen entries |
| ScanLemmas.ReservedWordCount | com/craftinginterpreters/lox/Scanner.java:12-30 | the fifteen reserved words are distinct |
| ScanLemmas.UnexpectedCharacter | com/craftinginterpreters/lox/Scanner.java:111-115 | any other character is reported as "Unexpected character: c" on the current line, emits nothing, and the scan goes on at the next character |
| ScanExamples.NumberThenDot | com/craftinginterpreters/lox/Scanner.java:178-185 | `1.` scans to NUMBER `1`, DOT, EOF |
| ScanExamples.CommentClosedAtEnd | com/craftinginterpreters/lox/Scanner.java:225-227 | `/**/` crashes: the second advance reads past the end |
| ScanExamples.CommentSwallowsNextCharacter | com/craftinginterpreters/lox/Scanner.java:225-227 | in `/**/x` the `x` is consumed with the comment, leaving only EOF |
| ScanExamples.NestedComment | com/craftinginterpreters/lox/Scanner.java:210-228 | `/* a /* b */ c */ 2` scans to NUMBER `2`, EOF |
| ScanExamples.NestedCommentScan | com/craftinginterpreters/lox/Scanner.java:210-228 | the same scan, on a named source |
| ScanExamples.NestedCommentLoop | com/craftinginterpreters/lox/Scanner.java:211-217 | on that source the comment loop goes to depth 2 and back to 0, stopping at the final `/` |
| ScanExamples.NestedCommentNumber | com/craftinginterpreters/lox/Scanner.java:172-188 | the final `2` of that source is a NUMBER token |
| ScanExamples.OrIsIdentifier | com/craftinginterpreters/lox/Scanner.java:164-168 | `or` scans to IDENTIFIER, EOF |
| ScanExamples.StringWithoutClosingQuote | com/craftinginterpreters/lox/Scanner.java:196-198 | `"ab` gives only EOF and the diagnostic "Unterminated string." on line 1 |
| ScanExamples.TwoLineString | com/craftinginterpreters/lox/Scanner.java:190-207 | a string over two lines is one token carrying line 2, the line of its closing quote |
| ScanExamples.CommentThenNumber | com/craftinginterpreters/lox/Scanner.java:84-89 | `//c` then a newline then `1` scans to NUMBER `1` on line 2, EOF |
| ScanExamples.UnexpectedAt | com/craftinginterpreters/lox/Scanner.java:111-115 | `@;` reports the `@` and still scans the `;` |
| Scanning.Scanner.constructor | com/craftinginterpreters/lox/Scanner.java:32-41 | a new scanner is at position 0 on line 1, with no tokens and depth 0 |
| Scanning.Scanner.ScanTokens | com/craftinginterpreters/lox/Scanner.java:43-52 | the loop computes `ScanFrom` from the current state and then appends the EOF token with the final line; on a fresh scanner the result is `Scan(source)` |
| Scanning.Scanner.ScanToken | com/craftinginterpreters/lox/Scanner.java:54-117 | one call moves the cursor and line, appends the token or diagnostic, or fails, exactly as `Step` says |
| Scanning.Scanner.ScanPunctuation | com/craftinginterpreters/lox/Scanner.java:67-82 | the one-character and one-or-two-character cases of the switch emit the token `Step` gives |
| Scanning.Scanner.AddOneOrTwo | com/craftinginterpreters/lox/Scanner.java:79-82 | `addToken(match('=') ? wide : narrow)` emits the token `OneOrTwo` gives |
| Scanning.Scanner.ScanOther | com/craftinginterpreters/lox/Scanner.java:105-115 | the default case gives a number, an identifier or keyword, or the unexpected-character diagnostic, as `DefaultStep` says |
| Scanning.Scanner.SlashOrComment | com/craftinginterpreters/lox/Scanner.java:84-96 | after a `/`: the line comment, the block comment or SLASH, as `SlashStep` says |
| Scanning.Scanner.Advance | com/craftinginterpreters/lox/Scanner.java:119-122 | returns the character at the cursor and moves past it |
| Scanning.Scanner.Peek | com/craftinginterpreters/lox/Scanner.java:124-127 | the character at the cursor, or NUL at the end |
| Scanning.Scanner.PeekNext | com/craftinginterpreters/lox/Scanner.java:129-134 | the character after the cursor, or NUL past the end |
| Scanning.Scanner.Match | com/craftinginterpreters/lox/Scanner.java:136-142 | consumes the next character exactly when it is the expected one |
| Scanning.Scanner.ScanIdentifier | com/craftinginterpreters/lox/Scanner.java:159-170 | stops at `WordEnd` and appends the word with its keyword kind or IDENTIFIER |
| Scanning.Scanner.ScanNumber | com/craftinginterpreters/lox/Scanner.java:172-188 | stops at `NumberEnd` and appends a NUMBER token whose literal is its lexeme |
| Scanning.Scanner.ScanString | com/craftinginterpreters/lox/Scanner.java:190-208 | consumes, counts lines and emits or reports what `StringLiteral` says |
| Scanning.Scanner.MultilineComment | com/craftinginterpreters/lox/Scanner.java:210-228 | runs the comment loop and the two final advances as `BlockComment` says, failing on the read past the end |
| Scanning.Scanner.IsAtEnd | com/craftinginterpreters/lox/Scanner.java:239-241 | no contract of its own: the cursor is at or past the end of the source; it is the exit test of the loops of `ScanTokens`, `ScanString`, `MultilineComment` and `SlashOrComment` |
| Scanning.Scanner.AddToken | com/craftinginterpreters/lox/Scanner.java:234-237 | appends a token whose lexeme is `source[start..current]`, on the current line |
| Scanning.Scanner.Error | com/craftinginterpreters/lox/Scanner.java:113 | appends the line and message to the diagnostics |
| Interpreter.Evaluate | com/craftinginterpreters/lox/Interpreter.java:6-81 | no contract of its own; the rules of evaluation are proved by `InterpreterLemmas.LiteralAndGrouping`, `Not`, `Negate`, `NumberOperators`, `PlusOperator`, `Equality`, `LeftToRight`, `UnhandledOperators`, `FailureOrigins` and `NeverFailsWithoutChecks` |
| Interpreter.ApplyUnary | com/craftinginterpreters/lox/Interpreter.java:21-29 | no contract of its own; its rules are proved by `InterpreterLemmas.Not`, `InterpreterLemmas.Negate` and `InterpreterLemmas.UnhandledOperators` |
| Interpreter.ApplyBinary | com/craftinginterpreters/lox/Interpreter.java:36-80 | no contract of its own; its rules are proved by `InterpreterLemmas.NumberOperators`, `InterpreterLemmas.PlusOperator`, `InterpreterLemmas.Equality` and `InterpreterLemmas.UnhandledOperators` |
| Interpreter.IsTruthy | com/craftinginterpreters/lox/Interpreter.java:83-87 | no contract of its own; its rule is proved by `InterpreterLemmas.Truthiness` |
| Interpreter.IsEqual | com/craftinginterpreters/lox/Interpreter.java:89-97 | no contract of its own; its rule is proved by `InterpreterLemmas.EqualityRule` |
| Interpreter.CheckNumberOperands | com/craftinginterpreters/lox/Interpreter.java:99-104 | no contract of its own; its role is proved by `InterpreterLemmas.NumberOperators` and `InterpreterLemmas.FailureOrigins` |
| InterpreterLemmas.LiteralAndGrouping | com/craftinginterpreters/lox/Interpreter.java:6-12 | a literal evaluates to its value, a grouping to what its child evaluates to |
| InterpreterLemmas.Truthiness | com/craftinginterpreters/lox/Interpreter.java:83-87 | exactly nil and false are falsy; numbers (0 included) and the empty string are truthy |
| InterpreterLemmas.Not | com/craftinginterpreters/lox/Interpreter.java:22-23 | `!` gives the negated truthiness of any value and passes on the operand's failure |
| InterpreterLemmas.Negate | com/craftinginterpreters/lox/Interpreter.java:24-25 | unary `-` negates a number. On nil it fails with a null unboxing and on a boolean or string with a class cast, never with the runtime error |
| InterpreterLemmas.NumberOperators | com/craftinginterpreters/lox/Interpreter.java:37-72 | `>`, `>=`, `<`, `<=`, `-`, `/`, `*` give the runtime error on their operator exactly when an operand is not a number, and otherwise the comparison or arithmetic result |
| InterpreterLemmas.PlusOperator | com/craftinginterpreters/lox/Interpreter.java:57-64 | `+` adds two numbers and concatenates two strings. Any other pair gives nil, with no error |
| InterpreterLemmas.EqualityRule | com/craftinginterpreters/lox/Interpreter.java:89-97 | nil equals only nil; values are equal exactly when of the same kind with the same content; the rule is symmetric and a number never equals a string |
| InterpreterLemmas.Equality | com/craftinginterpreters/lox/Interpreter.java:73-76 | `==` and `!=` never fail once their operands are values, and `!=` is the negation of `==` |
| InterpreterLemmas.LeftToRight | com/craftinginterpreters/lox/Interpreter.java:33-34 | the left operand is evaluated first, and its failure is the result whatever the right operand does; then the right operand's failure |
| InterpreterLemmas.UnhandledOperators | com/craftinginterpreters/lox/Interpreter.java:77-80 | unary and binary operator kinds that no switch case handles give nil |
| InterpreterLemmas.FailureOrigins | com/craftinginterpreters/lox/Interpreter.java:99-104 | every runtime error says "Operand must be a number." and carries the operator of a number-checking node of the tree; a cast failure needs a unary minus in the tree |
| InterpreterLemmas.NeverFailsWithoutChecks | com/craftinginterpreters/lox/Interpreter.java:99-104 | a tree with no number-checking operator and no unary minus always evaluates to a value |
| InterpreterExamples.ArithmeticExample | com/craftinginterpreters/lox/Interpreter.java:57-72 | `1 + 2 * 3` evaluates to 7 |
| InterpreterExamples.PlusExamples | com/craftinginterpreters/lox/Interpreter.java:57-64 | `"a" + "b"` is `"ab"` and `"1" + 1` is nil |
| InterpreterExamples.NotExamples | com/craftinginterpreters/lox/Interpreter.java:22-23 | `!nil` is true and `!0` is false |
| InterpreterExamples.EqualityExamples | com/craftinginterpreters/lox/Interpreter.java:89-97 | `nil == nil` is true and `nil == false` is false |
| InterpreterExamples.ComparisonExamples | com/craftinginterpreters/lox/Interpreter.java:45-48 | `1 < 2` is true and `"a" < 1` is the runtime error on the `<` token |
| InterpreterExamples.NegationExamples | com/craftinginterpreters/lox/Interpreter.java:24-25 | `-"a"` is a class-cast failure, `-nil` a null-unboxing failure, `-2` is -2 |

## Left out

- Floating point: `Double.parseDouble` and IEEE arithmetic, comparison and `Double.equals`
  (NaN, -0.0) are not modelled. The scanner keeps a number's lexeme as its literal. The
  evaluator takes the number operations as parameters and compares numbers with Dafny's
  equality, which stands for the bit-pattern equality of `Double.equals`.
- `Lox.error` is an external sink. It is modelled as a sequence of (line, message) pairs
  that the scanner appends to.
- Java exceptions are outcome values: `ReadPastEnd` and `Crashed` for the index exception of
  `advance`, and `RuntimeError`, `ClassCast` and `NullPointer` for the evaluator.
- Scanning.Scanner.ScanTokens: after a crash it states only the diagnostics sent so far, and
  not the cursor or token list that the exception leaves behind.
- Scanning.Scanner.MultilineComment: on the crash it does not state the cursor, which Java
  has already moved past the end when it raises.
- The 32-bit `int` line counter and cursor are unbounded integers: overflow on a source of
  more than 2^31 characters or lines is not modelled.
- The visitor interface and `accept` double dispatch are replaced by `match` on the `Expr`
  datatype. The `Token`, `TokenType`, `Expr` and `RuntimeError` classes are not part of
  this model; they are rebuilt as datatypes from how the two classes use them.
- `GenerateAST.java` is a build-time code generator (file I/O) and is not part of this
  model, beyond the shape of the expression nodes.
- The keyword `HashMap` is a Dafny `map` literal.
- The source is a sequence of Unicode scalar values (Dafny `char`), not of Java's UTF-16
  code units. A character outside the basic plane, such as U+1F600, is one `char` here and
  is reported once as "Unexpected character: ", where Java reports each of its two
  surrogates. A lone surrogate cannot be represented.
- The evaluator's numbers are kept generic. The only concrete instance is the exact
  rationals of `InterpreterExamples`, where division by zero gives 0 in place of an
  infinity or NaN.
