/**
 * A functional specification of one scanning pass: what each `scanToken` call
 * does from a given cursor, and the whole left-to-right pass built from it.
 * The class in module Scanning is proved to compute exactly this.
 */
module ScanSpec {
  import opened Tokens

  /** The character at `i`, or NUL past the end: what `peek` and `peekNext` return. */
  function CharAt(src: string, i: nat): char {
    if i < |src| then src[i] else '\0'
  }

  /** What `match(expected)` tests before it consumes a character. */
  predicate Matches(src: string, i: nat, expected: char) {
    i < |src| && src[i] == expected
  }

  predicate IsDigit(c: char) { '0' <= c <= '9' }

  predicate IsAlpha(c: char) { 'a' <= c <= 'z' || 'A' <= c <= 'Z' || c == '_' }

  predicate IsAlphaNumeric(c: char) { IsAlpha(c) || IsDigit(c) }

  /** The reserved words. `or` is not among them. */
  const Keywords: map<string, TokenType> := map[
    "and" := And, "class" := Class, "else" := Else, "false" := False,
    "for" := For, "fun" := Fun, "if" := If, "nil" := Nil,
    "print" := Print, "return" := Return, "super" := Super, "this" := This,
    "true" := True, "var" := Var, "while" := While]

  /** The kind `identifier` gives a word: its keyword kind, or Identifier. */
  function WordKind(text: string): TokenType {
    if text in Keywords then Keywords[text] else Identifier
  }

  /** The end of the maximal run of digits that starts at `i`. */
  function DigitsEnd(src: string, i: nat): (r: nat)
    requires i <= |src|
    ensures i <= r <= |src|
    ensures forall k :: i <= k < r ==> IsDigit(src[k])
    ensures !IsDigit(CharAt(src, r))
    decreases |src| - i
  {
    if IsDigit(CharAt(src, i)) then DigitsEnd(src, i + 1) else i
  }

  /** The end of the maximal run of letters, digits and underscores that starts at `i`. */
  function WordEnd(src: string, i: nat): (r: nat)
    requires i <= |src|
    ensures i <= r <= |src|
    ensures forall k :: i <= k < r ==> IsAlphaNumeric(src[k])
    ensures !IsAlphaNumeric(CharAt(src, r))
    decreases |src| - i
  {
    if IsAlphaNumeric(CharAt(src, i)) then WordEnd(src, i + 1) else i
  }

  /** The first index from `i` on that holds `c`, or the end of the source. */
  function FindChar(src: string, i: nat, c: char): (r: nat)
    requires i <= |src|
    ensures i <= r <= |src|
    ensures forall k :: i <= k < r ==> src[k] != c
    ensures r < |src| ==> src[r] == c
    decreases |src| - i
  {
    if i < |src| && src[i] != c then FindChar(src, i + 1, c) else i
  }

  /**
   * The end of a number whose first digit lies just before `i`: more digits, then
   * a `.` and digits only when a digit follows the `.`.
   */
  function NumberEnd(src: string, i: nat): (r: nat)
    requires i <= |src|
    ensures i <= r <= |src|
  {
    var d := DigitsEnd(src, i);
    if CharAt(src, d) == '.' && IsDigit(CharAt(src, d + 1)) then DigitsEnd(src, d + 1) else d
  }

  /** The number of newline characters in src[a..b]. */
  function NewlinesIn(src: string, a: nat, b: nat): nat
    requires a <= b <= |src|
    decreases b
  {
    if a == b then 0 else NewlinesIn(src, a, b - 1) + (if src[b - 1] == '\n' then 1 else 0)
  }

  /** The cursor of the block-comment loop: position, nesting depth and line. */
  datatype CommentState = CommentState(pos: nat, nest: int, line: int)

  /**
   * The block-comment loop, from position `pos` at depth `nest`: at each character
   * a `/` before a `*` deepens the nesting, a `*` before a `/` closes one level,
   * a newline counts a line, and the character is consumed.
   */
  function CommentScan(src: string, pos: nat, nest: int, line: int): (r: CommentState)
    requires pos <= |src| && nest >= 0
    ensures pos <= r.pos <= |src| && r.nest >= 0 && r.line >= line
    ensures r.nest == 0 || r.pos == |src|
    ensures r.nest == 0 && nest > 0 ==> pos < r.pos < |src| && src[r.pos - 1] == '*' && src[r.pos] == '/'
    decreases |src| - pos
  {
    if nest <= 0 || pos >= |src| then CommentState(pos, nest, line)
    else
      var deeper := if src[pos] == '/' && CharAt(src, pos + 1) == '*' then nest + 1 else nest;
      var closed := if src[pos] == '*' && CharAt(src, pos + 1) == '/' then deeper - 1 else deeper;
      var line' := if src[pos] == '\n' then line + 1 else line;
      CommentScan(src, pos + 1, closed, line')
  }

  /** What one scanning step sends out: nothing, a token, or a diagnostic. */
  datatype Output = Silent | Emitted(token: Token) | Reported(diagnostic: Diagnostic)

  /**
   * The effect of one `scanToken` call: the new cursor and line with what was sent
   * out, or a read past the end of the source (which Java raises as an exception).
   */
  datatype StepResult = Stepped(next: nat, line: int, out: Output) | ReadPastEnd

  /** A token whose lexeme is src[from..to] and which carries no literal. */
  function Simple(src: string, from: nat, to: nat, line: int, kind: TokenType): StepResult
    requires from <= to <= |src|
  {
    Stepped(to, line, Emitted(Token(kind, src[from..to], Absent, line)))
  }

  /** `!`, `=`, `<`, `>`: the wide kind when an `=` follows, else the narrow one. */
  function OneOrTwo(src: string, pos: nat, line: int, narrow: TokenType, wide: TokenType): StepResult
    requires pos < |src|
  {
    if Matches(src, pos + 1, '=') then Simple(src, pos, pos + 2, line, wide)
    else Simple(src, pos, pos + 1, line, narrow)
  }

  /** The rest of a block comment whose opening slash and star end just before `i`. */
  function BlockComment(src: string, i: nat, line: int): StepResult
    requires i <= |src|
  {
    var cs := CommentScan(src, i, 1, line);
    if cs.pos >= |src| then
      Stepped(|src|, cs.line, Reported(Diagnostic(cs.line, "Unterminated multiline comment.")))
    else if cs.pos + 1 < |src| then
      // two more advances: over the closing `/` and over the character after it
      Stepped(cs.pos + 2, cs.line, Silent)
    else
      ReadPastEnd
  }

  /** A string literal whose opening quote is at `pos`. */
  function StringLiteral(src: string, pos: nat, line: int): StepResult
    requires pos < |src|
  {
    var e := FindChar(src, pos + 1, '"');
    var line' := line + NewlinesIn(src, pos + 1, e);
    if e >= |src| then
      Stepped(|src|, line', Reported(Diagnostic(line', "Unterminated string.")))
    else
      Stepped(e + 1, line', Emitted(Token(String, src[pos..e + 1], StringLit(src[pos + 1..e]), line')))
  }

  /** A number whose first digit is at `pos`; the literal keeps the digits as text. */
  function NumberLiteral(src: string, pos: nat, line: int): StepResult
    requires pos < |src|
  {
    var e := NumberEnd(src, pos + 1);
    Stepped(e, line, Emitted(Token(Number, src[pos..e], NumberLit(src[pos..e]), line)))
  }

  /** An identifier or keyword whose first character is at `pos`. */
  function Word(src: string, pos: nat, line: int): StepResult
    requires pos < |src|
  {
    var e := WordEnd(src, pos + 1);
    Simple(src, pos, e, line, WordKind(src[pos..e]))
  }

  /** One `scanToken` call with the lexeme starting at `pos` on line `line`. */
  function Step(src: string, pos: nat, line: int): (r: StepResult)
    requires pos < |src|
    ensures r.Stepped? ==> pos < r.next <= |src| && line <= r.line
    ensures r.Stepped? && r.out.Emitted? ==>
      r.out.token.lexeme == src[pos..r.next] && r.out.token.line == r.line && r.out.token.kind != Eof
  {
    var c := src[pos];
    match c
    case ' ' | '\t' | '\r' => Stepped(pos + 1, line, Silent)
    case '\n' => Stepped(pos + 1, line + 1, Silent)
    case '(' => Simple(src, pos, pos + 1, line, LeftParen)
    case ')' => Simple(src, pos, pos + 1, line, RightParen)
    case '{' => Simple(src, pos, pos + 1, line, LeftBrace)
    case '}' => Simple(src, pos, pos + 1, line, RightBrace)
    case ',' => Simple(src, pos, pos + 1, line, Comma)
    case '.' => Simple(src, pos, pos + 1, line, Dot)
    case '-' => Simple(src, pos, pos + 1, line, Minus)
    case '+' => Simple(src, pos, pos + 1, line, Plus)
    case '*' => Simple(src, pos, pos + 1, line, Star)
    case ';' => Simple(src, pos, pos + 1, line, Semicolon)
    case '!' => OneOrTwo(src, pos, line, Bang, BangEqual)
    case '=' => OneOrTwo(src, pos, line, Equal, EqualEqual)
    case '<' => OneOrTwo(src, pos, line, Less, LessEqual)
    case '>' => OneOrTwo(src, pos, line, Greater, GreaterEqual)
    case '/' => SlashStep(src, pos, line)
    case '"' => StringLiteral(src, pos, line)
    case _ => DefaultStep(src, pos, line)
  }

  /** A `/` at `pos`: a line comment up to the next newline, a block comment, or SLASH. */
  function SlashStep(src: string, pos: nat, line: int): StepResult
    requires pos < |src|
  {
    if Matches(src, pos + 1, '/') then Stepped(FindChar(src, pos + 2, '\n'), line, Silent)
    else if Matches(src, pos + 1, '*') then BlockComment(src, pos + 2, line)
    else Simple(src, pos, pos + 1, line, Slash)
  }

  /** Any other character at `pos`: a number, a word, or an unexpected character. */
  function DefaultStep(src: string, pos: nat, line: int): StepResult
    requires pos < |src|
  {
    var c := src[pos];
    if IsDigit(c) then NumberLiteral(src, pos, line)
    else if IsAlpha(c) then Word(src, pos, line)
    else Stepped(pos + 1, line, Reported(Diagnostic(line, "Unexpected character: " + [c])))
  }

  /** A token together with the source positions of its lexeme. */
  datatype Span = Span(token: Token, from: nat, to: nat)

  /** The outcome of the scanning loop: spans, diagnostics and final line, or a crash. */
  datatype Lexed =
    | Lexed(spans: seq<Span>, diagnostics: seq<Diagnostic>, line: int)
    | LexCrashed(diagnostics: seq<Diagnostic>)

  function SpansOf(out: Output, from: nat, to: nat): seq<Span> {
    if out.Emitted? then [Span(out.token, from, to)] else []
  }

  function DiagnosticsOf(out: Output): seq<Diagnostic> {
    if out.Reported? then [out.diagnostic] else []
  }

  /** The scanning loop from cursor `pos`, with what earlier steps produced. */
  function ScanFrom(src: string, pos: nat, line: int, spans: seq<Span>, diags: seq<Diagnostic>): Lexed
    requires pos <= |src|
    decreases |src| - pos
  {
    if pos == |src| then Lexed(spans, diags, line)
    else
      match Step(src, pos, line)
      case ReadPastEnd => LexCrashed(diags)
      case Stepped(next, line', out) =>
        ScanFrom(src, next, line', spans + SpansOf(out, pos, next), diags + DiagnosticsOf(out))
  }

  function Lex(src: string): Lexed {
    ScanFrom(src, 0, 1, [], [])
  }

  function TokensOf(spans: seq<Span>): seq<Token> {
    seq(|spans|, k requires 0 <= k < |spans| => spans[k].token)
  }

  function EofToken(line: int): Token {
    Token(Eof, "", Absent, line)
  }

  /** What `scanTokens` returns (with the diagnostics sent to the sink), or the crash. */
  datatype Scanned =
    | Scanned(tokens: seq<Token>, diagnostics: seq<Diagnostic>)
    | Crashed(diagnostics: seq<Diagnostic>)

  function Scan(src: string): Scanned {
    match Lex(src)
    case Lexed(spans, diags, line) => Scanned(TokensOf(spans) + [EofToken(line)], diags)
    case LexCrashed(diags) => Crashed(diags)
  }
}
