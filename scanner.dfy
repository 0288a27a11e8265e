/**
 * The scanner as an object: a cursor of mutable fields that one left-to-right
 * pass moves over the source, appending tokens as it goes. Each method is proved
 * to do what the matching function of ScanSpec describes.
 */
module Scanning {
  import opened Tokens
  import opened ScanSpec

  class Scanner {
    const source: string
    var tokens: seq<Token>
    /** Where the lexeme being scanned starts. */
    var start: nat
    /** The next character to read. */
    var current: nat
    var line: int
    /** The block-comment nesting depth. */
    var mcnest: int
    /** The error sink: every (line, message) reported so far, in order. */
    var diagnostics: seq<Diagnostic>
    /** The source positions of each token's lexeme. */
    ghost var spans: seq<Span>

    ghost predicate Valid()
      reads this
    {
      start <= current <= |source| && mcnest >= 0 && tokens == TokensOf(spans)
    }

    constructor (source: string)
      ensures Valid() && this.source == source
      ensures tokens == [] && spans == [] && diagnostics == []
      ensures start == 0 && current == 0 && line == 1 && mcnest == 0
    {
      this.source := source;
      tokens, spans, diagnostics := [], [], [];
      start, current, line, mcnest := 0, 0, 1, 0;
    }

    /**
     * Scans the rest of the source and appends the EOF token. From a fresh
     * scanner the result is Scan(source).
     */
    method ScanTokens() returns (r: Scanned)
      requires Valid()
      modifies this
      ensures match ScanFrom(source, old(current), old(line), old(spans), old(diagnostics))
        case Lexed(sp, ds, l) =>
          r == Scanned(tokens, diagnostics) && spans == sp && diagnostics == ds && line == l &&
          tokens == TokensOf(sp) + [EofToken(l)]
        case LexCrashed(ds) =>
          r == Crashed(diagnostics) && diagnostics == ds
      ensures old(current) == 0 && old(line) == 1 && old(spans) == [] && old(diagnostics) == [] ==>
        r == Scan(source)
    {
      while !IsAtEnd()
        invariant Valid()
        invariant ScanFrom(source, current, line, spans, diagnostics) ==
                  ScanFrom(source, old(current), old(line), old(spans), old(diagnostics))
        decreases |source| - current
      {
        start := current;
        var ok := ScanToken();
        if !ok {
          return Crashed(diagnostics);
        }
      }
      tokens := tokens + [EofToken(line)];
      r := Scanned(tokens, diagnostics);
    }

    /** One step of the pass, from the start of a lexeme. */
    method ScanToken() returns (ok: bool)
      requires Valid() && start == current < |source|
      modifies this`current, this`line, this`mcnest, this`tokens, this`spans, this`diagnostics
      ensures Valid()
      ensures match Step(source, start, old(line))
        case ReadPastEnd => !ok && diagnostics == old(diagnostics)
        case Stepped(next, line', out) =>
          ok && current == next && line == line' &&
          spans == old(spans) + SpansOf(out, start, next) &&
          diagnostics == old(diagnostics) + DiagnosticsOf(out)
    {
      ok := true;
      var c := Advance();
      match c
      case ' ' | '\t' | '\r' =>
      case '\n' => line := line + 1;
      case '(' | ')' | '{' | '}' | ',' | '.' | '-' | '+' | '*' | ';' | '!' | '=' | '<' | '>' => ScanPunctuation(c);
      case '/' => ok := SlashOrComment();
      case '"' => ScanString();
      case _ => ScanOther(c);
    }

    /** The one- and two-character tokens. */
    method ScanPunctuation(c: char)
      requires Valid() && start + 1 == current <= |source| && source[start] == c
      requires c in {'(', ')', '{', '}', ',', '.', '-', '+', '*', ';', '!', '=', '<', '>'}
      modifies this`current, this`tokens, this`spans
      ensures Valid()
      ensures var r := Step(source, start, line);
        r.Stepped? && current == r.next && line == r.line && r.out.Emitted? &&
        spans == old(spans) + SpansOf(r.out, start, r.next)
    {
      match c
      case '(' => AddToken(LeftParen, Absent);
      case ')' => AddToken(RightParen, Absent);
      case '{' => AddToken(LeftBrace, Absent);
      case '}' => AddToken(RightBrace, Absent);
      case ',' => AddToken(Comma, Absent);
      case '.' => AddToken(Dot, Absent);
      case '-' => AddToken(Minus, Absent);
      case '+' => AddToken(Plus, Absent);
      case '*' => AddToken(Star, Absent);
      case ';' => AddToken(Semicolon, Absent);
      case '!' => AddOneOrTwo(Bang, BangEqual);
      case '=' => AddOneOrTwo(Equal, EqualEqual);
      case '<' => AddOneOrTwo(Less, LessEqual);
      case '>' => AddOneOrTwo(Greater, GreaterEqual);
    }

    /** A one-character operator, or its two-character form when `=` follows. */
    method AddOneOrTwo(narrow: TokenType, wide: TokenType)
      requires Valid() && start + 1 == current <= |source|
      modifies this`current, this`tokens, this`spans
      ensures Valid()
      ensures var r := OneOrTwo(source, start, line, narrow, wide);
        current == r.next && spans == old(spans) + SpansOf(r.out, start, r.next)
    {
      var m := Match('=');
      AddToken(if m then wide else narrow, Absent);
    }

    /** The default case of the step: a number, a word, or an unexpected character. */
    method ScanOther(c: char)
      requires Valid() && start + 1 == current <= |source| && source[start] == c
      modifies this`current, this`tokens, this`spans, this`diagnostics
      ensures Valid()
      ensures var r := DefaultStep(source, start, line);
        r.Stepped? && current == r.next && line == r.line &&
        spans == old(spans) + SpansOf(r.out, start, r.next) &&
        diagnostics == old(diagnostics) + DiagnosticsOf(r.out)
    {
      if IsDigit(c) {
        ScanNumber();
      } else if IsAlpha(c) {
        ScanIdentifier();
      } else {
        Error(line, "Unexpected character: " + [c]);
      }
    }

    /**
     * After a `/`: a line comment up to the next newline, a block comment, or a
     * SLASH token.
     */
    method SlashOrComment() returns (ok: bool)
      requires Valid() && start + 1 == current <= |source| && source[start] == '/'
      modifies this`current, this`line, this`mcnest, this`tokens, this`spans, this`diagnostics
      ensures Valid()
      ensures match SlashStep(source, start, old(line))
        case ReadPastEnd => !ok && diagnostics == old(diagnostics)
        case Stepped(next, line', out) =>
          ok && current == next && line == line' &&
          spans == old(spans) + SpansOf(out, start, next) &&
          diagnostics == old(diagnostics) + DiagnosticsOf(out)
    {
      ok := true;
      var slash := Match('/');
      if slash {
        ghost var e := FindChar(source, start + 2, '\n');
        while Peek() != '\n' && !IsAtEnd()
          invariant start + 2 <= current <= e
          modifies this`current
          decreases |source| - current
        {
          var _ := Advance();
        }
      } else {
        var star := Match('*');
        if star {
          mcnest := 1;
          ok := MultilineComment();
        } else {
          AddToken(Slash, Absent);
        }
      }
    }

    method Advance() returns (c: char)
      requires current < |source|
      modifies this`current
      ensures current == old(current) + 1 && c == source[old(current)]
    {
      current := current + 1;
      c := source[current - 1];
    }

    function Peek(): (c: char)
      reads this
      ensures c == CharAt(source, current)
    {
      if IsAtEnd() then '\0' else source[current]
    }

    function PeekNext(): (c: char)
      reads this
      ensures c == CharAt(source, current + 1)
    {
      if current + 1 >= |source| then '\0' else source[current + 1]
    }

    /** Consumes the next character when it is `expected`. */
    method Match(expected: char) returns (matched: bool)
      modifies this`current
      ensures matched == Matches(source, old(current), expected)
      ensures current == if matched then old(current) + 1 else old(current)
    {
      if IsAtEnd() {
        return false;
      }
      if source[current] != expected {
        return false;
      }
      current := current + 1;
      return true;
    }

    predicate IsAtEnd()
      reads this
    {
      current >= |source|
    }

    /** The rest of an identifier or keyword whose first character has been consumed. */
    method ScanIdentifier()
      requires Valid() && start < current
      modifies this`current, this`tokens, this`spans
      ensures Valid() && current == WordEnd(source, old(current))
      ensures var text := source[start..current];
        spans == old(spans) + [Span(Token(WordKind(text), text, Absent, line), start, current)]
    {
      ghost var e := WordEnd(source, current);
      while IsAlphaNumeric(Peek())
        invariant old(current) <= current <= e
        modifies this`current
        decreases |source| - current
      {
        var _ := Advance();
      }
      var text := source[start..current];
      var kind := if text in Keywords then Keywords[text] else Identifier;
      AddToken(kind, Absent);
    }

    /** The rest of a number whose first digit has been consumed. */
    method ScanNumber()
      requires Valid() && start < current
      modifies this`current, this`tokens, this`spans
      ensures Valid() && current == NumberEnd(source, old(current))
      ensures var text := source[start..current];
        spans == old(spans) + [Span(Token(Number, text, NumberLit(text), line), start, current)]
    {
      ghost var d := DigitsEnd(source, current);
      while IsDigit(Peek())
        invariant old(current) <= current <= d
        modifies this`current
        decreases |source| - current
      {
        var _ := Advance();
      }
      if Peek() == '.' && IsDigit(PeekNext()) {
        var _ := Advance();
        ghost var e := DigitsEnd(source, current);
        while IsDigit(Peek())
          invariant d + 1 <= current <= e
          modifies this`current
          decreases |source| - current
        {
          var _ := Advance();
        }
      }
      AddToken(Number, NumberLit(source[start..current]));
    }

    /** The rest of a string literal whose opening quote has been consumed. */
    method ScanString()
      requires Valid() && start + 1 == current && source[start] == '"'
      modifies this`current, this`line, this`tokens, this`spans, this`diagnostics
      ensures Valid()
      ensures var r := StringLiteral(source, start, old(line));
        r.Stepped? && current == r.next && line == r.line &&
        spans == old(spans) + SpansOf(r.out, start, r.next) &&
        diagnostics == old(diagnostics) + DiagnosticsOf(r.out)
    {
      ghost var e := FindChar(source, start + 1, '"');
      while Peek() != '"' && !IsAtEnd()
        invariant start < current <= e
        invariant line == old(line) + NewlinesIn(source, start + 1, current)
        modifies this`current, this`line
        decreases |source| - current
      {
        if Peek() == '\n' {
          line := line + 1;
        }
        var _ := Advance();
      }
      assert current == e;
      if IsAtEnd() {
        Error(line, "Unterminated string.");
        assert StringLiteral(source, start, old(line)) ==
          Stepped(current, line, Reported(Diagnostic(line, "Unterminated string.")));
        return;
      }
      var _ := Advance();
      var value := source[start + 1..current - 1];
      AddToken(String, StringLit(value));
      assert StringLiteral(source, start, old(line)) ==
        Stepped(current, line, Emitted(Token(String, source[start..current], StringLit(value), line)));
    }

    /**
     * The rest of a block comment whose opening pair has been consumed. Returns
     * false when the final advance would read past the end of the source.
     */
    method MultilineComment() returns (ok: bool)
      requires Valid() && start + 2 == current && mcnest == 1
      modifies this`current, this`line, this`mcnest, this`diagnostics
      ensures Valid()
      ensures match BlockComment(source, start + 2, old(line))
        case ReadPastEnd => !ok && diagnostics == old(diagnostics)
        case Stepped(next, line', out) =>
          ok && current == next && line == line' && diagnostics == old(diagnostics) + DiagnosticsOf(out)
    {
      while mcnest > 0 && !IsAtEnd()
        invariant start + 2 <= current <= |source| && mcnest >= 0
        invariant CommentScan(source, current, mcnest, line) == CommentScan(source, start + 2, 1, old(line))
        modifies this`current, this`line, this`mcnest
        decreases |source| - current
      {
        if Peek() == '/' && PeekNext() == '*' && !IsAtEnd() {
          mcnest := mcnest + 1;
        }
        if Peek() == '*' && PeekNext() == '/' {
          mcnest := mcnest - 1;
        }
        if Peek() == '\n' {
          line := line + 1;
        }
        var _ := Advance();
      }
      if IsAtEnd() {
        Error(line, "Unterminated multiline comment.");
        return true;
      }
      var _ := Advance();
      if IsAtEnd() {
        // the second advance reads past the end of the source
        return false;
      }
      var _ := Advance();
      ok := true;
    }

    /** Appends a token whose lexeme is the text from `start` to `current`. */
    method AddToken(kind: TokenType, literal: TokenLiteral)
      requires Valid()
      modifies this`tokens, this`spans
      ensures Valid()
      ensures spans == old(spans) + [Span(Token(kind, source[start..current], literal, line), start, current)]
    {
      var token := Token(kind, source[start..current], literal, line);
      tokens := tokens + [token];
      spans := spans + [Span(token, start, current)];
    }

    /** Sends a message to the error sink. */
    method Error(line: int, message: string)
      modifies this`diagnostics
      ensures diagnostics == old(diagnostics) + [Diagnostic(line, message)]
    {
      diagnostics := diagnostics + [Diagnostic(line, message)];
    }
  }
}
