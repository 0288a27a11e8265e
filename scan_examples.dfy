/** Whole scans of small sources, showing the quirks of the pass end to end. */
module ScanExamples {
  import opened Tokens
  import opened ScanSpec
  import ScanLemmas

  /** `1.` is the number `1` and then a dot: no fraction without a digit after the `.`. */
  lemma NumberThenDot()
    ensures Scan("1.") == Scanned([Token(Number, "1", NumberLit("1"), 1), Token(Dot, ".", Absent, 1), EofToken(1)], [])
  {
    var src := "1.";
    var t0 := Token(Number, "1", NumberLit("1"), 1);
    var t1 := Token(Dot, ".", Absent, 1);
    assert NumberEnd(src, 1) == 1;
    assert src[0..1] == "1" && src[1..2] == ".";
    assert Step(src, 0, 1) == NumberLiteral(src, 0, 1);
    var sp := [Span(t0, 0, 1), Span(t1, 1, 2)];
    assert ScanFrom(src, 1, 1, sp[..1], []) == Lexed(sp, [], 1);
    assert TokensOf(sp) == [t0, t1];
  }

  /** A block comment that closes at the very end of the source makes the pass fail. */
  lemma CommentClosedAtEnd()
    ensures Scan("/**/") == Crashed([])
  {
    var src := "/**/";
    assert CommentScan(src, 2, 1, 1) == CommentState(3, 0, 1);
    assert Step(src, 0, 1) == SlashStep(src, 0, 1) == BlockComment(src, 2, 1) == ReadPastEnd;
  }

  /** The character right after a closing `*` `/` is swallowed with the comment. */
  lemma CommentSwallowsNextCharacter()
    ensures Scan("/**/x") == Scanned([EofToken(1)], [])
  {
    var src := "/**/x";
    assert CommentScan(src, 2, 1, 1) == CommentState(3, 0, 1);
    assert Step(src, 0, 1) == SlashStep(src, 0, 1) == BlockComment(src, 2, 1) == Stepped(5, 1, Silent);
  }

  /** A nested block comment is one unit; here the swallowed character is the space before the `2`. */
  lemma NestedComment()
    ensures Scan("/* a /* b */ c */ 2") == Scanned([Token(Number, "2", NumberLit("2"), 1), EofToken(1)], [])
  {
    NestedCommentScan("/* a /* b */ c */ 2");
  }

  /** The same scan on a named source, so that the proof goes step by step. */
  lemma NestedCommentScan(src: string)
    requires src == "/* a /* b */ c */ 2"
    ensures Scan(src) == Scanned([Token(Number, "2", NumberLit("2"), 1), EofToken(1)], [])
  {
    var t := Token(Number, "2", NumberLit("2"), 1);
    NestedCommentLoop(src);
    NestedCommentNumber(src);
    assert ScanFrom(src, 18, 1, [], []) == Lexed([Span(t, 18, 19)], [], 1);
    assert TokensOf([Span(t, 18, 19)]) == [t];
  }

  /** The comment loop over that source: it opens a second level at 5 and closes both at 10 and 15. */
  lemma NestedCommentLoop(src: string)
    requires src == "/* a /* b */ c */ 2"
    ensures CommentScan(src, 2, 1, 1) == CommentState(16, 0, 1)
    ensures Step(src, 0, 1) == Stepped(18, 1, Silent)
  {
    assert CommentScan(src, 15, 1, 1) == CommentState(16, 0, 1);
    assert CommentScan(src, 13, 1, 1) == CommentScan(src, 15, 1, 1);
    assert CommentScan(src, 11, 1, 1) == CommentScan(src, 13, 1, 1);
    assert CommentScan(src, 10, 2, 1) == CommentScan(src, 11, 1, 1);
    assert CommentScan(src, 8, 2, 1) == CommentScan(src, 10, 2, 1);
    assert CommentScan(src, 6, 2, 1) == CommentScan(src, 8, 2, 1);
    assert CommentScan(src, 5, 1, 1) == CommentScan(src, 6, 2, 1);
    assert CommentScan(src, 3, 1, 1) == CommentScan(src, 5, 1, 1);
    assert CommentScan(src, 2, 1, 1) == CommentScan(src, 3, 1, 1);
    assert Step(src, 0, 1) == SlashStep(src, 0, 1) == BlockComment(src, 2, 1);
  }

  /** After the comment, the `2` at the end of that source is a number. */
  lemma NestedCommentNumber(src: string)
    requires src == "/* a /* b */ c */ 2"
    ensures Step(src, 18, 1) == Stepped(19, 1, Emitted(Token(Number, "2", NumberLit("2"), 1)))
  {
    assert src[18..19] == "2";
    assert Step(src, 18, 1) == NumberLiteral(src, 18, 1);
  }

  /** `or` is not a reserved word. */
  lemma OrIsIdentifier()
    ensures Scan("or") == Scanned([Token(Identifier, "or", Absent, 1), EofToken(1)], [])
  {
    var src := "or";
    var t := Token(Identifier, "or", Absent, 1);
    assert WordEnd(src, 1) == 2;
    assert src[0..2] == "or";
    assert Step(src, 0, 1) == Word(src, 0, 1);
    assert Step(src, 0, 1) == Stepped(2, 1, Emitted(t));
    assert TokensOf([Span(t, 0, 2)]) == [t];
  }

  /** An unterminated string emits no token, only the diagnostic. */
  lemma StringWithoutClosingQuote()
    ensures Scan("\"ab") == Scanned([EofToken(1)], [Diagnostic(1, "Unterminated string.")])
  {
  }

  /** A string over two lines carries the line of its closing quote. */
  lemma TwoLineString()
    ensures Scan("\"a\nb\"") == Scanned([Token(String, "\"a\nb\"", StringLit("a\nb"), 2), EofToken(2)], [])
  {
    var src := "\"a\nb\"";
    var t := Token(String, src, StringLit("a\nb"), 2);
    assert NewlinesIn(src, 1, 4) == 1;
    assert src[0..5] == src && src[1..4] == "a\nb";
    ScanLemmas.StringLiterals(src, 0, 1, 4);
    assert Step(src, 0, 1) == Stepped(5, 2, Emitted(t));
    assert Lex(src) == Lexed([Span(t, 0, 5)], [], 2);
    assert TokensOf([Span(t, 0, 5)]) == [t];
  }

  /** A line comment leaves its newline to be counted. */
  lemma CommentThenNumber()
    ensures Scan("//c\n1") == Scanned([Token(Number, "1", NumberLit("1"), 2), EofToken(2)], [])
  {
    var src := "//c\n1";
    var t := Token(Number, "1", NumberLit("1"), 2);
    assert FindChar(src, 2, '\n') == 3;
    assert Step(src, 0, 1) == Stepped(3, 1, Silent);
    assert Step(src, 3, 1) == Stepped(4, 2, Silent);
    assert NumberEnd(src, 5) == 5;
    assert src[4..5] == "1";
    assert Step(src, 4, 2) == NumberLiteral(src, 4, 2);
    assert Step(src, 4, 2) == Stepped(5, 2, Emitted(t));
    assert ScanFrom(src, 3, 1, [], []) == Lexed([Span(t, 4, 5)], [], 2);
    assert TokensOf([Span(t, 4, 5)]) == [t];
  }

  /** An unexpected character is reported and skipped. */
  lemma UnexpectedAt()
    ensures Scan("@;") == Scanned([Token(Semicolon, ";", Absent, 1), EofToken(1)], [Diagnostic(1, "Unexpected character: @")])
  {
    var src := "@;";
    var t := Token(Semicolon, ";", Absent, 1);
    var d := Diagnostic(1, "Unexpected character: @");
    assert Step(src, 0, 1) == Stepped(1, 1, Reported(d));
    assert src[1..2] == ";";
    assert Step(src, 1, 1) == Stepped(2, 1, Emitted(t));
    assert TokensOf([Span(t, 1, 2)]) == [t];
  }
}
