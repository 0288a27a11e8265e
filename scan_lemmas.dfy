/** Properties of the scanning specification: the shape of the token list and each lexical rule. */
module ScanLemmas {
  import opened Tokens
  import opened ScanSpec

  /**
   * The spans seen so far lie in order, without overlap, before `pos`; every
   * lexeme is the slice of the source it spans; no token is an EOF token; token
   * lines never decrease and none exceeds the current line.
   */
  ghost predicate WellSpanned(src: string, spans: seq<Span>, pos: nat, line: int) {
    (forall k :: 0 <= k < |spans| ==>
      spans[k].from < spans[k].to <= pos && spans[k].to <= |src| &&
      spans[k].token.lexeme == src[spans[k].from..spans[k].to] &&
      spans[k].token.kind != Eof && spans[k].token.line <= line) &&
    (forall k :: 0 < k < |spans| ==>
      spans[k - 1].to <= spans[k].from && spans[k - 1].token.line <= spans[k].token.line)
  }

  /** The scanning loop keeps WellSpanned and only appends to what it was given. */
  lemma {:induction false} ScanFromKeepsSpans(src: string, pos: nat, line: int, spans: seq<Span>, diags: seq<Diagnostic>)
    requires pos <= |src| && WellSpanned(src, spans, pos, line)
    ensures var r := ScanFrom(src, pos, line, spans, diags);
      diags <= r.diagnostics &&
      (r.Lexed? ==> WellSpanned(src, r.spans, |src|, r.line) && r.line >= line && spans <= r.spans)
    decreases |src| - pos
  {
    if pos < |src| {
      match Step(src, pos, line)
      case ReadPastEnd =>
      case Stepped(next, line', out) =>
        var spans' := spans + SpansOf(out, pos, next);
        assert WellSpanned(src, spans', next, line');
        ScanFromKeepsSpans(src, next, line', spans', diags + DiagnosticsOf(out));
    }
  }

  /**
   * `scanTokens`: the list is never empty; its last token, and only that one, is
   * EOF, with an empty lexeme, no literal and the final line; every other token is
   * the token of a span of the source, the spans being in increasing,
   * non-overlapping order with the lexeme equal to the spanned slice; lines never
   * decrease along the list.
   */
  lemma ScanTokensShape(src: string)
    ensures Scan(src).Scanned? <==> Lex(src).Lexed?
    ensures Scan(src).diagnostics == Lex(src).diagnostics
    ensures Lex(src).Lexed? ==>
      var spans, toks := Lex(src).spans, Scan(src).tokens;
      Lex(src).line >= 1 &&
      WellSpanned(src, spans, |src|, Lex(src).line) &&
      |toks| == |spans| + 1 &&
      toks[|spans|] == Token(Eof, "", Absent, Lex(src).line) &&
      (forall k :: 0 <= k < |spans| ==> toks[k] == spans[k].token && toks[k].kind != Eof) &&
      (forall k :: 0 < k < |toks| ==> toks[k - 1].line <= toks[k].line)
  {
    ScanFromKeepsSpans(src, 0, 1, [], []);
    var r := Lex(src);
    if r.Lexed? {
      var toks := Scan(src).tokens;
      assert forall k :: 0 <= k < |r.spans| ==> toks[k] == r.spans[k].token;
      if |r.spans| > 0 {
        assert r.spans[|r.spans| - 1].token.line <= r.line;
      }
    }
  }

  /** Space, tab and carriage return are skipped; a newline is skipped and counts a line. */
  lemma Whitespace(src: string, pos: nat, line: int)
    requires pos < |src| && src[pos] in {' ', '\t', '\r', '\n'}
    ensures Step(src, pos, line) == Stepped(pos + 1, if src[pos] == '\n' then line + 1 else line, Silent)
  {
  }

  /**
   * A `//` comment emits nothing and stops at the next newline (or the end),
   * which it leaves for the next step to count.
   */
  lemma LineComment(src: string, pos: nat, line: int)
    requires pos + 1 < |src| && src[pos] == '/' && src[pos + 1] == '/'
    ensures var r := Step(src, pos, line);
      r.Stepped? && r.out == Silent && r.line == line && pos + 2 <= r.next &&
      (forall k :: pos + 2 <= k < r.next ==> src[k] != '\n') &&
      (r.next < |src| ==> Step(src, r.next, line) == Stepped(r.next + 1, line + 1, Silent))
  {
  }

  /** The kind a one-or-two-character operator gets, with or without its `=`. */
  function OperatorKind(c: char, wide: bool): TokenType {
    match c
    case '!' => if wide then BangEqual else Bang
    case '=' => if wide then EqualEqual else Equal
    case '<' => if wide then LessEqual else Less
    case _ => if wide then GreaterEqual else Greater
  }

  /**
   * `!`, `=`, `<`, `>` followed by `=` give the wide kind with a two-character
   * lexeme; otherwise the narrow kind with the one character.
   */
  lemma OneOrTwoCharacterOperators(src: string, pos: nat, line: int)
    requires pos < |src| && src[pos] in {'!', '=', '<', '>'}
    ensures var wide := pos + 1 < |src| && src[pos + 1] == '=';
      var n := if wide then 2 else 1;
      pos + n <= |src| &&
      Step(src, pos, line) == Stepped(pos + n, line, Emitted(Token(OperatorKind(src[pos], wide), src[pos..pos + n], Absent, line)))
  {
  }

  /** How many times the pair `first second` starts at an index in [a, b). */
  function PairsIn(src: string, a: nat, b: nat, first: char, second: char): nat
    requires a <= b <= |src|
    decreases b - a
  {
    if a == b then 0
    else (if src[a] == first && CharAt(src, a + 1) == second then 1 else 0) + PairsIn(src, a + 1, b, first, second)
  }

  /** Counting newlines from the front, as the loops over comments and strings meet them. */
  lemma {:induction false} NewlinesFront(src: string, a: nat, b: nat)
    requires a < b <= |src|
    ensures NewlinesIn(src, a, b) == (if src[a] == '\n' then 1 else 0) + NewlinesIn(src, a + 1, b)
    decreases b
  {
    if a + 1 < b {
      NewlinesFront(src, a, b - 1);
    }
  }

  /**
   * After the block-comment loop, the depth is the starting depth plus the number
   * of `/`-`*` pairs minus the number of `*`-`/` pairs the loop stepped over, and
   * the line has grown by the number of newlines it stepped over.
   */
  lemma {:induction false} CommentCounts(src: string, pos: nat, nest: int, line: int)
    requires pos <= |src| && nest >= 0
    ensures var r := CommentScan(src, pos, nest, line);
      r.nest == nest + PairsIn(src, pos, r.pos, '/', '*') - PairsIn(src, pos, r.pos, '*', '/') &&
      r.line == line + NewlinesIn(src, pos, r.pos)
    decreases |src| - pos
  {
    if nest > 0 && pos < |src| {
      var deeper := if src[pos] == '/' && CharAt(src, pos + 1) == '*' then nest + 1 else nest;
      var closed := if src[pos] == '*' && CharAt(src, pos + 1) == '/' then deeper - 1 else deeper;
      var line' := if src[pos] == '\n' then line + 1 else line;
      var r := CommentScan(src, pos + 1, closed, line');
      CommentCounts(src, pos + 1, closed, line');
      NewlinesFront(src, pos, r.pos);
    }
  }

  /**
   * A block comment emits no token. Its loop starts at depth 1 and counts the
   * newlines it passes. Run out of input while still open, it reports
   * "Unterminated multiline comment."; closed by a `*` `/`, the step takes the
   * `/` and exactly one character after it, and fails when there is none.
   */
  lemma BlockComment(src: string, pos: nat, line: int)
    requires pos + 1 < |src| && src[pos] == '/' && src[pos + 1] == '*'
    ensures var cs, r := CommentScan(src, pos + 2, 1, line), Step(src, pos, line);
      cs.line == line + NewlinesIn(src, pos + 2, cs.pos) &&
      cs.nest == 1 + PairsIn(src, pos + 2, cs.pos, '/', '*') - PairsIn(src, pos + 2, cs.pos, '*', '/') &&
      (cs.nest > 0 ==>
        cs.pos == |src| &&
        r == Stepped(|src|, cs.line, Reported(Diagnostic(cs.line, "Unterminated multiline comment.")))) &&
      (cs.nest == 0 ==>
        pos + 2 < cs.pos && src[cs.pos - 1] == '*' && src[cs.pos] == '/' &&
        r == if cs.pos + 1 < |src| then Stepped(cs.pos + 2, cs.line, Silent) else ReadPastEnd)
  {
    CommentCounts(src, pos + 2, 1, line);
  }

  /**
   * A string literal ends at the first quote after the opening one. Its literal is
   * the raw text between the quotes, and the newlines inside it count lines before
   * the token takes its line.
   */
  lemma StringLiterals(src: string, pos: nat, line: int, e: nat)
    requires pos < e < |src| && src[pos] == '"' && src[e] == '"'
    requires forall k :: pos < k < e ==> src[k] != '"'
    ensures var l := line + NewlinesIn(src, pos + 1, e);
      Step(src, pos, line) == Stepped(e + 1, l, Emitted(Token(String, src[pos..e + 1], StringLit(src[pos + 1..e]), l)))
  {
    StepOnQuote(src, pos, line);
    assert FindChar(src, pos + 1, '"') == e;
  }

  /** Without a closing quote, a string reports "Unterminated string." and emits no token. */
  lemma UnterminatedString(src: string, pos: nat, line: int)
    requires pos < |src| && src[pos] == '"'
    requires forall k :: pos < k < |src| ==> src[k] != '"'
    ensures var l := line + NewlinesIn(src, pos + 1, |src|);
      Step(src, pos, line) == Stepped(|src|, l, Reported(Diagnostic(l, "Unterminated string.")))
  {
    StepOnQuote(src, pos, line);
  }

  lemma StepOnQuote(src: string, pos: nat, line: int)
    requires pos < |src| && src[pos] == '"'
    ensures Step(src, pos, line) == StringLiteral(src, pos, line)
  {
  }

  predicate AllDigits(s: string) {
    forall k :: 0 <= k < |s| ==> IsDigit(s[k])
  }

  /** Digits, optionally followed by a `.` and more digits. */
  ghost predicate IsNumberText(s: string) {
    (s != [] && AllDigits(s)) ||
    exists j :: 0 < j < |s| - 1 && s[j] == '.' && AllDigits(s[..j]) && AllDigits(s[j + 1..])
  }

  /** Digits, a `.` and at least one more digit make number text. */
  lemma FractionText(src: string, pos: nat, d: nat, e: nat)
    requires pos < d && d + 1 < e <= |src| && src[d] == '.'
    requires forall k :: pos <= k < d ==> IsDigit(src[k])
    requires forall k :: d + 1 <= k < e ==> IsDigit(src[k])
    ensures IsNumberText(src[pos..e])
  {
    var text := src[pos..e];
    var j := d - pos;
    assert text[j] == '.';
    assert text[..j] == src[pos..d];
    assert text[j + 1..] == src[d + 1..e];
  }

  /**
   * A number is a maximal run of digits, with a fraction only when a digit follows
   * the `.`; without a fraction, a `.` followed by a digit cannot follow the lexeme.
   */
  lemma NumberLiterals(src: string, pos: nat, line: int)
    requires pos < |src| && IsDigit(src[pos])
    ensures var r := Step(src, pos, line);
      r.Stepped? && r.line == line && r.out.Emitted? &&
      var text := src[pos..r.next];
      r.out.token == Token(Number, text, NumberLit(text), line) &&
      IsNumberText(text) && !IsDigit(CharAt(src, r.next)) &&
      ('.' !in text ==> !(CharAt(src, r.next) == '.' && IsDigit(CharAt(src, r.next + 1))))
  {
    assert Step(src, pos, line) == NumberLiteral(src, pos, line);
    var d := DigitsEnd(src, pos + 1);
    var e := NumberEnd(src, pos + 1);
    if CharAt(src, d) == '.' && IsDigit(CharAt(src, d + 1)) {
      FractionText(src, pos, d, e);
    } else {
      assert e == d;
      assert AllDigits(src[pos..e]);
      assert '.' !in src[pos..e] by {
        forall k | pos <= k < e ensures src[k] != '.' {
          assert IsDigit(src[k]);
        }
      }
    }
  }

  /**
   * An identifier is a maximal run of letters, digits and underscores. It gets a
   * keyword kind exactly when the table holds the word, and Identifier otherwise.
   */
  lemma Words(src: string, pos: nat, line: int)
    requires pos < |src| && IsAlpha(src[pos])
    ensures var r := Step(src, pos, line);
      r.Stepped? && r.line == line && r.out.Emitted? &&
      var w := src[pos..r.next];
      (forall k :: 0 <= k < |w| ==> IsAlphaNumeric(w[k])) && !IsAlphaNumeric(CharAt(src, r.next)) &&
      r.out.token == Token(if w in Keywords then Keywords[w] else Identifier, w, Absent, line)
  {
    var e := WordEnd(src, pos + 1);
    assert Step(src, pos, line) == Word(src, pos, line) == Simple(src, pos, e, line, WordKind(src[pos..e]));
  }

  /** The reserved words, grouped by length. */
  const ShortWords: set<string> := {"if"}
  const ThreeLetterWords: set<string> := {"and", "for", "fun", "nil", "var"}
  const FourLetterWords: set<string> := {"else", "this", "true"}
  const FiveLetterWords: set<string> := {"class", "false", "print", "super", "while"}
  const LongWords: set<string> := {"return"}
  const ReservedWords: set<string> :=
    ShortWords + ThreeLetterWords + FourLetterWords + FiveLetterWords + LongWords

  /** The table holds exactly the reserved words. */
  lemma KeywordWords()
    ensures Keywords.Keys == ReservedWords
  {
  }

  /** There are 15 of them. */
  lemma KeywordCount()
    ensures |Keywords| == 15
  {
    ReservedWordCount();
    KeywordWords();
  }

  /** Sets of words of different lengths are disjoint, so their sizes add up. */
  lemma DisjointUnion(a: set<string>, b: set<string>, n: nat)
    requires forall w :: w in a ==> |w| < n
    requires forall w :: w in b ==> |w| >= n
    ensures |a + b| == |a| + |b|
  {
    assert a * b == {};
  }

  lemma ShortWordFacts()
    ensures |ShortWords| == 1 && forall w :: w in ShortWords ==> |w| == 2
  {
  }

  lemma ThreeLetterFacts()
    ensures |ThreeLetterWords| == 5 && forall w :: w in ThreeLetterWords ==> |w| == 3
  {
  }

  lemma FourLetterFacts()
    ensures |FourLetterWords| == 3 && forall w :: w in FourLetterWords ==> |w| == 4
  {
  }

  lemma FiveLetterFacts()
    ensures |FiveLetterWords| == 5 && forall w :: w in FiveLetterWords ==> |w| == 5
  {
  }

  lemma LongWordFacts()
    ensures |LongWords| == 1 && forall w :: w in LongWords ==> |w| == 6
  {
  }

  lemma ReservedWordCount()
    ensures |ReservedWords| == 15
  {
    ShortWordFacts();
    ThreeLetterFacts();
    FourLetterFacts();
    FiveLetterFacts();
    LongWordFacts();
    var s2 := ShortWords + ThreeLetterWords;
    DisjointUnion(ShortWords, ThreeLetterWords, 3);
    var s3 := s2 + FourLetterWords;
    DisjointUnion(s2, FourLetterWords, 4);
    var s4 := s3 + FiveLetterWords;
    DisjointUnion(s3, FiveLetterWords, 5);
    DisjointUnion(s4, LongWords, 6);
  }

  /** The table maps words to keyword kinds only, and `or` is not one of them. */
  lemma KeywordTable()
    ensures "or" !in Keywords
    ensures forall w :: w in Keywords ==>
      Keywords[w] in {And, Class, Else, False, For, Fun, If, Nil, Print, Return, Super, This, True, Var, While}
  {
  }

  /** The characters some rule of `scanToken` handles. */
  predicate Handled(c: char) {
    c in {' ', '\t', '\r', '\n', '(', ')', '{', '}', ',', '.', '-', '+', '*', ';', '!', '=', '<', '>', '/', '"'} ||
    IsDigit(c) || IsAlpha(c)
  }

  /** Any other character is reported on its line, emits nothing, and scanning goes on after it. */
  lemma UnexpectedCharacter(src: string, pos: nat, line: int)
    requires pos < |src| && !Handled(src[pos])
    ensures Step(src, pos, line) == Stepped(pos + 1, line, Reported(Diagnostic(line, "Unexpected character: " + [src[pos]])))
  {
  }
}
