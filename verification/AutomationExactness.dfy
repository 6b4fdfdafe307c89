/** The analysis on the text of a program, for every layout of that text with blanks and comments: the
    lexer returns the program's tokens, and so the analysis is complete exactly on the programs it is
    meant for, and reports exactly the reads written in them.
 */
module AutomationExactness {
  import opened AutomationDependencies
  import opened ScriptLanguage
  import opened ScriptFindings

  ghost predicate At(text: string, i: nat, s: string) {
    i + |s| <= |text| && text[i..i + |s|] == s
  }

  lemma AtBoth(text: string, i: nat, a: string, b: string)
    requires At(text, i, a + b)
    ensures At(text, i, a) && At(text, i + |a|, b)
  {
    assert a == (a + b)[..|a|] && b == (a + b)[|a|..];
  }

  lemma AtFits(text: string, i: nat, s: string)
    requires At(text, i, s)
    ensures i + |s| <= |text|
  {
  }

  lemma AtChar(text: string, i: nat, s: string, k: nat)
    requires At(text, i, s) && k < |s|
    ensures i + k < |text| && text[i + k] == s[k]
  {
    assert text[i..i + |s|][k] == s[k];
  }

  // ---------------------------------------------------------------- gaps are skipped

  lemma {:induction false} LineEndsAt(text: string, i: nat, t: string)
    requires At(text, i, t + "\n") && '\n' !in t
    ensures LineEnd(text, i) == i + |t|
    decreases |t|
  {
    AtChar(text, i, t + "\n", 0);
    if t != "" {
      assert t + "\n" == [t[0]] + (t[1..] + "\n");
      AtBoth(text, i, [t[0]], t[1..] + "\n");
      LineEndsAt(text, i + 1, t[1..]);
    }
  }

  lemma {:induction false} CommentClosesAt(text: string, i: nat, t: string)
    requires At(text, i, t + "*/") && forall k | 0 <= k < |t| - 1 :: !(t[k] == '*' && t[k + 1] == '/')
    ensures CommentClose(text, i) == i + |t|
    decreases |t|
  {
    AtChar(text, i, t + "*/", 0);
    AtChar(text, i, t + "*/", 1);
    if t != "" {
      assert t + "*/" == [t[0]] + (t[1..] + "*/");
      AtBoth(text, i, [t[0]], t[1..] + "*/");
      var u := t[1..];
      forall k | 0 <= k < |u| - 1 ensures !(u[k] == '*' && u[k + 1] == '/') {
        assert u[k] == t[k + 1] && u[k + 1] == t[k + 2];
      }
      CommentClosesAt(text, i + 1, u);
    }
  }

  lemma PieceSkipped(text: string, i: nat, piece: GapPiece, s: Lexing)
    requires piece.Valid() && At(text, i, piece.Print())
    ensures Lex(text, i, s) == Lex(text, i + |piece.Print()|, s)
  {
    hide *;
    match piece
    case Blank(_) => BlankSkipped(text, i, piece, s);
    case LineComment(t) =>
      LineText(t);
      LineSkipped(text, i, t, s);
    case BlockComment(t) =>
      BlockText(t);
      BlockSkipped(text, i, t, s);
  }

  lemma LineText(t: string)
    ensures LineComment(t).Print() == "/" + (("/" + t) + "\n") && |LineComment(t).Print()| == |t| + 3
    ensures LineComment(t).Valid() ==> '\n' !in "/" + t
  {
  }

  lemma BlockText(t: string)
    ensures |BlockComment(t).Print()| == |t| + 4
  {
  }

  lemma LexLine(text: string, i: nat, s: Lexing)
    requires i + 1 < |text| && text[i] == '/' && text[i + 1] == '/'
    ensures Lex(text, i, s) == Lex(text, LineEnd(text, i + 1), s)
  {
    hide LineEnd, CommentClose;
  }

  lemma LexSpace(text: string, i: nat, s: Lexing)
    requires i < |text| && IsSpace(text[i])
    ensures Lex(text, i, s) == Lex(text, i + 1, s)
  {
    hide LineEnd, CommentClose;
  }

  lemma BlankSkipped(text: string, i: nat, piece: GapPiece, s: Lexing)
    requires piece.Blank? && piece.Valid() && At(text, i, piece.Print())
    ensures Lex(text, i, s) == Lex(text, i + |piece.Print()|, s)
  {
    hide LineEnd, CommentClose;
    AtChar(text, i, piece.Print(), 0);
  }

  lemma LineSkipped(text: string, i: nat, t: string, s: Lexing)
    requires LineComment(t).Valid() && At(text, i, LineComment(t).Print())
    ensures Lex(text, i, s) == Lex(text, i + |t| + 3, s)
  {
    hide Lex, LineEnd, At, GapPiece.Valid, GapPiece.Print;
    LineText(t);
    AtBoth(text, i, "/", ("/" + t) + "\n");
    AtChar(text, i, "/", 0);
    AtChar(text, i + 1, ("/" + t) + "\n", 0);
    AtChar(text, i + 1, ("/" + t) + "\n", |t| + 1);
    LineEndsAt(text, i + 1, "/" + t);
    LexLine(text, i, s);
    LexSpace(text, i + |t| + 2, s);
  }

  lemma BlockSkipped(text: string, i: nat, t: string, s: Lexing)
    requires BlockComment(t).Valid() && At(text, i, BlockComment(t).Print())
    ensures Lex(text, i, s) == Lex(text, i + |t| + 4, s)
  {
    hide LineEnd, CommentClose;
    var p := BlockComment(t).Print();
    AtChar(text, i, p, 0);
    AtChar(text, i, p, 1);
    assert p == "/*" + (t + "*/");
    AtBoth(text, i, "/*", t + "*/");
    CommentClosesAt(text, i + 2, t);
  }

  lemma {:induction false} GapSkipped(text: string, i: nat, gap: Gap, s: Lexing)
    requires (forall piece | piece in gap :: piece.Valid()) && At(text, i, PrintGap(gap))
    ensures Lex(text, i, s) == Lex(text, i + |PrintGap(gap)|, s)
    decreases |gap|
  {
    hide Lex, GapPiece.Valid, GapPiece.Print, At;
    AtFits(text, i, PrintGap(gap));
    if gap != [] {
      AtBoth(text, i, gap[0].Print(), PrintGap(gap[1..]));
      PieceSkipped(text, i, gap[0], s);
      GapSkipped(text, i + |gap[0].Print()|, gap[1..], s);
    }
  }

  // ---------------------------------------------------------------- lexemes are tokenized

  predicate IsSymbol(c: char) {
    IsOperatorChar(c) || c == '(' || c == ')' || c == '{' || c == '}' || c == ',' || c == ';'
  }

  predicate ValidLexeme(x: Lexeme) {
    match x
    case Word(text) => IsWord(text) || IsNumber(text)
    case Literal(quote, raw) => (quote == '\'' || quote == '"') && IsRaw(quote, raw)
    case Symbol(c) => IsSymbol(c)
  }

  predicate WordStops(text: string, e: nat) {
    e >= |text| || !(IsWordChar(text[e]) || IsNumberChar(text[e]))
  }

  /** What the lexer's state becomes by one lexeme. */
  function Absorb(x: Lexeme, s: Lexing): Lexing {
    match x
    case Word(_) => s.Push(ToToken(x))
    case Literal(_, raw) => s.Doubt(SpansLines(raw), "multiline_string").Push(ToToken(x))
    case Symbol(c) => s.Symbol(c)
  }

  function AbsorbAll(xs: seq<Lexeme>, s: Lexing): Lexing {
    if xs == [] then s else AbsorbAll(xs[1..], Absorb(xs[0], s))
  }

  lemma {:induction false} WordEndsAt(text: string, i: nat, w: string)
    requires At(text, i, w) && (forall k | 0 <= k < |w| :: IsWordChar(w[k])) && WordStops(text, i + |w|)
    ensures WordEnd(text, i) == i + |w|
    decreases |w|
  {
    if w != "" {
      AtChar(text, i, w, 0);
      assert w == [w[0]] + w[1..];
      AtBoth(text, i, [w[0]], w[1..]);
      WordEndsAt(text, i + 1, w[1..]);
    }
  }

  lemma {:induction false} NumberEndsAt(text: string, i: nat, w: string)
    requires At(text, i, w) && (forall k | 0 <= k < |w| :: IsNumberChar(w[k])) && WordStops(text, i + |w|)
    ensures NumberEnd(text, i) == i + |w|
    decreases |w|
  {
    if w != "" {
      AtChar(text, i, w, 0);
      assert w == [w[0]] + w[1..];
      AtBoth(text, i, [w[0]], w[1..]);
      NumberEndsAt(text, i + 1, w[1..]);
    }
  }

  /** A literal's token after some more raw text. */
  function Grow(token: Token, raw: string): Token {
    token.(text := token.text + raw, escaped := token.escaped || '\\' in raw)
  }

  lemma GrowTwice(token: Token, a: string, b: string)
    ensures Grow(Grow(token, a), b) == Grow(token, a + b)
  {
    assert token.text + a + b == token.text + (a + b);
  }

  /** One character of a literal, or one escaped pair. */
  lemma QuotedStep(text: string, i: nat, quote: char, raw: string, token: Token, multiline: bool) returns (n: nat)
    requires raw != "" && At(text, i, raw + [quote]) && IsRaw(quote, raw) && quote != '\\'
    ensures n == (if raw[0] == '\\' then 2 else 1) <= |raw| && IsRaw(quote, raw[n..])
    ensures At(text, i + n, raw[n..] + [quote])
    ensures ReadQuoted(text, i, quote, token, multiline) == ReadQuoted(text, i + n, quote, Grow(token, raw[..n]),
      multiline || (n == 1 && (raw[0] == '\n' || raw[0] == '\r')))
    ensures SpansLines(raw) <==> (n == 1 && (raw[0] == '\n' || raw[0] == '\r')) || SpansLines(raw[n..])
  {
    n := if raw[0] == '\\' then 2 else 1;
    AtChar(text, i, raw + [quote], 0);
    AtChar(text, i, raw + [quote], n - 1);
    assert raw + [quote] == raw[..n] + (raw[n..] + [quote]);
    AtBoth(text, i, raw[..n], raw[n..] + [quote]);
    hide At;
    if n == 2 { assert raw[..2] == [text[i], text[i + 1]]; } else { assert raw[..1] == [text[i]]; }
  }

  lemma {:induction false} QuotedReads(text: string, i: nat, quote: char, raw: string, token: Token, multiline: bool)
    requires At(text, i, raw + [quote]) && IsRaw(quote, raw) && quote != '\\'
    ensures ReadQuoted(text, i, quote, token, multiline)
      == Quoted(Grow(token, raw), i + |raw| + 1, true, multiline || SpansLines(raw))
    decreases |raw|
  {
    if raw == "" {
      AtChar(text, i, raw + [quote], 0);
      assert token.text + raw == token.text;
    } else {
      var n := QuotedStep(text, i, quote, raw, token, multiline);
      hide At, IsRaw, ReadQuoted, SpansLines, Grow;
      var line := n == 1 && (raw[0] == '\n' || raw[0] == '\r');
      QuotedReads(text, i + n, quote, raw[n..], Grow(token, raw[..n]), multiline || line);
      GrowTwice(token, raw[..n], raw[n..]);
      assert raw[..n] + raw[n..] == raw;
    }
  }

  lemma LexemeAbsorbed(text: string, i: nat, x: Lexeme, s: Lexing)
    requires ValidLexeme(x) && At(text, i, PrintLexeme(x)) && (x.Word? ==> WordStops(text, i + |PrintLexeme(x)|))
    ensures Lex(text, i, s) == Lex(text, i + |PrintLexeme(x)|, Absorb(x, s))
  {
    match x
    case Word(w) => WordAbsorbed(text, i, w, s);
    case Literal(quote, raw) => LiteralAbsorbed(text, i, quote, raw, s);
    case Symbol(c) => SymbolAbsorbed(text, i, c, s);
  }

  lemma WordAbsorbed(text: string, i: nat, w: string, s: Lexing)
    requires (IsWord(w) || IsNumber(w)) && At(text, i, w) && WordStops(text, i + |w|)
    ensures Lex(text, i, s) == Lex(text, i + |w|, s.Push(Plain(w)))
  {
    AtChar(text, i, w, 0);
    AtTail(text, i, w);
    if IsWord(w) { WordEndsAt(text, i + 1, w[1..]); } else { NumberEndsAt(text, i + 1, w[1..]); }
    hide WordEnd, NumberEnd, LineEnd, CommentClose, ReadQuoted, Lexing.Push;
  }

  lemma AtTail(text: string, i: nat, w: string)
    requires w != "" && At(text, i, w)
    ensures At(text, i + 1, w[1..])
  {
    assert w == [w[0]] + w[1..];
    AtBoth(text, i, [w[0]], w[1..]);
  }

  lemma LiteralAbsorbed(text: string, i: nat, quote: char, raw: string, s: Lexing)
    requires (quote == '\'' || quote == '"') && IsRaw(quote, raw) && At(text, i, [quote] + raw + [quote])
    ensures Lex(text, i, s) ==
      Lex(text, i + |raw| + 2, s.Doubt(SpansLines(raw), "multiline_string").Push(Token(raw, true, '\\' in raw)))
  {
    hide *;
    AtChar(text, i, [quote] + raw + [quote], 0);
    assert [quote] + raw + [quote] == [quote] + (raw + [quote]);
    AtBoth(text, i, [quote], raw + [quote]);
    AtFits(text, i + 1, raw + [quote]);
    QuotedReads(text, i + 1, quote, raw, Token("", true, false), false);
    GrowFromNothing(raw);
    LexQuoted(text, i, Token(raw, true, '\\' in raw), i + |raw| + 2, SpansLines(raw), s);
  }

  lemma GrowFromNothing(raw: string)
    ensures Grow(Token("", true, false), raw) == Token(raw, true, '\\' in raw)
  {
    assert "" + raw == raw;
  }

  lemma LexQuoted(text: string, i: nat, token: Token, next: nat, multiline: bool, s: Lexing)
    requires i < |text| && (text[i] == '\'' || text[i] == '"') && next <= |text|
    requires ReadQuoted(text, i + 1, text[i], Token("", true, false), false) == Quoted(token, next, true, multiline)
    ensures Lex(text, i, s) == Lex(text, next, s.Doubt(multiline, "multiline_string").Push(token))
  {
    hide WordEnd, NumberEnd, LineEnd, CommentClose, ReadQuoted, Lexing.Push, Lexing.Doubt;
  }

  lemma SymbolAbsorbed(text: string, i: nat, c: char, s: Lexing)
    requires IsSymbol(c) && At(text, i, [c])
    ensures Lex(text, i, s) == Lex(text, i + 1, s.Symbol(c))
  {
    AtChar(text, i, [c], 0);
    hide WordEnd, NumberEnd, LineEnd, CommentClose, ReadQuoted, Lexing.Symbol;
  }

  // ---------------------------------------------------------------- whole layouts

  lemma GapStart(gap: Gap, rest: string)
    requires (forall piece | piece in gap :: piece.Valid()) && gap != []
    ensures |PrintGap(gap)| > 0 && WordStops(PrintGap(gap) + rest, 0)
  {
    assert gap[0].Valid();
    assert (PrintGap(gap) + rest)[0] == gap[0].Print()[0];
  }

  /** Behind a word of a layout no word goes on. */
  lemma LayoutStops(xs: seq<Lexeme>, gaps: seq<Gap>)
    requires Spaced(xs, gaps) && (forall x | x in xs :: ValidLexeme(x)) && (xs != [] && xs[0].Word? ==> gaps[0] != [])
    ensures WordStops(Print(xs, gaps), 0)
  {
    hide PrintGap, Print, ValidLexeme, GapPiece.Valid, WordStops, PrintLexeme;
    assert gaps[0] in gaps;
    LayoutUnfold(xs, gaps);
    if gaps[0] != [] {
      GapStart(gaps[0], if xs == [] then "" else PrintLexeme(xs[0]) + Print(xs[1..], gaps[1..]));
    } else if xs == [] {
      NothingStops();
    } else {
      LexemeStart(xs[0], Print(xs[1..], gaps[1..]));
    }
  }

  lemma NothingStops()
    ensures WordStops(PrintGap([]) + "", 0)
  {
  }

  lemma LexemeStart(x: Lexeme, rest: string)
    requires ValidLexeme(x) && !x.Word?
    ensures WordStops(PrintGap([]) + (PrintLexeme(x) + rest), 0)
  {
    var c := if x.Literal? then x.quote else x.c;
    assert PrintLexeme(x)[0] == c;
    assert (PrintGap([]) + (PrintLexeme(x) + rest))[0] == c;
  }

  lemma LayoutUnfold(xs: seq<Lexeme>, gaps: seq<Gap>)
    requires |gaps| == |xs| + 1
    ensures Print(xs, gaps)
      == PrintGap(gaps[0]) + (if xs == [] then "" else PrintLexeme(xs[0]) + Print(xs[1..], gaps[1..]))
  {
    hide PrintGap, PrintLexeme;
    assert PrintGap(gaps[0]) + "" == PrintGap(gaps[0]);
  }

  lemma SpacedTail(xs: seq<Lexeme>, gaps: seq<Gap>)
    requires Spaced(xs, gaps) && xs != []
    ensures Spaced(xs[1..], gaps[1..])
    ensures |xs| > 1 && xs[0].Word? && xs[1].Word? ==> gaps[1] != []
  {
    hide GapPiece.Valid;
    var ys, hs := xs[1..], gaps[1..];
    assert |hs| == |ys| + 1;
    forall g | g in hs ensures forall piece | piece in g :: piece.Valid() { assert g in gaps; }
    forall i | 0 < i < |ys| ensures ys[i - 1].Word? && ys[i].Word? ==> hs[i] != [] {
      assert ys[i - 1] == xs[i] && ys[i] == xs[i + 1] && hs[i] == gaps[i + 1];
    }
  }

  lemma {:induction false} LayoutAbsorbed(text: string, i: nat, xs: seq<Lexeme>, gaps: seq<Gap>, s: Lexing)
    requires Spaced(xs, gaps) && forall x | x in xs :: ValidLexeme(x)
    requires i <= |text| && text[i..] == Print(xs, gaps)
    ensures Lex(text, i, s) == AbsorbAll(xs, s)
    decreases |xs|
  {
    hide Lex, ValidLexeme, GapPiece.Valid, PrintGap, PrintLexeme, Absorb, WordStops;
    assert gaps[0] in gaps;
    assert text[i..i + |Print(xs, gaps)|] == Print(xs, gaps);
    if xs == [] {
      GapSkipped(text, i, gaps[0], s);
      LexEnds(text, s);
    } else {
      var x, rest := xs[0], Print(xs[1..], gaps[1..]);
      AtBoth(text, i, PrintGap(gaps[0]), PrintLexeme(x) + rest);
      var m := i + |PrintGap(gaps[0])|;
      AtBoth(text, m, PrintLexeme(x), rest);
      GapSkipped(text, i, gaps[0], s);
      var e := m + |PrintLexeme(x)|;
      assert text[e..] == rest;
      SpacedTail(xs, gaps);
      if x.Word? {
        LayoutStops(xs[1..], gaps[1..]);
        StopsThere(text, e);
      }
      LexemeAbsorbed(text, m, x, s);
      LayoutAbsorbed(text, e, xs[1..], gaps[1..], Absorb(x, s));
    }
  }

  lemma LexEnds(text: string, s: Lexing)
    ensures Lex(text, |text|, s) == s
  {
  }

  lemma StopsThere(text: string, e: nat)
    requires e <= |text| && WordStops(text[e..], 0)
    ensures WordStops(text, e)
  {
  }

  // ---------------------------------------------------------------- what a program leaves in the lexer

  function Tokens(xs: seq<Lexeme>): seq<Token> { seq(|xs|, i requires 0 <= i < |xs| => ToToken(xs[i])) }

  predicate OneLined(xs: seq<Lexeme>) {
    forall x | x in xs :: x.Literal? ==> !SpansLines(x.raw)
  }

  lemma {:induction false} AbsorbTokens(xs: seq<Lexeme>, s: Lexing)
    ensures AbsorbAll(xs, s).tokens == s.tokens + Tokens(xs) && AbsorbAll(xs, s).aborted == s.aborted
    decreases |xs|
  {
    if xs != [] {
      AbsorbTokens(xs[1..], Absorb(xs[0], s));
      assert Tokens(xs) == [ToToken(xs[0])] + Tokens(xs[1..]);
    }
  }

  lemma {:induction false} AbsorbBoth(a: seq<Lexeme>, b: seq<Lexeme>, s: Lexing)
    ensures AbsorbAll(a + b, s) == AbsorbAll(b, AbsorbAll(a, s))
    decreases |a|
  {
    hide Absorb;
    if a == [] {
      assert a + b == b;
    } else {
      assert (a + b)[1..] == a[1..] + b;
      AbsorbBoth(a[1..], b, Absorb(a[0], s));
    }
  }

  /** These lexemes leave the delimiter stack as it was and raise no doubt but about lines. */
  ghost predicate Neutral(xs: seq<Lexeme>, s: Lexing) {
    && AbsorbAll(xs, s).delimiters == s.delimiters
    && (AbsorbAll(xs, s).result.complete <==> s.result.complete && OneLined(xs))
  }

  lemma NeutralBoth(a: seq<Lexeme>, b: seq<Lexeme>, s: Lexing)
    requires Neutral(a, s) && Neutral(b, AbsorbAll(a, s))
    ensures Neutral(a + b, s)
  {
    hide AbsorbAll, SpansLines;
    AbsorbBoth(a, b, s);
  }

  lemma NeutralOne(x: Lexeme, s: Lexing)
    requires ValidLexeme(x) && (x.Symbol? ==> x.c != '(' && x.c != ')' && x.c != '{' && x.c != '}')
    ensures Neutral([x], s)
  {
    assert AbsorbAll([x], s) == Absorb(x, s) by { assert [x][1..] == []; }
    assert x in [x];
  }

  /** Matching delimiters around neutral lexemes. */
  lemma NeutralEnclosed(open: char, close: char, xs: seq<Lexeme>, s: Lexing)
    requires (open == '(' && close == ')') || (open == '{' && close == '}')
    requires Neutral(xs, s.Symbol(open))
    ensures Neutral([Symbol(open)] + xs + [Symbol(close)], s)
  {
    var s1 := s.Symbol(open);
    var s2 := AbsorbAll(xs, s1);
    assert AbsorbAll([Symbol(open)], s) == s1 by { assert [Symbol(open)][1..] == []; }
    assert AbsorbAll([Symbol(close)], s2) == s2.Symbol(close) by { assert [Symbol(close)][1..] == []; }
    AbsorbBoth([Symbol(open)], xs, s);
    AbsorbBoth([Symbol(open)] + xs, [Symbol(close)], s);
    hide AbsorbAll, SpansLines;
    assert s2.delimiters == s.delimiters + [open];
    assert s2.Symbol(close).delimiters == s.delimiters;
    assert OneLined([Symbol(open)] + xs + [Symbol(close)]) <==> OneLined(xs);
  }

  ghost predicate AllValid(xs: seq<Lexeme>) { forall x | x in xs :: ValidLexeme(x) }

  lemma {:induction false} SymbolsNeutral(op: string, s: Lexing)
    requires forall i | 0 <= i < |op| :: IsOperatorChar(op[i])
    ensures Neutral(Symbols(op), s) && AllValid(Symbols(op))
    decreases |op|
  {
    hide AbsorbAll, Neutral;
    if op == "" {
      NothingNeutral(s);
    } else {
      NeutralOne(Symbol(op[0]), s);
      SymbolsNeutral(op[1..], AbsorbAll([Symbol(op[0])], s));
      NeutralBoth([Symbol(op[0])], Symbols(op[1..]), s);
    }
  }

  lemma NothingNeutral(s: Lexing)
    ensures Neutral([], s)
  {
  }

  lemma {:induction false} ExprNeutral(e: Expr, s: Lexing)
    requires Formed(e)
    ensures Neutral(Lexemes(e), s) && AllValid(Lexemes(e))
    decreases e, 0
  {
    hide AbsorbAll, Neutral, IsWord, IsNumber, IsRaw;
    match e
    case Text(quote, raw) => NeutralOne(Literal(quote, raw), s);
    case Number(digits) => NeutralOne(Word(digits), s);
    case Name(name) => NeutralOne(Word(name), s);
    case Call(callee, args) => CallNeutral(callee, args, s);
    case Infix(left, op, right) =>
      ExprNeutral(left, s);
      SymbolsNeutral(op, AbsorbAll(Lexemes(left), s));
      ExprNeutral(right, AbsorbAll(Lexemes(left) + Symbols(op), s));
      ThreeNeutral(Lexemes(left), Symbols(op), Lexemes(right), s);
    case Prefix(sign, operand) =>
      SymbolsNeutral(sign, s);
      ExprNeutral(operand, AbsorbAll(Symbols(sign), s));
      NeutralBoth(Symbols(sign), Lexemes(operand), s);
    case Paren(inner) =>
      ExprNeutral(inner, s.Symbol('('));
      NeutralEnclosed('(', ')', Lexemes(inner), s);
  }

  lemma ThreeNeutral(a: seq<Lexeme>, b: seq<Lexeme>, c: seq<Lexeme>, s: Lexing)
    requires Neutral(a, s) && Neutral(b, AbsorbAll(a, s)) && Neutral(c, AbsorbAll(a + b, s))
    ensures Neutral(a + b + c, s)
  {
    hide Neutral, AbsorbAll;
    NeutralBoth(a, b, s);
    NeutralBoth(a + b, c, s);
  }

  lemma {:induction false} CallNeutral(callee: string, args: seq<Expr>, s: Lexing)
    requires IsWord(callee) && forall a | a in args :: Formed(a)
    ensures Neutral(Lexemes(Call(callee, args)), s) && AllValid(Lexemes(Call(callee, args)))
    decreases args, 2
  {
    hide AbsorbAll, Neutral, IsWord, ArgLexemes, Formed;
    NeutralOne(Word(callee), s);
    var s1 := AbsorbAll([Word(callee)], s);
    ArgsNeutral(args, s1.Symbol('('));
    NeutralEnclosed('(', ')', ArgLexemes(args), s1);
    NeutralBoth([Word(callee)], [Symbol('(')] + ArgLexemes(args) + [Symbol(')')], s);
    assert Lexemes(Call(callee, args)) == [Word(callee)] + ([Symbol('(')] + ArgLexemes(args) + [Symbol(')')]);
  }

  lemma {:induction false} ArgsNeutral(args: seq<Expr>, s: Lexing)
    requires forall a | a in args :: Formed(a)
    ensures Neutral(ArgLexemes(args), s) && AllValid(ArgLexemes(args))
    decreases args, 1
  {
    hide AbsorbAll, Neutral, Formed, Lexemes;
    if args == [] {
      NothingNeutral(s);
    } else {
      ExprNeutral(args[0], s);
      if |args| > 1 {
        var s1 := AbsorbAll(Lexemes(args[0]), s);
        NeutralOne(Symbol(','), s1);
        NeutralBoth(Lexemes(args[0]), [Symbol(',')], s);
        ArgsNeutral(args[1..], AbsorbAll(Lexemes(args[0]) + [Symbol(',')], s));
        NeutralBoth(Lexemes(args[0]) + [Symbol(',')], ArgLexemes(args[1..]), s);
      }
    }
  }

  /** An expression between two neutral surroundings. */
  lemma Surrounded(before: seq<Lexeme>, e: Expr, c: char, s: Lexing)
    requires Formed(e) && Neutral(before, s) && AllValid(before) && (c == ';')
    ensures Neutral(before + Lexemes(e) + [Symbol(c)], s) && AllValid(before + Lexemes(e) + [Symbol(c)])
  {
    hide AbsorbAll, Neutral, Formed, Lexemes;
    ExprNeutral(e, AbsorbAll(before, s));
    NeutralBoth(before, Lexemes(e), s);
    NeutralOne(Symbol(c), AbsorbAll(before + Lexemes(e), s));
    NeutralBoth(before + Lexemes(e), [Symbol(c)], s);
  }

  lemma TwoNeutral(x: Lexeme, y: Lexeme, s: Lexing)
    requires ValidLexeme(x) && ValidLexeme(y) && x.Word?
    requires y.Symbol? ==> y.c != '(' && y.c != ')' && y.c != '{' && y.c != '}'
    ensures Neutral([x, y], s)
  {
    hide AbsorbAll, Neutral, ValidLexeme;
    NeutralOne(x, s);
    NeutralOne(y, AbsorbAll([x], s));
    NeutralBoth([x], [y], s);
    assert [x] + [y] == [x, y];
  }

  lemma {:induction false} StmtNeutral(stmt: Stmt, s: Lexing)
    requires StmtFormed(stmt)
    ensures Neutral(StmtLexemes(stmt), s) && AllValid(StmtLexemes(stmt))
    decreases stmt, 4
  {
    hide AbsorbAll, Neutral, Formed, Lexemes, IsWord, Block;
    match stmt
    case Declare(keyword, variable, value) =>
      KeywordIsWord(keyword);
      TwoNeutral(Word(keyword), Word(variable), s);
      NeutralOne(Symbol('='), AbsorbAll([Word(keyword), Word(variable)], s));
      NeutralBoth([Word(keyword), Word(variable)], [Symbol('=')], s);
      var before := [Word(keyword), Word(variable), Symbol('=')];
      assert [Word(keyword), Word(variable)] + [Symbol('=')] == before;
      Surrounded(before, value, ';', s);
    case Assign(variable, value) =>
      TwoNeutral(Word(variable), Symbol('='), s);
      Surrounded([Word(variable), Symbol('=')], value, ';', s);
    case Do(expr) =>
      NothingNeutral(s);
      Surrounded([], expr, ';', s);
      assert [] + Lexemes(expr) == Lexemes(expr);
    case If(cond, thn, hasElse, els) =>
      IfNeutral(stmt, s);
  }

  lemma KeywordIsWord(keyword: string)
    requires keyword == "let" || keyword == "const" || keyword == "var" || keyword == "else" || keyword == "if"
    ensures IsWord(keyword)
  {
  }

  lemma {:induction false} IfNeutral(stmt: Stmt, s: Lexing)
    requires stmt.If? && StmtFormed(stmt)
    ensures Neutral(StmtLexemes(stmt), s) && AllValid(StmtLexemes(stmt))
    decreases stmt, 3
  {
    hide AbsorbAll, Neutral, Formed, Lexemes, IsWord, Block;
    var cond := Lexemes(stmt.cond);
    KeywordIsWord("if");
    KeywordIsWord("else");
    NeutralOne(Word("if"), s);
    var s1 := AbsorbAll([Word("if")], s);
    ExprNeutral(stmt.cond, s1.Symbol('('));
    NeutralEnclosed('(', ')', cond, s1);
    NeutralBoth([Word("if")], [Symbol('(')] + cond + [Symbol(')')], s);
    var head := [Word("if")] + ([Symbol('(')] + cond + [Symbol(')')]);
    assert head == [Word("if"), Symbol('(')] + cond + [Symbol(')')];
    BlockNeutral(stmt.thn, AbsorbAll(head, s));
    NeutralBoth(head, Block(stmt.thn), s);
    var first := head + Block(stmt.thn);
    if stmt.hasElse {
      var s2 := AbsorbAll(first, s);
      NeutralOne(Word("else"), s2);
      BlockNeutral(stmt.els, AbsorbAll([Word("else")], s2));
      NeutralBoth([Word("else")], Block(stmt.els), s2);
      NeutralBoth(first, [Word("else")] + Block(stmt.els), s);
    } else {
      assert first + [] == first;
    }
  }

  lemma {:induction false} BlockNeutral(body: seq<Stmt>, s: Lexing)
    requires forall stmt | stmt in body :: StmtFormed(stmt)
    ensures Neutral(Block(body), s) && AllValid(Block(body))
    decreases body, 2
  {
    hide AbsorbAll, Neutral, StmtFormed, ProgramLexemes;
    ProgramNeutral(body, s.Symbol('{'));
    NeutralEnclosed('{', '}', ProgramLexemes(body), s);
  }

  lemma {:induction false} ProgramNeutral(program: seq<Stmt>, s: Lexing)
    requires forall stmt | stmt in program :: StmtFormed(stmt)
    ensures Neutral(ProgramLexemes(program), s) && AllValid(ProgramLexemes(program))
    decreases program, 1
  {
    hide AbsorbAll, Neutral, StmtFormed, StmtLexemes;
    if program == [] {
      NothingNeutral(s);
    } else {
      StmtNeutral(program[0], s);
      ProgramNeutral(program[1..], AbsorbAll(StmtLexemes(program[0]), s));
      NeutralBoth(StmtLexemes(program[0]), ProgramLexemes(program[1..]), s);
    }
  }

  // ---------------------------------------------------------------- the theorems

  ghost predicate Formatted(program: seq<Stmt>, gaps: seq<Gap>) {
    (forall stmt | stmt in program :: StmtFormed(stmt)) && Spaced(ProgramLexemes(program), gaps)
  }

  function Source(program: seq<Stmt>, gaps: seq<Gap>): string
    requires |gaps| == |ProgramLexemes(program)| + 1
  {
    Print(ProgramLexemes(program), gaps)
  }

  /** What the lexer makes of a layout of a program. */
  lemma SourceLexed(program: seq<Stmt>, gaps: seq<Gap>)
    requires Formatted(program, gaps)
    ensures
      var xs, lexed := ProgramLexemes(program), Lex(Source(program, gaps), 0, START);
      && !lexed.aborted && lexed.tokens == Tokens(xs) && lexed.delimiters == []
      && (lexed.result.complete <==> OneLined(xs))
  {
    hide Lex, StmtFormed, ProgramLexemes, Print, AbsorbAll, Absorb, OneLined, Tokens;
    var xs, text := ProgramLexemes(program), Source(program, gaps);
    ProgramNeutral(program, START);
    assert text[0..] == text;
    LayoutAbsorbed(text, 0, xs, gaps, START);
    AbsorbTokens(xs, START);
    assert [] + Tokens(xs) == Tokens(xs);
  }

  lemma FormattedIsFormed(program: seq<Stmt>, gaps: seq<Gap>)
    requires Formatted(program, gaps)
    ensures |gaps| == |ProgramLexemes(program)| + 1 && forall stmt | stmt in program :: StmtFormed(stmt)
  {
  }

  lemma TokensHold(xs: seq<Lexeme>)
    ensures Holds(Tokens(xs), 0, xs) && |Tokens(xs)| == |xs|
  {
    assert forall k | 0 <= k < |xs| :: Tokens(xs)[0 + k] == ToToken(xs[k]);
  }

  /** What the scan finds in the tokens of a program. */
  lemma SourceScanned(program: seq<Stmt>)
    requires forall stmt | stmt in program :: StmtFormed(stmt)
    ensures
      var tokens := Tokens(ProgramLexemes(program));
      && (Clean(tokens, 0, |tokens|) <==> forall stmt | stmt in program :: StmtRestricted(stmt))
      && (Clean(tokens, 0, |tokens|) ==> ReadsIn(tokens, 0, |tokens|) == ProgramWritten(program))
  {
    hide StmtFormed, StmtRestricted, ProgramLexemes, ProgramWritten, Clean, ReadsIn, Tokens, Holds;
    TokensHold(ProgramLexemes(program));
    ProgramFinds(Tokens(ProgramLexemes(program)), 0, program);
  }

  /** On every layout of every program, the analysis is complete if and only if all its calls are of the
      understood kinds and no literal spans lines; and then it reports exactly the reads written in the
      program, on every branch, and none from comments, literals or write targets. */
  lemma AnalysisIsExact(program: seq<Stmt>, gaps: seq<Gap>)
    requires Formatted(program, gaps)
    ensures var d := Analysis(Source(program, gaps));
      && (d.complete <==> (forall stmt | stmt in program :: StmtRestricted(stmt)) && OneLined(ProgramLexemes(program)))
      && (d.complete ==> d.tagReads == ProgramWritten(program))
  {
    hide *;
    FormattedIsFormed(program, gaps);
    SourceLexed(program, gaps);
    SourceScanned(program);
    AnalysisMeans(Source(program, gaps));
  }
}
