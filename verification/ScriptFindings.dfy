/** What the call scan finds on the tokens of a program: it is clean exactly on restricted programs, and
    then its reads are exactly the reads written in the program.
 */
module ScriptFindings {
  import opened AutomationDependencies
  import opened ScriptLanguage

  // ---------------------------------------------------------------- lexemes in a token sequence

  function ToToken(x: Lexeme): Token {
    match x
    case Word(text) => Plain(text)
    case Literal(_, raw) => Token(raw, true, '\\' in raw)
    case Symbol(c) => Plain([c])
  }

  ghost predicate Holds(tokens: seq<Token>, i: nat, xs: seq<Lexeme>) {
    i + |xs| <= |tokens| && forall k | 0 <= k < |xs| :: tokens[i + k] == ToToken(xs[k])
  }

  lemma HoldsBoth(tokens: seq<Token>, i: nat, a: seq<Lexeme>, b: seq<Lexeme>)
    requires Holds(tokens, i, a + b)
    ensures Holds(tokens, i, a) && Holds(tokens, i + |a|, b)
  {
    forall k | 0 <= k < |a| ensures tokens[i + k] == ToToken(a[k]) { assert (a + b)[k] == a[k]; }
    forall k | 0 <= k < |b| ensures tokens[i + |a| + k] == ToToken(b[k]) {
      assert (a + b)[|a| + k] == b[k];
      assert tokens[i + (|a| + k)] == ToToken((a + b)[|a| + k]);
    }
  }

  lemma HoldsFits(tokens: seq<Token>, i: nat, xs: seq<Lexeme>)
    requires Holds(tokens, i, xs)
    ensures i + |xs| <= |tokens|
  {
  }

  lemma HoldsOne(tokens: seq<Token>, i: nat, x: Lexeme)
    requires Holds(tokens, i, [x])
    ensures i < |tokens| && tokens[i] == ToToken(x)
  {
    assert tokens[i + 0] == ToToken([x][0]);
  }

  /** The segment i..j: clean or not, and its reads when clean. */
  ghost predicate Finds(tokens: seq<Token>, i: nat, j: nat, clean: bool, written: set<TagKey>) {
    && i <= j <= |tokens|
    && (Clean(tokens, i, j) <==> clean)
    && (clean ==> ReadsIn(tokens, i, j) == written)
  }

  lemma FindsBoth(tokens: seq<Token>, i: nat, j: nat, k: nat, c1: bool, c2: bool, w1: set<TagKey>, w2: set<TagKey>)
    requires Finds(tokens, i, j, c1, w1) && Finds(tokens, j, k, c2, w2)
    ensures Finds(tokens, i, k, c1 && c2, w1 + w2)
  {
    hide FindingAt;
    assert Clean(tokens, i, k) <==> Clean(tokens, i, j) && Clean(tokens, j, k);
    assert ReadsIn(tokens, i, k) == ReadsIn(tokens, i, j) + ReadsIn(tokens, j, k);
  }

  lemma FindsOne(tokens: seq<Token>, i: nat)
    requires i < |tokens|
    ensures Finds(tokens, i, i + 1, !FindingAt(tokens, i).Doubtful?,
      if FindingAt(tokens, i).Read? then {FindingAt(tokens, i).key} else {})
  {
    hide FindingAt;
    assert FindingAt(tokens, i).Read? ==> ReadsIn(tokens, i, i + 1) == {FindingAt(tokens, i).key};
  }

  lemma FindsNothing(tokens: seq<Token>, i: nat)
    requires i <= |tokens|
    ensures Finds(tokens, i, i, true, {})
  {
  }

  // ---------------------------------------------------------------- single tokens

  predicate IsQuietSymbol(c: char) { !StartsWord(c) }

  /** Reserved names begin with a small letter. */
  lemma ReservedStart(name: string)
    requires IsUnsupportedWord(name) || IsHelper(name)
    ensures name != "" && 'a' <= name[0] <= 'z' && |name| >= 2
  {
  }

  lemma SymbolFinding(tokens: seq<Token>, i: nat, c: char)
    requires i < |tokens| && tokens[i] == Plain([c]) && IsQuietSymbol(c)
    ensures FindingAt(tokens, i) == Nothing
  {
    assert [c][1..] == "";
    assert Lower([c]) == [ToLower(c)];
    hide IsPure, IsUnsupportedWord, IsHelper, IsPlain, IsPlainLiteral, Lower;
    if IsUnsupportedWord([ToLower(c)]) || IsHelper([ToLower(c)]) { ReservedStart([ToLower(c)]); }
  }

  lemma LiteralFinding(tokens: seq<Token>, i: nat)
    requires i < |tokens| && tokens[i].literal
    ensures FindingAt(tokens, i) == Nothing
  {
    hide IsPure, IsUnsupportedWord, IsHelper, IsPlain, IsPlainLiteral, Lower;
  }

  lemma LowerStart(name: string)
    requires name != ""
    ensures Lower(name) != "" && Lower(name)[0] == ToLower(name[0])
  {
  }

  /** A word that is not called. */
  lemma WordFinding(tokens: seq<Token>, i: nat, name: string)
    requires i < |tokens| && tokens[i] == Plain(name) && !IsPlain(tokens, i + 1, "(")
    ensures FindingAt(tokens, i).Doubtful? <==> !IsQuiet(name)
    ensures !FindingAt(tokens, i).Read?
  {
    hide IsPure, IsUnsupportedWord, IsHelper, IsPlain, IsPlainLiteral, Lower;
  }

  lemma NumbersAreQuiet(digits: string)
    requires IsNumber(digits)
    ensures IsQuiet(digits)
  {
    hide IsUnsupportedWord, IsHelper;
    LowerStart(digits);
    var name := Lower(digits);
    if IsUnsupportedWord(name) || IsHelper(name) { ReservedStart(name); }
  }

  // ---------------------------------------------------------------- operators

  lemma {:induction false} SymbolsFindNothing(tokens: seq<Token>, i: nat, op: string)
    requires Holds(tokens, i, Symbols(op)) && forall k | 0 <= k < |op| :: IsOperatorChar(op[k])
    ensures |Symbols(op)| == |op| && Finds(tokens, i, i + |op|, true, {})
    decreases op
  {
    if op == "" {
      FindsNothing(tokens, i);
    } else {
      HoldsBoth(tokens, i, [Symbol(op[0])], Symbols(op[1..]));
      HoldsOne(tokens, i, Symbol(op[0]));
      QuietSymbol(tokens, i, op[0]);
      SymbolsFindNothing(tokens, i + 1, op[1..]);
      FindsBoth(tokens, i, i + 1, i + |op|, true, true, {}, {});
    }
  }

  lemma QuietSymbol(tokens: seq<Token>, i: nat, c: char)
    requires i < |tokens| && tokens[i] == Plain([c]) && IsQuietSymbol(c)
    ensures Finds(tokens, i, i + 1, true, {})
  {
    hide FindingAt, Finds;
    SymbolFinding(tokens, i, c);
    FindsOne(tokens, i);
  }

  // ---------------------------------------------------------------- expressions

  /** What stands behind an expression is a token, and no opening parenthesis. */
  ghost predicate NotCalled(tokens: seq<Token>, j: nat) {
    j < |tokens| && !IsPlain(tokens, j, "(")
  }

  lemma SymbolNotCalled(tokens: seq<Token>, j: nat, c: char)
    requires IsPlain(tokens, j, [c]) && c != '('
    ensures NotCalled(tokens, j)
  {
    assert [c][0] != "("[0];
  }

  lemma {:induction false} FirstLexeme(e: Expr)
    requires Formed(e)
    ensures |Lexemes(e)| >= 1
    ensures e.Text? <==> |Lexemes(e)| == 1 && Lexemes(e)[0].Literal?
    ensures Lexemes(e)[0].Literal? && !e.Text? ==>
      |Lexemes(e)| >= 2 && Lexemes(e)[1].Symbol? && IsOperatorChar(Lexemes(e)[1].c)
  {
    if e.Infix? {
      FirstLexeme(e.left);
      assert Symbols(e.op)[0] == Symbol(e.op[0]);
    } else if e.Prefix? {
      assert Symbols(e.sign)[0] == Symbol(e.sign[0]);
    }
  }

  lemma {:induction false} ExprFinds(tokens: seq<Token>, i: nat, e: Expr)
    requires Formed(e) && Holds(tokens, i, Lexemes(e)) && NotCalled(tokens, i + |Lexemes(e)|)
    ensures Finds(tokens, i, i + |Lexemes(e)|, Restricted(e), Written(e))
    decreases e, 0
  {
    hide FindingAt, Finds, NotCalled, Holds, IsUnsupportedWord, IsPure, IsHelper, Lower, LiteralPair, IsQuiet;
    var j := i + |Lexemes(e)|;
    match e
    case Text(quote, raw) =>
      HoldsOne(tokens, i, Literal(quote, raw));
      LiteralFinding(tokens, i);
      FindsOne(tokens, i);
    case Number(digits) =>
      HoldsOne(tokens, i, Word(digits));
      NumbersAreQuiet(digits);
      WordFinds(tokens, i, digits);
    case Name(name) =>
      HoldsOne(tokens, i, Word(name));
      WordFinds(tokens, i, name);
    case Call(callee, args) =>
      CallFinds(tokens, i, callee, args);
    case Infix(left, op, right) =>
      var m := InfixParts(tokens, i, left, op, right);
      ExprFinds(tokens, i, left);
      SymbolsFindNothing(tokens, m, op);
      ExprFinds(tokens, m + |op|, right);
      FindsBoth(tokens, i, m, m + |op|, Restricted(left), true, Written(left), {});
      FindsBoth(tokens, i, m + |op|, j, Restricted(left), Restricted(right), Written(left) + {}, Written(right));
      assert Written(left) + {} == Written(left);
    case Prefix(sign, operand) =>
      HoldsBoth(tokens, i, Symbols(sign), Lexemes(operand));
      SymbolsFindNothing(tokens, i, sign);
      ExprFinds(tokens, i + |sign|, operand);
      FindsBoth(tokens, i, i + |sign|, j, true, Restricted(operand), {}, Written(operand));
      assert {} + Written(operand) == Written(operand);
    case Paren(inner) =>
      ParenFinds(tokens, i, inner);
  }

  lemma WordFinds(tokens: seq<Token>, i: nat, name: string)
    requires i < |tokens| && tokens[i] == Plain(name) && NotCalled(tokens, i + 1)
    ensures Finds(tokens, i, i + 1, IsQuiet(name), {})
  {
    hide FindingAt, Finds, IsQuiet;
    WordFinding(tokens, i, name);
    FindsOne(tokens, i);
  }

  lemma InfixParts(tokens: seq<Token>, i: nat, left: Expr, op: string, right: Expr) returns (m: nat)
    requires IsOperator(op) && Holds(tokens, i, Lexemes(left) + Symbols(op) + Lexemes(right))
    ensures m == i + |Lexemes(left)| && Holds(tokens, i, Lexemes(left)) && NotCalled(tokens, m)
    ensures Holds(tokens, m, Symbols(op)) && Holds(tokens, m + |op|, Lexemes(right)) && |Symbols(op)| == |op|
  {
    m := i + |Lexemes(left)|;
    hide Lexemes;
    HoldsBoth(tokens, i, Lexemes(left) + Symbols(op), Lexemes(right));
    HoldsBoth(tokens, i, Lexemes(left), Symbols(op));
    SymbolsLength(op);
    assert tokens[m + 0] == ToToken(Symbols(op)[0]);
    SymbolNotCalled(tokens, m, op[0]);
  }

  lemma {:induction false} SymbolsLength(op: string)
    ensures |Symbols(op)| == |op|
  {
    if op != "" { SymbolsLength(op[1..]); }
  }

  lemma {:induction false} ParenFinds(tokens: seq<Token>, i: nat, inner: Expr)
    requires Formed(inner) && Holds(tokens, i, [Symbol('(')] + Lexemes(inner) + [Symbol(')')])
    ensures Finds(tokens, i, i + |Lexemes(inner)| + 2, Restricted(inner), Written(inner))
    decreases inner, 1
  {
    hide FindingAt, Finds, NotCalled, Holds, Lexemes, Restricted, Written;
    var m := i + 1 + |Lexemes(inner)|;
    HoldsBoth(tokens, i, [Symbol('(')] + Lexemes(inner), [Symbol(')')]);
    HoldsBoth(tokens, i, [Symbol('(')], Lexemes(inner));
    HoldsOne(tokens, i, Symbol('('));
    HoldsOne(tokens, m, Symbol(')'));
    SymbolNotCalled(tokens, m, ')');
    QuietSymbol(tokens, i, '(');
    ExprFinds(tokens, i + 1, inner);
    QuietSymbol(tokens, m, ')');
    FindsBoth(tokens, i, i + 1, m, true, Restricted(inner), {}, Written(inner));
    FindsBoth(tokens, i, m, m + 1, Restricted(inner), true, {} + Written(inner), {});
    assert {} + Written(inner) + {} == Written(inner);
  }

  // ---------------------------------------------------------------- calls

  lemma {:induction false} ArgsFind(tokens: seq<Token>, i: nat, args: seq<Expr>)
    requires (forall a | a in args :: Formed(a)) && Holds(tokens, i, ArgLexemes(args))
    requires IsPlain(tokens, i + |ArgLexemes(args)|, ")")
    ensures Finds(tokens, i, i + |ArgLexemes(args)|, forall a | a in args :: Restricted(a), ArgsWritten(args))
    decreases args, 2
  {
    hide FindingAt, Finds, NotCalled, Holds, Lexemes, Restricted, Written;
    HoldsFits(tokens, i, ArgLexemes(args));
    if args == [] {
      FindsNothing(tokens, i);
    } else {
      var a, rest, n := args[0], args[1..], i + |Lexemes(args[0])|;
      AllSplits(args);
      if |args| == 1 {
        assert rest == [];
        SymbolNotCalled(tokens, n, ')');
        ExprFinds(tokens, i, a);
        assert Written(a) + ArgsWritten(rest) == Written(a);
      } else {
        HoldsBoth(tokens, i, Lexemes(a) + [Symbol(',')], ArgLexemes(rest));
        HoldsBoth(tokens, i, Lexemes(a), [Symbol(',')]);
        HoldsOne(tokens, n, Symbol(','));
        SymbolNotCalled(tokens, n, ',');
        ExprFinds(tokens, i, a);
        QuietSymbol(tokens, n, ',');
        ArgsFind(tokens, n + 1, rest);
        var j := i + |ArgLexemes(args)|;
        FindsBoth(tokens, i, n, n + 1, Restricted(a), true, Written(a), {});
        FindsBoth(tokens, i, n + 1, j, Restricted(a), forall x | x in rest :: Restricted(x),
                  Written(a) + {}, ArgsWritten(rest));
        assert Written(a) + {} + ArgsWritten(rest) == ArgsWritten(args);
      }
    }
  }

  lemma AllSplits(args: seq<Expr>)
    requires args != []
    ensures (forall a | a in args :: Restricted(a)) <==>
      Restricted(args[0]) && forall a | a in args[1..] :: Restricted(a)
    ensures (forall a | a in args :: Formed(a)) ==> Formed(args[0]) && forall a | a in args[1..] :: Formed(a)
  {
    hide Restricted, Formed;
    assert args == [args[0]] + args[1..];
  }

  lemma {:induction false} CallFinds(tokens: seq<Token>, i: nat, callee: string, args: seq<Expr>)
    requires Formed(Call(callee, args)) && Holds(tokens, i, Lexemes(Call(callee, args)))
    ensures Finds(tokens, i, i + |Lexemes(Call(callee, args))|, Restricted(Call(callee, args)),
                  Written(Call(callee, args)))
    decreases args, 3
  {
    hide FindingAt, Finds, NotCalled, Holds, Lexemes, IsUnsupportedWord, IsPure, IsHelper, Lower, LiteralPair;
    var n := |ArgLexemes(args)|;
    CallParts(tokens, i, callee, args);
    ArgsFind(tokens, i + 2, args);
    CalleeFinds(tokens, i, callee, args);
    QuietSymbol(tokens, i + 1, '(');
    QuietSymbol(tokens, i + 2 + n, ')');
    var own, all := CalleeOk(callee, args), forall a | a in args :: Restricted(a);
    FindsBoth(tokens, i, i + 1, i + 2, own, true, OwnRead(callee, args), {});
    FindsBoth(tokens, i, i + 2, i + 2 + n, own, all, OwnRead(callee, args) + {}, ArgsWritten(args));
    FindsBoth(tokens, i, i + 2 + n, i + 3 + n, own && all, true, OwnRead(callee, args) + {} + ArgsWritten(args), {});
    assert OwnRead(callee, args) + {} + ArgsWritten(args) + {} == Written(Call(callee, args));
    assert Restricted(Call(callee, args)) <==> own && all;
  }

  predicate CalleeOk(callee: string, args: seq<Expr>) {
    var f := Lower(callee);
    && !IsUnsupportedWord(f)
    && (IsPure(f) || (IsHelper(f) && LiteralPair(f, args) && args[0].raw != "" && args[1].raw != ""))
  }

  lemma CallParts(tokens: seq<Token>, i: nat, callee: string, args: seq<Expr>)
    requires Holds(tokens, i, Lexemes(Call(callee, args)))
    ensures |Lexemes(Call(callee, args))| == |ArgLexemes(args)| + 3
    ensures i + 3 + |ArgLexemes(args)| <= |tokens| && tokens[i] == Plain(callee)
    ensures tokens[i + 1] == Plain("(") && tokens[i + 2 + |ArgLexemes(args)|] == Plain(")")
    ensures Holds(tokens, i + 2, ArgLexemes(args))
  {
    hide Holds, ArgLexemes;
    HoldsBoth(tokens, i, [Word(callee), Symbol('(')] + ArgLexemes(args), [Symbol(')')]);
    HoldsBoth(tokens, i, [Word(callee), Symbol('(')], ArgLexemes(args));
    assert [Word(callee), Symbol('(')] == [Word(callee)] + [Symbol('(')];
    HoldsBoth(tokens, i, [Word(callee)], [Symbol('(')]);
    HoldsOne(tokens, i, Word(callee));
    HoldsOne(tokens, i + 1, Symbol('('));
    HoldsOne(tokens, i + 2 + |ArgLexemes(args)|, Symbol(')'));
  }

  /** The two literal arguments, as the scan looks for them and as the program has them. */
  ghost predicate PairAhead(tokens: seq<Token>, j: nat, f: string) {
    && IsPlainLiteral(tokens, j) && IsPlain(tokens, j + 1, ",")
    && IsPlainLiteral(tokens, j + 2) && IsPlain(tokens, j + 3, if f == "settag" then "," else ")")
  }

  lemma ArgsHead(tokens: seq<Token>, j: nat, args: seq<Expr>)
    requires args != [] && Holds(tokens, j, ArgLexemes(args)) && IsPlain(tokens, j + |ArgLexemes(args)|, ")")
    ensures Holds(tokens, j, Lexemes(args[0]))
    ensures |args| == 1 ==> IsPlain(tokens, j + |Lexemes(args[0])|, ")")
    ensures |args| > 1 ==>
      && IsPlain(tokens, j + |Lexemes(args[0])|, ",")
      && Holds(tokens, j + |Lexemes(args[0])| + 1, ArgLexemes(args[1..]))
      && j + |Lexemes(args[0])| + 1 + |ArgLexemes(args[1..])| == j + |ArgLexemes(args)|
  {
    hide *;
    if |args| == 1 { OneArg(args); } else { MoreArgs(tokens, j, args); }
  }

  lemma OneArg(args: seq<Expr>)
    requires |args| == 1
    ensures ArgLexemes(args) == Lexemes(args[0])
  {
    hide Lexemes;
  }

  lemma MoreArgs(tokens: seq<Token>, j: nat, args: seq<Expr>)
    requires |args| > 1 && Holds(tokens, j, ArgLexemes(args))
    ensures Holds(tokens, j, Lexemes(args[0])) && IsPlain(tokens, j + |Lexemes(args[0])|, ",")
    ensures Holds(tokens, j + |Lexemes(args[0])| + 1, ArgLexemes(args[1..]))
    ensures |ArgLexemes(args)| == |Lexemes(args[0])| + 1 + |ArgLexemes(args[1..])|
  {
    hide *;
    ArgLexemesUnfold(args);
    HeadAndComma(tokens, j, Lexemes(args[0]), ArgLexemes(args[1..]));
  }

  lemma HeadAndComma(tokens: seq<Token>, j: nat, xs: seq<Lexeme>, ys: seq<Lexeme>)
    requires Holds(tokens, j, (xs + [Symbol(',')]) + ys)
    ensures Holds(tokens, j, xs) && IsPlain(tokens, j + |xs|, ",") && Holds(tokens, j + |xs| + 1, ys)
    ensures |(xs + [Symbol(',')]) + ys| == |xs| + 1 + |ys|
  {
    hide *;
    HoldsBoth(tokens, j, xs + [Symbol(',')], ys);
    HoldsBoth(tokens, j, xs, [Symbol(',')]);
    HoldsOne(tokens, j + |xs|, Symbol(','));
    CommaIsPlain(tokens, j + |xs|);
  }

  lemma ArgLexemesUnfold(args: seq<Expr>)
    requires |args| > 1
    ensures ArgLexemes(args) == (Lexemes(args[0]) + [Symbol(',')]) + ArgLexemes(args[1..])
  {
    hide Lexemes;
  }

  lemma CommaIsPlain(tokens: seq<Token>, j: nat)
    requires j < |tokens| && tokens[j] == ToToken(Symbol(','))
    ensures IsPlain(tokens, j, ",")
  {
  }

  /** An argument that starts with a literal before a comma or a parenthesis is that literal. */
  lemma OneArgAhead(tokens: seq<Token>, j: nat, a: Expr)
    requires Formed(a) && Holds(tokens, j, Lexemes(a))
    requires IsPlain(tokens, j + |Lexemes(a)|, ",") || IsPlain(tokens, j + |Lexemes(a)|, ")")
    ensures IsPlainLiteral(tokens, j) && (IsPlain(tokens, j + 1, ",") || IsPlain(tokens, j + 1, ")")) <==>
      IsLiteralArg(a)
    ensures IsLiteralArg(a) ==> tokens[j].text == a.raw && |Lexemes(a)| == 1
  {
    FirstLexeme(a);
    var xs := Lexemes(a);
    assert a.Text? ==> xs == [Literal(a.quote, a.raw)];
    hide Lexemes, Formed;
    assert tokens[j + 0] == ToToken(xs[0]);
    if |xs| > 1 {
      assert tokens[j + 1] == ToToken(xs[1]);
      if xs[1].Symbol? { assert [xs[1].c][0] == xs[1].c && ","[0] == ',' && ")"[0] == ')'; }
    }
  }

  lemma PairMeans(tokens: seq<Token>, j: nat, f: string, args: seq<Expr>)
    requires (forall a | a in args :: Formed(a)) && Holds(tokens, j, ArgLexemes(args))
    requires IsPlain(tokens, j + |ArgLexemes(args)|, ")")
    ensures PairAhead(tokens, j, f) <==> LiteralPair(f, args)
    ensures LiteralPair(f, args) ==> tokens[j].text == args[0].raw && tokens[j + 2].text == args[1].raw
  {
    hide *;
    LiteralPairUnfold(f, args);
    PairAheadUnfold(tokens, j, f);
    CommaOrParen(tokens, j);
    CommaOrParen(tokens, j + 1);
    CommaOrParen(tokens, j + 3);
    if args == [] {
      EmptyArgs(tokens, j, args);
    } else {
      ArgsHead(tokens, j, args);
      OneArgAhead(tokens, j, args[0]);
      if |args| > 1 && IsLiteralArg(args[0]) {
        var rest := args[1..];
        assert rest != [] && rest[0] == args[1] && |rest| == |args| - 1;
        ArgsHead(tokens, j + 2, rest);
        OneArgAhead(tokens, j + 2, args[1]);
      }
    }
  }

  lemma EmptyArgs(tokens: seq<Token>, j: nat, args: seq<Expr>)
    requires args == [] && IsPlain(tokens, j + |ArgLexemes(args)|, ")")
    ensures !IsPlainLiteral(tokens, j)
  {
  }

  lemma PairAheadUnfold(tokens: seq<Token>, j: nat, f: string)
    ensures PairAhead(tokens, j, f) <==>
      && IsPlainLiteral(tokens, j) && IsPlain(tokens, j + 1, ",")
      && IsPlainLiteral(tokens, j + 2) && IsPlain(tokens, j + 3, if f == "settag" then "," else ")")
  {
  }

  lemma CommaOrParen(tokens: seq<Token>, j: nat)
    ensures !(IsPlain(tokens, j, ",") && IsPlain(tokens, j, ")"))
  {
    assert ","[0] != ")"[0];
  }

  lemma LiteralPairUnfold(f: string, args: seq<Expr>)
    ensures LiteralPair(f, args) <==>
      |args| >= 2 && (f == "settag" <==> |args| > 2) && IsLiteralArg(args[0]) && IsLiteralArg(args[1])
  {
    hide IsLiteralArg;
  }

  lemma HelpersAreNotPure()
    ensures !IsPure("tag") && !IsPure("quality") && !IsPure("hastag") && !IsPure("settag")
  {
  }

  lemma CalleeFinds(tokens: seq<Token>, i: nat, callee: string, args: seq<Expr>)
    requires Formed(Call(callee, args)) && i + 1 < |tokens| && tokens[i] == Plain(callee) && tokens[i + 1] == Plain("(")
    requires Holds(tokens, i + 2, ArgLexemes(args)) && IsPlain(tokens, i + 2 + |ArgLexemes(args)|, ")")
    ensures Finds(tokens, i, i + 1, CalleeOk(callee, args), OwnRead(callee, args))
  {
    PairMeans(tokens, i + 2, Lower(callee), args);
    CalleeFinding(tokens, i, callee, args);
    FindsOne(tokens, i);
    hide FindingAt, Finds, CalleeOk, OwnRead, Holds, ArgLexemes;
  }

  lemma CalleeFinding(tokens: seq<Token>, i: nat, callee: string, args: seq<Expr>)
    requires IsWord(callee) && Lower(callee) != "if"
    requires i + 1 < |tokens| && tokens[i] == Plain(callee) && tokens[i + 1] == Plain("(")
    requires PairAhead(tokens, i + 2, Lower(callee)) <==> LiteralPair(Lower(callee), args)
    requires LiteralPair(Lower(callee), args) ==> tokens[i + 2].text == args[0].raw && tokens[i + 4].text == args[1].raw
    ensures FindingAt(tokens, i).Doubtful? <==> !CalleeOk(callee, args)
    ensures CalleeOk(callee, args) ==>
      (if FindingAt(tokens, i).Read? then {FindingAt(tokens, i).key} else {}) == OwnRead(callee, args)
  {
    LowerStart(callee);
    HelpersAreNotPure();
    hide IsPure, IsUnsupportedWord, Lower, IsPlainLiteral, LiteralPair;
    assert IsPlain(tokens, i + 1, "(");
    assert StartsWord(Lower(callee)[0]);
  }

  // ---------------------------------------------------------------- statements

  lemma {:induction false} StmtFinds(tokens: seq<Token>, i: nat, s: Stmt)
    requires StmtFormed(s) && Holds(tokens, i, StmtLexemes(s))
    ensures Finds(tokens, i, i + |StmtLexemes(s)|, StmtRestricted(s), StmtWritten(s))
    decreases s, 4
  {
    hide FindingAt, Finds, NotCalled, Holds, Lexemes, Restricted, Written, IsQuiet, Formed;
    match s
    case Declare(keyword, variable, value) =>
      var xs := [Word(keyword), Word(variable), Symbol('=')];
      assert StmtLexemes(s) == [Word(keyword)] + ([Word(variable), Symbol('=')] + Lexemes(value) + [Symbol(';')]);
      HoldsBoth(tokens, i, [Word(keyword)], [Word(variable), Symbol('=')] + Lexemes(value) + [Symbol(';')]);
      HoldsOne(tokens, i, Word(keyword));
      AssignFinds(tokens, i + 1, variable, value);
      KeywordQuiet(keyword);
      AssignStart(tokens, i + 1, variable, value);
      WordFinds(tokens, i, keyword);
      FindsBoth(tokens, i, i + 1, i + |StmtLexemes(s)|, true, IsQuiet(variable) && Restricted(value),
                {}, Written(value));
      assert {} + Written(value) == Written(value);
    case Assign(variable, value) =>
      AssignFinds(tokens, i, variable, value);
    case Do(expr) =>
      ExprEnds(tokens, i, expr, ';');
    case If(cond, thn, hasElse, els) =>
      IfFinds(tokens, i, s);
  }

  lemma KeywordQuiet(keyword: string)
    requires keyword == "let" || keyword == "const" || keyword == "var" || keyword == "else"
    ensures IsQuiet(keyword)
  {
    LowerIs(keyword);
  }

  lemma {:induction false} LowerIs(s: string)
    requires forall i | 0 <= i < |s| :: 'a' <= s[i] <= 'z'
    ensures Lower(s) == s
  {
    if s != "" { LowerIs(s[1..]); }
  }

  /** An expression and one symbol behind it. */
  lemma {:induction false} ExprEnds(tokens: seq<Token>, i: nat, e: Expr, c: char)
    requires Formed(e) && Holds(tokens, i, Lexemes(e) + [Symbol(c)]) && IsQuietSymbol(c) && c != '('
    ensures Finds(tokens, i, i + |Lexemes(e)| + 1, Restricted(e), Written(e))
  {
    hide FindingAt, Finds, NotCalled, Holds, Lexemes, Restricted, Written;
    var m := i + |Lexemes(e)|;
    HoldsBoth(tokens, i, Lexemes(e), [Symbol(c)]);
    HoldsOne(tokens, m, Symbol(c));
    SymbolNotCalled(tokens, m, c);
    ExprFinds(tokens, i, e);
    QuietSymbol(tokens, m, c);
    FindsBoth(tokens, i, m, m + 1, Restricted(e), true, Written(e), {});
    assert Written(e) + {} == Written(e);
  }

  lemma AssignStart(tokens: seq<Token>, i: nat, variable: string, value: Expr)
    requires IsWord(variable) && Holds(tokens, i, [Word(variable), Symbol('=')] + Lexemes(value) + [Symbol(';')])
    ensures NotCalled(tokens, i)
  {
    hide Lexemes;
    assert tokens[i + 0] == ToToken(([Word(variable), Symbol('=')] + Lexemes(value) + [Symbol(';')])[0]);
    assert !StartsWord('(');
  }

  lemma AssignFinds(tokens: seq<Token>, i: nat, variable: string, value: Expr)
    requires Formed(value) && Holds(tokens, i, [Word(variable), Symbol('=')] + Lexemes(value) + [Symbol(';')])
    ensures Finds(tokens, i, i + |Lexemes(value)| + 3, IsQuiet(variable) && Restricted(value), Written(value))
  {
    hide FindingAt, Finds, NotCalled, Holds, Lexemes, Restricted, Written, IsQuiet, Formed;
    var j := i + |Lexemes(value)| + 3;
    assert [Word(variable), Symbol('=')] + Lexemes(value) + [Symbol(';')]
        == [Word(variable)] + ([Symbol('=')] + (Lexemes(value) + [Symbol(';')]));
    HoldsBoth(tokens, i, [Word(variable)], [Symbol('=')] + (Lexemes(value) + [Symbol(';')]));
    HoldsBoth(tokens, i + 1, [Symbol('=')], Lexemes(value) + [Symbol(';')]);
    HoldsOne(tokens, i, Word(variable));
    HoldsOne(tokens, i + 1, Symbol('='));
    SymbolNotCalled(tokens, i + 1, '=');
    WordFinds(tokens, i, variable);
    QuietSymbol(tokens, i + 1, '=');
    ExprEnds(tokens, i + 2, value, ';');
    FindsBoth(tokens, i, i + 1, i + 2, IsQuiet(variable), true, {}, {});
    FindsBoth(tokens, i, i + 2, j, IsQuiet(variable), Restricted(value), {} + {}, Written(value));
    assert {} + {} + Written(value) == Written(value);
  }

  lemma IfWordFinds(tokens: seq<Token>, i: nat)
    requires i < |tokens| && tokens[i] == Plain("if")
    ensures Finds(tokens, i, i + 1, true, {})
  {
    LowerIs("if");
    assert !IsUnsupportedWord("if") && !IsHelper("if");
    hide IsPure, IsUnsupportedWord, Lower, IsPlainLiteral, IsHelper, IsPlain, Finds;
    assert FindingAt(tokens, i) == Nothing;
    FindsOne(tokens, i);
  }

  lemma {:induction false} BlockFinds(tokens: seq<Token>, i: nat, body: seq<Stmt>)
    requires (forall s | s in body :: StmtFormed(s)) && Holds(tokens, i, Block(body))
    ensures Finds(tokens, i, i + |Block(body)|, forall s | s in body :: StmtRestricted(s), ProgramWritten(body))
    ensures NotCalled(tokens, i)
    decreases body, 2
  {
    hide FindingAt, Finds, Holds, StmtRestricted, ProgramWritten, ProgramLexemes, StmtFormed;
    var n := |ProgramLexemes(body)|;
    HoldsBoth(tokens, i, [Symbol('{')] + ProgramLexemes(body), [Symbol('}')]);
    HoldsBoth(tokens, i, [Symbol('{')], ProgramLexemes(body));
    HoldsOne(tokens, i, Symbol('{'));
    HoldsOne(tokens, i + 1 + n, Symbol('}'));
    SymbolNotCalled(tokens, i, '{');
    QuietSymbol(tokens, i, '{');
    QuietSymbol(tokens, i + 1 + n, '}');
    ProgramFinds(tokens, i + 1, body);
    var all := forall s | s in body :: StmtRestricted(s);
    FindsBoth(tokens, i, i + 1, i + 1 + n, true, all, {}, ProgramWritten(body));
    FindsBoth(tokens, i, i + 1 + n, i + 2 + n, all, true, {} + ProgramWritten(body), {});
    assert {} + ProgramWritten(body) + {} == ProgramWritten(body);
  }

  lemma {:induction false} IfFinds(tokens: seq<Token>, i: nat, s: Stmt)
    requires s.If? && StmtFormed(s) && Holds(tokens, i, StmtLexemes(s))
    ensures Finds(tokens, i, i + |StmtLexemes(s)|, StmtRestricted(s), StmtWritten(s))
    decreases s, 3
  {
    hide FindingAt, Finds, NotCalled, Holds, Lexemes, Restricted, Written, Block, ProgramWritten, Formed, IsQuiet;
    var cond, thn, els := s.cond, s.thn, s.els;
    var head := [Word("if"), Symbol('(')] + Lexemes(cond) + [Symbol(')')];
    var m := i + |head|;
    var n := m + |Block(thn)|;
    var otherwise := if s.hasElse then [Word("else")] + Block(els) else [];
    var j := n + |otherwise|;
    assert StmtLexemes(s) == head + Block(thn) + otherwise;
    HoldsBoth(tokens, i, head + Block(thn), otherwise);
    HoldsBoth(tokens, i, head, Block(thn));
    HeadFinds(tokens, i, cond);
    BlockFinds(tokens, m, thn);
    var c, t := Restricted(cond), forall x | x in thn :: StmtRestricted(x);
    FindsBoth(tokens, i, m, n, c, t, Written(cond), ProgramWritten(thn));
    if s.hasElse {
      HoldsBoth(tokens, n, [Word("else")], Block(els));
      HoldsOne(tokens, n, Word("else"));
      BlockFinds(tokens, n + 1, els);
      KeywordQuiet("else");
      WordFinds(tokens, n, "else");
      var e := forall x | x in els :: StmtRestricted(x);
      FindsBoth(tokens, n, n + 1, j, true, e, {}, ProgramWritten(els));
      FindsBoth(tokens, i, n, j, c && t, e, Written(cond) + ProgramWritten(thn), {} + ProgramWritten(els));
      assert Written(cond) + ProgramWritten(thn) + ({} + ProgramWritten(els)) == StmtWritten(s);
    } else {
      assert Written(cond) + ProgramWritten(thn) == StmtWritten(s);
    }
  }

  lemma HeadFinds(tokens: seq<Token>, i: nat, cond: Expr)
    requires Formed(cond) && Holds(tokens, i, [Word("if"), Symbol('(')] + Lexemes(cond) + [Symbol(')')])
    ensures Finds(tokens, i, i + |Lexemes(cond)| + 3, Restricted(cond), Written(cond))
  {
    hide FindingAt, Finds, Holds, Lexemes, Restricted, Written, Formed;
    assert [Word("if"), Symbol('(')] + Lexemes(cond) + [Symbol(')')]
        == [Word("if")] + ([Symbol('(')] + (Lexemes(cond) + [Symbol(')')]));
    HoldsBoth(tokens, i, [Word("if")], [Symbol('(')] + (Lexemes(cond) + [Symbol(')')]));
    HoldsBoth(tokens, i + 1, [Symbol('(')], Lexemes(cond) + [Symbol(')')]);
    HoldsOne(tokens, i, Word("if"));
    HoldsOne(tokens, i + 1, Symbol('('));
    IfWordFinds(tokens, i);
    QuietSymbol(tokens, i + 1, '(');
    ExprEnds(tokens, i + 2, cond, ')');
    FindsBoth(tokens, i, i + 1, i + 2, true, true, {}, {});
    FindsBoth(tokens, i, i + 2, i + |Lexemes(cond)| + 3, true, Restricted(cond), {} + {}, Written(cond));
    assert {} + {} + Written(cond) == Written(cond);
  }

  lemma {:induction false} ProgramFinds(tokens: seq<Token>, i: nat, program: seq<Stmt>)
    requires (forall s | s in program :: StmtFormed(s)) && Holds(tokens, i, ProgramLexemes(program))
    ensures Finds(tokens, i, i + |ProgramLexemes(program)|,
                  forall s | s in program :: StmtRestricted(s), ProgramWritten(program))
    decreases program, 1
  {
    hide FindingAt, Finds, Holds, StmtRestricted, StmtWritten, StmtLexemes, StmtFormed;
    HoldsFits(tokens, i, ProgramLexemes(program));
    if program == [] {
      FindsNothing(tokens, i);
    } else {
      var s, rest := program[0], program[1..];
      var n, j := i + |StmtLexemes(s)|, i + |ProgramLexemes(program)|;
      HoldsBoth(tokens, i, StmtLexemes(s), ProgramLexemes(rest));
      StmtFinds(tokens, i, s);
      ProgramFinds(tokens, n, rest);
      StmtsSplit(program);
      FindsBoth(tokens, i, n, j, StmtRestricted(s), forall x | x in rest :: StmtRestricted(x), StmtWritten(s),
          ProgramWritten(rest));
    }
  }

  lemma StmtsSplit(program: seq<Stmt>)
    requires program != []
    ensures (forall s | s in program :: StmtRestricted(s)) <==>
      StmtRestricted(program[0]) && forall s | s in program[1..] :: StmtRestricted(s)
  {
    hide StmtRestricted;
    assert program == [program[0]] + program[1..];
  }
}
