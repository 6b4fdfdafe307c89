/** The static read-dependency analysis of automation scripts: a lexer with a delimiter stack, then one
    scan over the tokens that looks at every call.

    `Lex` and `Finding` are the analysis as functions; the method `ReadDependencies` is the source's index
    loops, proved to compute them.
 */
module AutomationDependencies {

  type TagKey = (string, string)

  /** `complete` until the first doubt, whose reason is kept. */
  datatype Dependencies = Dependencies(complete: bool, reason: string, tagReads: set<TagKey>)
  {
    function Uncertain(why: string): Dependencies {
      Dependencies(false, if complete then why else reason, tagReads)
    }

    function UncertainIf(doubt: bool, why: string): Dependencies {
      if doubt then Uncertain(why) else this
    }
  }

  datatype Token = Token(text: string, literal: bool, escaped: bool)

  function Plain(text: string): Token { Token(text, false, false) }

  predicate IsSpace(c: char) { c == ' ' || '\t' <= c <= '\r' }

  predicate IsDigit(c: char) { '0' <= c <= '9' }

  predicate IsAlpha(c: char) { 'a' <= c <= 'z' || 'A' <= c <= 'Z' }

  predicate StartsWord(c: char) { IsAlpha(c) || c == '_' || c == '$' }

  predicate IsWordChar(c: char) { StartsWord(c) || IsDigit(c) }

  predicate IsNumberChar(c: char) { IsDigit(c) || c == '.' }

  predicate Unsupported(c: char) {
    c == '`' || c == '[' || c == ']' || c == '.' || c == '\\' || c == '/' || (c as int) >= 128
  }

  function ToLower(c: char): char {
    if 'A' <= c <= 'Z' then ((c as int) + 32) as char else c
  }

  function Lower(s: string): string {
    if s == "" then "" else [ToLower(s[0])] + Lower(s[1..])
  }

  // ---------------------------------------------------------------- the lexer as functions

  function LineEnd(s: string, i: nat): (n: nat)
    requires i <= |s|
    ensures i <= n <= |s|
    decreases |s| - i
  {
    if i < |s| && s[i] != '\n' then LineEnd(s, i + 1) else i
  }

  // The first end of a block comment at or after i, |s| if there is none.
  function CommentClose(s: string, i: nat): (n: nat)
    requires i <= |s|
    ensures i <= n <= |s| && (n < |s| ==> n + 1 < |s|)
    decreases |s| - i
  {
    if i + 1 >= |s| then |s| else if s[i] == '*' && s[i + 1] == '/' then i else CommentClose(s, i + 1)
  }

  function WordEnd(s: string, i: nat): (n: nat)
    requires i <= |s|
    ensures i <= n <= |s|
    decreases |s| - i
  {
    if i < |s| && IsWordChar(s[i]) then WordEnd(s, i + 1) else i
  }

  function NumberEnd(s: string, i: nat): (n: nat)
    requires i <= |s|
    ensures i <= n <= |s|
    decreases |s| - i
  {
    if i < |s| && IsNumberChar(s[i]) then NumberEnd(s, i + 1) else i
  }

  /** A string literal being read: its token so far, whether it was closed and whether it spans lines. */
  datatype Quoted = Quoted(token: Token, next: nat, closed: bool, multiline: bool)

  function ReadQuoted(s: string, i: nat, quote: char, token: Token, multiline: bool): (q: Quoted)
    requires i <= |s|
    ensures i <= q.next <= |s| && (q.closed ==> i < q.next)
    decreases |s| - i
  {
    if i == |s| then Quoted(token, i, false, multiline)
    else if s[i] == quote then Quoted(token, i + 1, true, multiline)
    else if s[i] == '\\' then
      if i + 1 == |s| then Quoted(token.(escaped := true), i + 1, false, multiline)
      else ReadQuoted(s, i + 2, quote, token.(escaped := true, text := token.text + [s[i], s[i + 1]]), multiline)
    else ReadQuoted(s, i + 1, quote, token.(text := token.text + [s[i]]), multiline || s[i] == '\n' || s[i] == '\r')
  }

  datatype Lexing = Lexing(tokens: seq<Token>, delimiters: seq<char>, result: Dependencies, aborted: bool)
  {
    function Push(token: Token): Lexing { this.(tokens := tokens + [token]) }

    function Doubt(doubt: bool, why: string): Lexing { this.(result := result.UncertainIf(doubt, why)) }

    function Abort(why: string): Lexing { this.(result := result.Uncertain(why), aborted := true) }

    /** The delimiter stack on one character. */
    function Delimit(c: char): Lexing {
      if c == '(' || c == '{' then this.(delimiters := delimiters + [c])
      else if c == ')' || c == '}' then
        if delimiters == [] || delimiters[|delimiters| - 1] != (if c == ')' then '(' else '{')
        then Doubt(true, "unbalanced_delimiters")
        else this.(delimiters := delimiters[..|delimiters| - 1])
      else this
    }

    function Symbol(c: char): Lexing { Doubt(Unsupported(c), "unsupported_syntax").Delimit(c).Push(Plain([c])) }
  }

  predicate OpensComment(text: string, i: nat, second: char) {
    i + 1 < |text| && text[i] == '/' && text[i + 1] == second
  }

  /** The lexer's loop from position i and state `s`. */
  function Lex(text: string, i: nat, s: Lexing): Lexing
    requires i <= |text|
    decreases |text| - i
  {
    if i == |text| then s
    else
      var c := text[i];
      if IsSpace(c) then Lex(text, i + 1, s)
      else if OpensComment(text, i, '/') then Lex(text, LineEnd(text, i + 1), s)
      else if OpensComment(text, i, '*') then
        var close := CommentClose(text, i + 2);
        if close == |text| then s.Abort("unterminated_comment") else Lex(text, close + 2, s)
      else if c == '\'' || c == '"' then
        var q := ReadQuoted(text, i + 1, c, Token("", true, false), false);
        if !q.closed then s.Doubt(q.multiline, "multiline_string").Abort("unterminated_string")
        else Lex(text, q.next, s.Doubt(q.multiline, "multiline_string").Push(q.token))
      else if StartsWord(c) then
        var e := WordEnd(text, i + 1);
        Lex(text, e, s.Push(Plain(text[i..e])))
      else if IsDigit(c) then
        var e := NumberEnd(text, i + 1);
        Lex(text, e, s.Push(Plain(text[i..e])))
      else
        Lex(text, i + 1, s.Symbol(c))
  }

  const START := Lexing([], [], Dependencies(true, "literal_dependencies", {}), false)

  // ---------------------------------------------------------------- the call scan as functions

  const PURE: set<string> := {"json", "hasjson", "jsonobj", "jsonset", "jsonarray",
    "str", "num", "number", "bool", "concat", "lower", "upper", "trim", "contains",
    "startswith", "endswith", "bit", "bits", "map", "clamp", "round", "min", "max"}

  const UNSUPPORTED_WORDS: set<string> :=
    {"function", "class", "new", "eval", "while", "for", "import", "yield", "await"}

  predicate IsPure(name: string) { name in PURE }

  predicate IsUnsupportedWord(name: string) { name in UNSUPPORTED_WORDS }

  predicate IsHelper(name: string) { name == "tag" || name == "quality" || name == "hastag" || name == "settag" }

  predicate IsPlain(tokens: seq<Token>, i: nat, text: string) {
    i < |tokens| && !tokens[i].literal && tokens[i].text == text
  }

  predicate IsPlainLiteral(tokens: seq<Token>, i: nat) {
    i < |tokens| && tokens[i].literal && !tokens[i].escaped
  }

  datatype Finding = Nothing | Doubtful(why: string) | Read(key: TagKey)

  /** What the scan concludes at token i. */
  function FindingAt(tokens: seq<Token>, i: nat): Finding
    requires i < |tokens|
  {
    var name := Lower(tokens[i].text);
    var call := IsPlain(tokens, i + 1, "(");
    if tokens[i].literal then Nothing
    else if IsUnsupportedWord(name) then Doubtful("unsupported_construct")
    else if IsHelper(name) && !call then Doubtful("indirect_tag_helper")
    else if !call || name == "" || !StartsWord(name[0]) then Nothing
    else if name == "if" || IsPure(name) then Nothing
    else if !IsHelper(name) then Doubtful("unknown_function")
    else if !(IsPlainLiteral(tokens, i + 2) && IsPlain(tokens, i + 3, ",") && IsPlainLiteral(tokens, i + 4)
              && IsPlain(tokens, i + 5, if name == "settag" then "," else ")"))
    then Doubtful("dynamic_or_escaped_tag_reference")
    else if tokens[i + 2].text == "" || tokens[i + 4].text == "" then Doubtful("empty_tag_reference")
    else if (name == "tag" || name == "quality") && tokens[i + 2].text != "_system"
    then Read((tokens[i + 2].text, tokens[i + 4].text))
    else Nothing
  }

  predicate Clean(tokens: seq<Token>, i: nat, j: nat)
    requires j <= |tokens|
  {
    forall k | i <= k < j :: !FindingAt(tokens, k).Doubtful?
  }

  function ReadsIn(tokens: seq<Token>, i: nat, j: nat): set<TagKey>
    requires j <= |tokens|
  {
    set k | i <= k < j && FindingAt(tokens, k).Read? :: FindingAt(tokens, k).key
  }

  /** The scan's loop from token i. */
  function Scan(tokens: seq<Token>, i: nat, d: Dependencies): Dependencies
    requires i <= |tokens|
    decreases |tokens| - i
  {
    if i == |tokens| then d
    else
      match FindingAt(tokens, i)
      case Nothing => Scan(tokens, i + 1, d)
      case Doubtful(why) => Scan(tokens, i + 1, d.Uncertain(why))
      case Read(key) => Scan(tokens, i + 1, d.(tagReads := d.tagReads + {key}))
  }

  function Analysis(source: string): Dependencies {
    var lexed := Lex(source, 0, START);
    if lexed.aborted then lexed.result
    else Scan(lexed.tokens, 0, lexed.result.UncertainIf(lexed.delimiters != [], "unbalanced_delimiters"))
  }

  lemma {:induction false} ScanMeans(tokens: seq<Token>, i: nat, d: Dependencies)
    requires i <= |tokens|
    ensures Scan(tokens, i, d).complete <==> d.complete && Clean(tokens, i, |tokens|)
    ensures Scan(tokens, i, d).tagReads == d.tagReads + ReadsIn(tokens, i, |tokens|)
    decreases |tokens| - i
  {
    hide FindingAt;
    if i < |tokens| {
      var finding := FindingAt(tokens, i);
      var d' := match finding
        case Nothing => d
        case Doubtful(why) => d.Uncertain(why)
        case Read(key) => d.(tagReads := d.tagReads + {key});
      ScanMeans(tokens, i + 1, d');
      assert Clean(tokens, i, |tokens|) <==> !finding.Doubtful? && Clean(tokens, i + 1, |tokens|);
      assert ReadsIn(tokens, i, |tokens|)
        == ReadsIn(tokens, i + 1, |tokens|) + (if finding.Read? then {finding.key} else {});
    }
  }

  /** When the analysis is complete, and what it reports. */
  lemma AnalysisMeans(source: string)
    requires !Lex(source, 0, START).aborted
    ensures var lexed := Lex(source, 0, START);
      && Analysis(source).tagReads == ReadsIn(lexed.tokens, 0, |lexed.tokens|)
      && (Analysis(source).complete <==>
           lexed.result.complete && lexed.delimiters == [] && Clean(lexed.tokens, 0, |lexed.tokens|))
  {
    var lexed := Lex(source, 0, START);
    LexKeepsReads(source, 0, START);
    ScanMeans(lexed.tokens, 0, lexed.result.UncertainIf(lexed.delimiters != [], "unbalanced_delimiters"));
  }

  // ---------------------------------------------------------------- the source's loops

  method ReadDependencies(source: string) returns (result: Dependencies)
    ensures result == Analysis(source)
  {
    hide *;
    var aborted, tokens, delimiters;
    aborted, tokens, delimiters, result := Tokenize(source);
    AnalysisIs(source);
    if aborted { return; }
    if delimiters != [] { result := result.Uncertain("unbalanced_delimiters"); }
    for i := 0 to |tokens|
      invariant Scan(tokens, i, result) == Analysis(source)
    {
      ScanNext(tokens, i, result);
      if tokens[i].literal { continue; }
      var name := Lower(tokens[i].text);
      if IsUnsupportedWord(name) { result := result.Uncertain("unsupported_construct"); }
      var call := IsPlain(tokens, i + 1, "(");
      var helper := IsHelper(name);
      if helper && !call { result := result.Uncertain("indirect_tag_helper"); continue; }
      if !call || name == "" || !StartsWord(name[0]) { continue; }
      if name == "if" || IsPure(name) { continue; }
      if !helper { result := result.Uncertain("unknown_function"); continue; }
      if !IsPlainLiteral(tokens, i + 2) || !IsPlain(tokens, i + 3, ",") || !IsPlainLiteral(tokens, i + 4)
         || !IsPlain(tokens, i + 5, if name == "settag" then "," else ")") {
        result := result.Uncertain("dynamic_or_escaped_tag_reference");
        continue;
      }
      LiteralsAreThere(tokens, i);
      var cid, tag := tokens[i + 2].text, tokens[i + 4].text;
      if cid == "" || tag == "" { result := result.Uncertain("empty_tag_reference"); continue; }
      if (name == "tag" || name == "quality") && cid != "_system" {
        result := result.(tagReads := result.tagReads + {(cid, tag)});
      }
    }
    ScanEnd(tokens, result);
  }

  lemma AnalysisIs(source: string)
    ensures
      var lexed := Lex(source, 0, START);
      Analysis(source) ==
        if lexed.aborted then lexed.result
        else if lexed.delimiters != [] then Scan(lexed.tokens, 0, lexed.result.Uncertain("unbalanced_delimiters"))
        else Scan(lexed.tokens, 0, lexed.result)
  {
    hide Lex, Scan;
  }

  lemma ScanEnd(tokens: seq<Token>, d: Dependencies)
    ensures Scan(tokens, |tokens|, d) == d
  {
  }

  lemma LiteralsAreThere(tokens: seq<Token>, i: nat)
    ensures IsPlainLiteral(tokens, i + 4) ==> i + 4 < |tokens|
  {
  }

  /** One token of the scan, check by check. An unsupported word passes on to the other checks, which add nothing. */
  lemma ScanNext(tokens: seq<Token>, i: nat, d: Dependencies)
    requires i < |tokens|
    ensures
      var name := Lower(tokens[i].text);
      var call := IsPlain(tokens, i + 1, "(");
      var d' := if !tokens[i].literal && IsUnsupportedWord(name) then d.Uncertain("unsupported_construct") else d;
      Scan(tokens, i, d) == Scan(tokens, i + 1,
        if tokens[i].literal then d
        else if IsHelper(name) && !call then d'.Uncertain("indirect_tag_helper")
        else if !call || name == "" || !StartsWord(name[0]) || name == "if" || IsPure(name) then d'
        else if !IsHelper(name) then d'.Uncertain("unknown_function")
        else if !(IsPlainLiteral(tokens, i + 2) && IsPlain(tokens, i + 3, ",") && IsPlainLiteral(tokens, i + 4)
                  && IsPlain(tokens, i + 5, if name == "settag" then "," else ")"))
        then d'.Uncertain("dynamic_or_escaped_tag_reference")
        else if tokens[i + 2].text == "" || tokens[i + 4].text == "" then d'.Uncertain("empty_tag_reference")
        else if (name == "tag" || name == "quality") && tokens[i + 2].text != "_system"
        then d'.(tagReads := d'.tagReads + {(tokens[i + 2].text, tokens[i + 4].text)})
        else d')
  {
    var name := Lower(tokens[i].text);
    UnsupportedIsNothingElse(name);
    hide Lower, IsHelper, IsPure, IsUnsupportedWord, StartsWord;
  }

  lemma UnsupportedIsNothingElse(name: string)
    ensures IsUnsupportedWord(name) ==> !IsHelper(name) && !IsPure(name) && name != "if"
  {
  }

  method Tokenize(source: string)
    returns (aborted: bool, tokens: seq<Token>, delimiters: seq<char>, result: Dependencies)
    ensures Lex(source, 0, START) == Lexing(tokens, delimiters, result, aborted)
  {
    assert START == Lexing([], [], START.result, false);
    hide *;
    tokens, delimiters, result := [], [], START.result;
    var i: nat := 0;
    while i < |source|
      invariant i <= |source|
      invariant Lex(source, 0, START) == Lex(source, i, Lexing(tokens, delimiters, result, false))
    {
      var ch := source[i];
      ghost var s := Lexing(tokens, delimiters, result, false);
      if IsSpace(ch) {
        StepSpace(source, i, s);
        i := i + 1;
        continue;
      }
      if ch == '/' && i + 1 < |source| && source[i + 1] == '/' {
        StepLine(source, i, s);
        i := SkipLine(source, i + 1);
        continue;
      }
      if ch == '/' && i + 1 < |source| && source[i + 1] == '*' {
        StepBlock(source, i, s);
        var close := FindCommentClose(source, i + 2);
        if close == |source| {
          return true, tokens, delimiters, result.Uncertain("unterminated_comment");
        }
        i := close + 2;
        continue;
      }
      if ch == '\'' || ch == '"' {
        StepQuoted(source, i, s);
        var token, next, closed;
        token, next, closed, result := ReadString(source, i, result);
        if !closed {
          return true, tokens, delimiters, result.Uncertain("unterminated_string");
        }
        tokens := tokens + [token];
        i := next;
        continue;
      }
      if StartsWord(ch) || IsDigit(ch) {
        var start := i;
        i := SkipRun(source, i, s);
        tokens := tokens + [Plain(source[start..i])];
        continue;
      }
      StepSymbol(source, i, s);
      delimiters, result := Balance(ch, delimiters, result.UncertainIf(Unsupported(ch), "unsupported_syntax"), tokens);
      tokens := tokens + [Plain([ch])];
      i := i + 1;
    }
    StepEnd(source, Lexing(tokens, delimiters, result, false));
    aborted := false;
  }

  lemma StepEnd(text: string, s: Lexing)
    ensures Lex(text, |text|, s) == s
  {
  }

  lemma StepSpace(text: string, i: nat, s: Lexing)
    requires i < |text| && IsSpace(text[i])
    ensures Lex(text, i, s) == Lex(text, i + 1, s)
  {
  }

  lemma StepLine(text: string, i: nat, s: Lexing)
    requires i + 1 < |text| && text[i] == '/' && text[i + 1] == '/'
    ensures i + 1 <= LineEnd(text, i + 1) <= |text| && Lex(text, i, s) == Lex(text, LineEnd(text, i + 1), s)
  {
    hide LineEnd;
  }

  lemma StepBlock(text: string, i: nat, s: Lexing)
    requires i + 1 < |text| && text[i] == '/' && text[i + 1] == '*'
    ensures
      var close := CommentClose(text, i + 2);
      if close == |text|
      then Lex(text, i, s) == s.(result := s.result.Uncertain("unterminated_comment"), aborted := true)
      else i + 2 <= close < |text| - 1 && Lex(text, i, s) == Lex(text, close + 2, s)
  {
    hide CommentClose;
  }

  lemma StepQuoted(text: string, i: nat, s: Lexing)
    requires i < |text| && (text[i] == '\'' || text[i] == '"')
    ensures
      var q := ReadQuoted(text, i + 1, text[i], Token("", true, false), false);
      var doubted := s.result.UncertainIf(q.multiline, "multiline_string");
      && i + 1 <= q.next <= |text|
      && Lex(text, i, s) ==
        if !q.closed then s.(result := doubted.Uncertain("unterminated_string"), aborted := true)
        else Lex(text, q.next, s.(tokens := s.tokens + [q.token], result := doubted))
  {
    hide ReadQuoted;
  }

  lemma StepWord(text: string, i: nat, s: Lexing)
    requires i < |text| && StartsWord(text[i])
    ensures
      var e := WordEnd(text, i + 1);
      i + 1 <= e <= |text| && Lex(text, i, s) == Lex(text, e, s.(tokens := s.tokens + [Plain(text[i..e])]))
  {
    hide WordEnd;
  }

  lemma StepNumber(text: string, i: nat, s: Lexing)
    requires i < |text| && IsDigit(text[i])
    ensures
      var e := NumberEnd(text, i + 1);
      i + 1 <= e <= |text| && Lex(text, i, s) == Lex(text, e, s.(tokens := s.tokens + [Plain(text[i..e])]))
  {
    hide NumberEnd;
  }

  /** Any other character. */
  lemma StepSymbol(text: string, i: nat, s: Lexing)
    requires i < |text| && !IsSpace(text[i]) && !StartsWord(text[i]) && !IsDigit(text[i])
    requires text[i] != '\'' && text[i] != '"'
    requires !(text[i] == '/' && i + 1 < |text| && (text[i + 1] == '/' || text[i + 1] == '*'))
    ensures
      var c := text[i];
      var after := s.(result := s.result.UncertainIf(Unsupported(c), "unsupported_syntax")).Delimit(c);
      Lex(text, i, s) == Lex(text, i + 1, after.(tokens := s.tokens + [Plain([c])]))
  {
    hide Unsupported;
  }

  /** The delimiter stack. */
  method Balance(ch: char, stack: seq<char>, before: Dependencies, ghost tokens: seq<Token>)
    returns (delimiters: seq<char>, result: Dependencies)
    ensures Lexing(tokens, delimiters, result, false) == Lexing(tokens, stack, before, false).Delimit(ch)
  {
    delimiters, result := stack, before;
    if ch == '(' || ch == '{' { delimiters := delimiters + [ch]; }
    if ch == ')' || ch == '}' {
      var expected := if ch == ')' then '(' else '{';
      if delimiters == [] || delimiters[|delimiters| - 1] != expected {
        result := result.Uncertain("unbalanced_delimiters");
      } else {
        delimiters := delimiters[..|delimiters| - 1];
      }
    }
  }

  method SkipLine(source: string, from: nat) returns (i: nat)
    requires from <= |source|
    ensures i == LineEnd(source, from)
  {
    i := from;
    while i < |source| && source[i] != '\n'
      invariant from <= i <= |source| && LineEnd(source, from) == LineEnd(source, i)
    {
      i := i + 1;
    }
  }

  method FindCommentClose(source: string, from: nat) returns (close: nat)
    requires from <= |source|
    ensures close == CommentClose(source, from)
  {
    close := from;
    while close + 1 < |source| && !(source[close] == '*' && source[close + 1] == '/')
      invariant from <= close <= |source| && CommentClose(source, from) == CommentClose(source, close)
    {
      close := close + 1;
    }
    if close + 1 >= |source| { close := |source|; }
  }

  /** The end of the word or the number at `start`. */
  method SkipRun(source: string, start: nat, ghost s: Lexing) returns (i: nat)
    requires start < |source| && (StartsWord(source[start]) || IsDigit(source[start]))
    ensures start < i <= |source|
    ensures Lex(source, start, s) == Lex(source, i, s.(tokens := s.tokens + [Plain(source[start..i])]))
  {
    hide *;
    if StartsWord(source[start]) {
      StepWord(source, start, s);
      i := SkipWord(source, start + 1);
    } else {
      StepNumber(source, start, s);
      i := SkipNumber(source, start + 1);
    }
  }

  method SkipWord(source: string, from: nat) returns (i: nat)
    requires from <= |source|
    ensures i == WordEnd(source, from)
  {
    i := from;
    while i < |source| && IsWordChar(source[i])
      invariant from <= i <= |source| && WordEnd(source, from) == WordEnd(source, i)
    {
      i := i + 1;
    }
  }

  method SkipNumber(source: string, from: nat) returns (i: nat)
    requires from <= |source|
    ensures i == NumberEnd(source, from)
  {
    i := from;
    while i < |source| && IsNumberChar(source[i])
      invariant from <= i <= |source| && NumberEnd(source, from) == NumberEnd(source, i)
    {
      i := i + 1;
    }
  }

  method ReadString(source: string, start: nat, before: Dependencies)
    returns (token: Token, i: nat, closed: bool, result: Dependencies)
    requires start < |source|
    ensures var q := ReadQuoted(source, start + 1, source[start], Token("", true, false), false);
      && token == q.token && i == q.next && closed == q.closed
      && result == before.UncertainIf(q.multiline, "multiline_string")
  {
    var quote := source[start];
    token, i, closed, result := Token("", true, false), start + 1, false, before;
    ghost var goal := ReadQuoted(source, i, quote, token, false);
    ghost var multiline := false;
    while i < |source|
      invariant start < i <= |source| && !closed
      invariant goal == ReadQuoted(source, i, quote, token, multiline)
      invariant result == before.UncertainIf(multiline, "multiline_string")
    {
      var c := source[i];
      i := i + 1;
      if c == quote { closed := true; break; }
      if c == '\\' {
        token := token.(escaped := true);
        if i >= |source| { break; }
        token := token.(text := token.text + [c, source[i]]);
        i := i + 1;
      } else {
        if c == '\n' || c == '\r' {
          result := result.Uncertain("multiline_string");
          multiline := true;
        }
        token := token.(text := token.text + [c]);
      }
    }
  }

  /** The lexer finds no reads. */
  lemma {:induction false} LexKeepsReads(text: string, i: nat, s: Lexing)
    requires i <= |text|
    ensures Lex(text, i, s).result.tagReads == s.result.tagReads
    decreases |text| - i
  {
    if i < |text| {
      var c := text[i];
      if IsSpace(c) {
        LexKeepsReads(text, i + 1, s);
      } else if OpensComment(text, i, '/') {
        LexKeepsReads(text, LineEnd(text, i + 1), s);
      } else if OpensComment(text, i, '*') {
        var close := CommentClose(text, i + 2);
        if close < |text| { LexKeepsReads(text, close + 2, s); }
      } else if c == '\'' || c == '"' {
        var q := ReadQuoted(text, i + 1, c, Token("", true, false), false);
        if q.closed { LexKeepsReads(text, q.next, s.Doubt(q.multiline, "multiline_string").Push(q.token)); }
      } else if StartsWord(c) {
        LexKeepsReads(text, WordEnd(text, i + 1), s.Push(Plain(text[i..WordEnd(text, i + 1)])));
      } else if IsDigit(c) {
        LexKeepsReads(text, NumberEnd(text, i + 1), s.Push(Plain(text[i..NumberEnd(text, i + 1)])));
      } else {
        LexKeepsReads(text, i + 1, s.Symbol(c));
      }
    }
  }
}
