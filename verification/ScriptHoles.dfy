/** Where the analysis misses reads: it takes literals for inert, while the interpreter finds assignments, setTag
    calls and references inside them. For every tag there are scripts with a complete analysis that reports nothing,
    and runs that read the tag.
 */
module ScriptHoles {
  import opened AutomationDependencies
  import opened ScriptInterpreter
  import Language = ScriptLanguage
  import Reading = ScriptReading
  import Sound = InterpreterSoundness
  import Layouts = AutomationExactness

  // ---------------------------------------------------------------- scripts made of one literal

  /** `"raw";` */
  function Alone(raw: string): string { "\"" + raw + "\";" }

  /** `let y = "raw";` */
  function LetY(raw: string): string { "let y = \"" + raw + "\";" }

  const SPACE: Language.Gap := [Language.Blank(' ')]

  lemma PrintOne(x: Language.Lexeme, xs: seq<Language.Lexeme>, gap: Language.Gap, gaps: seq<Language.Gap>)
    requires |gaps| == |xs| + 1
    ensures Language.Print([x] + xs, [gap] + gaps)
      == Language.PrintGap(gap) + (Language.PrintLexeme(x) + Language.Print(xs, gaps))
  {
    assert ([x] + xs)[1..] == xs && ([gap] + gaps)[1..] == gaps;
  }

  lemma GapTexts()
    ensures Language.PrintGap([]) == "" && Language.PrintGap(SPACE) == " "
    ensures Language.Print([], [[]]) == ""
  {
    assert SPACE[1..] == [];
    assert Language.PrintGap(SPACE) == " " + "" == " ";
  }

  predicate OneLine(raw: string) { Language.IsRaw('"', raw) && !Language.SpansLines(raw) }

  /** A literal alone is analysed completely, and nothing is reported. */
  lemma AloneIsComplete(raw: string)
    requires OneLine(raw)
    ensures Analysis(Alone(raw)).complete && Analysis(Alone(raw)).tagReads == {}
  {
    var literal := Language.Text('"', raw);
    var program := [Language.Do(literal)];
    var xs := [Language.Literal('"', raw)] + ([Language.Symbol(';')] + []);
    var gaps: seq<Language.Gap> := [[]] + ([[]] + [[]]);
    assert program[1..] == [];
    assert Language.ProgramLexemes(program) == xs;
    GapTexts();
    PrintOne(Language.Symbol(';'), [], [], [[]]);
    PrintOne(Language.Literal('"', raw), [Language.Symbol(';')] + [], [], [[]] + [[]]);
    assert Language.Print(xs, gaps) == Alone(raw) by {
      assert [Language.Symbol(';')] + [] == [Language.Symbol(';')];
      assert ['"'] + raw + ['"'] == "\"" + raw + "\"";
      assert "" + ("\"" + raw + "\"" + ("" + (";" + ""))) == Alone(raw);
    }
    assert Layouts.OneLined(xs);
    Layouts.AnalysisIsExact(program, gaps);
  }

  /** So is one that is assigned. */
  lemma LetYIsComplete(raw: string)
    requires OneLine(raw)
    ensures Analysis(LetY(raw)).complete && Analysis(LetY(raw)).tagReads == {}
  {
    var program := [Language.Declare("let", "y", Language.Text('"', raw))];
    var x1, x2, x3 := Language.Word("let"), Language.Word("y"), Language.Symbol('=');
    var x4, x5 := Language.Literal('"', raw), Language.Symbol(';');
    var xs := [x1] + ([x2] + ([x3] + ([x4] + ([x5] + []))));
    var gaps: seq<Language.Gap> := [[]] + ([SPACE] + ([SPACE] + ([SPACE] + ([[]] + [[]]))));
    assert program[1..] == [];
    assert Language.ProgramLexemes(program) == xs;
    GapTexts();
    PrintOne(x5, [], [], [[]]);
    PrintOne(x4, [x5] + [], SPACE, [[]] + [[]]);
    PrintOne(x3, [x4] + ([x5] + []), SPACE, [SPACE] + ([[]] + [[]]));
    PrintOne(x2, [x3] + ([x4] + ([x5] + [])), SPACE, [SPACE] + ([SPACE] + ([[]] + [[]])));
    PrintOne(x1, [x2] + ([x3] + ([x4] + ([x5] + []))), [], [SPACE] + ([SPACE] + ([SPACE] + ([[]] + [[]]))));
    LetYText(raw);
    assert Language.Print(xs, gaps) == LetY(raw);
    assert Layouts.OneLined(xs);
    assert Language.IsQuiet("y");
    hide Analysis, Language.Print, Language.PrintGap;
    Layouts.AnalysisIsExact(program, gaps);
  }

  lemma LetYText(raw: string)
    ensures "" + ("let" + (" " + ("y" + (" " + ("=" + (" " + ("\"" + raw + "\"" + ("" + (";" + ""))))))))) == LetY(raw)
  {
  }

  // ---------------------------------------------------------------- what the interpreter makes of them

  /** Any text without quotes, backslashes and line ends. */
  predicate IsName(s: string) {
    s != "" && forall k | 0 <= k < |s| :: !IsQuote(s[k]) && s[k] != '\\' && s[k] != '\n' && s[k] != '\r'
  }

  /** Names made of letters, digits and underscores. */
  predicate IsSimple(s: string) { s != "" && forall k | 0 <= k < |s| :: IsNameChar(s[k]) }

  lemma SimpleIsName(s: string)
    requires IsSimple(s)
    ensures IsName(s)
  {
  }

  function CallText(c: string, g: string): string { "tag('" + c + "','" + g + "')" }

  lemma {:induction false} NothingStripped(s: string, i: nat, place: Place)
    requires i <= |s| && '/' !in s && Sound.Proper(place)
    ensures StripFrom(s, i, place) == s[i..]
    decreases |s| - i
  {
    if i < |s| {
      assert s[i] in s;
      NothingStripped(s, i + 1, Behind(place, s[i]));
      assert s[i..] == [s[i]] + s[i + 1..];
    }
  }

  /** The text s stands at p. */
  predicate Here(t: string, p: nat, s: string) { p + |s| <= |t| && t[p..p + |s|] == s }

  lemma HereWithin(t: string, p: nat, s: string, i: nat, j: nat)
    requires Here(t, p, s) && i <= j <= |s|
    ensures t[p + i..p + j] == s[i..j]
    ensures i < j ==> t[p + i] == s[i]
  {
    var u := t[p..p + |s|];
    assert forall k | i <= k < j :: u[k] == t[p + k];
    assert |u[i..j]| == |t[p + i..p + j]| && forall k | 0 <= k < j - i :: u[i..j][k] == t[p + i..p + j][k];
    assert u[i..j] == t[p + i..p + j];
  }

  lemma {:induction false} RunEnds(t: string, i: nat, e: nat)
    requires i <= e < |t| && (forall k | i <= k < e :: !IsQuote(t[k])) && IsQuote(t[e])
    ensures RunEnd(t, i) == e
    decreases e - i
  {
    if i < e { RunEnds(t, i + 1, e); }
  }

  /** The characters of a literal call, one by one. */
  lemma CallChars(t: string, p: nat, c: string, g: string)
    requires IsName(c) && IsName(g) && Here(t, p, CallText(c, g))
    ensures
      var m := p + 6 + |c|;
      && m + 3 + |g| < |t| && t[p..p + 3] == "tag" && t[p + 3] == '(' && t[p + 4] == '\''
      && t[p + 5..p + 5 + |c|] == c && t[p + 5 + |c|] == '\''
      && t[m] == ',' && t[m + 1] == '\'' && t[m + 2..m + 2 + |g|] == g && t[m + 2 + |g|] == '\''
        && t[m + 3 + |g|] == ')'
  {
    var s, m := CallText(c, g), 6 + |c|;
    CallTextIs(c, g);
    hide CallText, IsName;
    HereWithin(t, p, s, 0, 3);
    HereWithin(t, p, s, 3, 4);
    HereWithin(t, p, s, 4, 5);
    HereWithin(t, p, s, 5, 5 + |c|);
    HereWithin(t, p, s, 5 + |c|, 6 + |c|);
    HereWithin(t, p, s, m, m + 1);
    HereWithin(t, p, s, m + 1, m + 2);
    HereWithin(t, p, s, m + 2, m + 2 + |g|);
    HereWithin(t, p, s, m + 2 + |g|, m + 3 + |g|);
    HereWithin(t, p, s, m + 3 + |g|, m + 4 + |g|);
  }

  lemma CallTextIs(c: string, g: string)
    ensures
      var s, m := CallText(c, g), 6 + |c|;
      && |s| == m + 4 + |g| && s[0] == 't' && s[0..3] == "tag" && s[3] == '(' && s[4] == '\''
      && s[5..5 + |c|] == c && s[5 + |c|] == '\''
      && s[m] == ',' && s[m + 1] == '\'' && s[m + 2..m + 2 + |g|] == g && s[m + 2 + |g|] == '\''
        && s[m + 3 + |g|] == ')'
  {
  }

  /** White space and names end at once. */
  lemma NoSpaceHere(t: string, i: nat)
    requires i < |t| && !IsSpace(t[i])
    ensures SkipSpace(t, i) == i
  {
  }

  lemma TagEnds(t: string, p: nat)
    requires p + 3 < |t| && t[p..p + 3] == "tag" && !IsNameChar(t[p + 3])
    ensures NameEnd(t, p) == p + 3 && t[p] == 't' && t[p + 1] == 'a' && t[p + 2] == 'g'
  {
    var u := t[p..p + 3];
    assert t[p] == u[0] && t[p + 1] == u[1] && t[p + 2] == u[2];
    assert NameEnd(t, p + 3) == p + 3 && NameEnd(t, p + 2) == p + 3 && NameEnd(t, p + 1) == p + 3;
  }

  lemma QuotedHere(t: string, i: nat, s: string)
    requires IsName(s) && i + |s| + 1 < |t| && t[i] == '\'' && t[i + 1..i + 1 + |s|] == s && t[i + 1 + |s|] == '\''
    ensures QuotedAt(t, i) == Some((i + |s| + 2, s))
  {
    NoSpaceHere(t, i);
    forall k | i + 1 <= k < i + 1 + |s| ensures !IsQuote(t[k]) {
      assert t[k] == t[i + 1..i + 1 + |s|][k - i - 1];
    }
    RunEnds(t, i + 1, i + 1 + |s|);
    hide SkipSpace, RunEnd, IsName;
  }

  /** The pattern of a literal call matches there. */
  lemma Matches(t: string, p: nat, c: string, g: string)
    requires IsName(c) && IsName(g) && Here(t, p, CallText(c, g))
    ensures CallAt(t, p) == Some(Match("tag", (c, g), p + |CallText(c, g)|))
  {
    hide *;
    var m := p + 6 + |c|;
    CallChars(t, p, c, g);
    CallTextIs(c, g);
    NotSpaces();
    TagEnds(t, p);
    NoSpaceHere(t, p + 3);
    QuotedHere(t, p + 4, c);
    NoSpaceHere(t, m);
    QuotedHere(t, m + 1, g);
    NoSpaceHere(t, m + 3 + |g|);
    MatchIs(t, p, m, c, g, m + 4 + |g|);
  }

  lemma NotSpaces()
    ensures !IsSpace('(') && !IsSpace(',') && !IsSpace(')') && !IsSpace('\'') && !IsNameChar('(')
  {
  }

  lemma MatchIs(t: string, p: nat, m: nat, c: string, g: string, n: nat)
    requires p + 3 < m < n <= |t| && NameEnd(t, p) == p + 3 && t[p..p + 3] == "tag" && SkipSpace(t, p + 3) == p + 3
    requires t[p + 3] == '('
    requires QuotedAt(t, p + 4) == Some((m, c)) && SkipSpace(t, m) == m && t[m] == ','
    requires QuotedAt(t, m + 1) == Some((n - 1, g)) && SkipSpace(t, n - 1) == n - 1 && t[n - 1] == ')'
    ensures CallAt(t, p) == Some(Match("tag", (c, g), n))
  {
    hide SkipSpace, QuotedAt, NameEnd;
  }

  /** Characters without a meaning in a literal or a pattern. */
  predicate IsHarmless(s: string) {
    forall x | x in s :: x != '"' && x != '\\' && x != '/' && x != '\n' && x != '\r' && x != ';' && !IsSpace(x)
  }

  lemma CallIsPlain(c: string, g: string)
    requires IsName(c) && IsName(g)
    ensures forall x | x in CallText(c, g) :: x != '"' && x != '\\' && x != '\n' && x != '\r'
  {
    forall x | x in CallText(c, g) ensures x != '"' && x != '\\' && x != '\n' && x != '\r' {
      assert x in "tag('" || x in c || x in "','" || x in g || x in "')";
    }
  }

  lemma CallIsHarmless(c: string, g: string)
    requires IsSimple(c) && IsSimple(g)
    ensures IsHarmless(CallText(c, g))
  {
    forall x | x in CallText(c, g)
      ensures x != '"' && x != '\\' && x != '/' && x != '\n' && x != '\r' && x != ';' && !IsSpace(x)
    {
      assert x in "tag('" || x in c || x in "','" || x in g || x in "')";
    }
  }

  lemma {:induction false} PlainIsOneLine(raw: string)
    requires forall x | x in raw :: x != '"' && x != '\\' && x != '\n' && x != '\r'
    ensures OneLine(raw)
  {
    if raw != "" {
      assert raw[0] in raw && forall x | x in raw[1..] :: x in raw;
      PlainIsOneLine(raw[1..]);
    }
  }

  // ---------------------------------------------------------------- the holes

  /** A reference inside a literal: looked up in every run, whatever else happens; not reported. */
  lemma ReferenceInLiteral(c: string, g: string, w: World)
    requires IsName(c) && IsName(g) && c != "_system"
    ensures
      var source := Alone(CallText(c, g));
      && Analysis(source).complete && Analysis(source).tagReads == {}
      && (c, g) in ScriptReads(source, w)
  {
    var raw := CallText(c, g);
    var source := Alone(raw);
    CallIsPlain(c, g);
    PlainIsOneLine(raw);
    hide *;
    AloneIsComplete(raw);
    AloneIsKept(raw);
    QuoteIsNoName();
    Matches(source, 1, c, g);
    MatchIsReference(source, 1, (c, g), w);
  }

  lemma QuoteIsNoName()
    ensures !IsNameChar('"') && !IsNameChar('\'')
  {
  }

  /** Inside a literal nothing is a comment. */
  lemma {:induction false} LiteralKept(s: string, i: nat, e: nat)
    requires i <= e < |s| && s[e] == '"' && forall k | i <= k < e :: s[k] != '"' && s[k] != '\\'
    ensures StripFrom(s, i, Inside('"')) == s[i..e + 1] + StripFrom(s, e + 1, Code)
    decreases e - i
  {
    if i < e {
      LiteralKept(s, i + 1, e);
      assert [s[i]] + (s[i + 1..e + 1] + StripFrom(s, e + 1, Code)) == s[i..e + 1] + StripFrom(s, e + 1, Code);
    } else {
      assert s[i..e + 1] == [s[i]];
    }
  }

  /** A literal alone is run as it is. */
  lemma AloneIsKept(raw: string)
    requires forall x | x in raw :: x != '"' && x != '\\'
    ensures Strip(Alone(raw)) == Alone(raw) && Here(Alone(raw), 1, raw) && Alone(raw)[0] == '"'
  {
    var source, e := Alone(raw), |raw| + 1;
    assert source == "\"" + (raw + "\";");
    forall k | 1 <= k < e ensures source[k] != '"' && source[k] != '\\' {
      assert source[k] == raw[k - 1] && raw[k - 1] in raw;
    }
    LiteralKept(source, 1, e);
    assert StripFrom(source, e + 2, Code) == "";
    assert StripFrom(source, e + 1, Code) == ";";
    assert source == [source[0]] + (source[1..e + 1] + ";");
    assert source[1..1 + |raw|] == raw;
  }

  lemma MatchIsReference(source: string, p: nat, key: TagKey, w: World)
    requires Strip(source) == source && 0 < p < |source| && !IsNameChar(source[p - 1])
    requires CallAt(source, p).Some? && CallAt(source, p).value.name == "tag" && CallAt(source, p).value.key == key
    requires key.0 != "_system"
    ensures key in ScriptReads(source, w)
  {
    hide CallAt, RunReads, Strip;
    assert key in KeyRead(CallAt(source, p).value);
    Sound.ReferenceIs(source, p, key);
  }

  /** An assignment inside a literal: its value is a call, and evaluated. */
  lemma AssignmentInLiteral(c: string, g: string, w: World)
    requires IsSimple(c) && IsSimple(g) && c != "_system" && !w.stops(0)
    ensures
      var source := Alone("x=" + CallText(c, g) + ";");
      && Analysis(source).complete && Analysis(source).tagReads == {}
      && (c, g) in RunReads(Strip(source), w)
  {
    hide *;
    var raw := "x=" + CallText(c, g) + ";";
    var source, call := Alone(raw), CallText(c, g);
    CallIsHarmless(c, g);
    SimpleIsName(c);
    SimpleIsName(g);
    AssignmentIsRaw(call);
    AloneIsComplete(raw);
    AloneIsKept(raw);
    AssignmentText(source, call);
    CallTextIs(c, g);
    Matches(source[..3 + |call|], 3, c, g);
    AssignmentThere(source, call, (c, g), w.luck(1));
    OneParenthesis(source, c, g);
    FirstText(source, w, (c, g));
  }

  lemma AssignmentIsRaw(call: string)
    requires IsHarmless(call)
    ensures OneLine("x=" + call + ";") && forall x | x in "x=" + call + ";" :: x != '"' && x != '\\'
  {
    var raw := "x=" + call + ";";
    assert forall x | x in raw :: x in "x=" || x in call || x in ";";
    PlainIsOneLine(raw);
  }

  predicate AssignmentShape(t: string, call: string) {
    && |t| == |call| + 6 && t[0] == '"' && t[1] == 'x' && t[2] == '=' && t[3 + |call|] == ';'
    && forall k | 3 <= k < 3 + |call| :: t[k] == call[k - 3]
  }

  lemma AssignmentText(source: string, call: string)
    requires source == Alone("x=" + call + ";")
    ensures AssignmentShape(source, call) && Here(source[..3 + |call|], 3, call)
  {
    assert source == "\"x=" + (call + ";\";");
    assert source[3..3 + |call|] == call;
  }

  lemma {:induction false} FindsAt(t: string, i: nat, j: nat, c: char)
    requires i <= j < |t| && t[j] == c && forall k | i <= k < j :: t[k] != c
    ensures Find(t, i, c) == j
    decreases j - i
  {
    if i < j { FindsAt(t, i + 1, j, c); }
  }

  lemma AssignmentThere(t: string, call: string, key: TagKey, luck: Luck)
    requires AssignmentShape(t, call)
    requires IsHarmless(call) && |call| > 0 && call[0] == 't'
    requires CallAt(t[..3 + |call|], 3) == Some(Match("tag", key, 3 + |call|)) && key.0 != "_system"
    ensures key in AssignmentReads(t, 0, 0, luck)
  {
    var q := 3 + |call|;
    assert forall k | 3 <= k < q :: t[k] in call;
    FindsAt(t, 3, q, ';');
    assert TrimEnd(t, 0, 2) == 2 && TrimEnd(t, 3, q) == q by { assert t[q - 1] in call; }
    var u := t[..q];
    assert t[3] in call && u[3] == t[3] == 't';
    NoSpaceHere(u, 3);
    assert SkipSpace(u, q) == q;
    hide CallAt, Find, TrimEnd, SkipSpace;
    assert PartReads(t, 3, q, true, luck) == {key};
    assert AssignsAt(t, 0, 2);
    hide PartReads;
    assert AssignmentReads(t, 0, 2, luck) == PartReads(t, 3, q, true, luck) + AssignmentReads(t, q + 1, q + 1, luck);
    assert AssignmentReads(t, 0, 1, luck) == AssignmentReads(t, 0, 2, luck);
  }

  /** No if block: the only parenthesis follows the name of the call. */
  lemma OneParenthesis(source: string, c: string, g: string)
    requires IsSimple(c) && IsSimple(g) && source == Alone("x=" + CallText(c, g) + ";")
    ensures IfBlocks(source, 0) == Some([])
  {
    var head, tail := "\"x=tag(", "'" + c + "','" + g + "');\";";
    assert source == head + tail;
    PlainTail(c, g);
    assert forall k | 7 <= k < |source| :: source[k] == tail[k - 7] && source[k] in tail;
    hide CallText;
    NoBlocks(source, 0);
  }

  lemma PlainTail(c: string, g: string)
    requires IsSimple(c) && IsSimple(g)
    ensures var tail := "'" + c + "','" + g + "');\";"; forall x | x in tail :: x != '(' && !IsSpace(x)
  {
    var tail := "'" + c + "','" + g + "');\";";
    forall x | x in tail ensures x != '(' && !IsSpace(x) {
      assert x in "'" || x in c || x in "','" || x in g || x in "');\";";
    }
  }

  lemma {:induction false} NoBlocks(t: string, i: nat)
    requires (forall k | 0 <= k < |t| && t[k] == '(' :: k == 6) && forall k | 0 <= k < |t| :: !IsSpace(t[k])
    requires |t| > 6 && t[4] == 'a'
    ensures IfBlocks(t, i) == Some([])
    decreases |t| - i
  {
    if i < |t| {
      if KeywordAt(t, 0, i, "if") {
        assert t[i] == t[i..i + 2][0];
        assert SkipSpace(t, i + 2) == i + 2;
      }
      NoBlocks(t, i + 1);
    }
  }

  lemma FirstText(source: string, w: World, key: TagKey)
    requires Strip(source) == source && IfBlocks(source, 0) == Some([]) && !w.stops(0)
    requires key in AssignmentReads(source, 0, 0, w.luck(1))
    ensures key in RunReads(Strip(source), w)
  {
    assert Blanked(source, []) == source;
    hide Strip, IfBlocks, AssignmentReads, WriteReads, BlocksReads;
  }

  // ---------------------------------------------------------------- a setTag call inside a literal

  const CALL := "setTag('_memory','A', tag('C','T'))"

  const SCRIPT := "let y = \"setTag('_memory','A', tag('C','T'))\";"

  /** A quoted text without escapes from i to j. */
  predicate QuotedText(t: string, i: nat, j: nat) {
    i < j < |t| && t[i] == t[j] == '\'' && forall k | i < k < j :: t[k] != '\'' && t[k] != '\\'
  }

  predicate PlainText(t: string, i: nat, j: nat) {
    i <= j <= |t| && forall k | i <= k < j :: t[k] !in "()'\",\\"
  }

  /** What matters of the script's characters. */
  predicate Shape(t: string) {
    && |t| == 46 && CharAt(t, 15, '(') && QuotedText(t, 16, 24) && CharAt(t, 25, ',') && QuotedText(t, 26, 28)
    && CharAt(t, 29, ',') && PlainText(t, 30, 34) && CharAt(t, 34, '(') && QuotedText(t, 35, 37) && CharAt(t, 38, ',')
    && QuotedText(t, 39, 41) && CharAt(t, 42, ')') && CharAt(t, 43, ')')
  }

  lemma Peel(t: string, i: nat, s: string, rest: string)
    requires i <= |t| && t[i..] == s + rest
    ensures Here(t, i, s) && i + |s| <= |t| && t[i + |s|..] == rest
  {
    assert t[i..][|s|..] == t[i + |s|..] && t[i..][..|s|] == t[i..i + |s|];
  }

  lemma QuotedIs(t: string, i: nat, s: string)
    requires IsSimple(s) && Here(t, i, "'" + s + "'")
    ensures QuotedText(t, i, i + |s| + 1)
  {
    var u := "'" + s + "'";
    assert forall k | i <= k < i + |u| :: t[k] == t[i..i + |u|][k - i];
    assert forall k | 1 <= k <= |s| :: u[k] == s[k - 1];
  }

  lemma OneChar(t: string, i: nat, s: string)
    requires s != "" && Here(t, i, s)
    ensures CharAt(t, i, s[0])
  {
    assert t[i] == t[i..i + |s|][0];
  }

  lemma PlainHere(t: string, i: nat, s: string)
    requires Here(t, i, s) && forall c | c in s :: c !in "()'\",\\"
    ensures PlainText(t, i, i + |s|)
  {
    assert forall k | i <= k < i + |s| :: t[k] == t[i..i + |s|][k - i] && t[k] in s;
  }

  /** The script in pieces. */
  lemma ScriptPieces()
    ensures
      SCRIPT == "let y = \"" + ("setTag" + ("(" + ("'" + "_memory" + "'" + ("," + ("'" + "A" + "'" + ("," + (" tag"
        + ("(" + ("'" + "C" + "'" + ("," + ("'" + "T" + "'" + (")" + (")" + "\";")))))))))))))
  {
  }

  lemma ScriptStands()
    ensures
      var t := SCRIPT;
      && |t| == 46 && Here(t, 0, "let y = \"") && Here(t, 9, SET_TAG) && Here(t, 15, "(")
        && Here(t, 16, "'" + "_memory" + "'")
      && Here(t, 25, ",") && Here(t, 26, "'" + "A" + "'") && Here(t, 29, ",") && Here(t, 30, " tag") && Here(t, 34, "(")
      && Here(t, 35, "'" + "C" + "'") && Here(t, 38, ",") && Here(t, 39, "'" + "T" + "'") && Here(t, 42, ")")
        && Here(t, 43, ")")
      && Here(t, 44, "\";")
  {
    var t := SCRIPT;
    var z := ")" + "\";";
    var y := ")" + z;
    var x := "'" + "T" + "'" + y;
    var w := "," + x;
    var v := "'" + "C" + "'" + w;
    var u := "(" + v;
    var s := " tag" + u;
    var r := "," + s;
    var q := "'" + "A" + "'" + r;
    var p := "," + q;
    var o := "'" + "_memory" + "'" + p;
    var n := "(" + o;
    ScriptPieces();
    assert t[0..] == "let y = \"" + (SET_TAG + n);
    hide *;
    Peel(t, 0, "let y = \"", SET_TAG + n);
    Peel(t, 9, SET_TAG, n);
    Peel(t, 15, "(", o);
    Peel(t, 16, "'" + "_memory" + "'", p);
    Peel(t, 25, ",", q);
    Peel(t, 26, "'" + "A" + "'", r);
    Peel(t, 29, ",", s);
    Peel(t, 30, " tag", u);
    Peel(t, 34, "(", v);
    Peel(t, 35, "'" + "C" + "'", w);
    Peel(t, 38, ",", x);
    Peel(t, 39, "'" + "T" + "'", y);
    Peel(t, 42, ")", z);
    Peel(t, 43, ")", "\";");
    assert "\";" + "" == "\";";
    Peel(t, 44, "\";", "");
  }

  lemma NamesAreSimple()
    ensures IsSimple("_memory") && IsSimple("A") && IsSimple("C") && IsSimple("T")
    ensures forall c | c in " tag" :: c !in "()'\",\\"
  {
  }

  lemma ScriptHasShape()
    ensures Shape(SCRIPT)
  {
    var t := SCRIPT;
    ScriptStands();
    NamesAreSimple();
    hide Here, IsSimple, QuotedText, PlainText, CharAt;
    QuotedIs(t, 16, "_memory");
    QuotedIs(t, 26, "A");
    QuotedIs(t, 35, "C");
    QuotedIs(t, 39, "T");
    PlainHere(t, 30, " tag");
    OneChar(t, 15, "(");
    OneChar(t, 25, ",");
    OneChar(t, 29, ",");
    OneChar(t, 34, "(");
    OneChar(t, 38, ",");
    OneChar(t, 42, ")");
    OneChar(t, 43, ")");
  }

  lemma {:induction false} PassPlain(t: string, i: nat, j: nat, depth: nat)
    requires PlainText(t, i, j)
    ensures MatchingParen(t, i, depth, Code) == MatchingParen(t, j, depth, Code)
    decreases j - i
  {
    if i < j { PassPlain(t, i + 1, j, depth); }
  }

  lemma {:induction false} PassBody(t: string, i: nat, j: nat, depth: nat)
    requires i <= j < |t| && t[j] == '\'' && forall k | i <= k < j :: t[k] != '\'' && t[k] != '\\'
    ensures MatchingParen(t, i, depth, Inside('\'')) == MatchingParen(t, j + 1, depth, Code)
    decreases j - i
  {
    if i < j { PassBody(t, i + 1, j, depth); }
  }

  lemma PassQuoted(t: string, i: nat, j: nat, depth: nat)
    requires QuotedText(t, i, j)
    ensures MatchingParen(t, i, depth, Code) == MatchingParen(t, j + 1, depth, Code)
  {
    PassBody(t, i + 1, j, depth);
  }

  lemma PassOne(t: string, i: nat, depth: nat)
    ensures CharAt(t, i, ',') ==> MatchingParen(t, i, depth, Code) == MatchingParen(t, i + 1, depth, Code)
    ensures CharAt(t, i, '(') ==> MatchingParen(t, i, depth, Code) == MatchingParen(t, i + 1, depth + 1, Code)
    ensures CharAt(t, i, ')') && depth > 1 ==>
      MatchingParen(t, i, depth, Code) == MatchingParen(t, i + 1, depth - 1, Code)
    ensures CharAt(t, i, ')') && depth == 1 ==> MatchingParen(t, i, depth, Code) == Some(i)
  {
  }

  lemma CallMatches(t: string)
    requires Shape(t)
    ensures MatchingParen(t, 15, 0, Code) == Some(43)
  {
    hide MatchingParen, QuotedText, PlainText, CharAt;
    PassOne(t, 15, 0);
    PassQuoted(t, 16, 24, 1);
    PassOne(t, 25, 1);
    PassQuoted(t, 26, 28, 1);
    PassOne(t, 29, 1);
    PassPlain(t, 30, 34, 1);
    PassOne(t, 34, 1);
    PassQuoted(t, 35, 37, 2);
    PassOne(t, 38, 2);
    PassQuoted(t, 39, 41, 2);
    PassOne(t, 42, 2);
    PassOne(t, 43, 1);
  }

  lemma {:induction false} SplitBody(t: string, start: nat, i: nat, j: nat, depth: nat)
    requires start <= i <= j < |t| && t[j] == '\'' && forall k | i <= k < j :: t[k] != '\'' && t[k] != '\\'
    ensures SplitArgs(t, start, i, depth, Inside('\'')) == SplitArgs(t, start, j + 1, depth, Code)
    decreases j - i
  {
    if i < j { SplitBody(t, start, i + 1, j, depth); }
  }

  lemma SplitQuoted(t: string, start: nat, i: nat, j: nat, depth: nat)
    requires start <= i && QuotedText(t, i, j)
    ensures SplitArgs(t, start, i, depth, Code) == SplitArgs(t, start, j + 1, depth, Code)
  {
    SplitBody(t, start, i + 1, j, depth);
  }

  lemma {:induction false} SplitPlain(t: string, start: nat, i: nat, j: nat, depth: nat)
    requires start <= i && PlainText(t, i, j)
    ensures SplitArgs(t, start, i, depth, Code) == SplitArgs(t, start, j, depth, Code)
    decreases j - i
  {
    if i < j { SplitPlain(t, start, i + 1, j, depth); }
  }

  lemma SplitOne(t: string, start: nat, i: nat, depth: nat)
    requires start <= i < |t|
    ensures t[i] == ',' && depth > 0 ==> SplitArgs(t, start, i, depth, Code) == SplitArgs(t, start, i + 1, depth, Code)
    ensures t[i] == '(' ==> SplitArgs(t, start, i, depth, Code) == SplitArgs(t, start, i + 1, depth + 1, Code)
    ensures t[i] == ')' && depth > 0 ==>
      SplitArgs(t, start, i, depth, Code) == SplitArgs(t, start, i + 1, depth - 1, Code)
    ensures t[i] == ',' && depth == 0 && SplitArgs(t, i + 1, i + 1, 0, Code).Some? ==>
      SplitArgs(t, start, i, depth, Code) == Some([Part(start, i)] + SplitArgs(t, i + 1, i + 1, 0, Code).value)
  {
  }

  lemma SplitEnd(t: string, start: nat)
    requires start <= |t|
    ensures SplitArgs(t, start, |t|, 0, Code) == Some([Part(start, |t|)])
  {
  }

  lemma ShapeUntil(t: string)
    requires Shape(t)
    ensures
      var v := t[..43];
      && QuotedText(v, 16, 24) && v[25] == ',' && QuotedText(v, 26, 28) && v[29] == ',' && PlainText(v, 30, 34)
      && v[34] == '(' && QuotedText(v, 35, 37) && v[38] == ',' && QuotedText(v, 39, 41) && v[42] == ')'
  {
  }

  lemma SplitsInThree(t: string)
    requires Shape(t)
    ensures SplitArgs(t[..43], 16, 16, 0, Code) == Some([Part(16, 25), Part(26, 29), Part(30, 43)])
  {
    var v := t[..43];
    ShapeUntil(t);
    hide SplitArgs, QuotedText, PlainText, CharAt;
    SplitQuoted(v, 16, 16, 24, 0);
    SplitOne(v, 16, 25, 0);
    SplitQuoted(v, 26, 26, 28, 0);
    SplitOne(v, 26, 29, 0);
    SplitPlain(v, 30, 30, 34, 0);
    SplitOne(v, 30, 34, 0);
    SplitQuoted(v, 30, 35, 37, 1);
    SplitOne(v, 30, 38, 1);
    SplitQuoted(v, 30, 39, 41, 1);
    SplitOne(v, 30, 42, 1);
    SplitEnd(v, 30);
    assert [Part(16, 25)] + ([Part(26, 29)] + [Part(30, 43)]) == [Part(16, 25), Part(26, 29), Part(30, 43)];
  }

  lemma KeywordIsS(t: string, i: nat)
    ensures KeywordAt(t, 0, i, SET_TAG) ==> i < |t| && t[i] == 's'
  {
    if KeywordAt(t, 0, i, SET_TAG) { assert t[i..i + 6][0] == t[i]; }
  }

  lemma {:induction false} NoKeyword(t: string, i: nat, j: nat)
    requires i <= j <= |t| && forall k | i <= k < j :: t[k] != 's'
    ensures SetTagValues(t, 0, i) == SetTagValues(t, 0, j)
    decreases j - i
  {
    if i < j {
      KeywordIsS(t, i);
      NoKeyword(t, i + 1, j);
    }
  }

  lemma ScriptKeyword()
    ensures
      var t := SCRIPT;
      |t| == 46 && (forall k | 0 <= k < 9 :: t[k] != 's') && t[44] != 's' && t[45] != 's' && t[15] == '('
      && KeywordAt(t, 0, 9, SET_TAG)
  {
    var t := SCRIPT;
    ScriptStands();
    HereWithin(t, 9, SET_TAG, 0, 6);
    OneChar(t, 15, "(");
    HereChars(t, 0, "let y = \"");
    HereChars(t, 44, "\";");
    hide SCRIPT;
  }

  lemma HereChars(t: string, i: nat, s: string)
    requires Here(t, i, s)
    ensures forall k | i <= k < i + |s| :: t[k] == s[k - i]
  {
    assert forall k | i <= k < i + |s| :: t[k] == t[i..i + |s|][k - i];
  }

  lemma OneCall()
    ensures SetTagValues(SCRIPT, 0, 0) == Some([Part(30, 43)])
  {
    hide *;
    ScriptKeyword();
    ScriptHasShape();
    NotSpaces();
    NoKeyword(SCRIPT, 0, 9);
    NoKeyword(SCRIPT, 44, 46);
    CallMatches(SCRIPT);
    SplitsInThree(SCRIPT);
    NoSpaceHere(SCRIPT, 15);
    CallThere(SCRIPT);
  }

  lemma CallThere(t: string)
    requires |t| == 46 && KeywordAt(t, 0, 9, SET_TAG) && t[15] == '(' && SkipSpace(t, 15) == 15
    requires MatchingParen(t, 15, 0, Code) == Some(43) && SetTagValues(t, 0, 44) == SetTagValues(t, 0, 46)
    requires SplitArgs(t[..43], 16, 16, 0, Code) == Some([Part(16, 25), Part(26, 29), Part(30, 43)])
    ensures SetTagValues(t, 0, 9) == Some([Part(30, 43)])
  {
    hide MatchingParen, SplitArgs, SkipSpace, KeywordAt;
    assert SetTagValues(t, 0, 46) == Some([]);
    assert [Part(30, 43)] + [] == [Part(30, 43)];
  }

  lemma {:induction false} MoreKeeps(t: string, left: Parsed, luck: Luck)
    requires left.ok && left.next <= |t|
    ensures left.tagReads <= More(t, left, luck).tagReads
    decreases |t| - left.next
  {
    hide Operand, SkipSpace, OperatorLength;
    var j := SkipSpace(t, left.next);
    var n := OperatorLength(t, j);
    if n > 0 {
      var right := Operand(t, j + n, luck);
      if right.ok && !luck.fails(right.next) {
        MoreKeeps(t, Parsed(true, right.next, luck.text(right.next), left.tagReads + right.tagReads), luck);
      }
    }
  }

  lemma ExpressionKeeps(t: string, i: nat, luck: Luck)
    ensures Operand(t, i, luck).tagReads <= Expression(t, i, luck).tagReads
  {
    hide Operand, More;
    var first := Operand(t, i, luck);
    if first.ok { MoreKeeps(t, first, luck); }
  }

  lemma CallOperand(t: string, i: nat, luck: Luck)
    requires i < |t| && t[i] == 't' && CharAt(t, SkipSpace(t, NameEnd(t, i + 1)), '(')
    ensures
      var e := NameEnd(t, i + 1);
      Operand(t, i, luck) == Called(t[i..e], Arguments(t, SkipSpace(t, e) + 1, luck), i, luck)
  {
    NoSpaceHere(t, i);
    hide NameEnd, Arguments, Called, Expression, LiteralFrom;
    assert SkipSpace(t, i) == i;
    assert Operand(t, i, luck) == Primary(t, i, luck);
  }

  /** Two quoted texts without escapes are read as a literal call. */
  lemma QuotedCall(t: string, e: nat, n1: nat, n2: nat)
    requires n1 > 0 && n2 > 0 && CharAt(t, e, '(') && QuotedText(t, e + 1, n1 - 1) && CharAt(t, n1, ',')
    requires QuotedText(t, n1 + 1, n2 - 1)
    requires CharAt(t, n2, ')')
    ensures Reading.LiteralCall(t, e, n1, n2) && SkipSpace(t, n2) == n2 && SkipSpace(t, e) == e
    ensures Reading.CallKey(t, e, n1, n2) == (t[e + 2..n1 - 1], t[n1 + 2..n2 - 1])
  {
    NoSpaceHere(t, e);
    NoSpaceHere(t, e + 1);
    NoSpaceHere(t, n1);
    NoSpaceHere(t, n1 + 1);
    NoSpaceHere(t, n2);
    hide SkipSpace;
  }

  lemma CallReads(u: string, luck: Luck)
    requires |u| == 43 && u[31..34] == "tag" && CharAt(u, 34, '(') && QuotedText(u, 35, 37) && CharAt(u, 38, ',')
    requires QuotedText(u, 39, 41) && CharAt(u, 42, ')') && u[36..37] == "C" && u[40..41] == "T"
    ensures ("C", "T") in Expression(u, 31, luck).tagReads
  {
    TagEnds(u, 31);
    assert NameEnd(u, 31) == NameEnd(u, 32);
    NoSpaceHere(u, 34);
    QuotedCall(u, 34, 38, 42);
    hide SkipSpace, NameEnd, Reading.LiteralCall, Reading.CallKey, QuotedText, Expression, Arguments, Operand;
    Sound.ArgumentsAre(u, u, 34, 38, 42, luck);
    CallOperand(u, 31, luck);
    ExpressionKeeps(u, 31, luck);
    Sound.LowerNames("tag");
  }

  lemma {:induction false} NoIfs(t: string, i: nat)
    requires 'i' !in t
    ensures IfBlocks(t, i) == Some([])
    decreases |t| - i
  {
    if i < |t| {
      KeywordIsI(t, i);
      NoIfs(t, i + 1);
    }
  }

  lemma KeywordIsI(t: string, i: nat)
    ensures KeywordAt(t, 0, i, "if") ==> 'i' in t
  {
    if KeywordAt(t, 0, i, "if") {
      assert t[i..i + 2][0] == t[i];
      assert t[i] in t;
    }
  }

  lemma ScriptIsPlain()
    ensures SCRIPT == LetY(CALL) && OneLine(CALL) && '/' !in SCRIPT && 'i' !in SCRIPT
  {
    ScriptChars();
    CallCharacters();
    ScriptIsLetY();
    hide CALL, SCRIPT;
    PlainIsOneLine(CALL);
  }

  lemma ScriptIsLetY()
    ensures SCRIPT == LetY(CALL)
  {
  }

  lemma ScriptChars()
    ensures '/' !in SCRIPT && 'i' !in SCRIPT
  {
    CallCharacters();
    ScriptIsLetY();
    var head, tail := "let y = \"", "\";";
    assert forall x | x in head || x in tail :: x != '/' && x != 'i';
    hide CALL, SCRIPT;
    assert forall x | x in head + CALL + tail :: x in head || x in CALL || x in tail;
  }

  lemma CallCharacters()
    ensures forall x | x in CALL :: x != '"' && x != '\\' && x != '\n' && x != '\r' && x != '/' && x != 'i'
  {
  }

  /** The value argument of the call, evaluated. */
  lemma ValueReads(luck: Luck)
    ensures ("C", "T") in PartReads(SCRIPT, 30, 43, false, luck)
  {
    var t := SCRIPT;
    ScriptStands();
    ScriptHasShape();
    ShapeUntil(t);
    HereWithin(t, 30, " tag", 0, 1);
    HereWithin(t, 30, " tag", 1, 4);
    HereWithin(t, 35, "'" + "C" + "'", 1, 2);
    HereWithin(t, 39, "'" + "T" + "'", 1, 2);
    hide SCRIPT;
    SliceUntil(t, 43, 30, 31);
    SliceUntil(t, 43, 31, 34);
    SliceUntil(t, 43, 36, 37);
    SliceUntil(t, 43, 40, 41);
    var u := t[..43];
    assert TrimEnd(t, 30, 43) == 43;
    assert SkipSpace(u, 31) == 31 && SkipSpace(u, 30) == 31;
    hide Expression, SkipSpace, TrimEnd, CallAt, QuotedText, PlainText, Shape, Here;
    CallReads(u, luck);
  }

  lemma SliceUntil(t: string, n: nat, i: nat, j: nat)
    requires i < j <= n <= |t|
    ensures t[..n][i..j] == t[i..j] && t[..n][i] == t[i]
  {
  }

  /** A setTag call inside a literal: its value is evaluated whenever the target is accepted. The script writes a tag
      it was never seen to write, from one it was never seen to read. */
  lemma SetTagInLiteral(w: World)
    requires !w.stops(0) && !w.stops(1) && w.luck(2).accepts(30)
    ensures Analysis(SCRIPT).complete && Analysis(SCRIPT).tagReads == {} && ("C", "T") in RunReads(Strip(SCRIPT), w)
  {
    hide *;
    ScriptIsPlain();
    LetYIsComplete(CALL);
    NothingToStrip(SCRIPT);
    NoIfs(SCRIPT, 0);
    OneCall();
    ValueReads(w.luck(2));
    ScriptFits();
    FirstWrite(SCRIPT, Part(30, 43), w, ("C", "T"));
  }

  lemma ScriptFits()
    ensures |SCRIPT| == 46
  {
  }

  lemma NothingToStrip(t: string)
    requires '/' !in t
    ensures Strip(t) == t
  {
    NothingStripped(t, 0, Code);
    assert t[0..] == t;
  }

  lemma FirstWrite(t: string, part: Part, w: World, key: TagKey)
    requires Strip(t) == t && IfBlocks(t, 0) == Some([]) && SetTagValues(t, 0, 0) == Some([part])
    requires part.start <= part.end <= |t| && key in PartReads(t, part.start, part.end, false, w.luck(2))
    requires !w.stops(0) && !w.stops(1) && w.luck(2).accepts(part.start)
    ensures key in RunReads(Strip(t), w)
  {
    hide Strip, IfBlocks, PartReads, SetTagValues, AssignmentReads, BlocksReads;
    assert Blanked(t, []) == t;
    assert key in WriteReads(t, 0, w.luck(2));
    assert key in TextReads(t, 0, w, 1);
  }
}
