/** What a run of a script reads is what the analysis of its text reports, for every text whose analysis is complete and
    whose literals hold no call that reads or branches. Where they hold calls, but only whole ones on two quoted texts,
    runs read what is reported and what these calls read.
 */
module InterpreterSoundness {
  import opened AutomationDependencies
  import opened ScriptInterpreter
  import opened ScriptReading
  import Language = ScriptLanguage
  import Layouts = AutomationExactness

  // ---------------------------------------------------------------- the code is plain

  /** The stop of the lexer whose step covers p. */
  lemma {:induction false} StopBefore(t: string, i: nat, p: nat, x: Lexing) returns (a: nat)
    requires i <= p < |t| && Plainly(t, i) && !Lex(t, i, x).aborted
    ensures Visits(t, i, a) && i <= a <= p < NextStop(t, a)
    decreases p - i
  {
    PlainOn(t, i);
    ClosesIs(t, i);
    LexStep(t, i, x);
    if p < NextStop(t, i) {
      a := i;
    } else {
      hide Lex, Stepped, TokenAt, Plainly, NextStop;
      a := StopBefore(t, NextStop(t, i), p, Stepped(t, i, x));
    }
  }

  /** In the code there are neither slashes nor back quotes. */
  lemma CodeIsPlain(t: string, p: nat)
    requires Lexed(t) && p < |t| && PlaceAt(t, 0, p, Code) == Code
    ensures t[p] != '/' && t[p] != '`'
  {
    var a := StopBefore(t, 0, p, START);
    var y := Reached(t, 0, a, START);
    PlainOn(t, a);
    hide *;
    if a < p {
      StopCovers(t, a, p);
      PlainInside(t, a, p);
    }
  }

  lemma PlainInside(t: string, a: nat, p: nat)
    requires a < p < |t| && p < NextStop(t, a) && !IsQuote(t[a])
    ensures t[p] != '/' && t[p] != '`'
  {
    NextStopIs(t, a);
    if StartsWord(t[a]) { WordRun(t, a + 1); } else if IsDigit(t[a]) { NumberRun(t, a + 1); }
  }

  /** The lexer stops in the code. */
  lemma StopIsCode(t: string, a: nat)
    requires Lexed(t) && Visits(t, 0, a) && a <= |t|
    ensures PlaceAt(t, 0, a, Code) == Code
  {
    StopsInCode(t, 0, a, START);
  }

  lemma {:induction false} StopsInCode(t: string, i: nat, a: nat, x: Lexing)
    requires Visits(t, i, a) && a <= |t| && Plainly(t, i) && !Lex(t, i, x).aborted
    ensures i <= a && PlaceAt(t, i, a, Code) == Code
    decreases a - i
  {
    if i < a {
      PlainOn(t, i);
      ClosesIs(t, i);
      LexStep(t, i, x);
      StepPlaces(t, i);
      var n := NextStop(t, i);
      hide Lex, Stepped, TokenAt, Plainly, NextStop;
      StopsInCode(t, n, a, Stepped(t, i, x));
      PlaceBoth(t, i, n, a, Code);
    }
  }

  /** Places the reading of a text can be at, when it begins in the code. */
  predicate Proper(place: Place) {
    match place
    case Code => true
    case Inside(q) => IsQuote(q) || q == '`'
    case Escape(q) => IsQuote(q) || q == '`'
    case _ => false
  }

  lemma {:induction false} ProperStays(t: string, i: nat, k: nat, place: Place)
    requires i <= k <= |t| && Proper(place)
    ensures Proper(PlaceAt(t, i, k, place))
    decreases k - i
  {
    if i < k { ProperStays(t, i + 1, k, Behind(place, t[i])); }
  }

  /** Without quotes, one only stays in the code. */
  lemma {:induction false} CodeBefore(t: string, i: nat, k: nat, place: Place)
    requires i <= k <= |t| && Proper(place) && forall j | i <= j < k :: !IsQuote(t[j]) && t[j] != '`'
    requires PlaceAt(t, i, k, place) == Code
    ensures place == Code
    decreases k - i
  {
    if i < k { CodeBefore(t, i + 1, k, Behind(place, t[i])); }
  }

  // ---------------------------------------------------------------- names behind a dollar sign

  lemma {:induction false} LowerHas(s: string, c: char)
    requires c in s && ToLower(c) == c
    ensures c in Lower(s)
  {
    if s[0] != c { LowerHas(s[1..], c); }
  }

  lemma NoDollarInside(name: string)
    ensures '$' in name ==> !IsPure(name) && !IsHelper(name) && name != "if"
  {
  }

  /** The character behind white space at i makes the next token. */
  lemma TokenFollows(t: string, i: nat, y: Lexing)
    requires At(t, i, y) && SkipSpace(t, i) < |t|
    ensures |y.tokens| < |TokensOf(t)| && TokensOf(t)[|y.tokens|] == TokenAt(t, SkipSpace(t, i))
  {
    var j := SkipSpace(t, i);
    SpaceRun(t, i);
    SpacesSkipped(t, i, j, y);
    PlainOn(t, j);
    ClosesIs(t, j);
    LexStep(t, j, y);
    DoubtStays(t, NextStop(t, j), Stepped(t, j, y));
    hide Lex, Plainly, Stepped, TokenAt, NextStop, SkipSpace;
    assert Stepped(t, j, y).tokens[|y.tokens|] == TokenAt(t, j);
  }

  /** The lexer takes a dollar sign into the word, which is then a call of an unknown function. */
  lemma DollarIsDoubtful(t: string, p: nat, e: nat, o: nat) returns (k: nat)
    requires Lexed(t) && 0 < p < e <= o < |t| && t[p - 1] == '$' && t[o] == '('
    requires (forall k | p <= k < e :: IsNameChar(t[k])) && (forall k | e <= k < o :: IsSpace(t[k]))
    requires PlaceAt(t, 0, p, Code) == Code
    ensures k < |TokensOf(t)| && FindingAt(TokensOf(t), k).Doubtful?
  {
    var a := DollarStop(t, p);
    WordRun(t, a + 1);
    assert forall k | a + 1 <= k < e :: IsWordChar(t[k]);
    WordEndIs(t, a + 1, e);
    var y, z := WordAt(t, a);
    SkipTo(t, e, o);
    TokenFollows(t, e, z);
    k := |y.tokens|;
    var tokens, word := TokensOf(t), t[a..e];
    assert word[p - 1 - a] == '$' && word[0] == t[a];
    TokenAtParen(t, o);
    hide Lexed, TokenAt, WordEnd, SkipSpace, PlaceAt, Visits;
    LowerHas(word, '$');
    LowerFirst(word);
    UnknownCall(tokens, k);
  }

  lemma UnknownCall(tokens: seq<Token>, k: nat)
    requires k < |tokens| && !tokens[k].literal && IsPlain(tokens, k + 1, "(")
    requires '$' in Lower(tokens[k].text) && StartsWord(Lower(tokens[k].text)[0])
    ensures FindingAt(tokens, k).Doubtful?
  {
    NoDollarInside(Lower(tokens[k].text));
    hide Lower, IsPure, IsUnsupportedWord, IsHelper;
  }

  /** So a call in the code of an accepted text stands behind no dollar sign. */
  lemma NoDollarBefore(t: string, p: nat, e: nat, o: nat)
    requires Accepted(t) && p < e <= o < |t| && t[o] == '('
    requires (forall k | p <= k < e :: IsNameChar(t[k])) && (forall k | e <= k < o :: IsSpace(t[k]))
    requires PlaceAt(t, 0, p, Code) == Code
    ensures p > 0 ==> t[p - 1] != '$'
  {
    if p > 0 && t[p - 1] == '$' {
      var k := DollarIsDoubtful(t, p, e, o);
    }
  }

  lemma TokenAtParen(t: string, o: nat)
    requires o < |t| && t[o] == '('
    ensures TokenAt(t, o) == Plain("(")
  {
    hide ReadQuoted, WordEnd, NumberEnd;
  }

  /** The word with the dollar sign in it begins at a stop. */
  lemma DollarStop(t: string, p: nat) returns (a: nat)
    requires Lexed(t) && 0 < p < |t| && t[p - 1] == '$' && PlaceAt(t, 0, p, Code) == Code
    ensures a < p <= WordEnd(t, a + 1) && Visits(t, 0, a) && StartsWord(t[a])
  {
    a := StopBefore(t, 0, p - 1, START);
    CodeBehind(t, p);
    StopCovers(t, a, p - 1);
    hide *;
    NextStopIs(t, a);
    DollarIsWord(t, a, p - 1);
  }

  lemma DollarIsWord(t: string, a: nat, k: nat)
    requires a <= k < |t| && k < NextStop(t, a) && t[k] == '$' && !IsQuote(t[a])
    ensures StartsWord(t[a])
  {
    if IsDigit(t[a]) { NumberRun(t, a + 1); }
  }

  /** Behind an ordinary character in the code, before it one was in the code too. */
  lemma CodeBehind(t: string, p: nat)
    requires 0 < p <= |t| && PlaceAt(t, 0, p, Code) == Code && !IsQuote(t[p - 1]) && t[p - 1] != '`'
    ensures PlaceAt(t, 0, p - 1, Code) == Code
  {
    PlaceBoth(t, 0, p - 1, p, Code);
    ProperStays(t, 0, p - 1, Code);
    CodeBefore(t, p - 1, p, PlaceAt(t, 0, p - 1, Code));
  }

  /** A stop whose step covers a character in the code is no literal, unless it is the character itself. */
  lemma StopCovers(t: string, a: nat, k: nat)
    requires Lexed(t) && Visits(t, 0, a) && a <= k < |t| && k < NextStop(t, a) && PlaceAt(t, 0, k, Code) == Code
    ensures a < k ==> !IsQuote(t[a])
  {
    var y := Reached(t, 0, a, START);
    PlainOn(t, a);
    ClosesIs(t, a);
    LexStep(t, a, y);
    StopIsCode(t, a);
    StepPlaces(t, a);
    PlaceBoth(t, 0, a, k, Code);
  }

  lemma {:induction false} SkipTo(t: string, i: nat, j: nat)
    requires i <= j < |t| && (forall k | i <= k < j :: IsSpace(t[k])) && !IsSpace(t[j])
    ensures SkipSpace(t, i) == j
    decreases j - i
  {
    if i < j { SkipTo(t, i + 1, j); }
  }

  // ---------------------------------------------------------------- if blocks begin and end in the code

  /** The block's keyword is the head of a branch in the code, and behind its end one is in the code. */
  ghost predicate BlockInCode(t: string, b: Block) {
    && b.start + 2 <= b.end <= |t|
    && IsHead(t, b.start, b.start + 2, SkipSpace(t, b.start + 2))
    && (b.start == 0 || !IsNameChar(t[b.start - 1]))
    && PlaceAt(t, 0, b.start, Code) == Code && PlaceAt(t, 0, b.end, Code) == Code && t[b.end - 1] == '}'
  }

  lemma {:induction false} DelimInCode(t: string, i: nat, open: char, close: char, depth: int, place: Place)
    requires Accepted(t) && i <= |t| && PlaceAt(t, 0, i, Code) == place && Proper(place)
    requires MatchingDelim(t, i, open, close, depth, place).Some? && (close == ')' || close == '}')
    ensures
      var r := MatchingDelim(t, i, open, close, depth, place).value;
      PlaceAt(t, 0, r, Code) == Code && PlaceAt(t, 0, r + 1, Code) == Code
    decreases |t| - i
  {
    if place.Code? { CodeIsPlain(t, i); }
    var place' := Behind(place, t[i]);
    OnePlace(t, i);
    hide PlaceAt, Accepted;
    if !place.Code? {
      DelimInCode(t, i + 1, open, close, depth, place');
    } else if t[i] == open {
      DelimInCode(t, i + 1, open, close, depth + 1, place');
    } else if t[i] == close {
      if depth != 1 { DelimInCode(t, i + 1, open, close, depth - 1, place'); }
    } else {
      DelimInCode(t, i + 1, open, close, depth, place');
    }
  }

  lemma OnePlace(t: string, i: nat)
    requires i < |t|
    ensures PlaceAt(t, 0, i + 1, Code) == Behind(PlaceAt(t, 0, i, Code), t[i])
  {
    PlaceBoth(t, 0, i, i + 1, Code);
  }

  lemma PlainGap(t: string, i: nat, k: nat)
    requires i <= k <= |t| && PlaceAt(t, 0, i, Code) == Code
    requires forall j | i <= j < k :: !IsQuote(t[j]) && t[j] != '`'
    ensures PlaceAt(t, 0, k, Code) == Code
  {
    PlaceBoth(t, 0, i, k, Code);
    CodeStays(t, i, k);
  }

  lemma BracedInCode(t: string, i: nat)
    requires Accepted(t) && i <= |t| && PlaceAt(t, 0, i, Code) == Code && BracedAt(t, i).Some?
    ensures PlaceAt(t, 0, BracedAt(t, i).value.end + 1, Code) == Code
  {
    var b := SkipSpace(t, i);
    SpaceRun(t, i);
    PlainGap(t, i, b);
    DelimInCode(t, b, '{', '}', 0, Code);
  }

  /** The keyword of a block and its condition. */
  lemma ConditionInCode(t: string, i: nat)
    requires Accepted(t) && LiteralsTame(TokensOf(t))
    requires KeywordAt(t, 0, i, "if") && CharAt(t, SkipSpace(t, i + 2), '(')
    requires MatchingDelim(t, SkipSpace(t, i + 2), '(', ')', 0, Code).Some?
    ensures IsHead(t, i, i + 2, SkipSpace(t, i + 2)) && PlaceAt(t, 0, i, Code) == Code
    ensures i == 0 || !IsNameChar(t[i - 1])
    ensures
      var close := MatchingDelim(t, SkipSpace(t, i + 2), '(', ')', 0, Code).value;
      PlaceAt(t, 0, close + 1, Code) == Code
  {
    var o := SkipSpace(t, i + 2);
    SpaceRun(t, i + 2);
    IfChars(t, i);
    IfIsCode(t, i, o);
    PlainGap(t, i, o);
    DelimInCode(t, o, '(', ')', 0, Code);
  }

  /** No call begins with the keyword. */
  lemma IfIsCode(t: string, i: nat, o: nat)
    requires Lexed(t) && LiteralsTame(TokensOf(t)) && IsHead(t, i, i + 2, o) && t[i..i + 2] == "if"
    ensures PlaceAt(t, 0, i, Code) == Code
  {
    hide *;
    HeadFits(t, i, i + 2, o);
    var a := HeadIsPlaced(t, i, i + 2, o);
    if PlaceAt(t, 0, i, Code) != Code {
      InLiteralParts(t, a, i);
      var text, p := TokenAt(t, a).text, i - a - 1;
      var e, _, _, _, _ := BeginsParts(text, p);
      assert text[p] == t[i];
      IfChars(t, i);
      BeginsLikeTag(text, p, e);
    }
  }

  lemma HeadFits(t: string, p: nat, e: nat, o: nat)
    requires IsHead(t, p, e, o)
    ensures p < e <= o < |t|
  {
  }

  lemma BeginsParts(text: string, p: nat)
    returns (e: nat, o: nat, m: nat, first: (nat, string), second: (nat, string))
    requires p <= |text| && BeginsCall(text, p)
    ensures p <= e <= o < m < |text| && e == NameEnd(text, p) && o == SkipSpace(text, e)
    ensures text[p..e] == "tag" || text[p..e] == "quality" || text[p..e] == "hasTag"
  {
    e, o, m, first, second := MatchParts(text, p);
  }

  lemma BeginsLikeTag(text: string, p: nat, e: nat)
    requires p <= e <= |text| && (text[p..e] == "tag" || text[p..e] == "quality" || text[p..e] == "hasTag")
    ensures p < |text| && text[p] != 'i'
  {
    assert text[p..e] != "" ==> text[p] == text[p..e][0];
  }

  lemma IfChars(t: string, i: nat)
    requires i + 2 <= |t| && t[i..i + 2] == "if"
    ensures t[i] == 'i' && t[i + 1] == 'f'
  {
    assert t[i] == t[i..i + 2][0] && t[i + 1] == t[i..i + 2][1];
  }

  /** The else part of a block. */
  lemma ElseInCode(t: string, i: nat)
    requires Accepted(t) && i <= |t| && PlaceAt(t, 0, i, Code) == Code
    requires KeywordAt(t, 0, SkipSpace(t, i), "else") && BracedAt(t, SkipSpace(t, i) + 4).Some?
    ensures PlaceAt(t, 0, BracedAt(t, SkipSpace(t, i) + 4).value.end + 1, Code) == Code
  {
    var next := SkipSpace(t, i);
    SpaceRun(t, i);
    ElseChars(t, next);
    hide *;
    PlainGap(t, i, next + 4);
    BracedInCode(t, next + 4);
  }

  /** Where a block's parts end. */
  lemma BlockParts(t: string, i: nat)
    requires i + 2 <= |t| && BlockAt(t, i).Some?
    ensures
      var b, close := BlockAt(t, i).value, MatchingDelim(t, SkipSpace(t, i + 2), '(', ')', 0, Code);
      && b.start == i && close.Some? && i + 2 <= close.value < b.end <= |t| && t[b.end - 1] == '}'
      && BracedAt(t, close.value + 1).Some?
      && var after := BracedAt(t, close.value + 1).value.end + 1;
      if KeywordAt(t, 0, SkipSpace(t, after), "else")
      then BracedAt(t, SkipSpace(t, after) + 4).Some? && b.end == BracedAt(t, SkipSpace(t, after) + 4).value.end + 1
      else b.end == after
  {
    hide MatchingDelim, SkipSpace, HasIf, BracedAt, KeywordAt;
  }

  lemma ElseChars(t: string, i: nat)
    requires KeywordAt(t, 0, i, "else")
    ensures i + 4 <= |t| && forall k | i <= k < i + 4 :: !IsSpace(t[k]) && !IsQuote(t[k]) && t[k] != '`'
  {
    var word := t[i..i + 4];
    assert forall k | i <= k < i + 4 :: t[k] == word[k - i];
  }

  lemma BlockIsInCode(t: string, i: nat)
    requires Accepted(t) && LiteralsTame(TokensOf(t))
    requires KeywordAt(t, 0, i, "if") && CharAt(t, SkipSpace(t, i + 2), '(') && BlockAt(t, i).Some?
    ensures BlockInCode(t, BlockAt(t, i).value)
  {
    hide *;
    IfFits(t, i);
    var b := BlockAt(t, i).value;
    BlockParts(t, i);
    ConditionInCode(t, i);
    var close := MatchingDelim(t, SkipSpace(t, i + 2), '(', ')', 0, Code).value;
    BracedInCode(t, close + 1);
    var after := BracedAt(t, close + 1).value.end + 1;
    if KeywordAt(t, 0, SkipSpace(t, after), "else") { ElseInCode(t, after); }
    ItIsInCode(t, b);
  }

  lemma IfFits(t: string, i: nat)
    ensures KeywordAt(t, 0, i, "if") ==> i + 2 <= |t|
  {
  }

  lemma ItIsInCode(t: string, b: Block)
    requires b.start + 2 <= b.end <= |t| && IsHead(t, b.start, b.start + 2, SkipSpace(t, b.start + 2))
    requires b.start == 0 || !IsNameChar(t[b.start - 1])
    requires PlaceAt(t, 0, b.start, Code) == Code && PlaceAt(t, 0, b.end, Code) == Code && t[b.end - 1] == '}'
    ensures BlockInCode(t, b)
  {
  }

  ghost predicate BlocksInCode(t: string, blocks: seq<Block>) { forall b | b in blocks :: BlockInCode(t, b) }

  lemma {:induction false} IfBlocksInCode(t: string, i: nat)
    requires Accepted(t) && LiteralsTame(TokensOf(t)) && IfBlocks(t, i).Some?
    ensures BlocksInCode(t, IfBlocks(t, i).value)
    decreases |t| - i
  {
    if i < |t| {
      hide Accepted, LiteralsTame, BlockAt, SkipSpace, BlockInCode, TokensOf;
      if KeywordAt(t, 0, i, "if") && CharAt(t, SkipSpace(t, i + 2), '(') {
        BlockIsInCode(t, i);
        IfBlocksInCode(t, BlockAt(t, i).value.end);
      } else {
        IfBlocksInCode(t, i + 1);
      }
    }
  }

  // ---------------------------------------------------------------- calls in texts without their if blocks

  /** The texts of a run: an accepted one, as it is or without its if blocks. */
  ghost predicate Masks(t: string, blocks: seq<Block>) {
    Accepted(t) && LiteralsTame(TokensOf(t)) && BlocksInCode(t, blocks)
  }

  function Reported(t: string): set<TagKey> { ReadsIn(TokensOf(t), 0, |TokensOf(t)|) }

  /** What a run may read: what is reported, and what the calls in literals read. */
  ghost function Known(t: string): set<TagKey> { Reported(t) + LiteralKeys(TokensOf(t)) }

  /** What is not blanked is as it was. */
  lemma NotBlanked(t: string, blocks: seq<Block>, k: nat)
    requires k < |t|
    ensures !IsSpace(Blanked(t, blocks)[k]) ==> t[k] == Blanked(t, blocks)[k] && !InBlock(blocks, k)
    ensures !InBlock(blocks, k) ==> t[k] == Blanked(t, blocks)[k]
  {
  }

  /** The first position of a block from i on, before j. */
  function FirstBlanked(blocks: seq<Block>, i: nat, j: nat): (r: nat)
    requires i <= j
    ensures i <= r <= j && (forall k | i <= k < r :: !InBlock(blocks, k)) && (r < j ==> InBlock(blocks, r))
    decreases j - i
  {
    if i == j || InBlock(blocks, i) then i else FirstBlanked(blocks, i + 1, j)
  }

  /** The head of a reading call in the text without blocks: the word from p to e, and the parenthesis at o. */
  predicate ReadsHere(u: string, p: nat, e: nat, o: nat) {
    && p < e <= o < |u| && u[o] == '(' && ReadsValue(Lower(u[p..e]))
    && (forall k | p <= k < e :: IsNameChar(u[k])) && (forall k | e <= k < o :: IsSpace(u[k]))
  }

  lemma NameIsNoSpace(c: char)
    ensures IsNameChar(c) ==> !IsSpace(c) && IsWordChar(c) && !IsQuote(c) && c != '`'
    ensures IsSpace(c) ==> !IsQuote(c) && c != '`' && !IsWordChar(c) && c != '('
  {
  }

  /** Before the head in the full text there is no part of a longer word either. */
  lemma NoWordBefore(t: string, blocks: seq<Block>, p: nat)
    requires BlocksInCode(t, blocks) && p < |t| && !InBlock(blocks, p)
    requires p == 0 || !IsWordChar(Blanked(t, blocks)[p - 1])
    ensures p == 0 || !IsWordChar(t[p - 1])
  {
    hide *;
    if p > 0 {
      NotBlanked(t, blocks, p - 1);
      if InBlock(blocks, p - 1) {
        var b := BlockOf(blocks, p - 1);
        EndsInBrace(t, blocks, b);
        if p < b.end { InItsBlock(blocks, b, p); }
        BraceIsNoWord();
      }
    }
  }

  lemma BraceIsNoWord()
    ensures !IsWordChar('}')
  {
  }

  lemma EndsInBrace(t: string, blocks: seq<Block>, b: Block)
    requires BlocksInCode(t, blocks) && b in blocks
    ensures b.start < b.end <= |t| && t[b.end - 1] == '}'
  {
  }

  /** Within the white space of the head no block was cut out: the word would stand before a keyword. */
  lemma NoBlockInHead(t: string, blocks: seq<Block>, p: nat, e: nat, o: nat)
    requires Masks(t, blocks) && ReadsHere(Blanked(t, blocks), p, e, o)
    requires p == 0 || !IsWordChar(Blanked(t, blocks)[p - 1])
    ensures forall k | p <= k <= o :: !InBlock(blocks, k)
  {
    hide *;
    MaskParts(t, blocks);
    HeadParts(Blanked(t, blocks), p, e, o);
    WordKept(t, blocks, p, e, o);
    NoWordBefore(t, blocks, p);
    var r := FirstBlanked(blocks, e, o);
    GapKept(t, blocks, e, r, o);
    if r < o {
      var b := BlockOf(blocks, r);
      if b.start < r { InItsBlock(blocks, b, if b.start < p then p else b.start); }
      BlockStarts(t, blocks, b);
      WordIsCalled(t, p, e, r);
      KeywordIsNoCall(t, e, r);
    }
  }

  lemma MaskParts(t: string, blocks: seq<Block>)
    requires Masks(t, blocks)
    ensures Accepted(t) && LiteralsTame(TokensOf(t)) && BlocksInCode(t, blocks)
  {
  }

  lemma HeadParts(u: string, p: nat, e: nat, o: nat)
    requires ReadsHere(u, p, e, o)
    ensures p < e <= o < |u| && u[o] == '(' && ReadsValue(Lower(u[p..e]))
    ensures (forall k | p <= k < e :: IsNameChar(u[k])) && (forall k | e <= k < o :: IsSpace(u[k]))
  {
  }

  lemma BlockOf(blocks: seq<Block>, k: nat) returns (b: Block)
    requires InBlock(blocks, k)
    ensures b in blocks && b.start <= k < b.end
  {
    b :| b in blocks && b.start <= k < b.end;
  }

  lemma KeywordIsNoCall(t: string, e: nat, r: nat)
    requires e <= r < |t| && (forall k | e <= k < r :: IsSpace(t[k])) && t[r] == 'i'
    ensures !CharAt(t, SkipSpace(t, e), '(')
  {
    SkipTo(t, e, r);
  }

  lemma WordKept(t: string, blocks: seq<Block>, p: nat, e: nat, o: nat)
    requires ReadsHere(Blanked(t, blocks), p, e, o)
    ensures forall k | p <= k < e :: !InBlock(blocks, k) && IsNameChar(t[k])
    ensures ReadsValue(Lower(t[p..e])) && t[p..e] == Blanked(t, blocks)[p..e]
    ensures !InBlock(blocks, o) && t[o] == '('
  {
    var u := Blanked(t, blocks);
    forall k | p <= k < e ensures !InBlock(blocks, k) && t[k] == u[k] { NameIsNoSpace(u[k]); NotBlanked(t, blocks, k); }
    NotBlanked(t, blocks, o);
    hide Blanked;
    assert t[p..e] == u[p..e];
  }

  lemma GapKept(t: string, blocks: seq<Block>, e: nat, r: nat, o: nat)
    requires e <= r <= o <= |t| && forall k | e <= k < o :: IsSpace(Blanked(t, blocks)[k])
    requires forall k | e <= k < r :: !InBlock(blocks, k)
    ensures forall k | e <= k < r :: IsSpace(t[k])
  {
    forall k | e <= k < r ensures IsSpace(t[k]) { NotBlanked(t, blocks, k); }
  }

  lemma BlockStarts(t: string, blocks: seq<Block>, b: Block)
    requires BlocksInCode(t, blocks) && b in blocks
    ensures b.start + 2 < |t| && t[b.start] == 'i' && PlaceAt(t, 0, b.start, Code) == Code
    ensures b.start == 0 || !IsNameChar(t[b.start - 1])
    ensures IsHead(t, b.start, b.start + 2, SkipSpace(t, b.start + 2))
  {
    hide *;
    ItsBlock(t, blocks, b);
    StartParts(t, b);
    HeadIsIf(t, b.start, SkipSpace(t, b.start + 2));
  }

  lemma ItsBlock(t: string, blocks: seq<Block>, b: Block)
    requires BlocksInCode(t, blocks) && b in blocks
    ensures BlockInCode(t, b)
  {
    hide BlockInCode;
  }

  lemma StartParts(t: string, b: Block)
    requires BlockInCode(t, b)
    ensures IsHead(t, b.start, b.start + 2, SkipSpace(t, b.start + 2)) && b.start <= |t|
    ensures PlaceAt(t, 0, b.start, Code) == Code && (b.start == 0 || !IsNameChar(t[b.start - 1]))
  {
    hide IsHead, SkipSpace, PlaceAt;
  }

  lemma HeadIsIf(t: string, r: nat, o: nat)
    requires IsHead(t, r, r + 2, o)
    ensures r + 2 < |t| && t[r] == 'i'
  {
    NotReading(t[r..r + 2]);
    assert t[r..r + 2][0] == t[r];
  }

  lemma NotReading(word: string)
    ensures |word| == 2 ==> !ReadsValue(Lower(word))
  {
    LowerLength(word);
  }

  lemma {:induction false} LowerLength(s: string)
    ensures |Lower(s)| == |s|
  {
    if s != "" { LowerLength(s[1..]); }
  }

  lemma InItsBlock(blocks: seq<Block>, b: Block, k: nat)
    requires b in blocks && b.start <= k < b.end
    ensures InBlock(blocks, k)
  {
  }

  /** A reading word in the code, with white space behind it, is called. */
  lemma WordIsCalled(t: string, p: nat, e: nat, r: nat)
    requires Accepted(t) && p < e <= r < |t| && ReadsValue(Lower(t[p..e]))
    requires (forall k | p <= k < e :: IsNameChar(t[k])) && (forall k | e <= k < r :: IsSpace(t[k]))
    requires p == 0 || !IsWordChar(t[p - 1])
    requires PlaceAt(t, 0, r, Code) == Code && !IsNameChar(t[r - 1])
    ensures CharAt(t, SkipSpace(t, e), '(')
  {
    assert e < r;
    forall k | p <= k < r ensures !IsQuote(t[k]) && t[k] != '`' { NameIsNoSpace(t[k]); }
    PlaceBoth(t, 0, p, r, Code);
    ProperStays(t, 0, p, Code);
    CodeBefore(t, p, r, PlaceAt(t, 0, p, Code));
    WordStarts(t, p, e);
    WordIsVisited(t, 0, p, START);
    NameIsNoSpace(t[e]);
    forall k | p <= k < e ensures IsWordChar(t[k]) { NameIsNoSpace(t[k]); }
    WordEndIs(t, p + 1, e);
    var n1, n2 := CallIsLiteral(t, p, e);
  }

  lemma WordStarts(t: string, p: nat, e: nat)
    requires p < e <= |t| && (ReadsValue(Lower(t[p..e])) || t[p..e] == "if")
    ensures StartsWord(t[p])
  {
    assert t[p] == t[p..e][0];
    LowerFirst(t[p..e]);
  }

  /** A call the interpreter reads by is a literal one, whole in the text, and reported, or one in a literal. */
  lemma CallIsReported(t: string, blocks: seq<Block>, p: nat, e: nat, o: nat) returns (n1: nat, n2: nat)
    requires Masks(t, blocks) && ReadsHere(Blanked(t, blocks), p, e, o)
    requires p == 0 || !IsWordChar(Blanked(t, blocks)[p - 1])
    ensures LiteralCall(t, e, n1, n2) && o == SkipSpace(t, e)
    ensures CallKey(t, e, n1, n2).0 == "_system" || CallKey(t, e, n1, n2) in Known(t)
    ensures o < SkipSpace(t, n2) < |t|
    ensures forall k | p <= k <= SkipSpace(t, n2) :: t[k] == Blanked(t, blocks)[k]
  {
    hide *;
    MaskParts(t, blocks);
    NoBlockInHead(t, blocks, p, e, o);
    HeadParts(Blanked(t, blocks), p, e, o);
    HeadKept(t, blocks, p, e, o);
    HeadFits(t, p, e, o);
    AcceptedIsClean(t);
    var a := HeadIsPlaced(t, p, e, o);
    if PlaceAt(t, 0, p, Code) == Code {
      NoWordBefore(t, blocks, p);
      n1, n2 := CallInCode(t, blocks, p, e, o);
    } else {
      n1, n2 := CallInLiteral(t, blocks, a, p, e, o);
    }
  }


  lemma HeadKept(t: string, blocks: seq<Block>, p: nat, e: nat, o: nat)
    requires ReadsHere(Blanked(t, blocks), p, e, o) && forall k | p <= k <= o :: !InBlock(blocks, k)
    ensures IsHead(t, p, e, o) && ReadsValue(Lower(t[p..e]))
  {
    var u := Blanked(t, blocks);
    forall k | p <= k <= o ensures t[k] == u[k] { NotBlanked(t, blocks, k); }
    SameSlice(t, u, p, e);
    hide Blanked;
  }

  lemma CallInCode(t: string, blocks: seq<Block>, p: nat, e: nat, o: nat) returns (n1: nat, n2: nat)
    requires Masks(t, blocks) && IsHead(t, p, e, o) && ReadsValue(Lower(t[p..e])) && PlaceAt(t, 0, p, Code) == Code
    requires (p == 0 || !IsWordChar(t[p - 1])) && !InBlock(blocks, p)
    ensures LiteralCall(t, e, n1, n2) && o == SkipSpace(t, e)
    ensures CallKey(t, e, n1, n2).0 == "_system" || CallKey(t, e, n1, n2) in Known(t)
    ensures o < SkipSpace(t, n2) < |t|
    ensures forall k | p <= k <= SkipSpace(t, n2) :: t[k] == Blanked(t, blocks)[k]
  {
    HeadIsVisited(t, p, e, o);
    n1, n2 := CallIsLiteral(t, p, e);
    CallChars(t, e, n1, n2);
    SkipTo(t, e, o);
    forall k | p <= k <= SkipSpace(t, n2) ensures t[k] == Blanked(t, blocks)[k] {
      NoBlockInCall(t, blocks, p, SkipSpace(t, n2), k);
      NotBlanked(t, blocks, k);
    }
  }

  lemma CallInLiteral(t: string, blocks: seq<Block>, a: nat, p: nat, e: nat, o: nat) returns (n1: nat, n2: nat)
    requires Masks(t, blocks) && IsHead(t, p, e, o) && ReadsValue(Lower(t[p..e])) && InLiteral(t, a, p)
    requires BeginsCall(TokenAt(t, a).text, p - a - 1) && !InBlock(blocks, p)
    ensures LiteralCall(t, e, n1, n2) && o == SkipSpace(t, e)
    ensures CallKey(t, e, n1, n2).0 == "_system" || CallKey(t, e, n1, n2) in Known(t)
    ensures o < SkipSpace(t, n2) < |t|
    ensures forall k | p <= k <= SkipSpace(t, n2) :: t[k] == Blanked(t, blocks)[k]
  {
    hide *;
    MaskParts(t, blocks);
    InLiteralParts(t, a, p);
    LiteralCallBegins(t, a, p);
    n1, n2 := MatchIsCall(t, p, e, o);
    var text, q := TokenAt(t, a).text, p - a - 1;
    MatchKnown(t, a, p);
    HeadFits(t, p, e, o);
    HelperIsNoRead(t[p..e]);
    KeyInRead(CallAt(text, q).value, Known(t));
    forall k | p <= k <= SkipSpace(t, n2) ensures t[k] == Blanked(t, blocks)[k] {
      NoBlockInLiteral(t, blocks, a, p, k);
      NotBlanked(t, blocks, k);
    }
  }

  /** A match inside a literal is one in the text. */
  lemma LiteralCallBegins(t: string, a: nat, p: nat)
    requires InLiteral(t, a, p) && BeginsCall(TokenAt(t, a).text, p - a - 1)
    ensures
      var text, q := TokenAt(t, a).text, p - a - 1;
      && CallAt(text, q).Some?
      && CallAt(t, p) == Some(CallAt(text, q).value.(next := CallAt(text, q).value.next + a + 1))
      && CallAt(t, p).value.next < NextStop(t, a) && '\\' !in t[p..CallAt(t, p).value.next]
      && (p == a + 1 || !IsNameChar(t[p - 1]))
  {
    hide *;
    InLiteralParts(t, a, p);
    var n, text, q := NextStop(t, a), TokenAt(t, a).text, p - a - 1;
    BeginsIs(text, q);
    MatchShifts(t, a + 1, n - 1, q);
    SliceShifts(t, a + 1, n - 1, q, CallAt(text, q).value.next);
    assert q > 0 ==> text[q - 1] == t[p - 1];
  }

  lemma InLiteralParts(t: string, a: nat, p: nat)
    requires InLiteral(t, a, p)
    ensures a < p < |t| && p < NextStop(t, a) - 1 && NextStop(t, a) <= |t|
    ensures TokenAt(t, a) in TokensOf(t) && TokenAt(t, a).literal
    ensures TokenAt(t, a).text == t[a + 1..NextStop(t, a) - 1]
  {
    hide Visits, NextStop, TokenAt;
  }

  lemma BeginsIs(text: string, p: nat)
    requires p <= |text| && BeginsCall(text, p)
    ensures CallAt(text, p).Some? && p < CallAt(text, p).value.next <= |text|
    ensures (p == 0 || !IsNameChar(text[p - 1])) && '\\' !in text[p..CallAt(text, p).value.next]
  {
    var _, o, m, first, second := MatchParts(text, p);
    var c := MatchEnds(text, p, o, m, first, second);
    hide SkipSpace, NameEnd, QuotedAt;
  }

  lemma {:induction false} NameEndIs(t: string, p: nat, e: nat)
    requires p <= e < |t| && (forall k | p <= k < e :: IsNameChar(t[k])) && !IsNameChar(t[e])
    ensures NameEnd(t, p) == e
    decreases e - p
  {
    if p < e { NameEndIs(t, p + 1, e); }
  }

  lemma {:induction false} RunHasNoQuotes(t: string, i: nat)
    requires i <= |t|
    ensures forall k | i <= k < RunEnd(t, i) && k < |t| :: !IsQuote(t[k])
    decreases |t| - i
  {
    if i < |t| && !IsQuote(t[i]) { RunHasNoQuotes(t, i + 1); }
  }

  lemma QuotedIsLiteralAt(t: string, i: nat, r: (nat, string))
    requires i <= |t| && QuotedAt(t, i) == Some(r) && '\\' !in t[i..r.0]
    ensures LiteralAt(t, i, r.0) && LiteralText(t, i, r.0) == r.1
  {
    var q := SkipSpace(t, i);
    RunHasNoQuotes(t, q + 1);
    forall k | q < k < r.0 - 1 ensures t[k] != '\\' { assert t[k] == t[i..r.0][k - i]; }
    hide SkipSpace, RunEnd;
  }

  /** A match without escapes is a literal call. */
  lemma MatchIsCall(t: string, p: nat, e: nat, o: nat) returns (n1: nat, n2: nat)
    requires IsHead(t, p, e, o) && CallAt(t, p).Some? && '\\' !in t[p..CallAt(t, p).value.next]
    ensures LiteralCall(t, e, n1, n2) && o == SkipSpace(t, e) && CallKey(t, e, n1, n2) == CallAt(t, p).value.key
    ensures o < SkipSpace(t, n2) < |t| && CallAt(t, p).value.next == SkipSpace(t, n2) + 1
    ensures CallAt(t, p).value.name == t[p..e]
  {
    hide *;
    HeadEnds(t, p, e, o);
    var e', o', m, first, second := MatchParts(t, p);
    var c := MatchEnds(t, p, o, m, first, second);
    n1, n2 := first.0, second.0;
    MatchIs(t, p, e, o, m, c, first, second);
    QuotedOrder(t, o + 1, first);
    QuotedOrder(t, m + 1, second);
    SkipGrows(t, n1);
    SkipGrows(t, n2);
    NoneWithin(t, p, c + 1, o + 1, n1);
    NoneWithin(t, p, c + 1, m + 1, n2);
    QuotedIsLiteralAt(t, o + 1, first);
    QuotedIsLiteralAt(t, m + 1, second);
    CharsAt(t, o, m, c);
    LiteralCallIs(t, e, n1, n2);
  }

  lemma CharsAt(t: string, o: nat, m: nat, c: nat)
    requires o < |t| && m < |t| && c < |t| && t[o] == '(' && t[m] == ',' && t[c] == ')'
    ensures CharAt(t, o, '(') && CharAt(t, m, ',') && CharAt(t, c, ')')
  {
  }

  lemma HeadEnds(t: string, p: nat, e: nat, o: nat)
    requires IsHead(t, p, e, o)
    ensures p < e <= o < |t| && NameEnd(t, p) == e && SkipSpace(t, e) == o
  {
    NameIsNoSpace(t[e]);
    SkipTo(t, e, o);
    NameEndIs(t, p, e);
  }

  lemma QuotedOrder(t: string, i: nat, r: (nat, string))
    requires i <= |t| && QuotedAt(t, i) == Some(r)
    ensures i < r.0 <= |t|
  {
  }

  lemma SkipGrows(t: string, i: nat)
    ensures i <= SkipSpace(t, i)
  {
  }

  lemma NoneWithin(t: string, p: nat, q: nat, i: nat, j: nat)
    requires p <= i <= j <= q <= |t| && '\\' !in t[p..q]
    ensures '\\' !in t[i..j]
  {
    forall k | i <= k < j ensures t[k] != '\\' { assert t[k] == t[p..q][k - p]; }
  }

  /** What is read there is known. */
  lemma MatchKnown(t: string, a: nat, p: nat)
    requires InLiteral(t, a, p) && (p == a + 1 || !IsNameChar(t[p - 1])) && CallAt(TokenAt(t, a).text, p - a - 1).Some?
    ensures KeyRead(CallAt(TokenAt(t, a).text, p - a - 1).value) <= Known(t)
  {
    hide *;
    InLiteralParts(t, a, p);
    var text, q := TokenAt(t, a).text, p - a - 1;
    assert q > 0 ==> text[q - 1] == t[p - 1];
    KeysOfLiteral(TokensOf(t), TokenAt(t, a), q);
    LiteralIsKnown(t);
  }

  lemma KeysOfLiteral(tokens: seq<Token>, token: Token, p: nat)
    requires token in tokens && token.literal && p < |token.text| && (p == 0 || !IsNameChar(token.text[p - 1]))
    requires CallAt(token.text, p).Some?
    ensures KeyRead(CallAt(token.text, p).value) <= LiteralKeys(tokens)
  {
    hide CallAt, KeyRead, IsNameChar;
    forall key | key in KeyRead(CallAt(token.text, p).value) ensures key in LiteralKeys(tokens) {
      assert FoundInLiteral(token.text, p, key);
    }
  }

  lemma LiteralIsKnown(t: string)
    ensures LiteralKeys(TokensOf(t)) <= Known(t)
  {
  }

  lemma HelperIsNoRead(word: string)
    requires ReadsValue(Lower(word))
    ensures word != "hasTag"
  {
    if word == "hasTag" { assert Lower(word)[0] == 'h' by { LowerFirst(word); } }
  }

  lemma KeyInRead(found: Match, all: set<TagKey>)
    requires KeyRead(found) <= all && found.name != "hasTag"
    ensures found.key.0 == "_system" || found.key in all
  {
  }

  lemma NoBlockInLiteral(t: string, blocks: seq<Block>, a: nat, p: nat, k: nat)
    requires Masks(t, blocks) && InLiteral(t, a, p) && !InBlock(blocks, p) && p <= k < NextStop(t, a)
    ensures !InBlock(blocks, k)
  {
    hide *;
    MaskParts(t, blocks);
    InLiteralParts(t, a, p);
    if InBlock(blocks, k) {
      var b := BlockOf(blocks, k);
      if b.start <= p { InItsBlock(blocks, b, p); }
      BlockStarts(t, blocks, b);
      NoCodeInLiteral(t, a, p, b.start);
    }
  }

  lemma NoCodeInLiteral(t: string, a: nat, p: nat, k: nat)
    requires Accepted(t) && InLiteral(t, a, p) && a < k < NextStop(t, a)
    ensures PlaceAt(t, 0, k, Code) != Code
  {
    if PlaceAt(t, 0, k, Code) == Code { StopCovers(t, a, k); }
  }

  lemma SameSlice(t: string, u: string, p: nat, e: nat)
    requires p <= e <= |t| && e <= |u| && forall k | p <= k < e :: t[k] == u[k]
    ensures t[p..e] == u[p..e]
  {
  }

  /** A block cut out of the call would begin at a stop within it. */
  lemma NoBlockInCall(t: string, blocks: seq<Block>, p: nat, c: nat, k: nat)
    requires Masks(t, blocks) && p <= k <= c < |t| && !InBlock(blocks, p)
    requires forall r | p < r <= c && Visits(t, 0, r) :: r < |t| && !StartsWord(t[r])
    ensures !InBlock(blocks, k)
  {
    hide *;
    MaskParts(t, blocks);
    if InBlock(blocks, k) {
      var b := BlockOf(blocks, k);
      if b.start <= p { InItsBlock(blocks, b, p); }
      BlockStarts(t, blocks, b);
      StartIsVisited(t, b.start);
    }
  }

  lemma StartIsVisited(t: string, r: nat)
    requires Accepted(t) && LiteralsTame(TokensOf(t)) && IsHead(t, r, r + 2, SkipSpace(t, r + 2))
    requires PlaceAt(t, 0, r, Code) == Code && (r == 0 || !IsNameChar(t[r - 1]))
    ensures Visits(t, 0, r) && StartsWord(t[r])
  {
    WordStarts(t, r, r + 2);
    NoDollarBefore(t, r, r + 2, SkipSpace(t, r + 2));
    WordIsVisited(t, 0, r, START);
  }

  // ---------------------------------------------------------------- the arguments of such a call

  /** v is as t between i and j, as far as it goes. */
  predicate Agrees(t: string, v: string, i: nat, j: nat) {
    |v| <= |t| && forall k | i <= k <= j && k < |v| :: v[k] == t[k]
  }

  lemma {:induction false} SkipSame(t: string, v: string, i: nat)
    requires i <= |v| && SkipSpace(t, i) < |t| && Agrees(t, v, i, SkipSpace(t, i))
    ensures SkipSpace(v, i) == if SkipSpace(t, i) < |v| then SkipSpace(t, i) else |v|
    decreases |v| - i
  {
    if i < |v| && IsSpace(t[i]) { SkipSame(t, v, i + 1); }
  }

  lemma {:induction false} LiteralSame(t: string, v: string, i: nat, n: nat, quote: char, value: string)
    requires i < n <= |t| && Agrees(t, v, i, n) && i <= |v| && t[n - 1] == quote && quote != '\\'
    requires forall k | i <= k < n - 1 :: t[k] != quote && t[k] != '\\'
    ensures
      var r := LiteralFrom(v, i, quote, value);
      if n <= |v| then r == Some((n, value + t[i..n - 1])) else r == None
    decreases |v| - i
  {
    if i < |v| {
      if i == n - 1 {
        assert value + t[i..n - 1] == value;
      } else {
        LiteralSame(t, v, i + 1, n, quote, value + [v[i]]);
        assert value + [v[i]] + t[i + 1..n - 1] == value + t[i..n - 1];
      }
    }
  }

  /** A literal before a comma or a parenthesis is a whole expression, or the text ends within it. */
  lemma LiteralExpression(t: string, v: string, i: nat, n: nat, luck: Luck)
    requires LiteralAt(t, i, n) && SkipSpace(t, n) < |t| && t[SkipSpace(t, n)] in "),"
    requires i <= |v| && Agrees(t, v, i, SkipSpace(t, n))
    ensures
      var r := Expression(v, i, luck);
      if n <= |v| then r == Parsed(true, n, Some(LiteralText(t, i, n)), {}) else !r.ok
  {
    var q := SkipSpace(t, i);
    SkipSame(t, v, i);
    QuoteIs(t[q]);
    if q < |v| {
      LiteralSame(t, v, q + 1, n, t[q], "");
      assert "" + t[q + 1..n - 1] == LiteralText(t, i, n);
      LiteralPrimary(v, q, luck);
      LiteralOperand(v, i, luck);
      if n <= |v| {
        SkipSame(t, v, n);
        NoOperator(t, v, n);
        NoMore(v, i, luck);
      } else {
        NoFirst(v, i, luck);
      }
    } else {
      NothingThere(v, i, luck);
      NoFirst(v, i, luck);
    }
  }

  lemma QuoteIs(c: char)
    ensures IsQuote(c) ==> c != '\\' && c != '!' && c != '-' && c != '('
  {
  }

  lemma LiteralPrimary(v: string, q: nat, luck: Luck)
    requires q < |v| && IsQuote(v[q])
    ensures
      var literal := LiteralFrom(v, q + 1, v[q], "");
      Primary(v, q, luck) ==
        if literal.None? then Failed(|v|, {}) else Parsed(true, literal.value.0, Some(literal.value.1), {})
  {
    hide LiteralFrom, Expression, Arguments, NameEnd, SkipSpace, NumberStop;
  }

  lemma LiteralOperand(v: string, i: nat, luck: Luck)
    requires SkipSpace(v, i) < |v| && IsQuote(v[SkipSpace(v, i)])
    ensures Operand(v, i, luck) == Primary(v, SkipSpace(v, i), luck)
  {
    hide SkipSpace, Primary;
  }

  lemma NothingThere(v: string, i: nat, luck: Luck)
    requires SkipSpace(v, i) >= |v|
    ensures !Operand(v, i, luck).ok
  {
    hide SkipSpace;
  }

  lemma NoFirst(v: string, i: nat, luck: Luck)
    ensures !Operand(v, i, luck).ok ==> !Expression(v, i, luck).ok
  {
    hide Operand, More;
  }

  lemma NoMore(v: string, i: nat, luck: Luck)
    requires Operand(v, i, luck).ok && OperatorLength(v, SkipSpace(v, Operand(v, i, luck).next)) == 0
    ensures Expression(v, i, luck) == Operand(v, i, luck)
  {
    hide Operand, OperatorLength, SkipSpace;
  }

  lemma NoOperator(t: string, v: string, n: nat)
    requires n <= |v| && SkipSpace(t, n) < |t| && t[SkipSpace(t, n)] in ")," && Agrees(t, v, n, SkipSpace(t, n))
    requires SkipSpace(v, n) == if SkipSpace(t, n) < |v| then SkipSpace(t, n) else |v|
    ensures OperatorLength(v, SkipSpace(v, n)) == 0
  {
    hide SkipSpace;
  }

  /** The arguments of a literal call are its two texts. */
  lemma ArgumentsAre(t: string, v: string, e: nat, n1: nat, n2: nat, luck: Luck)
    requires LiteralCall(t, e, n1, n2) && SkipSpace(t, e) < |v| && SkipSpace(t, n2) < |t|
    requires Agrees(t, v, SkipSpace(t, e), SkipSpace(t, n2))
    ensures
      var args, key := Arguments(v, SkipSpace(t, e) + 1, luck), CallKey(t, e, n1, n2);
      if SkipSpace(t, n2) < |v| then args == ParsedArgs(true, SkipSpace(t, n2) + 1, [Some(key.0), Some(key.1)], {})
      else !args.ok
  {
    hide *;
    var o, m, c := SkipSpace(t, e), SkipSpace(t, n1), SkipSpace(t, n2);
    CallChars(t, e, n1, n2);
    CallParts(t, e, n1, n2);
    AgreesWithin(t, v, o, c, o + 1, m);
    LiteralExpression(t, v, o + 1, n1, luck);
    NotAParenthesis(t, v, o + 1, m);
    TwoArguments(v, o + 1, luck);
    if n1 <= |v| {
      AgreesWithin(t, v, o, c, n1, m);
      SkipSame(t, v, n1);
      AfterSkip(t, v, n1, m);
      if m < |v| {
        AgreesWithin(t, v, o, c, m + 1, c);
        LiteralExpression(t, v, m + 1, n2, luck);
        if n2 <= |v| {
          AgreesWithin(t, v, o, c, n2, c);
          SkipSame(t, v, n2);
          AfterSkip(t, v, n2, c);
        }
      }
    }
  }

  /** The character the texts share at the end of the white space, if the shorter one has it. */
  lemma AfterSkip(t: string, v: string, i: nat, j: nat)
    requires j < |t| && Agrees(t, v, i, j) && i <= j
    ensures j < |v| ==> (CharAt(v, j, ',') <==> t[j] == ',') && (CharAt(v, j, ')') <==> t[j] == ')')
    ensures !CharAt(v, |v|, ',') && !CharAt(v, |v|, ')')
  {
  }

  lemma NotAParenthesis(t: string, v: string, i: nat, j: nat)
    requires i <= |v| && SkipSpace(t, i) < |t| && IsQuote(t[SkipSpace(t, i)]) && SkipSpace(t, i) <= j
    requires Agrees(t, v, i, j)
    ensures !CharAt(v, SkipSpace(v, i), ')')
  {
    SkipSame(t, v, i);
    hide SkipSpace;
  }

  /** Two expressions with a comma between them, unfolded. */
  lemma TwoArguments(v: string, i: nat, luck: Luck)
    ensures
      var first, args := Expression(v, i, luck), Arguments(v, i, luck);
      var m := SkipSpace(v, first.next);
      var second := Expression(v, m + 1, luck);
      && (!first.ok && !CharAt(v, SkipSpace(v, i), ')') ==> !args.ok)
      && (first.ok && !CharAt(v, SkipSpace(v, i), ')') && !CharAt(v, m, ')') ==>
           (CharAt(v, m, ',') || !args.ok)
           && (CharAt(v, m, ',') && !second.ok ==> !args.ok)
           && (CharAt(v, m, ',') && second.ok && !CharAt(v, SkipSpace(v, second.next), ',') ==>
                if CharAt(v, SkipSpace(v, second.next), ')') then
                  args == ParsedArgs(true, SkipSpace(v, second.next) + 1, [first.text, second.text],
                                     first.tagReads + second.tagReads)
                else !args.ok))
  {
    hide Expression, SkipSpace, SomeArguments;
    var first := Expression(v, i, luck);
    var m := SkipSpace(v, first.next);
    OneArgument(v, i, luck);
    if first.ok && CharAt(v, m, ',') {
      OneArgument(v, m + 1, luck);
      assert [first.text] + [Expression(v, m + 1, luck).text] == [first.text, Expression(v, m + 1, luck).text];
    }
  }

  lemma OneArgument(v: string, i: nat, luck: Luck)
    ensures
      var first, args := Expression(v, i, luck), SomeArguments(v, i, luck);
      var m := SkipSpace(v, first.next);
      if !first.ok then !args.ok
      else if CharAt(v, m, ')') then args == ParsedArgs(true, m + 1, [first.text], first.tagReads)
      else if CharAt(v, m, ',') then
        var rest := SomeArguments(v, m + 1, luck);
        args == rest.(texts := [first.text] + rest.texts, tagReads := first.tagReads + rest.tagReads)
      else !args.ok
  {
    hide Expression, SkipSpace;
  }

  // ---------------------------------------------------------------- expressions

  /** v is the beginning of a text of the run. */
  ghost predicate PartOf(t: string, blocks: seq<Block>, v: string) {
    Masks(t, blocks) && v <= Blanked(t, blocks)
  }

  /** No part of a word stands directly before i. */
  predicate Free(v: string, i: nat) { 0 < i <= |v| ==> !IsWordChar(v[i - 1]) }

  lemma SkipIsFree(v: string, i: nat)
    requires Free(v, i) && i <= |v|
    ensures Free(v, SkipSpace(v, i))
  {
    SpaceRun(v, i);
    hide SkipSpace;
  }

  lemma {:induction false} NameRun(v: string, i: nat)
    requires i <= |v|
    ensures forall k | i <= k < NameEnd(v, i) :: IsNameChar(v[k])
    decreases |v| - i
  {
    if i < |v| && IsNameChar(v[i]) { NameRun(v, i + 1); }
  }

  /** A reading head in a part of a text is one in the text. */
  lemma HeadInWhole(v: string, u: string, p: nat, e: nat, o: nat)
    requires v <= u && ReadsHere(v, p, e, o) && Free(v, p)
    ensures ReadsHere(u, p, e, o) && (p == 0 || !IsWordChar(u[p - 1]))
  {
    assert v[p..e] == u[p..e];
    hide Lower, ReadsValue, IsSpace;
  }

  lemma PartParts(t: string, blocks: seq<Block>, v: string)
    requires PartOf(t, blocks, v)
    ensures Masks(t, blocks) && v <= Blanked(t, blocks) && |v| <= |t|
  {
  }

  /** A call read in a part of a text is a literal one, reported, and in the full text as in the part. */
  lemma ReportedCall(t: string, blocks: seq<Block>, v: string, p: nat, e: nat, o: nat) returns (n1: nat, n2: nat)
    requires PartOf(t, blocks, v) && ReadsHere(v, p, e, o) && Free(v, p)
    ensures LiteralCall(t, e, n1, n2) && o == SkipSpace(t, e)
    ensures CallKey(t, e, n1, n2).0 == "_system" || CallKey(t, e, n1, n2) in Known(t)
    ensures o < SkipSpace(t, n2) < |t| && Agrees(t, v, p, SkipSpace(t, n2))
  {
    hide *;
    PartParts(t, blocks, v);
    HeadInWhole(v, Blanked(t, blocks), p, e, o);
    n1, n2 := CallIsReported(t, blocks, p, e, o);
    AgreesThere(t, Blanked(t, blocks), v, p, SkipSpace(t, n2));
  }

  lemma AgreesThere(t: string, u: string, v: string, i: nat, j: nat)
    requires v <= u && |u| == |t| && j < |t| && forall k | i <= k <= j :: t[k] == u[k]
    ensures Agrees(t, v, i, j)
  {
  }

  lemma NameReads(v: string, p: nat)
    requires p < |v| && StartsName(v[p]) && CharAt(v, SkipSpace(v, NameEnd(v, p + 1)), '(')
    requires ReadsValue(Lower(v[p..NameEnd(v, p + 1)]))
    ensures ReadsHere(v, p, NameEnd(v, p + 1), SkipSpace(v, NameEnd(v, p + 1)))
  {
    hide *;
    var e := NameEnd(v, p + 1);
    NameRun(v, p + 1);
    SpaceRun(v, e);
    OpensThere(v, p, SkipSpace(v, e));
    ItReadsHere(v, p, e, SkipSpace(v, e));
  }

  lemma OpensThere(v: string, p: nat, o: nat)
    requires p < |v| && StartsName(v[p]) && CharAt(v, o, '(')
    ensures IsNameChar(v[p]) && o < |v| && v[o] == '('
  {
  }

  lemma ItReadsHere(v: string, p: nat, e: nat, o: nat)
    requires p < e <= o < |v| && v[o] == '(' && ReadsValue(Lower(v[p..e])) && IsNameChar(v[p])
    requires (forall k | p + 1 <= k < e :: IsNameChar(v[k])) && (forall k | e <= k < o :: IsSpace(v[k]))
    ensures ReadsHere(v, p, e, o)
  {
    hide IsNameChar, IsSpace, ReadsValue, Lower;
  }

  /** What a call of tag or quality looks up is reported. */
  lemma CalledIsReported(t: string, blocks: seq<Block>, v: string, p: nat, luck: Luck)
    requires PartOf(t, blocks, v) && p < |v| && StartsName(v[p]) && Free(v, p)
    requires CharAt(v, SkipSpace(v, NameEnd(v, p + 1)), '(') && ReadsValue(Lower(v[p..NameEnd(v, p + 1)]))
    ensures
      var args := Arguments(v, SkipSpace(v, NameEnd(v, p + 1)) + 1, luck);
      args.ok ==> KeyOf(args.texts) <= Known(t)
  {
    hide *;
    var e := NameEnd(v, p + 1);
    NameReads(v, p);
    HeadParts(v, p, e, SkipSpace(v, e));
    var n1, n2 := ReportedCall(t, blocks, v, p, e, SkipSpace(v, e));
    AgreesWithin(t, v, p, SkipSpace(t, n2), SkipSpace(t, e), SkipSpace(t, n2));
    ArgumentsAre(t, v, e, n1, n2, luck);
    KeyIs(CallKey(t, e, n1, n2), Known(t));
  }

  lemma KeyIs(key: TagKey, all: set<TagKey>)
    ensures key.0 == "_system" || key in all ==> KeyOf([Some(key.0), Some(key.1)]) <= all
  {
  }

  lemma {:induction false} ExpressionSound(t: string, blocks: seq<Block>, v: string, i: nat, luck: Luck)
    requires PartOf(t, blocks, v) && Free(v, i)
    ensures Expression(v, i, luck).tagReads <= Known(t)
    decreases |v| - i, 4
  {
    hide PartOf, Known, Operand, More;
    OperandSound(t, blocks, v, i, luck);
    var first := Operand(v, i, luck);
    if first.ok { MoreSound(t, blocks, v, first, luck); }
  }

  lemma {:induction false} MoreSound(t: string, blocks: seq<Block>, v: string, left: Parsed, luck: Luck)
    requires left.ok && left.next <= |v| && PartOf(t, blocks, v) && left.tagReads <= Known(t)
    ensures More(v, left, luck).tagReads <= Known(t)
    decreases |v| - left.next, 3
  {
    hide PartOf, Known, Operand, SkipSpace, OperatorLength;
    var j := SkipSpace(v, left.next);
    var n := OperatorLength(v, j);
    if n > 0 {
      FreeBehindOperator(v, j);
      OperandSound(t, blocks, v, j + n, luck);
      var right := Operand(v, j + n, luck);
      var all := left.tagReads + right.tagReads;
      if right.ok && !luck.fails(right.next) {
        MoreSound(t, blocks, v, Parsed(true, right.next, luck.text(right.next), all), luck);
      }
    }
  }

  lemma FreeBehindOperator(v: string, j: nat)
    ensures var n := OperatorLength(v, j); n > 0 ==> Free(v, j + n)
  {
  }

  lemma FreeBehind(v: string, j: nat)
    requires j < |v| && (v[j] in "!-(,=;{" || IsSpace(v[j]))
    ensures Free(v, j + 1)
  {
  }

  lemma {:induction false} OperandSound(t: string, blocks: seq<Block>, v: string, i: nat, luck: Luck)
    requires PartOf(t, blocks, v) && Free(v, i)
    ensures Operand(v, i, luck).tagReads <= Known(t)
    decreases |v| - i, 2
  {
    hide PartOf, Known, Primary, SkipSpace;
    var j := SkipSpace(v, i);
    if CharAt(v, j, '!') || CharAt(v, j, '-') {
      FreeBehind(v, j);
      OperandSound(t, blocks, v, j + 1, luck);
    } else {
      if i <= |v| { SkipIsFree(v, i); } else { PastTheEnd(v, i); }
      PrimarySound(t, blocks, v, j, luck);
    }
  }

  lemma PastTheEnd(v: string, i: nat)
    requires i > |v|
    ensures SkipSpace(v, i) == i && Free(v, i)
  {
  }

  lemma {:induction false} PrimarySound(t: string, blocks: seq<Block>, v: string, i: nat, luck: Luck)
    requires PartOf(t, blocks, v) && Free(v, i)
    ensures Primary(v, i, luck).tagReads <= Known(t)
    decreases |v| - i, 1
  {
    hide PartOf, Known, Expression, SkipSpace, NameEnd, LiteralFrom, Arguments, NumberStop, Called, ReadsValue,
        KeyOf;
    if i < |v| && v[i] == '(' {
      FreeBehind(v, i);
      ExpressionSound(t, blocks, v, i + 1, luck);
    } else if i < |v| && StartsName(v[i]) && CharAt(v, SkipSpace(v, NameEnd(v, i + 1)), '(') {
      NameIsNoOther(v[i]);
      var o := SkipSpace(v, NameEnd(v, i + 1));
      FreeBehind(v, o);
      ArgumentsSound(t, blocks, v, o + 1, luck);
      var args, name := Arguments(v, o + 1, luck), v[i..NameEnd(v, i + 1)];
      if ReadsValue(Lower(name)) { CalledIsReported(t, blocks, v, i, luck); }
      CalledReads(name, args, i, luck, Known(t));
    }
  }

  lemma NameIsNoOther(c: char)
    ensures StartsName(c) ==> c != '(' && !IsQuote(c) && !IsDigit(c) && c != '.'
  {
  }

  lemma CalledReads(name: string, args: ParsedArgs, i: nat, luck: Luck, all: set<TagKey>)
    requires args.tagReads <= all && (ReadsValue(Lower(name)) && args.ok ==> KeyOf(args.texts) <= all)
    ensures Called(name, args, i, luck).tagReads <= all
  {
    hide KeyOf, Lower;
  }

  lemma {:induction false} ArgumentsSound(t: string, blocks: seq<Block>, v: string, i: nat, luck: Luck)
    requires PartOf(t, blocks, v) && Free(v, i)
    ensures Arguments(v, i, luck).tagReads <= Known(t)
    decreases |v| - i, 6
  {
    hide PartOf, Known, SomeArguments, SkipSpace;
    SomeArgumentsSound(t, blocks, v, i, luck);
  }

  lemma {:induction false} SomeArgumentsSound(t: string, blocks: seq<Block>, v: string, i: nat, luck: Luck)
    requires PartOf(t, blocks, v) && Free(v, i)
    ensures SomeArguments(v, i, luck).tagReads <= Known(t)
    decreases |v| - i, 5
  {
    hide PartOf, Known, Expression, SkipSpace;
    ExpressionSound(t, blocks, v, i, luck);
    var first := Expression(v, i, luck);
    var j := SkipSpace(v, first.next);
    if first.ok && !CharAt(v, j, ')') && CharAt(v, j, ',') {
      FreeBehind(v, j);
      SomeArgumentsSound(t, blocks, v, j + 1, luck);
    }
  }

  // ---------------------------------------------------------------- literal calls found by pattern

  lemma {:induction false} RunSame(t: string, v: string, i: nat, n: nat, quote: char)
    requires i < n <= |t| && Agrees(t, v, i, n) && i <= |v| && t[n - 1] == quote && IsQuote(quote)
    requires forall k | i <= k < n - 1 :: t[k] != quote
    ensures CharAt(v, RunEnd(v, i), quote) ==> RunEnd(v, i) == n - 1
    decreases |v| - i
  {
    if i < |v| && !IsQuote(v[i]) { RunSame(t, v, i + 1, n, quote); }
  }

  lemma QuotedSame(t: string, v: string, i: nat, n: nat)
    requires LiteralAt(t, i, n) && i <= |v| && Agrees(t, v, i, n)
    ensures QuotedAt(v, i).Some? ==> QuotedAt(v, i).value == (n, LiteralText(t, i, n))
  {
    var q := SkipSpace(t, i);
    SkipSame(t, v, i);
    if q < |v| {
      RunSame(t, v, q + 1, n, t[q]);
      if QuotedAt(v, i).Some? {
        assert v[q + 1..n - 1] == t[q + 1..n - 1];
      }
    }
  }

  /** What the pattern of a literal call finds is reported. */
  lemma MatchIsReported(t: string, blocks: seq<Block>, v: string, p: nat)
    requires PartOf(t, blocks, v) && p < |v| && CallAt(v, p).Some? && Free(v, p)
    ensures KeyRead(CallAt(v, p).value) <= Known(t)
  {
    hide *;
    var e, o, _, _, _ := MatchParts(v, p);
    if CallAt(v, p).value.name != "hasTag" {
      MatchReads(v, p);
      HeadParts(v, p, e, o);
      var n1, n2 := ReportedCall(t, blocks, v, p, e, o);
      MatchSame(t, v, p, e, n1, n2);
      KeyReadIs(CallAt(v, p).value, Known(t));
    } else {
      KeyReadIs(CallAt(v, p).value, Known(t));
    }
  }

  lemma KeyReadIs(found: Match, all: set<TagKey>)
    ensures found.name == "hasTag" || found.key.0 == "_system" || found.key in all ==> KeyRead(found) <= all
  {
  }

  lemma MatchReads(v: string, p: nat)
    requires p <= |v| && CallAt(v, p).Some? && CallAt(v, p).value.name != "hasTag"
    ensures p < |v| && ReadsHere(v, p, NameEnd(v, p), SkipSpace(v, NameEnd(v, p)))
  {
    var e, o, _, _, _ := MatchParts(v, p);
    LowerNames(v[p..e]);
    NameRun(v, p);
    SpaceRun(v, e);
    hide SkipSpace, NameEnd, CallAt, QuotedAt, Lower, ReadsValue;
  }

  /** The pattern's two texts are those of the literals. */
  lemma MatchSame(t: string, v: string, p: nat, e: nat, n1: nat, n2: nat)
    requires p <= |v| && CallAt(v, p).Some? && e == NameEnd(v, p) && LiteralCall(t, e, n1, n2)
    requires SkipSpace(t, e) == SkipSpace(v, e) && Agrees(t, v, p, SkipSpace(t, n2))
    ensures CallAt(v, p).value.key == CallKey(t, e, n1, n2)
  {
    hide *;
    var _, o, m, _, _ := MatchParts(v, p);
    CallChars(t, e, n1, n2);
    CallParts(t, e, n1, n2);
    AgreesWithin(t, v, p, SkipSpace(t, n2), o + 1, n1);
    QuotedSame(t, v, o + 1, n1);
    AgreesWithin(t, v, p, SkipSpace(t, n2), n1, SkipSpace(t, n1));
    SkipSame(t, v, n1);
    AgreesWithin(t, v, p, SkipSpace(t, n2), m + 1, n2);
    QuotedSame(t, v, m + 1, n2);
  }

  lemma CallParts(t: string, e: nat, n1: nat, n2: nat)
    requires LiteralCall(t, e, n1, n2)
    ensures LiteralAt(t, SkipSpace(t, e) + 1, n1) && LiteralAt(t, SkipSpace(t, n1) + 1, n2)
    ensures CallKey(t, e, n1, n2) == (LiteralText(t, SkipSpace(t, e) + 1, n1), LiteralText(t, SkipSpace(t, n1) + 1, n2))
  {
    hide LiteralAt, LiteralText, SkipSpace;
  }

  lemma AgreesWithin(t: string, v: string, i: nat, j: nat, k: nat, l: nat)
    requires Agrees(t, v, i, j) && i <= k && l <= j
    ensures Agrees(t, v, k, l)
  {
  }

  lemma MatchParts(v: string, p: nat) returns (e: nat, o: nat, m: nat, first: (nat, string), second: (nat, string))
    requires p <= |v| && CallAt(v, p).Some?
    ensures p <= e <= o < m < |v| && e == NameEnd(v, p) && o == SkipSpace(v, e) && v[o] == '(' && v[m] == ','
    ensures QuotedAt(v, o + 1) == Some(first) && m == SkipSpace(v, first.0) && QuotedAt(v, m + 1) == Some(second)
    ensures
      var found := CallAt(v, p).value;
      && found.name == v[p..e] && (found.name == "tag" || found.name == "quality" || found.name == "hasTag")
      && found.key == (first.1, second.1)
  {
    hide SkipSpace, NameEnd, QuotedAt;
    e := NameEnd(v, p);
    o := SkipSpace(v, e);
    first := QuotedAt(v, o + 1).value;
    m := SkipSpace(v, first.0);
    second := QuotedAt(v, m + 1).value;
  }

  lemma LowerNames(name: string)
    ensures name == "tag" || name == "quality" ==> ReadsValue(Lower(name)) && name != ""
  {
    if name == "tag" || name == "quality" { LowerSame(name); }
  }

  lemma {:induction false} LowerSame(s: string)
    requires forall c | c in s :: ToLower(c) == c
    ensures Lower(s) == s
  {
    if s != "" {
      assert s[0] in s && forall c | c in s[1..] :: c in s;
      LowerSame(s[1..]);
    }
  }

  // ---------------------------------------------------------------- the parts of a text

  lemma PartOfPart(t: string, blocks: seq<Block>, v: string, e: nat)
    requires PartOf(t, blocks, v) && e <= |v|
    ensures PartOf(t, blocks, v[..e])
  {
    hide Masks, Blanked;
  }

  lemma FreeWithin(v: string, i: nat, e: nat)
    requires Free(v, i) && i <= e <= |v|
    ensures Free(v[..e], i)
  {
    hide IsWordChar;
  }

  lemma PartSound(t: string, blocks: seq<Block>, v: string, i: nat, j: nat, forName: bool, luck: Luck)
    requires PartOf(t, blocks, v) && i <= j <= |v| && Free(v, i)
    ensures PartReads(v, i, j, forName, luck) <= Known(t)
  {
    var e := TrimEnd(v, i, j);
    var u, b := v[..e], SkipSpace(v[..e], i);
    PartOfPart(t, blocks, v, e);
    FreeWithin(v, i, e);
    SkipIsFree(u, i);
    ExpressionSound(t, blocks, u, b, luck);
    if b < e && CallAt(u, b).Some? { MatchIsReported(t, blocks, u, b); }
    hide TrimEnd, SkipSpace, CallAt, Expression, KeyRead, PartOf, Known, Free, IsQuote;
  }

  lemma {:induction false} AssignmentsSound(t: string, blocks: seq<Block>, v: string, from: nat, e: nat, luck: Luck)
    requires PartOf(t, blocks, v) && from <= e <= |v|
    ensures AssignmentReads(v, from, e, luck) <= Known(t)
    decreases |v| - e
  {
    hide PartOf, Known, PartReads, NameBefore, TrimEnd, Find;
    if e < |v| {
      if AssignsAt(v, from, e) {
        var q := Find(v, e + 1, ';');
        FreeBehind(v, e);
        PartSound(t, blocks, v, e + 1, q, true, luck);
        AssignmentsSound(t, blocks, v, q + 1, q + 1, luck);
      } else {
        AssignmentsSound(t, blocks, v, from, e + 1, luck);
      }
    }
  }

  /** Every part but the first follows a comma. */
  lemma {:induction false} SplitCommas(v: string, start: nat, i: nat, depth: nat, place: Place, k: nat)
    requires start <= i <= |v| && SplitArgs(v, start, i, depth, place).Some?
    requires k < |SplitArgs(v, start, i, depth, place).value|
    ensures
      var part := SplitArgs(v, start, i, depth, place).value[k];
      if k == 0 then part.start == start else 0 < part.start <= |v| && v[part.start - 1] == ','
    decreases |v| - i
  {
    if i < |v| {
      var c := v[i];
      var place' := if c == '`' && place.Code? then Code else Behind(place, c);
      hide Behind;
      if !place.Code? {
        SplitCommas(v, start, i + 1, depth, place', k);
      } else if c == '(' {
        SplitCommas(v, start, i + 1, depth + 1, place', k);
      } else if c == ')' {
        SplitCommas(v, start, i + 1, depth - 1, place', k);
      } else if c == ',' && depth == 0 {
        if k > 0 { SplitCommas(v, i + 1, i + 1, 0, Code, k - 1); }
      } else {
        SplitCommas(v, start, i + 1, depth, place', k);
      }
    }
  }

  lemma {:induction false} ValuesFollowCommas(v: string, from: nat, i: nat)
    requires from <= i && SetTagValues(v, from, i).Some?
    ensures forall p | p in SetTagValues(v, from, i).value :: 0 < p.start <= |v| && v[p.start - 1] == ','
    decreases |v| - i
  {
    if i < |v| {
      if !KeywordAt(v, from, i, SET_TAG) || !CharAt(v, SkipSpace(v, i + 6), '(') {
        hide *;
        NoCallHere(v, from, i);
        ValuesFollowCommas(v, from, i + 1);
      } else {
        hide *;
        var part, next := CallHere(v, from, i);
        ValuesFollowCommas(v, from, next);
      }
    } else {
      hide KeywordAt, SkipSpace, MatchingParen, SplitArgs;
    }
  }

  lemma NoCallHere(v: string, from: nat, i: nat)
    requires from <= i < |v| && (!KeywordAt(v, from, i, SET_TAG) || !CharAt(v, SkipSpace(v, i + 6), '('))
    ensures SetTagValues(v, from, i) == SetTagValues(v, from, i + 1)
  {
    hide KeywordAt, SkipSpace, MatchingParen, SplitArgs;
  }

  lemma CallHere(v: string, from: nat, i: nat) returns (part: Part, next: nat)
    requires from <= i < |v| && KeywordAt(v, from, i, SET_TAG) && CharAt(v, SkipSpace(v, i + 6), '(')
    requires SetTagValues(v, from, i).Some?
    ensures i < next <= |v| && SetTagValues(v, from, next).Some?
    ensures SetTagValues(v, from, i).value == [part] + SetTagValues(v, from, next).value
    ensures 0 < part.start <= |v| && v[part.start - 1] == ','
  {
    hide KeywordAt, SkipSpace, MatchingParen, SplitArgs;
    var o := SkipSpace(v, i + 6);
    var close := MatchingParen(v, o, 0, Code).value;
    SplitCommas(v[..close], o + 1, o + 1, 0, Code, 2);
    part, next := SplitArgs(v[..close], o + 1, o + 1, 0, Code).value[2], close + 1;
  }

  lemma {:induction false} PartsSound(t: string, blocks: seq<Block>, v: string, parts: seq<Part>, luck: Luck)
    requires PartOf(t, blocks, v) && forall p | p in parts :: p.start <= p.end <= |v|
    requires forall p | p in parts :: 0 < p.start <= |v| && v[p.start - 1] == ','
    ensures PartsReads(v, parts, luck) <= Known(t)
  {
    hide PartOf, Known, PartReads;
    if parts != [] {
      var p := parts[0];
      assert p in parts && forall x | x in parts[1..] :: x in parts;
      FreeBehind(v, p.start - 1);
      PartSound(t, blocks, v, p.start, p.end, false, luck);
      PartsSound(t, blocks, v, parts[1..], luck);
    }
  }

  lemma TextSound(t: string, blocks: seq<Block>, v: string, from: nat, w: World, stage: nat)
    requires PartOf(t, blocks, v) && from <= |v|
    ensures TextReads(v, from, w, stage) <= Known(t)
  {
    hide PartOf, Known, AssignmentReads, SetTagValues, PartsReads;
    AssignmentsSound(t, blocks, v, from, from, w.luck(stage));
    var parts := SetTagValues(v, from, from);
    if parts.Some? {
      ValuesFollowCommas(v, from, from);
      PartsSound(t, blocks, v, parts.value, w.luck(stage + 1));
    }
  }

  // ---------------------------------------------------------------- a run

  lemma WholeText(t: string)
    requires Accepted(t) && LiteralsTame(TokensOf(t))
    ensures PartOf(t, [], t)
  {
    assert Blanked(t, []) == t;
    hide Accepted, LiteralsTame, TokensOf;
  }

  lemma ConditionSound(t: string, b: Block, luck: Luck)
    requires PartOf(t, [], t) && BlockFits(t, b.start, b)
    ensures ConditionReads(t, b, luck) <= Known(t)
  {
    var i, e := b.condition.start, TrimEnd(t, b.condition.start, b.condition.end);
    FreeBehind(t, i - 1);
    PartOfPart(t, [], t, e);
    FreeWithin(t, i, e);
    SkipIsFree(t[..e], i);
    hide PartOf, Known, Expression, TrimEnd, SkipSpace, Free;
    ExpressionSound(t, [], t[..e], SkipSpace(t[..e], i), luck);
  }

  lemma {:induction false} BlocksSound(t: string, blocks: seq<Block>, w: World, stage: nat)
    requires PartOf(t, [], t) && forall b | b in blocks :: BlockFits(t, b.start, b)
    ensures BlocksReads(t, blocks, w, stage) <= Known(t)
    decreases |blocks|
  {
    if blocks != [] {
      var b := blocks[0];
      assert b in blocks && BlockFits(t, b.start, b) && forall x | x in blocks[1..] :: x in blocks;
      hide PartOf, Known, ConditionReads, TextReads, BlockFits;
      BodiesSound(t, b, w, stage);
      BlocksSound(t, blocks[1..], w, stage + 3);
      FirstBlock(t, blocks, w, stage);
    }
  }

  lemma BodiesSound(t: string, b: Block, w: World, stage: nat)
    requires PartOf(t, [], t) && BlockFits(t, b.start, b)
    ensures BlockReads(t, b, w, stage) <= Known(t)
  {
    hide PartOf, Known, ConditionReads, TextReads;
    ConditionSound(t, b, w.luck(stage));
    PartOfPart(t, [], t, b.body.end);
    TextSound(t, [], t[..b.body.end], b.body.start, w, stage + 1);
    if b.otherwise.Some? {
      PartOfPart(t, [], t, b.otherwise.value.end);
      TextSound(t, [], t[..b.otherwise.value.end], b.otherwise.value.start, w, stage + 1);
    }
  }

  lemma FirstBlock(t: string, blocks: seq<Block>, w: World, stage: nat)
    requires blocks != [] && forall b | b in blocks :: BlockFits(t, b.start, b)
    ensures BlockFits(t, blocks[0].start, blocks[0]) && forall b | b in blocks[1..] :: BlockFits(t, b.start, b)
    ensures BlocksReads(t, blocks, w, stage)
      <= BlockReads(t, blocks[0], w, stage) + BlocksReads(t, blocks[1..], w, stage + 3)
  {
    hide BlockFits, BlockReads;
    assert blocks[0] in blocks && forall b | b in blocks[1..] :: b in blocks;
  }

  /** Also what the validation looks up for its preview. */
  lemma ReferencesSound(t: string)
    requires Accepted(t) && LiteralsTame(TokensOf(t))
    ensures References(t) <= Known(t)
  {
    WholeText(t);
    forall key | key in References(t) ensures key in Known(t) {
      var i: nat :| i < |t| && (i == 0 || !IsNameChar(t[i - 1])) && CallAt(t, i).Some?
        && key in KeyRead(CallAt(t, i).value);
      ReferenceKnown(t, i);
      hide References, CallAt, Known, KeyRead;
    }
  }

  lemma ReferenceKnown(t: string, p: nat)
    requires Accepted(t) && LiteralsTame(TokensOf(t)) && p < |t| && (p == 0 || !IsNameChar(t[p - 1]))
    requires CallAt(t, p).Some?
    ensures KeyRead(CallAt(t, p).value) <= Known(t)
  {
    hide *;
    if KeyRead(CallAt(t, p).value) != {} {
      KeyNeedsRead(CallAt(t, p).value);
      MatchReads(t, p);
      var e := NameEnd(t, p);
      var o := SkipSpace(t, e);
      ReadsHead(t, p, e, o);
      AcceptedIsClean(t);
      var a := HeadIsPlaced(t, p, e, o);
      if PlaceAt(t, 0, p, Code) == Code {
        ReferenceIsFree(t, p, e, o);
        WholeText(t);
        MatchIsReported(t, [], t, p);
      } else {
        InLiteralParts(t, a, p);
        LiteralCallBegins(t, a, p);
        MatchKnown(t, a, p);
        SameRead(CallAt(t, p).value, CallAt(TokenAt(t, a).text, p - a - 1).value);
      }
    }
  }

  lemma SameRead(a: Match, b: Match)
    ensures a.name == b.name && a.key == b.key ==> KeyRead(a) == KeyRead(b)
  {
  }

  lemma KeyNeedsRead(found: Match)
    ensures KeyRead(found) != {} ==> found.name != "hasTag"
  {
  }

  lemma ReadsHead(t: string, p: nat, e: nat, o: nat)
    requires ReadsHere(t, p, e, o)
    ensures IsHead(t, p, e, o)
  {
    hide Lower, ReadsValue, IsSpace;
  }

  lemma ReferenceIsFree(t: string, p: nat, e: nat, o: nat)
    requires Accepted(t) && IsHead(t, p, e, o) && (p == 0 || !IsNameChar(t[p - 1]))
    requires PlaceAt(t, 0, p, Code) == Code
    ensures Free(t, p)
  {
    NoDollarBefore(t, p, e, o);
    hide Accepted, PlaceAt, IsHead;
  }

  // ---------------------------------------------------------------- the theorem

  /** No literal of the script holds a call of tag or quality, in any case, or the keyword of an if block before a
      parenthesis. */
  ghost predicate NoCallInLiterals(source: string) { LiteralsInert(Lex(source, 0, START).tokens) }

  /** The text the interpreter works on is accepted if the analysis of the script is complete. */
  lemma StripIsAccepted(source: string)
    requires Analysis(source).complete
    ensures
      var t := Strip(source);
      Accepted(t) && TokensOf(t) == Lex(source, 0, START).tokens && Reported(t) == Analysis(source).tagReads
  {
    var t := Strip(source);
    DoubtStays(source, 0, START);
    AnalysisIs(source);
    AnalysisMeans(source);
    StripKeepsLength(source, 0, Code);
    assert StripsTo(source, 0, Code, t) by { assert t[0..] == t; }
    hide Lex, Analysis, Strip, Scan, StripsTo, Plainly;
    LexStripped(source, 0, START, t);
  }

  lemma {:induction false} StripKeepsLength(s: string, i: nat, place: Place)
    requires i <= |s|
    ensures |StripFrom(s, i, place)| == |s| - i
    decreases |s| - i
  {
    if i < |s| {
      if (place.Code? && OpensComment(s, i, '/')) || (place.Code? && OpensComment(s, i, '*'))
        || (place.BlockComment? && s[i] == '*' && CharAt(s, i + 1, '/'))
      {
        StripKeepsLength(s, i + 2, LineComment);
        StripKeepsLength(s, i + 2, BlockComment);
        StripKeepsLength(s, i + 2, Code);
      } else {
        StripKeepsLength(s, i + 1, Behind(place, s[i]));
      }
    }
  }

  /** What the calls in the literals of a script read. */
  ghost function ReadInLiterals(source: string): set<TagKey> { LiteralKeys(Lex(source, 0, START).tokens) }

  /** Every head in a literal begins a whole call in the form of the pattern. */
  ghost predicate OnlyCallsInLiterals(source: string) { LiteralsTame(Lex(source, 0, START).tokens) }

  /** Soundness, for every text whose analysis is complete: if every head of a reading or branching call in a literal
      begins a whole literal call, everything a run of the script reads is reported or read by such a call, whatever
      the values, the failures and the branches taken. */
  lemma RunIsSound(source: string, w: World)
    requires Analysis(source).complete && OnlyCallsInLiterals(source)
    ensures ScriptReads(source, w) <= Analysis(source).tagReads + ReadInLiterals(source)
  {
    var t := Strip(source);
    StripIsAccepted(source);
    ReferencesSound(t);
    WholeText(t);
    var blocks := IfBlocks(t, 0);
    hide Analysis, Accepted, LiteralsTame, LiteralKeys, TokensOf, IfBlocks, References, TextReads, BlocksReads,
        Reported, Blanked, Strip;
    if blocks.Some? {
      IfBlocksInCode(t, 0);
      MaskedText(t, blocks.value);
      TextSound(t, blocks.value, Blanked(t, blocks.value), 0, w, 1);
      BlocksSound(t, blocks.value, w, 3);
    }
  }

  lemma InertIsTame(tokens: seq<Token>)
    requires LiteralsInert(tokens)
    ensures LiteralsTame(tokens) && LiteralKeys(tokens) == {}
  {
    forall token, p: nat, key | token in tokens && token.literal && p < |token.text| && CallAt(token.text, p).Some?
      ensures key !in KeyRead(CallAt(token.text, p).value)
    {
      if KeyRead(CallAt(token.text, p).value) != {} {
        var e, o := NameEnd(token.text, p), SkipSpace(token.text, NameEnd(token.text, p));
        KeyNeedsRead(CallAt(token.text, p).value);
        MatchReads(token.text, p);
        ReadsHead(token.text, p, e, o);
      }
    }
    hide CallAt, KeyRead, IsHead;
  }

  /** In particular: when no literal holds the head of a call, everything a run reads is reported. */
  lemma AnalysisIsSound(source: string, w: World)
    requires Analysis(source).complete && NoCallInLiterals(source)
    ensures ScriptReads(source, w) <= Analysis(source).tagReads
  {
    InertIsTame(Lex(source, 0, START).tokens);
    hide Analysis, ScriptReads, LiteralsInert, LiteralsTame, LiteralKeys, Lex;
    RunIsSound(source, w);
  }

  lemma MaskedText(t: string, blocks: seq<Block>)
    requires Accepted(t) && LiteralsTame(TokensOf(t)) && BlocksInCode(t, blocks)
    ensures PartOf(t, blocks, Blanked(t, blocks))
  {
  }

  /** The setup part of a script too. */
  lemma SetupIsSound(source: string, luck: Luck)
    requires Analysis(source).complete && NoCallInLiterals(source)
    ensures SetupReads(source, luck) <= Analysis(source).tagReads
  {
    var t := Strip(source);
    StripIsAccepted(source);
    InertIsTame(TokensOf(t));
    WholeText(t);
    hide Analysis, Accepted, LiteralsInert, LiteralsTame, LiteralKeys, TokensOf, AssignmentReads, Reported, Strip,
        PartOf;
    AssignmentsSound(t, [], t, 0, 0, luck);
  }

  /** On the text of a program, whatever its layout: a run reads no more than is written in the program. */
  lemma ProgramIsSound(program: seq<Language.Stmt>, gaps: seq<Language.Gap>, w: World)
    requires Layouts.Formatted(program, gaps)
    requires forall stmt | stmt in program :: Language.StmtRestricted(stmt)
    requires Layouts.OneLined(Language.ProgramLexemes(program))
    requires forall x | x in Language.ProgramLexemes(program) && x.Literal? :: !HoldsHead(x.raw)
    ensures |gaps| == |Language.ProgramLexemes(program)| + 1
    ensures ScriptReads(Layouts.Source(program, gaps), w) <= Language.ProgramWritten(program)
  {
    Layouts.FormattedIsFormed(program, gaps);
    LiteralTokens(Language.ProgramLexemes(program));
    hide *;
    Layouts.SourceLexed(program, gaps);
    Layouts.AnalysisIsExact(program, gaps);
    var source := Layouts.Source(program, gaps);
    InertIs(source);
    AnalysisIsSound(source, w);
  }

  lemma LiteralTokens(xs: seq<Language.Lexeme>)
    requires forall x | x in xs && x.Literal? :: !HoldsHead(x.raw)
    ensures LiteralsInert(Layouts.Tokens(xs))
  {
    hide HoldsHead;
    forall token | token in Layouts.Tokens(xs) && token.literal ensures !HoldsHead(token.text) {
      var k :| 0 <= k < |xs| && Layouts.Tokens(xs)[k] == token;
      assert xs[k] in xs;
    }
  }

  lemma InertIs(source: string)
    ensures NoCallInLiterals(source) <==> LiteralsInert(Lex(source, 0, START).tokens)
  {
  }

  // ---------------------------------------------------------------- the other way

  /** Every token was made at a stop. */
  lemma {:induction false} TokenStop(t: string, i: nat, x: Lexing, k: nat) returns (a: nat)
    requires i <= |t| && Plainly(t, i) && !Lex(t, i, x).aborted && |x.tokens| <= k < |Lex(t, i, x).tokens|
    ensures a < |t| && Visits(t, i, a) && Lex(t, i, x).tokens[k] == TokenAt(t, a)
    decreases |t| - i
  {
    PlainOn(t, i);
    if i == |t| {
      StepEnd(t, x);
      a := i;
    } else {
      ClosesIs(t, i);
      LexStep(t, i, x);
      var n, y := NextStop(t, i), Stepped(t, i, x);
      DoubtStays(t, n, y);
      hide Lex, Stepped, TokenAt, Plainly, NextStop;
      if |y.tokens| <= k {
        a := TokenStop(t, n, y, k);
      } else {
        a := i;
        assert y.tokens[k] == TokenAt(t, i);
      }
    }
  }

  lemma {:induction false} NameEndShifts(t: string, i: nat, j: nat, p: nat)
    requires i <= j <= |t| && p <= j - i && NameEnd(t[i..j], p) < j - i
    ensures NameEnd(t, i + p) == i + NameEnd(t[i..j], p)
    decreases j - i - p
  {
    if IsNameChar(t[i..j][p]) { NameEndShifts(t, i, j, p + 1); }
  }

  lemma {:induction false} SkipShifts(t: string, i: nat, j: nat, p: nat)
    requires i <= j <= |t| && p <= j - i && SkipSpace(t[i..j], p) < j - i
    ensures SkipSpace(t, i + p) == i + SkipSpace(t[i..j], p)
    decreases j - i - p
  {
    if IsSpace(t[i..j][p]) { SkipShifts(t, i, j, p + 1); }
  }

  lemma {:induction false} RunShifts(t: string, i: nat, j: nat, p: nat)
    requires i <= j <= |t| && p <= j - i && RunEnd(t[i..j], p) < j - i
    ensures RunEnd(t, i + p) == i + RunEnd(t[i..j], p)
    decreases j - i - p
  {
    if !IsQuote(t[i..j][p]) { RunShifts(t, i, j, p + 1); }
  }

  lemma QuotedShifts(t: string, i: nat, j: nat, p: nat)
    requires i <= j <= |t| && p <= j - i && QuotedAt(t[i..j], p).Some?
    ensures
      var r := QuotedAt(t[i..j], p).value;
      QuotedAt(t, i + p) == Some((i + r.0, r.1))
  {
    var v := t[i..j];
    var q := SkipSpace(v, p);
    SkipShifts(t, i, j, p);
    RunShifts(t, i, j, q + 1);
    var e := RunEnd(v, q + 1);
    assert v[q] == t[i + q] && v[e] == t[i + e];
    SliceShifts(t, i, j, q + 1, e);
    hide SkipSpace, RunEnd;
  }

  lemma SliceShifts(t: string, i: nat, j: nat, p: nat, e: nat)
    requires i <= j <= |t| && p <= e <= j - i
    ensures t[i..j][p..e] == t[i + p..i + e]
  {
    var u := t[i..j];
    assert forall k | p <= k < e :: u[k] == t[i + k];
    assert |u[p..e]| == |t[i + p..i + e]| && forall k | 0 <= k < e - p :: u[p..e][k] == t[i + p..i + e][k];
  }

  lemma ArgumentsShift(t: string, i: nat, j: nat, o: nat, m: nat, first: (nat, string), second: (nat, string))
    requires i <= j <= |t| && o < j - i && m < j - i
    requires QuotedAt(t[i..j], o + 1) == Some(first) && QuotedAt(t[i..j], m + 1) == Some(second)
    ensures QuotedAt(t, i + o + 1) == Some((i + first.0, first.1))
    ensures QuotedAt(t, i + m + 1) == Some((i + second.0, second.1))
  {
    hide *;
    QuotedShifts(t, i, j, o + 1);
    QuotedShifts(t, i, j, m + 1);
  }

  /** The pattern matches in the text wherever it matches in a part of it. */
  lemma MatchShifts(t: string, i: nat, j: nat, p: nat)
    requires i <= j <= |t| && p <= j - i && CallAt(t[i..j], p).Some?
    ensures
      var found := CallAt(t[i..j], p).value;
      CallAt(t, i + p) == Some(found.(next := i + found.next))
  {
    hide *;
    var v := t[i..j];
    var e, o, m, first, second := MatchParts(v, p);
    var c := MatchEnds(v, p, o, m, first, second);
    NameEndShifts(t, i, j, p);
    SkipShifts(t, i, j, e);
    ArgumentsShift(t, i, j, o, m, first, second);
    SkipShifts(t, i, j, first.0);
    SkipShifts(t, i, j, second.0);
    SliceShifts(t, i, j, p, e);
    MatchIs(t, i + p, i + e, i + o, i + m, i + c, (i + first.0, first.1), (i + second.0, second.1));
    MatchIs(v, p, e, o, m, c, first, second);
  }

  /** The pattern, part by part. */
  lemma MatchIs(t: string, p: nat, e: nat, o: nat, m: nat, c: nat, first: (nat, string), second: (nat, string))
    requires p <= e <= o < m < c < |t| && e == NameEnd(t, p) && o == SkipSpace(t, e) && t[o] == '(' && t[m] == ','
    requires t[c] == ')'
    requires QuotedAt(t, o + 1) == Some(first) && m == SkipSpace(t, first.0) && QuotedAt(t, m + 1) == Some(second)
    requires c == SkipSpace(t, second.0) && (t[p..e] == "tag" || t[p..e] == "quality" || t[p..e] == "hasTag")
    ensures CallAt(t, p) == Some(Match(t[p..e], (first.1, second.1), c + 1))
  {
    hide SkipSpace, NameEnd, QuotedAt;
  }

  lemma MatchEnds(v: string, p: nat, o: nat, m: nat, first: (nat, string), second: (nat, string)) returns (c: nat)
    requires p <= |v| && CallAt(v, p).Some? && o == SkipSpace(v, NameEnd(v, p)) && o < |v| && m < |v|
    requires QuotedAt(v, o + 1) == Some(first) && m == SkipSpace(v, first.0) && QuotedAt(v, m + 1) == Some(second)
    ensures m < c == SkipSpace(v, second.0) < |v| && v[c] == ')'
  {
    c := SkipSpace(v, second.0);
    hide SkipSpace, NameEnd, QuotedAt;
  }

  /** A reading call in a literal, as the pattern has it, is looked up in every run of the script. So if it is not
      reported for another reason, no run is covered. */
  lemma PatternInLiteral(source: string, token: Token, p: nat, w: World)
    requires Analysis(source).complete && token in Lex(source, 0, START).tokens && token.literal
    requires p < |token.text| && CallAt(token.text, p).Some? && (p == 0 || !IsNameChar(token.text[p - 1]))
    ensures KeyRead(CallAt(token.text, p).value) <= ScriptReads(source, w)
  {
    hide *;
    var t := Strip(source);
    StripIsAccepted(source);
    AcceptedIsClean(t);
    var a := LiteralStop(t, token);
    LiteralIsToken(t, a);
    MatchShifts(t, a + 1, NextStop(t, a) - 1, p);
    SameRead(CallAt(t, a + 1 + p).value, CallAt(token.text, p).value);
    PatternStands(t, a, NextStop(t, a), p);
    ScriptLooksUp(source, w);
  }

  lemma LiteralStop(t: string, token: Token) returns (a: nat)
    requires Lexed(t) && token in TokensOf(t) && token.literal
    ensures a < |t| && Visits(t, 0, a) && IsQuote(t[a]) && TokenAt(t, a) == token
  {
    var k :| 0 <= k < |TokensOf(t)| && TokensOf(t)[k] == token;
    a := TokenStop(t, 0, START, k);
    TokenSays(t, a);
  }

  lemma PatternStands(t: string, a: nat, n: nat, p: nat)
    requires a + 1 < n <= |t| && IsQuote(t[a]) && p < n - a - 2 && CallAt(t, a + 1 + p).Some?
    requires p == 0 || !IsNameChar(t[a + 1..n - 1][p - 1])
    ensures KeyRead(CallAt(t, a + 1 + p).value) <= References(t)
  {
    hide CallAt, KeyRead, References;
    forall key | key in KeyRead(CallAt(t, a + 1 + p).value)
      ensures key in References(t)
    {
      ReferenceIs(t, a + 1 + p, key);
    }
  }

  lemma ScriptLooksUp(source: string, w: World)
    ensures References(Strip(source)) <= ScriptReads(source, w)
  {
    hide References, Strip, RunReads;
  }

  lemma ReferenceIs(t: string, p: nat, key: TagKey)
    requires 0 < p < |t| && !IsNameChar(t[p - 1]) && CallAt(t, p).Some? && key in KeyRead(CallAt(t, p).value)
    ensures key in References(t)
  {
    hide CallAt, KeyRead;
  }

  /** What the calls in literals read is read in every run. */
  lemma ReadInEveryRun(source: string, w: World)
    requires Analysis(source).complete
    ensures ReadInLiterals(source) <= ScriptReads(source, w)
  {
    var tokens := Lex(source, 0, START).tokens;
    hide Analysis, ScriptReads, Lex, CallAt, KeyRead;
    forall key | key in LiteralKeys(tokens) ensures key in ScriptReads(source, w) {
      var token, p: nat :| token in tokens && token.literal && p < |token.text|
        && CallAt(token.text, p).Some? && key in KeyRead(CallAt(token.text, p).value)
        && FoundInLiteral(token.text, p, key);
      PatternInLiteral(source, token, p, w);
    }
  }

  const SOME_WORLD := World(_ => Luck(_ => false, _ => None, _ => 0, _ => false), _ => Neither, _ => false)

  /** So for these scripts the report covers every run exactly if it lists what the calls in literals read. */
  lemma CoveredExactly(source: string)
    requires Analysis(source).complete && OnlyCallsInLiterals(source)
    ensures (forall w :: ScriptReads(source, w) <= Analysis(source).tagReads)
      <==> ReadInLiterals(source) <= Analysis(source).tagReads
  {
    hide Analysis, ScriptReads, ReadInLiterals, OnlyCallsInLiterals;
    ReadInEveryRun(source, SOME_WORLD);
    forall w ensures ScriptReads(source, w) <= Analysis(source).tagReads + ReadInLiterals(source) {
      RunIsSound(source, w);
    }
  }
}
