/** How the analysis reads the text the interpreter works on: blanking comments changes no token, and on what is left
    the lexer visits every place where a word or a call can begin.
 */
module ScriptReading {
  import opened AutomationDependencies
  import opened ScriptInterpreter

  // ---------------------------------------------------------------- comments

  /** Where the lexer goes from a position with a character. */
  function NextStop(t: string, i: nat): (n: nat)
    requires i < |t|
    ensures i < n <= |t|
  {
    var c := t[i];
    if IsSpace(c) then i + 1
    else if IsQuote(c) then
      var q := ReadQuoted(t, i + 1, c, Token("", true, false), false);
      if q.closed then q.next else |t|
    else if StartsWord(c) then WordEnd(t, i + 1)
    else if IsDigit(c) then NumberEnd(t, i + 1)
    else i + 1
  }

  /** From i on, the lexer meets neither a slash nor a back quote outside of literals. */
  predicate Plainly(t: string, i: nat)
    requires i <= |t|
    decreases |t| - i
  {
    i == |t| || (t[i] != '/' && t[i] != '`' && Plainly(t, NextStop(t, i)))
  }

  /** Nothing is in doubt, and nothing broke off. */
  predicate Fine(s: Lexing) { s.result.complete && !s.aborted }

  /** What one step of the lexer leads to: another position, or the end if it breaks off. */
  ghost predicate LeadsTo(t: string, i: nat, s: Lexing, j: nat, z: Lexing, ends: bool) {
    && i < j <= |t| && s.tokens <= z.tokens && (z.result.complete ==> s.result.complete)
    && if ends then Lex(t, i, s) == z && z.aborted && !z.result.complete
       else z.aborted == s.aborted && Lex(t, i, s) == Lex(t, j, z)
  }

  lemma LexLeads(t: string, i: nat, s: Lexing) returns (j: nat, z: Lexing, ends: bool)
    requires i < |t|
    ensures LeadsTo(t, i, s, j, z, ends)
  {
    var c := t[i];
    hide Lex, LineEnd, CommentClose, ReadQuoted, WordEnd, NumberEnd, Unsupported, IsSpace, StartsWord, IsDigit, LeadsTo;
    j, z, ends := |t|, s, false;
    if IsSpace(c) {
      StepSpace(t, i, s);
      j := i + 1;
      SkipLeads(t, i, s, j);
    } else if OpensComment(t, i, '/') {
      StepLine(t, i, s);
      j := LineEnd(t, i + 1);
      SkipLeads(t, i, s, j);
    } else if OpensComment(t, i, '*') {
      j, z, ends := BlockLeads(t, i, s);
    } else if c == '\'' || c == '"' {
      j, z, ends := QuotedLeads(t, i, s);
    } else if StartsWord(c) {
      StepWord(t, i, s);
      j := WordEnd(t, i + 1);
      z := s.(tokens := s.tokens + [Plain(t[i..j])]);
      TokenLeads(t, i, s, j, Plain(t[i..j]));
    } else if IsDigit(c) {
      StepNumber(t, i, s);
      j := NumberEnd(t, i + 1);
      z := s.(tokens := s.tokens + [Plain(t[i..j])]);
      TokenLeads(t, i, s, j, Plain(t[i..j]));
    } else {
      j := i + 1;
      z := SymbolLeads(t, i, s);
    }
  }

  lemma SkipLeads(t: string, i: nat, s: Lexing, j: nat)
    requires i < j <= |t| && Lex(t, i, s) == Lex(t, j, s)
    ensures LeadsTo(t, i, s, j, s, false)
  {
    hide Lex;
  }

  lemma TokenLeads(t: string, i: nat, s: Lexing, j: nat, token: Token)
    requires i < j <= |t| && Lex(t, i, s) == Lex(t, j, s.(tokens := s.tokens + [token]))
    ensures LeadsTo(t, i, s, j, s.(tokens := s.tokens + [token]), false)
  {
    hide Lex;
  }

  lemma BlockLeads(t: string, i: nat, s: Lexing) returns (j: nat, z: Lexing, ends: bool)
    requires i + 1 < |t| && t[i] == '/' && t[i + 1] == '*'
    ensures LeadsTo(t, i, s, j, z, ends)
  {
    StepBlock(t, i, s);
    hide Lex, CommentClose;
    var close := CommentClose(t, i + 2);
    if close < |t| { j, z, ends := close + 2, s, false; } else { j, z, ends := |t|, Lex(t, i, s), true; }
  }

  lemma QuotedLeads(t: string, i: nat, s: Lexing) returns (j: nat, z: Lexing, ends: bool)
    requires i < |t| && (t[i] == '\'' || t[i] == '"')
    ensures LeadsTo(t, i, s, j, z, ends)
  {
    StepQuoted(t, i, s);
    hide Lex, ReadQuoted;
    var q := ReadQuoted(t, i + 1, t[i], Token("", true, false), false);
    if q.closed {
      j, ends := q.next, false;
      z := s.(tokens := s.tokens + [q.token], result := s.result.UncertainIf(q.multiline, "multiline_string"));
    } else {
      j, z, ends := |t|, Lex(t, i, s), true;
    }
  }

  lemma SymbolLeads(t: string, i: nat, s: Lexing) returns (z: Lexing)
    requires i < |t| && !IsSpace(t[i]) && !StartsWord(t[i]) && !IsDigit(t[i]) && t[i] != '\'' && t[i] != '"'
    requires !OpensComment(t, i, '/') && !OpensComment(t, i, '*')
    ensures LeadsTo(t, i, s, i + 1, z, false) && z == s.Symbol(t[i])
  {
    StepSymbol(t, i, s);
    hide Lex, Unsupported, IsSpace, StartsWord, IsDigit;
    z := s.Symbol(t[i]);
  }

  /** Doubts and tokens stay, and breaking off is a doubt. */
  lemma {:induction false} DoubtStays(t: string, i: nat, s: Lexing)
    requires i <= |t|
    ensures Lex(t, i, s).result.complete ==> s.result.complete && (Lex(t, i, s).aborted ==> s.aborted)
    ensures s.aborted ==> Lex(t, i, s).aborted
    ensures s.tokens <= Lex(t, i, s).tokens
    decreases |t| - i
  {
    hide Lex;
    if i < |t| {
      var j, z, ends := LexLeads(t, i, s);
      if !ends { DoubtStays(t, j, z); }
    } else {
      StepEnd(t, s);
    }
  }

  // ---------------------------------------------------------------- one step on plain text

  /** The token at a position with a character that is no white space. */
  function TokenAt(t: string, i: nat): Token
    requires i < |t|
  {
    var c := t[i];
    if IsQuote(c) then ReadQuoted(t, i + 1, c, Token("", true, false), false).token
    else if StartsWord(c) then Plain(t[i..WordEnd(t, i + 1)])
    else if IsDigit(c) then Plain(t[i..NumberEnd(t, i + 1)])
    else Plain([c])
  }

  /** One step of the lexer where it does not break off. */
  function Stepped(t: string, i: nat, s: Lexing): Lexing
    requires i < |t|
  {
    var c := t[i];
    if IsSpace(c) then s
    else if IsQuote(c) then
      s.Doubt(ReadQuoted(t, i + 1, c, Token("", true, false), false).multiline, "multiline_string").Push(TokenAt(t, i))
    else if StartsWord(c) || IsDigit(c) then s.Push(TokenAt(t, i))
    else s.Symbol(c)
  }

  lemma LexStep(t: string, i: nat, s: Lexing)
    requires i < |t| && !OpensComment(t, i, '/') && !OpensComment(t, i, '*')
    requires !Lex(t, i, s).aborted || Closes(t, i)
    ensures Lex(t, i, s) == Lex(t, NextStop(t, i), Stepped(t, i, s)) && Closes(t, i)
    ensures Stepped(t, i, s).tokens == if IsSpace(t[i]) then s.tokens else s.tokens + [TokenAt(t, i)]
  {
    ClosesIs(t, i);
    var c := t[i];
    NextStopIs(t, i);
    SteppedIs(t, i, s);
    if IsSpace(c) {
      hide *;
      StepSpace(t, i, s);
    } else if IsQuote(c) {
      assert c == '\'' || c == '"';
      hide *;
      StepQuoted(t, i, s);
    } else if StartsWord(c) {
      hide *;
      StepWord(t, i, s);
    } else if IsDigit(c) {
      hide *;
      StepNumber(t, i, s);
    } else {
      assert c != '\'' && c != '"';
      hide *;
      StepSymbol(t, i, s);
    }
  }

  /** A literal that begins here ends. */
  predicate Closes(t: string, i: nat)
    requires i < |t|
  {
    IsQuote(t[i]) ==> ReadQuoted(t, i + 1, t[i], Token("", true, false), false).closed
  }

  lemma ClosesIs(t: string, i: nat)
    requires i < |t|
    ensures Closes(t, i) <==> IsQuote(t[i]) ==> ReadQuoted(t, i + 1, t[i], Token("", true, false), false).closed
    ensures t[i] != '/' ==> !OpensComment(t, i, '/') && !OpensComment(t, i, '*')
    ensures !IsSpace(t[i]) && !OpensComment(t, i, '/') && !OpensComment(t, i, '*') ==>
      !(t[i] == '/' && i + 1 < |t| && (t[i + 1] == '/' || t[i + 1] == '*'))
  {
    hide ReadQuoted, IsQuote, IsSpace;
  }

  lemma NextStopIs(t: string, i: nat)
    requires i < |t|
    ensures
      var c, q := t[i], ReadQuoted(t, i + 1, t[i], Token("", true, false), false);
      NextStop(t, i) ==
        if IsSpace(c) then i + 1
        else if IsQuote(c) then (if q.closed then q.next else |t|)
        else if StartsWord(c) then WordEnd(t, i + 1)
        else if IsDigit(c) then NumberEnd(t, i + 1)
        else i + 1
  {
    hide ReadQuoted, WordEnd, NumberEnd;
  }

  lemma SteppedIs(t: string, i: nat, s: Lexing)
    requires i < |t|
    ensures
      var c, q := t[i], ReadQuoted(t, i + 1, t[i], Token("", true, false), false);
      var doubted := s.result.UncertainIf(q.multiline, "multiline_string");
      var after := s.(result := s.result.UncertainIf(Unsupported(c), "unsupported_syntax")).Delimit(c);
      Stepped(t, i, s) ==
        if IsSpace(c) then s
        else if IsQuote(c) then s.(tokens := s.tokens + [q.token], result := doubted)
        else if StartsWord(c) then s.(tokens := s.tokens + [Plain(t[i..WordEnd(t, i + 1)])])
        else if IsDigit(c) then s.(tokens := s.tokens + [Plain(t[i..NumberEnd(t, i + 1)])])
        else after.(tokens := s.tokens + [Plain([c])])
    ensures Stepped(t, i, s).tokens == if IsSpace(t[i]) then s.tokens else s.tokens + [TokenAt(t, i)]
  {
    hide ReadQuoted, WordEnd, NumberEnd, Unsupported;
  }

  /** A slash or a back quote outside of literals is in doubt. */
  lemma NoSlash(t: string, i: nat, s: Lexing)
    requires i < |t| && Fine(Lex(t, i, s)) && !OpensComment(t, i, '/') && !OpensComment(t, i, '*')
    ensures t[i] != '/' && t[i] != '`'
  {
    if t[i] == '/' || t[i] == '`' {
      assert Lex(t, i, s) == Lex(t, i + 1, s.Symbol(t[i]));
      DoubtStays(t, i + 1, s.Symbol(t[i]));
    }
  }

  lemma {:induction false} SpacesSkipped(t: string, i: nat, j: nat, s: Lexing)
    requires i <= j <= |t| && forall k | i <= k < j :: IsSpace(t[k])
    ensures Lex(t, i, s) == Lex(t, j, s)
    ensures Plainly(t, i) == Plainly(t, j)
    decreases j - i
  {
    if i < j {
      StepSpace(t, i, s);
      SpacesSkipped(t, i + 1, j, s);
    }
  }

  // ---------------------------------------------------------------- blanking comments changes no token

  /** t is the text s with its comments blanked, from i on. */
  ghost predicate StripsTo(s: string, i: nat, place: Place, t: string) {
    i <= |s| && |t| == |s| && t[i..] == StripFrom(s, i, place)
  }

  lemma StripsOn(s: string, i: nat, place: Place, t: string)
    requires StripsTo(s, i, place, t) && i < |s|
    ensures place.Code? && OpensComment(s, i, '/') ==>
      t[i] == t[i + 1] == ' ' && StripsTo(s, i + 2, LineComment, t)
    ensures place.Code? && OpensComment(s, i, '*') ==>
      t[i] == t[i + 1] == ' ' && StripsTo(s, i + 2, BlockComment, t)
    ensures place.BlockComment? && s[i] == '*' && CharAt(s, i + 1, '/') ==>
      t[i] == t[i + 1] == ' ' && StripsTo(s, i + 2, Code, t)
    ensures
      || (place.Code? && (OpensComment(s, i, '/') || OpensComment(s, i, '*')))
      || (place.BlockComment? && s[i] == '*' && CharAt(s, i + 1, '/'))
      || (t[i] == (if (place.LineComment? || place.BlockComment?) && s[i] != '\n' then ' ' else s[i])
          && StripsTo(s, i + 1, Behind(place, s[i]), t))
  {
    var rest := t[i..];
    assert t[i] == rest[0] && t[i + 1..] == rest[1..];
    if i + 1 < |s| { assert t[i + 1] == rest[1] && t[i + 2..] == rest[2..]; }
    hide Behind, IsQuote;
  }

  lemma {:induction false} LineStripped(s: string, i: nat, t: string)
    requires StripsTo(s, i, LineComment, t)
    ensures
      var e := LineEnd(s, i);
      && (forall k | i <= k < e :: IsSpace(t[k]))
      && if e == |s| then true else t[e] == s[e] == '\n' && StripsTo(s, e + 1, Code, t)
    decreases |s| - i
  {
    if i < |s| {
      StripsOn(s, i, LineComment, t);
      if s[i] != '\n' { LineStripped(s, i + 1, t); }
    }
  }

  lemma {:induction false} BlockStripped(s: string, i: nat, t: string)
    requires StripsTo(s, i, BlockComment, t)
    ensures
      var close := CommentClose(s, i);
      close < |s| ==> (forall k | i <= k < close + 2 :: IsSpace(t[k])) && StripsTo(s, close + 2, Code, t)
    decreases |s| - i
  {
    if i + 1 < |s| {
      StripsOn(s, i, BlockComment, t);
      if s[i] == '*' && s[i + 1] == '/' {
        assert CommentClose(s, i) == i && CharAt(s, i + 1, '/');
      } else {
        BlockStripped(s, i + 1, t);
      }
    }
  }

  /** A literal is copied. */
  lemma {:induction false} LiteralStripped(s: string, i: nat, quote: char, token: Token, multiline: bool, t: string)
    requires StripsTo(s, i, Inside(quote), t) && quote != '\\'
    ensures
      var q := ReadQuoted(s, i, quote, token, multiline);
      q.closed ==> ReadQuoted(t, i, quote, token, multiline) == q && StripsTo(s, q.next, Code, t)
    decreases |s| - i
  {
    if i < |s| {
      StripsOn(s, i, Inside(quote), t);
      if s[i] == quote {
      } else if s[i] == '\\' {
        if i + 1 < |s| {
          StripsOn(s, i + 1, Escape(quote), t);
          var more := token.(escaped := true, text := token.text + [s[i], s[i + 1]]);
          LiteralStripped(s, i + 2, quote, more, multiline, t);
        }
      } else {
        var more := token.(text := token.text + [s[i]]);
        LiteralStripped(s, i + 1, quote, more, multiline || s[i] == '\n' || s[i] == '\r', t);
      }
    }
  }

  /** Words and numbers are copied: outside of literals and comments, blanking changes nothing. */
  lemma {:induction false} WordStripped(s: string, i: nat, t: string)
    requires StripsTo(s, i, Code, t)
    ensures WordEnd(t, i) == WordEnd(s, i) && StripsTo(s, WordEnd(s, i), Code, t)
    ensures t[i..WordEnd(s, i)] == s[i..WordEnd(s, i)]
    decreases |s| - i
  {
    if i < |s| {
      CodeStripped(s, i, t);
      if IsWordChar(s[i]) {
        WordStripped(s, i + 1, t);
        var e := WordEnd(s, i + 1);
        assert t[i..e] == [t[i]] + t[i + 1..e] && s[i..e] == [s[i]] + s[i + 1..e];
      }
    }
  }

  lemma {:induction false} NumberStripped(s: string, i: nat, t: string)
    requires StripsTo(s, i, Code, t)
    ensures NumberEnd(t, i) == NumberEnd(s, i) && StripsTo(s, NumberEnd(s, i), Code, t)
    ensures t[i..NumberEnd(s, i)] == s[i..NumberEnd(s, i)]
    decreases |s| - i
  {
    if i < |s| {
      CodeStripped(s, i, t);
      if IsNumberChar(s[i]) {
        NumberStripped(s, i + 1, t);
        var e := NumberEnd(s, i + 1);
        assert t[i..e] == [t[i]] + t[i + 1..e] && s[i..e] == [s[i]] + s[i + 1..e];
      }
    }
  }

  /** One character that opens no comment; if it opens one, no word or number goes on there. */
  lemma CodeStripped(s: string, i: nat, t: string)
    requires StripsTo(s, i, Code, t) && i < |s|
    ensures IsWordChar(s[i]) || IsNumberChar(s[i]) ==> t[i] == s[i] && StripsTo(s, i + 1, Code, t)
    ensures !IsWordChar(s[i]) ==> !IsWordChar(t[i])
    ensures !IsNumberChar(s[i]) ==> !IsNumberChar(t[i])
  {
    StripsOn(s, i, Code, t);
    hide StripsTo;
  }

  /** What one step of the lexer leads to, in the text with comments and in the one without. */
  lemma StepStripped(s: string, i: nat, t: string)
    requires StripsTo(s, i, Code, t) && i < |s| && !OpensComment(s, i, '/') && !OpensComment(s, i, '*')
    requires s[i] != '`'
    requires Closes(s, i)
    ensures Closes(t, i) && t[i] == s[i] && NextStop(t, i) == NextStop(s, i) && StripsTo(s, NextStop(s, i), Code, t)
    ensures forall x: Lexing :: Stepped(t, i, x) == Stepped(s, i, x)
  {
    StripsOn(s, i, Code, t);
    hide StripsTo, ReadQuoted, WordEnd, NumberEnd, StripFrom;
    var c := s[i];
    if IsSpace(c) {
    } else if IsQuote(c) {
      LiteralStripped(s, i + 1, c, Token("", true, false), false, t);
    } else if StartsWord(c) {
      WordStripped(s, i + 1, t);
      SliceOn(s, t, i, WordEnd(s, i + 1));
    } else if IsDigit(c) {
      NumberStripped(s, i + 1, t);
      SliceOn(s, t, i, NumberEnd(s, i + 1));
    }
  }

  lemma SliceOn(s: string, t: string, i: nat, e: nat)
    requires i < e <= |s| && e <= |t| && s[i] == t[i] && s[i + 1..e] == t[i + 1..e]
    ensures s[i..e] == t[i..e]
  {
    assert s[i..e] == [s[i]] + s[i + 1..e] && t[i..e] == [t[i]] + t[i + 1..e];
  }

  /** A comment, with the end of its line if it ends there, is white space in the text without comments. */
  lemma CommentSkipped(s: string, i: nat, x: Lexing, t: string) returns (j: nat)
    requires StripsTo(s, i, Code, t) && i < |s| && !Lex(s, i, x).aborted
    requires OpensComment(s, i, '/') || OpensComment(s, i, '*')
    ensures i < j <= |s| && Lex(s, i, x) == Lex(s, j, x) && StripsTo(s, j, Code, t)
    ensures forall k | i <= k < j :: IsSpace(t[k])
  {
    hide *;
    CommentOpens(s, i);
    BlanksAreSpaces();
    StripsOn(s, i, Code, t);
    StripsLength(s, i, t);
    if OpensComment(s, i, '/') {
      LineStripped(s, i + 2, t);
      StepLine(s, i, x);
      var e := LineEnd(s, i + 2);
      if e == |s| {
        j := e;
        NothingLeft(s, Code, t);
      } else {
        StepSpace(s, e, x);
        j := e + 1;
      }
    } else {
      BlockStripped(s, i + 2, t);
      StepBlock(s, i, x);
      j := CommentClose(s, i + 2) + 2;
    }
  }

  lemma CommentOpens(s: string, i: nat)
    ensures OpensComment(s, i, '/') ==>
      i + 1 < |s| && s[i] == '/' && s[i + 1] == '/' && LineEnd(s, i + 1) == LineEnd(s, i + 2)
    ensures OpensComment(s, i, '*') ==> i + 1 < |s| && s[i] == '/' && s[i + 1] == '*' && !OpensComment(s, i, '/')
  {
  }

  lemma BlanksAreSpaces()
    ensures IsSpace(' ') && IsSpace('\n')
  {
  }

  lemma NothingLeft(s: string, place: Place, t: string)
    requires |t| == |s|
    ensures StripsTo(s, |s|, place, t)
  {
  }

  lemma PlainOn(t: string, i: nat)
    requires i <= |t|
    ensures i == |t| ==> Plainly(t, i)
    ensures i < |t| ==> (Plainly(t, i) <==> t[i] != '/' && t[i] != '`' && Plainly(t, NextStop(t, i)))
  {
    hide NextStop;
  }

  /** The lexer makes the same of both texts, and finds the blanked one plain. */
  lemma {:induction false} LexStripped(s: string, i: nat, x: Lexing, t: string)
    requires StripsTo(s, i, Code, t) && Fine(Lex(s, i, x))
    ensures Lex(t, i, x) == Lex(s, i, x) && Plainly(t, i)
    decreases |s| - i
  {
    StripsLength(s, i, t);
    FineIs(Lex(s, i, x));
    hide *;
    PlainOn(t, i);
    if i == |s| {
      StepEnd(s, x);
      StepEnd(t, x);
    } else if OpensComment(s, i, '/') || OpensComment(s, i, '*') {
      var j := CommentSkipped(s, i, x, t);
      LexStripped(s, j, x, t);
      SpacesSkipped(t, i, j, x);
    } else {
      NoSlash(s, i, x);
      LexStep(s, i, x);
      StepStripped(s, i, t);
      LexStripped(s, NextStop(s, i), Stepped(s, i, x), t);
      ClosesIs(t, i);
      LexStep(t, i, x);
    }
  }

  lemma StripsLength(s: string, i: nat, t: string)
    requires StripsTo(s, i, Code, t)
    ensures i <= |s| == |t|
  {
  }

  lemma FineIs(s: Lexing)
    ensures Fine(s) <==> s.result.complete && !s.aborted
  {
  }

  // ---------------------------------------------------------------- where the lexer stops

  /** Where t[k] stands, reading from i. */
  function PlaceAt(t: string, i: nat, k: nat, place: Place): Place
    requires k <= |t|
    decreases k - i
  {
    if i >= k then place else PlaceAt(t, i + 1, k, Behind(place, t[i]))
  }

  lemma {:induction false} PlaceBoth(t: string, i: nat, j: nat, k: nat, place: Place)
    requires i <= j <= k <= |t|
    ensures PlaceAt(t, i, k, place) == PlaceAt(t, j, k, PlaceAt(t, i, j, place))
    decreases j - i
  {
    if i < j { PlaceBoth(t, i + 1, j, k, Behind(place, t[i])); }
  }

  /** The lexer's loop gets from i to p. */
  predicate Visits(t: string, i: nat, p: nat)
    decreases p - i
  {
    i == p || (i < p && i < |t| && Visits(t, NextStop(t, i), p))
  }

  lemma {:induction false} VisitsOn(t: string, i: nat, p: nat)
    requires Visits(t, i, p) && p < |t|
    ensures Visits(t, i, NextStop(t, p)) && i <= p
    decreases p - i
  {
    hide NextStop;
    if i < p { VisitsOn(t, NextStop(t, i), p); }
  }

  /** Of two stops, the later one is reached through the earlier one. */
  lemma {:induction false} VisitsInOrder(t: string, i: nat, p: nat, r: nat)
    requires Visits(t, i, p) && Visits(t, i, r) && p <= r
    ensures Visits(t, p, r)
    decreases p - i
  {
    hide NextStop;
    if i < p { VisitsInOrder(t, NextStop(t, i), p, r); }
  }

  lemma {:induction false} Reached(t: string, i: nat, p: nat, x: Lexing) returns (y: Lexing)
    requires Visits(t, i, p) && p <= |t| && Plainly(t, i) && !Lex(t, i, x).aborted
    ensures i <= p && Plainly(t, p) && Lex(t, i, x) == Lex(t, p, y) && x.tokens <= y.tokens
    decreases p - i
  {
    y := x;
    if i < p {
      PlainOn(t, i);
      ClosesIs(t, i);
      hide Lex, Plainly, Stepped, NextStop, TokenAt;
      LexStep(t, i, x);
      y := Reached(t, NextStop(t, i), p, Stepped(t, i, x));
    }
  }

  lemma {:induction false} WordRun(t: string, i: nat)
    requires i <= |t|
    ensures var e := WordEnd(t, i); (forall k | i <= k < e :: IsWordChar(t[k])) && (e < |t| ==> !IsWordChar(t[e]))
    decreases |t| - i
  {
    if i < |t| && IsWordChar(t[i]) { WordRun(t, i + 1); }
  }

  lemma {:induction false} NumberRun(t: string, i: nat)
    requires i <= |t|
    ensures forall k | i <= k < NumberEnd(t, i) :: IsNumberChar(t[k])
    decreases |t| - i
  {
    if i < |t| && IsNumberChar(t[i]) { NumberRun(t, i + 1); }
  }

  /** Characters that open no literal leave one in the code. */
  lemma {:induction false} CodeStays(t: string, i: nat, k: nat)
    requires i <= k <= |t| && forall j | i <= j < k :: !IsQuote(t[j]) && t[j] != '`'
    ensures PlaceAt(t, i, k, Code) == Code
    decreases k - i
  {
    if i < k { CodeStays(t, i + 1, k); }
  }

  /** Inside a literal, up to its closing quote. */
  lemma {:induction false} LiteralPlaces(t: string, i: nat, quote: char, token: Token, multiline: bool, k: nat)
    requires i <= |t| && IsQuote(quote)
    requires var q := ReadQuoted(t, i, quote, token, multiline); q.closed && i <= k < q.next
    ensures PlaceAt(t, i, k, Inside(quote)) != Code
    decreases |t| - i
  {
    if i < k && t[i] == '\\' {
      if i + 1 < k {
        LiteralPlaces(t, i + 2, quote, token.(escaped := true, text := token.text + [t[i], t[i + 1]]), multiline, k);
      }
    } else if i < k {
      LiteralPlaces(t, i + 1, quote, token.(text := token.text + [t[i]]), multiline || t[i] == '\n' || t[i] == '\r', k);
    }
  }

  /** The body of a literal is its token's text. */
  lemma {:induction false} LiteralBody(t: string, i: nat, quote: char, token: Token, multiline: bool)
    requires i <= |t| && IsQuote(quote)
    requires ReadQuoted(t, i, quote, token, multiline).closed
    ensures
      var q := ReadQuoted(t, i, quote, token, multiline);
      && i < q.next && t[q.next - 1] == quote && q.token.text == token.text + t[i..q.next - 1]
      && q.token.literal == token.literal
    decreases |t| - i
  {
    var q := ReadQuoted(t, i, quote, token, multiline);
    if t[i] == quote {
      assert token.text + t[i..i] == token.text;
    } else if t[i] == '\\' {
      LiteralBody(t, i + 2, quote, token.(escaped := true, text := token.text + [t[i], t[i + 1]]), multiline);
      assert t[i..q.next - 1] == [t[i], t[i + 1]] + t[i + 2..q.next - 1];
      assert token.text + [t[i], t[i + 1]] + t[i + 2..q.next - 1] == token.text + t[i..q.next - 1];
    } else {
      LiteralBody(t, i + 1, quote, token.(text := token.text + [t[i]]), multiline || t[i] == '\n' || t[i] == '\r');
      assert t[i..q.next - 1] == [t[i]] + t[i + 1..q.next - 1];
      assert token.text + [t[i]] + t[i + 1..q.next - 1] == token.text + t[i..q.next - 1];
    }
  }

  /** Whether it has escapes is whether there are backslashes. */
  lemma {:induction false} LiteralEscapes(t: string, i: nat, quote: char, token: Token, multiline: bool)
    requires i <= |t| && IsQuote(quote)
    requires ReadQuoted(t, i, quote, token, multiline).closed
    ensures
      var q := ReadQuoted(t, i, quote, token, multiline);
      i < q.next && (q.token.escaped <==> token.escaped || exists k | i <= k < q.next - 1 :: t[k] == '\\')
    decreases |t| - i
  {
    if t[i] == '\\' {
      LiteralEscapes(t, i + 2, quote, token.(escaped := true, text := token.text + [t[i], t[i + 1]]), multiline);
    } else if t[i] != quote {
      LiteralEscapes(t, i + 1, quote, token.(text := token.text + [t[i]]), multiline || t[i] == '\n' || t[i] == '\r');
    }
  }

  /** Behind it one is in the code again. */
  lemma {:induction false} LiteralEnds(t: string, i: nat, quote: char, token: Token, multiline: bool)
    requires i <= |t| && IsQuote(quote)
    requires ReadQuoted(t, i, quote, token, multiline).closed
    ensures PlaceAt(t, i, ReadQuoted(t, i, quote, token, multiline).next, Inside(quote)) == Code
    decreases |t| - i
  {
    LiteralBody(t, i, quote, token, multiline);
    if t[i] == '\\' {
      LiteralEnds(t, i + 2, quote, token.(escaped := true, text := token.text + [t[i], t[i + 1]]), multiline);
    } else if t[i] != quote {
      LiteralEnds(t, i + 1, quote, token.(text := token.text + [t[i]]), multiline || t[i] == '\n' || t[i] == '\r');
    }
  }

  /** A step of the lexer starts and ends in the code, and in between is code or one literal. */
  lemma StepPlaces(t: string, i: nat)
    requires i < |t| && t[i] != '`' && Closes(t, i)
    ensures PlaceAt(t, i, NextStop(t, i), Code) == Code
    ensures forall k | i < k < NextStop(t, i) :: PlaceAt(t, i, k, Code) == Code <==> !IsQuote(t[i])
  {
    var c, n := t[i], NextStop(t, i);
    if IsSpace(c) {
      CodeStays(t, i, i + 1);
    } else if IsQuote(c) {
      LiteralBody(t, i + 1, c, Token("", true, false), false);
      LiteralEnds(t, i + 1, c, Token("", true, false), false);
      forall k | i < k < n ensures PlaceAt(t, i, k, Code) != Code {
        LiteralPlaces(t, i + 1, c, Token("", true, false), false, k);
      }
    } else {
      if StartsWord(c) { WordRun(t, i + 1); } else if IsDigit(c) { NumberRun(t, i + 1); }
      forall k | i < k <= n ensures PlaceAt(t, i, k, Code) == Code { CodeStays(t, i, k); }
    }
  }

  /** A word that begins in the code is a stop. */
  lemma {:induction false} WordIsVisited(t: string, i: nat, p: nat, x: Lexing)
    requires i <= p < |t| && Plainly(t, i) && !Lex(t, i, x).aborted
    requires PlaceAt(t, i, p, Code) == Code && StartsWord(t[p]) && (p == i || !IsWordChar(t[p - 1]))
    ensures Visits(t, i, p)
    decreases p - i
  {
    if i < p {
      var n := NextStop(t, i);
      PlainOn(t, i);
      ClosesIs(t, i);
      LexStep(t, i, x);
      StepPlaces(t, i);
      if !IsQuote(t[i]) { NotWithin(t, i, p); }
      PlaceBoth(t, i, n, p, Code);
      hide Lex, Stepped, TokenAt, PlaceAt, Plainly;
      WordIsVisited(t, n, p, Stepped(t, i, x));
    }
  }

  lemma NotWithin(t: string, i: nat, p: nat)
    requires i < p < |t| && StartsWord(t[p]) && !IsWordChar(t[p - 1]) && !IsQuote(t[i])
    ensures NextStop(t, i) <= p
  {
    if StartsWord(t[i]) { WordRun(t, i + 1); } else if IsDigit(t[i]) { NumberRun(t, i + 1); }
  }

  /** What is not in the code is in a literal. */
  lemma {:induction false} LiteralAround(t: string, i: nat, p: nat, x: Lexing) returns (a: nat)
    requires i <= p < |t| && Plainly(t, i) && !Lex(t, i, x).aborted && PlaceAt(t, i, p, Code) != Code
    ensures Visits(t, i, a) && a < p < NextStop(t, a) && IsQuote(t[a])
    decreases p - i
  {
    var n := NextStop(t, i);
    assert i < p;
    PlainOn(t, i);
    ClosesIs(t, i);
    LexStep(t, i, x);
    StepPlaces(t, i);
    if p < n {
      a := i;
    } else {
      PlaceBoth(t, i, n, p, Code);
      hide Lex, Stepped, TokenAt, PlaceAt, Plainly, NextStop;
      a := LiteralAround(t, n, p, Stepped(t, i, x));
    }
  }

  // ---------------------------------------------------------------- texts the analysis accepts

  /** A blanked text the lexer has no doubts about. */
  ghost predicate Lexed(t: string) { Plainly(t, 0) && Fine(Lex(t, 0, START)) }

  function TokensOf(t: string): seq<Token> { Lex(t, 0, START).tokens }

  /** A blanked text whose analysis is complete. */
  ghost predicate Accepted(t: string) { Lexed(t) && Clean(TokensOf(t), 0, |TokensOf(t)|) }

  /** The head of a call at p that reads or branches: the word up to e, white space, and a parenthesis at o. */
  predicate IsHead(t: string, p: nat, e: nat, o: nat) {
    && p < e <= o < |t| && t[o] == '('
    && (forall k | p <= k < e :: IsNameChar(t[k])) && (forall k | e <= k < o :: IsSpace(t[k]))
    && (ReadsValue(Lower(t[p..e])) || t[p..e] == "if")
  }

  ghost predicate HoldsHead(text: string) { exists p, e, o :: IsHead(text, p, e, o) }

  /** No literal holds the head of such a call. */
  ghost predicate LiteralsInert(tokens: seq<Token>) {
    forall token | token in tokens && token.literal :: !HoldsHead(token.text)
  }

  /** The pattern of a literal call matches here, its texts having no escapes. */
  predicate BeginsCall(text: string, p: nat)
    requires p <= |text|
  {
    (p == 0 || !IsNameChar(text[p - 1])) && CallAt(text, p).Some? && '\\' !in text[p..CallAt(text, p).value.next]
  }

  /** Every head in a literal begins a whole call in the form of the pattern. */
  ghost predicate LiteralsTame(tokens: seq<Token>) {
    forall token, p, e, o | token in tokens && token.literal && IsHead(token.text, p, e, o) ::
      BeginsCall(token.text, p)
  }

  predicate FoundInLiteral(text: string, p: nat, key: TagKey)
    requires p <= |text|
  {
    (p == 0 || !IsNameChar(text[p - 1])) && CallAt(text, p).Some? && key in KeyRead(CallAt(text, p).value)
  }

  /** What the calls in literals read. */
  ghost function LiteralKeys(tokens: seq<Token>): set<TagKey> {
    set token, p, key |
      && token in tokens && token.literal && 0 <= p < |token.text|
      && CallAt(token.text, p).Some? && key in KeyRead(CallAt(token.text, p).value)
      && FoundInLiteral(token.text, p, key) :: key
  }

  /** A literal the lexer stops at is among the tokens. */
  lemma LiteralIsToken(t: string, a: nat)
    requires Lexed(t) && Visits(t, 0, a) && a < |t| && IsQuote(t[a])
    ensures
      var n := NextStop(t, a);
      && a + 1 < n && t[n - 1] == t[a] && TokenAt(t, a) in TokensOf(t) && TokenAt(t, a).literal
      && TokenAt(t, a).text == t[a + 1..n - 1]
      && (TokenAt(t, a).escaped <==> exists k | a + 1 <= k < n - 1 :: t[k] == '\\')
  {
    hide *;
    TokenIsAmong(t, a);
    LiteralParts(t, a);
  }

  lemma TokenIsAmong(t: string, a: nat)
    requires Lexed(t) && Visits(t, 0, a) && a < |t| && IsQuote(t[a])
    ensures TokenAt(t, a) in TokensOf(t)
    ensures
      var q := ReadQuoted(t, a + 1, t[a], Token("", true, false), false);
      q.closed && NextStop(t, a) == q.next
  {
    LexedIs(t);
    hide *;
    var y := Reached(t, 0, a, START);
    PlainOn(t, a);
    ClosesIs(t, a);
    LexStep(t, a, y);
    NextStopIs(t, a);
    QuoteIsNoSpace(t[a]);
    DoubtStays(t, NextStop(t, a), Stepped(t, a, y));
    LastToken(y.tokens, TokenAt(t, a), Lex(t, 0, START).tokens);
  }

  lemma LiteralParts(t: string, a: nat)
    requires a < |t| && IsQuote(t[a]) && ReadQuoted(t, a + 1, t[a], Token("", true, false), false).closed
    ensures
      var q := ReadQuoted(t, a + 1, t[a], Token("", true, false), false);
      && TokenAt(t, a) == q.token && a + 1 < q.next <= |t| && t[q.next - 1] == t[a]
      && q.token.literal && q.token.text == t[a + 1..q.next - 1]
      && (q.token.escaped <==> exists k | a + 1 <= k < q.next - 1 :: t[k] == '\\')
  {
    hide *;
    LiteralBody(t, a + 1, t[a], Token("", true, false), false);
    LiteralEscapes(t, a + 1, t[a], Token("", true, false), false);
    LiteralToken(t, a);
  }

  lemma LexedIs(t: string)
    requires Lexed(t)
    ensures Plainly(t, 0) && !Lex(t, 0, START).aborted && TokensOf(t) == Lex(t, 0, START).tokens
  {
  }

  lemma QuoteIsNoSpace(c: char)
    ensures IsQuote(c) ==> !IsSpace(c)
  {
  }

  lemma LastToken(before: seq<Token>, token: Token, all: seq<Token>)
    requires before + [token] <= all
    ensures token in all
  {
    assert all[|before|] == (before + [token])[|before|];
  }

  lemma LiteralToken(t: string, a: nat)
    requires a < |t| && IsQuote(t[a])
    ensures TokenAt(t, a) == ReadQuoted(t, a + 1, t[a], Token("", true, false), false).token
    ensures forall s: string :: "" + s == s
  {
    hide ReadQuoted;
  }

  /** A literal the lexer stops at, with p in its body. */
  ghost predicate InLiteral(t: string, a: nat, p: nat) {
    && a < p < |t| && Visits(t, 0, a) && p < NextStop(t, a) - 1 && NextStop(t, a) <= |t| && IsQuote(t[a])
    && TokenAt(t, a) in TokensOf(t) && TokenAt(t, a).literal
    && TokenAt(t, a).text == t[a + 1..NextStop(t, a) - 1]
  }

  /** The head of a call is in the code, or begins a call in a literal. */
  lemma HeadIsPlaced(t: string, p: nat, e: nat, o: nat) returns (a: nat)
    requires Lexed(t) && LiteralsTame(TokensOf(t)) && IsHead(t, p, e, o)
    ensures PlaceAt(t, 0, p, Code) != Code ==> InLiteral(t, a, p) && BeginsCall(TokenAt(t, a).text, p - a - 1)
  {
    a := 0;
    if PlaceAt(t, 0, p, Code) != Code {
      a := LiteralAround(t, 0, p, START);
      LiteralIsToken(t, a);
      hide PlaceAt, IsHead, Lexed, TokensOf, TokenAt, NextStop, Visits, BeginsCall;
      HeadInLiteral(t, p, e, o, a + 1, NextStop(t, a) - 1);
    }
  }

  /** A head that begins inside a literal ends inside it, having no quotes. */
  lemma HeadInLiteral(t: string, p: nat, e: nat, o: nat, i: nat, j: nat)
    requires IsHead(t, p, e, o) && i <= p <= j < |t| && IsQuote(t[j])
    ensures p < j && IsHead(t[i..j], p - i, e - i, o - i)
  {
    assert o < j by {
      assert forall k | p <= k <= o :: IsNameChar(t[k]) || IsSpace(t[k]) || t[k] == '(';
    }
    HeadShifts(t, p, e, o, i, j);
  }

  lemma HeadShifts(t: string, p: nat, e: nat, o: nat, i: nat, j: nat)
    requires IsHead(t, p, e, o) && i <= p && o < j <= |t|
    ensures IsHead(t[i..j], p - i, e - i, o - i)
  {
    var u := t[i..j];
    assert forall k | i <= k < j :: u[k - i] == t[k];
    assert u[p - i..e - i] == t[p..e];
    assert forall k | p - i <= k < e - i :: u[k] == t[k + i];
    assert forall k | e - i <= k < o - i :: u[k] == t[k + i];
  }

  /** A head in the code that is no end of a longer word is a stop, and the stop's word is the head's. */
  lemma HeadIsVisited(t: string, p: nat, e: nat, o: nat)
    requires Lexed(t) && IsHead(t, p, e, o) && PlaceAt(t, 0, p, Code) == Code && (p == 0 || !IsWordChar(t[p - 1]))
    ensures Visits(t, 0, p) && StartsWord(t[p]) && WordEnd(t, p + 1) == e
  {
    assert StartsWord(t[p]) by {
      assert t[p] == t[p..e][0];
      LowerFirst(t[p..e]);
    }
    WordIsVisited(t, 0, p, START);
    WordRun(t, p + 1);
    assert !IsWordChar(t[e]);
    assert forall k | p <= k < e :: IsWordChar(t[k]);
    WordEndIs(t, p + 1, e);
  }

  lemma LowerFirst(s: string)
    requires s != ""
    ensures Lower(s) != "" && Lower(s)[0] == ToLower(s[0])
  {
  }

  lemma {:induction false} WordEndIs(t: string, i: nat, e: nat)
    requires i <= e < |t| && (forall k | i <= k < e :: IsWordChar(t[k])) && !IsWordChar(t[e])
    ensures WordEnd(t, i) == e
    decreases e - i
  {
    if i < e { WordEndIs(t, i + 1, e); }
  }

  // ---------------------------------------------------------------- reading calls in accepted texts

  lemma {:induction false} SpaceRun(t: string, i: nat)
    requires i <= |t|
    ensures var j := SkipSpace(t, i); (forall k | i <= k < j :: IsSpace(t[k])) && (j < |t| ==> !IsSpace(t[j]))
    decreases |t| - i
  {
    if i < |t| && IsSpace(t[i]) { SpaceRun(t, i + 1); }
  }

  /** The lexer is at i, everything before having become the tokens of y. */
  ghost predicate At(t: string, i: nat, y: Lexing) {
    && i <= |t| && Plainly(t, i) && Visits(t, 0, i)
    && Lex(t, 0, START) == Lex(t, i, y) && Fine(Lex(t, i, y))
  }

  /** What comes at i: the next token, if the text's tokens are not all read. */
  lemma NextToken(t: string, i: nat, y: Lexing) returns (z: Lexing)
    requires At(t, i, y) && |y.tokens| < |TokensOf(t)|
    ensures
      var j := SkipSpace(t, i);
      && j < |t| && At(t, NextStop(t, j), z) && Visits(t, 0, j) && Closes(t, j)
      && TokensOf(t)[|y.tokens|] == TokenAt(t, j) && |z.tokens| == |y.tokens| + 1
  {
    var j := SkipSpace(t, i);
    SpaceRun(t, i);
    SpacesSkipped(t, i, j, y);
    SpacesVisited(t, i, j);
    PlainOn(t, j);
    if j == |t| {
      StepEnd(t, y);
      z := y;
    } else {
      ClosesIs(t, j);
      LexStep(t, j, y);
      z := Stepped(t, j, y);
      VisitsOn(t, 0, j);
      DoubtStays(t, NextStop(t, j), z);
      hide Lex, Visits, Plainly, TokenAt, Stepped;
      assert z.tokens[|y.tokens|] == TokenAt(t, j);
    }
  }

  lemma {:induction false} SpacesVisited(t: string, i: nat, j: nat)
    requires Visits(t, 0, i) && i <= j <= |t| && forall k | i <= k < j :: IsSpace(t[k])
    ensures Visits(t, 0, j)
    decreases j - i
  {
    if i < j {
      VisitsOn(t, 0, i);
      SpacesVisited(t, i + 1, j);
    }
  }

  /** What kind of character makes a token of this kind. */
  lemma TokenSays(t: string, j: nat)
    requires j < |t|
    ensures TokenAt(t, j).literal ==> IsQuote(t[j])
    ensures !TokenAt(t, j).literal && |TokenAt(t, j).text| == 1 ==> TokenAt(t, j).text == [t[j]]
    ensures t[j] in "(),{};" ==> NextStop(t, j) == j + 1
  {
    if IsQuote(t[j]) { QuotedIsLiteral(t, j + 1, t[j], Token("", true, false), false); }
    hide ReadQuoted, WordEnd, NumberEnd;
  }

  lemma {:induction false} QuotedIsLiteral(t: string, i: nat, quote: char, token: Token, multiline: bool)
    requires i <= |t|
    ensures ReadQuoted(t, i, quote, token, multiline).token.literal == token.literal
    decreases |t| - i
  {
    if i < |t| && t[i] != quote {
      if t[i] == '\\' {
        if i + 1 < |t| {
          QuotedIsLiteral(t, i + 2, quote, token.(escaped := true, text := token.text + [t[i], t[i + 1]]), multiline);
        }
      } else {
        var more := token.(text := token.text + [t[i]]);
        QuotedIsLiteral(t, i + 1, quote, more, multiline || t[i] == '\n' || t[i] == '\r');
      }
    }
  }

  /** A literal without escapes at or behind white space at i; n is the position behind it. */
  predicate LiteralAt(t: string, i: nat, n: nat) {
    var q := SkipSpace(t, i);
    && q + 1 < n <= |t| && IsQuote(t[q]) && t[n - 1] == t[q]
    && forall k | q < k < n - 1 :: t[k] != t[q] && t[k] != '\\'
  }

  function LiteralText(t: string, i: nat, n: nat): string
    requires LiteralAt(t, i, n)
  {
    t[SkipSpace(t, i) + 1..n - 1]
  }

  /** Behind the name of a call at e: parenthesis, literal, comma, literal, parenthesis, the literals ending at n1 and
      n2. */
  predicate LiteralCall(t: string, e: nat, n1: nat, n2: nat) {
    var o, m, c := SkipSpace(t, e), SkipSpace(t, n1), SkipSpace(t, n2);
    && CharAt(t, o, '(') && LiteralAt(t, o + 1, n1) && CharAt(t, m, ',') && LiteralAt(t, m + 1, n2) && CharAt(t, c, ')')
  }

  /** The next token is a literal without escapes. */
  lemma NextLiteral(t: string, i: nat, y: Lexing) returns (z: Lexing, n: nat)
    requires Lexed(t) && At(t, i, y) && IsPlainLiteral(TokensOf(t), |y.tokens|)
    ensures LiteralAt(t, i, n) && LiteralText(t, i, n) == TokensOf(t)[|y.tokens|].text
    ensures At(t, n, z) && |z.tokens| == |y.tokens| + 1
    ensures i <= SkipSpace(t, i) < n && n == NextStop(t, SkipSpace(t, i)) && Visits(t, 0, SkipSpace(t, i))
  {
    var q := SkipSpace(t, i);
    z := NextToken(t, i, y);
    n := NextStop(t, q);
    TokenSays(t, q);
    LiteralIsToken(t, q);
    FirstQuote(t, q);
  }

  lemma FirstQuote(t: string, q: nat)
    requires q < |t| && IsQuote(t[q]) && Closes(t, q)
    ensures !TokenAt(t, q).escaped ==> forall k | q < k < NextStop(t, q) - 1 :: t[k] != t[q]
  {
    NoEarlierQuote(t, q + 1, t[q], Token("", true, false), false);
  }

  lemma {:induction false} NoEarlierQuote(t: string, i: nat, quote: char, token: Token, multiline: bool)
    requires i <= |t| && ReadQuoted(t, i, quote, token, multiline).closed
    ensures
      var q := ReadQuoted(t, i, quote, token, multiline);
      && (token.escaped ==> q.token.escaped)
      && (!q.token.escaped ==> forall k | i <= k < q.next - 1 :: t[k] != quote)
    decreases |t| - i
  {
    if t[i] != quote {
      if t[i] == '\\' {
        NoEarlierQuote(t, i + 2, quote, token.(escaped := true, text := token.text + [t[i], t[i + 1]]), multiline);
      } else {
        NoEarlierQuote(t, i + 1, quote, token.(text := token.text + [t[i]]), multiline || t[i] == '\n' || t[i] == '\r');
      }
    }
  }

  /** The next token is this symbol. */
  lemma NextSymbol(t: string, i: nat, y: Lexing, c: char) returns (z: Lexing)
    requires At(t, i, y) && IsPlain(TokensOf(t), |y.tokens|, [c]) && c in "(),"
    ensures CharAt(t, SkipSpace(t, i), c) && At(t, SkipSpace(t, i) + 1, z) && |z.tokens| == |y.tokens| + 1
    ensures Visits(t, 0, SkipSpace(t, i))
  {
    z := NextToken(t, i, y);
    TokenSays(t, SkipSpace(t, i));
  }

  function CallKey(t: string, e: nat, n1: nat, n2: nat): TagKey
    requires LiteralCall(t, e, n1, n2)
  {
    (LiteralText(t, SkipSpace(t, e) + 1, n1), LiteralText(t, SkipSpace(t, n1) + 1, n2))
  }

  /** The word the lexer stops at becomes the next token. */
  lemma WordAt(t: string, p: nat) returns (y: Lexing, z: Lexing)
    requires Lexed(t) && Visits(t, 0, p) && p < |t| && StartsWord(t[p])
    ensures At(t, WordEnd(t, p + 1), z) && |z.tokens| == |y.tokens| + 1 && |y.tokens| < |TokensOf(t)|
    ensures TokensOf(t)[|y.tokens|] == Token(t[p..WordEnd(t, p + 1)], false, false)
    ensures NextStop(t, p) == WordEnd(t, p + 1)
  {
    y := Reached(t, 0, p, START);
    PlainOn(t, p);
    ClosesIs(t, p);
    NotSpace(t[p]);
    LexStep(t, p, y);
    z := Stepped(t, p, y);
    DoubtStays(t, NextStop(t, p), z);
    VisitsOn(t, 0, p);
    NextStopIs(t, p);
    WordToken(t, p);
    hide Lex, Plainly, Visits, NextStop, TokenAt, Stepped, WordEnd;
    assert z.tokens[|y.tokens|] == TokenAt(t, p);
  }

  /** A reading call the lexer stops at has two literals for arguments, and is reported. */
  lemma CallIsLiteral(t: string, p: nat, e: nat) returns (n1: nat, n2: nat)
    requires Accepted(t) && Visits(t, 0, p) && p < |t| && StartsWord(t[p]) && e == WordEnd(t, p + 1)
    requires ReadsValue(Lower(t[p..e]))
    ensures LiteralCall(t, e, n1, n2)
    ensures
      var key := CallKey(t, e, n1, n2);
      key.0 == "_system" || key in ReadsIn(TokensOf(t), 0, |TokensOf(t)|)
    ensures forall r | p < r <= SkipSpace(t, n2) && Visits(t, 0, r) :: r < |t| && !StartsWord(t[r])
  {
    hide *;
    AcceptedIsClean(t);
    var tokens := TokensOf(t);
    var y, z := WordAt(t, p);
    var k := |y.tokens|;
    FoundCall(tokens, k);
    z := NextSymbol(t, e, z, '(');
    var o := SkipSpace(t, e);
    z, n1 := NextLiteral(t, o + 1, z);
    z := NextSymbol(t, n1, z, ',');
    var m := SkipSpace(t, n1);
    z, n2 := NextLiteral(t, m + 1, z);
    z := NextSymbol(t, n2, z, ')');
    LiteralCallIs(t, e, n1, n2);
    forall r | p < r <= SkipSpace(t, n2) && Visits(t, 0, r)
      ensures !StartsWord(t[r])
    {
      NoWordWithin(t, p, e, n1, n2, r);
    }
  }

  lemma AcceptedIsClean(t: string)
    requires Accepted(t)
    ensures Lexed(t) && Clean(TokensOf(t), 0, |TokensOf(t)|)
  {
  }

  lemma LiteralCallIs(t: string, e: nat, n1: nat, n2: nat)
    requires
      var o, m, c := SkipSpace(t, e), SkipSpace(t, n1), SkipSpace(t, n2);
      && CharAt(t, o, '(') && LiteralAt(t, o + 1, n1) && CharAt(t, m, ',') && LiteralAt(t, m + 1, n2)
        && CharAt(t, c, ')')
    ensures LiteralCall(t, e, n1, n2)
    ensures CallKey(t, e, n1, n2) == (LiteralText(t, SkipSpace(t, e) + 1, n1), LiteralText(t, SkipSpace(t, n1) + 1, n2))
  {
  }

  lemma NotSpace(c: char)
    ensures StartsWord(c) ==> !IsSpace(c) && !IsQuote(c)
    ensures IsQuote(c) || c in "()," ==> !StartsWord(c)
    ensures IsSpace(c) ==> !StartsWord(c)
  {
  }

  lemma WordToken(t: string, p: nat)
    requires p < |t| && StartsWord(t[p])
    ensures TokenAt(t, p) == Plain(t[p..WordEnd(t, p + 1)])
  {
    hide WordEnd;
  }

  /** A clean scan saw the call whole. */
  lemma FoundCall(tokens: seq<Token>, k: nat)
    requires Clean(tokens, 0, |tokens|) && k < |tokens| && !tokens[k].literal && ReadsValue(Lower(tokens[k].text))
    ensures IsPlain(tokens, k + 1, "(") && IsPlainLiteral(tokens, k + 2) && IsPlain(tokens, k + 3, ",")
    ensures IsPlainLiteral(tokens, k + 4) && IsPlain(tokens, k + 5, ")")
    ensures tokens[k + 2].text == "_system" || (tokens[k + 2].text, tokens[k + 4].text) in ReadsIn(tokens, 0, |tokens|)
  {
    assert !FindingAt(tokens, k).Doubtful?;
    var name := Lower(tokens[k].text);
    assert name == "tag" || name == "quality";
    HelpersDiffer();
    hide Lower, ReadsIn, IsPure, IsUnsupportedWord;
    assert name != "" && StartsWord(name[0]);
    if tokens[k + 2].text != "_system" {
      assert FindingAt(tokens, k) == Read((tokens[k + 2].text, tokens[k + 4].text));
      FoundIsIn(tokens, k);
    }
  }

  lemma HelpersDiffer()
    ensures !IsPure("tag") && !IsPure("quality") && !IsUnsupportedWord("tag") && !IsUnsupportedWord("quality")
  {
  }

  lemma FoundIsIn(tokens: seq<Token>, k: nat)
    requires k < |tokens| && FindingAt(tokens, k).Read?
    ensures FindingAt(tokens, k).key in ReadsIn(tokens, 0, |tokens|)
  {
    hide FindingAt;
  }

  /** The stops within such a call are its parentheses, its comma and its literals. */
  lemma NoWordWithin(t: string, p: nat, e: nat, n1: nat, n2: nat, r: nat)
    requires Visits(t, 0, p) && p < |t| && NextStop(t, p) == e && LiteralCall(t, e, n1, n2)
    requires
      var o, m, c := SkipSpace(t, e), SkipSpace(t, n1), SkipSpace(t, n2);
      var l1, l2 := SkipSpace(t, o + 1), SkipSpace(t, m + 1);
      && Visits(t, 0, o) && Visits(t, 0, l1) && NextStop(t, l1) == n1
      && Visits(t, 0, m) && Visits(t, 0, l2) && NextStop(t, l2) == n2 && Visits(t, 0, c)
    requires p < r <= SkipSpace(t, n2) && Visits(t, 0, r)
    ensures r < |t| && !StartsWord(t[r])
  {
    var o, m, c := SkipSpace(t, e), SkipSpace(t, n1), SkipSpace(t, n2);
    var l1, l2 := SkipSpace(t, o + 1), SkipSpace(t, m + 1);
    CallChars(t, e, n1, n2);
    hide *;
    StopAfter(t, p, r);
    if r > l2 {
      StopAfter(t, l2, r);
      NoWordInGap(t, n2, r);
    } else if r > m {
      NoWordInGap(t, m + 1, r);
    } else if r > l1 {
      StopAfter(t, l1, r);
      NoWordInGap(t, n1, r);
    } else if r > o {
      NoWordInGap(t, o + 1, r);
    } else {
      NoWordInGap(t, e, r);
    }
  }

  lemma CallChars(t: string, e: nat, n1: nat, n2: nat)
    requires LiteralCall(t, e, n1, n2)
    ensures
      var o, m, c := SkipSpace(t, e), SkipSpace(t, n1), SkipSpace(t, n2);
      var l1, l2 := SkipSpace(t, o + 1), SkipSpace(t, m + 1);
      && e <= o < l1 < n1 <= m < l2 < n2 <= c < |t|
      && !StartsWord(t[o]) && !StartsWord(t[l1]) && !StartsWord(t[m]) && !StartsWord(t[l2]) && !StartsWord(t[c])
      && t[o] == '(' && IsQuote(t[l1]) && t[m] == ',' && IsQuote(t[l2]) && t[c] == ')'
  {
    hide SkipSpace;
  }

  lemma NoWordInGap(t: string, i: nat, r: nat)
    requires i <= r <= SkipSpace(t, i) < |t| && !StartsWord(t[SkipSpace(t, i)])
    ensures !StartsWord(t[r])
  {
    SpaceRun(t, i);
    NotSpace(t[r]);
  }

  lemma StopAfter(t: string, p: nat, r: nat)
    requires Visits(t, 0, p) && Visits(t, 0, r) && p < r <= |t|
    ensures NextStop(t, p) <= r
  {
    VisitsInOrder(t, 0, p, r);
    assert Visits(t, NextStop(t, p), r);
  }
}
