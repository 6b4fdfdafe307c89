/** The logger's comment stripper for its JSON configuration files: a seven-state character machine.

    `Strip` is the machine's meaning as a function; `StripComments` is the loop.  Proved: the loop
    computes `Strip`; stripping is idempotent on every string; and on a text made of plain stretches,
    string literals, block comments and line comments, exactly the comments go (a line comment leaves
    its newline), unless a slash stands directly before a string literal: there the machine misses that a
    string begins, and which literals survive that is decided exactly.
 */
module CommentStripper {

  datatype State = Normal | Slash | LineComment | BlockComment | BlockCommentStar | InString | InStringEscape

  function Next(state: State, c: char): State {
    match state
    case Normal => if c == '"' then InString else if c == '/' then Slash else Normal
    case Slash => if c == '/' then LineComment else if c == '*' then BlockComment else Normal
    case LineComment => if c == '\n' then Normal else LineComment
    case BlockComment => if c == '*' then BlockCommentStar else BlockComment
    case BlockCommentStar => if c == '/' then Normal else if c == '*' then BlockCommentStar else BlockComment
    case InString => if c == '\\' then InStringEscape else if c == '"' then Normal else InString
    case InStringEscape => InString
  }

  function Emit(state: State, c: char): string {
    match state
    case Normal => if c == '/' then "" else [c]
    case Slash => if c == '/' || c == '*' then "" else ['/', c]
    case LineComment => if c == '\n' then "\n" else ""
    case BlockComment => ""
    case BlockCommentStar => ""
    case InString => [c]
    case InStringEscape => [c]
  }

  /** What the machine still writes when it reads `input` from `state`; a slash pending at the end is kept. */
  function Rest(state: State, input: string): string
    decreases input
  {
    if input == "" then (if state == Slash then "/" else "")
    else Emit(state, input[0]) + Rest(Next(state, input[0]), input[1..])
  }

  function Strip(input: string): string {
    Rest(Normal, input)
  }

  method StripComments(input: string) returns (out: string)
    ensures out == Strip(input)
    ensures Strip(out) == out
  {
    StripIsIdempotent(input);
    out := "";
    var state := Normal;
    for i := 0 to |input|
      invariant out + Rest(state, input[i..]) == Strip(input)
    {
      var c := input[i];
      ghost var before, from := out, state;
      match state {
        case Normal =>
          if c == '"' { out := out + [c]; state := InString; }
          else if c == '/' { state := Slash; }
          else { out := out + [c]; }
        case Slash =>
          if c == '/' { state := LineComment; }
          else if c == '*' { state := BlockComment; }
          else { out := out + ['/']; out := out + [c]; state := Normal; }
        case LineComment =>
          if c == '\n' { out := out + ['\n']; state := Normal; }
        case BlockComment =>
          if c == '*' { state := BlockCommentStar; }
        case BlockCommentStar =>
          if c == '/' { state := Normal; } else if c != '*' { state := BlockComment; }
        case InString =>
          out := out + [c];
          if c == '\\' { state := InStringEscape; } else if c == '"' { state := Normal; }
        case InStringEscape =>
          out := out + [c];
          state := InString;
      }
      assert out == before + Emit(from, c) && state == Next(from, c);
      Advance(before, from, input, i);
    }
    assert input[|input|..] == "";
    if state == Slash { out := out + ['/']; }
  }

  lemma Advance(out: string, state: State, input: string, i: nat)
    requires i < |input|
    ensures out + Rest(state, input[i..]) == out + Emit(state, input[i]) + Rest(Next(state, input[i]), input[i + 1..])
  {
    assert input[i..] == [input[i]] + input[i + 1..];
    ReadOne(state, input[i], input[i + 1..]);
  }

  // ---------------------------------------------------------------- idempotence

  /** The state of a second pass that has read everything the first pass has written. */
  function SecondPass(state: State): State {
    if state.InString? || state.InStringEscape? then state else Normal
  }

  lemma {:induction false} SecondPassCopies(state: State, input: string)
    ensures Rest(SecondPass(state), Rest(state, input)) == Rest(state, input)
    decreases input
  {
    if input != "" {
      hide *;
      SecondPassCopies(Next(state, input[0]), input[1..]);
      FirstRest(state, input);
      CopiesOne(state, input[0], Rest(Next(state, input[0]), input[1..]));
    } else {
      assert Rest(state, input) == (if state == Slash then "/" else "");
      assert "/"[1..] == "";
    }
  }

  /** What is written for one character is copied too. */
  lemma CopiesOne(state: State, c: char, tail: string)
    requires Rest(SecondPass(Next(state, c)), tail) == tail
    ensures Rest(SecondPass(state), Emit(state, c) + tail) == Emit(state, c) + tail
  {
    hide Rest;
    if state == Slash && c != '/' && c != '*' {
      assert ['/', c] + tail == ['/'] + ([c] + tail);
      ReadOne(Normal, '/', [c] + tail);
      ReadOne(Slash, c, tail);
    } else if Emit(state, c) != "" {
      ReadOne(SecondPass(state), c, tail);
    } else {
      assert "" + tail == tail;
    }
  }

  lemma FirstRest(state: State, input: string)
    requires input != ""
    ensures Rest(state, input) == Emit(state, input[0]) + Rest(Next(state, input[0]), input[1..])
  {
  }

  lemma StripIsIdempotent(input: string)
    ensures Strip(Strip(input)) == Strip(input)
  {
    SecondPassCopies(Normal, input);
  }

  // ---------------------------------------------------------------- reading a part of a text

  function After(state: State, s: string): State
    decreases s
  {
    if s == "" then state else After(Next(state, s[0]), s[1..])
  }

  function Written(state: State, s: string): string
    decreases s
  {
    if s == "" then "" else Emit(state, s[0]) + Written(Next(state, s[0]), s[1..])
  }

  lemma {:induction false} ReadPart(state: State, s: string, rest: string)
    ensures Rest(state, s + rest) == Written(state, s) + Rest(After(state, s), rest)
    decreases s
  {
    if s == "" {
      assert s + rest == rest;
    } else {
      hide *;
      HeadAndTail(s, rest);
      FirstRest(state, s + rest);
      ReadFirst(state, s);
      ReadPart(Next(state, s[0]), s[1..], rest);
      Grouped(Emit(state, s[0]), Written(Next(state, s[0]), s[1..]), Rest(After(state, s), rest));
    }
  }

  lemma {:induction false} ReadBoth(state: State, s: string, t: string)
    ensures After(state, s + t) == After(After(state, s), t)
    ensures Written(state, s + t) == Written(state, s) + Written(After(state, s), t)
    decreases s
  {
    if s == "" {
      assert s + t == t;
    } else {
      hide *;
      ReadFirst(state, s);
      ReadFirst(state, s + t);
      HeadAndTail(s, t);
      ReadBoth(Next(state, s[0]), s[1..], t);
      Grouped(Emit(state, s[0]), Written(Next(state, s[0]), s[1..]), Written(After(state, s), t));
    }
  }

  lemma HeadAndTail<T>(s: seq<T>, t: seq<T>)
    requires s != []
    ensures s + t != [] && (s + t)[0] == s[0] && (s + t)[1..] == s[1..] + t
  {
  }

  lemma Grouped(a: string, b: string, c: string)
    ensures a + (b + c) == (a + b) + c
  {
  }

  lemma ReadFirst(state: State, s: string)
    requires s != ""
    ensures After(state, s) == After(Next(state, s[0]), s[1..])
    ensures Written(state, s) == Emit(state, s[0]) + Written(Next(state, s[0]), s[1..])
  {
  }

  lemma ReadOne(state: State, c: char, rest: string)
    ensures Rest(state, [c] + rest) == Emit(state, c) + Rest(Next(state, c), rest)
  {
    assert ([c] + rest)[1..] == rest;
  }

  lemma {:induction false} WritesNoMore(state: State, s: string)
    ensures |Written(state, s)| <= |s| + (if state == Slash then 1 else 0)
    decreases s
  {
    if s != "" { WritesNoMore(Next(state, s[0]), s[1..]); }
  }

  // ---------------------------------------------------------------- texts made of pieces

  datatype Piece =
    | Plain(text: string)
    | StringLiteral(body: string)
    | Block(body: string)
    | Line(body: string)
  {
    /** A plain stretch holds no quote and opens no comment; a string body has every quote escaped; a comment
        body does not end its own comment. */
    predicate Valid() {
      match this
      case Plain(s) => '"' !in s && forall i | 0 <= i < |s| - 1 :: !(s[i] == '/' && s[i + 1] in "/*")
      case StringLiteral(b) => EscapesClosed(b)
      case Block(b) => forall i | 0 <= i < |b| - 1 :: !(b[i] == '*' && b[i + 1] == '/')
      case Line(b) => '\n' !in b
    }

    function Text(): string {
      match this
      case Plain(s) => s
      case StringLiteral(b) => "\"" + b + "\""
      case Block(b) => "/*" + b + "*/"
      case Line(b) => "//" + b + "\n"
    }

    function Kept(): string {
      match this
      case Plain(s) => s
      case StringLiteral(b) => "\"" + b + "\""
      case Block(_) => ""
      case Line(_) => "\n"
    }

    /** Whether a slash is pending behind this piece: the last character of a plain stretch. */
    predicate Slashes(pending: bool) {
      if Plain? then (if text == "" then pending else text[|text| - 1] == '/') else false
    }

    /** Behind a pending slash, a slash or a star would have opened a comment. */
    predicate Fits(pending: bool) {
      pending ==> StringLiteral? || (Plain? && (text == "" || text[0] !in "/*"))
    }
  }

  predicate EscapesClosed(b: string) {
    if b == "" then true
    else if b[0] == '\\' then |b| >= 2 && EscapesClosed(b[2..])
    else b[0] != '"' && EscapesClosed(b[1..])
  }

  function AllText(pieces: seq<Piece>): string {
    if pieces == [] then "" else pieces[0].Text() + AllText(pieces[1..])
  }

  function AllKept(pieces: seq<Piece>): string {
    if pieces == [] then "" else pieces[0].Kept() + AllKept(pieces[1..])
  }

  /** The pieces are what their text reads as. */
  predicate Reads(pending: bool, pieces: seq<Piece>)
    decreases |pieces|
  {
    if pieces == [] then true
    else pieces[0].Valid() && pieces[0].Fits(pending) && Reads(pieces[0].Slashes(pending), pieces[1..])
  }

  predicate Pending(pending: bool, pieces: seq<Piece>)
    decreases |pieces|
  {
    if pieces == [] then pending else Pending(pieces[0].Slashes(pending), pieces[1..])
  }

  /** How many characters there are up to the first quote that is not escaped, that quote included; 0 without one. */
  function Closing(s: string): (n: nat)
    ensures n <= |s| && (n > 0 ==> s[n - 1] == '"')
  {
    if s == "" then 0
    else if s[0] == '"' then 1
    else
      var step := if s[0] == '\\' && |s| >= 2 then 2 else 1;
      var n := Closing(s[step..]);
      if n == 0 then 0 else step + n
  }

  /** The text splits into whole literals, slashes with the character behind them where that opens no comment, and
      other characters. */
  predicate Splits(s: string)
    decreases |s|
  {
    if s == "" then true
    else if s[0] == '"' then Closing(s[1..]) > 0 && Splits(s[1 + Closing(s[1..])..])
    else if s[0] == '/' then |s| >= 2 && s[1] !in "/*" && Splits(s[2..])
    else Splits(s[1..])
  }

  /** A literal whose opening quote goes unnoticed does no harm: its body and closing quote split in the same way, a
      slash or another literal taking that quote in. */
  predicate Harmless(b: string) { Splits(b + "\"") }

  /** Every literal directly behind a slash is harmless. */
  predicate AllHarmless(pending: bool, pieces: seq<Piece>)
    decreases |pieces|
  {
    if pieces == [] then true
    else
      && (pending && pieces[0].StringLiteral? ==> Harmless(pieces[0].body))
      && AllHarmless(pieces[0].Slashes(pending), pieces[1..])
  }

  predicate Stripped(pieces: seq<Piece>) { Strip(AllText(pieces)) == AllKept(pieces) }

  // ---------------------------------------------------------------- texts that are copied

  /** The machine copies the text and is back where it was. */
  predicate Copied(s: string) { Written(Normal, s) == s && After(Normal, s) == Normal }

  lemma {:induction false} ClosingIs(s: string)
    requires Closing(s) > 0
    ensures EscapesClosed(s[..Closing(s) - 1])
    decreases |s|
  {
    var n := Closing(s);
    if s[0] != '"' {
      var step := if s[0] == '\\' && |s| >= 2 then 2 else 1;
      ClosingIs(s[step..]);
      assert s[..n - 1][step..] == s[step..][..n - 1 - step];
    }
  }

  /** Without a closing quote the literal is still open. */
  lemma {:induction false} StaysOpen(s: string)
    requires Closing(s) == 0
    ensures After(InString, s) != Normal
    decreases |s|
  {
    if |s| >= 2 && s[0] == '\\' {
      StaysOpen(s[2..]);
      assert s[1..][1..] == s[2..];
    } else if s != "" {
      StaysOpen(s[1..]);
      if s[0] == '\\' { assert s[1..] == ""; }
    }
  }

  /** A beginning that is copied does not matter. */
  lemma BehindCopied(a: string, s: string)
    requires Copied(a)
    ensures Copied(a + s) <==> Copied(s)
  {
    ReadBoth(Normal, a, s);
    hide After, Written;
    if a + Written(Normal, s) == a + s {
      assert (a + Written(Normal, s))[|a|..] == Written(Normal, s) && (a + s)[|a|..] == s;
    }
  }

  lemma OpensAre(s: string)
    requires |s| >= 2 && s[0] == '/' && s[1] in "/*"
    ensures !Copied(s)
  {
    var comment := if s[1] == '/' then LineComment else BlockComment;
    ReadFirst(Normal, s);
    ReadFirst(Slash, s[1..]);
    WritesNoMore(comment, s[2..]);
    assert s[1..][1..] == s[2..];
  }

  /** Being copied is a matter of the text's form. */
  lemma {:induction false} SplitsIsCopied(s: string)
    ensures Splits(s) <==> Copied(s)
    decreases |s|
  {
    if s == "" {
    } else if s[0] == '"' {
      var n := Closing(s[1..]);
      if n > 0 {
        var b := s[1..][..n - 1];
        ClosingIs(s[1..]);
        StringRead(b);
        assert s[..n + 1] == "\"" + b + "\"";
        assert s == s[..n + 1] + s[n + 1..];
        BehindCopied(s[..n + 1], s[n + 1..]);
        SplitsIsCopied(s[n + 1..]);
      } else {
        StaysOpen(s[1..]);
        ReadFirst(Normal, s);
      }
    } else if s[0] == '/' {
      if |s| >= 2 && s[1] !in "/*" {
        ReadTwo(Normal, '/', s[1]);
        assert s == ['/', s[1]] + s[2..];
        BehindCopied(['/', s[1]], s[2..]);
        SplitsIsCopied(s[2..]);
      } else if |s| >= 2 {
        OpensAre(s);
      } else {
        ReadTwo(Normal, '/', '/');
        assert s == "/";
      }
    } else {
      ReadTwo(Normal, s[0], s[0]);
      assert s == [s[0]] + s[1..];
      BehindCopied([s[0]], s[1..]);
      SplitsIsCopied(s[1..]);
    }
  }

  // ---------------------------------------------------------------- exactly the comments go

  function StateOf(pending: bool): State { if pending then Slash else Normal }

  function Lag(pending: bool): string { if pending then "/" else "" }

  lemma {:induction false} PlainRead(pending: bool, s: string)
    requires Plain(s).Valid() && Plain(s).Fits(pending)
    ensures After(StateOf(pending), s) == StateOf(Plain(s).Slashes(pending))
    ensures Written(StateOf(pending), s) + Lag(Plain(s).Slashes(pending)) == Lag(pending) + s
    decreases s
  {
    if s == "" {
      assert "" + Lag(pending) == Lag(pending) + "";
    } else {
      var slash, end := s[0] == '/', Plain(s).Slashes(pending);
      PlainTail(s, pending);
      ReadFirst(StateOf(pending), s);
      hide *;
      PlainRead(slash, s[1..]);
      Shift(Emit(StateOf(pending), s[0]), Written(StateOf(slash), s[1..]), Lag(pending), Lag(slash), Lag(end),
            [s[0]], s[1..]);
      assert [s[0]] + s[1..] == s;
    }
  }

  /** One character of a plain stretch. */
  lemma PlainTail(s: string, pending: bool)
    requires s != "" && Plain(s).Valid() && Plain(s).Fits(pending)
    ensures Plain(s[1..]).Valid() && Plain(s[1..]).Fits(s[0] == '/')
    ensures Plain(s[1..]).Slashes(s[0] == '/') == Plain(s).Slashes(pending)
    ensures Next(StateOf(pending), s[0]) == StateOf(s[0] == '/')
    ensures Emit(StateOf(pending), s[0]) + Lag(s[0] == '/') == Lag(pending) + [s[0]]
  {
    var t := s[1..];
    assert forall i | 0 <= i < |t| :: t[i] == s[i + 1];
    assert s[0] != '"' by { assert s[0] in s; }
    assert t != "" ==> t[|t| - 1] == s[|s| - 1] && t[0] == s[1];
  }

  /** Two parts, each of which passes a pending slash on. */
  lemma Shift(written: string, more: string, lag: string, next: string, end: string, kept: string, rest: string)
    requires written + next == lag + kept && more + end == next + rest
    ensures (written + more) + end == lag + (kept + rest)
  {
    assert (written + more) + end == written + (more + end);
    assert written + (next + rest) == (written + next) + rest;
  }

  lemma {:induction false} StringBodyRead(b: string)
    requires EscapesClosed(b)
    ensures After(InString, b) == InString && Written(InString, b) == b
  {
    if b != "" && b[0] == '\\' {
      StringBodyRead(b[2..]);
      ReadTwo(InString, '\\', b[1]);
      assert b == ['\\', b[1]] + b[2..];
      ReadBoth(InString, ['\\', b[1]], b[2..]);
      assert Written(InString, ['\\', b[1]]) == ['\\', b[1]];
      assert After(InString, ['\\', b[1]]) == InString;
    } else if b != "" {
      StringBodyRead(b[1..]);
      assert b == [b[0]] + b[1..];
    }
  }

  lemma {:induction false} LineBodyRead(b: string)
    requires '\n' !in b
    ensures After(LineComment, b) == LineComment && Written(LineComment, b) == ""
  {
    if b != "" { LineBodyRead(b[1..]); }
  }

  lemma {:induction false} BlockBodyRead(state: State, b: string)
    requires state.BlockComment? || (state.BlockCommentStar? && (b == "" || b[0] != '/'))
    requires Block(b).Valid()
    ensures After(state, b).BlockComment? || After(state, b).BlockCommentStar?
    ensures Written(state, b) == ""
    decreases b
  {
    if b != "" {
      assert |b| > 1 ==> b[1..][0] == b[1];
      assert Block(b[1..]).Valid() by { assert forall i | 0 <= i < |b[1..]| :: b[1..][i] == b[i + 1]; }
      BlockBodyRead(Next(state, b[0]), b[1..]);
    }
  }

  lemma ReadTwo(state: State, c: char, d: char)
    ensures After(state, [c]) == Next(state, c) && Written(state, [c]) == Emit(state, c)
    ensures After(state, [c, d]) == Next(Next(state, c), d)
    ensures Written(state, [c, d]) == Emit(state, c) + Emit(Next(state, c), d)
  {
    ReadFirst(state, [c, d]);
    ReadFirst(Next(state, c), [d]);
    ReadFirst(state, [c]);
    assert [c, d][1..] == [d] && [c][1..] == "" && [d][1..] == "";
    assert forall x: State :: After(x, "") == x && Written(x, "") == "";
  }

  lemma StringRead(b: string)
    requires EscapesClosed(b)
    ensures After(Normal, "\"" + b + "\"") == Normal && Written(Normal, "\"" + b + "\"") == "\"" + b + "\""
  {
    hide After, Written;
    ReadTwo(Normal, '"', '"');
    StringBodyRead(b);
    ReadTwo(InString, '"', '"');
    ReadBoth(Normal, "\"", b);
    ReadBoth(Normal, "\"" + b, "\"");
  }

  lemma MissedRead(b: string)
    ensures After(Slash, "\"" + b + "\"") == After(Normal, b + "\"")
    ensures Written(Slash, "\"" + b + "\"") == "/\"" + Written(Normal, b + "\"")
  {
    hide After, Written;
    ReadTwo(Slash, '"', '"');
    ReadBoth(Slash, "\"", b + "\"");
    assert "\"" + b + "\"" == "\"" + (b + "\"");
  }

  lemma BlockRead(b: string)
    requires Block(b).Valid()
    ensures After(Normal, "/*" + b + "*/") == Normal && Written(Normal, "/*" + b + "*/") == ""
  {
    hide After, Written;
    ReadTwo(Normal, '/', '*');
    BlockBodyRead(BlockComment, b);
    ReadTwo(After(BlockComment, b), '*', '/');
    ReadBoth(Normal, "/*", b);
    ReadBoth(Normal, "/*" + b, "*/");
  }

  lemma LineRead(b: string)
    requires '\n' !in b
    ensures After(Normal, "//" + b + "\n") == Normal && Written(Normal, "//" + b + "\n") == "\n"
  {
    hide After, Written;
    ReadTwo(Normal, '/', '/');
    LineBodyRead(b);
    ReadTwo(LineComment, '\n', '\n');
    ReadBoth(Normal, "//", b);
    ReadBoth(Normal, "//" + b, "\n");
  }

  /** What one piece does to the machine. */
  lemma PieceRead(pending: bool, piece: Piece)
    requires piece.Valid() && piece.Fits(pending)
    requires pending && piece.StringLiteral? ==> Harmless(piece.body)
    ensures After(StateOf(pending), piece.Text()) == StateOf(piece.Slashes(pending))
    ensures Written(StateOf(pending), piece.Text()) + Lag(piece.Slashes(pending)) == Lag(pending) + piece.Kept()
  {
    hide After, Written, EscapesClosed, Splits;
    match piece
    case Plain(s) => PlainRead(pending, s);
    case StringLiteral(b) =>
      if pending {
        MissedRead(b);
        SplitsIsCopied(b + "\"");
        assert "/\"" + (b + "\"") == "/" + ("\"" + b + "\"");
      } else {
        StringRead(b);
      }
    case Block(b) => BlockRead(b);
    case Line(b) => LineRead(b);
  }

  lemma {:induction false} PiecesRead(pending: bool, pieces: seq<Piece>)
    requires Reads(pending, pieces) && AllHarmless(pending, pieces)
    ensures After(StateOf(pending), AllText(pieces)) == StateOf(Pending(pending, pieces))
    ensures Written(StateOf(pending), AllText(pieces)) + Lag(Pending(pending, pieces)) == Lag(pending) + AllKept(pieces)
    decreases |pieces|
  {
    if pieces == [] {
      assert "" + Lag(pending) == Lag(pending) + "";
    } else {
      FirstPiece(pending, pieces);
      var piece, next := pieces[0], pieces[0].Slashes(pending);
      hide *;
      PieceRead(pending, piece);
      PiecesRead(next, pieces[1..]);
      ReadBoth(StateOf(pending), piece.Text(), AllText(pieces[1..]));
      Shift(Written(StateOf(pending), piece.Text()), Written(StateOf(next), AllText(pieces[1..])),
            Lag(pending), Lag(next), Lag(Pending(next, pieces[1..])), piece.Kept(), AllKept(pieces[1..]));
    }
  }

  lemma FirstPiece(pending: bool, pieces: seq<Piece>)
    requires Reads(pending, pieces) && AllHarmless(pending, pieces) && pieces != []
    ensures
      var piece, next := pieces[0], pieces[0].Slashes(pending);
      && piece.Valid() && piece.Fits(pending) && (pending && piece.StringLiteral? ==> Harmless(piece.body))
      && Reads(next, pieces[1..]) && AllHarmless(next, pieces[1..])
      && AllText(pieces) == piece.Text() + AllText(pieces[1..])
      && AllKept(pieces) == piece.Kept() + AllKept(pieces[1..])
      && Pending(pending, pieces) == Pending(next, pieces[1..])
  {
  }

  lemma StripIsWritten(input: string)
    ensures Strip(input) == Written(Normal, input) + Lag(After(Normal, input) == Slash)
  {
    ReadPart(Normal, input, "");
    assert input + "" == input;
  }

  /** A text without a harmful literal loses exactly its comments. */
  lemma ExactlyTheCommentsGo(pieces: seq<Piece>)
    requires Reads(false, pieces) && AllHarmless(false, pieces)
    ensures Strip(AllText(pieces)) == AllKept(pieces)
  {
    PiecesRead(false, pieces);
    StripIsWritten(AllText(pieces));
    assert "" + AllKept(pieces) == AllKept(pieces);
  }

  lemma AllStripped(pieces: seq<Piece>)
    requires Reads(false, pieces) && AllHarmless(false, pieces)
    ensures Stripped(pieces)
  {
    ExactlyTheCommentsGo(pieces);
  }

  // ---------------------------------------------------------------- literals behind a slash

  /** The literal behind the slash is read as a comment, and lost. */
  lemma SlashLosesLiteral()
    ensures Strip("/\"//\"") == "/\""
    ensures Reads(false, [Plain("/"), StringLiteral("//")]) && AllText([Plain("/"), StringLiteral("//")]) == "/\"//\""
  {
    SlashRead();
    var pieces := [Plain("/"), StringLiteral("//")];
    assert pieces[1..] == [StringLiteral("//")] && pieces[1..][1..] == [];
    assert AllText(pieces[1..]) == "\"" + "//" + "\"" + "";
  }

  lemma SlashRead()
    ensures Strip("/\"//\"") == "/\""
  {
    ReadTwo(Normal, '/', '"');
    ReadTwo(Normal, '/', '/');
    ReadTwo(LineComment, '"', '"');
    hide After, Written;
    ReadBoth(Normal, "/\"", "//");
    ReadBoth(Normal, "/\"//", "\"");
    StripIsWritten("/\"//\"");
  }

  /** A quote in the body puts the machine back in step. */
  lemma EscapedQuoteIsHarmless()
    ensures EscapesClosed("\\\"") && Harmless("\\\"")
  {
    assert EscapesClosed("\\\""[2..]);
    var text := "\\\"" + "\"";
    assert text[1..] == "\"\"" && text[1..][1..] == "\"";
    assert Splits(text[1..]) by { assert text[1..][2..] == ""; }
  }

  /** Without one, the body must end in a slash: then that slash hides the closing quote as well. */
  lemma QuotelessIsHarmful(b: string)
    requires '"' !in b && (b == "" || b[|b| - 1] != '/')
    ensures !Harmless(b)
  {
    NeverInString(Normal, b);
    SplitsIsCopied(b + "\"");
    ReadTwo(After(Normal, b), '"', '"');
    hide After, Written;
    ReadBoth(Normal, b, "\"");
  }

  lemma {:induction false} NeverInString(state: State, b: string)
    requires '"' !in b && !state.InString? && !state.InStringEscape?
    ensures !After(state, b).InString? && !After(state, b).InStringEscape?
    ensures After(state, b) == Slash ==> (if b == "" then state == Slash else b[|b| - 1] == '/')
    decreases b
  {
    if b != "" {
      assert b[0] in b && forall c | c in b[1..] :: c in b;
      NeverInString(Next(state, b[0]), b[1..]);
    }
  }

  lemma AfterQuote(s: string)
    ensures
      var state := After(Normal, s + "\"");
      state.Normal? || state.InString? || state.LineComment? || state.BlockComment?
  {
    ReadTwo(After(Normal, s), '"', '"');
    hide After;
    ReadBoth(Normal, s, "\"");
  }

  /** What follows a literal that is not harmless, to show the harm. */
  function Witness(b: string): seq<Piece> {
    match After(Normal, b + "\"")
    case InString => [Block("")]
    case Normal => []
    case _ => [Plain("x")]
  }

  lemma WitnessIsFine(b: string)
    ensures Reads(false, Witness(b)) && AllHarmless(false, Witness(b))
  {
    hide After;
    assert Witness(b) != [] ==> Witness(b)[1..] == [];
  }

  /** Where the machine should be when the literal has ended, and where it is. */
  lemma WitnessShows(b: string)
    requires !Harmless(b)
    ensures
      var w, state := Written(Normal, b + "\""), After(Normal, b + "\"");
      w + Rest(state, AllText(Witness(b))) != b + "\"" + AllKept(Witness(b))
  {
    var w, state := Written(Normal, b + "\""), After(Normal, b + "\"");
    AfterQuote(b);
    SplitsIsCopied(b + "\"");
    WritesNoMore(Normal, b + "\"");
    hide After, Written, Splits;
    if state.Normal? {
      assert w + "" == w && b + "\"" + "" == b + "\"";
    } else if state.InString? {
      assert Block("").Text() == "/**/";
      assert [Block("")][1..] == [];
      assert AllText([Block("")]) == "/**/" + "" == "/**/" && AllKept([Block("")]) == "" + "" == "";
      ReadBlock();
      var read, meant := w + "/**/", b + "\"" + "";
      assert read[|read| - 1] == '/' && meant[|meant| - 1] == '"';
    } else {
      assert [Plain("x")][1..] == [];
      assert AllText([Plain("x")]) == "x" + "" == "x" && AllKept([Plain("x")]) == "x" + "" == "x";
      ReadOne(state, 'x', "");
      assert ['x'] + "" == "x";
      assert Rest(state, "x") == "";
      assert |w + ""| < |b + "\"" + "x"|;
    }
  }

  lemma ReadBlock()
    ensures Rest(InString, "/**/") == "/**/"
  {
    StringBodyRead("/**/") by {
      assert EscapesClosed("/") && "*/"[1..] == "/" && EscapesClosed("*/");
      assert "**/"[1..] == "*/" && EscapesClosed("**/") && "/**/"[1..] == "**/";
    }
    ReadPart(InString, "/**/", "");
    hide After, Written;
    assert "/**/" + "" == "/**/";
  }

  lemma {:induction false} TextBoth(a: seq<Piece>, b: seq<Piece>)
    ensures AllText(a + b) == AllText(a) + AllText(b) && AllKept(a + b) == AllKept(a) + AllKept(b)
  {
    if a == [] {
      TextNone(a, b);
    } else {
      hide *;
      HeadAndTail(a, b);
      TextFirst(a);
      TextFirst(a + b);
      TextBoth(a[1..], b);
      Grouped(a[0].Text(), AllText(a[1..]), AllText(b));
      Grouped(a[0].Kept(), AllKept(a[1..]), AllKept(b));
    }
  }

  lemma TextNone(a: seq<Piece>, b: seq<Piece>)
    requires a == []
    ensures AllText(a + b) == AllText(a) + AllText(b) && AllKept(a + b) == AllKept(a) + AllKept(b)
  {
    assert a + b == b;
    var text, kept := AllText(b), AllKept(b);
    assert "" + text == text && "" + kept == kept;
  }

  lemma TextFirst(pieces: seq<Piece>)
    requires pieces != []
    ensures AllText(pieces) == pieces[0].Text() + AllText(pieces[1..])
    ensures AllKept(pieces) == pieces[0].Kept() + AllKept(pieces[1..])
  {
  }

  lemma {:induction false} PiecesBoth(pending: bool, a: seq<Piece>, b: seq<Piece>)
    ensures Reads(pending, a + b) <==> Reads(pending, a) && Reads(Pending(pending, a), b)
    ensures AllHarmless(pending, a + b) <==> AllHarmless(pending, a) && AllHarmless(Pending(pending, a), b)
    decreases |a|
  {
    if a == [] {
      assert a + b == b;
    } else {
      assert (a + b)[1..] == a[1..] + b;
      PiecesBoth(a[0].Slashes(pending), a[1..], b);
    }
  }

  /** A harmful literal behind a slash makes some continuation go wrong. */
  lemma HarmShows(pieces: seq<Piece>, b: string)
    requires Reads(false, pieces) && AllHarmless(false, pieces) && Pending(false, pieces) && !Harmless(b)
    ensures !Stripped(pieces + [StringLiteral(b)] + Witness(b))
  {
    var all, p := pieces + [StringLiteral(b)] + Witness(b), Written(Normal, AllText(pieces));
    PiecesRead(false, pieces);
    MissedRead(b);
    TextBoth(pieces + [StringLiteral(b)], Witness(b));
    TextBoth(pieces, [StringLiteral(b)]);
    assert [StringLiteral(b)][1..] == [];
    assert AllText([StringLiteral(b)]) == "\"" + b + "\"" + "" && AllKept([StringLiteral(b)]) == "\"" + b + "\"" + "";
    hide After, Written, Rest, AllText, AllKept, Witness, Reads, AllHarmless, Pending, Harmless;
    var literal, rest := "\"" + b + "\"", AllText(Witness(b));
    assert AllText([StringLiteral(b)]) == literal && AllKept([StringLiteral(b)]) == literal;
    StripThree(AllText(pieces), literal, rest);
    WitnessShows(b);
    var w, read := Written(Normal, b + "\""), Rest(After(Normal, b + "\""), rest);
    NotSame(p, w, read, b, AllKept(Witness(b)));
    assert p + "/" == "" + AllKept(pieces) == AllKept(pieces);
  }

  lemma StripThree(a: string, b: string, c: string)
    ensures
      var state := After(Normal, a);
      Strip(a + b + c) == Written(Normal, a) + Written(state, b) + Rest(After(state, b), c)
  {
    hide After, Written, Rest;
    ReadBoth(Normal, a, b);
    ReadPart(Normal, a + b, c);
  }

  lemma NotSame(p: string, w: string, read: string, b: string, kept: string)
    requires w + read != b + "\"" + kept
    ensures p + ("/\"" + w) + read != p + "/" + ("\"" + b + "\"") + kept
  {
    var q := p + "/\"";
    assert p + ("/\"" + w) + read == q + (w + read);
    assert p + "/" + ("\"" + b + "\"") + kept == q + (b + "\"" + kept);
    assert (q + (w + read))[|q|..] == w + read && (q + (b + "\"" + kept))[|q|..] == b + "\"" + kept;
  }

  /** However the text goes on after any of its pieces, with no harmful literal from there on, the comments go and the
      rest stays. */
  ghost predicate Robust(pieces: seq<Piece>) {
    forall n: nat, more: seq<Piece> |
      n <= |pieces| && Reads(false, pieces[..n] + more) && AllHarmless(Pending(false, pieces[..n]), more) ::
      Stripped(pieces[..n] + more)
  }

  /** The first harmful literal. */
  lemma {:induction false} FirstHarm(pending: bool, pieces: seq<Piece>) returns (n: nat)
    requires !AllHarmless(pending, pieces)
    ensures n < |pieces| && AllHarmless(pending, pieces[..n]) && Pending(pending, pieces[..n])
    ensures pieces[n].StringLiteral? && !Harmless(pieces[n].body)
    decreases |pieces|
  {
    if pending && pieces[0].StringLiteral? && !Harmless(pieces[0].body) {
      n := 0;
    } else {
      n := FirstHarm(pieces[0].Slashes(pending), pieces[1..]);
      assert pieces[..n + 1][1..] == pieces[1..][..n];
      n := n + 1;
    }
  }

  /** The condition is exact: all continuations are stripped right if and only if every literal directly behind a slash
      is harmless. */
  lemma StripsExactly(pieces: seq<Piece>)
    requires Reads(false, pieces)
    ensures Robust(pieces) <==> AllHarmless(false, pieces)
  {
    hide Reads, AllHarmless, Pending, Stripped;
    if AllHarmless(false, pieces) {
      forall n: nat, more: seq<Piece> |
        n <= |pieces| && Reads(false, pieces[..n] + more) && AllHarmless(Pending(false, pieces[..n]), more)
        ensures Stripped(pieces[..n] + more)
      {
        assert pieces == pieces[..n] + pieces[n..];
        PiecesBoth(false, pieces[..n], pieces[n..]);
        PiecesBoth(false, pieces[..n], more);
        AllStripped(pieces[..n] + more);
      }
    } else {
      HarmIsNotRobust(pieces);
    }
  }

  lemma HarmIsNotRobust(pieces: seq<Piece>)
    requires Reads(false, pieces) && !AllHarmless(false, pieces)
    ensures !Robust(pieces)
  {
    var n := FirstHarm(false, pieces);
    var a, b := pieces[..n], pieces[n].body;
    SplitAt(pieces, n);
    hide Reads, AllHarmless, Pending, Stripped, Harmless, Witness;
    PiecesBoth(false, a, pieces[n..]);
    PiecesBoth(false, pieces[..n + 1], pieces[n + 1..]);
    PiecesBoth(false, pieces[..n + 1], Witness(b));
    EndsPlainly(false, a, b);
    WitnessIsFine(b);
    HarmShows(a, b);
  }

  lemma SplitAt<T>(s: seq<T>, n: nat)
    requires n < |s|
    ensures s == s[..n] + s[n..] == s[..n + 1] + s[n + 1..] && s[..n + 1] == s[..n] + [s[n]]
  {
  }

  lemma {:induction false} EndsPlainly(pending: bool, pieces: seq<Piece>, b: string)
    ensures !Pending(pending, pieces + [StringLiteral(b)])
    decreases |pieces|
  {
    if pieces == [] {
      assert pieces + [StringLiteral(b)] == [StringLiteral(b)] && [StringLiteral(b)][1..] == [];
    } else {
      assert (pieces + [StringLiteral(b)])[1..] == pieces[1..] + [StringLiteral(b)];
      EndsPlainly(pieces[0].Slashes(pending), pieces[1..], b);
    }
  }
}
