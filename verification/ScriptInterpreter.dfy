/** What running an automation script reads: the interpreter works on the text. It blanks comments, cuts out if blocks,
    searches for assignments and setTag calls wherever they stand, and parses the expressions it finds there.

    Texts are processed in place: `t` is the text up to where a part ends, and a position says where the part begins.
    What the outside decides (values, failures, which branch is taken) is a `World`.
 */
module ScriptInterpreter {
  import opened AutomationDependencies

  datatype Option<+T> = None | Some(value: T)

  predicate IsQuote(c: char) { c == '\'' || c == '"' }

  predicate StartsName(c: char) { IsAlpha(c) || c == '_' }

  predicate IsNameChar(c: char) { StartsName(c) || IsDigit(c) }

  function SkipSpace(t: string, i: nat): (j: nat)
    ensures i <= j && (i <= |t| ==> j <= |t|)
    decreases |t| - i
  {
    if i < |t| && IsSpace(t[i]) then SkipSpace(t, i + 1) else i
  }

  function NameEnd(t: string, i: nat): (e: nat)
    ensures i <= e && (i <= |t| ==> e <= |t|)
    decreases |t| - i
  {
    if i < |t| && IsNameChar(t[i]) then NameEnd(t, i + 1) else i
  }

  predicate CharAt(t: string, i: nat, c: char) { i < |t| && t[i] == c }

  // ---------------------------------------------------------------- strip_logic_comments

  /** Where a character stands. */
  datatype Place = Code | Inside(quote: char) | Escape(quote: char) | LineComment | BlockComment

  /** Behind one character that opens or closes no comment. */
  function Behind(place: Place, c: char): Place {
    match place
    case Code => if IsQuote(c) || c == '`' then Inside(c) else Code
    case Inside(q) => if c == '\\' then Escape(q) else if c == q then Code else place
    case Escape(q) => Inside(q)
    case LineComment => if c == '\n' then Code else place
    case BlockComment => place
  }

  /** The text from position i on with comments blanked, line ends aside. */
  function StripFrom(s: string, i: nat, place: Place): string
    requires i <= |s|
    decreases |s| - i
  {
    if i == |s| then ""
    else if place.Code? && OpensComment(s, i, '/') then "  " + StripFrom(s, i + 2, LineComment)
    else if place.Code? && OpensComment(s, i, '*') then "  " + StripFrom(s, i + 2, BlockComment)
    else if place.BlockComment? && s[i] == '*' && CharAt(s, i + 1, '/') then "  " + StripFrom(s, i + 2, Code)
    else
      [if (place.LineComment? || place.BlockComment?) && s[i] != '\n' then ' ' else s[i]]
      + StripFrom(s, i + 1, Behind(place, s[i]))
  }

  function Strip(source: string): string { StripFrom(source, 0, Code) }

  /** The source's loop, which blanks a copy in place. */
  method StripLogicComments(source: string) returns (out: string)
    ensures out == Strip(source)
  {
    out := "";
    var place: Place := Code;
    var i := 0;
    while i < |source|
      invariant i <= |source| && out + StripFrom(source, i, place) == Strip(source)
    {
      hide *;
      StripOne(source, i, place, out);
      if place.Code? && OpensComment(source, i, '/') {
        out, place, i := out + "  ", LineComment, i + 2;
      } else if place.Code? && OpensComment(source, i, '*') {
        out, place, i := out + "  ", BlockComment, i + 2;
      } else if place.BlockComment? && source[i] == '*' && CharAt(source, i + 1, '/') {
        out, place, i := out + "  ", Code, i + 2;
      } else {
        var blank := (place.LineComment? || place.BlockComment?) && source[i] != '\n';
        out, place, i := out + [if blank then ' ' else source[i]], Behind(place, source[i]), i + 1;
      }
    }
    assert out + "" == out;
  }

  lemma StripOne(s: string, i: nat, place: Place, out: string)
    requires i < |s|
    ensures place.Code? && OpensComment(s, i, '/') ==>
      i + 2 <= |s| && out + StripFrom(s, i, place) == out + "  " + StripFrom(s, i + 2, LineComment)
    ensures place.Code? && OpensComment(s, i, '*') ==>
      i + 2 <= |s| && out + StripFrom(s, i, place) == out + "  " + StripFrom(s, i + 2, BlockComment)
    ensures place.BlockComment? && s[i] == '*' && CharAt(s, i + 1, '/') ==>
      i + 2 <= |s| && out + StripFrom(s, i, place) == out + "  " + StripFrom(s, i + 2, Code)
    ensures
      || (place.Code? && (OpensComment(s, i, '/') || OpensComment(s, i, '*')))
      || (place.BlockComment? && s[i] == '*' && CharAt(s, i + 1, '/'))
      || out + StripFrom(s, i, place)
           == out + [if (place.LineComment? || place.BlockComment?) && s[i] != '\n' then ' ' else s[i]]
              + StripFrom(s, i + 1, Behind(place, s[i]))
  {
    var rest := StripFrom(s, i, place);
    assert forall a: string, b: string | rest == a + b :: out + rest == out + a + b;
  }

  // ---------------------------------------------------------------- the outside

  /** What happens while some expressions are evaluated, by position: whether the step ending there fails, what text the
      value has if it is a string, where a number ends, and whether a setTag call's target is accepted. */
  datatype Luck = Luck(fails: nat -> bool, text: nat -> Option<string>, number: nat -> nat, accepts: nat -> bool)

  datatype Branch = Neither | Then | Otherwise

  /** The luck of each stage of a run, the branch each if block takes, and the stages after which the run is over. */
  datatype World = World(luck: nat -> Luck, branch: nat -> Branch, stops: nat -> bool)

  // ---------------------------------------------------------------- LogicExpressionParser

  /** What parsing made: whether it went on, to where, the text if the value is a string, and what was read. */
  datatype Parsed = Parsed(ok: bool, next: nat, text: Option<string>, tagReads: set<TagKey>)

  datatype ParsedArgs = ParsedArgs(ok: bool, next: nat, texts: seq<Option<string>>, tagReads: set<TagKey>)

  /** The length of the operator at i; the precedence climbing takes them in this order. */
  function OperatorLength(t: string, i: nat): (n: nat)
    ensures n > 0 ==> i + n <= |t|
  {
    if i >= |t| then 0
    else if t[i] in "*/%+-" then 1
    else if t[i] == '<' || t[i] == '>' then (if CharAt(t, i + 1, '=') then 2 else 1)
    else if (t[i] == '=' || t[i] == '!') && CharAt(t, i + 1, '=') then 2
    else if (t[i] == '&' || t[i] == '|') && CharAt(t, i + 1, t[i]) then 2
    else 0
  }

  function Unescaped(c: char): char {
    match c case 'n' => '\n' case 'r' => '\r' case 't' => '\t' case _ => c
  }

  /** A string literal from behind its opening quote; nothing if it does not end. */
  function LiteralFrom(t: string, i: nat, quote: char, value: string): (r: Option<(nat, string)>)
    ensures r.Some? ==> i < r.value.0 <= |t|
    decreases |t| - i
  {
    if i >= |t| then None
    else if t[i] == '\\' then
      if i + 1 >= |t| then None else LiteralFrom(t, i + 2, quote, value + [Unescaped(t[i + 1])])
    else if t[i] == quote then Some((i + 1, value))
    else LiteralFrom(t, i + 1, quote, value + [t[i]])
  }

  predicate NumberLike(c: char) { IsNameChar(c) || IsSpace(c) || c == '.' || c == '+' || c == '-' }

  /** Where the C library's number scanner stops: somewhere in the run of characters a number can hold. */
  function NumberStop(t: string, i: nat, wanted: nat): (e: nat)
    requires i <= |t|
    ensures i <= e <= |t|
    decreases |t| - i
  {
    if i < |t| && i < wanted && NumberLike(t[i]) then NumberStop(t, i + 1, wanted) else i
  }

  function Failed(next: nat, tagReads: set<TagKey>): Parsed { Parsed(false, next, None, tagReads) }

  /** Operands and operators from left to right. Precedence decides values, not what is read. */
  function Expression(t: string, i: nat, luck: Luck): (r: Parsed)
    ensures r.ok ==> i < r.next <= |t|
    decreases |t| - i, 4
  {
    var first := Operand(t, i, luck);
    if first.ok then More(t, first, luck) else first
  }

  function More(t: string, left: Parsed, luck: Luck): (r: Parsed)
    requires left.ok && left.next <= |t|
    ensures r.ok ==> left.next <= r.next <= |t|
    decreases |t| - left.next, 3
  {
    var j := SkipSpace(t, left.next);
    var n := OperatorLength(t, j);
    if n == 0 then left
    else
      var right := Operand(t, j + n, luck);
      var all := left.tagReads + right.tagReads;
      if !right.ok || luck.fails(right.next) then Failed(right.next, all)
      else More(t, Parsed(true, right.next, luck.text(right.next), all), luck)
  }

  /** Signs, then a primary expression. */
  function Operand(t: string, i: nat, luck: Luck): (r: Parsed)
    ensures r.ok ==> i < r.next <= |t|
    decreases |t| - i, 2
  {
    var j := SkipSpace(t, i);
    if CharAt(t, j, '!') || CharAt(t, j, '-') then
      var inner := Operand(t, j + 1, luck);
      if !inner.ok || luck.fails(j) then Failed(inner.next, inner.tagReads) else inner.(text := luck.text(j))
    else Primary(t, j, luck)
  }

  function Primary(t: string, i: nat, luck: Luck): (r: Parsed)
    ensures r.ok ==> i < r.next <= |t|
    decreases |t| - i, 1
  {
    if i >= |t| then Failed(i, {})
    else if t[i] == '(' then
      var inner := Expression(t, i + 1, luck);
      if !inner.ok then inner
      else
        var j := SkipSpace(t, inner.next);
        if CharAt(t, j, ')') then inner.(next := j + 1) else Failed(j, inner.tagReads)
    else if IsQuote(t[i]) then
      var literal := LiteralFrom(t, i + 1, t[i], "");
      if literal.None? then Failed(|t|, {}) else Parsed(true, literal.value.0, Some(literal.value.1), {})
    else if IsDigit(t[i]) || t[i] == '.' then
      if luck.fails(i) then Failed(i, {}) else Parsed(true, NumberStop(t, i + 1, luck.number(i)), None, {})
    else if StartsName(t[i]) then
      var e := NameEnd(t, i + 1);
      var o := SkipSpace(t, e);
      if CharAt(t, o, '(') then Called(t[i..e], Arguments(t, o + 1, luck), i, luck)
      else if luck.fails(i) then Failed(e, {})
      else Parsed(true, e, luck.text(i), {})
    else Failed(i, {})
  }

  /** From behind the opening parenthesis. */
  function Arguments(t: string, i: nat, luck: Luck): (r: ParsedArgs)
    ensures r.ok ==> i < r.next <= |t|
    decreases |t| - i, 6
  {
    var j := SkipSpace(t, i);
    if CharAt(t, j, ')') then ParsedArgs(true, j + 1, [], {}) else SomeArguments(t, i, luck)
  }

  function SomeArguments(t: string, i: nat, luck: Luck): (r: ParsedArgs)
    ensures r.ok ==> i < r.next <= |t|
    decreases |t| - i, 5
  {
    var first := Expression(t, i, luck);
    if !first.ok then ParsedArgs(false, first.next, [], first.tagReads)
    else
      var j := SkipSpace(t, first.next);
      if CharAt(t, j, ')') then ParsedArgs(true, j + 1, [first.text], first.tagReads)
      else if CharAt(t, j, ',') then
        var rest := SomeArguments(t, j + 1, luck);
        rest.(texts := [first.text] + rest.texts, tagReads := first.tagReads + rest.tagReads)
      else ParsedArgs(false, j, [], first.tagReads)
  }

  predicate ReadsValue(name: string) { name == "tag" || name == "quality" }

  /** evaluate_function: tag and quality want two strings and look up a value; no other function does. */
  function Called(name: string, args: ParsedArgs, i: nat, luck: Luck): (r: Parsed)
    ensures r.ok ==> args.ok && r.next == args.next
  {
    if !args.ok then Failed(args.next, args.tagReads)
    else
      var found := if ReadsValue(Lower(name)) then KeyOf(args.texts) else {};
      if luck.fails(i) then Failed(args.next, args.tagReads + found)
      else Parsed(true, args.next, luck.text(i), args.tagReads + found)
  }

  /** The tag two string arguments name. System values are no tags of a driver. */
  function KeyOf(texts: seq<Option<string>>): set<TagKey> {
    if |texts| == 2 && texts[0].Some? && texts[1].Some? && texts[0].value != "_system"
    then {(texts[0].value, texts[1].value)} else {}
  }

  // ---------------------------------------------------------------- evaluate_logic_helper_call

  datatype Match = Match(name: string, key: TagKey, next: nat)

  /** The end of a run without quotes. */
  function RunEnd(t: string, i: nat): (e: nat)
    requires i <= |t|
    ensures i <= e <= |t|
    decreases |t| - i
  {
    if i < |t| && !IsQuote(t[i]) then RunEnd(t, i + 1) else i
  }

  /** A quoted, non-empty text without any quotes in it, behind white space. */
  function QuotedAt(t: string, i: nat): (r: Option<(nat, string)>)
    requires i <= |t|
    ensures r.Some? ==> i < r.value.0 <= |t|
  {
    var q := SkipSpace(t, i);
    if q < |t| && IsQuote(t[q]) then
      var e := RunEnd(t, q + 1);
      if e > q + 1 && CharAt(t, e, t[q]) then Some((e + 1, t[q + 1..e])) else None
    else None
  }

  /** The pattern of a literal call: tag, quality or hasTag on two quoted texts. */
  function CallAt(t: string, i: nat): (r: Option<Match>)
    requires i <= |t|
  {
    var e := NameEnd(t, i);
    var name := t[i..e];
    var o := SkipSpace(t, e);
    if (name == "tag" || name == "quality" || name == "hasTag") && CharAt(t, o, '(') then
      var first := QuotedAt(t, o + 1);
      if first.None? then None
      else
        var m := SkipSpace(t, first.value.0);
        if !CharAt(t, m, ',') then None
        else
          var second := QuotedAt(t, m + 1);
          if second.None? then None
          else
            var c := SkipSpace(t, second.value.0);
            if CharAt(t, c, ')') then Some(Match(name, (first.value.1, second.value.1), c + 1)) else None
    else None
  }

  function KeyRead(m: Match): set<TagKey> {
    if m.name != "hasTag" && m.key.0 != "_system" then {m.key} else {}
  }

  /** validate_logic_read_references: wherever the pattern stands, the tag is looked up for the preview. */
  function References(t: string): set<TagKey> {
    set i, key |
      && 0 <= i < |t| && (i == 0 || !IsNameChar(t[i - 1]))
      && CallAt(t, i).Some? && key in KeyRead(CallAt(t, i).value) :: key
  }

  // ---------------------------------------------------------------- the value of one part

  function TrimEnd(t: string, i: nat, j: nat): (e: nat)
    requires i <= j <= |t|
    ensures i <= e <= j
    decreases j
  {
    if i < j && IsSpace(t[j - 1]) then TrimEnd(t, i, j - 1) else j
  }

  /** The part t[i..j], trimmed: a literal call, a quoted text or an expression. Assignments try the pattern first. */
  function PartReads(t: string, i: nat, j: nat, forName: bool, luck: Luck): set<TagKey>
    requires i <= j <= |t|
  {
    var e := TrimEnd(t, i, j);
    var u, b := t[..e], SkipSpace(t[..e], i);
    if b >= e || (forName && u[b] == '=') then {}
    else if forName && CallAt(u, b).Some? && SkipSpace(u, CallAt(u, b).value.next) == e then KeyRead(CallAt(u, b).value)
    else if IsQuote(u[b]) && u[b] == u[e - 1] then {}
    else Expression(u, b, luck).tagReads
  }

  // ---------------------------------------------------------------- evaluate_logic_variables

  /** A name ends at k: name characters back to a letter or an underscore. */
  predicate NameBefore(t: string, from: nat, k: nat)
    requires k <= |t|
    decreases k
  {
    from < k && IsNameChar(t[k - 1]) && (StartsName(t[k - 1]) || NameBefore(t, from, k - 1))
  }

  function Find(t: string, i: nat, c: char): (j: nat)
    requires i <= |t|
    ensures i <= j <= |t| && (j < |t| ==> t[j] == c)
    decreases |t| - i
  {
    if i < |t| && t[i] != c then Find(t, i + 1, c) else i
  }

  /** The assignment pattern matches with its '=' at e: a name before it, and something before the next semicolon. */
  predicate AssignsAt(t: string, from: nat, e: nat)
    requires from <= e < |t|
  {
    t[e] == '=' && NameBefore(t, from, TrimEnd(t, from, e)) && e + 1 < Find(t, e + 1, ';') < |t|
  }

  /** The reads of all assignments from e on, the previous match ending at `from`. */
  function AssignmentReads(t: string, from: nat, e: nat, luck: Luck): set<TagKey>
    requires from <= e <= |t|
    decreases |t| - e
  {
    if e == |t| then {}
    else if AssignsAt(t, from, e) then
      var q := Find(t, e + 1, ';');
      PartReads(t, e + 1, q, true, luck) + AssignmentReads(t, q + 1, q + 1, luck)
    else AssignmentReads(t, from, e + 1, luck)
  }

  // ---------------------------------------------------------------- logic_collect_settag_calls

  /** logic_keyword_at, in a text that begins at `from`. */
  predicate KeywordAt(t: string, from: nat, i: nat, word: string) {
    && from <= i && i + |word| <= |t| && t[i..i + |word|] == word
    && (i == from || !IsNameChar(t[i - 1])) && (i + |word| < |t| ==> !IsNameChar(t[i + |word|]))
  }

  /** logic_find_matching_paren: quotes are skipped, comments and templates are not known. */
  function MatchingParen(t: string, i: nat, depth: int, place: Place): (r: Option<nat>)
    ensures r.Some? ==> i <= r.value < |t|
    decreases |t| - i
  {
    if i >= |t| then None
    else
      var c := t[i];
      var place' := if c == '`' && place.Code? then Code else Behind(place, c);
      if !place.Code? then MatchingParen(t, i + 1, depth, place')
      else if c == '(' then MatchingParen(t, i + 1, depth + 1, place')
      else if c == ')' then (if depth == 1 then Some(i) else MatchingParen(t, i + 1, depth - 1, place'))
      else MatchingParen(t, i + 1, depth, place')
  }

  datatype Part = Part(start: nat, end: nat)

  /** logic_split_args on t[start..]: the parts between top-level commas. */
  function SplitArgs(t: string, start: nat, i: nat, depth: nat, place: Place): (r: Option<seq<Part>>)
    requires start <= i <= |t|
    ensures r.Some? ==> forall p | p in r.value :: start <= p.start <= p.end <= |t|
    decreases |t| - i
  {
    if i == |t| then (if place.Code? && depth == 0 then Some([Part(start, i)]) else None)
    else
      var c := t[i];
      var place' := if c == '`' && place.Code? then Code else Behind(place, c);
      if !place.Code? then SplitArgs(t, start, i + 1, depth, place')
      else if c == '(' then SplitArgs(t, start, i + 1, depth + 1, place')
      else if c == ')' then (if depth == 0 then None else SplitArgs(t, start, i + 1, depth - 1, place'))
      else if c == ',' && depth == 0 then
        var rest := SplitArgs(t, i + 1, i + 1, 0, Code);
        if rest.None? then None else Some([Part(start, i)] + rest.value)
      else SplitArgs(t, start, i + 1, depth, place')
  }

  const SET_TAG := "setTag"

  /** The value arguments of all setTag calls from i on; nothing if one of them is malformed. */
  function SetTagValues(t: string, from: nat, i: nat): (r: Option<seq<Part>>)
    requires from <= i
    ensures r.Some? ==> forall p | p in r.value :: i < p.start <= p.end <= |t|
    decreases |t| - i
  {
    if i >= |t| then Some([])
    else if !KeywordAt(t, from, i, SET_TAG) || !CharAt(t, SkipSpace(t, i + 6), '(') then SetTagValues(t, from, i + 1)
    else
      var o := SkipSpace(t, i + 6);
      var close := MatchingParen(t, o, 0, Code);
      if close.None? || close.value <= o then None
      else
        var args := SplitArgs(t[..close.value], o + 1, o + 1, 0, Code);
        if args.None? || |args.value| != 3 then None
        else
          var rest := SetTagValues(t, from, close.value + 1);
          if rest.None? then None else Some([args.value[2]] + rest.value)
  }

  function PartsReads(t: string, parts: seq<Part>, luck: Luck): set<TagKey>
    requires forall p | p in parts :: p.start <= p.end <= |t|
  {
    if parts == [] then {}
    else
      (if luck.accepts(parts[0].start) then PartReads(t, parts[0].start, parts[0].end, false, luck) else {})
      + PartsReads(t, parts[1..], luck)
  }

  /** apply_logic_memory_writes: no call is evaluated unless all are well formed. */
  function WriteReads(t: string, from: nat, luck: Luck): set<TagKey>
    requires from <= |t|
  {
    var parts := SetTagValues(t, from, from);
    if parts.None? then {} else PartsReads(t, parts.value, luck)
  }

  // ---------------------------------------------------------------- logic_collect_if_blocks

  /** logic_find_matching_delim: quotes, templates and comments are skipped. */
  function MatchingDelim(t: string, i: nat, open: char, close: char, depth: int, place: Place): (r: Option<nat>)
    ensures r.Some? ==> i <= r.value < |t| && t[r.value] == close
    decreases |t| - i
  {
    if i >= |t| then None
    else if place.Code? && OpensComment(t, i, '/') then MatchingDelim(t, i + 2, open, close, depth, LineComment)
    else if place.Code? && OpensComment(t, i, '*') then MatchingDelim(t, i + 2, open, close, depth, BlockComment)
    else if place.BlockComment? && t[i] == '*' && CharAt(t, i + 1, '/') then
      MatchingDelim(t, i + 2, open, close, depth, Code)
    else
      var place' := Behind(place, t[i]);
      if !place.Code? then MatchingDelim(t, i + 1, open, close, depth, place')
      else if t[i] == open then MatchingDelim(t, i + 1, open, close, depth + 1, place')
      else if t[i] == close then
        (if depth == 1 then Some(i) else MatchingDelim(t, i + 1, open, close, depth - 1, place'))
      else MatchingDelim(t, i + 1, open, close, depth, place')
  }

  datatype Block = Block(start: nat, end: nat, condition: Part, body: Part, otherwise: Option<Part>)

  /** A braced part at or behind white space at i. */
  function BracedAt(t: string, i: nat): (r: Option<Part>)
    ensures r.Some? ==> i < r.value.start <= r.value.end < |t| && t[r.value.start - 1] == '{' && t[r.value.end] == '}'
  {
    var b := SkipSpace(t, i);
    if !CharAt(t, b, '{') then None
    else
      var close := MatchingDelim(t, b, '{', '}', 0, Code);
      if close.None? || close.value <= b then None else Some(Part(b + 1, close.value))
  }

  predicate HasIf(t: string, part: Part) {
    exists i | part.start <= i < part.end && part.end <= |t| :: KeywordAt(t[..part.end], part.start, i, "if")
  }

  /** The block whose keyword is at i; nothing if it is malformed or nested. */
  function BlockAt(t: string, i: nat): (r: Option<Block>)
    requires i + 2 <= |t|
    ensures r.Some? ==> BlockFits(t, i, r.value)
  {
    var o := SkipSpace(t, i + 2);
    var close := MatchingDelim(t, o, '(', ')', 0, Code);
    if !CharAt(t, o, '(') || close.None? || close.value <= o then None
    else
      var body := BracedAt(t, close.value + 1);
      if body.None? || HasIf(t, body.value) then None
      else
        var next := SkipSpace(t, body.value.end + 1);
        var condition := Part(o + 1, close.value);
        if !KeywordAt(t, 0, next, "else") then Some(Block(i, body.value.end + 1, condition, body.value, None))
        else
          var other := BracedAt(t, next + 4);
          if other.None? || HasIf(t, other.value) then None
          else Some(Block(i, other.value.end + 1, condition, body.value, other))
  }

  predicate BlockFits(t: string, i: nat, block: Block) {
    && block.start == i
    && i < block.condition.start <= block.condition.end < block.body.start <= block.body.end < block.end <= |t|
    && t[block.condition.start - 1] == '(' && t[block.body.start - 1] == '{' && t[block.end - 1] == '}'
    && (block.otherwise.Some? ==>
         && i < block.otherwise.value.start <= block.otherwise.value.end < |t|
         && t[block.otherwise.value.start - 1] == '{')
  }

  function IfBlocks(t: string, i: nat): (r: Option<seq<Block>>)
    ensures r.Some? ==> forall b | b in r.value :: i <= b.start && BlockFits(t, b.start, b)
    decreases |t| - i
  {
    if i >= |t| then Some([])
    else if !KeywordAt(t, 0, i, "if") || !CharAt(t, SkipSpace(t, i + 2), '(') then IfBlocks(t, i + 1)
    else
      var block := BlockAt(t, i);
      if block.None? then None
      else
        var rest := IfBlocks(t, block.value.end);
        if rest.None? then None else Some([block.value] + rest.value)
  }

  predicate InBlock(blocks: seq<Block>, k: nat) { exists b | b in blocks :: b.start <= k < b.end }

  /** logic_without_if_blocks. */
  function Blanked(t: string, blocks: seq<Block>): (u: string)
    ensures |u| == |t|
  {
    seq(|t|, k requires 0 <= k < |t| => if InBlock(blocks, k) && t[k] != '\n' then ' ' else t[k])
  }

  // ---------------------------------------------------------------- a run

  /** One text's assignments, then its writes. */
  function TextReads(t: string, from: nat, w: World, stage: nat): set<TagKey>
    requires from <= |t|
  {
    AssignmentReads(t, from, from, w.luck(stage))
    + if w.stops(stage) then {} else WriteReads(t, from, w.luck(stage + 1))
  }

  /** The blocks in order: the condition, then the chosen part. */
  function BlocksReads(t: string, blocks: seq<Block>, w: World, stage: nat): set<TagKey>
    requires forall b | b in blocks :: BlockFits(t, b.start, b)
    decreases |blocks|
  {
    if blocks == [] then {}
    else
      assert blocks[0] in blocks && forall b | b in blocks[1..] :: b in blocks;
      BlockReads(t, blocks[0], w, stage)
      + if w.stops(stage) || w.stops(stage + 1) || w.stops(stage + 2) then {}
        else BlocksReads(t, blocks[1..], w, stage + 3)
  }

  function BlockReads(t: string, b: Block, w: World, stage: nat): set<TagKey>
    requires BlockFits(t, b.start, b)
  {
    ConditionReads(t, b, w.luck(stage)) +
      if w.stops(stage) then {}
      else if w.branch(stage).Then? then TextReads(t[..b.body.end], b.body.start, w, stage + 1)
      else if w.branch(stage).Otherwise? && b.otherwise.Some?
      then TextReads(t[..b.otherwise.value.end], b.otherwise.value.start, w, stage + 1) else {}
  }

  function ConditionReads(t: string, b: Block, luck: Luck): set<TagKey>
    requires b.condition.start <= b.condition.end <= |t|
  {
    var e := TrimEnd(t, b.condition.start, b.condition.end);
    Expression(t[..e], SkipSpace(t[..e], b.condition.start), luck).tagReads
  }

  /** What one run evaluates: the text without its if blocks, then the blocks. */
  function RunReads(t: string, w: World): set<TagKey> {
    var blocks := IfBlocks(t, 0);
    if w.stops(0) || blocks.None? then {}
    else
      TextReads(Blanked(t, blocks.value), 0, w, 1)
      + if w.stops(1) || w.stops(2) then {} else BlocksReads(t, blocks.value, w, 3)
  }

  /** logic_run_validation_cycle, one script: the references are looked up, then the text is evaluated. */
  function ScriptReads(source: string, w: World): set<TagKey> {
    References(Strip(source)) + RunReads(Strip(source), w)
  }

  /** The setup text of a script in two parts, run once: only its assignments count. */
  function SetupReads(source: string, luck: Luck): set<TagKey> {
    AssignmentReads(Strip(source), 0, 0, luck)
  }
}
