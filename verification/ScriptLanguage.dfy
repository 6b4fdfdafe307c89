/** The script language the analysis is made for: literals, names, calls, operators, assignments and if/else, with
    their lexemes, their layouts as text, and the reads written in them.
 */
module ScriptLanguage {
  import opened AutomationDependencies

  datatype Expr =
    | Text(quote: char, raw: string)
    | Number(digits: string)
    | Name(name: string)
    | Call(callee: string, args: seq<Expr>)
    | Infix(left: Expr, op: string, right: Expr)
    | Prefix(sign: string, operand: Expr)
    | Paren(inner: Expr)

  datatype Stmt =
    | Declare(keyword: string, variable: string, value: Expr)
    | Assign(variable: string, value: Expr)
    | Do(expr: Expr)
    | If(cond: Expr, thn: seq<Stmt>, hasElse: bool, els: seq<Stmt>)

  // ---------------------------------------------------------------- well-formed programs

  predicate IsWord(s: string) { s != "" && StartsWord(s[0]) && forall i | 0 <= i < |s| :: IsWordChar(s[i]) }

  predicate IsNumber(s: string) { s != "" && IsDigit(s[0]) && forall i | 0 <= i < |s| :: IsNumberChar(s[i]) }

  predicate IsOperatorChar(c: char) {
    c == '+' || c == '-' || c == '*' || c == '%' || c == '<' || c == '>' || c == '=' || c == '!'
    || c == '&' || c == '|' || c == '^' || c == '?' || c == ':' || c == '~'
  }

  predicate IsOperator(s: string) { s != "" && forall i | 0 <= i < |s| :: IsOperatorChar(s[i]) }

  /** Quotes inside are escaped, and no escape is left open. */
  predicate IsRaw(quote: char, raw: string) {
    if raw == "" then true
    else if raw[0] == '\\' then |raw| >= 2 && IsRaw(quote, raw[2..])
    else raw[0] != quote && IsRaw(quote, raw[1..])
  }

  /** A line end that is not escaped. */
  predicate SpansLines(raw: string) {
    if raw == "" then false
    else if raw[0] == '\\' then |raw| >= 2 && SpansLines(raw[2..])
    else raw[0] == '\n' || raw[0] == '\r' || SpansLines(raw[1..])
  }

  predicate Formed(e: Expr) {
    match e
    case Text(quote, raw) => (quote == '\'' || quote == '"') && IsRaw(quote, raw)
    case Number(digits) => IsNumber(digits)
    case Name(name) => IsWord(name)
    case Call(callee, args) => IsWord(callee) && Lower(callee) != "if" && forall a | a in args :: Formed(a)
    case Infix(left, op, right) => Formed(left) && IsOperator(op) && Formed(right)
    case Prefix(sign, operand) => IsOperator(sign) && Formed(operand)
    case Paren(inner) => Formed(inner)
  }

  predicate StmtFormed(s: Stmt) {
    match s
    case Declare(keyword, variable, value) =>
      (keyword == "let" || keyword == "const" || keyword == "var") && IsWord(variable) && Formed(value)
    case Assign(variable, value) => IsWord(variable) && Formed(value)
    case Do(expr) => Formed(expr)
    case If(cond, thn, hasElse, els) =>
      Formed(cond) && (forall s | s in thn :: StmtFormed(s)) && forall s | s in els :: StmtFormed(s)
  }

  // ---------------------------------------------------------------- lexemes

  datatype Lexeme = Word(text: string) | Literal(quote: char, raw: string) | Symbol(c: char)

  function Symbols(op: string): seq<Lexeme> {
    if op == "" then [] else [Symbol(op[0])] + Symbols(op[1..])
  }

  function Lexemes(e: Expr): seq<Lexeme> {
    match e
    case Text(quote, raw) => [Literal(quote, raw)]
    case Number(digits) => [Word(digits)]
    case Name(name) => [Word(name)]
    case Call(callee, args) => [Word(callee), Symbol('(')] + ArgLexemes(args) + [Symbol(')')]
    case Infix(left, op, right) => Lexemes(left) + Symbols(op) + Lexemes(right)
    case Prefix(sign, operand) => Symbols(sign) + Lexemes(operand)
    case Paren(inner) => [Symbol('(')] + Lexemes(inner) + [Symbol(')')]
  }

  function ArgLexemes(args: seq<Expr>): seq<Lexeme> {
    if args == [] then []
    else if |args| == 1 then Lexemes(args[0])
    else Lexemes(args[0]) + [Symbol(',')] + ArgLexemes(args[1..])
  }

  function StmtLexemes(s: Stmt): seq<Lexeme>
    decreases s, 0
  {
    match s
    case Declare(keyword, variable, value) =>
      [Word(keyword), Word(variable), Symbol('=')] + Lexemes(value) + [Symbol(';')]
    case Assign(variable, value) => [Word(variable), Symbol('=')] + Lexemes(value) + [Symbol(';')]
    case Do(expr) => Lexemes(expr) + [Symbol(';')]
    case If(cond, thn, hasElse, els) =>
      [Word("if"), Symbol('(')] + Lexemes(cond) + [Symbol(')')] + Block(thn)
      + (if hasElse then [Word("else")] + Block(els) else [])
  }

  function Block(body: seq<Stmt>): seq<Lexeme>
    decreases body, 2
  {
    [Symbol('{')] + ProgramLexemes(body) + [Symbol('}')]
  }

  function ProgramLexemes(program: seq<Stmt>): seq<Lexeme>
    decreases program, 1
  {
    if program == [] then [] else StmtLexemes(program[0]) + ProgramLexemes(program[1..])
  }

  // ---------------------------------------------------------------- layouts

  datatype GapPiece = Blank(c: char) | LineComment(text: string) | BlockComment(text: string)
  {
    predicate Valid() {
      match this
      case Blank(c) => IsSpace(c)
      case LineComment(t) => '\n' !in t
      case BlockComment(t) => forall i | 0 <= i < |t| - 1 :: !(t[i] == '*' && t[i + 1] == '/')
    }

    function Print(): string {
      match this
      case Blank(c) => [c]
      case LineComment(t) => "//" + t + "\n"
      case BlockComment(t) => "/*" + t + "*/"
    }
  }

  type Gap = seq<GapPiece>

  function PrintGap(gap: Gap): string {
    if gap == [] then "" else gap[0].Print() + PrintGap(gap[1..])
  }

  function PrintLexeme(x: Lexeme): string {
    match x
    case Word(text) => text
    case Literal(quote, raw) => [quote] + raw + [quote]
    case Symbol(c) => [c]
  }

  /** Gap, lexeme, gap, lexeme, ..., last gap. */
  function Print(lexemes: seq<Lexeme>, gaps: seq<Gap>): string
    requires |gaps| == |lexemes| + 1
  {
    if lexemes == [] then PrintGap(gaps[0])
    else PrintGap(gaps[0]) + (PrintLexeme(lexemes[0]) + Print(lexemes[1..], gaps[1..]))
  }

  /** Valid gaps, and a proper one between two adjacent words. */
  predicate Spaced(lexemes: seq<Lexeme>, gaps: seq<Gap>) {
    && |gaps| == |lexemes| + 1
    && (forall g | g in gaps :: forall piece | piece in g :: piece.Valid())
    && forall i | 0 < i < |lexemes| :: lexemes[i - 1].Word? && lexemes[i].Word? ==> gaps[i] != []
  }

  // ---------------------------------------------------------------- what the analysis should find

  predicate IsQuiet(name: string) { !IsHelper(Lower(name)) && !IsUnsupportedWord(Lower(name)) }

  predicate IsLiteralArg(e: Expr) { e.Text? && '\\' !in e.raw }

  /** Literal connection and tag, exactly two for a read, more for a write. */
  predicate LiteralPair(f: string, args: seq<Expr>) {
    && (if f == "settag" then |args| >= 3 else |args| == 2)
    && IsLiteralArg(args[0]) && IsLiteralArg(args[1])
  }

  /** The calls the analysis understands. */
  predicate Restricted(e: Expr) {
    match e
    case Text(_, _) => true
    case Number(_) => true
    case Name(name) => IsQuiet(name)
    case Call(callee, args) =>
      var f := Lower(callee);
      && !IsUnsupportedWord(f)
      && (IsPure(f) || (IsHelper(f) && LiteralPair(f, args) && args[0].raw != "" && args[1].raw != ""))
      && forall a | a in args :: Restricted(a)
    case Infix(left, _, right) => Restricted(left) && Restricted(right)
    case Prefix(_, operand) => Restricted(operand)
    case Paren(inner) => Restricted(inner)
  }

  predicate StmtRestricted(s: Stmt) {
    match s
    case Declare(_, variable, value) => IsQuiet(variable) && Restricted(value)
    case Assign(variable, value) => IsQuiet(variable) && Restricted(value)
    case Do(expr) => Restricted(expr)
    case If(cond, thn, hasElse, els) =>
      && Restricted(cond) && (forall s | s in thn :: StmtRestricted(s))
      && (hasElse ==> forall s | s in els :: StmtRestricted(s))
  }

  /** The reads written in the text, on every branch. */
  function Written(e: Expr): set<TagKey> {
    match e
    case Text(_, _) => {}
    case Number(_) => {}
    case Name(_) => {}
    case Call(callee, args) => OwnRead(callee, args) + ArgsWritten(args)
    case Infix(left, _, right) => Written(left) + Written(right)
    case Prefix(_, operand) => Written(operand)
    case Paren(inner) => Written(inner)
  }

  function ArgsWritten(args: seq<Expr>): set<TagKey> {
    if args == [] then {} else Written(args[0]) + ArgsWritten(args[1..])
  }

  function OwnRead(callee: string, args: seq<Expr>): set<TagKey> {
    var f := Lower(callee);
    if (f == "tag" || f == "quality") && LiteralPair(f, args) && args[0].raw != "_system"
    then {(args[0].raw, args[1].raw)} else {}
  }

  function StmtWritten(s: Stmt): set<TagKey> {
    match s
    case Declare(_, _, value) => Written(value)
    case Assign(_, value) => Written(value)
    case Do(expr) => Written(expr)
    case If(cond, thn, hasElse, els) =>
      Written(cond) + ProgramWritten(thn) + (if hasElse then ProgramWritten(els) else {})
  }

  function ProgramWritten(program: seq<Stmt>): set<TagKey> {
    if program == [] then {} else StmtWritten(program[0]) + ProgramWritten(program[1..])
  }
}
