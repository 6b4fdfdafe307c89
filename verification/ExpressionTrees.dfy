/** The meaning of math expressions: layout trees, their text and their value, and the theorem that the
    evaluator of `MathExpression` accepts exactly the texts of well-formed trees and returns exactly the
    tree's value or the tree's first error.
 */
module ExpressionTrees {
  import opened Numerals
  import opened MathExpression

  /** An expression as laid out in a text: every token with the white space before it. */
  datatype Tree =
    | Number(space: string, literal: string)
    | Input(space: string, name: string)
    | Signed(space: string, negative: bool, operand: Tree)
    | Binary(left: Tree, space: string, op: Operator, right: Tree)
    | Paren(space: string, inner: Tree, closing: string)
    | Function(space: string, name: string, opening: string, args: Args)

  datatype Args =
    | NoArgs(closing: string)
    | Last(arg: Tree, closing: string)
    | More(arg: Tree, comma: string, rest: Args)

  function Text(t: Tree): string {
    match t
    case Number(space, literal) => space + literal
    case Input(space, name) => space + name
    case Signed(space, negative, operand) => space + [if negative then '-' else '+'] + Text(operand)
    case Binary(left, space, op, right) => Text(left) + space + [op.Symbol()] + Text(right)
    case Paren(space, inner, closing) => space + ['('] + Text(inner) + closing + [')']
    case Function(space, name, opening, args) => space + name + opening + ['('] + ArgsText(args)
  }

  function ArgsText(args: Args): string {
    match args
    case NoArgs(closing) => closing + [')']
    case Last(arg, closing) => Text(arg) + closing + [')']
    case More(arg, comma, rest) => Text(arg) + comma + [','] + ArgsText(rest)
  }

  /** Precedence and associativity: sums of terms, products of unaries, both grouping to the left. */
  predicate IsExpression(t: Tree)
    decreases t, 3
  {
    if t.Binary? && t.op.Additive() then IsExpression(t.left) && AllSpace(t.space) && IsTerm(t.right) else IsTerm(t)
  }

  predicate IsTerm(t: Tree)
    decreases t, 2
  {
    if t.Binary? then !t.op.Additive() && IsTerm(t.left) && AllSpace(t.space) && IsUnary(t.right) else IsUnary(t)
  }

  predicate IsUnary(t: Tree)
    decreases t, 1
  {
    if t.Signed? then AllSpace(t.space) && IsUnary(t.operand) else IsPrimary(t)
  }

  predicate IsPrimary(t: Tree)
    decreases t, 0
  {
    match t
    case Number(space, literal) => AllSpace(space) && IsNumeral(literal)
    case Input(space, name) => AllSpace(space) && IsName(name)
    case Signed(_, _, _) => false
    case Binary(_, _, _, _) => false
    case Paren(space, inner, closing) => AllSpace(space) && IsExpression(inner) && AllSpace(closing)
    case Function(space, name, opening, args) => AllSpace(space) && IsName(name) && AllSpace(opening) && AreArgs(args)
  }

  predicate AreArgs(args: Args)
    decreases args, 4
  {
    match args
    case NoArgs(closing) => AllSpace(closing)
    case Last(arg, closing) => IsExpression(arg) && AllSpace(closing)
    case More(arg, comma, rest) => IsExpression(arg) && AllSpace(comma) && !rest.NoArgs? && AreArgs(rest)
  }

  /** The value of a tree, or its first error from left to right. */
  function Value<N>(ops: Arithmetic<N>, inputs: map<string, N>, t: Tree): Result<N> {
    match t
    case Number(_, literal) =>
      var v := ops.number(literal);
      if v.None? then Err(BadNumber) else Ok(v.value)
    case Input(_, name) => if name in inputs then Ok(inputs[name]) else Err(UnknownInput(name))
    case Signed(_, negative, operand) =>
      var v := Value(ops, inputs, operand);
      if v.Ok? && negative then Ok(ops.apply(Negate, v.value)) else v
    case Binary(left, _, op, right) =>
      var l := Value(ops, inputs, left);
      if l.Err? then l
      else
        var r := Value(ops, inputs, right);
        if r.Err? then r else op.Compute(ops, l.value, r.value)
    case Paren(_, inner, _) => Value(ops, inputs, inner)
    case Function(_, name, _, args) =>
      var vs := ArgValues(ops, inputs, args);
      if vs.Err? then Err(vs.error) else ops.Apply(name, vs.value)
  }

  function ArgValues<N>(ops: Arithmetic<N>, inputs: map<string, N>, args: Args): Result<seq<N>> {
    match args
    case NoArgs(_) => Ok([])
    case Last(arg, _) =>
      var v := Value(ops, inputs, arg);
      if v.Err? then Err(v.error) else Ok([v.value])
    case More(arg, _, rest) => Prepend(Value(ops, inputs, arg), ArgValues(ops, inputs, rest))
  }

  function Prepend<N>(v: Result<N>, vs: Result<seq<N>>): Result<seq<N>> {
    if v.Err? then Err(v.error) else if vs.Err? then vs else Ok([v.value] + vs.value)
  }

  // ---------------------------------------------------------------- reading white space and tokens

  ghost predicate Reads<N>(x: Parser<N>, p: nat, s: string) {
    p + |s| <= |x.text| && x.text[p..p + |s|] == s
  }

  lemma ReadsTwo<N>(x: Parser<N>, p: nat, a: string, b: string)
    requires Reads(x, p, a + b)
    ensures Reads(x, p, a) && Reads(x, p + |a|, b)
  {
    assert a == (a + b)[..|a|] && b == (a + b)[|a|..];
  }

  lemma {:induction false} SkipsSpace<N>(x: Parser<N>, p: nat, space: string)
    requires Reads(x, p, space) && AllSpace(space)
    ensures x.Skip(p) == x.Skip(p + |space|)
    decreases |space|
  {
    if space != "" {
      assert x.text[p] == space[0];
      assert space[1..] == x.text[p + 1..p + |space|];
      SkipsSpace(x, p + 1, space[1..]);
    }
  }

  /** White space, then a character that is none. */
  lemma SkipsTo<N>(x: Parser<N>, p: nat, space: string, c: char)
    requires Reads(x, p, space + [c]) && AllSpace(space) && !IsSpace(c)
    ensures x.Skip(p) == p + |space| && x.text[p + |space|] == c
    ensures x.Skip(p + |space|) == p + |space|
  {
    ReadsTwo(x, p, space, [c]);
    SkipsSpace(x, p, space);
    assert x.text[p + |space|] == c;
  }

  lemma {:induction false} NameEndsAt<N>(x: Parser<N>, p: nat, name: string)
    requires Reads(x, p, name) && (forall i | 0 <= i < |name| :: IsNameChar(name[i]))
    requires Stops(x.text[p + |name|..])
    ensures x.NameEnd(p) == p + |name|
    decreases |name|
  {
    if name != "" {
      assert x.text[p] == name[0];
      assert name[1..] == x.text[p + 1..p + |name|];
      NameEndsAt(x, p + 1, name[1..]);
    } else {
      assert p < |x.text| ==> x.text[p..][0] == x.text[p];
    }
  }

  /** Behind a complete operand: no character that would prolong a name or a number, and no call. */
  ghost predicate Ends<N>(x: Parser<N>, e: nat) {
    e <= |x.text| && Stops(x.text[e..]) && !x.At(x.Skip(e), '(')
  }

  ghost predicate EndsTerm<N>(x: Parser<N>, e: nat) {
    Ends(x, e) && x.ProductOperator(x.Skip(e)).None?
  }

  predicate IsToken(c: char) { c == '+' || c == '-' || c == '*' || c == '/' || c == '%' || c == ')' || c == ',' }

  /** A spaced operator, comma or closing parenthesis ends the operand before it. */
  lemma TokenEnds<N>(x: Parser<N>, e: nat, space: string, c: char)
    requires Reads(x, e, space + [c]) && AllSpace(space) && IsToken(c)
    ensures x.Skip(e) == e + |space| && x.text[e + |space|] == c && Ends(x, e)
    ensures c != '*' && c != '/' && c != '%' ==> EndsTerm(x, e)
  {
    SkipsTo(x, e, space, c);
    assert x.text[e..][0] == (space + [c])[0];
  }

  // ---------------------------------------------------------------- the parser on the text of a tree

  ghost function AfterSum<N>(x: Parser<N>, v: Result<N>, e: nat): Read<N>
    requires e <= |x.text|
  {
    if v.Err? then Fail(v.error) else x.Sums(v.value, e)
  }

  ghost function AfterProduct<N>(x: Parser<N>, v: Result<N>, e: nat): Read<N>
    requires e <= |x.text|
  {
    if v.Err? then Fail(v.error) else x.Products(v.value, e)
  }

  /** The parser returned the value and stands at `e`, up to white space. */
  ghost predicate Lands<N>(x: Parser<N>, r: Read<N>, v: Result<N>, e: nat)
    requires e <= |x.text|
  {
    if v.Err? then r == Fail(v.error)
    else r.Done? && r.value == v.value && r.next <= |x.text| && x.Skip(r.next) == x.Skip(e)
  }

  lemma SumsSkips<N>(x: Parser<N>, v: N, p: nat, e: nat)
    requires p <= |x.text| && e <= |x.text| && x.Skip(p) == x.Skip(e)
    ensures x.Sums(v, p) == x.Sums(v, e)
  {
  }

  lemma ProductsSkips<N>(x: Parser<N>, v: N, p: nat, e: nat)
    requires p <= |x.text| && e <= |x.text| && x.Skip(p) == x.Skip(e)
    ensures x.Products(v, p) == x.Products(v, e)
  {
  }

  lemma ExpressionSkips<N>(x: Parser<N>, p: nat)
    requires p <= |x.text|
    ensures x.Expression(x.Skip(p)) == x.Expression(p)
  {
    x.SkipTwice(p);
    assert x.Unary(x.Skip(p)) == x.Unary(p);
    assert x.Term(x.Skip(p)) == x.Term(p);
  }

  lemma {:induction false} ReadExpression<N>(x: Parser<N>, p: nat, t: Tree)
    requires IsExpression(t) && Reads(x, p, Text(t)) && EndsTerm(x, p + |Text(t)|)
    ensures x.Expression(p) == AfterSum(x, Value(x.ops, x.inputs, t), p + |Text(t)|)
    decreases t, 3
  {
    hide *;
    var e := p + |Text(t)|;
    ReadsFit(x, p, Text(t));
    if t.Binary? && t.op.Additive() {
      var m := SumParts(x, p, t);
      ReadExpression(x, p, t.left);
      ReadTerm(x, x.Skip(m) + 1, t.right);
      SumStep(x, t, m, e);
    } else {
      NoSum(t);
      EndsTermEnds(x, e);
      ReadTerm(x, p, t);
      TermIsExpression(x, Value(x.ops, x.inputs, t), p, e);
    }
  }

  lemma NoSum(t: Tree)
    requires IsExpression(t) && !(t.Binary? && t.op.Additive())
    ensures IsTerm(t)
  {
  }

  lemma EndsTermEnds<N>(x: Parser<N>, e: nat)
    requires EndsTerm(x, e)
    ensures Ends(x, e) && e <= |x.text|
  {
  }

  lemma SumParts<N>(x: Parser<N>, p: nat, t: Tree) returns (m: nat)
    requires t.Binary? && t.op.Additive() && IsExpression(t) && Reads(x, p, Text(t)) && EndsTerm(x, p + |Text(t)|)
    ensures m == p + |Text(t.left)| <= |x.text| && IsExpression(t.left) && Reads(x, p, Text(t.left)) && EndsTerm(x, m)
    ensures x.SumOperator(x.Skip(m)) == Some(t.op)
    ensures x.Skip(m) + 1 + |Text(t.right)| == p + |Text(t)| <= |x.text| && IsTerm(t.right)
    ensures Reads(x, x.Skip(m) + 1, Text(t.right)) && Ends(x, p + |Text(t)|)
  {
    hide Parser.Skip, Parser.ProductOperator;
    m := p + |Text(t.left)|;
    BinaryParts(x, p, t);
    TokenEnds(x, m, t.space, t.op.Symbol());
    OperatorAt(x, x.Skip(m), t.op);
  }

  lemma ProductParts<N>(x: Parser<N>, p: nat, t: Tree) returns (m: nat)
    requires t.Binary? && IsTerm(t) && Reads(x, p, Text(t)) && Ends(x, p + |Text(t)|)
    ensures !t.op.Additive()
    ensures m == p + |Text(t.left)| <= |x.text| && IsTerm(t.left) && Reads(x, p, Text(t.left)) && Ends(x, m)
    ensures x.ProductOperator(x.Skip(m)) == Some(t.op)
    ensures x.Skip(m) + 1 + |Text(t.right)| == p + |Text(t)| <= |x.text| && IsUnary(t.right)
    ensures Reads(x, x.Skip(m) + 1, Text(t.right))
  {
    hide Parser.Skip, Parser.ProductOperator;
    m := p + |Text(t.left)|;
    BinaryParts(x, p, t);
    TokenEnds(x, m, t.space, t.op.Symbol());
    OperatorAt(x, x.Skip(m), t.op);
  }

  lemma OperatorAt<N>(x: Parser<N>, q: nat, op: Operator)
    requires x.At(q, op.Symbol())
    ensures if op.Additive() then x.SumOperator(q) == Some(op) else x.ProductOperator(q) == Some(op)
  {
  }

  lemma TermIsExpression<N>(x: Parser<N>, v: Result<N>, p: nat, e: nat)
    requires p <= |x.text| && EndsTerm(x, e) && x.Term(p) == AfterProduct(x, v, e)
    ensures x.Expression(p) == AfterSum(x, v, e)
  {
    x.SkipTwice(e);
    if v.Ok? { SumsSkips(x, v.value, x.Skip(e), e); }
  }

  lemma SumStep<N>(x: Parser<N>, t: Tree, m: nat, e: nat)
    requires t.Binary? && t.op.Additive() && m <= |x.text| && EndsTerm(x, e)
    requires x.SumOperator(x.Skip(m)) == Some(t.op)
    requires x.Term(x.Skip(m) + 1) == AfterProduct(x, Value(x.ops, x.inputs, t.right), e)
    ensures AfterSum(x, Value(x.ops, x.inputs, t.left), m) == AfterSum(x, Value(x.ops, x.inputs, t), e)
  {
    var l, r := Value(x.ops, x.inputs, t.left), Value(x.ops, x.inputs, t.right);
    if l.Ok? && r.Ok? {
      assert x.Term(x.Skip(m) + 1) == Done(r.value, x.Skip(e));
      var v := t.op.Compute(x.ops, l.value, r.value);
      x.SkipTwice(e);
      if v.Ok? { SumsSkips(x, v.value, x.Skip(e), e); }
    }
  }

  lemma BinaryParts<N>(x: Parser<N>, p: nat, t: Tree)
    requires t.Binary? && Reads(x, p, Text(t))
    ensures Reads(x, p, Text(t.left))
    ensures Reads(x, p + |Text(t.left)|, t.space + [t.op.Symbol()])
    ensures Reads(x, p + |Text(t.left)| + |t.space| + 1, Text(t.right))
  {
    ReadsTwo(x, p, Text(t.left) + t.space + [t.op.Symbol()], Text(t.right));
    assert Text(t.left) + t.space + [t.op.Symbol()] == Text(t.left) + (t.space + [t.op.Symbol()]);
    ReadsTwo(x, p, Text(t.left), t.space + [t.op.Symbol()]);
  }

  lemma {:induction false} ReadTerm<N>(x: Parser<N>, p: nat, t: Tree)
    requires IsTerm(t) && Reads(x, p, Text(t)) && Ends(x, p + |Text(t)|)
    ensures x.Term(p) == AfterProduct(x, Value(x.ops, x.inputs, t), p + |Text(t)|)
    decreases t, 2
  {
    hide *;
    var e := p + |Text(t)|;
    ReadsFit(x, p, Text(t));
    if t.Binary? {
      var m := ProductParts(x, p, t);
      ReadTerm(x, p, t.left);
      ReadUnary(x, x.Skip(m) + 1, t.right);
      ProductStep(x, t, m, e);
    } else {
      NoProduct(t);
      ReadUnary(x, p, t);
      UnaryIsTerm(x, Value(x.ops, x.inputs, t), p, e);
    }
  }

  lemma NoProduct(t: Tree)
    requires IsTerm(t) && !t.Binary?
    ensures IsUnary(t)
  {
  }

  lemma ReadsFit<N>(x: Parser<N>, p: nat, s: string)
    requires Reads(x, p, s)
    ensures p <= p + |s| <= |x.text|
  {
  }

  lemma UnaryIsTerm<N>(x: Parser<N>, v: Result<N>, p: nat, e: nat)
    requires p <= |x.text| && e <= |x.text| && Lands(x, x.Unary(p), v, e)
    ensures x.Term(p) == AfterProduct(x, v, e)
  {
    hide Parser.Unary;
    if v.Ok? { ProductsSkips(x, v.value, x.Unary(p).next, e); }
  }

  lemma ProductStep<N>(x: Parser<N>, t: Tree, m: nat, e: nat)
    requires t.Binary? && !t.op.Additive() && m <= |x.text| && e <= |x.text|
    requires x.ProductOperator(x.Skip(m)) == Some(t.op)
    requires Lands(x, x.Unary(x.Skip(m) + 1), Value(x.ops, x.inputs, t.right), e)
    ensures AfterProduct(x, Value(x.ops, x.inputs, t.left), m) == AfterProduct(x, Value(x.ops, x.inputs, t), e)
  {
    var l, r := Value(x.ops, x.inputs, t.left), Value(x.ops, x.inputs, t.right);
    if l.Ok? && r.Ok? {
      var v := t.op.Compute(x.ops, l.value, r.value);
      if v.Ok? { ProductsSkips(x, v.value, x.Unary(x.Skip(m) + 1).next, e); }
    }
  }

  lemma {:induction false} ReadUnary<N>(x: Parser<N>, p: nat, t: Tree)
    requires IsUnary(t) && Reads(x, p, Text(t)) && Ends(x, p + |Text(t)|)
    ensures Lands(x, x.Unary(p), Value(x.ops, x.inputs, t), p + |Text(t)|)
    decreases t, 1
  {
    hide *;
    ReadsFit(x, p, Text(t));
    if t.Signed? {
      SignParts(x, p, t);
      ReadUnary(x, x.Skip(p) + 1, t.operand);
      SignStep(x, p, t, p + |Text(t)|);
    } else {
      NoSign(t);
      ReadPrimary(x, p, t);
      PrimaryStart(x, p, t);
      PrimaryIsUnary(x, p);
    }
  }

  lemma NoSign(t: Tree)
    requires IsUnary(t) && !t.Signed?
    ensures IsPrimary(t)
  {
  }

  lemma SignParts<N>(x: Parser<N>, p: nat, t: Tree)
    requires t.Signed? && IsUnary(t) && Reads(x, p, Text(t))
    ensures p <= |x.text| && x.At(x.Skip(p), if t.negative then '-' else '+')
    ensures IsUnary(t.operand) && Reads(x, x.Skip(p) + 1, Text(t.operand))
    ensures x.Skip(p) + 1 + |Text(t.operand)| == p + |Text(t)|
  {
    hide Parser.Skip;
    var sign := if t.negative then '-' else '+';
    ReadsTwo(x, p, t.space + [sign], Text(t.operand));
    SkipsTo(x, p, t.space, sign);
  }

  lemma SignStep<N>(x: Parser<N>, p: nat, t: Tree, e: nat)
    requires t.Signed? && p <= |x.text| && e <= |x.text| && x.At(x.Skip(p), if t.negative then '-' else '+')
    requires Lands(x, x.Unary(x.Skip(p) + 1), Value(x.ops, x.inputs, t.operand), e)
    ensures Lands(x, x.Unary(p), Value(x.ops, x.inputs, t), e)
  {
    hide Parser.Skip;
  }

  lemma PrimaryIsUnary<N>(x: Parser<N>, p: nat)
    requires p <= |x.text| && x.Skip(p) < |x.text|
    requires x.text[x.Skip(p)] == '(' || x.text[x.Skip(p)] == '.' || IsNameChar(x.text[x.Skip(p)])
    ensures x.Unary(p) == x.Primary(p)
  {
    x.SkipTwice(p);
    hide Parser.Skip, Parser.Expression, Parser.Named, Parser.Number;
    assert x.Primary(x.Skip(p)) == x.Primary(p);
  }

  /** A primary begins with a digit, a point, a name character or an opening parenthesis. */
  lemma PrimaryStart<N>(x: Parser<N>, p: nat, t: Tree)
    requires IsPrimary(t) && Reads(x, p, Text(t))
    ensures x.Skip(p) == p + |t.space| < |x.text|
    ensures x.text[x.Skip(p)] == '(' || x.text[x.Skip(p)] == '.' || IsNameChar(x.text[x.Skip(p)])
    ensures t.Paren? <==> x.At(x.Skip(p), '(')
    ensures t.Number? <==> x.text[x.Skip(p)] == '.' || IsDigit(x.text[x.Skip(p)])
  {
    var c :=
      if t.Number? then t.literal[0] else if t.Paren? then '('
      else t.name[0];
    assert Text(t)[..|t.space| + 1] == t.space + [c];
    assert Text(t) == (t.space + [c]) + Text(t)[|t.space| + 1..];
    ReadsTwo(x, p, t.space + [c], Text(t)[|t.space| + 1..]);
    SkipsTo(x, p, t.space, c);
  }

  lemma {:induction false} ReadPrimary<N>(x: Parser<N>, p: nat, t: Tree)
    requires IsPrimary(t) && Reads(x, p, Text(t)) && Ends(x, p + |Text(t)|)
    ensures Lands(x, x.Primary(p), Value(x.ops, x.inputs, t), p + |Text(t)|)
    decreases t, 0
  {
    hide *;
    ReadsFit(x, p, Text(t));
    PrimaryStart(x, p, t);
    NoBinaryPrimary(t);
    match t
    case Number(_, _) => NumberStep(x, p, t);
    case Input(_, _) => InputStep(x, p, t);
    case Paren(_, inner, _) =>
      var m := ParenParts(x, p, t);
      ReadExpression(x, x.Skip(p) + 1, inner);
      ParenStep(x, p, t, m);
    case Function(_, _, _, args) =>
      var a := NamePart(x, p, t);
      ReadCall(x, a, args);
      FunctionStep(x, p, t, a);
  }

  lemma NoBinaryPrimary(t: Tree)
    requires IsPrimary(t)
    ensures !t.Signed? && !t.Binary?
  {
  }

  /** Where the arguments of a call start. */
  lemma NamePart<N>(x: Parser<N>, p: nat, t: Tree) returns (a: nat)
    requires IsPrimary(t) && t.Function? && Reads(x, p, Text(t)) && x.Skip(p) == p + |t.space|
    ensures x.Skip(p) < |x.text| && IsNameChar(x.text[x.Skip(p)]) && !IsDigit(x.text[x.Skip(p)])
    ensures Reads(x, x.Skip(p), t.name) && x.NameEnd(x.Skip(p)) == x.Skip(p) + |t.name| <= |x.text| && t.name != ""
    ensures x.At(x.Skip(x.Skip(p) + |t.name|), '(')
    ensures a == x.Skip(x.Skip(p) + |t.name|) + 1
    ensures AreArgs(t.args) && Reads(x, a, ArgsText(t.args)) && a + |ArgsText(t.args)| == p + |Text(t)|
  {
    hide *;
    var n := x.Skip(p) + |t.name|;
    FunctionFacts(t);
    FunctionParts(x, p, t);
    SkipsTo(x, n, t.opening, '(');
    TokenStops(x, n, t.opening, '(');
    NameEndsAt(x, x.Skip(p), t.name);
    NameStarts(x, x.Skip(p), t.name);
    ReadsFit(x, n, t.opening + ['(']);
    AtIs(x, n + |t.opening|, '(');
    a := n + |t.opening| + 1;
  }

  lemma FunctionFacts(t: Tree)
    requires t.Function? && IsPrimary(t)
    ensures AllSpace(t.opening) && IsName(t.name) && AreArgs(t.args) && !IsSpace('(') && Separates('(')
    ensures forall i | 0 <= i < |t.name| :: IsNameChar(t.name[i])
    ensures |Text(t)| == |t.space| + |t.name| + |t.opening| + 1 + |ArgsText(t.args)|
  {
  }

  lemma TokenStops<N>(x: Parser<N>, e: nat, space: string, c: char)
    requires Reads(x, e, space + [c]) && AllSpace(space) && Separates(c)
    ensures e <= |x.text| && Stops(x.text[e..])
  {
    assert x.text[e..][0] == (space + [c])[0];
  }

  lemma NameStarts<N>(x: Parser<N>, q: nat, name: string)
    requires IsName(name) && Reads(x, q, name)
    ensures q < |x.text| && IsNameChar(x.text[q]) && !IsDigit(x.text[q]) && name != ""
  {
    assert x.text[q] == name[0];
  }

  lemma AtIs<N>(x: Parser<N>, q: nat, c: char)
    requires q < |x.text| && x.text[q] == c
    ensures x.At(q, c)
  {
  }

  lemma NumberStep<N>(x: Parser<N>, p: nat, t: Tree)
    requires IsPrimary(t) && t.Number? && Reads(x, p, Text(t)) && x.Skip(p) == p + |t.space|
    requires Ends(x, p + |Text(t)|)
    ensures Lands(x, x.Primary(p), Value(x.ops, x.inputs, t), p + |Text(t)|)
  {
    hide *;
    NumberFacts(x, t);
    EndStops(x, p + |Text(t)|);
    var q := p + |t.space|;
    ReadsTwo(x, p, t.space, t.literal);
    ReadsHead(x, q, t.literal);
    LiteralAt(x, q, t.literal);
    NumberIsPrimary(x, p);
    NumberLands(x, q, t.literal);
  }

  lemma EndStops<N>(x: Parser<N>, e: nat)
    requires Ends(x, e)
    ensures e <= |x.text| && Stops(x.text[e..]) && !x.At(x.Skip(e), '(')
  {
  }

  lemma NumberFacts<N>(x: Parser<N>, t: Tree)
    requires IsPrimary(t) && t.Number?
    ensures Text(t) == t.space + t.literal && IsNumeral(t.literal) && t.literal != ""
    ensures IsDigit(t.literal[0]) || t.literal[0] == '.'
    ensures Value(x.ops, x.inputs, t) == LiteralValue(x, t.literal)
  {
  }

  function LiteralValue<N>(x: Parser<N>, literal: string): Result<N> {
    var v := x.ops.number(literal);
    if v.None? then Err(BadNumber) else Ok(v.value)
  }

  lemma ReadsHead<N>(x: Parser<N>, q: nat, s: string)
    requires Reads(x, q, s) && s != ""
    ensures q + |s| <= |x.text| && x.text[q] == s[0]
  {
  }

  lemma NumberLands<N>(x: Parser<N>, q: nat, literal: string)
    requires literal != "" && Reads(x, q, literal) && NumberLength(x.text[q..]) == |literal|
    ensures Lands(x, x.Number(q), LiteralValue(x, literal), q + |literal|)
  {
    hide Parser.Skip, NumberLength;
  }

  lemma LiteralAt<N>(x: Parser<N>, q: nat, literal: string)
    requires IsNumeral(literal) && Reads(x, q, literal) && Stops(x.text[q + |literal|..])
    ensures NumberLength(x.text[q..]) == |literal|
  {
    hide NumberLength;
    assert x.text[q..] == literal + x.text[q + |literal|..];
    NumeralStops(literal, x.text[q + |literal|..]);
  }

  lemma NumberIsPrimary<N>(x: Parser<N>, p: nat)
    requires p <= |x.text| && x.Skip(p) < |x.text| && (IsDigit(x.text[x.Skip(p)]) || x.text[x.Skip(p)] == '.')
    ensures x.Primary(p) == x.Number(x.Skip(p))
  {
    hide Parser.Skip, Parser.Expression, Parser.Named, Parser.Number;
  }

  lemma NamedIsPrimary<N>(x: Parser<N>, p: nat)
    requires p <= |x.text| && x.Skip(p) < |x.text|
    requires IsNameChar(x.text[x.Skip(p)]) && !IsDigit(x.text[x.Skip(p)])
    ensures x.Primary(p) == x.Named(x.Skip(p))
  {
    hide Parser.Skip, Parser.Expression, Parser.Named, Parser.Number;
  }

  lemma InputStep<N>(x: Parser<N>, p: nat, t: Tree)
    requires IsPrimary(t) && t.Input? && Reads(x, p, Text(t)) && x.Skip(p) == p + |t.space|
    requires Ends(x, p + |Text(t)|)
    ensures Lands(x, x.Primary(p), Value(x.ops, x.inputs, t), p + |Text(t)|)
  {
    hide *;
    InputFacts(x, t);
    EndStops(x, p + |Text(t)|);
    var q := p + |t.space|;
    ReadsTwo(x, p, t.space, t.name);
    ReadsHead(x, q, t.name);
    NameEndsAt(x, q, t.name);
    NamedIsPrimary(x, p);
    InputLands(x, q, t.name);
  }

  lemma InputFacts<N>(x: Parser<N>, t: Tree)
    requires IsPrimary(t) && t.Input?
    ensures Text(t) == t.space + t.name && t.name != ""
    ensures IsNameChar(t.name[0]) && !IsDigit(t.name[0]) && forall i | 0 <= i < |t.name| :: IsNameChar(t.name[i])
    ensures Value(x.ops, x.inputs, t) == InputValue(x, t.name)
  {
  }

  function InputValue<N>(x: Parser<N>, name: string): Result<N> {
    if name in x.inputs then Ok(x.inputs[name]) else Err(UnknownInput(name))
  }

  lemma InputLands<N>(x: Parser<N>, q: nat, name: string)
    requires name != "" && Reads(x, q, name) && x.NameEnd(q) == q + |name| && !x.At(x.Skip(q + |name|), '(')
    ensures Lands(x, x.Named(q), InputValue(x, name), q + |name|)
  {
    x.SkipTwice(q + |name|);
    hide Parser.Skip, Parser.NameEnd, Parser.Call;
  }

  lemma ParenStep<N>(x: Parser<N>, p: nat, t: Tree, m: nat)
    requires t.Paren? && p <= |x.text| && x.At(x.Skip(p), '(') && m <= |x.text| && x.At(x.Skip(m), ')')
    requires x.Expression(x.Skip(p) + 1) == AfterSum(x, Value(x.ops, x.inputs, t.inner), m)
    ensures Lands(x, x.Primary(p), Value(x.ops, x.inputs, t), x.Skip(m) + 1)
  {
    SumsStopAt(x, Value(x.ops, x.inputs, t.inner), m);
    x.SkipTwice(m);
    hide Parser.Skip, Parser.Expression, Parser.Sums, Parser.Number, Parser.Named;
  }

  /** A closing parenthesis or a comma ends a sum. */
  lemma SumsStopAt<N>(x: Parser<N>, v: Result<N>, m: nat)
    requires m <= |x.text| && (x.At(x.Skip(m), ')') || x.At(x.Skip(m), ','))
    ensures v.Ok? ==> AfterSum(x, v, m) == Done(v.value, x.Skip(m))
  {
    hide Parser.Skip, Parser.Term;
  }

  lemma FunctionStep<N>(x: Parser<N>, p: nat, t: Tree, a: nat)
    requires t.Function? && p <= |x.text| && x.Skip(p) < |x.text|
    requires IsNameChar(x.text[x.Skip(p)]) && !IsDigit(x.text[x.Skip(p)]) && t.name != "" && Reads(x, x.Skip(p), t.name)
    requires x.NameEnd(x.Skip(p)) == x.Skip(p) + |t.name| <= |x.text|
    requires x.At(x.Skip(x.Skip(p) + |t.name|), '(') && a == x.Skip(x.Skip(p) + |t.name|) + 1
    requires LandsArgs(x.Call(a), [], ArgValues(x.ops, x.inputs, t.args), p + |Text(t)|) && p + |Text(t)| <= |x.text|
    ensures Lands(x, x.Primary(p), Value(x.ops, x.inputs, t), p + |Text(t)|)
  {
    hide *;
    NamedIsPrimary(x, p);
    CallStep(x, x.Skip(p), t.name, a, ArgValues(x.ops, x.inputs, t.args), p + |Text(t)|);
    FunctionValue(x.ops, x.inputs, t);
  }

  lemma FunctionValue<N>(ops: Arithmetic<N>, inputs: map<string, N>, t: Tree)
    requires t.Function?
    ensures var vs := ArgValues(ops, inputs, t.args);
      Value(ops, inputs, t) == if vs.Err? then Err(vs.error) else ops.Apply(t.name, vs.value)
  {
  }

  lemma CallStep<N>(x: Parser<N>, q: nat, name: string, a: nat, vs: Result<seq<N>>, e: nat)
    requires q <= |x.text| && name != "" && Reads(x, q, name) && x.NameEnd(q) == q + |name|
    requires x.At(x.Skip(q + |name|), '(') && a == x.Skip(q + |name|) + 1
    requires LandsArgs(x.Call(a), [], vs, e) && e <= |x.text|
    ensures Lands(x, x.Named(q), if vs.Err? then Err(vs.error) else x.ops.Apply(name, vs.value), e)
  {
    hide Parser.Skip, Parser.NameEnd, Parser.Call, Arithmetic.Apply;
    if vs.Ok? { assert [] + vs.value == vs.value; }
  }

  lemma ParenParts<N>(x: Parser<N>, p: nat, t: Tree) returns (m: nat)
    requires t.Paren? && IsPrimary(t) && Reads(x, p, Text(t)) && x.Skip(p) == p + |t.space|
    ensures IsExpression(t.inner) && Reads(x, x.Skip(p) + 1, Text(t.inner))
    ensures m == x.Skip(p) + 1 + |Text(t.inner)| <= |x.text| && EndsTerm(x, m) && x.At(x.Skip(m), ')')
    ensures x.Skip(m) + 1 == p + |Text(t)|
  {
    hide Parser.Skip, Parser.ProductOperator, IsNumeral, IsName, EndsTerm, Ends;
    ReadsParen(x, p, t);
    m := x.Skip(p) + 1 + |Text(t.inner)|;
    TokenEnds(x, m, t.closing, ')');
  }

  lemma ReadsParen<N>(x: Parser<N>, p: nat, t: Tree)
    requires t.Paren? && Reads(x, p, Text(t))
    ensures Reads(x, p + |t.space| + 1, Text(t.inner))
    ensures Reads(x, p + |t.space| + 1 + |Text(t.inner)|, t.closing + [')'])
  {
    assert Text(t) == (t.space + ['(']) + (Text(t.inner) + (t.closing + [')']));
    ReadsTwo(x, p, t.space + ['('], Text(t.inner) + (t.closing + [')']));
    ReadsTwo(x, p + |t.space| + 1, Text(t.inner), t.closing + [')']);
  }

  lemma FunctionParts<N>(x: Parser<N>, p: nat, t: Tree)
    requires t.Function? && Reads(x, p, Text(t))
    ensures Reads(x, p + |t.space|, t.name)
    ensures Reads(x, p + |t.space| + |t.name|, t.opening + ['('])
    ensures Reads(x, p + |t.space| + |t.name| + |t.opening| + 1, ArgsText(t.args))
  {
    hide *;
    FunctionText(t);
    ReadsTwo(x, p, t.space, t.name + ((t.opening + ['(']) + ArgsText(t.args)));
    ReadsTwo(x, p + |t.space|, t.name, (t.opening + ['(']) + ArgsText(t.args));
    ReadsTwo(x, p + |t.space| + |t.name|, t.opening + ['('], ArgsText(t.args));
  }

  lemma FunctionText(t: Tree)
    requires t.Function?
    ensures Text(t) == t.space + (t.name + ((t.opening + ['(']) + ArgsText(t.args)))
    ensures |t.opening + ['(']| == |t.opening| + 1
  {
    Regroup5(t.space, t.name, t.opening, ['('], ArgsText(t.args));
    hide ArgsText;
  }

  lemma Regroup5(a: string, b: string, c: string, d: string, e: string)
    ensures a + b + c + d + e == a + (b + ((c + d) + e))
  {
  }

  lemma Regroup3(a: string, b: string, c: string)
    ensures a + b + c == a + (b + c)
  {
  }

  lemma Regroup4(a: string, b: string, c: string, d: string)
    ensures a + b + c + d == a + ((b + c) + d)
  {
  }

  ghost predicate LandsArgs<N>(r: Read<seq<N>>, sofar: seq<N>, vs: Result<seq<N>>, e: nat) {
    if vs.Err? then r == Fail(vs.error) else r == Done(sofar + vs.value, e)
  }

  lemma {:induction false} ReadCall<N>(x: Parser<N>, p: nat, args: Args)
    requires AreArgs(args) && Reads(x, p, ArgsText(args))
    ensures LandsArgs(x.Call(p), [], ArgValues(x.ops, x.inputs, args), p + |ArgsText(args)|)
    decreases args, 5
  {
    if args.NoArgs? {
      SkipsTo(x, p, args.closing, ')');
      var none: seq<N> := [];
      assert none + none == none;
    } else {
      hide Parser.Arguments, Parser.Expression, Parser.Skip, ArgValues;
      ArgsParts(x, p, args);
      ExpressionStart(x, p, args.arg);
      ReadArguments(x, [], p, args);
      ArgumentsSkip(x, p);
    }
  }

  lemma ArgumentsSkip<N>(x: Parser<N>, p: nat)
    requires p <= |x.text|
    ensures x.Arguments([], x.Skip(p)) == x.Arguments([], p)
  {
    ExpressionSkips(x, p);
    hide Parser.Expression, Parser.Skip;
  }

  lemma ArgsParts<N>(x: Parser<N>, p: nat, args: Args)
    requires !args.NoArgs? && Reads(x, p, ArgsText(args))
    ensures Reads(x, p, Text(args.arg))
    ensures args.Last? ==> Reads(x, p + |Text(args.arg)|, args.closing + [')'])
    ensures args.More? ==>
      && Reads(x, p + |Text(args.arg)|, args.comma + [','])
      && Reads(x, p + |Text(args.arg)| + |args.comma| + 1, ArgsText(args.rest))
  {
    hide *;
    if args.Last? {
      LastText(args);
      ReadsTwo(x, p, Text(args.arg), args.closing + [')']);
    } else {
      MoreText(args);
      ReadsTwo(x, p, Text(args.arg), (args.comma + [',']) + ArgsText(args.rest));
      ReadsTwo(x, p + |Text(args.arg)|, args.comma + [','], ArgsText(args.rest));
    }
  }

  lemma LastText(args: Args)
    requires args.Last?
    ensures ArgsText(args) == Text(args.arg) + (args.closing + [')'])
  {
    Regroup3(Text(args.arg), args.closing, [')']);
    hide Text;
  }

  lemma MoreText(args: Args)
    requires args.More?
    ensures ArgsText(args) == Text(args.arg) + ((args.comma + [',']) + ArgsText(args.rest))
    ensures |args.comma + [',']| == |args.comma| + 1
  {
    Regroup4(Text(args.arg), args.comma, [','], ArgsText(args.rest));
    hide Text;
  }

  lemma {:induction false} ExpressionStart<N>(x: Parser<N>, p: nat, t: Tree)
    requires IsExpression(t) && Reads(x, p, Text(t))
    ensures !x.At(x.Skip(p), ')')
  {
    hide Parser.Skip;
    if t.Binary? {
      BinaryParts(x, p, t);
      assert IsExpression(t.left) by {
        assert IsTerm(t.left) ==> IsExpression(t.left) by { TermsAreExpressions(t.left); }
      }
      ExpressionStart(x, p, t.left);
    } else {
      assert IsTerm(t) && IsUnary(t);
      if t.Signed? {
        var sign := if t.negative then '-' else '+';
        ReadsTwo(x, p, t.space + [sign], Text(t.operand));
        SkipsTo(x, p, t.space, sign);
      } else {
        PrimaryStart(x, p, t);
      }
    }
  }

  lemma TermsAreExpressions(t: Tree)
    ensures IsTerm(t) ==> IsExpression(t)
  {
  }

  lemma {:induction false} ReadArguments<N>(x: Parser<N>, sofar: seq<N>, p: nat, args: Args)
    requires AreArgs(args) && !args.NoArgs? && Reads(x, p, ArgsText(args))
    ensures LandsArgs(x.Arguments(sofar, p), sofar, ArgValues(x.ops, x.inputs, args), p + |ArgsText(args)|)
    decreases args, 4
  {
    hide *;
    ArgsFacts(args);
    ArgValuesUnfold(x.ops, x.inputs, args);
    ArgsParts(x, p, args);
    var m := p + |Text(args.arg)|;
    ReadsFit(x, p, Text(args.arg));
    var v := Value(x.ops, x.inputs, args.arg);
    if args.Last? {
      TokenEnds(x, m, args.closing, ')');
      ReadExpression(x, p, args.arg);
      ReadsFit(x, m, args.closing + [')']);
      AtIs(x, m + |args.closing|, ')');
      LastArgument(x, sofar, p, m, v);
    } else {
      TokenEnds(x, m, args.comma, ',');
      ReadExpression(x, p, args.arg);
      ReadsFit(x, m, args.comma + [',']);
      AtIs(x, m + |args.comma|, ',');
      if v.Ok? { ReadArguments(x, sofar + [v.value], m + |args.comma| + 1, args.rest); }
      NextArgument(x, sofar, p, m, v, ArgValues(x.ops, x.inputs, args.rest), p + |ArgsText(args)|);
    }
  }

  lemma ArgsFacts(args: Args)
    requires AreArgs(args) && !args.NoArgs?
    ensures IsExpression(args.arg) && IsToken(')') && IsToken(',')
    ensures args.Last? ==> AllSpace(args.closing) && |ArgsText(args)| == |Text(args.arg)| + |args.closing| + 1
    ensures args.More? ==>
      && AllSpace(args.comma) && !args.rest.NoArgs? && AreArgs(args.rest)
      && |ArgsText(args)| == |Text(args.arg)| + |args.comma| + 1 + |ArgsText(args.rest)|
  {
    hide Text, IsExpression;
  }

  lemma ArgValuesUnfold<N>(ops: Arithmetic<N>, inputs: map<string, N>, args: Args)
    ensures args.Last? ==> ArgValues(ops, inputs, args) == Prepend(Value(ops, inputs, args.arg), Ok([]))
    ensures args.More? ==>
      ArgValues(ops, inputs, args) == Prepend(Value(ops, inputs, args.arg), ArgValues(ops, inputs, args.rest))
  {
    if args.Last? {
      var v := Value(ops, inputs, args.arg);
      if v.Ok? { assert [v.value] + [] == [v.value]; }
    }
  }

  lemma LastArgument<N>(x: Parser<N>, sofar: seq<N>, p: nat, m: nat, v: Result<N>)
    requires p <= m <= |x.text| && x.At(x.Skip(m), ')') && x.Expression(p) == AfterSum(x, v, m)
    ensures LandsArgs(x.Arguments(sofar, p), sofar, Prepend(v, Ok([])), x.Skip(m) + 1)
  {
    SumsStopAt(x, v, m);
    x.SkipTwice(m);
    hide Parser.Expression, Parser.Skip, Parser.Sums;
    var vs: Result<seq<N>> := Prepend(v, Ok([]));
    if v.Ok? {
      assert x.Arguments(sofar, p) == Done(sofar + [v.value], x.Skip(m) + 1);
      assert vs == Ok([v.value]) by { assert [v.value] + [] == [v.value]; }
      assert LandsArgs(x.Arguments(sofar, p), sofar, vs, x.Skip(m) + 1);
    } else {
      assert x.Arguments(sofar, p) == Fail(v.error);
    }
  }

  lemma NextArgument<N>(x: Parser<N>, sofar: seq<N>, p: nat, m: nat, v: Result<N>, vs: Result<seq<N>>, e: nat)
    requires p <= m <= |x.text| && x.At(x.Skip(m), ',') && x.Expression(p) == AfterSum(x, v, m)
    requires v.Ok? ==> LandsArgs(x.Arguments(sofar + [v.value], x.Skip(m) + 1), sofar + [v.value], vs, e)
    ensures LandsArgs(x.Arguments(sofar, p), sofar, Prepend(v, vs), e)
  {
    SumsStopAt(x, v, m);
    x.SkipTwice(m);
    hide Parser.Expression, Parser.Skip, Parser.Sums;
    if v.Ok? && vs.Ok? { assert sofar + [v.value] + vs.value == sofar + ([v.value] + vs.value); }
  }

  /** How evaluate() ends once the whole text has been read. */
  function Finished<N>(ops: Arithmetic<N>, v: Result<N>): Result<N> {
    if v.Ok? && !ops.isFinite(v.value) then Err(NotFinite) else v
  }

  /** Every layout of every well-formed tree: the evaluator consumes the whole text and returns the
      tree's value, or the tree's first error. */
  lemma LayoutEvaluates<N>(ops: Arithmetic<N>, inputs: map<string, N>, t: Tree, trailing: string)
    requires IsExpression(t) && AllSpace(trailing)
    ensures Parser(ops, inputs, Text(t) + trailing).Evaluate() == Finished(ops, Value(ops, inputs, t))
  {
    hide Parser.Expression, Parser.Sums, Parser.Skip, Value;
    var x := Parser(ops, inputs, Text(t) + trailing);
    var e := |Text(t)|;
    assert Reads(x, 0, Text(t));
    assert x.text[e..] == trailing == x.text[e..e + |trailing|];
    SkipsSpace(x, e, trailing);
    AtTheEnd(x, e);
    ReadExpression(x, 0, t);
    LastStep(x, Value(ops, inputs, t), e);
  }

  lemma AtTheEnd<N>(x: Parser<N>, e: nat)
    requires e <= |x.text| && AllSpace(x.text[e..]) && x.Skip(e) == x.Skip(|x.text|)
    ensures EndsTerm(x, e) && x.Skip(e) == |x.text|
  {
    assert e < |x.text| ==> x.text[e..][0] == x.text[e];
  }

  lemma LastStep<N>(x: Parser<N>, v: Result<N>, e: nat)
    requires e <= |x.text| && x.Skip(e) == |x.text| && x.Expression(0) == AfterSum(x, v, e)
    ensures x.Evaluate() == Finished(x.ops, v)
  {
    hide Parser.Expression, Parser.Term;
    x.SkipTwice(e);
  }
}
