/** The other half of the evaluator's correctness: whatever text it accepts is the text of a
    well-formed tree with the returned value.  The lemmas rebuild that tree along the parse.
 */
module ExpressionAcceptance {
  import opened Numerals
  import opened MathExpression
  import opened ExpressionTrees

  /** Tree `t` is what was read from `start` to `e`, white space follows up to `next`, and `v` is its value. */
  ghost predicate Found<N>(x: Parser<N>, start: nat, t: Tree, e: nat, next: nat, v: N) {
    && start + |Text(t)| == e <= next <= |x.text|
    && x.text[start..e] == Text(t)
    && AllSpace(x.text[e..next])
    && Value(x.ops, x.inputs, t) == Ok(v)
  }

  lemma {:induction false} SkipsOnlySpace<N>(x: Parser<N>, p: nat)
    requires p <= |x.text|
    ensures AllSpace(x.text[p..x.Skip(p)])
    ensures x.Skip(p) < |x.text| ==> !IsSpace(x.text[x.Skip(p)])
    decreases |x.text| - p
  {
    if p < |x.text| && IsSpace(x.text[p]) {
      SkipsOnlySpace(x, p + 1);
      assert x.text[p..x.Skip(p)] == [x.text[p]] + x.text[p + 1..x.Skip(p)];
    }
  }

  lemma {:induction false} NameOnly<N>(x: Parser<N>, p: nat)
    requires p <= |x.text|
    ensures forall i | 0 <= i < x.NameEnd(p) - p :: IsNameChar(x.text[p..x.NameEnd(p)][i])
    decreases |x.text| - p
  {
    if p < |x.text| && IsNameChar(x.text[p]) {
      NameOnly(x, p + 1);
      assert x.text[p..x.NameEnd(p)] == [x.text[p]] + x.text[p + 1..x.NameEnd(p)];
    }
  }

  lemma SpaceOn<N>(x: Parser<N>, e: nat, next: nat)
    requires e <= next <= |x.text| && AllSpace(x.text[e..next])
    ensures AllSpace(x.text[e..x.Skip(next)])
  {
    SkipsOnlySpace(x, next);
    assert x.text[e..x.Skip(next)] == x.text[e..next] + x.text[next..x.Skip(next)];
  }

  // ---------------------------------------------------------------- sums

  lemma {:induction false} FindExpression<N>(x: Parser<N>, p: nat) returns (t: Tree, e: nat)
    requires p <= |x.text| && x.Expression(p).Done?
    ensures IsExpression(t) && Found(x, p, t, e, x.Expression(p).next, x.Expression(p).value)
    decreases |x.text| - p, 6
  {
    hide *;
    UnfoldExpression(x, p);
    t, e := FindTerm(x, p);
    TermsAreExpressions(t);
    t, e := FindSums(x, p, t, e, x.Term(p).value, x.Term(p).next);
  }

  lemma UnfoldExpression<N>(x: Parser<N>, p: nat)
    requires p <= |x.text| && x.Expression(p).Done?
    ensures x.Term(p).Done? && p <= x.Term(p).next <= |x.text|
    ensures x.Expression(p) == x.Sums(x.Term(p).value, x.Term(p).next)
  {
    hide Parser.Term, Parser.Sums;
  }

  lemma {:induction false} FindSums<N>(x: Parser<N>, start: nat, t0: Tree, e0: nat, v: N, p: nat)
    returns (t: Tree, e: nat)
    requires p <= |x.text| && start <= p && IsExpression(t0) && Found(x, start, t0, e0, p, v) && x.Sums(v, p).Done?
    ensures IsExpression(t) && Found(x, start, t, e, x.Sums(v, p).next, x.Sums(v, p).value)
    decreases |x.text| - p, 5
  {
    hide *;
    FoundEnds(x, start, t0, e0, p, v);
    UnfoldSums(x, v, p);
    var q := x.Skip(p);
    var op := x.SumOperator(q);
    if op.None? {
      t, e := t0, e0;
    } else {
      var right := x.Term(q + 1);
      var tr, er := FindTerm(x, q + 1);
      var t1 := Joined(x, start, t0, e0, v, p, op.value, tr, er, right.next, right.value);
      SumIsExpression(t1);
      t, e := FindSums(x, start, t1, er, op.value.Compute(x.ops, v, right.value).value, right.next);
    }
  }

  lemma SumIsExpression(t: Tree)
    requires t.Binary? && t.op.Additive() && IsExpression(t.left) && AllSpace(t.space) && IsTerm(t.right)
    ensures IsExpression(t)
  {
  }

  /** White space may be added to what follows a tree. */
  lemma FoundEnds<N>(x: Parser<N>, start: nat, t: Tree, e: nat, next: nat, v: N)
    requires Found(x, start, t, e, next, v)
    ensures start <= e <= next <= |x.text| && AllSpace(x.text[e..x.Skip(next)]) && next <= x.Skip(next) <= |x.text|
    ensures Found(x, start, t, e, x.Skip(next), v)
  {
    SpaceOn(x, e, next);
  }

  lemma UnfoldSums<N>(x: Parser<N>, v: N, p: nat)
    requires p <= |x.text| && x.Sums(v, p).Done?
    ensures
      var q := x.Skip(p);
      p <= q <= |x.text| &&
      if x.SumOperator(q).None? then x.Sums(v, p) == Done(v, q)
      else
        var op := x.SumOperator(q).value;
        && op.Additive() && x.At(q, op.Symbol()) && q + 1 <= |x.text|
        && x.Term(q + 1).Done? && q + 1 <= x.Term(q + 1).next <= |x.text|
        && op.Compute(x.ops, v, x.Term(q + 1).value).Ok?
        && x.Sums(v, p) == x.Sums(op.Compute(x.ops, v, x.Term(q + 1).value).value, x.Term(q + 1).next)
  {
    hide Parser.Skip, Parser.Term, Operator.Compute;
  }

  /** The tree of `left op right`, where the operator stands behind the white space after `left`. */
  lemma Joined<N>(x: Parser<N>, start: nat, t0: Tree, e0: nat, v: N, p: nat, op: Operator,
                  tr: Tree, er: nat, next: nat, w: N) returns (t: Tree)
    requires Found(x, start, t0, e0, p, v) && p <= |x.text| && x.At(x.Skip(p), op.Symbol())
    requires Found(x, x.Skip(p) + 1, tr, er, next, w) && op.Compute(x.ops, v, w).Ok?
    ensures t == Binary(t0, x.text[e0..x.Skip(p)], op, tr) && AllSpace(t.space)
    ensures Found(x, start, t, er, next, op.Compute(x.ops, v, w).value)
  {
    hide Parser.Skip, Operator.Compute, Operator.Symbol;
    FoundEnds(x, start, t0, e0, p, v);
    var q := x.Skip(p);
    t := Binary(t0, x.text[e0..q], op, tr);
    assert x.text[start..er] == x.text[start..e0] + x.text[e0..q] + [x.text[q]] + x.text[q + 1..er];
  }

  // ---------------------------------------------------------------- products

  lemma {:induction false} FindTerm<N>(x: Parser<N>, p: nat) returns (t: Tree, e: nat)
    requires p <= |x.text| && x.Term(p).Done?
    ensures IsTerm(t) && Found(x, p, t, e, x.Term(p).next, x.Term(p).value)
    decreases |x.text| - p, 4
  {
    hide *;
    UnfoldTerm(x, p);
    t, e := FindUnary(x, p);
    UnariesAreTerms(t);
    t, e := FindProducts(x, p, t, e, x.Unary(p).value, x.Unary(p).next);
  }

  lemma UnariesAreTerms(t: Tree)
    requires IsUnary(t)
    ensures IsTerm(t)
  {
  }

  lemma UnfoldTerm<N>(x: Parser<N>, p: nat)
    requires p <= |x.text| && x.Term(p).Done?
    ensures x.Unary(p).Done? && p <= x.Unary(p).next <= |x.text|
    ensures x.Term(p) == x.Products(x.Unary(p).value, x.Unary(p).next)
  {
    hide Parser.Unary, Parser.Products;
  }

  lemma {:induction false} FindProducts<N>(x: Parser<N>, start: nat, t0: Tree, e0: nat, v: N, p: nat)
    returns (t: Tree, e: nat)
    requires p <= |x.text| && start <= p && IsTerm(t0) && Found(x, start, t0, e0, p, v) && x.Products(v, p).Done?
    ensures IsTerm(t) && Found(x, start, t, e, x.Products(v, p).next, x.Products(v, p).value)
    decreases |x.text| - p, 3
  {
    hide *;
    FoundEnds(x, start, t0, e0, p, v);
    UnfoldProducts(x, v, p);
    var q := x.Skip(p);
    var op := x.ProductOperator(q);
    if op.None? {
      t, e := t0, e0;
    } else {
      var right := x.Unary(q + 1);
      var tr, er := FindUnary(x, q + 1);
      var t1 := Joined(x, start, t0, e0, v, p, op.value, tr, er, right.next, right.value);
      ProductIsTerm(t1);
      t, e := FindProducts(x, start, t1, er, op.value.Compute(x.ops, v, right.value).value, right.next);
    }
  }

  lemma ProductIsTerm(t: Tree)
    requires t.Binary? && !t.op.Additive() && IsTerm(t.left) && AllSpace(t.space) && IsUnary(t.right)
    ensures IsTerm(t)
  {
  }

  lemma UnfoldProducts<N>(x: Parser<N>, v: N, p: nat)
    requires p <= |x.text| && x.Products(v, p).Done?
    ensures
      var q := x.Skip(p);
      p <= q <= |x.text| &&
      if x.ProductOperator(q).None? then x.Products(v, p) == Done(v, q)
      else
        var op := x.ProductOperator(q).value;
        && !op.Additive() && x.At(q, op.Symbol()) && q + 1 <= |x.text|
        && x.Unary(q + 1).Done? && q + 1 <= x.Unary(q + 1).next <= |x.text|
        && op.Compute(x.ops, v, x.Unary(q + 1).value).Ok?
        && x.Products(v, p) == x.Products(op.Compute(x.ops, v, x.Unary(q + 1).value).value, x.Unary(q + 1).next)
  {
    hide Parser.Skip, Parser.Unary, Operator.Compute;
  }

  // ---------------------------------------------------------------- signs and primaries

  lemma {:induction false} FindUnary<N>(x: Parser<N>, p: nat) returns (t: Tree, e: nat)
    requires p <= |x.text| && x.Unary(p).Done?
    ensures IsUnary(t) && Found(x, p, t, e, x.Unary(p).next, x.Unary(p).value)
    decreases |x.text| - p, 2
  {
    hide *;
    UnfoldUnary(x, p);
    var q := x.Skip(p);
    if x.At(q, '+') || x.At(q, '-') {
      var operand, e1 := FindUnary(x, q + 1);
      e := e1;
      t := SignFound(x, p, operand, e, x.Unary(q + 1).next, x.Unary(q + 1).value);
    } else {
      t, e := FindPrimary(x, p);
      PrimariesAreUnaries(t);
    }
  }

  lemma PrimariesAreUnaries(t: Tree)
    requires IsPrimary(t)
    ensures IsUnary(t)
  {
  }

  lemma UnfoldUnary<N>(x: Parser<N>, p: nat)
    requires p <= |x.text| && x.Unary(p).Done?
    ensures p <= x.Skip(p) <= |x.text|
    ensures x.At(x.Skip(p), '+') || x.At(x.Skip(p), '-') ==>
      && x.Skip(p) + 1 <= |x.text| && x.Unary(x.Skip(p) + 1).Done?
      && x.Unary(p).next == x.Unary(x.Skip(p) + 1).next
      && x.Unary(p).value ==
        (if x.At(x.Skip(p), '-') then x.ops.apply(Negate, x.Unary(x.Skip(p) + 1).value)
         else x.Unary(x.Skip(p) + 1).value)
    ensures !x.At(x.Skip(p), '+') && !x.At(x.Skip(p), '-') ==> x.Unary(p) == x.Primary(p)
  {
    hide Parser.Skip, Parser.Primary;
    x.SkipTwice(p);
    PrimarySkips(x, p);
  }

  lemma PrimarySkips<N>(x: Parser<N>, p: nat)
    requires p <= |x.text|
    ensures x.Primary(x.Skip(p)) == x.Primary(p)
  {
    x.SkipTwice(p);
    hide Parser.Skip, Parser.Expression, Parser.Named, Parser.Number;
  }

  lemma SignFound<N>(x: Parser<N>, p: nat, operand: Tree, e: nat, next: nat, v: N) returns (t: Tree)
    requires p <= |x.text| && (x.At(x.Skip(p), '+') || x.At(x.Skip(p), '-'))
    requires IsUnary(operand) && Found(x, x.Skip(p) + 1, operand, e, next, v)
    ensures IsUnary(t) && Found(x, p, t, e, next, if x.At(x.Skip(p), '-') then x.ops.apply(Negate, v) else v)
  {
    hide Parser.Skip, IsSpace;
    SkipsOnlySpace(x, p);
    var q := x.Skip(p);
    t := Signed(x.text[p..q], x.At(q, '-'), operand);
    SignText(x, p, q, e, t);
  }

  lemma SignText<N>(x: Parser<N>, p: nat, q: nat, e: nat, t: Tree)
    requires p <= q < e <= |x.text| && t.Signed? && x.text[q] == (if t.negative then '-' else '+')
    requires t.space == x.text[p..q] && Text(t.operand) == x.text[q + 1..e]
    ensures Text(t) == x.text[p..e]
  {
    assert x.text[p..e] == x.text[p..q] + [x.text[q]] + x.text[q + 1..e];
  }

  lemma {:induction false} FindPrimary<N>(x: Parser<N>, p: nat) returns (t: Tree, e: nat)
    requires p <= |x.text| && x.Primary(p).Done?
    ensures IsPrimary(t) && Found(x, p, t, e, x.Primary(p).next, x.Primary(p).value)
    decreases |x.text| - p, 1
  {
    hide *;
    UnfoldPrimary(x, p);
    var q := x.Skip(p);
    if x.At(q, '(') {
      var inner, e1 := FindExpression(x, q + 1);
      t := ParenFound(x, p, inner, e1, x.Expression(q + 1).next, x.Expression(q + 1).value);
      e := x.Primary(p).next;
    } else if q < |x.text| && (IsDigit(x.text[q]) || x.text[q] == '.') {
      t := NumberFound(x, p);
      e := x.Primary(p).next;
    } else {
      UnfoldNamed(x, q);
      if !x.At(x.Skip(x.NameEnd(q)), '(') {
        t := InputFound(x, p);
        e := x.NameEnd(q);
      } else {
        var a := x.Skip(x.NameEnd(q)) + 1;
        var args := FindCall(x, a);
        SkipsOnlySpace(x, p);
        SkipsOnlySpace(x, x.NameEnd(q));
        NameIsName(x, q);
        t := CallFound(x, p, q, x.NameEnd(q), args, x.Call(a).next, x.Call(a).value);
        e := x.Primary(p).next;
      }
    }
  }

  lemma UnfoldPrimary<N>(x: Parser<N>, p: nat)
    requires p <= |x.text| && x.Primary(p).Done?
    ensures
      var q := x.Skip(p);
      p <= q <= |x.text| &&
      if x.At(q, '(') then
        && q + 1 <= |x.text| && x.Expression(q + 1).Done? && x.Expression(q + 1).next <= |x.text|
        && x.At(x.Skip(x.Expression(q + 1).next), ')')
        && x.Primary(p) == Done(x.Expression(q + 1).value, x.Skip(x.Expression(q + 1).next) + 1)
      else if q < |x.text| && (IsDigit(x.text[q]) || x.text[q] == '.') then
        x.Primary(p) == x.Number(q)
      else
        x.Primary(p) == x.Named(q)
  {
    hide Parser.Skip, Parser.Expression, Parser.Number, Parser.Named;
  }

  lemma UnfoldNamed<N>(x: Parser<N>, q: nat)
    requires q <= |x.text| && x.Named(q).Done?
    ensures
      var e := x.NameEnd(q);
      q < e <= |x.text| && e <= x.Skip(e) <= |x.text| &&
      if !x.At(x.Skip(e), '(') then
        x.text[q..e] in x.inputs && x.Named(q) == Done(x.inputs[x.text[q..e]], x.Skip(e))
      else
        && x.Skip(e) + 1 <= |x.text| && x.Call(x.Skip(e) + 1).Done?
        && x.ops.Apply(x.text[q..e], x.Call(x.Skip(e) + 1).value).Ok?
        && x.Named(q) == Done(x.ops.Apply(x.text[q..e], x.Call(x.Skip(e) + 1).value).value, x.Call(x.Skip(e) + 1).next)
  {
    hide Parser.Skip, Parser.NameEnd, Parser.Call, Arithmetic.Apply;
  }

  lemma ParenFound<N>(x: Parser<N>, p: nat, inner: Tree, e1: nat, next: nat, v: N) returns (t: Tree)
    requires p <= |x.text| && x.At(x.Skip(p), '(') && IsExpression(inner)
    requires Found(x, x.Skip(p) + 1, inner, e1, next, v) && next <= |x.text| && x.At(x.Skip(next), ')')
    ensures IsPrimary(t) && Found(x, p, t, x.Skip(next) + 1, x.Skip(next) + 1, v)
  {
    SkipsOnlySpace(x, p);
    FoundEnds(x, x.Skip(p) + 1, inner, e1, next, v);
    t := Paren(x.text[p..x.Skip(p)], inner, x.text[e1..x.Skip(next)]);
    ParenText(x, p, x.Skip(p), e1, x.Skip(next), t);
    hide Parser.Skip;
  }

  lemma ParenText<N>(x: Parser<N>, p: nat, q: nat, e1: nat, s: nat, t: Tree)
    requires p <= q < e1 <= s < |x.text| && x.text[q] == '(' && x.text[s] == ')'
    requires t.Paren? && t.space == x.text[p..q] && t.closing == x.text[e1..s] && Text(t.inner) == x.text[q + 1..e1]
    ensures Text(t) == x.text[p..s + 1]
  {
    assert x.text[p..s + 1] == x.text[p..q] + [x.text[q]] + x.text[q + 1..e1] + x.text[e1..s] + [x.text[s]];
  }

  lemma NumberFound<N>(x: Parser<N>, p: nat) returns (t: Tree)
    requires p <= |x.text| && x.Skip(p) < |x.text| && (IsDigit(x.text[x.Skip(p)]) || x.text[x.Skip(p)] == '.')
    requires x.Number(x.Skip(p)).Done?
    ensures IsPrimary(t)
    ensures Found(x, p, t, x.Number(x.Skip(p)).next, x.Number(x.Skip(p)).next, x.Number(x.Skip(p)).value)
  {
    hide Parser.Skip, Parser.Number, NumberLength, IsNumeral, IsSpace, IsDigit;
    SkipsOnlySpace(x, p);
    var q := x.Skip(p);
    var n := LiteralRead(x, q);
    t := Number(x.text[p..q], x.text[q..q + n]);
    assert x.text[p..q + n] == x.text[p..q] + x.text[q..q + n];
  }

  lemma LiteralRead<N>(x: Parser<N>, q: nat) returns (n: nat)
    requires q < |x.text| && (IsDigit(x.text[q]) || x.text[q] == '.') && x.Number(q).Done?
    ensures q + n == x.Number(q).next <= |x.text| && IsNumeral(x.text[q..q + n])
    ensures x.ops.number(x.text[q..q + n]) == Some(x.Number(q).value)
  {
    hide NumberLength, IsNumeral;
    n := NumberLength(x.text[q..]);
    NumeralPrefix(x.text[q..]);
    assert x.text[q..][..n] == x.text[q..q + n];
  }

  lemma NameIsName<N>(x: Parser<N>, q: nat)
    requires q < |x.text| && q < x.NameEnd(q) <= |x.text| && !IsDigit(x.text[q])
    ensures IsName(x.text[q..x.NameEnd(q)])
  {
    NameOnly(x, q);
  }

  lemma InputFound<N>(x: Parser<N>, p: nat) returns (t: Tree)
    requires p <= |x.text| && x.Skip(p) < |x.text| && x.Skip(p) < x.NameEnd(x.Skip(p)) <= |x.text|
    requires !IsDigit(x.text[x.Skip(p)]) && x.text[x.Skip(p)..x.NameEnd(x.Skip(p))] in x.inputs
    ensures IsPrimary(t)
    ensures Found(x, p, t, x.NameEnd(x.Skip(p)), x.Skip(x.NameEnd(x.Skip(p))),
        x.inputs[x.text[x.Skip(p)..x.NameEnd(x.Skip(p))]])
  {
    SkipsOnlySpace(x, p);
    NameIsName(x, x.Skip(p));
    var q, e := x.Skip(p), x.NameEnd(x.Skip(p));
    SkipsOnlySpace(x, e);
    hide Parser.Skip, Parser.NameEnd;
    t := Input(x.text[p..q], x.text[q..e]);
    assert x.text[p..e] == x.text[p..q] + x.text[q..e];
  }

  lemma CallFound<N>(x: Parser<N>, p: nat, q: nat, e: nat, args: Args, next: nat, vs: seq<N>) returns (t: Tree)
    requires p <= q < e <= |x.text| && AllSpace(x.text[p..q]) && IsName(x.text[q..e])
    requires e <= x.Skip(e) && AllSpace(x.text[e..x.Skip(e)]) && x.At(x.Skip(e), '(')
    requires FoundArgs(x, x.Skip(e) + 1, args, next, vs) && x.ops.Apply(x.text[q..e], vs).Ok?
    ensures IsPrimary(t) && Found(x, p, t, next, next, x.ops.Apply(x.text[q..e], vs).value)
  {
    hide Parser.Skip, Arithmetic.Apply, IsName, Text, ArgsText, ArgValues;
    var s := x.Skip(e);
    t := Function(x.text[p..q], x.text[q..e], x.text[e..s], args);
    CallText(x, p, q, e, s, next, t);
    FunctionValue(x.ops, x.inputs, t);
  }

  lemma CallText<N>(x: Parser<N>, p: nat, q: nat, e: nat, s: nat, next: nat, t: Tree)
    requires p <= q <= e <= s < next <= |x.text| && x.text[s] == '('
    requires t.Function? && t.space == x.text[p..q] && t.name == x.text[q..e] && t.opening == x.text[e..s]
    requires ArgsText(t.args) == x.text[s + 1..next]
    ensures Text(t) == x.text[p..next]
  {
    assert x.text[p..next] == x.text[p..q] + x.text[q..e] + x.text[e..s] + [x.text[s]] + x.text[s + 1..next];
  }

  // ---------------------------------------------------------------- arguments

  ghost predicate FoundArgs<N>(x: Parser<N>, p: nat, args: Args, next: nat, vs: seq<N>) {
    && p + |ArgsText(args)| == next <= |x.text|
    && x.text[p..next] == ArgsText(args)
    && AreArgs(args)
    && ArgValues(x.ops, x.inputs, args) == Ok(vs)
  }

  lemma {:induction false} FindCall<N>(x: Parser<N>, p: nat) returns (args: Args)
    requires p <= |x.text| && x.Call(p).Done?
    ensures FoundArgs(x, p, args, x.Call(p).next, x.Call(p).value)
    decreases |x.text| - p, 8
  {
    SkipsOnlySpace(x, p);
    ArgumentsSkip(x, p);
    hide Parser.Skip, Parser.Arguments;
    var s := x.Skip(p);
    if x.At(s, ')') {
      args := NoArgs(x.text[p..s]);
      assert x.text[p..s + 1] == x.text[p..s] + [x.text[s]];
    } else {
      var vs;
      args, vs := FindArguments(x, [], p);
      assert [] + vs == vs;
    }
  }

  lemma {:induction false} FindArguments<N>(x: Parser<N>, sofar: seq<N>, p: nat) returns (args: Args, vs: seq<N>)
    requires p <= |x.text| && x.Arguments(sofar, p).Done?
    ensures !args.NoArgs? && FoundArgs(x, p, args, x.Arguments(sofar, p).next, vs)
    ensures x.Arguments(sofar, p).value == sofar + vs
    decreases |x.text| - p, 7
  {
    hide *;
    UnfoldArguments(x, sofar, p);
    var first := x.Expression(p);
    var arg, e := FindExpression(x, p);
    if x.At(x.Skip(first.next), ',') {
      var rest, ws := FindArguments(x, sofar + [first.value], x.Skip(first.next) + 1);
      args := MoreFound(x, p, arg, e, first.next, first.value, rest, x.Arguments(sofar, p).next, ws);
      vs := [first.value] + ws;
      Associate(sofar, first.value, ws);
    } else {
      args := LastFound(x, p, arg, e, first.next, first.value);
      vs := [first.value];
    }
  }

  lemma Associate<N>(a: seq<N>, b: N, c: seq<N>)
    ensures a + [b] + c == a + ([b] + c)
  {
  }

  lemma UnfoldArguments<N>(x: Parser<N>, sofar: seq<N>, p: nat)
    requires p <= |x.text| && x.Arguments(sofar, p).Done?
    ensures x.Expression(p).Done? && p <= x.Expression(p).next <= |x.text|
    ensures
      var first := x.Expression(p);
      var s := x.Skip(first.next);
      first.next <= s <= |x.text| &&
      if x.At(s, ',') then
        s + 1 <= |x.text| && x.Arguments(sofar, p) == x.Arguments(sofar + [first.value], s + 1)
      else
        x.At(s, ')') && x.Arguments(sofar, p) == Done(sofar + [first.value], s + 1)
  {
    hide Parser.Skip, Parser.Expression;
  }

  lemma MoreFound<N>(x: Parser<N>, p: nat, arg: Tree, e: nat, next: nat, v: N, rest: Args, last: nat, ws: seq<N>)
    returns (args: Args)
    requires IsExpression(arg) && Found(x, p, arg, e, next, v) && next <= |x.text| && x.At(x.Skip(next), ',')
    requires !rest.NoArgs? && FoundArgs(x, x.Skip(next) + 1, rest, last, ws)
    ensures !args.NoArgs? && FoundArgs(x, p, args, last, [v] + ws)
  {
    FoundEnds(x, p, arg, e, next, v);
    hide Parser.Skip;
    var s := x.Skip(next);
    args := More(arg, x.text[e..s], rest);
    assert x.text[p..last] == x.text[p..e] + x.text[e..s] + [x.text[s]] + x.text[s + 1..last];
  }

  lemma LastFound<N>(x: Parser<N>, p: nat, arg: Tree, e: nat, next: nat, v: N) returns (args: Args)
    requires IsExpression(arg) && Found(x, p, arg, e, next, v) && next <= |x.text| && x.At(x.Skip(next), ')')
    ensures !args.NoArgs? && FoundArgs(x, p, args, x.Skip(next) + 1, [v])
  {
    FoundEnds(x, p, arg, e, next, v);
    hide Parser.Skip;
    var s := x.Skip(next);
    args := Last(arg, x.text[e..s]);
    assert x.text[p..s + 1] == x.text[p..e] + x.text[e..s] + [x.text[s]];
  }

  // ---------------------------------------------------------------- the evaluator's contract

  /** `text` is a layout of tree `t`. */
  ghost predicate LaysOut(text: string, t: Tree) {
    IsExpression(t) && Text(t) <= text && AllSpace(text[|Text(t)|..])
  }

  /** For every text, number type and inputs: the evaluator returns `v` if and only if the text is a
      layout of a well-formed tree whose value is `v`, and `v` is finite. */
  lemma AcceptsExactlyTheTrees<N>(ops: Arithmetic<N>, inputs: map<string, N>, text: string, v: N)
    ensures Parser(ops, inputs, text).Evaluate() == Ok(v) <==>
      ops.isFinite(v) && exists t :: LaysOut(text, t) && Value(ops, inputs, t) == Ok(v)
  {
    hide Parser.Expression, Value;
    var x := Parser(ops, inputs, text);
    if x.Evaluate() == Ok(v) {
      var next := x.Expression(0).next;
      var t, e := FindExpression(x, 0);
      assert text[0..e] == text[..e];
      FoundEnds(x, 0, t, e, next, v);
      assert LaysOut(text, t);
    }
    if ops.isFinite(v) && exists t :: LaysOut(text, t) && Value(ops, inputs, t) == Ok(v) {
      var t :| LaysOut(text, t) && Value(ops, inputs, t) == Ok(v);
      LayoutEvaluates(ops, inputs, t, text[|Text(t)|..]);
      assert Text(t) + text[|Text(t)|..] == text;
    }
  }

  /** A text that is a layout of some tree is a layout of trees of one value only. */
  lemma LayoutsAgree<N>(ops: Arithmetic<N>, inputs: map<string, N>, text: string, t1: Tree, t2: Tree)
    requires LaysOut(text, t1) && LaysOut(text, t2)
    ensures Finished(ops, Value(ops, inputs, t1)) == Finished(ops, Value(ops, inputs, t2))
  {
    hide Value;
    LayoutEvaluates(ops, inputs, t1, text[|Text(t1)|..]);
    LayoutEvaluates(ops, inputs, t2, text[|Text(t2)|..]);
    assert Text(t1) + text[|Text(t1)|..] == text == Text(t2) + text[|Text(t2)|..];
  }

  // ---------------------------------------------------------------- minimal parentheses

  /** Expressions without layout. */
  datatype Formula =
    | Constant(literal: string)
    | Variable(name: string)
    | Sign(negative: bool, operand: Formula)
    | Operation(op: Operator, left: Formula, right: Formula)
    | Apply(name: string, args: seq<Formula>)

  predicate WellNamed(f: Formula) {
    match f
    case Constant(literal) => IsNumeral(literal)
    case Variable(name) => IsName(name)
    case Sign(_, operand) => WellNamed(operand)
    case Operation(_, left, right) => WellNamed(left) && WellNamed(right)
    case Apply(name, args) => IsName(name) && forall a | a in args :: WellNamed(a)
  }

  function Meaning<N>(ops: Arithmetic<N>, inputs: map<string, N>, f: Formula): Result<N> {
    match f
    case Constant(literal) =>
      var v := ops.number(literal);
      if v.None? then Err(BadNumber) else Ok(v.value)
    case Variable(name) => if name in inputs then Ok(inputs[name]) else Err(UnknownInput(name))
    case Sign(negative, operand) =>
      var v := Meaning(ops, inputs, operand);
      if v.Ok? && negative then Ok(ops.apply(Negate, v.value)) else v
    case Operation(op, left, right) =>
      var l := Meaning(ops, inputs, left);
      if l.Err? then l
      else
        var r := Meaning(ops, inputs, right);
        if r.Err? then r else op.Compute(ops, l.value, r.value)
    case Apply(name, args) =>
      var vs := Meanings(ops, inputs, args);
      if vs.Err? then Err(vs.error) else ops.Apply(name, vs.value)
  }

  function Meanings<N>(ops: Arithmetic<N>, inputs: map<string, N>, args: seq<Formula>): Result<seq<N>> {
    if args == [] then Ok([])
    else Prepend(Meaning(ops, inputs, args[0]), Meanings(ops, inputs, args[1..]))
  }

  /** Binding strength: 0 for sums, 1 for products, 2 for signs, 3 for the rest. */
  function Strength(f: Formula): nat {
    match f
    case Operation(op, _, _) => if op.Additive() then 0 else 1
    case Sign(_, _) => 2
    case _ => 3
  }

  /** The layout without white space that puts parentheses only where the context binds tighter than `f`:
      a left operand may be as weak as its operator, a right operand must be stronger. */
  function Minimal(f: Formula, context: nat): Tree
    decreases f, 1
  {
    if Strength(f) < context then Paren("", Bare(f), "") else Bare(f)
  }

  function Bare(f: Formula): Tree
    decreases f, 0
  {
    match f
    case Constant(literal) => Number("", literal)
    case Variable(name) => Input("", name)
    case Sign(negative, operand) => Signed("", negative, Minimal(operand, 2))
    case Operation(op, left, right) =>
      Binary(Minimal(left, Strength(f)), "", op, Minimal(right, Strength(f) + 1))
    case Apply(name, args) => Function("", name, "", MinimalArgs(args))
  }

  function MinimalArgs(args: seq<Formula>): Args {
    if args == [] then NoArgs("")
    else if |args| == 1 then Last(Minimal(args[0], 0), "")
    else More(Minimal(args[0], 0), "", MinimalArgs(args[1..]))
  }

  predicate AtStrength(t: Tree, strength: nat) {
    if strength == 0 then IsExpression(t) else if strength == 1 then IsTerm(t)
    else if strength == 2 then IsUnary(t) else IsPrimary(t)
  }

  lemma Weaken(t: Tree, strong: nat, weak: nat)
    requires AtStrength(t, strong) && weak <= strong <= 3
    ensures AtStrength(t, weak)
  {
    if strong == 3 { PrimariesAreUnaries(t); }
    if strong >= 2 && weak <= 1 { UnariesAreTerms(t); }
    if weak == 0 && strong >= 1 { TermsAreExpressions(t); }
  }

  lemma {:induction false} MinimalIsWellFormed<N>(ops: Arithmetic<N>, inputs: map<string, N>, f: Formula, context: nat)
    requires WellNamed(f) && context <= 3
    ensures AtStrength(Minimal(f, context), context)
    ensures Value(ops, inputs, Minimal(f, context)) == Meaning(ops, inputs, f)
    decreases f, 1
  {
    BareIsWellFormed(ops, inputs, f);
    if Strength(f) < context {
      Weaken(Bare(f), Strength(f), 0);
      Weaken(Minimal(f, context), 3, context);
    } else {
      Weaken(Bare(f), Strength(f), context);
    }
  }

  lemma {:induction false} BareIsWellFormed<N>(ops: Arithmetic<N>, inputs: map<string, N>, f: Formula)
    requires WellNamed(f)
    ensures AtStrength(Bare(f), Strength(f))
    ensures Value(ops, inputs, Bare(f)) == Meaning(ops, inputs, f)
    decreases f, 0
  {
    match f
    case Constant(_) =>
    case Variable(_) =>
    case Sign(_, operand) => MinimalIsWellFormed(ops, inputs, operand, 2);
    case Operation(_, left, right) =>
      MinimalIsWellFormed(ops, inputs, left, Strength(f));
      MinimalIsWellFormed(ops, inputs, right, Strength(f) + 1);
    case Apply(_, args) => MinimalArgsAreWellFormed(ops, inputs, args);
  }

  lemma {:induction false} MinimalArgsAreWellFormed<N>(ops: Arithmetic<N>, inputs: map<string, N>, args: seq<Formula>)
    requires forall a | a in args :: WellNamed(a)
    ensures AreArgs(MinimalArgs(args)) && ArgValues(ops, inputs, MinimalArgs(args)) == Meanings(ops, inputs, args)
    decreases args
  {
    if args != [] {
      MinimalIsWellFormed(ops, inputs, args[0], 0);
      if |args| > 1 { MinimalArgsAreWellFormed(ops, inputs, args[1..]); }
      ArgValuesUnfold(ops, inputs, MinimalArgs(args));
    }
  }

  /** Printing with minimal parentheses and evaluating gives the meaning: left association, precedence and
      signs are respected, all text is consumed, and it fails exactly when the meaning is an error (or is
      not finite). */
  lemma PrintedFormulaEvaluates<N>(ops: Arithmetic<N>, inputs: map<string, N>, f: Formula)
    requires WellNamed(f)
    ensures Parser(ops, inputs, Text(Minimal(f, 0))).Evaluate() == Finished(ops, Meaning(ops, inputs, f))
  {
    hide Value, Meaning, Minimal;
    var t := Minimal(f, 0);
    MinimalIsWellFormed(ops, inputs, f, 0);
    LayoutEvaluates(ops, inputs, t, "");
    assert Text(t) + "" == Text(t);
  }
}
