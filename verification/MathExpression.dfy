/** The flow engine's expression evaluator: a recursive-descent parser that computes while it reads.

    `Parser` is the evaluator as functions over (text, position); the class `MathExpression` is the
    source's object with its advancing `position`, proved to compute exactly those functions.
    Arithmetic is a parameter (`Arithmetic`), so everything here holds for IEEE doubles too: no law of
    arithmetic is assumed.
 */
module MathExpression {
  import opened Numerals

  datatype Option<+T> = None | Some(value: T)

  datatype Error =
    | UnexpectedText
    | NotFinite
    | DivisionByZero
    | MissingClosing
    | BadNumber
    | ExpectedOperand
    | UnknownInput(name: string)
    | MissingAfterFunction
    | BadFunction(name: string)
    | NegativeSqrt

  datatype Result<+T> = Ok(value: T) | Err(error: Error)

  datatype Monadic = Abs | Sqrt | Floor | Ceil | Round | Negate
  datatype Dyadic = Plus | Minus | Times | Over | Remainder | Power
  datatype Constant = Zero | One | Ten

  /** What the number type offers; `number` is std::stod's value of a literal, None when out of range. */
  datatype Arithmetic<!N> = Arithmetic(
    number: string -> Option<N>,
    constant: Constant -> N,
    apply: (Monadic, N) -> N,
    combine: (Dyadic, N, N) -> N,
    less: (N, N) -> bool,
    isZero: N -> bool,
    isFinite: N -> bool)
  {
    /** std::max, std::min and the standard minimum and maximum searches. */
    function Max(a: N, b: N): N { if less(a, b) then b else a }

    function Min(a: N, b: N): N { if less(b, a) then b else a }

    function Smallest(best: N, rest: seq<N>): N {
      if rest == [] then best
      else Smallest(if less(rest[0], best) then rest[0] else best, rest[1..])
    }

    function Largest(best: N, rest: seq<N>): N {
      if rest == [] then best
      else Largest(if less(best, rest[0]) then rest[0] else best, rest[1..])
    }

    function Apply(name: string, a: seq<N>): Result<N> {
      if name == "abs" && |a| == 1 then Ok(apply(Abs, a[0]))
      else if name == "sqrt" && |a| == 1 then
        (if less(a[0], constant(Zero)) then Err(NegativeSqrt) else Ok(apply(Sqrt, a[0])))
      else if name == "floor" && |a| == 1 then Ok(apply(Floor, a[0]))
      else if name == "ceil" && |a| == 1 then Ok(apply(Ceil, a[0]))
      else if name == "pow" && |a| == 2 then Ok(combine(Power, a[0], a[1]))
      else if name == "clamp" && |a| == 3 then Ok(Max(a[1], Min(a[2], a[0])))
      else if name == "round" && (|a| == 1 || |a| == 2) then
        var scale := if |a| == 2 then combine(Power, constant(Ten), a[1]) else constant(One);
        Ok(combine(Over, apply(Round, combine(Times, a[0], scale)), scale))
      else if name == "min" && a != [] then Ok(Smallest(a[0], a[1..]))
      else if name == "max" && a != [] then Ok(Largest(a[0], a[1..]))
      else Err(BadFunction(name))
    }
  }

  datatype Operator = Add | Sub | Mul | Div | Mod
  {
    predicate Additive() { Add? || Sub? }

    function Symbol(): char {
      match this
      case Add => '+'
      case Sub => '-'
      case Mul => '*'
      case Div => '/'
      case Mod => '%'
    }

    function Compute<N>(ops: Arithmetic<N>, x: N, y: N): Result<N> {
      match this
      case Add => Ok(ops.combine(Plus, x, y))
      case Sub => Ok(ops.combine(Minus, x, y))
      case Mul => Ok(ops.combine(Times, x, y))
      case Div => if ops.isZero(y) then Err(DivisionByZero) else Ok(ops.combine(Over, x, y))
      case Mod => if ops.isZero(y) then Err(DivisionByZero) else Ok(ops.combine(Remainder, x, y))
    }
  }

  /** A value together with the position behind it, or the error that was thrown. */
  datatype Read<+T> = Done(value: T, next: nat) | Fail(error: Error)

  datatype Parser<!N> = Parser(ops: Arithmetic<N>, inputs: map<string, N>, text: string)
  {
    predicate At(p: nat, c: char) { p < |text| && text[p] == c }

    function Skip(p: nat): (q: nat)
      requires p <= |text|
      ensures p <= q <= |text|
      decreases |text| - p
    {
      if p < |text| && IsSpace(text[p]) then Skip(p + 1) else p
    }

    lemma {:induction false} SkipTwice(p: nat)
      requires p <= |text|
      ensures Skip(Skip(p)) == Skip(p)
      decreases |text| - p
    {
      if p < |text| && IsSpace(text[p]) { SkipTwice(p + 1); }
    }

    function NameEnd(p: nat): (q: nat)
      requires p <= |text|
      ensures p <= q <= |text|
      decreases |text| - p
    {
      if p < |text| && IsNameChar(text[p]) then NameEnd(p + 1) else p
    }

    function SumOperator(p: nat): Option<Operator> {
      if At(p, '+') then Some(Add) else if At(p, '-') then Some(Sub) else None
    }

    function ProductOperator(p: nat): Option<Operator> {
      if At(p, '*') then Some(Mul) else if At(p, '/') then Some(Div) else if At(p, '%') then Some(Mod) else None
    }

    function Expression(p: nat): (r: Read<N>)
      requires p <= |text|
      ensures r.Done? ==> p <= r.next <= |text|
      decreases |text| - p, 6
    {
      var first := Term(p);
      if first.Fail? then first else Sums(first.value, first.next)
    }

    function Sums(value: N, p: nat): (r: Read<N>)
      requires p <= |text|
      ensures r.Done? ==> p <= r.next <= |text|
      decreases |text| - p, 5
    {
      var q := Skip(p);
      var op := SumOperator(q);
      if op.None? then Done(value, q)
      else
        var right := Term(q + 1);
        if right.Fail? then right
        else
          var v := op.value.Compute(ops, value, right.value);
          if v.Err? then Fail(v.error) else Sums(v.value, right.next)
    }

    function Term(p: nat): (r: Read<N>)
      requires p <= |text|
      ensures r.Done? ==> p <= r.next <= |text|
      decreases |text| - p, 4
    {
      var first := Unary(p);
      if first.Fail? then first else Products(first.value, first.next)
    }

    function Products(value: N, p: nat): (r: Read<N>)
      requires p <= |text|
      ensures r.Done? ==> p <= r.next <= |text|
      decreases |text| - p, 3
    {
      var q := Skip(p);
      var op := ProductOperator(q);
      if op.None? then Done(value, q)
      else
        var right := Unary(q + 1);
        if right.Fail? then right
        else
          var v := op.value.Compute(ops, value, right.value);
          if v.Err? then Fail(v.error) else Products(v.value, right.next)
    }

    function Unary(p: nat): (r: Read<N>)
      requires p <= |text|
      ensures r.Done? ==> p <= r.next <= |text|
      decreases |text| - p, 2
    {
      var q := Skip(p);
      if At(q, '+') then Unary(q + 1)
      else if At(q, '-') then
        var r := Unary(q + 1);
        if r.Fail? then r else Done(ops.apply(Negate, r.value), r.next)
      else Primary(q)
    }

    function Primary(p: nat): (r: Read<N>)
      requires p <= |text|
      ensures r.Done? ==> p <= r.next <= |text|
      decreases |text| - p, 1
    {
      var q := Skip(p);
      if At(q, '(') then
        var inner := Expression(q + 1);
        if inner.Fail? then inner
        else
          var s := Skip(inner.next);
          if At(s, ')') then Done(inner.value, s + 1) else Fail(MissingClosing)
      else if q < |text| && (IsDigit(text[q]) || text[q] == '.') then Number(q)
      else Named(q)
    }

    /** An input, or a function with its arguments. */
    function Named(p: nat): (r: Read<N>)
      requires p <= |text|
      ensures r.Done? ==> p <= r.next <= |text|
      decreases |text| - p, 0
    {
      var e := NameEnd(p);
      if e == p then Fail(ExpectedOperand)
      else
        var name, s := text[p..e], Skip(e);
        if !At(s, '(') then
          if name in inputs then Done(inputs[name], s) else Fail(UnknownInput(name))
        else
          var args := Call(s + 1);
          if args.Fail? then Fail(args.error)
          else
            var v := ops.Apply(name, args.value);
            if v.Err? then Fail(v.error) else Done(v.value, args.next)
    }

    function Number(p: nat): (r: Read<N>)
      requires p < |text|
      ensures r.Done? ==> p <= r.next <= |text|
    {
      var n := NumberLength(text[p..]);
      var v := if n == 0 then None else Literal(p, n);
      if v.None? then Fail(BadNumber) else Done(v.value, p + n)
    }

    function Literal(p: nat, n: nat): Option<N>
      requires p + n <= |text|
    {
      ops.number(text[p..p + n])
    }

    /** Everything between the parentheses of a call, and the closing one. */
    function Call(p: nat): (r: Read<seq<N>>)
      requires p <= |text|
      ensures r.Done? ==> p <= r.next <= |text|
      decreases |text| - p, 8
    {
      var s := Skip(p);
      if At(s, ')') then Done([], s + 1) else Arguments([], s)
    }

    function Arguments(sofar: seq<N>, p: nat): (r: Read<seq<N>>)
      requires p <= |text|
      ensures r.Done? ==> p <= r.next <= |text|
      decreases |text| - p, 7
    {
      var arg := Expression(p);
      if arg.Fail? then Fail(arg.error)
      else
        var s := Skip(arg.next);
        if At(s, ',') then Arguments(sofar + [arg.value], s + 1)
        else if At(s, ')') then Done(sofar + [arg.value], s + 1)
        else Fail(MissingAfterFunction)
    }

    function Evaluate(): Result<N> {
      var r := Expression(0);
      if r.Fail? then Err(r.error)
      else if Skip(r.next) != |text| then Err(UnexpectedText)
      else if !ops.isFinite(r.value) then Err(NotFinite)
      else Ok(r.value)
    }
  }

  /** How a throwing member function returns, and where it leaves `position`. */
  ghost predicate Returns<T>(r: Result<T>, position: nat, spec: Read<T>) {
    match spec
    case Done(v, q) => r == Ok(v) && position == q
    case Fail(e) => r == Err(e)
  }

  class MathExpression<N> {
    const ops: Arithmetic<N>
    const variables: map<string, N>
    const text: string
    var position: nat

    constructor (ops: Arithmetic<N>, expression: string, variables: map<string, N>)
      ensures Spec() == Parser(ops, variables, expression)
    {
      this.ops, this.text, this.variables := ops, expression, variables;
      position := 0;
    }

    function Spec(): Parser<N> { Parser(ops, variables, text) }

    method Evaluate() returns (r: Result<N>)
      modifies this
      ensures r == Spec().Evaluate()
    {
      position := 0;
      r := Expression();
      if r.Err? { return; }
      Whitespace();
      if position != |text| { return Err(UnexpectedText); }
      if !ops.isFinite(r.value) { return Err(NotFinite); }
    }

    method Expression() returns (r: Result<N>)
      requires position <= |text|
      modifies this
      ensures position <= |text|
      ensures Returns(r, position, Spec().Expression(old(position)))
      decreases |text| - position, 6
    {
      hide Parser.Term, Parser.Skip, Operator.Compute;
      ghost var goal := Spec().Expression(position);
      r := Term();
      if r.Err? { return; }
      var value := r.value;
      ghost var start := old(position);
      while true
        invariant start <= position <= |text|
        invariant goal == Spec().Sums(value, position)
        decreases |text| - position
      {
        Whitespace();
        var op := TakeSumOperator();
        if op.None? { break; }
        r := Term();
        if r.Err? { return; }
        r := op.value.Compute(ops, value, r.value);
        if r.Err? { return; }
        value := r.value;
      }
      r := Ok(value);
    }

    method Term() returns (r: Result<N>)
      requires position <= |text|
      modifies this
      ensures position <= |text|
      ensures Returns(r, position, Spec().Term(old(position)))
      decreases |text| - position, 4
    {
      hide Parser.Unary, Parser.Skip, Operator.Compute;
      ghost var goal := Spec().Term(position);
      r := Unary();
      if r.Err? { return; }
      var value := r.value;
      ghost var start := old(position);
      while true
        invariant start <= position <= |text|
        invariant goal == Spec().Products(value, position)
        decreases |text| - position
      {
        Whitespace();
        var op := TakeProductOperator();
        if op.None? { break; }
        r := Unary();
        if r.Err? { return; }
        r := op.value.Compute(ops, value, r.value);
        if r.Err? { return; }
        value := r.value;
      }
      r := Ok(value);
    }

    method Unary() returns (r: Result<N>)
      requires position <= |text|
      modifies this
      ensures position <= |text|
      ensures Returns(r, position, Spec().Unary(old(position)))
      decreases |text| - position, 2
    {
      Whitespace();
      var taken := Take('+');
      if taken {
        r := Unary();
        return;
      }
      taken := Take('-');
      if taken {
        r := Unary();
        if r.Ok? { r := Ok(ops.apply(Negate, r.value)); }
        return;
      }
      r := Primary();
    }

    method Primary() returns (r: Result<N>)
      requires position <= |text|
      modifies this
      ensures position <= |text|
      ensures Returns(r, position, Spec().Primary(old(position)))
      decreases |text| - position, 1
    {
      hide Parser.Expression, Parser.Skip, Parser.Number, Parser.Named;
      Whitespace();
      var taken := Take('(');
      if taken {
        r := Expression();
        if r.Err? { return; }
        Whitespace();
        taken := Take(')');
        if !taken { r := Err(MissingClosing); }
        return;
      }
      if position < |text| && (IsDigit(text[position]) || text[position] == '.') {
        r := Number();
        return;
      }
      Spec().SkipTwice(old(position));
      r := Named();
    }

    method Number() returns (r: Result<N>)
      requires position < |text|
      modifies this
      ensures position <= |text|
      ensures Returns(r, position, Spec().Number(old(position)))
    {
      hide NumberLength;
      var used := NumberLength(text[position..]);
      if used == 0 { return Err(BadNumber); }
      var value := Spec().Literal(position, used);
      if value.None? { return Err(BadNumber); }
      position := position + used;
      r := Ok(value.value);
    }

    /** The rest of primary(): an input or a function call. */
    method Named() returns (r: Result<N>)
      requires position <= |text| && Spec().Skip(position) == position
      modifies this
      ensures position <= |text|
      ensures Returns(r, position, Spec().Named(old(position)))
      decreases |text| - position, 0
    {
      hide Parser.Skip, Parser.Call, Arithmetic.Apply;
      var name := Identifier();
      if name == "" { return Err(ExpectedOperand); }
      Whitespace();
      var taken := Take('(');
      if !taken {
        return if name in variables then Ok(variables[name]) else Err(UnknownInput(name));
      }
      var args := Arguments();
      if args.Err? { return Err(args.error); }
      r := ops.Apply(name, args.value);
    }

    method Arguments() returns (r: Result<seq<N>>)
      requires position <= |text|
      modifies this
      ensures position <= |text|
      ensures Returns(r, position, Spec().Call(old(position)))
      decreases |text| - position, 8
    {
      var args: seq<N> := [];
      ghost var goal := Spec().Call(position);
      Whitespace();
      var taken := Take(')');
      if taken { return Ok(args); }
      ghost var start := old(position);
      while true
        invariant start <= position <= |text|
        invariant goal == Spec().Arguments(args, position)
        decreases |text| - position
      {
        var arg := Expression();
        if arg.Err? { return Err(arg.error); }
        args := args + [arg.value];
        Whitespace();
        taken := Take(',');
        if !taken { break; }
      }
      taken := Take(')');
      r := if taken then Ok(args) else Err(MissingAfterFunction);
    }

    method Identifier() returns (name: string)
      requires position <= |text|
      modifies this
      ensures position == Spec().NameEnd(Spec().Skip(old(position)))
      ensures name == text[Spec().Skip(old(position))..position]
    {
      Whitespace();
      var start := position;
      while position < |text| && IsNameChar(text[position])
        invariant start <= position <= |text|
        invariant Spec().NameEnd(start) == Spec().NameEnd(position)
      {
        position := position + 1;
      }
      name := text[start..position];
    }

    method Whitespace()
      requires position <= |text|
      modifies this
      ensures position == Spec().Skip(old(position))
      ensures position <= |text|
    {
      while position < |text| && IsSpace(text[position])
        invariant position <= |text|
        invariant Spec().Skip(position) == Spec().Skip(old(position))
      {
        position := position + 1;
      }
    }

    /** The source's `if (take('+')) .. else if (take('-')) .. else break`. */
    method TakeSumOperator() returns (op: Option<Operator>)
      requires position <= |text|
      modifies this
      ensures op == Spec().SumOperator(old(position))
      ensures position == old(position) + (if op.Some? then 1 else 0) <= |text|
    {
      var taken := Take('+');
      if taken { return Some(Add); }
      taken := Take('-');
      return if taken then Some(Sub) else None;
    }

    method TakeProductOperator() returns (op: Option<Operator>)
      requires position <= |text|
      modifies this
      ensures op == Spec().ProductOperator(old(position))
      ensures position == old(position) + (if op.Some? then 1 else 0) <= |text|
    {
      var taken := Take('*');
      if taken { return Some(Mul); }
      taken := Take('/');
      if taken { return Some(Div); }
      taken := Take('%');
      return if taken then Some(Mod) else None;
    }

    method Take(c: char) returns (taken: bool)
      requires position <= |text|
      modifies this
      ensures taken == Spec().At(old(position), c)
      ensures position == old(position) + (if taken then 1 else 0) <= |text|
    {
      taken := position < |text| && text[position] == c;
      if taken { position := position + 1; }
    }
  }
}
