/** Characters and number literals of math expressions.

    `NumberLength` is how much text std::stod consumes at the start of a string whose first character is
    a digit or a point: the longest decimal or hexadecimal floating literal, 0 if there is none.
 */
module Numerals {

  predicate IsSpace(c: char) { c == ' ' || '\t' <= c <= '\r' }

  predicate IsDigit(c: char) { '0' <= c <= '9' }

  predicate IsHexDigit(c: char) { IsDigit(c) || 'a' <= c <= 'f' || 'A' <= c <= 'F' }

  predicate IsNameChar(c: char) { IsDigit(c) || 'a' <= c <= 'z' || 'A' <= c <= 'Z' || c == '_' }

  /** A character after which no number and no name goes on. */
  predicate Separates(c: char) { !IsNameChar(c) && c != '.' }

  predicate AllSpace(s: string) { forall i | 0 <= i < |s| :: IsSpace(s[i]) }

  datatype Class = Decimal | Hexadecimal

  predicate InClass(cls: Class, c: char) {
    if cls.Decimal? then IsDigit(c) else IsHexDigit(c)
  }

  predicate ExponentMark(cls: Class, c: char) {
    if cls.Decimal? then c == 'e' || c == 'E' else c == 'p' || c == 'P'
  }

  /** Length of the run of digits at the start. */
  function Span(cls: Class, s: string): (n: nat)
    ensures n <= |s|
  {
    if s != "" && InClass(cls, s[0]) then 1 + Span(cls, s[1..]) else 0
  }

  function MantissaLength(cls: Class, s: string): (n: nat)
    ensures n <= |s|
  {
    var i := Span(cls, s);
    if i < |s| && s[i] == '.' then
      var f := Span(cls, s[i + 1..]);
      if i + f == 0 then 0 else i + 1 + f
    else i
  }

  function ExponentLength(cls: Class, s: string): (n: nat)
    ensures n <= |s|
  {
    if s == "" || !ExponentMark(cls, s[0]) then 0
    else
      var j := if |s| > 1 && (s[1] == '+' || s[1] == '-') then 2 else 1;
      var d := Span(Decimal, s[j..]);
      if d == 0 then 0 else j + d
  }

  function FloatLength(cls: Class, s: string): (n: nat)
    ensures n <= |s|
  {
    var m := MantissaLength(cls, s);
    if m == 0 then 0 else m + ExponentLength(cls, s[m..])
  }

  function NumberLength(s: string): (n: nat)
    ensures n <= |s|
  {
    if |s| > 2 && s[0] == '0' && (s[1] == 'x' || s[1] == 'X') && FloatLength(Hexadecimal, s[2..]) > 0
    then 2 + FloatLength(Hexadecimal, s[2..])
    else FloatLength(Decimal, s)
  }

  /** A complete literal, as it may stand in an expression. */
  predicate IsNumeral(s: string) {
    s != "" && (IsDigit(s[0]) || s[0] == '.') && NumberLength(s) == |s|
  }

  predicate IsName(s: string) {
    s != "" && !IsDigit(s[0]) && forall i | 0 <= i < |s| :: IsNameChar(s[i])
  }

  // ---------------------------------------------------------------- maximal munch

  predicate Stops(rest: string) { rest == "" || Separates(rest[0]) }

  lemma {:induction false} SpanStops(cls: Class, s: string, rest: string)
    requires Stops(rest) || (rest[0] == '.')
    ensures Span(cls, s + rest) == Span(cls, s)
  {
    if s == "" {
      assert s + rest == rest;
    } else {
      assert (s + rest)[1..] == s[1..] + rest;
      SpanStops(cls, s[1..], rest);
    }
  }

  lemma MantissaStops(cls: Class, s: string, rest: string)
    requires Stops(rest)
    ensures MantissaLength(cls, s + rest) == MantissaLength(cls, s)
  {
    SpanStops(cls, s, rest);
    var i := Span(cls, s);
    if i < |s| {
      assert (s + rest)[i + 1..] == s[i + 1..] + rest;
      SpanStops(cls, s[i + 1..], rest);
    }
  }

  lemma ExponentStops(cls: Class, s: string, rest: string)
    requires Stops(rest) && ExponentLength(cls, s) == |s|
    ensures ExponentLength(cls, s + rest) == |s|
  {
    if s == "" {
      assert s + rest == rest;
    } else {
      var j := if |s| > 1 && (s[1] == '+' || s[1] == '-') then 2 else 1;
      assert (s + rest)[j..] == s[j..] + rest;
      SpanStops(Decimal, s[j..], rest);
    }
  }

  lemma FloatStops(cls: Class, s: string, rest: string)
    requires Stops(rest) && FloatLength(cls, s) == |s|
    ensures FloatLength(cls, s + rest) == |s|
  {
    MantissaStops(cls, s, rest);
    var m := MantissaLength(cls, s);
    if m > 0 {
      assert (s + rest)[m..] == s[m..] + rest;
      ExponentStops(cls, s[m..], rest);
    }
  }

  /** A literal in front of a separator is read exactly. */
  lemma NumeralStops(s: string, rest: string)
    requires IsNumeral(s) && Stops(rest)
    ensures NumberLength(s + rest) == |s|
  {
    if |s| > 2 && s[0] == '0' && (s[1] == 'x' || s[1] == 'X') && FloatLength(Hexadecimal, s[2..]) > 0 {
      assert (s + rest)[2..] == s[2..] + rest;
      FloatStops(Hexadecimal, s[2..], rest);
    } else {
      FloatStops(Decimal, s, rest);
      if |s| > 1 && s[0] == '0' && (s[1] == 'x' || s[1] == 'X') {
        HexPrefixIsNoDecimal(s);
      }
    }
  }

  lemma HexPrefixIsNoDecimal(s: string)
    requires |s| > 1 && s[0] == '0' && (s[1] == 'x' || s[1] == 'X')
    ensures FloatLength(Decimal, s) == 1
  {
    assert Span(Decimal, s[1..]) == 0;
    assert Span(Decimal, s) == 1;
    assert s[1..][0] == s[1];
  }

  // ---------------------------------------------------------------- what is read is a literal

  lemma {:induction false} SpanPrefix(cls: Class, s: string, n: nat)
    requires Span(cls, s) <= n <= |s|
    ensures Span(cls, s[..n]) == Span(cls, s)
  {
    if n > 0 && InClass(cls, s[0]) {
      assert s[..n][1..] == s[1..][..n - 1];
      SpanPrefix(cls, s[1..], n - 1);
    }
  }

  lemma MantissaPrefix(cls: Class, s: string, n: nat)
    requires MantissaLength(cls, s) <= n <= |s| && MantissaLength(cls, s) > 0
    ensures MantissaLength(cls, s[..n]) == MantissaLength(cls, s)
  {
    var i := Span(cls, s);
    SpanPrefix(cls, s, n);
    if i < n && s[i] == '.' {
      assert s[..n][i + 1..] == s[i + 1..][..n - i - 1];
      SpanPrefix(cls, s[i + 1..], n - i - 1);
    }
  }

  lemma ExponentPrefix(cls: Class, s: string)
    ensures ExponentLength(cls, s[..ExponentLength(cls, s)]) == ExponentLength(cls, s)
  {
    var n := ExponentLength(cls, s);
    if n > 0 {
      var j := if |s| > 1 && (s[1] == '+' || s[1] == '-') then 2 else 1;
      assert s[..n][j..] == s[j..][..n - j];
      SpanPrefix(Decimal, s[j..], n - j);
    }
  }

  lemma FloatPrefix(cls: Class, s: string)
    ensures FloatLength(cls, s[..FloatLength(cls, s)]) == FloatLength(cls, s)
  {
    var m, n := MantissaLength(cls, s), FloatLength(cls, s);
    if m > 0 {
      MantissaPrefix(cls, s, n);
      ExponentPrefix(cls, s[m..]);
      assert s[..n][m..] == s[m..][..n - m];
    }
  }

  /** The text a number was read from is a complete literal. */
  lemma NumeralPrefix(s: string)
    requires s != "" && (IsDigit(s[0]) || s[0] == '.') && NumberLength(s) > 0
    ensures IsNumeral(s[..NumberLength(s)])
  {
    var n := NumberLength(s);
    if |s| > 2 && s[0] == '0' && (s[1] == 'x' || s[1] == 'X') && FloatLength(Hexadecimal, s[2..]) > 0 {
      FloatPrefix(Hexadecimal, s[2..]);
      assert s[..n][2..] == s[2..][..n - 2];
    } else {
      FloatPrefix(Decimal, s);
      if |s| > 1 && s[0] == '0' && (s[1] == 'x' || s[1] == 'X') { HexPrefixIsNoDecimal(s); }
    }
  }
}
