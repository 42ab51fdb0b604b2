/** The expressions in braces inside decoder attributes: numbers, $variables, + - * and parentheses. */
module Expressions {
  import opened Bytes
  import opened Decimal
  import opened Decoders

  datatype Token = Number(n: nat) | Name(name: string) | Symbol(c: char)

  predicate IsLetter(c: char) {
    'a' <= c <= 'z' || 'A' <= c <= 'Z' || c == '_' || IsDigit(c)
  }

  function DigitSpan(s: string): (n: nat)
    ensures n <= |s| && AllDigits(s[..n])
  {
    if s == "" || !IsDigit(s[0]) then 0 else 1 + DigitSpan(s[1..])
  }

  function LetterSpan(s: string): (n: nat)
    ensures n <= |s|
  {
    if s == "" || !IsLetter(s[0]) then 0 else 1 + LetterSpan(s[1..])
  }

  function Cons(t: Token, ts: Option<seq<Token>>): Option<seq<Token>> {
    if ts.Some? then Some([t] + ts.value) else None
  }

  function Lex(s: string): Option<seq<Token>>
    decreases |s|
  {
    if s == "" then Some([])
    else if s[0] == ' ' then Lex(s[1..])
    else if IsDigit(s[0]) then
      var n := DigitSpan(s);
      Cons(Number(DecimalValue(s[..n])), Lex(s[n..]))
    else if s[0] == '$' then
      var n := LetterSpan(s[1..]);
      if n == 0 then None else Cons(Name(s[1..][..n]), Lex(s[1..][n..]))
    else if s[0] in {'+', '-', '*', '(', ')'} then Cons(Symbol(s[0]), Lex(s[1..]))
    else None
  }

  type Parsed = Option<(Expr, seq<Token>)>

  /** A number, a variable, a negated operand or a parenthesized sum. */
  function ParseOperand(ts: seq<Token>): (r: Parsed)
    ensures r.Some? ==> |r.value.1| < |ts|
    decreases |ts|, 0
  {
    if ts == [] then None
    else if ts[0].Number? then Some((Num(ts[0].n), ts[1..]))
    else if ts[0].Name? then Some((Var(ts[0].name), ts[1..]))
    else if ts[0].c == '-' then
      var r := ParseOperand(ts[1..]);
      if r.None? then None
      else Some((if r.value.0.Num? then Num(-r.value.0.n) else Sub(Num(0), r.value.0), r.value.1))
    else if ts[0].c == '(' then
      var r := ParseSum(ts[1..]);
      if r.None? || r.value.1 == [] || r.value.1[0] != Symbol(')') then None else Some((r.value.0, r.value.1[1..]))
    else None
  }

  function ParseProduct(ts: seq<Token>): (r: Parsed)
    ensures r.Some? ==> |r.value.1| < |ts|
    decreases |ts|, 1
  {
    var r := ParseOperand(ts);
    if r.None? then None else MoreFactors(r.value.0, r.value.1)
  }

  function MoreFactors(left: Expr, ts: seq<Token>): (r: Parsed)
    ensures r.Some? ==> |r.value.1| <= |ts|
    decreases |ts|, 0
  {
    if ts == [] || ts[0] != Symbol('*') then Some((left, ts))
    else
      var r := ParseOperand(ts[1..]);
      if r.None? then None else MoreFactors(Mul(left, r.value.0), r.value.1)
  }

  function ParseSum(ts: seq<Token>): (r: Parsed)
    ensures r.Some? ==> |r.value.1| < |ts|
    decreases |ts|, 2
  {
    var r := ParseProduct(ts);
    if r.None? then None else MoreTerms(r.value.0, r.value.1)
  }

  function MoreTerms(left: Expr, ts: seq<Token>): (r: Parsed)
    ensures r.Some? ==> |r.value.1| <= |ts|
    decreases |ts|, 0
  {
    if ts == [] || (ts[0] != Symbol('+') && ts[0] != Symbol('-')) then Some((left, ts))
    else
      var r := ParseProduct(ts[1..]);
      if r.None? then None
      else MoreTerms(if ts[0] == Symbol('+') then Add(left, r.value.0) else Sub(left, r.value.0), r.value.1)
  }

  /** An attribute value: an expression in braces, or a plain number. */
  function ParseValue(s: string): Option<Expr> {
    if |s| >= 2 && s[0] == '{' && s[|s| - 1] == '}' then
      var ts := Lex(s[1..|s| - 1]);
      if ts.None? then None
      else
        var r := ParseSum(ts.value);
        if r.Some? && r.value.1 == [] then Some(r.value.0) else None
    else
      var n := ParseNumber(s);
      if n.Some? then Some(Num(n.value)) else None
  }

  // ----- Lexing piece by piece -----

  lemma {:induction false} DigitSpanConcat(a: string, rest: string)
    requires AllDigits(a) && (rest == "" || !IsDigit(rest[0]))
    ensures DigitSpan(a + rest) == |a|
  {
    if a == "" {
      assert a + rest == rest;
    } else {
      assert (a + rest)[1..] == a[1..] + rest;
      DigitSpanConcat(a[1..], rest);
    }
  }

  lemma {:induction false} LetterSpanConcat(a: string, rest: string)
    requires (forall i :: 0 <= i < |a| ==> IsLetter(a[i])) && (rest == "" || !IsLetter(rest[0]))
    ensures LetterSpan(a + rest) == |a|
  {
    if a == "" {
      assert a + rest == rest;
    } else {
      assert (a + rest)[1..] == a[1..] + rest;
      LetterSpanConcat(a[1..], rest);
    }
  }

  lemma Cut(a: string, b: string)
    ensures (a + b)[..|a|] == a && (a + b)[|a|..] == b
  {
  }

  lemma LexNumber(n: nat, rest: string)
    requires rest == "" || !IsDigit(rest[0])
    ensures Lex(ToDecimal(n) + rest) == Cons(Number(n), Lex(rest))
  {
    DigitSpanConcat(ToDecimal(n), rest);
    Cut(ToDecimal(n), rest);
    DecimalRoundTrip(n);
  }

  lemma {:induction false} LexName(name: string, rest: string)
    requires name != "" && (forall i :: 0 <= i < |name| ==> IsLetter(name[i])) && (rest == "" || !IsLetter(rest[0]))
    ensures Lex("$" + (name + rest)) == Cons(Name(name), Lex(rest))
  {
    LetterSpanConcat(name, rest);
    Cut(name, rest);
    assert ("$" + (name + rest))[1..] == name + rest;
  }

  lemma LexSymbol(c: char, rest: string)
    requires c in {'+', '-', '*', '(', ')'}
    ensures Lex([c] + rest) == Cons(Symbol(c), Lex(rest))
  {
    assert ([c] + rest)[1..] == rest;
  }

  lemma LexSpace(rest: string)
    ensures Lex(" " + rest) == Lex(rest)
  {
    assert (" " + rest)[1..] == rest;
  }

  /** An operator between blanks. */
  lemma LexOperator(c: char, rest: string)
    requires c in {'+', '-', '*'}
    ensures Lex(" " + ([c] + (" " + rest))) == Cons(Symbol(c), Lex(rest))
  {
    LexSpace([c] + (" " + rest));
    LexSymbol(c, " " + rest);
    LexSpace(rest);
  }

  lemma Braced(inner: string, ts: seq<Token>, e: Expr)
    requires Lex(inner) == Some(ts) && ParseSum(ts) == Some((e, []))
    ensures ParseValue("{" + inner + "}") == Some(e)
  {
    var s := "{" + inner + "}";
    assert s[1..|s| - 1] == inner;
  }
}
