/** The CAN decoder element stands for the intended program. */
module CanCompile {
  import opened Bytes
  import opened Xml
  import opened Decimal
  import opened Decoders
  import opened Expressions
  import opened SieXml
  import opened Descriptors
  import opened Can

  // ----- The offset expressions -----

  function Scaled(w: nat, v: string): seq<Token> {
    [Symbol('('), Number(w), Symbol('*'), Name(v), Symbol(')')]
  }

  predicate IsVariable(v: string) {
    v != "" && forall i :: 0 <= i < |v| ==> IsLetter(v[i])
  }

  /** The text of (w * $v), nested to the right. */
  function ScaledText(w: string, v: string, rest: string): string {
    "(" + (w + (" " + ("*" + (" " + ("$" + (v + (")" + rest)))))))
  }

  function PlusText(rest: string): string {
    " " + ("+" + (" " + rest))
  }

  function ConsAll(ts: seq<Token>, more: Option<seq<Token>>): Option<seq<Token>> {
    if more.Some? then Some(ts + more.value) else None
  }

  lemma LexScaled(w: nat, v: string, rest: string)
    requires IsVariable(v)
    ensures Lex(ScaledText(ToDecimal(w), v, rest)) == ConsAll(Scaled(w, v), Lex(rest))
  {
    var t4 := ")" + rest;
    var t3 := "$" + (v + t4);
    var t2 := " " + ("*" + (" " + t3));
    LexSymbol(')', rest);
    LexName(v, t4);
    LexOperator('*', t3);
    LexNumber(w, t2);
    LexSymbol('(', ToDecimal(w) + t2);
    if Lex(rest).Some? {
      FiveTokens(Symbol('('), Number(w), Symbol('*'), Name(v), Symbol(')'), Lex(rest).value);
    }
  }

  lemma FiveTokens(a: Token, b: Token, c: Token, d: Token, e: Token, r: seq<Token>)
    ensures [a] + ([b] + ([c] + ([d] + ([e] + r)))) == [a, b, c, d, e] + r
  {
  }

  /** A sum: number + (w * $v) + ... */
  lemma LexPlus(rest: string)
    ensures Lex(PlusText(rest)) == Cons(Symbol('+'), Lex(rest))
  {
    LexOperator('+', rest);
  }

  lemma ParseScaled(w: nat, v: string, ts: seq<Token>, rest: seq<Token>)
    requires ts == Scaled(w, v) + rest
    ensures ParseOperand(ts) == Some((Mul(Num(w), Var(v)), rest))
  {
    var t1, t2, t3, t4 := ts[1..], ts[2..], ts[3..], ts[4..];
    assert t1[1..] == t2 && t2[1..] == t3 && t3[1..] == t4 && t4[1..] == rest;
    assert t1[0] == Number(w) && t2[0] == Symbol('*') && t3[0] == Name(v) && t4[0] == Symbol(')');
    assert ParseOperand(t1) == Some((Num(w), t2));
    assert ParseOperand(t3) == Some((Var(v), t4));
    assert MoreFactors(Mul(Num(w), Var(v)), t4) == Some((Mul(Num(w), Var(v)), t4));
    assert MoreFactors(Num(w), t2) == Some((Mul(Num(w), Var(v)), t4));
    assert ParseProduct(t1) == Some((Mul(Num(w), Var(v)), t4));
    assert MoreTerms(Mul(Num(w), Var(v)), t4) == Some((Mul(Num(w), Var(v)), t4));
    assert ParseSum(t1) == Some((Mul(Num(w), Var(v)), t4));
  }

  lemma AddScaled(left: Expr, w: nat, v: string, ts: seq<Token>, rest: seq<Token>)
    requires ts == [Symbol('+')] + (Scaled(w, v) + rest)
    requires rest == [] || rest[0] == Symbol('+')
    ensures MoreTerms(left, ts) == MoreTerms(Add(left, Mul(Num(w), Var(v))), rest)
  {
    assert ts[1..] == Scaled(w, v) + rest;
    ParseScaled(w, v, ts[1..], rest);
    assert ParseProduct(ts[1..]) == Some((Mul(Num(w), Var(v)), rest));
  }

  lemma ParseLeading(a: nat, ts: seq<Token>, rest: seq<Token>)
    requires ts == [Number(a)] + rest && rest != [] && rest[0] == Symbol('+')
    ensures ParseSum(ts) == MoreTerms(Num(a), rest)
  {
    assert ts[1..] == rest;
    assert ParseOperand(ts) == Some((Num(a), rest));
    assert ParseProduct(ts) == Some((Num(a), rest));
  }

  lemma ScaledShape(w: string, rest: string)
    ensures PlusText(ScaledText(w, "n", rest)) == " + (" + w + " * $n)" + rest
    ensures PlusText(ScaledText(w, "i", rest)) == " + (" + w + " * $i)" + rest
  {
    assert " + (" == " " + ("+" + (" " + "("));
    assert " * $n)" == " " + ("*" + (" " + ("$" + ("n" + ")"))));
    assert " * $i)" == " " + ("*" + (" " + ("$" + ("i" + ")"))));
  }

  lemma NextShape(a: string, w: string)
    ensures "{" + (a + PlusText(ScaledText(w, "i", ""))) + "}" == "{" + a + " + (" + w + " * $i)}"
  {
    ScaledShape(w, "");
    assert " * $i)}" == " * $i)" + "}";
  }

  lemma NextOffsetValue(width: nat)
    ensures ParseValue(NextOffsetText(width)) == Some(NextOffset(width))
  {
    var a := 4 + width;
    var scaled := ScaledText(ToDecimal(width), "i", "");
    var inner := ToDecimal(a) + PlusText(scaled);
    LexScaled(width, "i", "");
    LexPlus(scaled);
    LexNumber(a, PlusText(scaled));
    var ts := [Number(a)] + ([Symbol('+')] + (Scaled(width, "i") + []));
    assert Scaled(width, "i") + [] == Scaled(width, "i");
    assert Lex(inner) == Some(ts);
    ParseLeading(a, ts, [Symbol('+')] + (Scaled(width, "i") + []));
    AddScaled(Num(a), width, "i", [Symbol('+')] + (Scaled(width, "i") + []), []);
    Braced(inner, ts, NextOffset(width));
    NextShape(ToDecimal(a), ToDecimal(width));
  }

  lemma MessageShape(a: string, w: string)
    ensures "{" + (a + PlusText(ScaledText(w, "n", PlusText(ScaledText("69", "i", ""))))) + "}"
         == "{" + a + " + (" + w + " * $n) + (69 * $i)}"
  {
    ScaledShape("69", "");
    assert PlusText(ScaledText("69", "i", "")) == " + (69 * $i)";
    ScaledShape(w, " + (69 * $i)");
    assert " * $n) + (69 * $i)}" == " * $n)" + " + (69 * $i)" + "}";
  }

  lemma MessageOffsetValue(width: nat)
    ensures ParseValue(MessageOffsetText(width)) == Some(MessageOffset(width))
  {
    assert ToDecimal(MESSAGE) == "69";
    var second := ScaledText("69", "i", "");
    var first := ScaledText(ToDecimal(width), "n", PlusText(second));
    var inner := ToDecimal(4) + PlusText(first);
    LexScaled(MESSAGE, "i", "");
    LexPlus(second);
    LexScaled(width, "n", PlusText(second));
    LexPlus(first);
    LexNumber(4, PlusText(first));
    var rest := [Symbol('+')] + (Scaled(MESSAGE, "i") + []);
    var tail := [Symbol('+')] + (Scaled(width, "n") + rest);
    assert Scaled(MESSAGE, "i") + [] == Scaled(MESSAGE, "i");
    assert Lex(inner) == Some([Number(4)] + tail);
    ParseLeading(4, [Number(4)] + tail, tail);
    AddScaled(Num(4), width, "n", tail, rest);
    AddScaled(Add(Num(4), Mul(Num(width), Var("n"))), MESSAGE, "i", rest, []);
    Braced(inner, [Number(4)] + tail, MessageOffset(width));
    MessageShape(ToDecimal(4), ToDecimal(width));
  }

  // ----- The elements -----

  lemma CompileField(f: DataDescriptor, k: nat, native: Endian)
    requires GoodField(f)
    ensures Compile(FieldElement(f, k, native)) == Some(FieldStmt(f, k, native))
  {
    hide Compile;
    if IsRawField(f) {
      CompileRawRead(Variable(k), f.dimensions.value[0].size);
    } else {
      CompileTypedRead(Variable(k), SieReadType(f.sampleType).value.0, SieReadType(f.sampleType).value.1, native);
    }
  }

  lemma {:induction false} CompileFields(fields: seq<DataDescriptor>, k: nat, native: Endian)
    requires GoodFields(fields)
    ensures CompileAll(FieldElements(fields, k, native)) == Some(FieldStmts(fields, k, native))
    decreases |fields|
  {
    hide FieldElement, FieldStmt, Compile;
    if fields != [] {
      CompileField(fields[0], k, native);
      CompileFields(fields[1..], k + 1, native);
      CompileCons(FieldElement(fields[0], k, native), FieldElements(fields[1..], k + 1, native));
    }
  }

  lemma CompilePair(a: Element, b: Element)
    requires Compile(a).Some? && Compile(b).Some?
    ensures CompileAll([a, b]) == Some([Compile(a).value, Compile(b).value])
  {
    CompileCons(a, [b]);
    CompileCons(b, []);
    assert [a] + [b] == [a, b] && [b] + [] == [b];
    assert [Compile(b).value] + [] == [Compile(b).value];
    assert [Compile(a).value] + [Compile(b).value] == [Compile(a).value, Compile(b).value];
  }

  lemma CompileBody(kind: string, bits: nat, fields: seq<DataDescriptor>, native: Endian)
    requires GoodFields(fields) && KindOf(kind).Some?
    ensures var body := CompileAll(LoopChildren(kind, bits, fields, native));
            body.Some? && IsBody(body.value, KindOf(kind).value, bits, fields, native)
  {
    var first := [ReadElement("v0", kind, bits, native), SeekElement("start", MessageOffsetText(bits / 8))];
    var last := [SampleElement(), SeekElement("start", NextOffsetText(bits / 8))];
    CompileTypedRead("v0", kind, bits, native);
    MessageOffsetValue(bits / 8);
    NextOffsetValue(bits / 8);
    CompileSeek(MessageOffsetText(bits / 8));
    CompileSeek(NextOffsetText(bits / 8));
    CompilePair(first[0], first[1]);
    CompilePair(last[0], last[1]);
    CompileFields(fields, 1, native);
    CompileConcat(first, FieldElements(fields, 1, native));
    CompileConcat(first + FieldElements(fields, 1, native), last);
  }

  lemma EndValue()
    ensures ParseValue("{$n}") == Some(Var("n"))
  {
    LexName("n", "");
    assert "$" + ("n" + "") == "$n" && "{" + "$n" + "}" == "{$n}";
    assert [Name("n")] + [] == [Name("n")];
    var ts := [Name("n")];
    assert ts[1..] == [];
    assert ParseOperand(ts) == Some((Var("n"), []));
    assert ParseProduct(ts) == Some((Var("n"), []));
    Braced("$n", ts, Var("n"));
  }

  lemma LoopParts(e: Element, body: seq<Stmt>)
    requires e.name == "loop"
    requires e.attributes == [Attribute("var", "i"), Attribute("start", "0"), Attribute("end", "{$n}")]
    requires CompileAll(e.children) == Some(body)
    ensures Compile(e) == Some(Loop(Some("i"), Num(0), Num(1), Some(Var("n")), body))
  {
    AttributeFound(e.attributes, 0, "var");
    AttributeFound(e.attributes, 1, "start");
    AttributeFound(e.attributes, 2, "end");
    AttributeMissing(e.attributes, "increment");
    NumberValue(0);
    assert ToSigned(0) == "0";
    EndValue();
  }

  lemma {:induction false} DecoderCompiles(id: nat, kind: string, bits: nat, fields: seq<DataDescriptor>,
                                           native: Endian)
    requires GoodFields(fields) && KindOf(kind).Some?
    ensures var p := Program(Decoder(id, kind, bits, fields, native));
            p.Some? && IsProgram(p.value, KindOf(kind).value, bits, fields, native)
  {
    var first, second := ReadElement("n", "uint", 32, native), LoopElement(kind, bits, fields, native);
    CompileBody(kind, bits, fields, native);
    LoopParts(second, CompileAll(second.children).value);
    CompileTypedRead("n", "uint", 32, native);
    CompilePair(first, second);
    assert Decoder(id, kind, bits, fields, native).children == [first, second];
  }
}
