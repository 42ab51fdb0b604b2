/** The handler for scalar signals with a linear-rule domain: the decoder it declares rebuilds the
    domain that is never written out. */
module ScalarLinear {
  import opened Bytes
  import opened Xml
  import opened Decimal
  import opened Decoders
  import opened Expressions
  import opened SieXml
  import opened Descriptors

  function Supports(value: Option<DataDescriptor>, domain: Option<DataDescriptor>): Support {
    if domain.None? then Throws
    else if domain.value.rule.None? || !domain.value.rule.value.LinearRule? then Unsupported
    else if value.None? then Throws
    else if value.value.rule != Some(ExplicitRule) then Unsupported
    else if !IsScalar(value.value.sampleType) then Unsupported
    else if value.value.dimensions.Some? && |value.value.dimensions.value| > 0 then Unsupported
    else Supported
  }

  // ----- The decoder -----

  function LoopElement(start: int, delta: int, kind: string, bits: nat, native: Endian): Element {
    New("loop").AddAttribute("var", "v0")
    .AddAttribute("start", "{$offset + " + ToSigned(start) + "}")
    .AddAttribute("increment", ToSigned(delta))
    .AddChild(ReadElement("v1", kind, bits, native))
    .AddChild(SampleElement())
  }

  function Decoder(id: nat, start: int, delta: int, kind: string, bits: nat, native: Endian): Element {
    DecoderElement(id)
    .AddChild(ReadElement("offset", "int", 64, native))
    .AddChild(LoopElement(start, delta, kind, bits, native))
  }

  /** The program the decoder element denotes. */
  predicate IsProgram(program: seq<Stmt>, start: int, delta: int, kind: Kind, bits: nat, native: Endian) {
    && |program| == 2
    && program[0] == Read("offset", Int, 64, native, None)
    && program[1].Loop?
    && program[1] == Loop(Some("v0"), Add(Var("offset"), Num(start)), Num(delta), None, program[1].body)
    && IsBody(program[1].body, kind, bits, native)
  }

  predicate IsBody(body: seq<Stmt>, kind: Kind, bits: nat, native: Endian) {
    && |body| == 2
    && body[0] == Read("v1", kind, bits, native, None)
    && body[1] == Sample
  }

  // ----- The expression in the loop start -----

  function StartTokens(start: int): seq<Token> {
    [Name("offset"), Symbol('+')] + SignedTokens(start)
  }

  function SignedTokens(n: int): seq<Token> {
    if n < 0 then [Symbol('-'), Number(-n)] else [Number(n)]
  }

  lemma LexSigned(n: int)
    ensures Lex(ToSigned(n)) == Some(SignedTokens(n))
  {
    var m: nat := if n < 0 then -n else n;
    LexNumber(m, "");
    assert ToDecimal(m) + "" == ToDecimal(m);
    assert [Number(m)] + [] == [Number(m)];
    LexSymbol('-', ToDecimal(m));
    assert [Symbol('-')] + [Number(m)] == [Symbol('-'), Number(m)];
  }

  lemma StartShape(number: string)
    ensures "$offset + " + number == "$" + ("offset" + (" " + ("+" + (" " + number))))
  {
    assert "$offset + " == "$" + ("offset" + (" " + ("+" + " ")));
  }

  lemma LexStart(start: int)
    ensures Lex("$offset + " + ToSigned(start)) == Some(StartTokens(start))
  {
    var number := ToSigned(start);
    StartShape(number);
    LexSigned(start);
    LexOperator('+', number);
    LexName("offset", " " + ("+" + (" " + number)));
    var ts := SignedTokens(start);
    assert [Name("offset")] + ([Symbol('+')] + ts) == StartTokens(start);
  }

  lemma ParseStart(ts: seq<Token>, start: int)
    requires ts == StartTokens(start)
    ensures ParseSum(ts) == Some((Add(Var("offset"), Num(start)), []))
  {
    var number := ts[2..];
    assert number == if start < 0 then [Symbol('-'), Number(-start)] else [Number(start)];
    if start < 0 {
      assert number[1..] == [Number(-start)];
      assert ParseOperand(number[1..]) == Some((Num(-start), []));
    }
    assert ParseOperand(number) == Some((Num(start), []));
    assert ParseProduct(number) == Some((Num(start), []));
    assert ts[1..][1..] == number;
    assert ParseOperand(ts) == Some((Var("offset"), ts[1..]));
    assert ParseProduct(ts) == Some((Var("offset"), ts[1..]));
    assert MoreTerms(Var("offset"), ts[1..]) == MoreTerms(Add(Var("offset"), Num(start)), []);
  }

  lemma StartValue(start: int)
    ensures ParseValue("{$offset + " + ToSigned(start) + "}") == Some(Add(Var("offset"), Num(start)))
  {
    LexStart(start);
    ParseStart(StartTokens(start), start);
    Braced("$offset + " + ToSigned(start), StartTokens(start), Add(Var("offset"), Num(start)));
    BracedShape(ToSigned(start));
  }

  lemma BracedShape(number: string)
    ensures "{" + ("$offset + " + number) + "}" == "{$offset + " + number + "}"
  {
    assert "{$offset + " == "{" + "$offset + ";
  }

  lemma CompileBody(kind: string, bits: nat, native: Endian)
    requires KindOf(kind).Some?
    ensures var body := CompileAll([ReadElement("v1", kind, bits, native), SampleElement()]);
            body.Some? && IsBody(body.value, KindOf(kind).value, bits, native)
  {
    CompileTypedRead("v1", kind, bits, native);
    CompileCons(ReadElement("v1", kind, bits, native), [SampleElement()]);
    CompileCons(SampleElement(), []);
    assert [ReadElement("v1", kind, bits, native)] + [SampleElement()]
           == [ReadElement("v1", kind, bits, native), SampleElement()];
    assert [SampleElement()] + [] == [SampleElement()];
  }

  lemma LoopParts(e: Element, from: string, start: int, delta: int, body: seq<Stmt>)
    requires e.name == "loop"
    requires e.attributes == [Attribute("var", "v0"), Attribute("start", from), Attribute("increment", ToSigned(delta))]
    requires ParseValue(from) == Some(Add(Var("offset"), Num(start)))
    requires CompileAll(e.children) == Some(body)
    ensures Compile(e) == Some(Loop(Some("v0"), Add(Var("offset"), Num(start)), Num(delta), None, body))
  {
    AttributeFound(e.attributes, 0, "var");
    AttributeFound(e.attributes, 1, "start");
    AttributeFound(e.attributes, 2, "increment");
    AttributeMissing(e.attributes, "end");
    NumberValue(delta);
  }

  lemma CompileLoop(start: int, delta: int, kind: string, bits: nat, native: Endian)
    requires KindOf(kind).Some?
    ensures var s := Compile(LoopElement(start, delta, kind, bits, native));
            && s.Some? && s.value.Loop?
            && s.value == Loop(Some("v0"), Add(Var("offset"), Num(start)), Num(delta), None, s.value.body)
            && IsBody(s.value.body, KindOf(kind).value, bits, native)
  {
    var e := LoopElement(start, delta, kind, bits, native);
    assert e.children == [ReadElement("v1", kind, bits, native), SampleElement()];
    StartValue(start);
    CompileBody(kind, bits, native);
    LoopParts(e, "{$offset + " + ToSigned(start) + "}", start, delta, CompileAll(e.children).value);
  }

  /** The decoder element that is written stands for the intended program. */
  lemma {:induction false} DecoderCompiles(id: nat, start: int, delta: int, kind: string, bits: nat, native: Endian)
    requires KindOf(kind).Some?
    ensures var p := Program(Decoder(id, start, delta, kind, bits, native));
            p.Some? && IsProgram(p.value, start, delta, KindOf(kind).value, bits, native)
  {
    var first, second := ReadElement("offset", "int", 64, native), LoopElement(start, delta, kind, bits, native);
    CompileTypedRead("offset", "int", 64, native);
    CompileLoop(start, delta, kind, bits, native);
    CompileCons(first, [second]);
    CompileCons(second, []);
    assert [first] + [second] == [first, second];
    assert [second] + [] == [second];
    assert Decoder(id, start, delta, kind, bits, native).children == [first, second];
  }

  // ----- Running it on the blocks that are written -----

  /** The payload of a data block: the packet's domain offset and the raw values. */
  function Payload(native: Endian, offset: int, raw: seq<Byte>): seq<Byte>
    requires IsInt64(offset)
  {
    Int64Bytes(native, offset) + raw
  }

  /** The samples a packet stands for: an implicit linear-rule domain next to each raw value. */
  function Samples(first: int, delta: int, kind: Kind, native: Endian, width: nat, raw: seq<Byte>): seq<seq<Value>>
    requires width > 0
    decreases |raw|
  {
    if |raw| < width then []
    else
      [[IntValue(first), Typed(kind, native, raw[..width])]]
      + Samples(first + delta, delta, kind, native, width, raw[width..])
  }

  lemma {:induction false} SamplesCount(first: int, delta: int, kind: Kind, native: Endian, width: nat,
                                        raw: seq<Byte>, n: nat)
    requires width > 0 && |raw| == n * width
    ensures |Samples(first, delta, kind, native, width, raw)| == n
    decreases n
  {
    if n > 0 {
      assert n * width == (n - 1) * width + width;
      SamplesCount(first + delta, delta, kind, native, width, raw[width..], n - 1);
    }
  }

  lemma SliceShift(raw: seq<Byte>, width: nat, from: nat, to: nat)
    requires width <= |raw| && from <= to <= |raw| - width
    ensures raw[width..][from..to] == raw[from + width..to + width]
  {
  }

  lemma OneFurther(i: nat, width: nat, delta: int)
    ensures (i + 1) * width == i * width + width >= width && (i + 1) * delta == i * delta + delta
  {
  }

  /** Sample i pairs the linear-rule domain value start + i * delta with the i-th raw value. */
  lemma {:induction false} SampleAt(first: int, delta: int, kind: Kind, native: Endian, width: nat, raw: seq<Byte>,
                                    i: nat)
    requires width > 0 && (i + 1) * width <= |raw|
    ensures 0 <= i * width <= (i + 1) * width
    ensures i < |Samples(first, delta, kind, native, width, raw)|
    ensures Samples(first, delta, kind, native, width, raw)[i]
         == [IntValue(first + i * delta), Typed(kind, native, raw[i * width..(i + 1) * width])]
    decreases i
  {
    hide Typed;
    OneFurther(i, width, delta);
    if i > 0 {
      OneFurther(i - 1, width, delta);
      SampleAt(first + delta, delta, kind, native, width, raw[width..], i - 1);
      SliceShift(raw, width, (i - 1) * width, i * width);
    }
  }

  // ----- One turn of the loop -----

  lemma {:induction false} BodyTurn(body: seq<Stmt>, kind: Kind, bits: nat, native: Endian, payload: seq<Byte>,
                                    m: Machine)
    requires IsBody(body, kind, bits, native) && bits in {8, 16, 32, 64}
    ensures ExecAll(body, payload, m) ==
            if m.pos + bits / 8 > |payload| then None
            else var vars := m.vars["v1" := Typed(kind, native, payload[m.pos..m.pos + bits / 8])];
                 Some(m.(pos := m.pos + bits / 8, vars := vars, samples := m.samples + [vars]))
  {
    assert body[0..] == body;
    ExecAllAt(body, 0, payload, m);
    ExecTypedRead(body[0], payload, m);
    if m.pos + bits / 8 <= |payload| {
      var next := m.(pos := m.pos + bits / 8,
                     vars := m.vars["v1" := Typed(kind, native, payload[m.pos..m.pos + bits / 8])]);
      SampleTurn(body, payload, next);
    }
  }

  lemma SampleTurn(body: seq<Stmt>, payload: seq<Byte>, m: Machine)
    requires |body| == 2 && body[1] == Sample
    ensures ExecAll(body[1..], payload, m) == Some(m.(samples := m.samples + [m.vars]))
  {
    ExecAllAt(body, 1, payload, m);
    ExecEnd(body, payload, m.(samples := m.samples + [m.vars]));
  }

  lemma WholeValues(n: nat, width: nat)
    requires width in {1, 2, 4, 8}
    ensures n == 0 ==> n % width == 0
    ensures 0 < n < width ==> n % width != 0
    ensures n >= width ==> n % width == (n - width) % width
  {
  }

  /** The rows the loop adds to the samples, and whether it accepts the rest of the payload. */
  lemma CutAt(payload: seq<Byte>, pos: nat, width: nat)
    requires pos + width <= |payload|
    ensures payload[pos..][..width] == payload[pos..pos + width] && payload[pos..][width..] == payload[pos + width..]
  {
  }

  lemma {:induction false} ScalarLoop(body: seq<Stmt>, kind: Kind, bits: nat, native: Endian, payload: seq<Byte>,
                                      i: int, delta: int, m: Machine)
    requires IsBody(body, kind, bits, native) && bits in {8, 16, 32, 64} && m.pos <= |payload|
    ensures var r := Iterate(Some("v0"), i, delta, None, body, payload, m);
            && (r.Some? <==> (|payload| - m.pos) % (bits / 8) == 0)
            && (r.Some? ==>
                  && m.samples <= r.value.samples
                  && Rows(r.value.samples[|m.samples|..], ["v0", "v1"])
                     == Some(Samples(i, delta, kind, native, bits / 8, payload[m.pos..])))
    decreases |payload| - m.pos
  {
    hide ExecAll, IsBody, Typed;
    var width := bits / 8;
    var entered := Enter(Some("v0"), i, m);
    BodyTurn(body, kind, bits, native, payload, entered);
    WholeValues(|payload| - m.pos, width);
    var r := Iterate(Some("v0"), i, delta, None, body, payload, m);
    if m.pos >= |payload| {
      assert r == Some(m);
      assert m.samples[|m.samples|..] == [] && payload[m.pos..] == [];
    } else if m.pos + width <= |payload| {
      var next := ExecAll(body, payload, entered).value;
      ScalarLoop(body, kind, bits, native, payload, i + delta, delta, next);
      assert next.pos == m.pos + width;
      CutAt(payload, m.pos, width);
      if r.Some? {
        RowsStep(m.samples, next.vars, r.value.samples, i, Typed(kind, native, payload[m.pos..m.pos + width]));
      }
    }
  }

  lemma RowsStep(before: seq<map<string, Value>>, sample: map<string, Value>, after: seq<map<string, Value>>, i: int,
                 v: Value)
    requires before + [sample] <= after
    requires "v0" in sample && "v1" in sample && sample["v0"] == IntValue(i) && sample["v1"] == v
    ensures before <= after
    ensures Rows(after[|before|..], ["v0", "v1"])
         == var rest := Rows(after[|before| + 1..], ["v0", "v1"]);
            if rest.None? then None else Some([[IntValue(i), v]] + rest.value)
  {
    assert after[|before|..][0] == sample && after[|before|..][1..] == after[|before| + 1..];
    assert ["v0", "v1"][1..] == ["v1"] && ["v1"][1..] == [];
    assert [v] + [] == [v] && [IntValue(i)] + [v] == [IntValue(i), v];
    assert Row(sample, ["v1"][1..]) == Some([]);
    assert Row(sample, ["v1"]) == Some([v]);
    assert Row(sample, ["v0", "v1"]) == Some([IntValue(i), v]);
  }

  // ----- The decoder as a whole -----

  lemma HeadTurn(program: seq<Stmt>, start: int, delta: int, kind: Kind, bits: nat, native: Endian, offset: int,
                 payload: seq<Byte>) returns (m: Machine)
    requires IsProgram(program, start, delta, kind, bits, native)
    requires |payload| >= 8 && Signed(Decode(native, payload[0..8]), 8) == offset
    ensures RunDecoder(program, payload) == Iterate(Some("v0"), offset
            + start, delta, None, program[1].body, payload, m)
    ensures m.pos == 8 && m.samples == []
  {
    assert program[0..] == program && program[2..] == [];
    m := Machine(8, map["offset" := IntValue(offset)], [], []);
    assert Exec(program[0], payload, START) == Some(m);
    ExecAllAt(program, 0, payload, START);
    ExecAllAt(program, 1, payload, m);
    assert Eval(Add(Var("offset"), Num(start)), m.vars) == Some(offset + start);
  }

  lemma CorrectAfterHead(body: seq<Stmt>, kind: Kind, bits: nat, native: Endian, payload: seq<Byte>, raw: seq<Byte>,
                         first: int, delta: int, m: Machine)
    requires IsBody(body, kind, bits, native) && bits in {8, 16, 32, 64}
    requires m.pos == 8 && m.samples == [] && |payload| == 8 + |raw| && payload[8..] == raw
    ensures var r := Iterate(Some("v0"), first, delta, None, body, payload, m);
            && (r.Some? <==> |raw| % (bits / 8) == 0)
            && (r.Some? ==>
                      Rows(r.value.samples, ["v0", "v1"])
                      == Some(Samples(first, delta, kind, native, bits / 8, raw)))
  {
    ScalarLoop(body, kind, bits, native, payload, first, delta, m);
    var r := Iterate(Some("v0"), first, delta, None, body, payload, m);
    if r.Some? {
      assert r.value.samples[0..] == r.value.samples;
    }
  }

  lemma PayloadParts(native: Endian, offset: int, raw: seq<Byte>)
    requires IsInt64(offset)
    ensures var payload := Payload(native, offset, raw);
            |payload| == 8 + |raw| && payload[8..] == raw && Signed(Decode(native, payload[0..8]), 8) == offset
  {
    Int64RoundTrip(native, offset);
    assert Payload(native, offset, raw)[0..8] == Int64Bytes(native, offset);
  }

  lemma RunFromHead(program: seq<Stmt>, start: int, delta: int, kind: Kind, bits: nat, native: Endian,
                    offset: int, raw: seq<Byte>, payload: seq<Byte>)
    requires IsProgram(program, start, delta, kind, bits, native) && bits in {8, 16, 32, 64}
    requires |payload| == 8 + |raw| && payload[8..] == raw && Signed(Decode(native, payload[0..8]), 8) == offset
    ensures var r := RunDecoder(program, payload);
            && (r.Some? <==> |raw| % (bits / 8) == 0)
            && (r.Some? ==> Rows(r.value.samples, ["v0", "v1"])
                            == Some(Samples(offset + start, delta, kind, native, bits / 8, raw)))
  {
    var m := HeadTurn(program, start, delta, kind, bits, native, offset, payload);
    CorrectAfterHead(program[1].body, kind, bits, native, payload, raw, offset + start, delta, m);
  }

  /** The declared decoder run on a data block yields exactly the packet's samples; it accepts the
      block if and only if the raw data consists of whole values. */
  lemma {:induction false} DecoderIsCorrect(program: seq<Stmt>, start: int, delta: int, kind: Kind, bits: nat,
                                            native: Endian, offset: int, raw: seq<Byte>, payload: seq<Byte>)
    requires IsProgram(program, start, delta, kind, bits, native) && bits in {8, 16, 32, 64}
    requires IsInt64(offset) && payload == Payload(native, offset, raw)
    ensures var r := RunDecoder(program, payload);
            && (r.Some? <==> |raw| % (bits / 8) == 0)
            && (r.Some? ==> Rows(r.value.samples, ["v0", "v1"])
                            == Some(Samples(offset + start, delta, kind, native, bits / 8, raw)))
  {
    PayloadParts(native, offset, raw);
    RunFromHead(program, start, delta, kind, bits, native, offset, raw, payload);
  }
}
