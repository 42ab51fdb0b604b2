/** The two decoders of the preamble: what their elements compile to, and what the index decoder reads. */
module FormatDecoders {
  import opened Bytes
  import opened BlockLayer
  import opened IndexLayer
  import opened IndexAgreement
  import opened Xml
  import opened Decimal
  import opened Expressions
  import opened Decoders
  import opened SieXml
  import opened StreamDecoder
  import opened Format

  // ----- Compiling the reads -----

  lemma BitsValues()
    ensures ParseValue("32") == Some(Num(32)) && ParseValue("64") == Some(Num(64))
  {
    assert ToSigned(32) == ToDecimal(3) + ['2'] == "32";
    assert ToSigned(64) == ToDecimal(6) + ['4'] == "64";
    NumberValue(32);
    NumberValue(64);
  }

  lemma ReadParts(e: Element, v: string, bits: nat, expected: Option<Expr>)
    requires e.name == "read"
    requires AttributeOf(e.attributes, "var") == Some(v) && AttributeOf(e.attributes, "type") == Some("uint")
    requires ValueOf(e, "bits") == Some(Num(bits)) && AttributeOf(e.attributes, "endian") == Some("big")
    requires OptionalValue(e, "value") == Some(expected)
    ensures Compile(e) == Some(Read(v, UInt, bits, Big, expected))
  {
  }

  lemma CompileUInt(v: string, text: string, bits: nat)
    requires ParseValue(text) == Some(Num(bits))
    ensures Compile(UIntRead(v, text)) == Some(Read(v, UInt, bits, Big, None))
  {
    var e := UIntRead(v, text);
    assert e.attributes == [Attribute("var", v), Attribute("bits", text), Attribute("type", "uint"),
                            Attribute("endian", "big")];
    AttributeFound(e.attributes, 0, "var");
    AttributeFound(e.attributes, 1, "bits");
    AttributeFound(e.attributes, 2, "type");
    AttributeFound(e.attributes, 3, "endian");
    AttributeMissing(e.attributes, "value");
    ReadParts(e, v, bits, None);
  }

  /** A read that has to find a given value. */
  lemma CompileChecked(v: string, value: string, expected: Expr)
    requires ParseValue("32") == Some(Num(32)) && ParseValue(value) == Some(expected)
    ensures Compile(CheckedRead(v, value)) == Some(Read(v, UInt, 32, Big, Some(expected)))
  {
    hide ParseValue, Compile;
    var e := CheckedRead(v, value);
    assert e.attributes == [Attribute("var", v), Attribute("bits", "32"), Attribute("type", "uint"),
                            Attribute("endian", "big"), Attribute("value", value)];
    AttributeFound(e.attributes, 0, "var");
    AttributeFound(e.attributes, 1, "bits");
    AttributeFound(e.attributes, 2, "type");
    AttributeFound(e.attributes, 3, "endian");
    AttributeFound(e.attributes, 4, "value");
    ReadParts(e, v, 32, Some(expected));
  }

  // ----- The expressions -----

  lemma SyncValue()
    ensures ParseValue("0x51EDA7A0") == Some(Num(SYNC_WORD))
  {
    var s := "51EDA7A0";
    assert "0x51EDA7A0"[2..] == s;
    assert s[..7] == "51EDA7A" && s[..7][..6] == "51EDA7" && s[..7][..6][..5] == "51EDA";
    assert ParseHex("51ED") == Some(0x51ED) by {
      assert "51ED"[..3] == "51E" && "51E"[..2] == "51" && "51"[..1] == "5" && "5"[..0] == "";
      assert ParseHex("5") == Some(5);
      assert ParseHex("51") == Some(0x51);
      assert ParseHex("51E") == Some(0x51E);
    }
    assert "51EDA"[..4] == "51ED";
    assert ParseHex("51EDA") == Some(0x51EDA);
    assert "51EDA7"[..5] == "51EDA";
    assert ParseHex("51EDA7") == Some(0x51EDA7);
    assert ParseHex("51EDA7A") == Some(0x51EDA7A);
    assert ParseHex(s) == Some(0x51EDA7A0);
  }

  lemma VariableValue(name: string)
    requires name != "" && forall i :: 0 <= i < |name| ==> IsLetter(name[i])
    ensures ParseValue("{" + ("$" + name) + "}") == Some(Var(name))
  {
    LexName(name, "");
    assert name + "" == name;
    var ts := [Name(name)];
    assert ts[1..] == [];
    assert [Name(name)] + [] == ts;
    assert ParseOperand(ts) == Some((Var(name), []));
    assert ParseProduct(ts) == Some((Var(name), []));
    Braced("$" + name, ts, Var(name));
  }

  lemma {:induction false} LexDifference(name: string, number: nat)
    requires name != "" && forall i :: 0 <= i < |name| ==> IsLetter(name[i])
    ensures Lex("$" + (name + (" " + ("-" + (" " + ToDecimal(number))))))
            == Some([Name(name), Symbol('-'), Number(number)])
  {
    LexNumber(number, "");
    assert ToDecimal(number) + "" == ToDecimal(number);
    assert [Number(number)] + [] == [Number(number)];
    LexOperator('-', ToDecimal(number));
    LexName(name, " " + ("-" + (" " + ToDecimal(number))));
    assert [Name(name)] + ([Symbol('-')] + [Number(number)]) == [Name(name), Symbol('-'), Number(number)];
  }

  lemma ParseDifference(ts: seq<Token>, name: string, number: nat)
    requires ts == [Name(name), Symbol('-'), Number(number)]
    ensures ParseSum(ts) == Some((Sub(Var(name), Num(number)), []))
  {
    var tail := ts[1..][1..];
    assert tail == [Number(number)] && tail[1..] == [];
    assert ParseOperand(tail) == Some((Num(number), []));
    assert ParseProduct(tail) == Some((Num(number), []));
    assert ParseOperand(ts) == Some((Var(name), ts[1..]));
    assert ParseProduct(ts) == Some((Var(name), ts[1..]));
    assert MoreTerms(Var(name), ts[1..]) == MoreTerms(Sub(Var(name), Num(number)), []);
  }

  lemma DifferenceValue(name: string, number: nat, text: string)
    requires name != "" && forall i :: 0 <= i < |name| ==> IsLetter(name[i])
    requires text == "{" + ("$" + (name + (" " + ("-" + (" " + ToDecimal(number)))))) + "}"
    ensures ParseValue(text) == Some(Sub(Var(name), Num(number)))
  {
    var ts := [Name(name), Symbol('-'), Number(number)];
    LexDifference(name, number);
    ParseDifference(ts, name, number);
    Braced("$" + (name + (" " + ("-" + (" " + ToDecimal(number))))), ts, Sub(Var(name), Num(number)));
  }

  lemma PayloadSizeValue()
    ensures ParseValue("{$size - 20}") == Some(Sub(Var("size"), Num(20)))
  {
    assert ToDecimal(20) == ToDecimal(2) + ['0'] == "20";
    assert "{$size - 20}" == "{" + ("$" + ("size" + (" " + ("-" + (" " + "20"))))) + "}";
    DifferenceValue("size", 20, "{$size - 20}");
  }

  lemma RawParts(e: Element, v: string, octets: string, size: Expr, group: string, destination: Expr)
    requires e.name == "read" && AttributeOf(e.attributes, "var") == Some(v)
    requires AttributeOf(e.attributes, "type") == Some("raw")
    requires AttributeOf(e.attributes, "octets") == Some(octets) && ParseValue(octets) == Some(size)
    requires AttributeOf(e.attributes, "group") == Some(group) && ParseValue(group) == Some(destination)
    ensures Compile(e) == Some(ReadRaw(v, size, Some(destination)))
  {
  }

  lemma PayloadAttributes(a: seq<Attribute>, octets: string, group: string)
    requires a == [Attribute("var", "payload"), Attribute("octets", octets), Attribute("type", "raw"),
                   Attribute("group", group)]
    ensures AttributeOf(a, "var") == Some("payload") && AttributeOf(a, "type") == Some("raw")
    ensures AttributeOf(a, "octets") == Some(octets) && AttributeOf(a, "group") == Some(group)
  {
    AttributeFound(a, 0, "var");
    AttributeFound(a, 1, "octets");
    AttributeFound(a, 2, "type");
    AttributeFound(a, 3, "group");
  }

  lemma GroupValue()
    ensures ParseValue("{$group}") == Some(Var("group"))
  {
    VariableValue("group");
    assert "{" + ("$" + "group") + "}" == "{$group}";
  }

  lemma CompilePayload(e: Element, octets: string, group: string)
    requires e == New("read").AddAttribute("var", "payload").AddAttribute("octets", octets).AddAttribute("type", "raw")
        .AddAttribute("group", group)
    requires ParseValue(octets) == Some(Sub(Var("size"), Num(20))) && ParseValue(group) == Some(Var("group"))
    ensures Compile(e) == Some(ReadRaw("payload", Sub(Var("size"), Num(20)), Some(Var("group"))))
  {
    PayloadAttributes(e.attributes, octets, group);
    RawParts(e, "payload", octets, Sub(Var("size"), Num(20)), group, Var("group"));
  }

  // ----- The programs -----

  lemma {:induction false} CompileEach(es: seq<Element>)
    requires forall i :: 0 <= i < |es| ==> Compile(es[i]).Some?
    ensures var r := CompileAll(es);
            r.Some? && |r.value| == |es| && forall i :: 0 <= i < |es| ==> r.value[i] == Compile(es[i]).value
  {
    if es != [] {
      CompileEach(es[1..]);
    }
  }

  lemma PlainLoop(es: seq<Element>, ss: seq<Stmt>)
    requires CompileAll(es) == Some(ss)
    ensures Compile(New("loop").(children := es)) == Some(Loop(None, Num(0), Num(1), None, ss))
  {
    var e := New("loop").(children := es);
    AttributeMissing(e.attributes, "var");
    AttributeMissing(e.attributes, "start");
    AttributeMissing(e.attributes, "increment");
    AttributeMissing(e.attributes, "end");
  }

  lemma LoopDecoderCompiles(id: string, es: seq<Element>, ss: seq<Stmt>)
    requires CompileAll(es) == Some(ss)
    ensures Program(LoopDecoder(id, es)) == Some([Loop(None, Num(0), Num(1), None, ss)])
  {
    PlainLoop(es, ss);
    var loop := New("loop").(children := es);
    CompileEach([loop]);
    assert CompileAll([loop]).value == [Loop(None, Num(0), Num(1), None, ss)];
    assert LoopDecoder(id, es).children == [loop];
  }

  /** The six reads of the stream decoder's loop. */
  predicate IsStreamRead(k: nat, e: Element) {
    match k
    case 0 => e == UIntRead("size", "32")
    case 1 => e == UIntRead("group", "32")
    case 2 => e == CheckedRead("magic", "0x51EDA7A0")
    case 3 => e == PayloadRead()
    case 4 => e == UIntRead("checksum", "32")
    case _ => e == CheckedRead("size2", "{$size}")
  }

  predicate AreStreamReads(es: seq<Element>) {
    |es| == 6 && forall k :: 0 <= k < 6 ==> IsStreamRead(k, es[k])
  }

  /** What each of the six reads has to compile to. */
  predicate StreamStmt(k: nat, s: Stmt) {
    match k
    case 0 => s == Read("size", UInt, 32, Big, None)
    case 1 => s == Read("group", UInt, 32, Big, None)
    case 2 => s == Read("magic", UInt, 32, Big, Some(Num(SYNC_WORD)))
    case 3 => s == ReadRaw("payload", Sub(Var("size"), Num(20)), Some(Var("group")))
    case 4 => s == Read("checksum", UInt, 32, Big, None)
    case _ => s == Read("size2", UInt, 32, Big, Some(Var("size")))
  }

  predicate CompilesTo(e: Element, k: nat) {
    Compile(e).Some? && StreamStmt(k, Compile(e).value)
  }

  lemma {:induction false} SixReads(es: seq<Element>)
    requires |es| == 6 && forall k :: 0 <= k < 6 ==> CompilesTo(es[k], k)
    ensures CompileAll(es).Some? && IsStreamBody(CompileAll(es).value)
  {
    forall k | 0 <= k < 6 ensures Compile(es[k]).Some? {
      assert CompilesTo(es[k], k);
    }
    CompileEach(es);
    var ss := CompileAll(es).value;
    forall k | 0 <= k < 6 ensures StreamStmt(k, ss[k]) {
      assert CompilesTo(es[k], k);
    }
    StreamBodyOf(ss);
  }

  lemma PlainReadCompiles(e: Element, k: nat)
    requires k in {0, 1, 4} && e == UIntRead(if k == 0 then "size" else if k == 1 then "group" else "checksum", "32")
    ensures CompilesTo(e, k)
  {
    BitsValues();
    CompileUInt(if k == 0 then "size" else if k == 1 then "group" else "checksum", "32", 32);
  }

  lemma PayloadReadCompiles(e: Element)
    requires e == PayloadRead()
    ensures CompilesTo(e, 3)
  {
    PayloadSizeValue();
    GroupValue();
    CompilePayload(e, "{$size - 20}", "{$group}");
  }

  lemma MagicReadCompiles(e: Element)
    requires e == CheckedRead("magic", "0x51EDA7A0")
    ensures CompilesTo(e, 2)
  {
    BitsValues();
    SyncValue();
    CompileChecked("magic", "0x51EDA7A0", Num(SYNC_WORD));
  }

  lemma SizeReadCompiles(e: Element)
    requires e == CheckedRead("size2", "{$size}")
    ensures CompilesTo(e, 5)
  {
    BitsValues();
    VariableValue("size");
    assert "{" + ("$" + "size") + "}" == "{$size}";
    CompileChecked("size2", "{$size}", Var("size"));
  }

  lemma StreamBodyOf(ss: seq<Stmt>)
    requires |ss| == 6 && forall k :: 0 <= k < 6 ==> StreamStmt(k, ss[k])
    ensures IsStreamBody(ss)
  {
    assert StreamStmt(0, ss[0]) && StreamStmt(1, ss[1]) && StreamStmt(2, ss[2]);
    assert StreamStmt(3, ss[3]) && StreamStmt(4, ss[4]) && StreamStmt(5, ss[5]);
  }

  lemma StreamReadCompiles(k: nat, e: Element)
    requires k < 6 && IsStreamRead(k, e)
    ensures CompilesTo(e, k)
  {
    match k
    case 2 => MagicReadCompiles(e);
    case 3 => PayloadReadCompiles(e);
    case 5 => SizeReadCompiles(e);
    case _ => PlainReadCompiles(e, k);
  }

  lemma StreamReadsCompile(es: seq<Element>)
    requires AreStreamReads(es)
    ensures CompileAll(es).Some? && IsStreamBody(CompileAll(es).value)
  {
    forall k | 0 <= k < 6 ensures CompilesTo(es[k], k) {
      StreamReadCompiles(k, es[k]);
    }
    SixReads(es);
  }

  lemma StreamReadsAre(es: seq<Element>)
    requires es == StreamReads()
    ensures AreStreamReads(es)
  {
    forall k | 0 <= k < 6 ensures IsStreamRead(k, es[k]) {
    }
  }

  lemma LoopDecoderIsStream(es: seq<Element>)
    requires AreStreamReads(es)
    ensures var p := Program(LoopDecoder("0", es)); p.Some? && IsStreamProgram(p.value)
  {
    StreamReadsCompile(es);
    LoopDecoderCompiles("0", es, CompileAll(es).value);
  }

  /** Decoder 0 of the preamble is the stream program the framing round trip is about. */
  lemma {:induction false} StreamDecoderCompiles(decoder: Element)
    requires decoder == StreamDecoderElement()
    ensures Program(decoder).Some? && IsStreamProgram(Program(decoder).value)
  {
    StreamReadsAre(StreamReads());
    LoopDecoderIsStream(StreamReads());
  }

  // ----- The index decoder -----

  predicate IsIndexBody(body: seq<Stmt>) {
    |body| == 3 && body[0] == Read("v0", UInt, 64, Big, None) && body[1] == Read("v1", UInt, 32, Big, None)
        && body[2] == Sample
  }

  predicate IsIndexProgram(program: seq<Stmt>) {
    && |program| == 1 && program[0].Loop?
    && program[0] == Loop(None, Num(0), Num(1), None, program[0].body)
    && IsIndexBody(program[0].body)
  }

  predicate AreIndexReads(es: seq<Element>) {
    |es| == 3 && es[0] == UIntRead("v0", "64") && es[1] == UIntRead("v1", "32") && es[2] == New("sample")
  }

  lemma SampleCompiles()
    ensures Compile(New("sample")) == Some(Sample)
  {
    assert "sample"[1] != "read"[1] && "sample"[1] != "seek"[1];
  }

  lemma IndexReadsCompile(es: seq<Element>)
    requires AreIndexReads(es)
    ensures CompileAll(es).Some? && IsIndexBody(CompileAll(es).value)
  {
    hide Compile, CompileAll, UIntRead, ParseValue;
    BitsValues();
    CompileUInt("v0", "64", 64);
    CompileUInt("v1", "32", 32);
    SampleCompiles();
    CompileEach(es);
  }

  lemma LoopDecoderIsIndex(es: seq<Element>)
    requires AreIndexReads(es)
    ensures var p := Program(LoopDecoder("1", es)); p.Some? && IsIndexProgram(p.value)
  {
    hide Program, LoopDecoder, CompileAll, AreIndexReads, IsIndexBody;
    IndexReadsCompile(es);
    LoopDecoderCompiles("1", es, CompileAll(es).value);
  }

  /** Decoder 1 of the preamble is the index program. */
  lemma {:induction false} IndexDecoderCompiles(decoder: Element)
    requires decoder == IndexDecoderElement()
    ensures Program(decoder).Some? && IsIndexProgram(Program(decoder).value)
  {
    LoopDecoderIsIndex(IndexReads());
  }

  // ----- Running the index decoder -----

  function EntryRows(es: seq<IndexEntry>): (r: seq<seq<Value>>)
    ensures |r| == |es|
  {
    seq(|es|, i requires 0 <= i < |es| => [IntValue(es[i].offset), IntValue(es[i].group)])
  }
  /** The group read and the sample that end a turn. */
  lemma EntryTail(body: seq<Stmt>, payload: seq<Byte>, m: Machine)
    requires IsIndexBody(body)
    ensures ExecAll(body[1..], payload, m) ==
            if m.pos + 4 > |payload| then None
            else var vars := m.vars["v1" := IntValue(BeValue(payload[m.pos..m.pos + 4]))];
                 Some(m.(pos := m.pos + 4, vars := vars, samples := m.samples + [vars]))
  {
    hide ExecAll, BeValue;
    ExecAllAt(body, 1, payload, m);
    ExecTypedRead(body[1], payload, m);
    if m.pos + 4 <= |payload| {
      var next := m.(pos := m.pos + 4, vars := m.vars["v1" := IntValue(BeValue(payload[m.pos..m.pos + 4]))]);
      ExecAllAt(body, 2, payload, next);
      ExecEnd(body, payload, next.(samples := next.samples + [next.vars]));
    }
  }

  lemma EntryTurn(body: seq<Stmt>, payload: seq<Byte>, m: Machine)
    requires IsIndexBody(body)
    ensures ExecAll(body, payload, m) ==
            if m.pos + 12 > |payload| then None
            else var (first, second) := (BeValue(payload[m.pos..m.pos + 8]), BeValue(payload[m.pos + 8..m.pos + 12]));
                 var vars := m.vars["v0" := IntValue(first)]["v1" := IntValue(second)];
                 Some(m.(pos := m.pos + 12, vars := vars, samples := m.samples + [vars]))
  {
    hide ExecAll, Exec, BeValue;
    assert body[0..] == body;
    ExecAllAt(body, 0, payload, m);
    ExecTypedRead(body[0], payload, m);
    if m.pos + 8 <= |payload| {
      EntryTail(body, payload, m.(pos := m.pos + 8,
                                  vars := m.vars["v0" := IntValue(BeValue(payload[m.pos..m.pos + 8]))]));
    }
  }

  lemma EntryRow(before: seq<map<string, Value>>, sample: map<string, Value>, after: seq<map<string, Value>>, a: int,
                 b: int)
    requires before + [sample] <= after
    requires "v0" in sample && "v1" in sample && sample["v0"] == IntValue(a) && sample["v1"] == IntValue(b)
    ensures before <= after
    ensures Rows(after[|before|..], ["v0", "v1"])
         == var rest := Rows(after[|before| + 1..], ["v0", "v1"]);
            if rest.None? then None else Some([[IntValue(a), IntValue(b)]] + rest.value)
  {
    assert after[|before|..][0] == sample && after[|before|..][1..] == after[|before| + 1..];
    assert ["v0", "v1"][1..] == ["v1"] && ["v1"][1..] == [];
    assert [IntValue(b)] + [] == [IntValue(b)] && [IntValue(a)] + [IntValue(b)] == [IntValue(a), IntValue(b)];
    assert Row(sample, ["v1"][1..]) == Some([]);
    assert Row(sample, ["v1"]) == Some([IntValue(b)]);
    assert Row(sample, ["v0", "v1"]) == Some([IntValue(a), IntValue(b)]);
  }

  lemma EntryRowsCons(e: IndexEntry, rest: seq<IndexEntry>)
    ensures EntryRows([e] + rest) == [[IntValue(e.offset), IntValue(e.group)]] + EntryRows(rest)
  {
  }

  lemma {:induction false} IndexLoop(body: seq<Stmt>, payload: seq<Byte>, i: int, m: Machine)
    requires IsIndexBody(body) && m.pos <= |payload| && (|payload| - m.pos) % 12 == 0
    ensures var r := Iterate(None, i, 1, None, body, payload, m);
            && r.Some? && m.samples <= r.value.samples
            && Rows(r.value.samples[|m.samples|..], ["v0", "v1"]) == Some(EntryRows(ReadEntries(payload[m.pos..])))
    decreases |payload| - m.pos
  {
    EntryTurn(body, payload, m);
    if m.pos >= |payload| {
      assert m.samples[|m.samples|..] == [] && payload[m.pos..] == [];
    } else {
      var rest := payload[m.pos..];
      var next := ExecAll(body, payload, m).value;
      IndexLoop(body, payload, i + 1, next);
      var r := Iterate(None, i, 1, None, body, payload, m).value;
      assert rest[..8] == payload[m.pos..m.pos + 8] && rest[8..12] == payload[m.pos + 8..m.pos + 12]
             && rest[12..] == payload[next.pos..];
      EntryRow(m.samples, next.vars, r.samples, BeValue(rest[..8]), BeValue(rest[8..12]));
      EntryRowsCons(IndexEntry(BeValue(rest[..8]), BeValue(rest[8..12])), ReadEntries(rest[12..]));
    }
  }

  /** Decoder 1 of the preamble, run on an index block, yields the entries of that block. */
  lemma {:induction false} IndexDecoderReads(program: seq<Stmt>, payload: seq<Byte>)
    requires IsIndexProgram(program) && |payload| % 12 == 0
    ensures var r := RunDecoder(program, payload);
            r.Some? && Rows(r.value.samples, ["v0", "v1"]) == Some(EntryRows(ReadEntries(payload)))
  {
    assert program[0..] == program && program[1..] == [];
    ExecAllAt(program, 0, payload, START);
    LoopRuns(program[0], payload, START);
    IndexLoop(program[0].body, payload, 0, START);
    var r := Iterate(None, 0, 1, None, program[0].body, payload, START).value;
    assert r.samples[0..] == r.samples && payload[0..] == payload;
  }
}
