/** End to end: from the bytes of a finished file alone, a reader gets back the samples of the packets
    each handler accepted. */
module Readback {
  import opened Bytes
  import opened BlockLayer
  import opened IndexAgreement
  import opened Xml
  import opened XmlReader
  import opened XmlConformance
  import opened Decimal
  import opened Decoders
  import opened SieXml
  import opened StreamDecoder
  import opened Reader
  import opened CanonicalElements
  import opened Declarations
  import opened Descriptors
  import opened SampleTypes
  import opened Handlers
  import opened FileLog
  import opened Ownership
  import opened Metadata
  import opened Preamble
  import opened Bootstrap
  import ScalarLinear
  import Can
  import CanCompile
  import CanCorrect
  import CanMessages
  import CanLimits

  // ----- Finding the decoder and the channel of a group -----

  lemma {:induction false} FindDecoderConcat(a: seq<Element>, b: seq<Element>, id: string)
    ensures FindDecoder(a + b, id) == if FindDecoder(a, id).Some? then FindDecoder(a, id) else FindDecoder(b, id)
  {
    if a == [] {
      assert a + b == b;
    } else {
      assert (a + b)[1..] == a[1..] + b;
      FindDecoderConcat(a[1..], b, id);
    }
  }

  lemma {:induction false} FindTestConcat(a: seq<Element>, b: seq<Element>, group: string)
    ensures FindTest(a + b, group) == if FindTest(a, group).Some? then FindTest(a, group) else FindTest(b, group)
  {
    if a == [] {
      assert a + b == b;
    } else {
      assert (a + b)[1..] == a[1..] + b;
      FindTestConcat(a[1..], b, group);
    }
  }

  lemma PairFound(first: Element, second: Element, id: string, group: string)
    requires first.name == "decoder" && second.name == "test"
    ensures FindDecoder([first, second], id) == if AttributeOf(first.attributes, "id") == Some(id) then Some(first)
            else None
    ensures FindTest([first, second], group)
         == if ChannelIn(second.children, group).Some? then Some(second) else None
  {
    assert [first, second][1..] == [second] && [second][1..] == [];
    assert "decoder"[0] == 'd' && "test"[0] == 't';
    assert FindDecoder([second], id) == None && FindTest([second][1..], group) == None;
  }

  lemma CanonicalPair(a: Element, b: Element)
    ensures CanonicalAll([a, b]) == [Canonical(a), Canonical(b)]
  {
    CanonicalCons(a, [b]);
    CanonicalCons(b, []);
    assert [a] + [b] == [a, b] && [b] + [] == [b];
    assert [Canonical(a)] + ([Canonical(b)] + []) == [Canonical(a), Canonical(b)];
  }

  lemma DecoderIdOf(h: Handler, b: Binding, native: Endian)
    requires IsReady(h, b)
    ensures DecoderOf(h, b, native).name == "decoder"
    ensures AttributeOf(DecoderOf(h, b, native).attributes, "id") == Some(ToDecimal(b.decoderId))
  {
    assert DecoderOf(h, b, native).attributes == [Attribute("id", ToDecimal(b.decoderId))];
    AttributeFound(DecoderOf(h, b, native).attributes, 0, "id");
  }

  lemma CanonicalTest(testId: nat, channel: Element)
    ensures Canonical(TestWith(testId, channel)).name == "test"
    ensures Canonical(TestWith(testId, channel)).children == [Canonical(channel)]
  {
    CanonicalParts(TestWith(testId, channel));
    CanonicalCons(channel, []);
    assert [channel] + [] == [channel] && [Canonical(channel)] + CanonicalAll([]) == [Canonical(channel)];
    assert TestWith(testId, channel).children == [channel];
  }

  lemma ChannelSeen(channel: Element, own: nat, sources: seq<Source>, group: nat)
    requires ChannelFor(channel, own, sources)
    ensures ChannelIn([Canonical(channel)], ToDecimal(group)) == if own == group then Some(Canonical(channel)) else None
    ensures Sources(Canonical(channel).children) == Some(sources)
  {
    CanonicalParts(channel);
    DigitsArePlain(ToDecimal(own));
    PlainAttribute(channel, "group");
    assert [Canonical(channel)][1..] == [];
    if own != group && ToDecimal(own) == ToDecimal(group) {
      DecimalInjective(own, group);
    }
  }

  /** What a declaration contributes to the two searches. */
  lemma DeclarationSeen(h: Handler, b: Binding, labels: Labels, native: Endian, group: nat)
    requires IsReady(h, b) && b.group == b.decoderId
    ensures var es := CanonicalAll(HandlerElements(h, b, labels, native));
            && FindDecoder(es, ToDecimal(group)) == (if b.group == group then Some(DecoderOf(h, b, native)) else None)
            && FindTest(es, ToDecimal(group))
               == (if b.group == group then Some(Canonical(TestWith(labels.testId, ChannelOf(h, b, labels)))) else None)
    ensures ChannelIn(Canonical(TestWith(labels.testId, ChannelOf(h, b, labels))).children, ToDecimal(b.group))
         == Some(Canonical(ChannelOf(h, b, labels)))
    ensures Sources(Canonical(ChannelOf(h, b, labels)).children) == Some(SourcesOf(h, b))
  {
    DeclaredElements(h, b, labels, native);
    var decoder, channel := DecoderOf(h, b, native), ChannelOf(h, b, labels);
    CanonicalPair(decoder, TestWith(labels.testId, channel));
    SoundIsKept(decoder);
    DecoderIdOf(h, b, native);
    CanonicalTest(labels.testId, channel);
    ChannelSeen(channel, b.group, SourcesOf(h, b), group);
    ChannelSeen(channel, b.group, SourcesOf(h, b), b.group);
    PairFound(decoder, Canonical(TestWith(labels.testId, channel)), ToDecimal(group), ToDecimal(group));
    if b.decoderId != group && ToDecimal(b.decoderId) == ToDecimal(group) {
      DecimalInjective(b.decoderId, group);
    }
  }

  lemma OpeningSeen(group: string)
    ensures var es := CanonicalAll([TestElement(0)]); FindDecoder(es, group) == None && FindTest(es, group) == None
  {
    CanonicalParts(TestElement(0));
    CanonicalCons(TestElement(0), []);
    assert [TestElement(0)] + [] == [TestElement(0)];
    assert [Canonical(TestElement(0))] + CanonicalAll([]) == [Canonical(TestElement(0))];
    assert [Canonical(TestElement(0))][1..] == [];
  }

  predicate GoodDeclaration(e: Entry) {
    e.Declared? ==> IsReady(e.handler, e.binding) && e.binding.group == e.binding.decoderId
  }

  lemma EntrySeen(e: Entry, native: Endian, group: nat)
    requires GoodDeclaration(e)
    requires e.Declared? ==> e.binding.group != group
    ensures var es := CanonicalAll(EntryElements(e, native));
            FindDecoder(es, ToDecimal(group)) == None && FindTest(es, ToDecimal(group)) == None
  {
    match e
    case Opening(_) => OpeningSeen(ToDecimal(group));
    case Declared(_, _, h, b, labels) => DeclarationSeen(h, b, labels, native, group);
    case Data(_, _, _) =>
  }

  lemma DeclaredEntry(e: Entry, native: Endian)
    requires e.Declared?
    ensures EntryElements(e, native) == HandlerElements(e.handler, e.binding, e.labels, native)
  {
  }

  /** In a log whose declarations use different groups, both searches find the declaration at i. */
  lemma {:induction false} DeclarationFound(log: seq<Entry>, native: Endian, i: nat)
    requires forall k :: 0 <= k < |log| ==> GoodDeclaration(log[k])
    requires i < |log| && log[i].Declared?
    requires forall k :: 0 <= k < i && log[k].Declared? ==> log[k].binding.group != log[i].binding.group
    ensures GoodDeclaration(log[i])
    ensures var e, es := log[i], CanonicalAll(LogElements(log, native));
            && FindDecoder(es, ToDecimal(e.binding.group)) == Some(DecoderOf(e.handler, e.binding, native))
            && FindTest(es, ToDecimal(e.binding.group))
               == Some(Canonical(TestWith(e.labels.testId, ChannelOf(e.handler, e.binding, e.labels))))
            && FindChannel(es, ToDecimal(e.binding.group)) == Some(Canonical(ChannelOf(e.handler, e.binding, e.labels)))
    decreases |log|
  {
    hide IsReady, HandlerElements, DecoderOf, ChannelOf, Canonical, CanonicalAll, FindDecoder, FindTest,
      EntryElements, ToDecimal, TestWith;
    assert GoodDeclaration(log[0]) && GoodDeclaration(log[i]);
    var first, rest := EntryElements(log[0], native), LogElements(log[1..], native);
    var text := ToDecimal(log[i].binding.group);
    CanonicalConcat(first, rest);
    FindDecoderConcat(CanonicalAll(first), CanonicalAll(rest), text);
    FindTestConcat(CanonicalAll(first), CanonicalAll(rest), text);
    if i == 0 {
      DeclarationSeen(log[0].handler, log[0].binding, log[0].labels, native, log[0].binding.group);
      DeclaredEntry(log[0], native);
    } else {
      EntrySeen(log[0], native, log[i].binding.group);
      DeclarationFound(log[1..], native, i - 1);
    }
  }

  // ----- The program and the columns -----

  function ColumnsOf(h: Handler, b: Binding): seq<string> {
    if h.ScalarHandler? then ["v0", "v1"] else Can.Columns(0, 1 + |b.value.structFields|)
  }

  lemma VariablesCons(source: Source, rest: seq<Source>)
    requires Variables(rest, source.decoder).Some?
    ensures Variables([source] + rest, source.decoder)
            == Some([source.variable] + Variables(rest, source.decoder).value)
  {
    assert ([source] + rest)[1..] == rest;
  }

  lemma {:induction false} FieldVariables(decoderId: nat, k: nat, count: nat)
    ensures Variables(FieldSources(decoderId, k, count), ToDecimal(decoderId)) == Some(Can.Columns(k, count))
    decreases count
  {
    if count > 0 {
      FieldVariables(decoderId, k + 1, count - 1);
      VariablesCons(DimensionSource(decoderId, k), FieldSources(decoderId, k + 1, count - 1));
    }
  }

  lemma ScalarVariables(decoderId: nat)
    ensures Variables(ScalarSources(decoderId), ToDecimal(decoderId)) == Some(["v0", "v1"])
  {
    var a, b := DimensionSource(decoderId, 0), DimensionSource(decoderId, 1);
    assert ToDecimal(0) == "0" && ToDecimal(1) == "1";
    assert "v" + "0" == "v0" && "v" + "1" == "v1";
    VariablesCons(b, []);
    VariablesCons(a, [b]);
    assert [b] + [] == [b] && [a] + [b] == ScalarSources(decoderId);
    assert ["v1"] + [] == ["v1"] && ["v0"] + ["v1"] == ["v0", "v1"];
  }

  lemma ColumnsFound(h: Handler, b: Binding)
    ensures Variables(SourcesOf(h, b), ToDecimal(b.decoderId)) == Some(ColumnsOf(h, b))
  {
    if h.ScalarHandler? {
      ScalarVariables(b.decoderId);
    } else {
      FieldVariables(b.decoderId, 0, 1 + |b.value.structFields|);
    }
  }

  /** The program is the one the handler means. */
  ghost predicate RightProgram(program: seq<Stmt>, h: Handler, b: Binding, native: Endian)
    requires IsReady(h, b)
  {
    if h.ScalarHandler? then
      var ((start, delta), (kind, bits)) := (LinearStartDelta(b.domain).value, SieReadType(b.value.sampleType).value);
      ScalarLinear.IsProgram(program, start, delta, KindOf(kind).value, bits, native)
    else
      var (kind, bits) := SieReadType(b.domain.sampleType).value;
      Can.IsProgram(program, KindOf(kind).value, bits, b.value.structFields, native)
  }

  lemma ProgramFound(h: Handler, b: Binding, native: Endian)
    requires IsReady(h, b)
    ensures var p := Program(DecoderOf(h, b, native)); p.Some? && RightProgram(p.value, h, b, native)
  {
    if h.ScalarHandler? {
      var (start, delta) := LinearStartDelta(b.domain).value;
      var (kind, bits) := SieReadType(b.value.sampleType).value;
      ScalarLinear.DecoderCompiles(b.decoderId, start, delta, kind, bits, native);
    } else {
      var (kind, bits) := SieReadType(b.domain.sampleType).value;
      CanCompile.DecoderCompiles(b.decoderId, kind, bits, b.value.structFields, native);
    }
  }

  lemma LookUpParts(es: seq<Element>, group: nat, decoderId: nat, channel: Element, sources: seq<Source>,
                    decoder: Element, columns: seq<string>, program: seq<Stmt>)
    requires FindChannel(es, ToDecimal(group)) == Some(channel)
    requires Sources(channel.children) == Some(sources) && sources != [] && sources[0].decoder == ToDecimal(decoderId)
    requires FindDecoder(es, ToDecimal(decoderId)) == Some(decoder) && Program(decoder) == Some(program)
    requires Variables(sources, ToDecimal(decoderId)) == Some(columns)
    ensures LookUp(es, group) == Some((program, columns))
  {
  }

  /** The elements of the preamble stand in nobody's way. */
  lemma BehindPreamble(front: seq<Element>, es: seq<Element>, id: nat)
    requires AreStandardElements(front) && id >= 2
    ensures FindDecoder(front + es, ToDecimal(id)) == FindDecoder(es, ToDecimal(id))
    ensures FindTest(front + es, ToDecimal(id)) == FindTest(es, ToDecimal(id))
    ensures FindChannel(front + es, ToDecimal(id)) == FindChannel(es, ToDecimal(id))
  {
    hide AreStandardElements, FindDecoder, FindTest;
    StandardSearch(front, id, ToDecimal(id));
    FindDecoderConcat(front, es, ToDecimal(id));
    FindTestConcat(front, es, ToDecimal(id));
  }

  lemma GoodDeclarations(log: seq<Entry>, native: Endian, taken: nat, i: nat)
    requires LogInOrder(log, native, taken) && taken <= MOST_IDS && i < |log| && log[i].Declared?
    ensures forall k :: 0 <= k < |log| ==> GoodDeclaration(log[k])
    ensures forall k :: 0 <= k < i && log[k].Declared? ==> log[k].binding.group != log[i].binding.group
    ensures log[i].binding.group == log[i].binding.decoderId >= 2
  {
    forall k | 0 <= k < |log|
      ensures GoodDeclaration(log[k])
      ensures k < i && log[k].Declared? ==> log[k].binding.group != log[i].binding.group
    {
      assert EntryInOrder(log, native, taken, k);
      if k < i && log[k].Declared? {
        DeclarationsAreDistinct(log, native, taken, i, k);
      }
    }
    assert EntryInOrder(log, native, taken, i);
    DeclarationsAreDistinct(log, native, taken, i, i);
  }

  /** Looking up the group of a declaration yields the program and columns of its handler. */
  lemma {:induction false} LookUpFinds(front: seq<Element>, log: seq<Entry>, native: Endian, taken: nat,
                                       i: nat) returns (program: seq<Stmt>)
    requires AreStandardElements(front)
    requires LogInOrder(log, native, taken) && taken <= MOST_IDS && i < |log| && log[i].Declared?
    ensures IsReady(log[i].handler, log[i].binding)
    ensures RightProgram(program, log[i].handler, log[i].binding, native)
    ensures LookUp(front + CanonicalAll(LogElements(log, native)), log[i].handler.group)
         == Some((program, ColumnsOf(log[i].handler, log[i].binding)))
  {
    hide AreStandardElements, CanonicalAll, FindDecoder, FindChannel, FindTest, TestWith, LookUp, Program, Sources,
      Variables, DecoderOf, ChannelOf, RightProgram, ColumnsOf, Canonical, EntryInOrder;
    GoodDeclarations(log, native, taken, i);
    assert GoodDeclaration(log[i]);
    var h, b, labels := log[i].handler, log[i].binding, log[i].labels;
    DeclarationFound(log, native, i);
    DeclarationSeen(h, b, labels, native, b.group);
    BehindPreamble(front, CanonicalAll(LogElements(log, native)), b.group);
    ColumnsFound(h, b);
    ProgramFound(h, b, native);
    program := Program(DecoderOf(h, b, native)).value;
    LookUpParts(front + CanonicalAll(LogElements(log, native)), b.group, b.decoderId,
                Canonical(ChannelOf(h, b, labels)),
                SourcesOf(h, b), DecoderOf(h, b, native), ColumnsOf(h, b), program);
  }

  // ----- What the packets mean -----

  /** The raw data of a packet is made of whole values; messages have the sizes the decoder expects. */
  predicate Whole(h: Handler, b: Binding, packet: Packet) {
    && IsNumber(if h.ScalarHandler? then b.value.sampleType else b.domain.sampleType)
    && if h.ScalarHandler? then |packet.raw| % ElementSize(b.value.sampleType) == 0
       else
         && packet.domain.Some?
         && CanLimits.RightSizes(b.domain.sampleType, b.value.structFields, packet.sampleCount,
                                 |packet.domain.value.raw|)
  }

  /** The samples of a packet: (offset + start + i * delta, number i) for a linear-rule scalar,
      (domain value i, fields of message i) for CAN messages. */
  function Meaning(h: Handler, b: Binding, packet: Packet, native: Endian): seq<seq<Value>>
    requires DataPayload(h, packet, native).Some? && Whole(h, b, packet)
  {
    if h.ScalarHandler? then
      ScalarSamples(b.value, b.domain, packet.domain.value.offset.value, packet.raw, native)
    else
      CanLimits.RightSizesFit(b.domain.sampleType, b.value.structFields, native, packet);
      CanMessages.TrueSamples(b.domain.sampleType, native, b.value.structFields, packet.domain.value.raw,
                              packet.raw, packet.sampleCount)
  }

  /** The loop over the raw values takes the numbers of the packet. */
  lemma {:induction false} ScalarSamplesRead(value: DataDescriptor, domain: DataDescriptor, kind: Decoders.Kind,
                                             bits: nat,
                                             offset: int, raw: seq<Byte>, native: Endian)
    requires ReadAs(value.sampleType, kind, bits) && |raw| % ElementSize(value.sampleType) == 0
    ensures ScalarLinear.Samples(offset + RuleStart(domain), RuleDelta(domain), kind, native, bits / 8, raw)
         == ScalarSamples(value, domain, offset, raw, native)
  {
    hide Number, RuleStart, RuleDelta;
    var size := ElementSize(value.sampleType);
    var n := |raw| / size;
    ScalarLinear.SamplesCount(offset + RuleStart(domain), RuleDelta(domain), kind, native, size, raw, n);
    forall i | 0 <= i < n
      ensures ScalarLinear.Samples(offset + RuleStart(domain), RuleDelta(domain), kind, native, size, raw)[i]
           == ScalarSamples(value, domain, offset, raw, native)[i]
    {
      SliceFits(|raw|, size, i);
      ScalarLinear.SampleAt(offset + RuleStart(domain), RuleDelta(domain), kind, native, size, raw, i);
    }
  }

  /** Where the decoder looks for the messages of a packet: behind as many domain values as it counts. */
  function MessagesSought(b: Binding, packet: Packet): seq<Byte>
    requires packet.domain.Some?
    requires |packet.domain.value.raw| >= packet.sampleCount % 0x1_0000_0000 * 8
  {
    CanCorrect.Below(ElementSize(b.domain.sampleType), 8, packet.sampleCount % 0x1_0000_0000);
    packet.domain.value.raw[packet.sampleCount % 0x1_0000_0000 * ElementSize(b.domain.sampleType)..] + packet.raw
  }

  /** The declared decoder gets through the block of the packet: a scalar packet holds whole values, and the
      fields of the last message do not run past the end. */
  predicate Readable(h: Handler, b: Binding, packet: Packet, native: Endian)
    requires IsReady(h, b) && DataPayload(h, packet, native).Some?
  {
    if h.ScalarHandler? then Whole(h, b, packet)
    else CanCorrect.Room(b.value.structFields, MessagesSought(b, packet), packet.sampleCount % 0x1_0000_0000)
  }

  /** What the declared reads then take from it. */
  function Reading(h: Handler, b: Binding, packet: Packet, native: Endian): seq<seq<Value>>
    requires IsReady(h, b) && DataPayload(h, packet, native).Some? && Readable(h, b, packet, native)
  {
    if h.ScalarHandler? then Meaning(h, b, packet, native)
    else
      var (text, bits) := SieReadType(b.domain.sampleType).value;
      var n := packet.sampleCount % 0x1_0000_0000;
      DeclaredRead(b.domain.sampleType);
      CanCorrect.Below(bits / 8, 8, n);
      CanCorrect.SamplesFrom(KindOf(text).value, native, bits / 8, b.value.structFields,
                             packet.domain.value.raw[..n * (bits / 8)], MessagesSought(b, packet), 0, n)
  }

  /** One block: readable or not, and what is read. */
  lemma {:induction false} PacketReadBack(program: seq<Stmt>, h: Handler, b: Binding, packet: Packet, native: Endian)
    requires IsReady(h, b) && RightProgram(program, h, b, native) && DataPayload(h, packet, native).Some?
    ensures var m := RunDecoder(program, DataPayload(h, packet, native).value);
            && (m.Some? <==> Readable(h, b, packet, native))
            && (m.Some? ==> Rows(m.value.samples, ColumnsOf(h, b)) == Some(Reading(h, b, packet, native)))
    ensures Whole(h, b, packet) ==>
              Readable(h, b, packet, native) && Reading(h, b, packet, native) == Meaning(h, b, packet, native)
  {
    if h.ScalarHandler? {
      ScalarReadBack(program, h, b, packet, native);
    } else {
      MessagesReadBack(program, h, b, packet, native);
    }
  }

  lemma ScalarReadBack(program: seq<Stmt>, h: Handler, b: Binding, packet: Packet, native: Endian)
    requires IsReady(h, b) && RightProgram(program, h, b, native) && DataPayload(h, packet, native).Some?
    requires h.ScalarHandler?
    ensures var m := RunDecoder(program, DataPayload(h, packet, native).value);
            && (m.Some? <==> Whole(h, b, packet))
            && (m.Some? ==> Rows(m.value.samples, ["v0", "v1"]) == Some(Meaning(h, b, packet, native)))
  {
    hide RunDecoder, Rows, ScalarSamples, ScalarLinear.Samples, ScalarLinear.IsProgram, SieReadType, KindOf;
    var payload, offset := DataPayload(h, packet, native).value, packet.domain.value.offset.value;
    var (start, delta) := LinearStartDelta(b.domain).value;
    var (text, bits) := SieReadType(b.value.sampleType).value;
    DeclaredRead(b.value.sampleType);
    RuleIsRead(b.domain);
    var kind := KindOf(text).value;
    WidthOf(b.value.sampleType, kind, bits);
    ScalarLinear.DecoderIsCorrect(program, start, delta, kind, bits, native, offset, packet.raw, payload);
    if Whole(h, b, packet) {
      ScalarSamplesRead(b.value, b.domain, kind, bits, offset, packet.raw, native);
    }
  }

  lemma MessagesReadBack(program: seq<Stmt>, h: Handler, b: Binding, packet: Packet, native: Endian)
    requires IsReady(h, b) && RightProgram(program, h, b, native) && DataPayload(h, packet, native).Some?
    requires h.CanHandler?
    ensures var m := RunDecoder(program, DataPayload(h, packet, native).value);
            && (m.Some? <==> Readable(h, b, packet, native))
            && (m.Some? ==> Rows(m.value.samples, ColumnsOf(h, b)) == Some(Reading(h, b, packet, native)))
    ensures Whole(h, b, packet) ==>
              Readable(h, b, packet, native) && Reading(h, b, packet, native) == Meaning(h, b, packet, native)
  {
    hide RunDecoder, Rows, SieReadType, KindOf, Can.IsProgram, CanMessages.TrueSamples, CanCorrect.SamplesFrom,
      CanCorrect.Room, Can.GoodFields;
    var (text, bits) := SieReadType(b.domain.sampleType).value;
    DeclaredRead(b.domain.sampleType);
    var kind := KindOf(text).value;
    WidthOf(b.domain.sampleType, kind, bits);
    CanCorrect.AcceptedPacket(program, kind, bits, b.value.structFields, native, packet);
    if Whole(h, b, packet) {
      CanLimits.RightSizesPair(program, b.domain.sampleType, kind, bits, b.value.structFields, native, packet);
    }
  }

  /** The decoder a handler declares, run on the block written for a packet of whole values, takes from it what
      the packet holds by its descriptors. */
  lemma {:induction false} DeclaredDecoderReads(h: Handler, b: Binding, packet: Packet, native: Endian)
    requires IsReady(h, b) && DataPayload(h, packet, native).Some? && Whole(h, b, packet)
    ensures var program := Program(DecoderOf(h, b, native));
            && program.Some?
            && var m := RunDecoder(program.value, DataPayload(h, packet, native).value);
               m.Some? && Rows(m.value.samples, ColumnsOf(h, b)) == Some(Meaning(h, b, packet, native))
  {
    hide IsReady, DecoderOf, Program, RunDecoder, Rows, Meaning, Reading, Readable, RightProgram, DataPayload, Whole;
    ProgramFound(h, b, native);
    PacketReadBack(Program(DecoderOf(h, b, native)).value, h, b, packet, native);
  }

  // ----- All the blocks of a group -----

  /** The packets whose data a file holds under a group, in the order they were accepted. */
  function Accepted(log: seq<Entry>, group: nat): seq<Packet> {
    if log == [] then []
    else (if log[0].Data? && log[0].handler.group == group then [log[0].packet] else []) + Accepted(log[1..], group)
  }

  predicate AllWhole(packets: seq<Packet>, h: Handler, b: Binding)
    requires IsReady(h, b)
  {
    forall i :: 0 <= i < |packets| ==> Whole(h, b, packets[i])
  }

  predicate AllWritten(packets: seq<Packet>, h: Handler, native: Endian) {
    forall i :: 0 <= i < |packets| ==> DataPayload(h, packets[i], native).Some?
  }

  predicate AllReadable(packets: seq<Packet>, h: Handler, b: Binding, native: Endian)
    requires IsReady(h, b) && AllWritten(packets, h, native)
  {
    forall i :: 0 <= i < |packets| ==> Readable(h, b, packets[i], native)
  }

  function Readings(packets: seq<Packet>, h: Handler, b: Binding, native: Endian): seq<seq<Value>>
    requires IsReady(h, b) && AllWritten(packets, h, native) && AllReadable(packets, h, b, native)
  {
    if packets == [] then [] else Reading(h, b, packets[0], native) + Readings(packets[1..], h, b, native)
  }

  function Meanings(packets: seq<Packet>, h: Handler, b: Binding, native: Endian): seq<seq<Value>>
    requires IsReady(h, b) && AllWhole(packets, h, b) && AllWritten(packets, h, native)
  {
    if packets == [] then [] else Meaning(h, b, packets[0], native) + Meanings(packets[1..], h, b, native)
  }

  /** The blocks the packets were written as. */
  function PacketBlocks(packets: seq<Packet>, h: Handler, native: Endian): seq<Block>
    requires AllWritten(packets, h, native)
  {
    if packets == [] then []
    else [Block(h.group, DataPayload(h, packets[0], native).value)] + PacketBlocks(packets[1..], h, native)
  }

  /** An entry of the group is data of this handler. */
  predicate OwnData(e: Entry, h: Handler, native: Endian) {
    e.Data? && e.handler.group == h.group ==> e.handler == h && DataPayload(h, e.packet, native).Some?
  }

  lemma {:induction false} GroupBlocks(log: seq<Entry>, h: Handler, native: Endian)
    requires h.group >= 2 && forall j :: 0 <= j < |log| ==> OwnData(log[j], h, native)
    ensures AllWritten(Accepted(log, h.group), h, native)
    ensures Select(LogBlocks(log, native), h.group) == PacketBlocks(Accepted(log, h.group), h, native)
  {
    if log != [] {
      LogBlocksTail(log, native);
      GroupBlocks(log[1..], h, native);
      var rest := Accepted(log[1..], h.group);
      assert OwnData(log[0], h, native);
      if log[0].Data? && log[0].handler.group == h.group {
        assert ([log[0].packet] + rest)[1..] == rest;
      } else {
        assert [] + rest == rest;
        assert [] + Select(LogBlocks(log[1..], native), h.group) == Select(LogBlocks(log[1..], native), h.group);
      }
    }
  }

  /** All blocks of a group: readable or not, and what is read. */
  lemma {:induction false} BlocksReadBack(program: seq<Stmt>, packets: seq<Packet>, h: Handler, b: Binding,
                                          native: Endian)
    requires IsReady(h, b) && RightProgram(program, h, b, native) && AllWritten(packets, h, native)
    ensures RunBlocks(program, ColumnsOf(h, b), PacketBlocks(packets, h, native))
         == if AllReadable(packets, h, b, native) then Some(Readings(packets, h, b, native)) else None
    decreases |packets|
  {
    hide IsReady, RightProgram, Readable, Reading, DataPayload, RunDecoder, Rows, ColumnsOf, Whole, Meaning;
    if packets != [] {
      var rest := PacketBlocks(packets[1..], h, native);
      assert PacketBlocks(packets, h, native)[1..] == rest;
      PacketReadBack(program, h, b, packets[0], native);
      BlocksReadBack(program, packets[1..], h, b, native);
      if !AllReadable(packets, h, b, native) && Readable(h, b, packets[0], native) {
        var i :| 0 <= i < |packets| && !Readable(h, b, packets[i], native);
        assert packets[i] == packets[1..][i - 1];
      }
    }
  }

  /** Packets of whole values are readable, and what is read is what they mean. */
  lemma {:induction false} WholeIsRead(program: seq<Stmt>, packets: seq<Packet>, h: Handler, b: Binding,
                                       native: Endian)
    requires IsReady(h, b) && RightProgram(program, h, b, native) && AllWritten(packets, h, native)
    requires AllWhole(packets, h, b)
    ensures AllReadable(packets, h, b, native)
    ensures Readings(packets, h, b, native) == Meanings(packets, h, b, native)
    decreases |packets|
  {
    hide IsReady, RightProgram, Readable, Reading, DataPayload, Whole, Meaning;
    forall i | 0 <= i < |packets| ensures Readable(h, b, packets[i], native) {
      PacketReadBack(program, h, b, packets[i], native);
    }
    if packets != [] {
      PacketReadBack(program, h, b, packets[0], native);
      WholeIsRead(program, packets[1..], h, b, native);
    }
  }

  // ----- The whole file -----

  /** The finished file of a log: small enough for its 32-bit sizes and 64-bit offsets. */
  ghost predicate FileFits(log: seq<Entry>, native: Endian) {
    AllFit(LogBlocks(log, native)) && |PutAll(LogBlocks(log, native)).content| < 0x1_0000_0000_0000_0000
  }

  lemma ReadBackParts(file: seq<Byte>, blocks: seq<Block>, es: seq<Element>,
                      program: seq<Stmt>, columns: seq<string>, group: nat)
    requires ReadFile(file) == Some(Contents(blocks, es))
    requires LookUp(es, group) == Some((program, columns))
    ensures ReadBack(file, group) == RunBlocks(program, columns, Select(blocks, group))
  {
  }

  lemma BlocksOfGroup(log: seq<Entry>, native: Endian, taken: nat, i: nat, blocks: seq<Block>)
    requires LogInOrder(log, native, taken) && taken <= MOST_IDS && i < |log| && log[i].Declared?
    requires DropIndex(blocks) == LogBlocks(log, native)
    ensures var h := log[i].handler;
            && AllWritten(Accepted(log, h.group), h, native)
            && Select(blocks, h.group) == PacketBlocks(Accepted(log, h.group), h, native)
  {
    var h := log[i].handler;
    assert EntryInOrder(log, native, taken, i);
    DeclarationsAreDistinct(log, native, taken, i, i);
    forall j | 0 <= j < |log| ensures OwnData(log[j], h, native) {
      assert EntryInOrder(log, native, taken, j);
      if log[j].Data? {
        GroupIsOneHandler(log, native, taken, i, j);
      }
    }
    SelectWithoutIndex(blocks, h.group);
    GroupBlocks(log, h, native);
  }

  lemma FirstBlockOfLog(log: seq<Entry>, native: Endian)
    requires log != []
    ensures var blocks := ClosedBlocks(LogBlocks(log, native)); blocks != [] && blocks[0] == EntryBlock(log[0], native)
  {
    FirstBlockStays(LogBlocks(log, native));
  }

  lemma ReadFileParts(file: seq<Byte>, blocks: seq<Block>)
    requires StreamProgram(file).Some? && ReadStream(StreamProgram(file).value, file) == Some(blocks)
    ensures ReadFile(file)
         == if ReadMetadata(blocks).Some? then Some(Contents(blocks, ReadMetadata(blocks).value)) else None
  {
  }

  lemma {:induction false} StreamOfLog(file: seq<Byte>, blocks: seq<Block>, preamble: string)
    requires IsPreamble(preamble)
    requires file == Frames(blocks) && AllFit(blocks) && blocks != []
    requires blocks[0].payload == EntryBlock(Opening(OpeningText(preamble)), Big).payload
    ensures StreamProgram(file).Some? && ReadStream(StreamProgram(file).value, file) == Some(blocks)
  {
    hide Frames, FirstText, StreamProgram, OpeningText, IsPreamble;
    FirstTextFound(blocks);
    OpeningTextFound(preamble, file);
    StreamProgramFound(preamble, file);
    FramingRoundTrip(StreamProgram(file).value, blocks);
  }

  /** What is in a finished file. The stream decoder found in its first block parses it into the blocks
      written, index blocks added, and its metadata is the preamble's four elements followed by those of
      the log; a single character among their texts that is no XML character makes the file unreadable. */
  lemma FileContents(preamble: string, log: seq<Entry>, native: Endian, taken: nat) returns (front: seq<Element>)
    requires IsPreamble(preamble)
    requires LogInOrder(log, native, taken) && taken <= MOST_IDS && OneByteLog(log, native)
    requires log[0] == Opening(OpeningText(preamble)) && FileFits(log, native)
    ensures AreStandardElements(front)
    ensures DropIndex(ClosedBlocks(LogBlocks(log, native))) == LogBlocks(log, native)
    ensures ReadFile(Closed(LogBlocks(log, native)).content)
         == if TextTrees(LogElements(log, native))
            then Some(Contents(ClosedBlocks(LogBlocks(log, native)), front + CanonicalAll(LogElements(log, native))))
            else None
  {
    hide Frames, FirstText, StreamProgram, OpeningText, IsPreamble, AreStandardElements, CanonicalAll, ReadFile,
      LogElements, TextTrees;
    var bs := LogBlocks(log, native);
    NothingIndexed(log, native, taken);
    IndexAgreesWithFile(bs);
    var blocks := ClosedBlocks(bs);
    FirstBlockOfLog(log, native);
    StreamOfLog(Closed(bs).content, blocks, preamble);
    front := MetadataForest(log, native, taken, preamble, blocks);
    ReadFileParts(Closed(bs).content, blocks);
  }

  /** The same for texts made of XML characters. */
  lemma TextContents(preamble: string, log: seq<Entry>, native: Endian, taken: nat) returns (front: seq<Element>)
    requires IsPreamble(preamble)
    requires LogInOrder(log, native, taken) && taken <= MOST_IDS && NarrowLog(log, native)
    requires log[0] == Opening(OpeningText(preamble)) && FileFits(log, native)
    ensures AreStandardElements(front)
    ensures DropIndex(ClosedBlocks(LogBlocks(log, native))) == LogBlocks(log, native)
    ensures ReadFile(Closed(LogBlocks(log, native)).content)
         == Some(Contents(ClosedBlocks(LogBlocks(log, native)), front + CanonicalAll(LogElements(log, native))))
  {
    hide *;
    ReadyLog(log, native, taken);
    LogIsText(log, native);
    front := FileContents(preamble, log, native, taken);
  }

  /** Reading back the group declared at entry i succeeds if and only if every packet its handler accepted is
      readable, and then yields what the declared reads take from the packets, in order. These are the
      samples the packets hold when all are made of whole values; for scalars it succeeds only then. */
  ghost predicate ReadsBack(bytes: seq<Byte>, log: seq<Entry>, native: Endian, i: nat)
    requires i < |log| && log[i].Declared?
  {
    var h, b := log[i].handler, log[i].binding;
    var packets, read := Accepted(log, h.group), ReadBack(bytes, h.group);
    && IsReady(h, b) && AllWritten(packets, h, native)
    && read == (if AllReadable(packets, h, b, native) then Some(Readings(packets, h, b, native)) else None)
    && (AllWhole(packets, h, b) ==> read == Some(Meanings(packets, h, b, native)))
    && (h.ScalarHandler? ==> (read.Some? <==> AllWhole(packets, h, b)))
  }

  /** The end-to-end theorem. Parsing a finished file with the stream decoder found in it, looking a group
      up in its metadata and running the declared decoder over the group's blocks yields exactly the
      samples of the packets its handler accepted, in order, when the packets are made of whole values;
      what it yields otherwise, and when it fails, is known as well. */
  lemma {:induction false} FileReadBack(preamble: string, log: seq<Entry>, native: Endian, taken: nat, i: nat)
    requires IsPreamble(preamble)
    requires LogInOrder(log, native, taken) && taken <= MOST_IDS && NarrowLog(log, native)
    requires log[0] == Opening(OpeningText(preamble)) && FileFits(log, native)
    requires i < |log| && log[i].Declared?
    ensures ReadsBack(Closed(LogBlocks(log, native)).content, log, native, i)
  {
    hide OpeningText, IsPreamble, AreStandardElements, CanonicalAll, ReadFile, LookUp, LogElements, Frames, IsReady,
      RightProgram, AllReadable, Readings, AllWhole, Meanings, ColumnsOf, FileFits, NarrowLog, RunBlocks, DataPayload;
    var bs := LogBlocks(log, native);
    var blocks := ClosedBlocks(bs);
    var front := TextContents(preamble, log, native, taken);
    var program := LookUpFinds(front, log, native, taken, i);
    var h, b := log[i].handler, log[i].binding;
    ReadBackParts(Closed(bs).content, blocks, front + CanonicalAll(LogElements(log, native)), program, ColumnsOf(h, b),
                  h.group);
    BlocksOfGroup(log, native, taken, i, blocks);
    GroupReadBack(program, Accepted(log, h.group), h, b, native);
  }

  lemma GroupReadBack(program: seq<Stmt>, packets: seq<Packet>, h: Handler, b: Binding, native: Endian)
    requires IsReady(h, b) && RightProgram(program, h, b, native) && AllWritten(packets, h, native)
    ensures var read := RunBlocks(program, ColumnsOf(h, b), PacketBlocks(packets, h, native));
            && read == (if AllReadable(packets, h, b, native) then Some(Readings(packets, h, b, native)) else None)
            && (AllWhole(packets, h, b) ==> read == Some(Meanings(packets, h, b, native)))
            && (h.ScalarHandler? ==> (read.Some? <==> AllWhole(packets, h, b)))
  {
    hide RightProgram, Whole, Meaning, Reading, DataPayload, RunBlocks, ColumnsOf, IsReady;
    BlocksReadBack(program, packets, h, b, native);
    if AllWhole(packets, h, b) {
      WholeIsRead(program, packets, h, b, native);
    }
  }
}
