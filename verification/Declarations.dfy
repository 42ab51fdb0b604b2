/** What a reader finds for one declared handler: its decoder element unchanged, and a channel whose
    dimensions point at that decoder. */
module Declarations {
  import opened Bytes
  import opened Xml
  import opened XmlReader
  import opened XmlConformance
  import opened Decimal
  import opened SieXml
  import opened Reader
  import opened CanonicalElements
  import opened Descriptors
  import opened Handlers
  import Can
  import ScalarLinear

  // ----- Building elements step by step -----

  lemma {:induction false} ValidAppend(es: seq<Element>, e: Element)
    requires AllValidNames(es) && ValidNames(e)
    ensures AllValidNames(es + [e])
  {
    if es == [] {
      assert [] + [e] == [e] && [e][1..] == [];
    } else {
      ValidAppend(es[1..], e);
      assert (es + [e])[1..] == es[1..] + [e];
    }
  }

  lemma ValidChild(e: Element, child: Element)
    requires ValidNames(e) && ValidNames(child)
    ensures ValidNames(e.AddChild(child))
  {
    ValidAppend(e.children, child);
  }

  lemma ValidAttribute(e: Element, id: string, value: string)
    requires ValidNames(e) && IsName(id) && !HasAttribute(e.attributes, id)
    ensures ValidNames(e.AddAttribute(id, value))
  {
  }

  lemma ValidNew(name: string, content: string)
    requires IsName(name)
    ensures ValidNames(New(name)) && ValidNames(New(name).WithContent(content))
  {
  }

  lemma {:induction false} FaithfulAppend(es: seq<Element>, e: Element)
    requires AllFaithful(es) && Faithful(e)
    ensures AllFaithful(es + [e])
  {
    if es == [] {
      assert [] + [e] == [e] && [e][1..] == [];
    } else {
      FaithfulAppend(es[1..], e);
      assert (es + [e])[1..] == es[1..] + [e];
    }
  }

  /** An element that survives printing and reading, with valid names and no content. */
  predicate Sound(e: Element) {
    ValidNames(e) && Faithful(e) && e.content == ""
  }

  lemma SoundChild(e: Element, child: Element)
    requires Sound(e) && Sound(child)
    ensures Sound(e.AddChild(child))
  {
    ValidChild(e, child);
    FaithfulAppend(e.children, child);
  }

  lemma SoundAttribute(e: Element, id: string, value: string)
    requires Sound(e) && IsName(id) && NoSpaceButBlank(value) && !HasAttribute(e.attributes, id)
    ensures Sound(e.AddAttribute(id, value))
  {
  }

  lemma SoundNew(name: string)
    requires IsName(name)
    ensures Sound(New(name))
  {
  }

  lemma SoundIsKept(e: Element)
    requires Sound(e)
    ensures Canonical(e) == e
  {
    CanonicalIffFaithful(e);
  }

  // ----- The vocabulary -----

  lemma DecoderNames()
    ensures IsName("decoder") && IsName("id") && IsName("loop") && IsName("var") && IsName("start") && IsName("end")
    ensures IsName("increment") && IsName("read") && IsName("type") && IsName("bits") && IsName("endian")
    ensures IsName("octets") && IsName("sample") && IsName("seek") && IsName("from") && IsName("offset")
  {
    hide IsName;
    LowerIsName("decoder");
    LowerIsName("id");
    LowerIsName("loop");
    LowerIsName("var");
    LowerIsName("start");
    LowerIsName("end");
    LowerIsName("increment");
    LowerIsName("read");
    LowerIsName("type");
    LowerIsName("bits");
    LowerIsName("endian");
    LowerIsName("octets");
    LowerIsName("sample");
    LowerIsName("seek");
    LowerIsName("from");
    LowerIsName("offset");
  }

  lemma ChannelNames()
    ensures IsName("test") && IsName("id") && IsName("ch") && IsName("group") && IsName("name") && IsName("tag")
    ensures IsName("dim") && IsName("index") && IsName("data") && IsName("decoder") && IsName("v") && IsName("xform")
    ensures IsName("scale") && IsName("offset") && IsName("units")
  {
    hide IsName;
    LowerIsName("test");
    LowerIsName("id");
    LowerIsName("ch");
    LowerIsName("group");
    LowerIsName("name");
    LowerIsName("tag");
    LowerIsName("dim");
    LowerIsName("index");
    LowerIsName("data");
    LowerIsName("decoder");
    LowerIsName("v");
    LowerIsName("xform");
    LowerIsName("scale");
    LowerIsName("offset");
    LowerIsName("units");
  }

  // ----- Decoder elements -----

  lemma ReadIsSound(v: string, kind: string, bits: nat, native: Endian)
    requires NoSpaceButBlank(v) && NoSpaceButBlank(kind)
    ensures Sound(ReadElement(v, kind, bits, native))
  {
    DecoderNames();
    DigitsArePlain(ToDecimal(bits));
    var e := New("read");
    SoundNew("read");
    SoundAttribute(e, "var", v);
    SoundAttribute(e.AddAttribute("var", v), "type", kind);
    SoundAttribute(e.AddAttribute("var", v).AddAttribute("type", kind), "bits", ToDecimal(bits));
    SoundAttribute(e.AddAttribute("var", v).AddAttribute("type", kind).AddAttribute("bits", ToDecimal(bits)), "endian",
                   NativeEndian(native));
  }

  lemma RawReadIsSound(v: string, octets: nat)
    requires NoSpaceButBlank(v)
    ensures Sound(ReadRawElement(v, octets))
  {
    DecoderNames();
    DigitsArePlain(ToDecimal(octets));
    var e := New("read");
    SoundNew("read");
    SoundAttribute(e, "var", v);
    SoundAttribute(e.AddAttribute("var", v), "type", "raw");
    SoundAttribute(e.AddAttribute("var", v).AddAttribute("type", "raw"), "octets", ToDecimal(octets));
  }

  lemma SampleIsSound()
    ensures Sound(SampleElement())
  {
    DecoderNames();
    SoundNew("sample");
  }

  lemma SeekIsSound(offset: string)
    requires NoSpaceButBlank(offset)
    ensures Sound(SeekElement("start", offset))
  {
    DecoderNames();
    SoundNew("seek");
    SoundAttribute(New("seek"), "from", "start");
    SoundAttribute(New("seek").AddAttribute("from", "start"), "offset", offset);
  }

  lemma DecoderHeadIsSound(id: nat)
    ensures Sound(DecoderElement(id))
  {
    DecoderNames();
    DigitsArePlain(ToDecimal(id));
    SoundNew("decoder");
    SoundAttribute(New("decoder"), "id", ToDecimal(id));
  }

  lemma PlainConcat(a: string, b: string)
    requires NoSpaceButBlank(a) && NoSpaceButBlank(b)
    ensures NoSpaceButBlank(a + b)
  {
  }

  lemma SignedIsPlain(n: int)
    ensures NoSpaceButBlank(ToSigned(n))
  {
  }

  lemma ScalarLoopIsSound(start: int, delta: int, kind: string, bits: nat, native: Endian)
    requires NoSpaceButBlank(kind)
    ensures Sound(ScalarLinear.LoopElement(start, delta, kind, bits, native))
  {
    DecoderNames();
    SignedIsPlain(start);
    SignedIsPlain(delta);
    var from := "{$offset + " + ToSigned(start) + "}";
    PlainConcat("{$offset + ", ToSigned(start));
    PlainConcat("{$offset + " + ToSigned(start), "}");
    var e0 := New("loop");
    SoundNew("loop");
    SoundAttribute(e0, "var", "v0");
    var e1 := e0.AddAttribute("var", "v0");
    SoundAttribute(e1, "start", from);
    var e2 := e1.AddAttribute("start", from);
    SoundAttribute(e2, "increment", ToSigned(delta));
    var e3 := e2.AddAttribute("increment", ToSigned(delta));
    ReadIsSound("v1", kind, bits, native);
    SoundChild(e3, ReadElement("v1", kind, bits, native));
    SampleIsSound();
    SoundChild(e3.AddChild(ReadElement("v1", kind, bits, native)), SampleElement());
  }

  lemma KindsArePlain()
    ensures NoSpaceButBlank("int") && NoSpaceButBlank("uint") && NoSpaceButBlank("float")
  {
  }

  lemma ScalarDecoderIsSound(b: Binding, native: Endian)
    requires ScalarReady(b)
    ensures Sound(ScalarDecoder(b, native))
  {
    var (start, delta) := LinearStartDelta(b.domain).value;
    var (kind, bits) := SieReadType(b.value.sampleType).value;
    KindsArePlain();
    DecoderHeadIsSound(b.decoderId);
    ReadIsSound("offset", "int", 64, native);
    SoundChild(DecoderElement(b.decoderId), ReadElement("offset", "int", 64, native));
    ScalarLoopIsSound(start, delta, kind, bits, native);
    SoundChild(DecoderElement(b.decoderId).AddChild(ReadElement("offset", "int", 64, native)),
               ScalarLinear.LoopElement(start, delta, kind, bits, native));
  }

  ghost predicate AllSound(es: seq<Element>) {
    forall i :: 0 <= i < |es| ==> Sound(es[i])
  }

  lemma {:induction false} SoundList(es: seq<Element>)
    requires AllSound(es)
    ensures AllValidNames(es) && AllFaithful(es)
  {
    if es != [] {
      SoundList(es[1..]);
    }
  }

  lemma {:induction false} FieldsAreSound(fields: seq<DataDescriptor>, k: nat, native: Endian)
    requires Can.GoodFields(fields)
    ensures AllSound(Can.FieldElements(fields, k, native))
    decreases |fields|
  {
    if fields != [] {
      var f := fields[0];
      KindsArePlain();
      PlainConcat("v", ToDecimal(k));
      if Can.IsRawField(f) {
        RawReadIsSound(Can.Variable(k), f.dimensions.value[0].size);
      } else {
        ReadIsSound(Can.Variable(k), SieReadType(f.sampleType).value.0, SieReadType(f.sampleType).value.1, native);
      }
      FieldsAreSound(fields[1..], k + 1, native);
    }
  }

  lemma OffsetTextsArePlain(width: nat)
    ensures NoSpaceButBlank(Can.MessageOffsetText(width)) && NoSpaceButBlank(Can.NextOffsetText(width))
  {
    var w := ToDecimal(width);
    PlainConcat("{" + ToDecimal(4) + " + (", w);
    PlainConcat("{" + ToDecimal(4) + " + (" + w, " * $n) + (69 * $i)}");
    PlainConcat("{" + ToDecimal(4 + width) + " + (", w);
    PlainConcat("{" + ToDecimal(4 + width) + " + (" + w, " * $i)}");
  }

  lemma SoundParent(e: Element, children: seq<Element>)
    requires Sound(e) && e.children == [] && AllValidNames(children) && AllFaithful(children)
    ensures Sound(e.(children := children))
  {
  }

  lemma CanLoopIsSound(kind: string, bits: nat, fields: seq<DataDescriptor>, native: Endian)
    requires Can.GoodFields(fields) && NoSpaceButBlank(kind)
    ensures Sound(Can.LoopElement(kind, bits, fields, native))
  {
    hide Sound, IsName, Can.FieldElements, NoSpaceButBlank, ReadElement, SeekElement;
    DecoderNames();
    var e := Can.LoopElement(kind, bits, fields, native);
    OffsetTextsArePlain(bits / 8);
    ReadIsSound("v0", kind, bits, native);
    SeekIsSound(Can.MessageOffsetText(bits / 8));
    SeekIsSound(Can.NextOffsetText(bits / 8));
    SampleIsSound();
    FieldsAreSound(fields, 1, native);
    assert AllSound(e.children);
    SoundList(e.children);
    CanLoopHead();
    SoundParent(New("loop").AddAttribute("var", "i").AddAttribute("start", "0").AddAttribute("end", "{$n}"),
                e.children);
  }

  lemma CanLoopHead()
    ensures Sound(New("loop").AddAttribute("var", "i").AddAttribute("start", "0").AddAttribute("end", "{$n}"))
  {
    hide Sound, IsName;
    DecoderNames();
    SoundNew("loop");
    SoundAttribute(New("loop"), "var", "i");
    SoundAttribute(New("loop").AddAttribute("var", "i"), "start", "0");
    assert "end" != "var" && "end" != "start";
    SoundAttribute(New("loop").AddAttribute("var", "i").AddAttribute("start", "0"), "end", "{$n}");
  }

  lemma CanDecoderIsSound(b: Binding, native: Endian)
    requires CanReady(b)
    ensures Sound(CanDecoder(b, native))
  {
    var (kind, bits) := SieReadType(b.domain.sampleType).value;
    KindsArePlain();
    DecoderHeadIsSound(b.decoderId);
    ReadIsSound("n", "uint", 32, native);
    SoundChild(DecoderElement(b.decoderId), ReadElement("n", "uint", 32, native));
    CanLoopIsSound(kind, bits, b.value.structFields, native);
    SoundChild(DecoderElement(b.decoderId).AddChild(ReadElement("n", "uint", 32, native)),
               Can.LoopElement(kind, bits, b.value.structFields, native));
  }

  // ----- Channel elements -----

  /** A channel of a group whose dimensions, once read back, have the given sources. */
  ghost predicate ChannelFor(ch: Element, group: nat, sources: seq<Source>) {
    && ValidNames(ch) && ch.name == "ch" && ch.content == ""
    && AttributeOf(ch.attributes, "group") == Some(ToDecimal(group))
    && Sources(CanonicalAll(ch.children)) == Some(sources)
  }

  lemma ChannelHead(id: nat, group: nat, name: string)
    ensures ChannelFor(ChannelElement(id, group, name), group, [])
  {
    ChannelNames();
    ValidNew("ch", "");
    ValidAttribute(New("ch"), "id", ToDecimal(id));
    ValidAttribute(New("ch").AddAttribute("id", ToDecimal(id)), "group", ToDecimal(group));
    ValidAttribute(New("ch").AddAttribute("id", ToDecimal(id)).AddAttribute("group", ToDecimal(group)), "name", name);
    var a := ChannelElement(id, group, name).attributes;
    assert a == [Attribute("id", ToDecimal(id)), Attribute("group", ToDecimal(group)), Attribute("name", name)];
    AttributeFound(a, 1, "group");
  }

  lemma {:induction false} SourcesAppend(es: seq<Element>, e: Element)
    requires Sources(es).Some? && (e.name == "dim" ==> SourceOf(e).Some?)
    ensures Sources(es + [e]) == Some(Sources(es).value + if e.name == "dim" then [SourceOf(e).value] else [])
  {
    if es == [] {
      assert [] + [e] == [e] && [e][1..] == [];
      assert Sources([e][1..]) == Some([]);
      if e.name == "dim" {
        assert [SourceOf(e).value] + [] == [] + [SourceOf(e).value];
      }
    } else {
      assert (es + [e])[1..] == es[1..] + [e];
      SourcesAppend(es[1..], e);
      SourcesStep(es[0], es[1..], es);
      SourcesStep(es[0], es[1..] + [e], es + [e]);
      if es[0].name == "dim" {
        Associate(SourceOf(es[0]).value, Sources(es[1..]).value, if e.name == "dim" then [SourceOf(e).value] else []);
      }
    }
  }

  lemma SourcesStep(e: Element, rest: seq<Element>, all: seq<Element>)
    requires all != [] && all[0] == e && all[1..] == rest
    ensures e.name != "dim" ==> Sources(all) == Sources(rest)
    ensures e.name == "dim" && Sources(all).Some? ==>
              SourceOf(e).Some? && Sources(rest).Some?
                  && Sources(all) == Some([SourceOf(e).value] + Sources(rest).value)
    ensures e.name == "dim" && SourceOf(e).Some? && Sources(rest).Some? ==>
              Sources(all) == Some([SourceOf(e).value] + Sources(rest).value)
  {
  }

  lemma Associate<T>(first: T, rest: seq<T>, last: seq<T>)
    ensures [first] + (rest + last) == ([first] + rest) + last
  {
  }

  lemma CanonicalAppend(es: seq<Element>, e: Element)
    ensures CanonicalAll(es + [e]) == CanonicalAll(es) + [Canonical(e)]
  {
    CanonicalConcat(es, [e]);
    CanonicalCons(e, []);
    assert [e] + [] == [e] && [Canonical(e)] + CanonicalAll([]) == [Canonical(e)];
  }

  lemma AddOther(ch: Element, group: nat, sources: seq<Source>, e: Element)
    requires ChannelFor(ch, group, sources) && ValidNames(e) && e.name != "dim"
    ensures ChannelFor(ch.AddChild(e), group, sources)
  {
    ValidChild(ch, e);
    CanonicalParts(e);
    CanonicalAppend(ch.children, e);
    SourcesAppend(CanonicalAll(ch.children), Canonical(e));
    assert sources + [] == sources;
  }

  lemma AddTag(ch: Element, group: nat, sources: seq<Source>, id: string, value: string)
    requires ChannelFor(ch, group, sources)
    ensures ChannelFor(ch.AddChild(TagElement(id, value)), group, sources)
  {
    TagIsValid(id, value);
    AddOther(ch, group, sources, TagElement(id, value));
  }

  lemma TagIsValid(id: string, value: string)
    ensures ValidNames(TagElement(id, value))
  {
    ChannelNames();
  }

  function DimensionSource(decoderId: nat, variable: nat): Source {
    Source(ToDecimal(decoderId), "v" + ToDecimal(variable))
  }

  lemma AddDimension(ch: Element, group: nat, sources: seq<Source>, dim: Element, decoderId: nat, variable: nat)
    requires ChannelFor(ch, group, sources) && ValidNames(dim) && dim.name == "dim"
    requires HasSource(dim, decoderId, variable)
    ensures ChannelFor(ch.AddChild(dim), group, sources + [DimensionSource(decoderId, variable)])
  {
    ValidChild(ch, dim);
    CanonicalParts(dim);
    CanonicalSource(dim, decoderId, variable);
    CanonicalAppend(ch.children, dim);
    SourcesAppend(CanonicalAll(ch.children), Canonical(dim));
  }

  // ----- Dimensions -----

  /** A dimension element that is valid and has its source, whatever is added behind it. */
  ghost predicate GoodDimension(dim: Element, decoderId: nat, variable: nat) {
    ValidNames(dim) && dim.name == "dim" && HasSource(dim, decoderId, variable)
  }

  lemma DataIsValid(decoderId: nat, variable: nat)
    ensures ValidNames(DataElement(decoderId, variable)) && DataElement(decoderId, variable).name == "data"
  {
    ChannelNames();
    ValidNew("data", "");
    ValidAttribute(New("data"), "decoder", ToDecimal(decoderId));
    ValidAttribute(New("data").AddAttribute("decoder", ToDecimal(decoderId)), "v", ToDecimal(variable));
  }

  lemma DimensionHead(index: nat)
    ensures ValidNames(DimensionElement(index)) && DimensionElement(index).name == "dim"
    ensures DimensionElement(index).children == [] && DimensionElement(index).content == ""
  {
    ChannelNames();
    ValidNew("dim", "");
    ValidAttribute(New("dim"), "index", ToDecimal(index));
  }

  lemma {:induction false} FirstNamedAppend(es: seq<Element>, e: Element, name: string)
    ensures FirstNamed(es + [e], name)
         == if FirstNamed(es, name).Some? then FirstNamed(es, name) else if e.name == name then Some(e) else None
  {
    if es == [] {
      assert [] + [e] == [e] && [e][1..] == [];
    } else {
      assert (es + [e])[1..] == es[1..] + [e];
      FirstNamedAppend(es[1..], e, name);
    }
  }

  /** The data element as the first of its kind. */
  lemma AddData(dim: Element, decoderId: nat, variable: nat)
    requires ValidNames(dim) && dim.name == "dim" && dim.content == "" && FirstNamed(dim.children, "data").None?
    ensures GoodDimension(dim.AddChild(DataElement(decoderId, variable)), decoderId, variable)
  {
    DataIsValid(decoderId, variable);
    ValidChild(dim, DataElement(decoderId, variable));
    FirstNamedAppend(dim.children, DataElement(decoderId, variable), "data");
  }

  lemma AddBehind(dim: Element, decoderId: nat, variable: nat, e: Element)
    requires GoodDimension(dim, decoderId, variable) && ValidNames(e)
    ensures GoodDimension(dim.AddChild(e), decoderId, variable)
  {
    ValidChild(dim, e);
    FirstNamedAppend(dim.children, e, "data");
  }

  lemma UnitsAreGood(dim: Element, decoderId: nat, variable: nat, unit: Option<string>)
    requires GoodDimension(dim, decoderId, variable)
    ensures GoodDimension(AddUnits(dim, unit), decoderId, variable)
  {
    if unit.Some? {
      ChannelNames();
      ValidNew("units", unit.value);
      AddBehind(dim, decoderId, variable, UnitsElement(unit.value));
    }
  }

  lemma TransformIsValid(scale: string, offset: string)
    ensures ValidNames(TransformElement(scale, offset)) && TransformElement(scale, offset).name == "xform"
  {
    ChannelNames();
    ValidNew("xform", "");
    ValidAttribute(New("xform"), "scale", scale);
    ValidAttribute(New("xform").AddAttribute("scale", scale), "offset", offset);
  }

  lemma DomainDimensionIsGood(b: Binding)
    ensures GoodDimension(DomainDimension(b), b.decoderId, 0)
  {
    var x := TransformElement(b.domain.tickScale, ZERO_TEXT);
    DimensionHead(0);
    TransformIsValid(b.domain.tickScale, ZERO_TEXT);
    ValidChild(DimensionElement(0), x);
    var dim := DimensionElement(0).AddChild(x);
    assert dim.children == [x] && [x][1..] == [];
    AddData(dim, b.decoderId, 0);
    UnitsAreGood(dim.AddChild(DataElement(b.decoderId, 0)), b.decoderId, 0, b.domain.unit);
  }

  lemma ScalarDimensionIsGood(b: Binding)
    ensures GoodDimension(ScalarDimension(b), b.decoderId, 1)
  {
    DimensionHead(1);
    AddData(DimensionElement(1), b.decoderId, 1);
    var dim := DimensionElement(1).AddChild(DataElement(b.decoderId, 1));
    UnitsAreGood(dim, b.decoderId, 1, b.value.unit);
    var full := AddUnits(dim, b.value.unit);
    if b.value.range.Some? {
      var (low, high) := b.value.range.value;
      TagIsValid("FS_Min", low);
      TagIsValid("FS_Max", high);
      AddBehind(full, b.decoderId, 1, TagElement("FS_Min", low));
      AddBehind(full.AddChild(TagElement("FS_Min", low)), b.decoderId, 1, TagElement("FS_Max", high));
    }
  }

  lemma FieldDimensionIsGood(decoderId: nat, index: nat, field: DataDescriptor)
    ensures GoodDimension(FieldDimension(decoderId, index, field), decoderId, index)
  {
    var t := TagElement("openDAQ:fieldName", field.name);
    DimensionHead(index);
    TagIsValid("openDAQ:fieldName", field.name);
    ValidChild(DimensionElement(index), t);
    var dim := DimensionElement(index).AddChild(t);
    assert dim.children == [t] && [t][1..] == [];
    AddData(dim, decoderId, index);
  }

  // ----- Whole channels -----

  lemma ScalarTags(b: Binding, labels: Labels, ch: Element)
    requires IsScalar(b.value.sampleType) && ChannelFor(ch, b.group, [])
    ensures ChannelFor(
      ch.AddChild(TagElement("core:uuid", labels.uuid))
      .AddChild(TagElement("data_type", DataTypeText(b.value.sampleType)))
      .AddChild(TagElement("somat:data_format", SieReadType(b.value.sampleType).value.0))
      .AddChild(TagElement("core:description", labels.signal.description)), b.group, [])
  {
    AddTag(ch, b.group, [], "core:uuid", labels.uuid);
    var c1 := ch.AddChild(TagElement("core:uuid", labels.uuid));
    AddTag(c1, b.group, [], "data_type", DataTypeText(b.value.sampleType));
    var c2 := c1.AddChild(TagElement("data_type", DataTypeText(b.value.sampleType)));
    AddTag(c2, b.group, [], "somat:data_format", SieReadType(b.value.sampleType).value.0);
    var c3 := c2.AddChild(TagElement("somat:data_format", SieReadType(b.value.sampleType).value.0));
    AddTag(c3, b.group, [], "core:description", labels.signal.description);
  }

  lemma MoreScalarTags(b: Binding, labels: Labels, ch: Element)
    requires IsScalar(b.value.sampleType) && ChannelFor(ch, b.group, [])
    ensures ChannelFor(
      ch.AddChild(TagElement("somat:input_channel", labels.signal.globalId))
      .AddChild(TagElement("core:sample_rate", b.domain.rateText))
      .AddChild(TagElement("somat:data_bits", ToDecimal(SieReadType(b.value.sampleType).value.1)))
      .AddChild(TagElement("core:schema", "somat:sequential")), b.group, [])
  {
    AddTag(ch, b.group, [], "somat:input_channel", labels.signal.globalId);
    var c1 := ch.AddChild(TagElement("somat:input_channel", labels.signal.globalId));
    AddTag(c1, b.group, [], "core:sample_rate", b.domain.rateText);
    var c2 := c1.AddChild(TagElement("core:sample_rate", b.domain.rateText));
    AddTag(c2, b.group, [], "somat:data_bits", ToDecimal(SieReadType(b.value.sampleType).value.1));
    var c3 := c2.AddChild(TagElement("somat:data_bits", ToDecimal(SieReadType(b.value.sampleType).value.1)));
    AddTag(c3, b.group, [], "core:schema", "somat:sequential");
  }

  function ScalarSources(decoderId: nat): seq<Source> {
    [DimensionSource(decoderId, 0), DimensionSource(decoderId, 1)]
  }

  lemma {:induction false} ScalarChannelIsGood(b: Binding, labels: Labels)
    requires IsScalar(b.value.sampleType)
    ensures ChannelFor(ScalarChannel(b, labels), b.group, ScalarSources(b.decoderId))
  {
    var head := ChannelElement(b.channelId, b.group, b.value.name);
    ChannelHead(b.channelId, b.group, b.value.name);
    ScalarTags(b, labels, head);
    var c4 := head.AddChild(TagElement("core:uuid", labels.uuid))
              .AddChild(TagElement("data_type", DataTypeText(b.value.sampleType)))
              .AddChild(TagElement("somat:data_format", SieReadType(b.value.sampleType).value.0))
              .AddChild(TagElement("core:description", labels.signal.description));
    MoreScalarTags(b, labels, c4);
    var c8 := c4.AddChild(TagElement("somat:input_channel", labels.signal.globalId))
              .AddChild(TagElement("core:sample_rate", b.domain.rateText))
              .AddChild(TagElement("somat:data_bits", ToDecimal(SieReadType(b.value.sampleType).value.1)))
              .AddChild(TagElement("core:schema", "somat:sequential"));
    DomainDimensionIsGood(b);
    AddDimension(c8, b.group, [], DomainDimension(b), b.decoderId, 0);
    ScalarDimensionIsGood(b);
    AddDimension(c8.AddChild(DomainDimension(b)), b.group, [] + [DimensionSource(b.decoderId, 0)], ScalarDimension(b),
                 b.decoderId, 1);
    assert [] + [DimensionSource(b.decoderId, 0)] + [DimensionSource(b.decoderId, 1)] == ScalarSources(b.decoderId);
  }

  /** The sources of dimensions k .. k + count - 1. */
  function FieldSources(decoderId: nat, k: nat, count: nat): seq<Source>
    decreases count
  {
    if count == 0 then [] else [DimensionSource(decoderId, k)] + FieldSources(decoderId, k + 1, count - 1)
  }

  lemma {:induction false} AddFields(ch: Element, group: nat, sources: seq<Source>, decoderId: nat, k: nat,
                                     fields: seq<DataDescriptor>)
    requires ChannelFor(ch, group, sources)
    ensures ChannelFor(ch.(children := ch.children + FieldDimensions(decoderId, k, fields)), group,
                       sources + FieldSources(decoderId, k, |fields|))
    decreases |fields|
  {
    if fields == [] {
      assert ch.children + [] == ch.children && sources + [] == sources;
    } else {
      var dim := FieldDimension(decoderId, k, fields[0]);
      FieldDimensionIsGood(decoderId, k, fields[0]);
      AddDimension(ch, group, sources, dim, decoderId, k);
      AddFields(ch.AddChild(dim), group, sources + [DimensionSource(decoderId, k)], decoderId, k + 1, fields[1..]);
      ChildrenGroup(ch, dim, FieldDimensions(decoderId, k + 1, fields[1..]));
      Regroup(sources, DimensionSource(decoderId, k), FieldSources(decoderId, k + 1, |fields| - 1));
    }
  }

  lemma ChildrenGroup(ch: Element, first: Element, rest: seq<Element>)
    ensures ch.AddChild(first).(children := ch.AddChild(first).children + rest)
            == ch.(children := ch.children + ([first] + rest))
  {
    Regroup(ch.children, first, rest);
  }

  lemma Regroup<T>(before: seq<T>, first: T, rest: seq<T>)
    ensures (before + [first]) + rest == before + ([first] + rest)
  {
  }

  lemma CanTags(b: Binding, ch: Element)
    requires ChannelFor(ch, b.group, [])
    ensures ChannelFor(
      ch.AddChild(TagElement("core:description", "Raw CAN messages"))
      .AddChild(TagElement("data_type", "message_can"))
      .AddChild(TagElement("somat:datamode_type", "message_log"))
      .AddChild(TagElement("core:schema", "somat:message")), b.group, [])
  {
    AddTag(ch, b.group, [], "core:description", "Raw CAN messages");
    var c1 := ch.AddChild(TagElement("core:description", "Raw CAN messages"));
    AddTag(c1, b.group, [], "data_type", "message_can");
    var c2 := c1.AddChild(TagElement("data_type", "message_can"));
    AddTag(c2, b.group, [], "somat:datamode_type", "message_log");
    var c3 := c2.AddChild(TagElement("somat:datamode_type", "message_log"));
    AddTag(c3, b.group, [], "core:schema", "somat:message");
  }

  lemma {:induction false} CanChannelIsGood(b: Binding)
    ensures ChannelFor(CanChannel(b), b.group, FieldSources(b.decoderId, 0, 1 + |b.value.structFields|))
  {
    var head := ChannelElement(b.channelId, b.group, b.value.name);
    ChannelHead(b.channelId, b.group, b.value.name);
    CanTags(b, head);
    var c4 := head.AddChild(TagElement("core:description", "Raw CAN messages"))
              .AddChild(TagElement("data_type", "message_can"))
              .AddChild(TagElement("somat:datamode_type", "message_log"))
              .AddChild(TagElement("core:schema", "somat:message"));
    DomainDimensionIsGood(b);
    AddDimension(c4, b.group, [], DomainDimension(b), b.decoderId, 0);
    AddFields(c4.AddChild(DomainDimension(b)), b.group, [] + [DimensionSource(b.decoderId, 0)], b.decoderId, 1,
              b.value.structFields);
    assert [] + [DimensionSource(b.decoderId, 0)] + FieldSources(b.decoderId, 1, |b.value.structFields|)
        == FieldSources(b.decoderId, 0, 1 + |b.value.structFields|);
  }
}
