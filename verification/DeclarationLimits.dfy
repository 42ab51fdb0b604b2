/** The metadata of a declaration is XML text of one-byte characters, and not much longer than the texts that go
    into it. */
module DeclarationLimits {
  import opened Bytes
  import opened Xml
  import opened Decimal
  import opened SieXml
  import opened Descriptors
  import opened Handlers
  import opened FileLog
  import opened TextLimits
  import Can
  import ScalarLinear

  // ----- The texts that come from outside -----

  predicate NarrowOption(text: Option<string>) {
    text.Some? ==> Narrow(text.value)
  }

  function Length(text: Option<string>): nat {
    if text.Some? then |text.value| else 0
  }

  /** The texts of a domain descriptor, of a value descriptor and of a signal are XML text of one-byte
      characters. */
  predicate NarrowTexts(b: Binding, labels: Labels) {
    && Narrow(b.domain.tickScale) && Narrow(b.domain.rateText) && NarrowOption(b.domain.unit)
    && Narrow(b.value.name) && NarrowOption(b.value.unit)
    && (b.value.range.Some? ==> Narrow(b.value.range.value.0) && Narrow(b.value.range.value.1))
    && (forall i :: 0 <= i < |b.value.structFields| ==> Narrow(b.value.structFields[i].name))
    && Narrow(labels.uuid) && Narrow(labels.signal.description) && Narrow(labels.signal.globalId)
  }

  /** All texts that went into the declarations of a log are such texts. */
  predicate ByteTexts(log: seq<Entry>) {
    forall i :: 0 <= i < |log| && log[i].Declared? ==> NarrowTexts(log[i].binding, log[i].labels)
  }

  /** How many digits the ids take. */
  function IdLength(b: Binding, labels: Labels): nat {
    |ToDecimal(b.group)| + |ToDecimal(b.decoderId)| + |ToDecimal(b.channelId)| + |ToDecimal(labels.testId)|
  }

  // ----- Dimensions -----

  lemma Names()
    ensures Narrow("data") && Narrow("decoder") && Narrow("v") && Narrow("xform") && Narrow("scale") && Narrow("offset")
    ensures Narrow("dim") && Narrow("index") && Narrow("test") && Narrow("id") && Narrow("ch") && Narrow("group")
    ensures Narrow("name")
    ensures |"data"| == |"test"| == |"name"| == 4 && |"decoder"| == 7 && |"v"| == 1
    ensures |"xform"| == |"scale"| == |"index"| == |"group"| == 5
    ensures |"offset"| == 6 && |"dim"| == 3 && |"id"| == |"ch"| == 2
  {
  }

  lemma DataSlim(decoderId: nat, variable: nat, cap: nat)
    ensures Slim(DataElement(decoderId, variable), cap, 30 + 6 * |ToDecimal(decoderId)| + 6 * |ToDecimal(variable)|)
  {
    hide Narrow, Markup, OpenTag;
    Names();
    NarrowDecimal(decoderId);
    NarrowDecimal(variable);
    FourSlim("data", "decoder", ToDecimal(decoderId), "v", ToDecimal(variable), "v", "v", "v", "v");
    SlimEmpty(DataElement(decoderId, variable), cap,
              4 + 9 + 7 + 1 + 6 * |ToDecimal(decoderId)| + 6 * |ToDecimal(variable)|);
  }

  lemma ZeroTextIsNarrow()
    ensures Narrow(ZERO_TEXT) && |ZERO_TEXT| == 12
  {
  }

  lemma TransformSlim(scale: string, cap: nat)
    requires Narrow(scale)
    ensures Slim(TransformElement(scale, ZERO_TEXT), cap, 120 + 6 * |scale|)
  {
    hide Narrow, Markup, OpenTag;
    Names();
    ZeroTextIsNarrow();
    FourSlim("xform", "scale", scale, "offset", ZERO_TEXT, "v", "v", "v", "v");
    SlimEmpty(TransformElement(scale, ZERO_TEXT), cap, 5 + 9 + 5 + 6 + 6 * |scale| + 72);
  }

  lemma OneAttribute(name: string, id: string, value: string)
    requires Narrow(name) && Narrow(id) && Narrow(value)
    ensures SlimHead(New(name).AddAttribute(id, value), |name| + 5 + |id| + 6 * |value|)
  {
    hide Narrow, SlimHead;
    HeadNew(name);
    HeadAttribute(New(name), |name| + 1, id, value);
  }

  lemma {:induction false} DimensionHeadSlim(index: nat)
    ensures SlimHead(DimensionElement(index), 13 + 6 * |ToDecimal(index)|)
  {
    hide Narrow, SlimHead;
    Names();
    NarrowDecimal(index);
    OneAttribute("dim", "index", ToDecimal(index));
  }

  /** A list that may end in the units of the dimension. */
  lemma UnitsAdded(es: seq<Element>, w: nat, unit: Option<string>, cap: nat)
    requires SlimAll(es, cap, w) && NarrowOption(unit)
    ensures SlimAll(es + if unit.Some? then [UnitsElement(unit.value)] else [], cap, w + 21 + cap + 6 * Length(unit))
  {
    if unit.Some? {
      UnitsSlim(unit.value, cap);
      SlimMore(es, w, UnitsElement(unit.value), 20 + 6 * |unit.value|, cap);
    } else {
      assert es + [] == es;
    }
  }

  lemma Digits01()
    ensures |ToDecimal(0)| == 1 && |ToDecimal(1)| == 1
  {
  }

  lemma DomainDimensionSlim(b: Binding, labels: Labels, cap: nat)
    requires NarrowTexts(b, labels)
    ensures Slim(DomainDimension(b), cap, 240 + 4 * cap + 6 * |b.domain.tickScale| + 6 * Length(b.domain.unit)
            + 6 * |ToDecimal(b.decoderId)|)
  {
    hide Slim, SlimAll, SlimHead, Narrow;
    var x, data := TransformElement(b.domain.tickScale, ZERO_TEXT), DataElement(b.decoderId, 0);
    Digits01();
    Names();
    TransformSlim(b.domain.tickScale, cap + 1);
    DataSlim(b.decoderId, 0, cap + 1);
    SlimOne(x, cap + 1, 120 + 6 * |b.domain.tickScale|);
    var w1 := 120 + 6 * |b.domain.tickScale| + cap + 2;
    var wd := 30 + 6 * |ToDecimal(b.decoderId)| + 6 * |ToDecimal(0)|;
    SlimMore([x], w1, data, wd, cap + 1);
    var w2 := w1 + wd + cap + 2;
    var units := if b.domain.unit.Some? then [UnitsElement(b.domain.unit.value)] else [];
    UnitsAdded([x] + [data], w2, b.domain.unit, cap + 1);
    var es := [x] + [data] + units;
    DimensionHeadSlim(0);
    var w := w2 + 22 + cap + 6 * Length(b.domain.unit);
    SlimParent(DimensionElement(0), cap, 13 + 6 * |ToDecimal(0)|, es, w);
    assert DomainDimension(b) == DimensionElement(0).(children := es);
    SlimUp(DomainDimension(b), cap, 13 + 6 + w + cap + 3 + 5,
           240 + 4 * cap + 6 * |b.domain.tickScale| + 6 * Length(b.domain.unit) + 6 * |ToDecimal(b.decoderId)|);
  }

  lemma SlimUp(e: Element, cap: nat, w: nat, wider: nat)
    requires Slim(e, cap, w) && w <= wider
    ensures Slim(e, cap, wider)
  {
  }

  function RangeLength(range: Option<(string, string)>): nat {
    if range.Some? then |range.value.0| + |range.value.1| else 0
  }

  lemma RangeTags()
    ensures Narrow("FS_Min") && Narrow("FS_Max") && |"FS_Min"| == |"FS_Max"| == 6
  {
  }

  lemma RangeAdded(es: seq<Element>, w: nat, range: Option<(string, string)>, cap: nat)
    requires SlimAll(es, cap, w) && (range.Some? ==> Narrow(range.value.0) && Narrow(range.value.1))
    ensures SlimAll(es + if range.Some? then [TagElement("FS_Min", range.value.0)]
            + [TagElement("FS_Max", range.value.1)] else [],
                    cap, w + 114 + 2 * cap + 6 * RangeLength(range))
  {
    hide Slim, Narrow;
    if range.Some? {
      var (low, high) := range.value;
      RangeTags();
      TagSlim("FS_Min", low, cap);
      TagSlim("FS_Max", high, cap);
      SlimMore(es, w, TagElement("FS_Min", low), 20 + 36 + 6 * |low|, cap);
      SlimMore(es + [TagElement("FS_Min", low)], w + 57 + cap + 6 * |low|, TagElement("FS_Max", high),
               20 + 36 + 6 * |high|, cap);
      assert es + [TagElement("FS_Min", low)] + [TagElement("FS_Max", high)]
          == es + ([TagElement("FS_Min", low)] + [TagElement("FS_Max", high)]);
    } else {
      assert es + [] == es;
    }
  }

  lemma ScalarDimensionSlim(b: Binding, labels: Labels, cap: nat)
    requires NarrowTexts(b, labels)
    ensures Slim(ScalarDimension(b), cap,
                 240 + 5 * cap + 6 * Length(b.value.unit) + 6 * RangeLength(b.value.range)
                     + 6 * |ToDecimal(b.decoderId)|)
  {
    hide Slim, SlimAll, SlimHead, Narrow;
    var data := DataElement(b.decoderId, 1);
    Digits01();
    Names();
    DataSlim(b.decoderId, 1, cap + 1);
    var wd := 30 + 6 * |ToDecimal(b.decoderId)| + 6 * |ToDecimal(1)|;
    SlimOne(data, cap + 1, wd);
    var units := if b.value.unit.Some? then [UnitsElement(b.value.unit.value)] else [];
    UnitsAdded([data], wd + cap + 2, b.value.unit, cap + 1);
    var w2 := wd + cap + 2 + 22 + cap + 6 * Length(b.value.unit);
    var range := b.value.range;
    var tags := if range.Some? then [TagElement("FS_Min", range.value.0)] + [TagElement("FS_Max", range.value.1)]
        else [];
    RangeAdded([data] + units, w2, range, cap + 1);
    var w3 := w2 + 114 + 2 * (cap + 1) + 6 * RangeLength(range);
    var es := [data] + units + tags;
    DimensionHeadSlim(1);
    SlimParent(DimensionElement(1), cap, 13 + 6 * |ToDecimal(1)|, es, w3);
    assert ScalarDimension(b) == DimensionElement(1).(children := es);
    SlimUp(ScalarDimension(b), cap, 13 + 6 + w3 + cap + 3 + 5,
           240 + 5 * cap + 6 * Length(b.value.unit) + 6 * RangeLength(range) + 6 * |ToDecimal(b.decoderId)|);
  }

  // ----- The channel of a scalar signal -----

  lemma ScalarTagNames()
    ensures Narrow("core:uuid") && Narrow("data_type") && Narrow("somat:data_format") && Narrow("core:description")
    ensures Narrow("somat:input_channel") && Narrow("core:sample_rate") && Narrow("somat:data_bits")
    ensures Narrow("core:schema")
    ensures |"core:uuid"| <= 20 && |"data_type"| <= 20 && |"somat:data_format"| <= 20 && |"core:description"| <= 20
    ensures |"somat:input_channel"| <= 20 && |"core:sample_rate"| <= 20 && |"somat:data_bits"| <= 20
    ensures |"core:schema"| <= 20
  {
  }

  lemma ScalarTagValues(t: SampleType)
    requires IsScalar(t)
    ensures Narrow(DataTypeText(t)) && |DataTypeText(t)| <= 20
    ensures var (kind, bits) := SieReadType(t).value;
            Narrow(kind) && |kind| <= 20 && Narrow(ToDecimal(bits)) && |ToDecimal(bits)| <= 20
  {
    BitsAreShort(SieReadType(t).value.1);
  }

  lemma BitsAreShort(bits: nat)
    requires bits in {8, 16, 32, 64}
    ensures Narrow(ToDecimal(bits)) && |ToDecimal(bits)| <= 2
  {
    NarrowDecimal(bits);
    assert ToDecimal(bits / 10) == [Digit(bits / 10)];
  }

  /** A short tag behind others. */
  lemma TagAfter(es: seq<Element>, w: nat, id: string, value: string, cap: nat)
    requires SlimAll(es, cap, w) && Narrow(id) && |id| <= 20 && Narrow(value)
    ensures SlimAll(es + [TagElement(id, value)], cap, w + 141 + cap + 6 * |value|)
  {
    hide Narrow, SlimAll, Slim, TagElement;
    TagSlim(id, value, cap);
    SlimUp(TagElement(id, value), cap, 20 + 6 * |id| + 6 * |value|, 140 + 6 * |value|);
    SlimMore(es, w, TagElement(id, value), 140 + 6 * |value|, cap);
  }

  function ScalarTags(b: Binding, labels: Labels): seq<Element>
    requires IsScalar(b.value.sampleType)
  {
    var (kind, bits) := SieReadType(b.value.sampleType).value;
    []
    + [TagElement("core:uuid", labels.uuid)]
    + [TagElement("data_type", DataTypeText(b.value.sampleType))]
    + [TagElement("somat:data_format", kind)]
    + [TagElement("core:description", labels.signal.description)]
    + [TagElement("somat:input_channel", labels.signal.globalId)]
    + [TagElement("core:sample_rate", b.domain.rateText)]
    + [TagElement("somat:data_bits", ToDecimal(bits))]
    + [TagElement("core:schema", "somat:sequential")]
  }

  /** The texts a scalar channel is made of. */
  function ScalarLength(b: Binding, labels: Labels): nat {
    |labels.uuid| + |labels.signal.description| + |labels.signal.globalId| + |b.domain.rateText| + |b.domain.tickScale|
    + Length(b.domain.unit) + Length(b.value.unit) + RangeLength(b.value.range) + |b.value.name|
  }

  lemma ScalarTagsSlim(b: Binding, labels: Labels)
    requires IsScalar(b.value.sampleType) && NarrowTexts(b, labels)
    ensures SlimAll(ScalarTags(b, labels), 3,
                    8 * 144 + 480 + 6 * |labels.uuid| + 6 * |labels.signal.description| + 6 * |labels.signal.globalId|
                        + 6 * |b.domain.rateText|)
  {
    hide SlimAll, TagElement, Narrow, DataTypeText;
    var (kind, bits) := SieReadType(b.value.sampleType).value;
    ScalarTagNames();
    ScalarTagValues(b.value.sampleType);
    SequentialIsNarrow();
    SlimNone(3);
    var e0: seq<Element> := [];
    TagAfter(e0, 0, "core:uuid", labels.uuid, 3);
    var e1, w1 := e0 + [TagElement("core:uuid", labels.uuid)], 144 + 6 * |labels.uuid|;
    TagAfter(e1, w1, "data_type", DataTypeText(b.value.sampleType), 3);
    var e2, w2 := e1 + [TagElement("data_type", DataTypeText(b.value.sampleType))], w1 + 144
        + 6 * |DataTypeText(b.value.sampleType)|;
    TagAfter(e2, w2, "somat:data_format", kind, 3);
    var e3, w3 := e2 + [TagElement("somat:data_format", kind)], w2 + 144 + 6 * |kind|;
    TagAfter(e3, w3, "core:description", labels.signal.description, 3);
    var e4, w4 := e3 + [TagElement("core:description", labels.signal.description)], w3 + 144
        + 6 * |labels.signal.description|;
    TagAfter(e4, w4, "somat:input_channel", labels.signal.globalId, 3);
    var e5, w5 := e4 + [TagElement("somat:input_channel", labels.signal.globalId)], w4 + 144
        + 6 * |labels.signal.globalId|;
    TagAfter(e5, w5, "core:sample_rate", b.domain.rateText, 3);
    var e6, w6 := e5 + [TagElement("core:sample_rate", b.domain.rateText)], w5 + 144 + 6 * |b.domain.rateText|;
    TagAfter(e6, w6, "somat:data_bits", ToDecimal(bits), 3);
    var e7, w7 := e6 + [TagElement("somat:data_bits", ToDecimal(bits))], w6 + 144 + 6 * |ToDecimal(bits)|;
    TagAfter(e7, w7, "core:schema", "somat:sequential", 3);
    SlimWider(ScalarTags(b, labels), 3, w7 + 144 + 6 * |"somat:sequential"|,
              8 * 144 + 480 + 6 * |labels.uuid| + 6 * |labels.signal.description| + 6 * |labels.signal.globalId|
                  + 6 * |b.domain.rateText|);
  }

  lemma SequentialIsNarrow()
    ensures Narrow("somat:sequential") && |"somat:sequential"| <= 20
  {
  }

  lemma ChannelHeadSlim(b: Binding)
    requires Narrow(b.value.name)
    ensures SlimHead(ChannelElement(b.channelId, b.group, b.value.name),
                     30 + 6 * |ToDecimal(b.channelId)| + 6 * |ToDecimal(b.group)| + 6 * |b.value.name|)
  {
    hide Narrow, OpenTag;
    Names();
    NarrowDecimal(b.channelId);
    NarrowDecimal(b.group);
    FourSlim("ch", "id", ToDecimal(b.channelId), "group", ToDecimal(b.group), "name", b.value.name, "v", "v");
  }

  lemma ScalarChannelSlim(b: Binding, labels: Labels)
    requires IsScalar(b.value.sampleType) && NarrowTexts(b, labels)
    ensures Slim(ScalarChannel(b, labels), 2, 3000 + 6 * ScalarLength(b, labels) + 12 * IdLength(b, labels))
  {
    hide Slim, SlimAll, SlimHead, Narrow, TagElement, DomainDimension, ScalarDimension;
    var head, tags := ChannelElement(b.channelId, b.group, b.value.name), ScalarTags(b, labels);
    Names();
    ChannelHeadSlim(b);
    ScalarTagsSlim(b, labels);
    var w0 := 8 * 144 + 480 + 6 * |labels.uuid| + 6 * |labels.signal.description| + 6 * |labels.signal.globalId|
        + 6 * |b.domain.rateText|;
    DomainDimensionSlim(b, labels, 3);
    var wd := 240 + 12 + 6 * |b.domain.tickScale| + 6 * Length(b.domain.unit) + 6 * |ToDecimal(b.decoderId)|;
    SlimMore(tags, w0, DomainDimension(b), wd, 3);
    ScalarDimensionSlim(b, labels, 3);
    var ws := 240 + 15 + 6 * Length(b.value.unit) + 6 * RangeLength(b.value.range) + 6 * |ToDecimal(b.decoderId)|;
    SlimMore(tags + [DomainDimension(b)], w0 + wd + 4, ScalarDimension(b), ws, 3);
    var es := tags + [DomainDimension(b)] + [ScalarDimension(b)];
    var wh := 30 + 6 * |ToDecimal(b.channelId)| + 6 * |ToDecimal(b.group)| + 6 * |b.value.name|;
    SlimParent(head, 2, wh, es, w0 + wd + 4 + ws + 4);
    assert ScalarChannel(b, labels) == head.(children := es);
    SlimUp(ScalarChannel(b, labels), 2, wh + w0 + wd + ws + 8 + 2 + 2 + 5,
           3000 + 6 * ScalarLength(b, labels) + 12 * IdLength(b, labels));
  }

  // ----- The decoder of a scalar signal -----

  lemma LoopNames()
    ensures Narrow("loop") && Narrow("var") && Narrow("v0") && Narrow("v1") && Narrow("start") && Narrow("increment")
    ensures Narrow("end")
    ensures Narrow("{$offset + ") && Narrow("}") && Narrow("sample") && Narrow("int") && Narrow("uint") && Narrow("i")
    ensures Narrow("n")
    ensures Narrow("0") && Narrow("{$n}")
    ensures |"loop"| == 4 && |"var"| == 3 && |"v0"| == |"v1"| == 2 && |"start"| == 5 && |"increment"| == 9
    ensures |"end"| == 3
    ensures |"{$offset + "| == 11 && |"sample"| == 6 && |"int"| == 3 && |"uint"| == 4 && |"n"| == |"i"| == 1
    ensures |"{$n}"| == 4
  {
  }

  lemma SampleSlim(cap: nat)
    ensures Slim(SampleElement(), cap, 9)
  {
    hide Narrow, OpenTag, Markup;
    LoopNames();
    HeadNew("sample");
    SlimEmpty(SampleElement(), cap, 7);
  }

  function StartText(start: int): string {
    "{$offset + " + ToSigned(start) + "}"
  }

  lemma StartTextIsNarrow(start: int)
    ensures Narrow(StartText(start)) && |StartText(start)| == 12 + |ToSigned(start)|
  {
    hide ToSigned;
    LoopNames();
    SignedIsNarrow(start);
    NarrowJoin("{$offset + ", ToSigned(start));
    NarrowJoin("{$offset + " + ToSigned(start), "}");
  }

  lemma ScalarLoopSlim(start: int, delta: int, kind: string, bits: nat, native: Endian)
    requires Narrow(kind) && |kind| <= 5 && bits in {8, 16, 32, 64}
    ensures Slim(ScalarLinear.LoopElement(start, delta, kind, bits, native), 2, 400 + 6 * |ToSigned(start)|
            + 6 * |ToSigned(delta)|)
  {
    hide Narrow, OpenTag, Markup, SlimAll, SlimHead, Slim, ToSigned;
    LoopNames();
    StartTextIsNarrow(start);
    SignedIsNarrow(delta);
    FourSlim("loop", "var", "v0", "start", StartText(start), "increment", ToSigned(delta), "var", "v0");
    var head := New("loop").AddAttribute("var", "v0").AddAttribute("start", StartText(start))
        .AddAttribute("increment", ToSigned(delta));
    var wh := 4 + 13 + 3 + 5 + 9 + 12 + 6 * (12 + |ToSigned(start)|) + 6 * |ToSigned(delta)|;
    BitsAreShort(bits);
    ReadSlim("v1", kind, bits, native, 3);
    var read, wr := ReadElement("v1", kind, bits, native), 80 + 12 + 6 * |kind| + 6 * |ToDecimal(bits)|;
    SlimOne(read, 3, wr);
    SampleSlim(3);
    SlimMore([read], wr + 4, SampleElement(), 9, 3);
    var es := [read] + [SampleElement()];
    SlimParent(head, 2, wh, es, wr + 4 + 9 + 4);
    assert ScalarLinear.LoopElement(start, delta, kind, bits, native) == head.(children := es);
    SlimUp(head.(children := es), 2, wh + wr + 17 + 2 + 4 + 5, 400 + 6 * |ToSigned(start)| + 6 * |ToSigned(delta)|);
  }

  lemma DecoderHeadSlim(id: nat)
    ensures SlimHead(DecoderElement(id), 14 + 6 * |ToDecimal(id)|)
  {
    hide Narrow, SlimHead;
    Names();
    NarrowDecimal(id);
    OneAttribute("decoder", "id", ToDecimal(id));
  }

  /** The digits of the linear rule. */
  function RuleLength(domain: DataDescriptor): nat {
    var r := LinearStartDelta(domain);
    if r.Some? then |ToSigned(r.value.0)| + |ToSigned(r.value.1)| else 0
  }

  lemma ScalarDecoderSlim(b: Binding, native: Endian)
    requires ScalarReady(b)
    ensures Slim(ScalarDecoder(b, native), 1, 700 + 6 * RuleLength(b.domain) + 6 * |ToDecimal(b.decoderId)|)
  {
    hide Narrow, OpenTag, Markup, SlimAll, SlimHead, Slim, ToSigned, ScalarLinear.LoopElement;
    var (start, delta) := LinearStartDelta(b.domain).value;
    var (kind, bits) := SieReadType(b.value.sampleType).value;
    LoopNames();
    Names();
    KindIsShort(b.value.sampleType);
    BitsAreShort(64);
    ReadSlim("offset", "int", 64, native, 2);
    var read, wr := ReadElement("offset", "int", 64, native), 80 + 36 + 18 + 6 * |ToDecimal(64)|;
    SlimOne(read, 2, wr);
    ScalarLoopSlim(start, delta, kind, bits, native);
    var loop, wl := ScalarLinear.LoopElement(start, delta, kind, bits, native), 400 + 6 * |ToSigned(start)|
        + 6 * |ToSigned(delta)|;
    SlimMore([read], wr + 3, loop, wl, 2);
    var es := [read] + [loop];
    DecoderHeadSlim(b.decoderId);
    SlimParent(DecoderElement(b.decoderId), 1, 14 + 6 * |ToDecimal(b.decoderId)|, es, wr + 3 + wl + 3);
    assert ScalarDecoder(b, native) == DecoderElement(b.decoderId).(children := es);
    SlimUp(ScalarDecoder(b, native), 1, 14 + 6 * |ToDecimal(b.decoderId)| + wr + wl + 6 + 1 + 7 + 5,
           700 + 6 * RuleLength(b.domain) + 6 * |ToDecimal(b.decoderId)|);
  }

  lemma KindIsShort(t: SampleType)
    requires IsScalar(t)
    ensures Narrow(SieReadType(t).value.0) && |SieReadType(t).value.0| <= 5
  {
  }

  lemma TestSlim(testId: nat, channel: Element, w: nat)
    requires Slim(channel, 2, w)
    ensures Slim(TestWith(testId, channel), 1, w + 40 + 6 * |ToDecimal(testId)|)
  {
    hide Narrow, OpenTag, Markup, SlimAll, SlimHead, Slim;
    Names();
    NarrowDecimal(testId);
    OneAttribute("test", "id", ToDecimal(testId));
    SlimOne(channel, 2, w);
    SlimParent(TestElement(testId), 1, 4 + 5 + 2 + 6 * |ToDecimal(testId)|, [channel], w + 3);
    assert TestWith(testId, channel) == TestElement(testId).(children := [channel]);
    SlimUp(TestWith(testId, channel), 1, 11 + 6 * |ToDecimal(testId)| + w + 3 + 1 + 4 + 5,
           w + 40 + 6 * |ToDecimal(testId)|);
  }

  lemma PairSlim(a: Element, wa: nat, b: Element, wb: nat)
    requires Slim(a, 1, wa) && Slim(b, 1, wb)
    ensures Narrow(SerializeAll([a, b], 1)) && |SerializeAll([a, b], 1)| <= wa + wb + 4
  {
    hide Slim;
    SlimOne(a, 1, wa);
    SlimMore([a], wa + 2, b, wb, 1);
    assert [a] + [b] == [a, b];
  }

  /** The metadata a scalar handler declares itself with. */
  lemma ScalarDeclaration(b: Binding, labels: Labels, native: Endian)
    requires ScalarReady(b) && NarrowTexts(b, labels)
    ensures var text := SerializeAll(ScalarElements(b, labels, native), 1);
            Narrow(text) && |text| <= 4000 + 6 * ScalarLength(b, labels) + 6 * RuleLength(b.domain)
                + 24 * IdLength(b, labels)
  {
    hide Narrow, Slim, NarrowTexts, ScalarChannel, ScalarDecoder, TestWith;
    var channel := ScalarChannel(b, labels);
    ScalarDecoderSlim(b, native);
    ScalarChannelSlim(b, labels);
    var wc := 3000 + 6 * ScalarLength(b, labels) + 12 * IdLength(b, labels);
    TestSlim(labels.testId, channel, wc);
    PairSlim(ScalarDecoder(b, native), 700 + 6 * RuleLength(b.domain) + 6 * |ToDecimal(b.decoderId)|,
             TestWith(labels.testId, channel), wc + 40 + 6 * |ToDecimal(labels.testId)|);
  }

  // ----- CAN signals -----

  lemma FieldTagName()
    ensures Narrow("openDAQ:fieldName") && |"openDAQ:fieldName"| <= 20
  {
  }

  function FieldLength(field: DataDescriptor, decoderId: nat, index: nat): nat {
    400 + 6 * |field.name| + 12 * |ToDecimal(index)| + 6 * |ToDecimal(decoderId)|
  }

  lemma FieldDimensionSlim(decoderId: nat, index: nat, field: DataDescriptor)
    requires Narrow(field.name)
    ensures Slim(FieldDimension(decoderId, index, field), 3, FieldLength(field, decoderId, index))
  {
    hide Narrow, OpenTag, Markup, SlimAll, SlimHead, Slim;
    Names();
    FieldTagName();
    var tag, data := TagElement("openDAQ:fieldName", field.name), DataElement(decoderId, index);
    TagSlim("openDAQ:fieldName", field.name, 4);
    var wt := 20 + 6 * |"openDAQ:fieldName"| + 6 * |field.name|;
    SlimOne(tag, 4, wt);
    DataSlim(decoderId, index, 4);
    var wd := 30 + 6 * |ToDecimal(decoderId)| + 6 * |ToDecimal(index)|;
    SlimMore([tag], wt + 5, data, wd, 4);
    DimensionHeadSlim(index);
    SlimParent(DimensionElement(index), 3, 13 + 6 * |ToDecimal(index)|, [tag] + [data], wt + 5 + wd + 5);
    assert FieldDimension(decoderId, index, field) == DimensionElement(index).(children := [tag] + [data]);
    SlimUp(FieldDimension(decoderId, index, field), 3, 13 + 6 * |ToDecimal(index)| + wt + wd + 10 + 3 + 3 + 5,
           FieldLength(field, decoderId, index));
  }

  function FieldsLength(fields: seq<DataDescriptor>, decoderId: nat, index: nat): nat
    decreases |fields|
  {
    if fields == [] then 0
    else FieldLength(fields[0], decoderId, index) + 4 + FieldsLength(fields[1..], decoderId, index + 1)
  }

  predicate NarrowFields(fields: seq<DataDescriptor>) {
    forall i :: 0 <= i < |fields| ==> Narrow(fields[i].name)
  }

  lemma {:induction false} FieldDimensionsSlim(decoderId: nat, index: nat, fields: seq<DataDescriptor>)
    requires NarrowFields(fields)
    ensures SlimAll(FieldDimensions(decoderId, index, fields), 3, FieldsLength(fields, decoderId, index))
    decreases |fields|
  {
    hide SlimAll, Slim, FieldLength, FieldDimension;
    if fields == [] {
      SlimNone(3);
    } else {
      assert NarrowFields(fields[1..]);
      FieldDimensionSlim(decoderId, index, fields[0]);
      SlimOne(FieldDimension(decoderId, index, fields[0]), 3, FieldLength(fields[0], decoderId, index));
      FieldDimensionsSlim(decoderId, index + 1, fields[1..]);
      SlimJoin([FieldDimension(decoderId, index, fields[0])], FieldLength(fields[0], decoderId, index) + 4,
               FieldDimensions(decoderId, index + 1, fields[1..]), FieldsLength(fields[1..], decoderId, index + 1), 3);
    }
  }

  lemma CanTagValues()
    ensures Narrow("Raw CAN messages") && Narrow("message_can") && Narrow("message_log") && Narrow("somat:message")
    ensures Narrow("somat:datamode_type") && |"somat:datamode_type"| <= 20
    ensures |"Raw CAN messages"| <= 20 && |"message_can"| <= 20 && |"message_log"| <= 20 && |"somat:message"| <= 20
  {
  }

  function CanTags(): seq<Element> {
    []
    + [TagElement("core:description", "Raw CAN messages")]
    + [TagElement("data_type", "message_can")]
    + [TagElement("somat:datamode_type", "message_log")]
    + [TagElement("core:schema", "somat:message")]
  }

  lemma CanTagsSlim(description: string, can: string, log: string, message: string)
    requires description == "Raw CAN messages" && can == "message_can" && log == "message_log"
    requires message == "somat:message"
    ensures SlimAll(CanTags(), 3, 1056)
  {
    hide SlimAll, TagElement, Narrow;
    ScalarTagNames();
    CanTagValues();
    SlimNone(3);
    var e0: seq<Element> := [];
    TagAfter(e0, 0, "core:description", description, 3);
    var e1 := e0 + [TagElement("core:description", description)];
    TagAfter(e1, 144 + 6 * |description|, "data_type", can, 3);
    var e2 := e1 + [TagElement("data_type", can)];
    TagAfter(e2, 288 + 6 * |description| + 6 * |can|, "somat:datamode_type", log, 3);
    var e3 := e2 + [TagElement("somat:datamode_type", log)];
    TagAfter(e3, 432 + 6 * |description| + 6 * |can| + 6 * |log|, "core:schema", message, 3);
    SlimWider(CanTags(), 3, 576 + 6 * |description| + 6 * |can| + 6 * |log| + 6 * |message|, 1056);
  }

  function CanLength(b: Binding): nat {
    FieldsLength(b.value.structFields, b.decoderId, 1) + 6 * |b.domain.tickScale| + 6 * Length(b.domain.unit)
        + 6 * |b.value.name|
  }

  lemma CanChannelSlim(b: Binding, labels: Labels)
    requires NarrowTexts(b, labels)
    ensures Slim(CanChannel(b), 2, 2000 + CanLength(b) + 12 * IdLength(b, labels))
  {
    hide Slim, SlimAll, SlimHead, Narrow, CanTags, TagElement, DomainDimension, FieldDimensions, FieldsLength;
    var head, fields := ChannelElement(b.channelId, b.group, b.value.name), FieldDimensions(b.decoderId, 1,
        b.value.structFields);
    Names();
    ChannelHeadSlim(b);
    CanTagsSlim("Raw CAN messages", "message_can", "message_log", "somat:message");
    DomainDimensionSlim(b, labels, 3);
    var wd := 240 + 12 + 6 * |b.domain.tickScale| + 6 * Length(b.domain.unit) + 6 * |ToDecimal(b.decoderId)|;
    SlimMore(CanTags(), 1056, DomainDimension(b), wd, 3);
    FieldDimensionsSlim(b.decoderId, 1, b.value.structFields);
    SlimJoin(CanTags() + [DomainDimension(b)], 1056 + wd + 4, fields,
             FieldsLength(b.value.structFields, b.decoderId, 1), 3);
    var es := CanTags() + [DomainDimension(b)] + fields;
    var wh := 30 + 6 * |ToDecimal(b.channelId)| + 6 * |ToDecimal(b.group)| + 6 * |b.value.name|;
    var we := 1056 + wd + 4 + FieldsLength(b.value.structFields, b.decoderId, 1);
    SlimParent(head, 2, wh, es, we);
    CanChannelIs(b);
    SlimUp(CanChannel(b), 2, wh + we + 2 + 2 + 5, 2000 + CanLength(b) + 12 * IdLength(b, labels));
  }

  lemma CanChannelIs(b: Binding)
    ensures CanChannel(b)
         == ChannelElement(b.channelId, b.group, b.value.name)
            .(children := CanTags() + [DomainDimension(b)] + FieldDimensions(b.decoderId, 1, b.value.structFields))
  {
    hide DomainDimension, FieldDimensions, TagElement;
  }

  // ----- The decoder of a CAN signal -----

  function ReadLength(field: DataDescriptor, index: nat): nat {
    200 + 6 * |ToDecimal(index)| + if field.dimensions.Some?
        && field.dimensions.value != [] then 6 * |ToDecimal(field.dimensions.value[0].size)| else 0
  }

  function ReadsLength(fields: seq<DataDescriptor>, index: nat): nat
    decreases |fields|
  {
    if fields == [] then 0 else ReadLength(fields[0], index) + 4 + ReadsLength(fields[1..], index + 1)
  }

  lemma VariableIsNarrow(index: nat)
    ensures Narrow(Can.Variable(index)) && |Can.Variable(index)| == 1 + |ToDecimal(index)|
  {
    hide ToDecimal;
    NarrowDecimal(index);
    Names();
    NarrowJoin("v", ToDecimal(index));
  }

  lemma FieldReadSlim(field: DataDescriptor, index: nat, native: Endian)
    requires Can.GoodField(field)
    ensures Slim(Can.FieldElement(field, index, native), 3, ReadLength(field, index))
  {
    hide Narrow, OpenTag, Markup, Slim, Can.Variable;
    VariableIsNarrow(index);
    var v := Can.Variable(index);
    if Can.IsRawField(field) {
      var octets := field.dimensions.value[0].size;
      RawReadSlim(v, octets, 3);
      SlimUp(ReadRawElement(v, octets), 3, 80 + 6 * |v| + 6 * |ToDecimal(octets)|, ReadLength(field, index));
    } else {
      var (kind, bits) := SieReadType(field.sampleType).value;
      KindIsShort(field.sampleType);
      BitsAreShort(bits);
      ReadSlim(v, kind, bits, native, 3);
      SlimUp(ReadElement(v, kind, bits, native), 3, 80 + 6 * |v| + 6 * |kind| + 6 * |ToDecimal(bits)|,
             ReadLength(field, index));
    }
  }

  lemma {:induction false} FieldReadsSlim(fields: seq<DataDescriptor>, index: nat, native: Endian)
    requires Can.GoodFields(fields)
    ensures SlimAll(Can.FieldElements(fields, index, native), 3, ReadsLength(fields, index))
    decreases |fields|
  {
    hide SlimAll, Slim, ReadLength, Can.FieldElement, Can.GoodField;
    if fields == [] {
      SlimNone(3);
    } else {
      FieldReadSlim(fields[0], index, native);
      SlimOne(Can.FieldElement(fields[0], index, native), 3, ReadLength(fields[0], index));
      FieldReadsSlim(fields[1..], index + 1, native);
      SlimJoin([Can.FieldElement(fields[0], index, native)], ReadLength(fields[0], index) + 4,
               Can.FieldElements(fields[1..], index + 1, native), ReadsLength(fields[1..], index + 1), 3);
    }
  }

  lemma SeekNames()
    ensures Narrow("seek") && Narrow("from") && Narrow("start") && Narrow("offset")
    ensures |"seek"| == |"from"| == 4 && |"start"| == 5 && |"offset"| == 6
  {
  }

  lemma SeekSlim(offset: string, cap: nat)
    requires Narrow(offset)
    ensures Slim(SeekElement("start", offset), cap, 60 + 6 * |offset|)
  {
    hide Narrow, OpenTag, Markup;
    SeekNames();
    FourSlim("seek", "from", "start", "offset", offset, "from", "start", "from", "start");
    SlimEmpty(SeekElement("start", offset), cap, 4 + 9 + 4 + 6 + 30 + 6 * |offset|);
  }

  lemma SmallNumbers(n: nat)
    requires n <= 12
    ensures Narrow(ToDecimal(n)) && |ToDecimal(n)| <= 2
  {
    NarrowDecimal(n);
  }

  lemma SeekParts()
    ensures Narrow("{") && Narrow(" + (") && Narrow(" * $n) + (69 * $i)}") && Narrow(" * $i)}")
    ensures |" * $n) + (69 * $i)}"| == 19 && |" * $i)}"| == 7 && |" + ("| == 4
  {
  }

  lemma FiveParts(a: string, b: string, c: string, d: string, e: string)
    requires Narrow(a) && Narrow(b) && Narrow(c) && Narrow(d) && Narrow(e)
    ensures Narrow(a + b + c + d + e)
  {
    NarrowJoin(a, b);
    NarrowJoin(a + b, c);
    NarrowJoin(a + b + c, d);
    NarrowJoin(a + b + c + d, e);
  }

  lemma OffsetTexts(width: nat)
    requires width <= 8
    ensures Narrow(Can.MessageOffsetText(width)) && |Can.MessageOffsetText(width)| <= 40
    ensures Narrow(Can.NextOffsetText(width)) && |Can.NextOffsetText(width)| <= 40
  {
    hide Narrow, ToDecimal;
    SeekParts();
    SmallNumbers(4);
    SmallNumbers(width);
    SmallNumbers(4 + width);
    FiveParts("{", ToDecimal(4), " + (", ToDecimal(width), " * $n) + (69 * $i)}");
    FiveParts("{", ToDecimal(4 + width), " + (", ToDecimal(width), " * $i)}");
  }

  lemma CanLoopHead()
    ensures SlimHead(New("loop").AddAttribute("var", "i").AddAttribute("start", "0").AddAttribute("end", "{$n}"), 100)
  {
    hide Narrow, OpenTag;
    LoopNames();
    FourSlim("loop", "var", "i", "start", "0", "end", "{$n}", "var", "i");
  }

  lemma CanLoopSlim(kind: string, bits: nat, fields: seq<DataDescriptor>, native: Endian)
    requires Can.GoodFields(fields) && Narrow(kind) && |kind| <= 5 && bits in {8, 16, 32, 64}
    ensures Slim(Can.LoopElement(kind, bits, fields, native), 2, 1200 + ReadsLength(fields, 1))
  {
    hide Narrow, OpenTag, Markup, SlimAll, SlimHead, Slim, Can.FieldElements, Can.MessageOffsetText, Can.NextOffsetText,
      ReadsLength;
    LoopNames();
    CanLoopHead();
    BitsAreShort(bits);
    OffsetTexts(bits / 8);
    var there, back := SeekElement("start", Can.MessageOffsetText(bits / 8)), SeekElement("start",
        Can.NextOffsetText(bits / 8));
    var read := ReadElement("v0", kind, bits, native);
    ReadSlim("v0", kind, bits, native, 3);
    SlimUp(read, 3, 80 + 12 + 6 * |kind| + 6 * |ToDecimal(bits)|, 150);
    SlimOne(read, 3, 150);
    SeekSlim(Can.MessageOffsetText(bits / 8), 3);
    SlimUp(there, 3, 60 + 6 * |Can.MessageOffsetText(bits / 8)|, 300);
    SlimMore([read], 154, there, 300, 3);
    FieldReadsSlim(fields, 1, native);
    SlimJoin([read] + [there], 458, Can.FieldElements(fields, 1, native), ReadsLength(fields, 1), 3);
    SampleSlim(3);
    SlimOne(SampleElement(), 3, 9);
    SeekSlim(Can.NextOffsetText(bits / 8), 3);
    SlimUp(back, 3, 60 + 6 * |Can.NextOffsetText(bits / 8)|, 300);
    SlimMore([SampleElement()], 13, back, 300, 3);
    SlimJoin([read] + [there] + Can.FieldElements(fields, 1, native), 458 + ReadsLength(fields, 1),
             [SampleElement()] + [back], 317, 3);
    var es := [read] + [there] + Can.FieldElements(fields, 1, native) + ([SampleElement()] + [back]);
    var head := New("loop").AddAttribute("var", "i").AddAttribute("start", "0").AddAttribute("end", "{$n}");
    SlimParent(head, 2, 100, es, 775 + ReadsLength(fields, 1));
    assert [read] + [there] == [read, there] && [SampleElement()] + [back] == [SampleElement(), back];
    assert Can.LoopElement(kind, bits, fields, native) == head.(children := es);
    SlimUp(head.(children := es), 2, 100 + 775 + ReadsLength(fields, 1) + 2 + 4 + 5, 1200 + ReadsLength(fields, 1));
  }

  lemma CanDecoderSlim(b: Binding, native: Endian)
    requires CanReady(b)
    ensures Slim(CanDecoder(b, native), 1, 1500 + ReadsLength(b.value.structFields, 1) + 6 * |ToDecimal(b.decoderId)|)
  {
    hide Narrow, OpenTag, Markup, SlimAll, SlimHead, Slim, Can.LoopElement, ReadsLength;
    var (kind, bits) := SieReadType(b.domain.sampleType).value;
    LoopNames();
    Names();
    KindIsShort(b.domain.sampleType);
    BitsAreShort(32);
    var read := ReadElement("n", "uint", 32, native);
    ReadSlim("n", "uint", 32, native, 2);
    SlimUp(read, 2, 80 + 6 + 24 + 6 * |ToDecimal(32)|, 150);
    SlimOne(read, 2, 150);
    CanLoopSlim(kind, bits, b.value.structFields, native);
    var loop, wl := Can.LoopElement(kind, bits, b.value.structFields, native), 1200
        + ReadsLength(b.value.structFields, 1);
    SlimMore([read], 153, loop, wl, 2);
    DecoderHeadSlim(b.decoderId);
    SlimParent(DecoderElement(b.decoderId), 1, 14 + 6 * |ToDecimal(b.decoderId)|, [read] + [loop], 156 + wl);
    assert CanDecoder(b, native) == DecoderElement(b.decoderId).(children := [read] + [loop]);
    SlimUp(CanDecoder(b, native), 1, 14 + 6 * |ToDecimal(b.decoderId)| + 156 + wl + 1 + 7 + 5,
           1500 + ReadsLength(b.value.structFields, 1) + 6 * |ToDecimal(b.decoderId)|);
  }

  /** The metadata a CAN handler declares itself with. */
  lemma CanDeclaration(b: Binding, labels: Labels, native: Endian)
    requires CanReady(b) && NarrowTexts(b, labels)
    ensures var text := SerializeAll(CanElements(b, labels.testId, native), 1);
            Narrow(text) && |text| <= 4000 + CanLength(b) + ReadsLength(b.value.structFields, 1)
                + 24 * IdLength(b, labels)
  {
    hide Narrow, Slim, NarrowTexts, CanChannel, CanDecoder, TestWith, CanLength, ReadsLength;
    CanDecoderSlim(b, native);
    CanChannelSlim(b, labels);
    var wc := 2000 + CanLength(b) + 12 * IdLength(b, labels);
    TestSlim(labels.testId, CanChannel(b), wc);
    PairSlim(CanDecoder(b, native), 1500 + ReadsLength(b.value.structFields, 1) + 6 * |ToDecimal(b.decoderId)|,
             TestWith(labels.testId, CanChannel(b)), wc + 40 + 6 * |ToDecimal(labels.testId)|);
  }

  // ----- Any declaration -----

  /** A bound on the length of a declaration. */
  function DeclarationLength(h: Handler, b: Binding, labels: Labels): nat {
    4000 + 24 * IdLength(b, labels)
    + if h.ScalarHandler? then 6 * ScalarLength(b, labels) + 6 * RuleLength(b.domain)
      else CanLength(b) + ReadsLength(b.value.structFields, 1)
  }

  /** If the texts a declaration is made of are such texts, so is its metadata, and it is not much longer
      than they are. */
  lemma {:induction false} DeclarationText(h: Handler, b: Binding, labels: Labels, native: Endian)
    requires IsReady(h, b) && NarrowTexts(b, labels)
    ensures var text := SerializeAll(HandlerElements(h, b, labels, native), 1);
            Narrow(text) && |text| <= DeclarationLength(h, b, labels)
  {
    hide Narrow, NarrowTexts, ScalarElements, CanElements, CanLength, ScalarLength, RuleLength, ReadsLength;
    if h.ScalarHandler? {
      ScalarDeclaration(b, labels, native);
    } else {
      CanDeclaration(b, labels, native);
    }
  }
}
