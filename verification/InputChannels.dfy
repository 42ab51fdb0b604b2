/** Finding the groups of a scalar signal in the metadata by the tag that names its input channel. */
module InputChannels {
  import opened Bytes
  import opened Xml
  import opened XmlReader
  import opened XmlConformance
  import opened Decimal
  import opened SieXml
  import opened Reader
  import opened CanonicalElements
  import opened Declarations
  import opened Descriptors
  import opened Handlers
  import opened FileLog
  import opened Ownership
  import opened Format
  import opened Preamble
  import opened Metadata
  import opened Readback

  // ----- Tags of a channel -----

  lemma {:induction false} TagValueAppend(es: seq<Element>, e: Element, id: string)
    ensures TagValue(es + [e], id)
         == if TagValue(es, id).Some? then TagValue(es, id)
            else if e.name == "tag" && AttributeOf(e.attributes, "id") == Some(id) then Some(e.content)
            else None
  {
    if es == [] {
      assert [] + [e] == [e] && [e][1..] == [];
    } else {
      assert (es + [e])[1..] == es[1..] + [e];
      TagValueAppend(es[1..], e, id);
    }
  }

  /** What a reader finds under the tag of the input channel. */
  predicate HasInput(children: seq<Element>, input: Option<string>) {
    TagValue(CanonicalAll(children), INPUT_TAG) == input
  }

  lemma TagSeen(id: string, value: string)
    requires NoSpaceButBlank(id)
    ensures var t := Canonical(TagElement(id, value));
            t.name == "tag" && AttributeOf(t.attributes, "id") == Some(id) && t.content == NormalizeEol(value)
  {
    var t := TagElement(id, value);
    assert t.attributes == [Attribute("id", id)];
    AttributeFound(t.attributes, 0, "id");
    CanonicalParts(t);
    PlainAttribute(t, "id");
  }

  lemma TagAdded(ch: Element, input: Option<string>, id: string, value: string)
    requires HasInput(ch.children, input) && NoSpaceButBlank(id)
    ensures HasInput(ch.AddChild(TagElement(id, value)).children,
                     if input.Some? then input else if id == INPUT_TAG then Some(NormalizeEol(value)) else None)
  {
    CanonicalAppend(ch.children, TagElement(id, value));
    TagSeen(id, value);
    TagValueAppend(CanonicalAll(ch.children), Canonical(TagElement(id, value)), INPUT_TAG);
  }

  lemma OtherAdded(ch: Element, input: Option<string>, e: Element)
    requires HasInput(ch.children, input) && e.name != "tag"
    ensures HasInput(ch.AddChild(e).children, input)
  {
    CanonicalAppend(ch.children, e);
    CanonicalParts(e);
    TagValueAppend(CanonicalAll(ch.children), Canonical(e), INPUT_TAG);
  }

  lemma NoChildren(ch: Element)
    requires ch.children == []
    ensures HasInput(ch.children, None)
  {
  }

  predicate OtherTag(id: string) {
    NoSpaceButBlank(id) && id != INPUT_TAG
  }

  lemma ScalarTagIds()
    ensures OtherTag("core:uuid") && OtherTag("data_type") && OtherTag("somat:data_format")
    ensures OtherTag("core:description")
    ensures OtherTag("core:sample_rate") && OtherTag("somat:data_bits") && OtherTag("core:schema")
    ensures OtherTag("somat:datamode_type")
    ensures NoSpaceButBlank(INPUT_TAG)
  {
    assert "core:sample_rate"[0] == 'c' && "somat:data_format"[8] == 't' && "somat:data_bits"[6] == 'd'
           && INPUT_TAG[6] == 'i';
  }

  lemma OtherTagAdded(ch: Element, input: Option<string>, id: string, value: string)
    requires HasInput(ch.children, input) && OtherTag(id)
    ensures HasInput(ch.AddChild(TagElement(id, value)).children, input)
  {
    TagAdded(ch, input, id, value);
  }

  lemma FirstTags(b: Binding, labels: Labels, ch: Element)
    requires IsScalar(b.value.sampleType) && HasInput(ch.children, None)
    ensures HasInput(
      ch.AddChild(TagElement("core:uuid", labels.uuid))
      .AddChild(TagElement("data_type", DataTypeText(b.value.sampleType)))
      .AddChild(TagElement("somat:data_format", SieReadType(b.value.sampleType).value.0))
      .AddChild(TagElement("core:description", labels.signal.description)).children, None)
  {
    hide HasInput, OtherTag;
    ScalarTagIds();
    OtherTagAdded(ch, None, "core:uuid", labels.uuid);
    var c1 := ch.AddChild(TagElement("core:uuid", labels.uuid));
    OtherTagAdded(c1, None, "data_type", DataTypeText(b.value.sampleType));
    var c2 := c1.AddChild(TagElement("data_type", DataTypeText(b.value.sampleType)));
    OtherTagAdded(c2, None, "somat:data_format", SieReadType(b.value.sampleType).value.0);
    var c3 := c2.AddChild(TagElement("somat:data_format", SieReadType(b.value.sampleType).value.0));
    OtherTagAdded(c3, None, "core:description", labels.signal.description);
  }

  lemma InputTags(b: Binding, labels: Labels, ch: Element)
    requires IsScalar(b.value.sampleType) && HasInput(ch.children, None)
    ensures HasInput(
      ch.AddChild(TagElement("somat:input_channel", labels.signal.globalId))
      .AddChild(TagElement("core:sample_rate", b.domain.rateText))
      .AddChild(TagElement("somat:data_bits", ToDecimal(SieReadType(b.value.sampleType).value.1)))
      .AddChild(TagElement("core:schema", "somat:sequential")).children, Some(NormalizeEol(labels.signal.globalId)))
  {
    hide HasInput, OtherTag;
    var input := Some(NormalizeEol(labels.signal.globalId));
    ScalarTagIds();
    TagAdded(ch, None, "somat:input_channel", labels.signal.globalId);
    var c1 := ch.AddChild(TagElement("somat:input_channel", labels.signal.globalId));
    OtherTagAdded(c1, input, "core:sample_rate", b.domain.rateText);
    var c2 := c1.AddChild(TagElement("core:sample_rate", b.domain.rateText));
    OtherTagAdded(c2, input, "somat:data_bits", ToDecimal(SieReadType(b.value.sampleType).value.1));
    var c3 := c2.AddChild(TagElement("somat:data_bits", ToDecimal(SieReadType(b.value.sampleType).value.1)));
    OtherTagAdded(c3, input, "core:schema", "somat:sequential");
  }

  lemma DimensionsAreNoTags(b: Binding)
    ensures DomainDimension(b).name == ScalarDimension(b).name == "dim" && "dim" != "tag"
    ensures forall decoderId, index, field :: FieldDimension(decoderId, index, field).name == "dim"
  {
    assert "dim"[0] == 'd' && "tag"[0] == 't';
  }

  /** The channel of a scalar signal names the signal's global id. */
  lemma ScalarInput(b: Binding, labels: Labels)
    requires IsScalar(b.value.sampleType)
    ensures HasInput(ScalarChannel(b, labels).children, Some(NormalizeEol(labels.signal.globalId)))
  {
    hide HasInput, DomainDimension, ScalarDimension;
    var head := ChannelElement(b.channelId, b.group, b.value.name);
    NoChildren(head);
    FirstTags(b, labels, head);
    var c4 := head.AddChild(TagElement("core:uuid", labels.uuid))
              .AddChild(TagElement("data_type", DataTypeText(b.value.sampleType)))
              .AddChild(TagElement("somat:data_format", SieReadType(b.value.sampleType).value.0))
              .AddChild(TagElement("core:description", labels.signal.description));
    InputTags(b, labels, c4);
    var c8 := c4.AddChild(TagElement("somat:input_channel", labels.signal.globalId))
              .AddChild(TagElement("core:sample_rate", b.domain.rateText))
              .AddChild(TagElement("somat:data_bits", ToDecimal(SieReadType(b.value.sampleType).value.1)))
              .AddChild(TagElement("core:schema", "somat:sequential"));
    var input := Some(NormalizeEol(labels.signal.globalId));
    DimensionsAreNoTags(b);
    OtherAdded(c8, input, DomainDimension(b));
    OtherAdded(c8.AddChild(DomainDimension(b)), input, ScalarDimension(b));
  }

  lemma {:induction false} FieldsAdded(ch: Element, decoderId: nat, k: nat, fields: seq<DataDescriptor>)
    requires HasInput(ch.children, None)
    ensures HasInput(ch.children + FieldDimensions(decoderId, k, fields), None)
    decreases |fields|
  {
    hide HasInput, FieldDimension;
    if fields == [] {
      assert ch.children + [] == ch.children;
    } else {
      var dim := FieldDimension(decoderId, k, fields[0]);
      FieldIsNoTag(decoderId, k, fields[0]);
      OtherAdded(ch, None, dim);
      FieldsAdded(ch.AddChild(dim), decoderId, k + 1, fields[1..]);
      Regrouped(ch.children, dim, FieldDimensions(decoderId, k + 1, fields[1..]));
    }
  }

  lemma Regrouped(a: seq<Element>, e: Element, b: seq<Element>)
    ensures (a + [e]) + b == a + ([e] + b)
  {
  }

  lemma FieldIsNoTag(decoderId: nat, k: nat, field: DataDescriptor)
    ensures FieldDimension(decoderId, k, field).name != "tag"
  {
    assert "dim"[0] == 'd' && "tag"[0] == 't';
  }

  /** The channel of a CAN signal does not name its input channel. */
  lemma CanInput(b: Binding)
    ensures HasInput(CanChannel(b).children, None)
  {
    hide HasInput, OtherTag, DomainDimension;
    var head := ChannelElement(b.channelId, b.group, b.value.name);
    NoChildren(head);
    ScalarTagIds();
    OtherTagAdded(head, None, "core:description", "Raw CAN messages");
    var c1 := head.AddChild(TagElement("core:description", "Raw CAN messages"));
    OtherTagAdded(c1, None, "data_type", "message_can");
    var c2 := c1.AddChild(TagElement("data_type", "message_can"));
    OtherTagAdded(c2, None, "somat:datamode_type", "message_log");
    var c3 := c2.AddChild(TagElement("somat:datamode_type", "message_log"));
    OtherTagAdded(c3, None, "core:schema", "somat:message");
    var c4 := c3.AddChild(TagElement("core:schema", "somat:message"));
    DimensionsAreNoTags(b);
    OtherAdded(c4, None, DomainDimension(b));
    FieldsAdded(c4.AddChild(DomainDimension(b)), b.decoderId, 1, b.value.structFields);
  }

  // ----- Whole logs -----

  /** The group an entry adds to those of an input channel. */
  function InputOf(e: Entry, input: string): seq<nat> {
    if e.Declared? && e.handler.ScalarHandler? && NormalizeEol(e.labels.signal.globalId) == input then [e.binding.group]
        else []
  }

  function InputsOf(log: seq<Entry>, input: string): seq<nat> {
    if log == [] then [] else InputOf(log[0], input) + InputsOf(log[1..], input)
  }

  lemma {:induction false} InputGroupsConcat(a: seq<Element>, b: seq<Element>, input: string)
    ensures InputGroups(a + b, input)
         == var first, rest := InputGroups(a, input), InputGroups(b, input);
            if first.None? || rest.None? then None else Some(first.value + rest.value)
  {
    if a == [] {
      assert a + b == b;
      assert InputGroups(b, input).Some? ==> [] + InputGroups(b, input).value == InputGroups(b, input).value;
    } else {
      assert (a + b)[1..] == a[1..] + b;
      InputGroupsConcat(a[1..], b, input);
      var first, middle, rest := ChannelGroups(a[0].children, input), InputGroups(a[1..], input), InputGroups(b, input);
      if first.Some? && middle.Some? && rest.Some? {
        assert first.value + (middle.value + rest.value) == (first.value + middle.value) + rest.value;
      }
    }
  }

  lemma GroupSeen(channel: Element, group: nat, sources: seq<Source>)
    requires ChannelFor(channel, group, sources)
    ensures GroupNumber(Canonical(channel)) == Some(group)
  {
    DigitsArePlain(ToDecimal(group));
    PlainAttribute(channel, "group");
    NumberRoundTrip(group);
  }

  lemma OneChannel(channel: Element, group: nat, sources: seq<Source>, own: Option<string>, input: string)
    requires ChannelFor(channel, group, sources) && HasInput(channel.children, own)
    ensures ChannelGroups([Canonical(channel)], input) == Some(if own == Some(input) then [group] else [])
  {
    hide TagValue;
    GroupSeen(channel, group, sources);
    CanonicalParts(channel);
    assert [Canonical(channel)][1..] == [];
    assert [group] + [] == [group];
  }

  lemma PairGroups(first: Element, second: Element, input: string)
    requires first.name == "decoder" && second.name == "test"
    ensures InputGroups([first, second], input) == ChannelGroups(second.children, input)
  {
    hide ChannelGroups;
    assert [first, second][1..] == [second] && [second][1..] == [];
    assert "decoder"[0] == 'd' && "test"[0] == 't';
    assert InputGroups([], input) == Some([]);
    var groups := ChannelGroups(second.children, input);
    assert InputGroups([second], input) == if groups.None? then None else Some(groups.value + []);
    if groups.Some? {
      assert groups.value + [] == groups.value;
    }
  }

  lemma DeclaredInput(h: Handler, b: Binding, labels: Labels, native: Endian, input: string)
    requires IsReady(h, b)
    ensures InputGroups(CanonicalAll(HandlerElements(h, b, labels, native)), input)
         == Some(if h.ScalarHandler? && NormalizeEol(labels.signal.globalId) == input then [b.group] else [])
  {
    hide HandlerElements, DecoderOf, Canonical, CanonicalAll, InputGroups, ChannelGroups, HasInput, ScalarChannel,
      CanChannel, ChannelFor;
    DeclaredElements(h, b, labels, native);
    var decoder, channel := DecoderOf(h, b, native), ChannelOf(h, b, labels);
    CanonicalPair(decoder, TestWith(labels.testId, channel));
    SoundIsKept(decoder);
    DecoderIdOf(h, b, native);
    CanonicalTest(labels.testId, channel);
    PairGroups(Canonical(decoder), Canonical(TestWith(labels.testId, channel)), input);
    var own := if h.ScalarHandler? then Some(NormalizeEol(labels.signal.globalId)) else None;
    if h.ScalarHandler? {
      ScalarInput(b, labels);
    } else {
      CanInput(b);
    }
    OneChannel(channel, b.group, SourcesOf(h, b), own, input);
  }

  lemma OpeningInput(input: string)
    ensures InputGroups(CanonicalAll([TestElement(0)]), input) == Some([])
  {
    EmptyTest(TestElement(0), input);
  }

  lemma EmptyTest(test: Element, input: string)
    requires test.name == "test" && test.content == "" && test.children == []
    ensures InputGroups(CanonicalAll([test]), input) == Some([])
  {
    var none: seq<nat> := [];
    CanonicalParts(test);
    CanonicalCons(test, []);
    assert [test] + [] == [test] && [Canonical(test)] + CanonicalAll([]) == [Canonical(test)];
    assert [Canonical(test)][1..] == [] && Canonical(test).children == [];
    assert none + none == none;
    NothingIn(input);
  }

  lemma EntryInput(e: Entry, native: Endian, input: string)
    requires e.Declared? ==> IsReady(e.handler, e.binding)
    ensures InputGroups(CanonicalAll(EntryElements(e, native)), input) == Some(InputOf(e, input))
  {
    hide CanonicalAll, InputGroups, HandlerElements, IsReady, TestElement;
    match e
    case Opening(_) => OpeningInput(input);
    case Declared(_, _, h, b, labels) => DeclaredInput(h, b, labels, native, input);
    case Data(_, _, _) => NothingIn(input);
  }

  lemma NothingIn(input: string)
    ensures InputGroups(CanonicalAll([]), input) == Some([])
  {
  }

  /** The metadata names the groups of an input channel in the order they were declared. */
  lemma {:induction false} LogInput(log: seq<Entry>, native: Endian, input: string)
    requires AllReady(log)
    ensures InputGroups(CanonicalAll(LogElements(log, native)), input) == Some(InputsOf(log, input))
    decreases |log|
  {
    hide CanonicalAll, InputGroups, IsReady, EntryElements, InputOf;
    if log == [] {
      NothingIn(input);
    } else {
      EntryInput(log[0], native, input);
      LogInput(log[1..], native, input);
      CanonicalConcat(EntryElements(log[0], native), LogElements(log[1..], native));
      InputGroupsConcat(CanonicalAll(EntryElements(log[0], native)), CanonicalAll(LogElements(log[1..], native)),
                        input);
    }
  }

  lemma {:induction false} NoTests(es: seq<Element>, input: string)
    requires forall k :: 0 <= k < |es| ==> es[k].name != "test"
    ensures InputGroups(es, input) == Some([])
  {
    if es != [] {
      NoTests(es[1..], input);
    }
  }

  lemma StandardInput(front: seq<Element>, input: string)
    requires AreStandardElements(front)
    ensures InputGroups(front, input) == Some([])
  {
    hide InputGroups, StreamReads, IndexReads;
    assert "decoder"[0] == 'd' && "test"[0] == 't' && "tag"[1] == 'a' && "test"[1] == 'e';
    NoTests(front, input);
  }

  /** The same behind the elements of the preamble. */
  lemma FileInput(front: seq<Element>, log: seq<Entry>, native: Endian, taken: nat, input: string)
    requires AreStandardElements(front) && LogInOrder(log, native, taken) && taken <= MOST_IDS
    ensures InputGroups(front + CanonicalAll(LogElements(log, native)), input) == Some(InputsOf(log, input))
  {
    hide AreStandardElements, InputGroups, CanonicalAll, LogElements, LogInOrder;
    ReadyLog(log, native, taken);
    LogInput(log, native, input);
    StandardInput(front, input);
    InputGroupsConcat(front, CanonicalAll(LogElements(log, native)), input);
    assert [] + InputsOf(log, input) == InputsOf(log, input);
  }
}
