/** What the channel elements of a recording say about the signals, as a reader finds it. */
module ChannelTexts {
  import opened Bytes
  import opened Xml
  import opened XmlReader
  import opened XmlConformance
  import opened Decimal
  import opened SieXml
  import opened Reader
  import opened CanonicalElements
  import opened Descriptors
  import opened SampleTypes
  import opened Handlers
  import opened FileLog
  import opened Ownership
  import opened Metadata
  import opened Preamble
  import opened Readback
  import opened Runs
  import opened Disk
  import opened RunTheorems
  import opened IndexAgreement
  import opened DeclarationLimits

  // ----- What a channel is to say -----

  /** The first element with this name and attribute. */
  function FirstWith(es: seq<Element>, name: string, attribute: string, value: string): Option<Element> {
    if es == [] then None
    else if es[0].name == name && AttributeOf(es[0].attributes, attribute) == Some(value) then Some(es[0])
    else FirstWith(es[1..], name, attribute, value)
  }

  /** The tag with this id holds the text, its line ends normalised; or there is no such tag. */
  predicate Says(es: seq<Element>, id: string, text: Option<string>) {
    TagValue(es, id) == if text.Some? then Some(NormalizeEol(text.value)) else None
  }

  predicate SaysUnits(dim: Element, unit: Option<string>) {
    var units := FirstNamed(dim.children, "units");
    if unit.Some? then units.Some? && units.value.content == NormalizeEol(unit.value) else units.None?
  }

  /** The channel has these ids and this name, up to white space. */
  predicate IsCalled(ch: Element, channelId: nat, group: nat, name: string) {
    && ch.name == "ch"
    && AttributeOf(ch.attributes, "id") == Some(ToDecimal(channelId))
    && AttributeOf(ch.attributes, "group") == Some(ToDecimal(group))
    && AttributeOf(ch.attributes, "name") == Some(SpaceOut(NormalizeEol(name)))
  }

  function DimensionIn(ch: Element, index: nat): Option<Element> {
    FirstWith(ch.children, "dim", "index", ToDecimal(index))
  }

  /** Dimension 0 scales ticks to the unit of the domain. */
  predicate SaysDomain(ch: Element, domain: DataDescriptor) {
    && var dim := DimensionIn(ch, 0);
    && dim.Some? && SaysUnits(dim.value, domain.unit)
    && var transform := FirstNamed(dim.value.children, "xform");
    && transform.Some?
    && AttributeOf(transform.value.attributes, "scale") == Some(SpaceOut(NormalizeEol(domain.tickScale)))
    && AttributeOf(transform.value.attributes, "offset") == Some("0.000000e+00")
  }

  /** Dimension 1 has the unit and the range of the values. */
  predicate SaysValues(ch: Element, value: DataDescriptor) {
    && var dim := DimensionIn(ch, 1);
    && dim.Some? && SaysUnits(dim.value, value.unit)
    && Says(dim.value.children, "FS_Min", if value.range.Some? then Some(value.range.value.0) else None)
    && Says(dim.value.children, "FS_Max", if value.range.Some? then Some(value.range.value.1) else None)
  }

  /** The three tags about the format agree with the sample type. */
  ghost predicate SaysFormat(ch: Element, t: SampleType) {
    exists kind, format ::
      && SieXml.KindOf(format) == Some(kind) && ReadAs(t, kind, 8 * ElementSize(t))
      && Says(ch.children, "somat:data_format", Some(format))
      && Says(ch.children, "somat:data_bits", Some(ToDecimal(8 * ElementSize(t))))
      && Says(ch.children, "data_type", Some("sequential_" + format + ToDecimal(8 * ElementSize(t))))
  }

  predicate SaysSignal(ch: Element, labels: Labels, domain: DataDescriptor) {
    && Says(ch.children, "core:uuid", Some(labels.uuid))
    && Says(ch.children, "core:description", Some(labels.signal.description))
    && Says(ch.children, "somat:input_channel", Some(labels.signal.globalId))
    && Says(ch.children, "core:sample_rate", Some(domain.rateText))
    && Says(ch.children, "core:schema", Some("somat:sequential"))
  }

  predicate SaysMessages(ch: Element) {
    && Says(ch.children, "core:description", Some("Raw CAN messages"))
    && Says(ch.children, "data_type", Some("message_can"))
    && Says(ch.children, "somat:datamode_type", Some("message_log"))
    && Says(ch.children, "core:schema", Some("somat:message"))
  }

  /** Dimension k names field k. */
  predicate SaysField(ch: Element, k: nat, field: DataDescriptor) {
    && var dim := DimensionIn(ch, k);
    && dim.Some? && Says(dim.value.children, "openDAQ:fieldName", Some(field.name))
  }

  predicate SaysFields(ch: Element, fields: seq<DataDescriptor>) {
    forall i :: 0 <= i < |fields| ==> SaysField(ch, 1 + i, fields[i])
  }

  /** Everything the channel of a handler is to say. */
  ghost predicate Describes(ch: Element, h: Handler, b: Binding, labels: Labels) {
    && IsCalled(ch, b.channelId, b.group, b.value.name) && SaysDomain(ch, b.domain)
    && (h.ScalarHandler? ==>
          SaysSignal(ch, labels, b.domain) && SaysFormat(ch, b.value.sampleType) && SaysValues(ch, b.value))
    && (h.CanHandler? ==> SaysMessages(ch) && SaysFields(ch, b.value.structFields))
  }

  // ----- Finding elements behind others -----

  predicate HasPlain(e: Element, attribute: string) {
    AttributeOf(e.attributes, attribute).Some? && NoSpaceButBlank(AttributeOf(e.attributes, attribute).value)
  }

  /** The element is not the one looked for. */
  predicate IsOther(e: Element, name: string, attribute: string, value: string) {
    e.name == name ==> HasPlain(e, attribute) && AttributeOf(e.attributes, attribute) != Some(value)
  }

  lemma {:induction false} FoundAt(es: seq<Element>, k: nat, name: string, attribute: string, value: string)
    requires k < |es| && es[k].name == name && HasPlain(es[k], attribute)
    requires AttributeOf(es[k].attributes, attribute) == Some(value)
    requires forall j :: 0 <= j < k ==> IsOther(es[j], name, attribute, value)
    ensures FirstWith(CanonicalAll(es), name, attribute, value) == Some(Canonical(es[k]))
    decreases k
  {
    hide CanonicalAll, Canonical;
    assert es == [es[0]] + es[1..];
    CanonicalCons(es[0], es[1..]);
    CanonicalParts(es[0]);
    if es[0].name == name {
      PlainAttribute(es[0], attribute);
    }
    if k > 0 {
      assert IsOther(es[0], name, attribute, value);
      forall j | 0 <= j < k - 1 ensures IsOther(es[1..][j], name, attribute, value) {
        assert IsOther(es[j + 1], name, attribute, value);
      }
      FoundAt(es[1..], k - 1, name, attribute, value);
    }
  }

  lemma {:induction false} TagIsFirst(es: seq<Element>, id: string)
    ensures TagValue(es, id)
         == var tag := FirstWith(es, "tag", "id", id); if tag.Some? then Some(tag.value.content) else None
  {
    if es != [] {
      TagIsFirst(es[1..], id);
    }
  }

  lemma TagParts(id: string, text: string)
    ensures var t := TagElement(id, text);
            && t.name == "tag" && t.children == [] && t.content == text
            && AttributeOf(t.attributes, "id") == Some(id)
            && Canonical(t).content == NormalizeEol(text)
  {
    var t := TagElement(id, text);
    assert t.attributes == [Attribute("id", id)];
    AttributeFound(t.attributes, 0, "id");
    CanonicalParts(t);
  }

  predicate Distinct(ids: seq<string>) {
    && (forall i :: 0 <= i < |ids| ==> NoSpaceButBlank(ids[i]))
    && forall i, j :: 0 <= i < j < |ids| ==> ids[i] != ids[j]
  }

  /** Tags in front are all found. */
  lemma TagsFound(es: seq<Element>, ids: seq<string>, texts: seq<string>, k: nat)
    requires |ids| == |texts| <= |es| && Distinct(ids) && k < |ids|
    requires forall j :: 0 <= j < |ids| ==> es[j] == TagElement(ids[j], texts[j])
    ensures Says(CanonicalAll(es), ids[k], Some(texts[k]))
  {
    hide Canonical, CanonicalAll, TagElement;
    forall j | 0 <= j < k ensures IsOther(es[j], "tag", "id", ids[k]) {
      TagParts(ids[j], texts[j]);
    }
    TagParts(ids[k], texts[k]);
    FoundAt(es, k, "tag", "id", ids[k]);
    TagIsFirst(CanonicalAll(es), ids[k]);
  }

  lemma TagFoundAt(es: seq<Element>, k: nat, id: string, text: string)
    requires k < |es| && es[k] == TagElement(id, text) && NoSpaceButBlank(id)
    requires forall j :: 0 <= j < k ==> IsOther(es[j], "tag", "id", id)
    ensures Says(CanonicalAll(es), id, Some(text))
  {
    TagParts(id, text);
    FoundAt(es, k, "tag", "id", id);
    TagIsFirst(CanonicalAll(es), id);
  }

  lemma {:induction false} NoTag(es: seq<Element>, id: string)
    requires forall j :: 0 <= j < |es| ==> es[j].name != "tag"
    ensures Says(CanonicalAll(es), id, None)
  {
    hide Canonical;
    if es != [] {
      assert es == [es[0]] + es[1..];
      CanonicalCons(es[0], es[1..]);
      CanonicalParts(es[0]);
      NoTag(es[1..], id);
    }
  }

  // ----- Dimensions -----

  predicate IsDimension(e: Element, index: nat) {
    e.name == "dim" && e.content == "" && e.attributes == [Attribute("index", ToDecimal(index))]
  }

  lemma DimensionIndex(e: Element, index: nat)
    requires IsDimension(e, index)
    ensures HasPlain(e, "index") && AttributeOf(e.attributes, "index") == Some(ToDecimal(index))
  {
    AttributeFound(e.attributes, 0, "index");
    DigitsArePlain(ToDecimal(index));
  }

  /** Dimensions that are numbered from 0 behind other elements are found by their numbers. */
  lemma DimensionsFound(ch: Element, first: nat, k: nat)
    requires ch.content == "" && first + k < |ch.children|
    requires forall j :: 0 <= j < first ==> ch.children[j].name != "dim"
    requires forall j :: first <= j <= first + k ==> IsDimension(ch.children[j], j - first)
    ensures DimensionIn(Canonical(ch), k) == Some(Canonical(ch.children[first + k]))
  {
    hide Canonical, CanonicalAll, IsDimension;
    CanonicalParts(ch);
    forall j | 0 <= j < first + k ensures IsOther(ch.children[j], "dim", "index", ToDecimal(k)) {
      if j >= first {
        DimensionIndex(ch.children[j], j - first);
        if ToDecimal(j - first) == ToDecimal(k) {
          DecimalInjective(j - first, k);
        }
      }
    }
    DimensionIndex(ch.children[first + k], k);
    assert ch.children[first + k].name == "dim" by {
      DimensionName(ch.children[first + k], k);
    }
    FoundAt(ch.children, first + k, "dim", "index", ToDecimal(k));
  }

  lemma DimensionName(e: Element, index: nat)
    requires IsDimension(e, index)
    ensures e.name == "dim"
  {
  }

  function UnitsOf(unit: Option<string>): seq<Element> {
    if unit.Some? then [UnitsElement(unit.value)] else []
  }

  lemma UnitsParts(name: string)
    ensures var u := UnitsElement(name); u.name == "units" && Canonical(u).content == NormalizeEol(name)
  {
    CanonicalParts(UnitsElement(name));
  }

  /** Units that come right behind other elements, if any. */
  lemma UnitsFound(dim: Element, front: seq<Element>, unit: Option<string>, back: seq<Element>)
    requires dim.content == "" && dim.children == front + UnitsOf(unit) + back
    requires forall j :: 0 <= j < |front| ==> front[j].name != "units"
    requires forall j :: 0 <= j < |back| ==> back[j].name != "units"
    ensures SaysUnits(Canonical(dim), unit)
  {
    hide Canonical, UnitsElement;
    CanonicalParts(dim);
    CanonicalFirst(dim.children, "units");
    if unit.Some? {
      UnitsParts(unit.value);
      FirstNamedAt(dim.children, |front|, "units");
    } else {
      NotNamed(dim.children, "units");
    }
  }

  lemma {:induction false} FirstNamedAt(es: seq<Element>, k: nat, name: string)
    requires k < |es| && es[k].name == name && forall j :: 0 <= j < k ==> es[j].name != name
    ensures FirstNamed(es, name) == Some(es[k])
    decreases k
  {
    if k > 0 {
      FirstNamedAt(es[1..], k - 1, name);
    }
  }

  lemma {:induction false} NotNamed(es: seq<Element>, name: string)
    requires forall j :: 0 <= j < |es| ==> es[j].name != name
    ensures FirstNamed(es, name) == None
  {
    if es != [] {
      NotNamed(es[1..], name);
    }
  }

  lemma DimensionParts(index: nat)
    ensures IsDimension(DimensionElement(index), index) && DimensionElement(index).children == []
  {
  }

  lemma DomainChildren(b: Binding)
    ensures var x, d := TransformElement(b.domain.tickScale, ZERO_TEXT), DataElement(b.decoderId, 0);
            && IsDimension(DomainDimension(b), 0)
            && DomainDimension(b).children == [x, d] + UnitsOf(b.domain.unit) + []
  {
    hide TransformElement, DataElement, UnitsElement;
    DimensionParts(0);
    var x, d := TransformElement(b.domain.tickScale, ZERO_TEXT), DataElement(b.decoderId, 0);
    assert [] + [x] + [d] == [x, d];
  }

  lemma DomainSeen(b: Binding)
    ensures var dim := Canonical(DomainDimension(b));
            && SaysUnits(dim, b.domain.unit)
            && var transform := FirstNamed(dim.children, "xform");
            && transform.Some?
            && AttributeOf(transform.value.attributes, "scale") == Some(SpaceOut(NormalizeEol(b.domain.tickScale)))
            && AttributeOf(transform.value.attributes, "offset") == Some("0.000000e+00")
  {
    hide Canonical, CanonicalAll, DataElement, DomainDimension;
    var x, d := TransformElement(b.domain.tickScale, ZERO_TEXT), DataElement(b.decoderId, 0);
    DomainChildren(b);
    DataName(b.decoderId, 0);
    UnitsFound(DomainDimension(b), [x, d], b.domain.unit, []);
    CanonicalParts(DomainDimension(b));
    CanonicalFirst(DomainDimension(b).children, "xform");
    FirstNamedAt(DomainDimension(b).children, 0, "xform");
    TransformSeen(b.domain.tickScale);
  }

  lemma DataName(decoderId: nat, variable: nat)
    ensures DataElement(decoderId, variable).name == "data"
  {
  }

  lemma TransformSeen(scale: string)
    ensures var x := Canonical(TransformElement(scale, ZERO_TEXT));
            && AttributeOf(x.attributes, "scale") == Some(SpaceOut(NormalizeEol(scale)))
            && AttributeOf(x.attributes, "offset") == Some(ZERO_TEXT)
  {
    var x := TransformElement(scale, ZERO_TEXT);
    assert x.attributes == [Attribute("scale", scale), Attribute("offset", ZERO_TEXT)];
    AttributeFound(x.attributes, 0, "scale");
    AttributeFound(x.attributes, 1, "offset");
    CanonicalAttribute(x.attributes, "scale");
    PlainAttribute(x, "offset");
  }

  function RangeTags(range: Option<(string, string)>): seq<Element> {
    if range.Some? then [TagElement("FS_Min", range.value.0), TagElement("FS_Max", range.value.1)] else []
  }

  lemma ValueChildren(b: Binding)
    ensures IsDimension(ScalarDimension(b), 1)
    ensures ScalarDimension(b).children
         == [DataElement(b.decoderId, 1)] + UnitsOf(b.value.unit) + RangeTags(b.value.range)
  {
    hide DataElement, UnitsElement, TagElement;
    DimensionParts(1);
    if b.value.range.Some? {
      var front := [DataElement(b.decoderId, 1)] + UnitsOf(b.value.unit);
      var low, high := TagElement("FS_Min", b.value.range.value.0), TagElement("FS_Max", b.value.range.value.1);
      assert front + [low] + [high] == front + [low, high];
    }
  }

  lemma RangeFound(es: seq<Element>, front: seq<Element>, range: Option<(string, string)>)
    requires es == front + RangeTags(range)
    requires forall j :: 0 <= j < |front| ==> front[j].name != "tag"
    ensures Says(CanonicalAll(es), "FS_Min", if range.Some? then Some(range.value.0) else None)
    ensures Says(CanonicalAll(es), "FS_Max", if range.Some? then Some(range.value.1) else None)
  {
    hide Canonical, CanonicalAll, TagElement, Says;
    if range.Some? {
      var (low, high) := range.value;
      TagParts("FS_Min", low);
      TagFoundAt(es, |front|, "FS_Min", low);
      assert IsOther(es[|front|], "tag", "id", "FS_Max") by {
        assert "FS_Min"[4] == 'i' && "FS_Max"[4] == 'a';
      }
      TagFoundAt(es, |front| + 1, "FS_Max", high);
    } else {
      NoTag(es, "FS_Min");
      NoTag(es, "FS_Max");
    }
  }

  lemma NoUnitsInRange(range: Option<(string, string)>)
    ensures forall j :: 0 <= j < |RangeTags(range)| ==> RangeTags(range)[j].name != "units"
  {
  }

  lemma ValuesSeen(b: Binding)
    ensures var dim := Canonical(ScalarDimension(b));
            && SaysUnits(dim, b.value.unit)
            && Says(dim.children, "FS_Min", if b.value.range.Some? then Some(b.value.range.value.0) else None)
            && Says(dim.children, "FS_Max", if b.value.range.Some? then Some(b.value.range.value.1) else None)
  {
    hide Canonical, CanonicalAll, DataElement, ScalarDimension, RangeTags, Says, SaysUnits;
    ValueChildren(b);
    DataName(b.decoderId, 1);
    CanonicalParts(ScalarDimension(b));
    NoUnitsInRange(b.value.range);
    RangeFound(ScalarDimension(b).children, [DataElement(b.decoderId, 1)] + UnitsOf(b.value.unit), b.value.range);
    UnitsFound(ScalarDimension(b), [DataElement(b.decoderId, 1)], b.value.unit, RangeTags(b.value.range));
  }

  lemma FieldSeen(decoderId: nat, k: nat, field: DataDescriptor)
    ensures IsDimension(FieldDimension(decoderId, k, field), k)
    ensures Says(Canonical(FieldDimension(decoderId, k, field)).children, "openDAQ:fieldName", Some(field.name))
  {
    hide Canonical, CanonicalAll, DataElement, TagElement;
    var dim, t := FieldDimension(decoderId, k, field), TagElement("openDAQ:fieldName", field.name);
    DimensionParts(k);
    assert dim.children == [t, DataElement(decoderId, k)];
    CanonicalParts(dim);
    TagFoundAt(dim.children, 0, "openDAQ:fieldName", field.name);
  }

  // ----- Whole channels -----

  function ScalarIds(): seq<string> {
    ["core:uuid", "data_type", "somat:data_format", "core:description", "somat:input_channel", "core:sample_rate",
     "somat:data_bits", "core:schema"]
  }

  function MessageIds(): seq<string> {
    ["core:description", "data_type", "somat:datamode_type", "core:schema"]
  }

  function MessageTexts(): seq<string> {
    ["Raw CAN messages", "message_can", "message_log", "somat:message"]
  }

  lemma EightIds(a: string, b: string, c: string, d: string, e: string, f: string, g: string, h: string)
    requires forall id <- [a, b, c, d, e, f, g, h] :: NoSpaceButBlank(id)
    requires |a| == |b| == 9 && a[6] != b[6]
    requires |c| == 17 && |d| == |f| == 16 && d[6] != f[6]
    requires |e| == 19 && |g| == 15 && |h| == 11
    ensures Distinct([a, b, c, d, e, f, g, h])
  {
  }

  lemma FourIds(a: string, b: string, c: string, d: string)
    requires forall id <- [a, b, c, d] :: NoSpaceButBlank(id)
    requires |a| == 16 && |b| == 9 && |c| == 19 && |d| == 11
    ensures Distinct([a, b, c, d])
  {
  }

  lemma ShortIdsArePlain()
    ensures NoSpaceButBlank("core:uuid") && NoSpaceButBlank("data_type") && NoSpaceButBlank("core:schema")
    ensures NoSpaceButBlank("somat:data_bits") && NoSpaceButBlank("core:description")
  {
  }

  lemma LongIdsArePlain()
    ensures NoSpaceButBlank("somat:data_format") && NoSpaceButBlank("somat:input_channel")
    ensures NoSpaceButBlank("core:sample_rate") && NoSpaceButBlank("somat:datamode_type")
  {
  }

  lemma IdsAreDistinct()
    ensures Distinct(ScalarIds()) && Distinct(MessageIds())
  {
    hide NoSpaceButBlank, Distinct;
    ShortIdsArePlain();
    LongIdsArePlain();
    assert "core:uuid"[6] == 'u' && "data_type"[6] == 'y';
    assert "core:description"[6] == 'e' && "core:sample_rate"[6] == 'a';
    EightIds("core:uuid", "data_type", "somat:data_format", "core:description", "somat:input_channel",
             "core:sample_rate", "somat:data_bits", "core:schema");
    FourIds("core:description", "data_type", "somat:datamode_type", "core:schema");
  }

  function ScalarTexts(b: Binding, labels: Labels): seq<string>
    requires IsScalar(b.value.sampleType)
  {
    var (kind, bits) := SieReadType(b.value.sampleType).value;
    [labels.uuid, DataTypeText(b.value.sampleType), kind, labels.signal.description, labels.signal.globalId,
     b.domain.rateText, ToDecimal(bits), "somat:sequential"]
  }

  predicate HasTags(ch: Element, ids: seq<string>, texts: seq<string>) {
    && ch.content == "" && |ids| == |texts| <= |ch.children|
    && forall j :: 0 <= j < |ids| ==> ch.children[j] == TagElement(ids[j], texts[j])
  }

  /** The channel element before anything is added. */
  predicate HasHead(ch: Element, b: Binding) {
    && ch.name == "ch" && ch.content == ""
    && ch.attributes == [Attribute("id", ToDecimal(b.channelId)), Attribute("group", ToDecimal(b.group)),
                         Attribute("name", b.value.name)]
  }

  lemma HeadSeen(ch: Element, b: Binding)
    requires HasHead(ch, b)
    ensures IsCalled(Canonical(ch), b.channelId, b.group, b.value.name)
  {
    AttributeFound(ch.attributes, 0, "id");
    AttributeFound(ch.attributes, 1, "group");
    AttributeFound(ch.attributes, 2, "name");
    DigitsArePlain(ToDecimal(b.channelId));
    DigitsArePlain(ToDecimal(b.group));
    PlainAttribute(ch, "id");
    PlainAttribute(ch, "group");
    CanonicalAttribute(ch.attributes, "name");
    CanonicalParts(ch);
  }

  lemma FiveChildren(ch: Element, a: Element, b: Element, c: Element, d: Element, e: Element)
    ensures ch.AddChild(a).AddChild(b).AddChild(c).AddChild(d).AddChild(e)
         == ch.(children := ch.children + [a, b, c, d, e])
  {
    var none: seq<Element> := [];
    assert none + [a] + [b] + [c] + [d] + [e] == [a, b, c, d, e];
  }

  lemma TenChildren(ch: Element, t: seq<Element>)
    requires |t| == 10 && ch.children == []
    ensures ch.AddChild(t[0]).AddChild(t[1]).AddChild(t[2]).AddChild(t[3]).AddChild(t[4])
            .AddChild(t[5]).AddChild(t[6]).AddChild(t[7]).AddChild(t[8]).AddChild(t[9])
         == ch.(children := t)
  {
    hide Element.AddChild;
    FiveChildren(ch, t[0], t[1], t[2], t[3], t[4]);
    FiveChildren(ch.(children := t[..5]), t[5], t[6], t[7], t[8], t[9]);
    assert [] + [t[0], t[1], t[2], t[3], t[4]] == t[..5];
    assert t[..5] + [t[5], t[6], t[7], t[8], t[9]] == t;
  }

  lemma ChannelHeadIs(b: Binding)
    ensures HasHead(ChannelElement(b.channelId, b.group, b.value.name), b)
    ensures ChannelElement(b.channelId, b.group, b.value.name).children == []
  {
  }

  lemma ScalarChildren(b: Binding, labels: Labels)
    requires IsScalar(b.value.sampleType)
    ensures var ch := ScalarChannel(b, labels);
            && HasHead(ch, b) && HasTags(ch, ScalarIds(), ScalarTexts(b, labels)) && |ch.children| == 10
            && ch.children[8] == DomainDimension(b) && ch.children[9] == ScalarDimension(b)
  {
    hide TagElement, DomainDimension, ScalarDimension, DataTypeText, SieReadType, Element.AddChild, ChannelElement;
    var ids, texts := ScalarIds(), ScalarTexts(b, labels);
    ChannelHeadIs(b);
    TenChildren(ChannelElement(b.channelId, b.group, b.value.name),
                [TagElement(ids[0], texts[0]), TagElement(ids[1], texts[1]), TagElement(ids[2], texts[2]),
                 TagElement(ids[3], texts[3]), TagElement(ids[4], texts[4]), TagElement(ids[5], texts[5]),
                 TagElement(ids[6], texts[6]), TagElement(ids[7], texts[7]), DomainDimension(b), ScalarDimension(b)]);
  }

  lemma {:induction false} FieldDimensionAt(decoderId: nat, k: nat, fields: seq<DataDescriptor>, i: nat)
    requires i < |fields|
    ensures |FieldDimensions(decoderId, k, fields)| == |fields|
    ensures FieldDimensions(decoderId, k, fields)[i] == FieldDimension(decoderId, k + i, fields[i])
    decreases |fields|
  {
    hide FieldDimension;
    if |fields| == 1 {
      assert FieldDimensions(decoderId, k + 1, fields[1..]) == [];
    } else {
      FieldDimensionAt(decoderId, k + 1, fields[1..], if i == 0 then 0 else i - 1);
    }
  }

  lemma CanChildren(b: Binding)
    ensures var ch := CanChannel(b);
            && HasHead(ch, b) && HasTags(ch, MessageIds(), MessageTexts())
            && |ch.children| >= 5 && ch.children[4] == DomainDimension(b)
            && ch.children[5..] == FieldDimensions(b.decoderId, 1, b.value.structFields)
  {
    hide TagElement, DomainDimension, FieldDimensions;
  }

  lemma TagNames(ch: Element, ids: seq<string>, texts: seq<string>)
    requires HasTags(ch, ids, texts)
    ensures forall j :: 0 <= j < |ids| ==> ch.children[j].name != "dim"
  {
    forall j | 0 <= j < |ids| ensures ch.children[j].name != "dim" {
      assert ch.children[j] == TagElement(ids[j], texts[j]);
      TagParts(ids[j], texts[j]);
      assert "tag"[0] == 't' && "dim"[0] == 'd';
    }
  }

  lemma TagsSeen(ch: Element, ids: seq<string>, texts: seq<string>, k: nat)
    requires HasTags(ch, ids, texts) && Distinct(ids) && k < |ids|
    ensures Says(Canonical(ch).children, ids[k], Some(texts[k]))
  {
    hide Canonical, CanonicalAll, TagElement, Says, Distinct;
    CanonicalParts(ch);
    TagsFound(ch.children, ids, texts, k);
  }

  /** The tags about the format are those of the sample type. */
  lemma FormatSeen(ch: Element, t: SampleType)
    requires IsScalar(t)
    requires var (format, bits) := SieReadType(t).value;
             && Says(ch.children, "somat:data_format", Some(format))
             && Says(ch.children, "somat:data_bits", Some(ToDecimal(bits)))
             && Says(ch.children, "data_type", Some(DataTypeText(t)))
    ensures SaysFormat(ch, t)
  {
    hide Says, ReadAs;
    DeclaredRead(t);
    var (format, bits) := SieReadType(t).value;
    WidthIs(t, SieXml.KindOf(format).value, bits);
    DataTypeSplits(t);
  }

  lemma WidthIs(t: SampleType, kind: Decoders.Kind, bits: nat)
    requires ReadAs(t, kind, bits)
    ensures bits == 8 * ElementSize(t)
  {
  }

  lemma WidthsInDecimal()
    ensures ToDecimal(8) == "8" && ToDecimal(16) == "16" && ToDecimal(32) == "32" && ToDecimal(64) == "64"
  {
  }

  lemma DataTypeSplits(t: SampleType)
    requires IsScalar(t)
    ensures DataTypeText(t) == "sequential_" + SieReadType(t).value.0 + ToDecimal(SieReadType(t).value.1)
  {
    hide ToDecimal;
    WidthsInDecimal();
  }

  lemma ScalarTagsSeen(ch: Element, b: Binding, labels: Labels)
    requires IsScalar(b.value.sampleType) && HasTags(ch, ScalarIds(), ScalarTexts(b, labels))
    ensures SaysSignal(Canonical(ch), labels, b.domain) && SaysFormat(Canonical(ch), b.value.sampleType)
  {
    hide Canonical, Says, Distinct, DataTypeText, SieReadType, SaysFormat, HasTags;
    IdsAreDistinct();
    var ids, texts := ScalarIds(), ScalarTexts(b, labels);
    TagsSeen(ch, ids, texts, 0);
    TagsSeen(ch, ids, texts, 1);
    TagsSeen(ch, ids, texts, 2);
    TagsSeen(ch, ids, texts, 3);
    TagsSeen(ch, ids, texts, 4);
    TagsSeen(ch, ids, texts, 5);
    TagsSeen(ch, ids, texts, 6);
    TagsSeen(ch, ids, texts, 7);
    FormatSeen(Canonical(ch), b.value.sampleType);
  }

  lemma MessageTagsSeen(ch: Element)
    requires HasTags(ch, MessageIds(), MessageTexts())
    ensures SaysMessages(Canonical(ch))
  {
    hide Canonical, Says, Distinct, HasTags;
    IdsAreDistinct();
    TagsSeen(ch, MessageIds(), MessageTexts(), 0);
    TagsSeen(ch, MessageIds(), MessageTexts(), 1);
    TagsSeen(ch, MessageIds(), MessageTexts(), 2);
    TagsSeen(ch, MessageIds(), MessageTexts(), 3);
  }

  lemma ScalarDescribes(b: Binding, labels: Labels)
    requires IsScalar(b.value.sampleType)
    ensures Describes(Canonical(ScalarChannel(b, labels)), ScalarHandler(b.group), b, labels)
  {
    hide Canonical, CanonicalAll, TagElement, Says, SaysUnits, ScalarChannel, DomainDimension, ScalarDimension,
      SaysFormat, SaysSignal, IsCalled, ScalarIds, ScalarTexts, FirstNamed, FirstWith, UnitsOf, RangeTags;
    var ch := ScalarChannel(b, labels);
    ScalarChildren(b, labels);
    HeadSeen(ch, b);
    TagNames(ch, ScalarIds(), ScalarTexts(b, labels));
    ScalarTagsSeen(ch, b, labels);
    DomainChildren(b);
    ValueChildren(b);
    assert |ScalarIds()| == 8 by {
      ScalarIdCount();
    }
    DimensionsFound(ch, 8, 0);
    DimensionsFound(ch, 8, 1);
    DomainSeen(b);
    ValuesSeen(b);
  }

  lemma ScalarIdCount()
    ensures |ScalarIds()| == 8 && |MessageIds()| == 4
  {
  }

  lemma FieldsSeen(ch: Element, b: Binding)
    requires HasHead(ch, b) && HasTags(ch, MessageIds(), MessageTexts())
    requires |ch.children| >= 5 && ch.children[4] == DomainDimension(b)
    requires ch.children[5..] == FieldDimensions(b.decoderId, 1, b.value.structFields)
    ensures SaysDomain(Canonical(ch), b.domain) && SaysFields(Canonical(ch), b.value.structFields)
  {
    hide Canonical, TagElement, Says, SaysUnits, DomainDimension, FieldDimension, FieldDimensions, MessageIds,
      MessageTexts, FirstNamed, FirstWith, IsDimension;
    var fields := b.value.structFields;
    ScalarIdCount();
    TagNames(ch, MessageIds(), MessageTexts());
    DomainChildren(b);
    forall j | 4 <= j <= 4 + |fields| ensures j < |ch.children| && IsDimension(ch.children[j], j - 4) {
      if j > 4 {
        FieldDimensionAt(b.decoderId, 1, fields, j - 5);
        assert ch.children[j] == ch.children[5..][j - 5];
        FieldSeen(b.decoderId, j - 4, fields[j - 5]);
      }
    }
    DimensionsFound(ch, 4, 0);
    DomainSeen(b);
    forall i | 0 <= i < |fields| ensures SaysField(Canonical(ch), 1 + i, fields[i]) {
      FieldDimensionAt(b.decoderId, 1, fields, i);
      assert ch.children[4 + (1 + i)] == ch.children[5..][i];
      DimensionsFound(ch, 4, 1 + i);
      FieldSeen(b.decoderId, 1 + i, fields[i]);
    }
  }

  /** The channel a handler declares, as a reader sees it, says what it is to say. */
  lemma {:induction false} ChannelDescribes(h: Handler, b: Binding, labels: Labels)
    requires IsReady(h, b)
    ensures Describes(Canonical(ChannelOf(h, b, labels)), h, b, labels)
  {
    hide Canonical, ScalarChannel, CanChannel, SaysDomain, SaysFields, SaysMessages, HasHead, HasTags, IsCalled;
    if h.ScalarHandler? {
      hide Describes;
      ScalarDescribes(b, labels);
    } else {
      var ch := CanChannel(b);
      CanChildren(b);
      HeadSeen(ch, b);
      MessageTagsSeen(ch);
      FieldsSeen(ch, b);
    }
  }

  // ----- Whole files -----

  /** A reader of the bytes finds a channel for the group in the test of the recording, and it says what it
      is to say. */
  ghost predicate IsDescribed(bytes: seq<Byte>, e: Entry)
    requires e.Declared?
  {
    && ReadFile(bytes).Some?
    && var test := FindTest(ReadFile(bytes).value.elements, ToDecimal(e.handler.group));
    && test.Some? && AttributeOf(test.value.attributes, "id") == Some(ToDecimal(e.labels.testId))
    && var channel := FindChannel(ReadFile(bytes).value.elements, ToDecimal(e.handler.group));
    && channel.Some? && Describes(channel.value, e.handler, e.binding, e.labels)
  }

  lemma {:induction false} FileDescribes(preamble: string, log: seq<Entry>, native: Endian, taken: nat, i: nat)
    requires IsPreamble(preamble)
    requires LogInOrder(log, native, taken) && taken <= MOST_IDS && NarrowLog(log, native)
    requires log[0] == Opening(OpeningText(preamble)) && FileFits(log, native)
    requires i < |log| && log[i].Declared?
    ensures IsDescribed(Closed(LogBlocks(log, native)).content, log[i])
  {
    hide OpeningText, IsPreamble, AreStandardElements, CanonicalAll, Canonical, ReadFile, LogElements, IsReady,
      FileFits, NarrowLog, FindChannel, FindTest, FindDecoder, TestWith, Describes, ChannelOf, DecoderOf;
    var front := TextContents(preamble, log, native, taken);
    GoodDeclarations(log, native, taken, i);
    DeclarationFound(log, native, i);
    BehindPreamble(front, CanonicalAll(LogElements(log, native)), log[i].binding.group);
    assert IsReady(log[i].handler, log[i].binding) by {
      assert EntryInOrder(log, native, taken, i);
    }
    ReadyGroup(log[i].handler, log[i].binding);
    TestIdSeen(log[i].labels.testId, ChannelOf(log[i].handler, log[i].binding, log[i].labels));
    ChannelDescribes(log[i].handler, log[i].binding, log[i].labels);
  }

  lemma TestIdSeen(testId: nat, channel: Element)
    ensures AttributeOf(Canonical(TestWith(testId, channel)).attributes, "id") == Some(ToDecimal(testId))
  {
    var test := TestWith(testId, channel);
    assert test.attributes == [Attribute("id", ToDecimal(testId))];
    AttributeFound(test.attributes, 0, "id");
    DigitsArePlain(ToDecimal(testId));
    PlainAttribute(test, "id");
  }

  lemma ReadyGroup(h: Handler, b: Binding)
    requires IsReady(h, b)
    ensures h.group == b.group
  {
  }

  /** In every finished recording a reader finds, for each group that was declared, a channel with the name,
      texts, units, range and field names of the signal it was declared for. */
  lemma {:induction false} RunDescribes(events: seq<Event>, cfg: Config, f: nat, i: nat)
    requires IsPreamble(cfg.preamble) && Finished(events, cfg, f)
    requires Representable(Run(events, cfg).files[f], cfg.native)
    requires i < |Run(events, cfg).files[f].log| && Run(events, cfg).files[f].log[i].Declared?
    ensures var file := Run(events, cfg).files[f];
            IsDescribed(Under(events, cfg, file.name), file.log[i])
  {
    hide Run, OpenedAlone, Under, LastUnder, IsPreamble, IsDescribed, ByteTexts, FileFits, LogInOrder, NarrowLog;
    FinishedContent(events, cfg, f);
    var file := Run(events, cfg).files[f];
    TextsAreNarrow(file.log, cfg.native, file.taken);
    FileDescribes(cfg.preamble, file.log, cfg.native, file.taken, i);
  }
}
