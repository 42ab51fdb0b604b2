/** The text every metadata stream starts with, and what a reader makes of it. */
module Preamble {
  import opened Bytes
  import opened Xml
  import opened XmlReader
  import opened XmlConformance
  import opened XmlDocument
  import opened PlainText
  import opened Format

  // ----- The text -----

  /** The XML declaration and the root, whose end tag is never written. */
  predicate IsHead(h: Head) {
    && h.declaration == " version=\"1.0\" encoding=\"UTF-8\""
    && h.root == New("sie").AddAttribute("version", "0.1").AddAttribute("xmlns", "http://www.somat.com/SIE")
  }

  /** Item k inside the root. */
  function ItemAt(k: nat): Item {
    match k
    case 1 => Note(" SIE Format standard definitions ")
    case 3 => Note(" SIE Stream decoder ")
    case 5 => Node(StreamDecoderElement())
    case 7 => Node(MetadataTag())
    case 9 => Note(" Index Block decoder: v0=offset, v1=group ")
    case 11 => Node(IndexTag())
    case 13 => Node(IndexDecoderElement())
    case 15 => Note(" Stream-specific definitions begin here ")
    case _ => Gap(if k == 6 || k == 8 || k == 12 || k == 14 then "\n" else "\n\n")
  }

  predicate AreItems(items: seq<Item>) {
    |items| == 17 && forall k :: 0 <= k < 17 ==> items[k] == ItemAt(k)
  }

  ghost predicate IsPreamble(text: string) {
    exists h, items :: IsHead(h) && AreItems(items) && text == HeadText(h) + ItemsText(items)
  }

  lemma SamePreamble(a: string, b: string)
    requires IsPreamble(a) && IsPreamble(b)
    ensures a == b
  {
    hide HeadText, ItemsText, ItemAt;
    var h, items :| IsHead(h) && AreItems(items) && a == HeadText(h) + ItemsText(items);
    var g, others :| IsHead(g) && AreItems(others) && b == HeadText(g) + ItemsText(others);
    assert items == others;
  }

  function StandardHead(): (h: Head)
    ensures IsHead(h)
  {
    Head(" version=\"1.0\" encoding=\"UTF-8\"",
         New("sie").AddAttribute("version", "0.1").AddAttribute("xmlns", "http://www.somat.com/SIE"))
  }

  lemma Assembled(h: Head, items: seq<Item>)
    requires IsHead(h) && AreItems(items)
    ensures IsPreamble(HeadText(h) + ItemsText(items))
  {
    hide HeadText, ItemsText, ItemAt, IsHead;
  }

  function Preamble(): (text: string)
    ensures IsPreamble(text)
  {
    var h, items := StandardHead(), seq(17, k requires 0 <= k < 17 => ItemAt(k));
    Assembled(h, items);
    HeadText(h) + ItemsText(items)
  }

  /** There is one such text. */
  lemma {:induction false} OnePreamble(text: string)
    requires IsPreamble(text)
    ensures text == Preamble()
  {
    hide Preamble, IsPreamble;
    SamePreamble(text, Preamble());
  }

  // ----- Its elements -----

  lemma FormatNames()
    ensures IsName("decoder") && IsName("id") && IsName("loop") && IsName("read") && IsName("sample") && IsName("tag")
    ensures IsName("var") && IsName("bits") && IsName("type") && IsName("endian") && IsName("value") && IsName("octets")
    ensures IsName("group") && IsName("format")
  {
    hide IsName;
    LowerIsName("decoder");
    LowerIsName("id");
    LowerIsName("loop");
    LowerIsName("read");
    LowerIsName("sample");
    LowerIsName("tag");
    LowerIsName("var");
    LowerIsName("bits");
    LowerIsName("type");
    LowerIsName("endian");
    LowerIsName("value");
    LowerIsName("octets");
    LowerIsName("group");
    LowerIsName("format");
  }

  /** Printable ASCII characters but '>'. */
  predicate Printable(s: string) {
    forall i :: 0 <= i < |s| ==> ' ' <= s[i] <= '~' && s[i] != '>'
  }

  lemma PrintableIsPlain(s: string)
    requires Printable(s)
    ensures Plain(s) && PlainValue(s)
  {
  }

  predicate PlainValue(s: string) {
    NoSpaceButBlank(s) && Plain(s)
  }

  lemma AttributeIsStandard(e: Element, id: string, value: string)
    requires Standard(e) && IsName(id) && PlainValue(id) && PlainValue(value) && !HasAttribute(e.attributes, id)
    ensures Standard(e.AddAttribute(id, value))
  {
    StandardAttribute(e, id, value);
  }

  lemma FourAttributes(name: string, i1: string, v1: string, i2: string, v2: string, i3: string, v3: string, i4: string,
                       v4: string)
    requires IsName(name) && IsName(i1) && IsName(i2) && IsName(i3) && IsName(i4)
    requires Plain(name) && PlainValue(i1) && PlainValue(i2) && PlainValue(i3) && PlainValue(i4)
    requires PlainValue(v1) && PlainValue(v2) && PlainValue(v3) && PlainValue(v4)
    requires i1 != i2 && i1 != i3 && i1 != i4 && i2 != i3 && i2 != i4 && i3 != i4
    ensures Standard(New(name).AddAttribute(i1, v1).AddAttribute(i2, v2).AddAttribute(i3, v3))
    ensures Standard(New(name).AddAttribute(i1, v1).AddAttribute(i2, v2).AddAttribute(i3, v3).AddAttribute(i4, v4))
  {
    hide Standard, PlainValue;
    var e := New(name);
    StandardNew(name);
    AttributeIsStandard(e, i1, v1);
    AttributeIsStandard(e.AddAttribute(i1, v1), i2, v2);
    AttributeIsStandard(e.AddAttribute(i1, v1).AddAttribute(i2, v2), i3, v3);
    AttributeIsStandard(e.AddAttribute(i1, v1).AddAttribute(i2, v2).AddAttribute(i3, v3), i4, v4);
  }

  lemma UIntReadIsStandard(v: string, bits: string)
    requires PlainValue(v) && PlainValue(bits)
    ensures Standard(UIntRead(v, bits))
  {
    hide Standard, IsName, Plain, PlainValue;
    PrintableIsPlain("read");
    PrintableIsPlain("var");
    PrintableIsPlain("bits");
    PrintableIsPlain("type");
    PrintableIsPlain("uint");
    PrintableIsPlain("endian");
    PrintableIsPlain("big");
    FormatNames();
    FourAttributes("read", "var", v, "bits", bits, "type", "uint", "endian", "big");
  }

  lemma CheckedReadIsStandard(v: string, value: string)
    requires PlainValue(v) && PlainValue(value)
    ensures Standard(CheckedRead(v, value))
  {
    FormatNames();
    UIntReadIsStandard(v, "32");
    AttributeIsStandard(UIntRead(v, "32"), "value", value);
  }

  lemma PayloadNamesArePlain()
    ensures Plain("read") && PlainValue("var") && PlainValue("octets") && PlainValue("type") && PlainValue("group")
  {
  }

  lemma PayloadValuesArePlain(octets: string, group: string)
    requires octets == "{$size - 20}" && group == "{$group}"
    ensures PlainValue("payload") && PlainValue(octets) && PlainValue("raw") && PlainValue(group)
  {
  }

  lemma PayloadReadIsStandard(octets: string, group: string)
    requires octets == "{$size - 20}" && group == "{$group}"
    ensures Standard(PayloadRead())
  {
    hide Standard, IsName, PlainValue, Plain;
    FormatNames();
    PayloadNamesArePlain();
    PayloadValuesArePlain(octets, group);
    FourAttributes("read", "var", "payload", "octets", octets, "type", "raw", "group", group);
  }

  lemma MetadataTagIsStandard()
    ensures Standard(MetadataTag())
  {
    hide Standard, IsName, Plain, PlainValue;
    PrintableIsPlain("tag");
    PrintableIsPlain("id");
    PrintableIsPlain("sie:xml_metadata");
    PrintableIsPlain("group");
    PrintableIsPlain("0");
    PrintableIsPlain("format");
    PrintableIsPlain("text/xml");
    PrintableIsPlain("decoder");
    PrintableIsPlain("1");
    FormatNames();
    FourAttributes("tag", "id", "sie:xml_metadata", "group", "0", "format", "text/xml", "decoder", "1");
  }

  lemma IndexTagIsStandard()
    ensures Standard(IndexTag())
  {
    hide Standard, IsName, Plain, PlainValue;
    PrintableIsPlain("tag");
    PrintableIsPlain("id");
    PrintableIsPlain("SIE:BlockIndex");
    PrintableIsPlain("group");
    PrintableIsPlain("1");
    PrintableIsPlain("decoder");
    PrintableIsPlain("format");
    PrintableIsPlain("text/xml");
    FormatNames();
    FourAttributes("tag", "id", "SIE:BlockIndex", "group", "1", "decoder", "1", "format", "text/xml");
  }

  ghost predicate AllStandard(es: seq<Element>) {
    forall k :: 0 <= k < |es| ==> Standard(es[k])
  }

  lemma {:induction false} StandardList(es: seq<Element>)
    requires AllStandard(es)
    ensures AllValidNames(es) && AllFaithful(es) && PlainTrees(es)
  {
    if es != [] {
      StandardList(es[1..]);
    }
  }

  lemma StandardParent(name: string, body: seq<Element>)
    requires Standard(New(name)) && AllValidNames(body) && AllFaithful(body) && PlainTrees(body)
    ensures Standard(New(name).(children := body))
  {
  }

  lemma LoopIsStandard(id: string, body: seq<Element>)
    requires AllStandard(body) && PlainValue(id)
    ensures Standard(LoopDecoder(id, body))
  {
    hide Standard, IsName, PlainValue;
    FormatNames();
    StandardList(body);
    PrintableIsPlain("decoder");
    PrintableIsPlain("loop");
    PrintableIsPlain("id");
    StandardNew("decoder");
    AttributeIsStandard(New("decoder"), "id", id);
    StandardNew("loop");
    StandardParent("loop", body);
    StandardChild(New("decoder").AddAttribute("id", id), New("loop").(children := body));
  }

  lemma StreamValuesArePlain()
    ensures PlainValue("size") && PlainValue("32") && PlainValue("group") && PlainValue("magic")
    ensures PlainValue("0x51EDA7A0")
    ensures PlainValue("checksum") && PlainValue("size2") && PlainValue("{$size}")
  {
  }

  lemma StreamReadIsStandard(k: nat)
    requires k < 6
    ensures Standard(StreamReads()[k])
  {
    hide Standard, UIntRead, CheckedRead, PayloadRead, PlainValue;
    StreamValuesArePlain();
    match k
    case 0 => UIntReadIsStandard("size", "32");
    case 1 => UIntReadIsStandard("group", "32");
    case 2 => CheckedReadIsStandard("magic", "0x51EDA7A0");
    case 3 => PayloadReadIsStandard("{$size - 20}", "{$group}");
    case 4 => UIntReadIsStandard("checksum", "32");
    case 5 => CheckedReadIsStandard("size2", "{$size}");
  }

  lemma StreamDecoderIsStandard()
    ensures Standard(StreamDecoderElement())
  {
    hide Standard, UIntRead, CheckedRead, PayloadRead, LoopDecoder;
    forall k | 0 <= k < 6 ensures Standard(StreamReads()[k]) {
      StreamReadIsStandard(k);
    }
    LoopIsStandard("0", StreamReads());
  }

  lemma IndexDecoderIsStandard()
    ensures Standard(IndexDecoderElement())
  {
    hide Standard, UIntRead, LoopDecoder;
    FormatNames();
    UIntReadIsStandard("v0", "64");
    UIntReadIsStandard("v1", "32");
    StandardNew("sample");
    LoopIsStandard("1", IndexReads());
  }

  // ----- Reading it -----

  predicate GoodAndPlain(i: Item) {
    GoodItem(i) && PlainItem(i) && (i.Node? ==> Seen(i.element) == i.element)
  }

  lemma StandardNode(e: Element)
    requires Standard(e)
    ensures GoodAndPlain(Node(e))
  {
    SeenIsKept(e);
  }

  predicate CommentText(text: string) {
    Plain(text) && forall k :: 0 <= k < |text| ==> text[k] != '>'
  }

  lemma NoteIsGood(text: string)
    requires CommentText(text)
    ensures GoodAndPlain(Note(text))
  {
  }

  lemma PrintableIsComment(s: string)
    requires Printable(s)
    ensures CommentText(s)
  {
  }

  lemma TitleIsComment()
    ensures CommentText(" SIE Format standard definitions ")
  {
    hide CommentText;
    PrintableIsComment(" SIE Format standard definitions ");
  }

  lemma StreamTitleIsComment()
    ensures CommentText(" SIE Stream decoder ")
  {
    hide CommentText;
    PrintableIsComment(" SIE Stream decoder ");
  }

  lemma IndexTitleIsComment()
    ensures CommentText(" Index Block decoder: v0=offset, v1=group ")
  {
    hide CommentText;
    PrintableIsComment(" Index Block decoder: v0=offset, v1=group ");
  }

  lemma LastTitleIsComment()
    ensures CommentText(" Stream-specific definitions begin here ")
  {
    hide CommentText;
    PrintableIsComment(" Stream-specific definitions begin here ");
  }

  lemma NoteItemIsGood(k: nat)
    requires k == 1 || k == 3 || k == 9 || k == 15
    ensures GoodAndPlain(ItemAt(k))
  {
    hide StreamDecoderElement, IndexDecoderElement, MetadataTag, IndexTag, GoodAndPlain, CommentText;
    TitleIsComment();
    StreamTitleIsComment();
    IndexTitleIsComment();
    LastTitleIsComment();
    match k
    case 1 => NoteIsGood(" SIE Format standard definitions ");
    case 3 => NoteIsGood(" SIE Stream decoder ");
    case 9 => NoteIsGood(" Index Block decoder: v0=offset, v1=group ");
    case _ => NoteIsGood(" Stream-specific definitions begin here ");
  }

  lemma GapIsGood(space: string)
    requires space == "\n" || space == "\n\n"
    ensures GoodAndPlain(Gap(space))
  {
  }

  lemma ItemIsGood(k: nat)
    ensures GoodAndPlain(ItemAt(k))
  {
    hide StreamDecoderElement, IndexDecoderElement, MetadataTag, IndexTag, Standard, GoodAndPlain;
    if k == 5 {
      StreamDecoderIsStandard();
      StandardNode(StreamDecoderElement());
    } else if k == 7 || k == 11 {
      MetadataTagIsStandard();
      IndexTagIsStandard();
      StandardNode(MetadataTag());
      StandardNode(IndexTag());
    } else if k == 13 {
      IndexDecoderIsStandard();
      StandardNode(IndexDecoderElement());
    } else if k == 1 || k == 3 || k == 9 || k == 15 {
      NoteItemIsGood(k);
    } else {
      GapIsGood(if k == 6 || k == 8 || k == 12 || k == 14 then "\n" else "\n\n");
    }
  }

  lemma {:induction false} ItemsAreGood(items: seq<Item>)
    requires AreItems(items)
    ensures forall k :: 0 <= k < 17 ==> GoodAndPlain(items[k])
    ensures GoodItems(items) && Plain(ItemsText(items))
  {
    hide ItemAt, GoodAndPlain, ItemsText, Plain;
    forall k | 0 <= k < 17 ensures GoodAndPlain(items[k]) {
      ItemIsGood(k);
    }
    GoodAndPlainItems(items);
  }

  lemma {:induction false} GoodAndPlainItems(items: seq<Item>)
    requires forall k :: 0 <= k < |items| ==> GoodAndPlain(items[k])
    ensures GoodItems(items) && Plain(ItemsText(items))
  {
    hide GoodItem, PlainItem, ItemsText, Plain, Seen;
    PlainItemsText(items);
  }

  lemma RootIsGood(name: string, i1: string, v1: string, i2: string, v2: string)
    requires IsName(name) && IsName(i1) && IsName(i2) && i1 != i2
    requires Plain(name) && PlainValue(i1) && PlainValue(v1) && PlainValue(i2) && PlainValue(v2)
    ensures var root := New(name).AddAttribute(i1, v1).AddAttribute(i2, v2);
            ValidNames(root) && Plain(OpenTag(root))
  {
    PlainOpenTag(New(name).AddAttribute(i1, v1).AddAttribute(i2, v2));
  }

  lemma RootNames()
    ensures IsName("sie") && IsName("version") && IsName("xmlns")
    ensures Plain("sie") && PlainValue("version") && PlainValue("xmlns") && PlainValue("0.1")
  {
  }

  lemma UrlIsPlain()
    ensures PlainValue("http://www.somat.com/SIE")
  {
  }

  lemma RootOfHead(h: Head)
    requires IsHead(h)
    ensures ValidNames(h.root) && Plain(OpenTag(h.root))
  {
    hide OpenTag, ValidNames, PlainValue, Plain, IsName;
    RootNames();
    UrlIsPlain();
    RootIsGood("sie", "version", "0.1", "xmlns", "http://www.somat.com/SIE");
  }

  lemma DeclarationIsPlain()
    ensures CommentText(" version=\"1.0\" encoding=\"UTF-8\"")
  {
    hide CommentText;
    PrintableIsComment(" version=\"1.0\" encoding=\"UTF-8\"");
  }

  lemma DeclarationIsGood(h: Head)
    requires CommentText(h.declaration) && ValidNames(h.root) && Plain(OpenTag(h.root))
    ensures GoodHead(h) && Plain(HeadText(h))
  {
    PlainJoin("<?xml" + h.declaration + "?>" + "\n", OpenTag(h.root));
  }

  lemma HeadIsGood(h: Head)
    requires IsHead(h)
    ensures GoodHead(h) && Plain(HeadText(h))
  {
    hide OpenTag, ValidNames, HeadText, GoodHead, CommentText;
    RootOfHead(h);
    DeclarationIsPlain();
    DeclarationIsGood(h);
  }

  /** The two decoders and the two tags. */
  predicate AreStandardElements(es: seq<Element>) {
    && |es| == 4 && es[0] == StreamDecoderElement() && es[1] == MetadataTag()
    && es[2] == IndexTag() && es[3] == IndexDecoderElement()
  }

  lemma NodesAt(items: seq<Item>, k: nat)
    requires k < |items| && GoodAndPlain(items[k])
    ensures Nodes(items[k..]) == (if items[k].Node? then [items[k].element] else []) + Nodes(items[k + 1..])
  {
    hide Seen;
    assert items[k..][1..] == items[k + 1..];
  }

  /** From one element of the preamble to the next. */
  lemma NodesPair(items: seq<Item>, k: nat, more: seq<Element>)
    requires k + 1 < |items| && GoodAndPlain(items[k]) && GoodAndPlain(items[k + 1])
    requires !items[k].Node? && Nodes(items[k + 2..]) == more
    ensures Nodes(items[k..]) == if items[k + 1].Node? then [items[k + 1].element] + more else more
  {
    hide GoodAndPlain, Nodes;
    NodesAt(items, k);
    NodesAt(items, k + 1);
    assert [] + more == more;
    assert [] + Nodes(items[k + 1..]) == Nodes(items[k + 1..]);
  }

  lemma LastNodes(items: seq<Item>, more: seq<Element>)
    requires AreItems(items) && forall k :: 0 <= k < 17 ==> GoodAndPlain(items[k])
    requires more == [IndexDecoderElement()]
    ensures Nodes(items[12..]) == more
  {
    hide GoodAndPlain, Nodes, IndexDecoderElement, StreamDecoderElement, MetadataTag, IndexTag;
    NodesAt(items, 16);
    NoNodes(items[17..]);
    assert items[16] == ItemAt(16) && items[15] == ItemAt(15) && items[14] == ItemAt(14);
    assert [] + Nodes(items[17..]) == [];
    NodesPair(items, 14, []);
    NodesPair(items, 12, []);
  }

  lemma NoNodes(items: seq<Item>)
    requires items == []
    ensures Nodes(items) == []
  {
  }

  lemma MiddleNodes(items: seq<Item>, last: seq<Element>)
    requires AreItems(items) && forall k :: 0 <= k < 17 ==> GoodAndPlain(items[k])
    requires last == [IndexDecoderElement()]
    ensures Nodes(items[6..]) == [MetadataTag()] + ([IndexTag()] + last)
  {
    hide GoodAndPlain, Nodes, StreamDecoderElement, IndexDecoderElement, MetadataTag, IndexTag;
    LastNodes(items, last);
    NodesPair(items, 10, last);
    NodesPair(items, 8, [IndexTag()] + last);
    NodesPair(items, 6, [IndexTag()] + last);
  }

  lemma PreambleNodes(items: seq<Item>)
    requires AreItems(items) && forall k :: 0 <= k < 17 ==> GoodAndPlain(items[k])
    ensures AreStandardElements(Nodes(items))
  {
    hide GoodAndPlain, Nodes, StreamDecoderElement, IndexDecoderElement, MetadataTag, IndexTag;
    var last := [IndexDecoderElement()];
    MiddleNodes(items, last);
    NodesPair(items, 4, [MetadataTag()] + ([IndexTag()] + last));
    NodesPair(items, 2, [StreamDecoderElement()] + ([MetadataTag()] + ([IndexTag()] + last)));
    NodesPair(items, 0, [StreamDecoderElement()] + ([MetadataTag()] + ([IndexTag()] + last)));
    assert items[0..] == items;
  }

  lemma PreambleIsPlain(text: string)
    requires IsPreamble(text)
    ensures Plain(text) && Narrow(text) && IsText(text)
  {
    hide HeadText, ItemsText, IsHead, ItemAt;
    var h, items :| IsHead(h) && AreItems(items) && text == HeadText(h) + ItemsText(items);
    HeadIsGood(h);
    ItemsAreGood(items);
    PlainJoin(HeadText(h), ItemsText(items));
  }

  /** A metadata stream is read as the two decoders and the two tags of the preamble, then whatever
      elements were written behind it, unless they hold characters that are no XML characters. */
  lemma {:induction false} PreambleReadBack(text: string, es: seq<Element>) returns (front: seq<Element>)
    requires IsPreamble(text) && AllValidNames(es)
    ensures AreStandardElements(front)
    ensures ReadDocument(text + SerializeAll(es, 1))
         == if TextTrees(es) then Some(front + CanonicalAll(es)) else None
  {
    hide TextTrees, HeadText, ItemsText, IsHead, ItemAt, AreStandardElements, ReadDocument, CanonicalAll, SerializeAll;
    var h, items :| IsHead(h) && AreItems(items) && text == HeadText(h) + ItemsText(items);
    HeadIsGood(h);
    ItemsAreGood(items);
    PlainJoin(HeadText(h), ItemsText(items));
    DocumentReadBack(h, items, es);
    PreambleNodes(items);
    front := Nodes(items);
  }
}
