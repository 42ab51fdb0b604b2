/** The preamble is a short text. */
module PreambleLimits {
  import opened Bytes
  import opened BlockLayer
  import opened Xml
  import opened XmlDocument
  import opened Decimal
  import opened SieXml
  import opened Format
  import opened FileLog
  import opened Preamble
  import opened TextLimits

  lemma FormatTexts()
    ensures Narrow("read") && Narrow("var") && Narrow("bits") && Narrow("type") && Narrow("uint") && Narrow("endian")
    ensures Narrow("big")
    ensures Narrow("value") && Narrow("32") && Narrow("64") && Narrow("payload") && Narrow("octets") && Narrow("raw")
    ensures Narrow("group")
    ensures |"read"| == |"bits"| == |"type"| == |"uint"| == 4 && |"var"| == |"big"| == |"raw"| == 3
    ensures |"endian"| == |"octets"| == 6
    ensures |"value"| == |"group"| == 5 && |"32"| == |"64"| == 2 && |"payload"| == 7
  {
  }

  lemma UIntReadHead(v: string, bits: string)
    requires Narrow(v) && Narrow(bits) && |v| <= 8 && |bits| == 2
    ensures SlimHead(UIntRead(v, bits), 160)
  {
    hide Narrow, OpenTag;
    FormatTexts();
    FourSlim("read", "var", v, "bits", bits, "type", "uint", "endian", "big");
  }

  lemma UIntReadSlim(v: string, bits: string)
    requires Narrow(v) && Narrow(bits) && |v| <= 8 && |bits| == 2
    ensures Slim(UIntRead(v, bits), 3, 250)
  {
    hide Narrow, OpenTag, Markup;
    UIntReadHead(v, bits);
    SlimEmpty(UIntRead(v, bits), 3, 160);
  }

  lemma CheckedReadSlim(v: string, value: string)
    requires Narrow(v) && Narrow(value) && |v| <= 8 && |value| <= 10
    ensures Slim(CheckedRead(v, value), 3, 250)
  {
    hide Narrow, OpenTag, Markup;
    FormatTexts();
    UIntReadHead(v, "32");
    HeadAttribute(UIntRead(v, "32"), 160, "value", value);
    SlimEmpty(CheckedRead(v, value), 3, 160 + 4 + 5 + 60);
  }

  lemma PayloadReadSlim(octets: string, group: string)
    requires octets == "{$size - 20}" && group == "{$group}"
    ensures Slim(PayloadRead(), 3, 250)
  {
    hide OpenTag, Markup;
    FormatTexts();
    assert |octets| == 12 && |group| == 8;
    FourSlim("read", "var", "payload", "octets", octets, "type", "raw", "group", group);
    SlimEmpty(PayloadRead(), 3, 4 + 17 + 3 + 6 + 4 + 5 + 42 + 72 + 18 + 48);
  }

  lemma {:induction false} SameSlim(es: seq<Element>, cap: nat, w: nat)
    requires forall k :: 0 <= k < |es| ==> Slim(es[k], cap, w)
    ensures SlimAll(es, cap, |es| * (w + cap + 1))
    decreases |es|
  {
    hide Slim, SlimAll;
    if es == [] {
      SlimNone(cap);
    } else {
      SlimOne(es[0], cap, w);
      SameSlim(es[1..], cap, w);
      SlimJoin([es[0]], w + cap + 1, es[1..], |es[1..]| * (w + cap + 1), cap);
      assert [es[0]] + es[1..] == es;
      assert |es| * (w + cap + 1) == (w + cap + 1) + (|es| - 1) * (w + cap + 1);
    }
  }

  lemma LoopNames()
    ensures Narrow("decoder") && Narrow("id") && Narrow("loop") && |"decoder"| == 7 && |"id"| == 2 && |"loop"| == 4
  {
  }

  lemma LoopDecoderSlim(id: string, body: seq<Element>, w: nat)
    requires Narrow(id) && |id| == 1 && SlimAll(body, 3, w)
    ensures Slim(LoopDecoder(id, body), 1, w + 70)
  {
    hide Narrow, OpenTag, Markup, Slim, SlimAll, SlimHead;
    LoopNames();
    HeadNew("loop");
    SlimParent(New("loop"), 2, 5, body, w);
    var loop := New("loop").(children := body);
    HeadNew("decoder");
    HeadAttribute(New("decoder"), 8, "id", id);
    SlimOne(loop, 2, 5 + w + 2 + 4 + 5);
    SlimParent(New("decoder").AddAttribute("id", id), 1, 20, [loop], w + 19);
    assert LoopDecoder(id, body) == New("decoder").AddAttribute("id", id).(children := [loop]);
    SlimHigher(LoopDecoder(id, body), 1, 20 + w + 19 + 1 + 7 + 5, w + 70);
  }

  lemma SlimHigher(e: Element, cap: nat, w: nat, higher: nat)
    requires Slim(e, cap, w) && w <= higher
    ensures Slim(e, cap, higher)
  {
  }

  lemma StreamTexts()
    ensures Narrow("size") && Narrow("magic") && Narrow("0x51EDA7A0") && Narrow("checksum") && Narrow("size2")
    ensures Narrow("{$size}")
    ensures Narrow("0") && Narrow("1") && Narrow("v0") && Narrow("v1") && Narrow("sample")
    ensures |"size"| == 4 && |"magic"| == |"size2"| == 5 && |"0x51EDA7A0"| == 10 && |"checksum"| == 8
    ensures |"{$size}"| == 7
    ensures |"v0"| == |"v1"| == 2 && |"sample"| == 6 && |"0"| == |"1"| == 1
  {
  }

  lemma StreamReadSlim(k: nat)
    requires k < 6
    ensures Slim(StreamReads()[k], 3, 250)
  {
    hide Narrow, Slim, UIntRead, CheckedRead, PayloadRead;
    StreamTexts();
    FormatTexts();
    match k
    case 0 => UIntReadSlim("size", "32");
    case 1 => UIntReadSlim("group", "32");
    case 2 => CheckedReadSlim("magic", "0x51EDA7A0");
    case 3 => PayloadReadSlim("{$size - 20}", "{$group}");
    case 4 => UIntReadSlim("checksum", "32");
    case 5 => CheckedReadSlim("size2", "{$size}");
  }

  lemma StreamDecoderSlim()
    ensures Slim(StreamDecoderElement(), 1, 2000)
  {
    hide Narrow, Slim, SlimAll, UIntRead, CheckedRead, PayloadRead, LoopDecoder;
    StreamTexts();
    forall k | 0 <= k < 6 ensures Slim(StreamReads()[k], 3, 250) {
      StreamReadSlim(k);
    }
    SameSlim(StreamReads(), 3, 250);
    LoopDecoderSlim("0", StreamReads(), 1524);
    SlimHigher(StreamDecoderElement(), 1, 1594, 2000);
  }

  lemma SampleReadSlim()
    ensures Slim(New("sample"), 3, 250)
  {
    hide Narrow, OpenTag, Markup;
    StreamTexts();
    HeadNew("sample");
    SlimEmpty(New("sample"), 3, 7);
  }

  lemma IndexDecoderSlim()
    ensures Slim(IndexDecoderElement(), 1, 2000)
  {
    hide Narrow, Slim, SlimAll, UIntRead, LoopDecoder;
    StreamTexts();
    FormatTexts();
    UIntReadSlim("v0", "64");
    UIntReadSlim("v1", "32");
    SampleReadSlim();
    SameSlim(IndexReads(), 3, 250);
    LoopDecoderSlim("1", IndexReads(), 762);
    SlimHigher(IndexDecoderElement(), 1, 832, 2000);
  }

  lemma TagTexts()
    ensures Narrow("tag") && Narrow("id") && Narrow("group") && Narrow("format") && Narrow("decoder")
    ensures Narrow("text/xml")
    ensures Narrow("sie:xml_metadata") && Narrow("SIE:BlockIndex")
    ensures |"tag"| == 3 && |"id"| == 2 && |"group"| == 5 && |"format"| == 6 && |"decoder"| == 7 && |"text/xml"| == 8
    ensures |"sie:xml_metadata"| == 16 && |"SIE:BlockIndex"| == 14
  {
  }

  lemma TagsSlim()
    ensures Slim(MetadataTag(), 1, 2000) && Slim(IndexTag(), 1, 2000)
  {
    hide Narrow, OpenTag, Markup;
    TagTexts();
    StreamTexts();
    FourSlim("tag", "id", "sie:xml_metadata", "group", "0", "format", "text/xml", "id", "0");
    SlimEmpty(MetadataTag(), 1, 1000);
    FourSlim("tag", "id", "SIE:BlockIndex", "group", "1", "decoder", "1", "id", "0");
    SlimEmpty(IndexTag(), 1, 1000);
  }

  // ----- The whole text -----

  predicate ShortItem(i: Item) {
    |ItemText(i)| <= 2100
  }

  lemma NodeIsShort(e: Element)
    requires Slim(e, 1, 2000)
    ensures ShortItem(Node(e))
  {
    assert |Markup(e, 1)| <= 2000;
  }

  lemma TitlesAreShort(k: nat)
    requires k == 1 || k == 3 || k == 9 || k == 15
    ensures ShortItem(ItemAt(k))
  {
    hide StreamDecoderElement, IndexDecoderElement, MetadataTag, IndexTag;
    match k
    case 1 => assert |" SIE Format standard definitions "| <= 100;
    case 3 => assert |" SIE Stream decoder "| <= 100;
    case 9 => assert |" Index Block decoder: v0=offset, v1=group "| <= 100;
    case _ => assert |" Stream-specific definitions begin here "| <= 100;
  }

  lemma ItemIsShort(k: nat)
    ensures ShortItem(ItemAt(k))
  {
    hide StreamDecoderElement, IndexDecoderElement, MetadataTag, IndexTag, Slim, Serialize;
    if k == 5 {
      StreamDecoderSlim();
      NodeIsShort(StreamDecoderElement());
    } else if k == 7 || k == 11 {
      TagsSlim();
      NodeIsShort(MetadataTag());
      NodeIsShort(IndexTag());
    } else if k == 13 {
      IndexDecoderSlim();
      NodeIsShort(IndexDecoderElement());
    } else if k == 1 || k == 3 || k == 9 || k == 15 {
      TitlesAreShort(k);
    }
  }

  lemma {:induction false} ItemsAreShort(items: seq<Item>)
    requires forall k :: 0 <= k < |items| ==> ShortItem(items[k])
    ensures |ItemsText(items)| <= 2100 * |items|
    decreases |items|
  {
    hide ItemText;
    if items != [] {
      assert ShortItem(items[0]);
      ShortLength(items[0]);
      ItemsAreShort(items[1..]);
    }
  }

  lemma ShortLength(i: Item)
    requires ShortItem(i)
    ensures |ItemText(i)| <= 2100
  {
  }

  lemma RootTexts()
    ensures Narrow("sie") && Narrow("version") && Narrow("0.1") && Narrow("xmlns") && Narrow("http://www.somat.com/SIE")
    ensures |"sie"| == |"0.1"| == 3 && |"version"| == 7 && |"xmlns"| == 5 && |"http://www.somat.com/SIE"| == 24
    ensures |" version=\"1.0\" encoding=\"UTF-8\""| == 31
  {
  }

  lemma HeadIsShort(h: Head)
    requires IsHead(h)
    ensures |HeadText(h)| <= 1000
  {
    hide Narrow, OpenTag;
    RootTexts();
    FourSlim("sie", "version", "0.1", "xmlns", "http://www.somat.com/SIE", "version", "0.1", "version", "0.1");
    assert |OpenTag(h.root)| <= 3 + 9 + 7 + 5 + 18 + 144;
  }

  lemma PreambleIsShort(text: string)
    requires IsPreamble(text)
    ensures |text| <= 40_000
  {
    hide HeadText, ItemsText, IsHead, ItemAt, ShortItem;
    var h, items :| IsHead(h) && AreItems(items) && text == HeadText(h) + ItemsText(items);
    HeadIsShort(h);
    forall k | 0 <= k < 17 ensures ShortItem(items[k]) {
      ItemIsShort(k);
    }
    ItemsAreShort(items);
  }

  /** The block every file begins with fits its 32-bit size. */
  lemma {:induction false} OpeningFits(preamble: string)
    requires IsPreamble(preamble)
    ensures |OpeningText(preamble)| <= 41_000 && Fits(Block(METADATA, OfText(OpeningText(preamble))))
  {
    hide IsPreamble, Markup, OpenTag;
    PreambleIsShort(preamble);
    TestTexts();
    HeadNew("test");
    HeadAttribute(New("test"), 5, "id", ToDecimal(0));
    SlimEmpty(TestElement(0), 1, 17);
    assert |Markup(TestElement(0), 1)| <= 19;
  }

  lemma TestTexts()
    ensures Narrow("test") && Narrow("id") && |"test"| == 4 && |"id"| == 2 && Narrow(ToDecimal(0))
    ensures |ToDecimal(0)| == 1
  {
  }
}
