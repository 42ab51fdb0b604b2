/** A reader starts with the bytes of a file alone: the stream decoder is found in its first block. */
module Bootstrap {
  import opened Bytes
  import opened BlockLayer
  import opened Xml
  import opened XmlReader
  import opened XmlConformance
  import opened Decimal
  import opened SieXml
  import opened StreamDecoder
  import opened Format
  import opened FormatDecoders
  import opened PlainText
  import opened Preamble
  import opened Reader
  import opened CanonicalElements
  import opened FileLog

  lemma FirstTextFound(blocks: seq<Block>)
    requires blocks != [] && Fits(blocks[0])
    ensures FirstText(Frames(blocks)) == Some(ToText(blocks[0].payload))
  {
    hide Frames, BeValue, FirstText;
    FramesPlaced([], blocks);
    assert [] + Frames(blocks) == Frames(blocks);
    FirstTextAt(Frames(blocks), blocks[0]);
  }

  lemma FirstTextAt(file: seq<Byte>, b: Block)
    requires FrameAt(file, 0, b) && Fits(b)
    ensures FirstText(file) == Some(ToText(b.payload))
  {
    hide BeValue;
    assert file[0..4] == file[..4];
  }

  // ----- The opening metadata -----

  lemma TestIsStandard(digits: string)
    requires AllDigits(digits)
    ensures Standard(New("test").AddAttribute("id", digits))
  {
    DigitsArePlain(digits);
    assert IsName("test") && IsName("id");
    StandardNew("test");
    StandardAttribute(New("test"), "id", digits);
  }

  lemma OpeningIsNarrow(preamble: string)
    requires IsPreamble(preamble)
    ensures Narrow(OpeningText(preamble))
  {
    PreambleIsPlain(preamble);
    TestIsStandard(ToDecimal(0));
    PlainSerialize(TestElement(0), 1);
    PlainJoin(preamble, Serialize(TestElement(0), 1));
  }

  lemma OpeningIsValid()
    ensures AllValidNames([TestElement(0)]) && TextTrees([TestElement(0)])
  {
    TestIsStandard(ToDecimal(0));
    assert [TestElement(0)][1..] == [];
    assert forall c: char :: IsDigit(c) ==> IsChar(c);
  }

  // ----- Searching the elements of the preamble -----

  lemma DecoderFound(e: Element, es: seq<Element>, id: string, body: seq<Element>)
    requires e == LoopDecoder(id, body) && es != [] && es[0] == e
    ensures FindDecoder(es, id) == Some(e)
  {
    assert e.attributes == [Attribute("id", id)];
    AttributeFound(e.attributes, 0, "id");
  }

  lemma OtherDecoder(e: Element, id: string, body: seq<Element>, other: string)
    requires e == LoopDecoder(id, body) && id != other
    ensures e.name == "decoder" && AttributeOf(e.attributes, "id") != Some(other)
  {
    assert e.attributes == [Attribute("id", id)];
    AttributeFound(e.attributes, 0, "id");
  }

  lemma OtherIds(id: nat)
    requires id >= 2
    ensures ToDecimal(id) != "0" && ToDecimal(id) != "1"
  {
    assert ToDecimal(0) == "0" && ToDecimal(1) == "1";
    if ToDecimal(id) == "0" {
      DecimalInjective(id, 0);
    }
    if ToDecimal(id) == "1" {
      DecimalInjective(id, 1);
    }
  }

  predicate NotFound(e: Element, id: string) {
    e.name != "test" && (e.name == "decoder" ==> AttributeOf(e.attributes, "id") != Some(id))
  }

  lemma {:induction false} NoneFound(es: seq<Element>, id: string, group: string)
    requires forall k :: 0 <= k < |es| ==> NotFound(es[k], id)
    ensures FindDecoder(es, id) == None && FindTest(es, group) == None
  {
    if es != [] {
      NoneFound(es[1..], id, group);
    }
  }

  lemma TagIsNoDecoder(e: Element, id: string)
    requires e == MetadataTag() || e == IndexTag()
    ensures NotFound(e, id)
  {
    assert e.name == "tag";
    assert "tag"[1] == 'a' && "test"[1] == 'e';
  }

  lemma StandardSearch(front: seq<Element>, id: nat, group: string)
    requires AreStandardElements(front) && id >= 2
    ensures FindDecoder(front, ToDecimal(id)) == None && FindTest(front, group) == None
  {
    hide FindDecoder, FindTest, StreamReads, IndexReads, MetadataTag, IndexTag, LoopDecoder;
    OtherIds(id);
    OtherDecoder(front[0], "0", StreamReads(), ToDecimal(id));
    OtherDecoder(front[3], "1", IndexReads(), ToDecimal(id));
    TagIsNoDecoder(front[1], ToDecimal(id));
    TagIsNoDecoder(front[2], ToDecimal(id));
    assert "decoder"[0] == 'd' && "test"[0] == 't';
    NoneFound(front, ToDecimal(id), group);
  }

  // ----- Finding the stream program -----

  lemma StreamDecoderIn(front: seq<Element>, more: seq<Element>)
    requires AreStandardElements(front)
    ensures FindDecoder(front + more, "0") == Some(front[0])
    ensures Program(front[0]).Some? && IsStreamProgram(Program(front[0]).value)
  {
    hide FindDecoder, StreamReads, MetadataTag, IndexTag, IndexDecoderElement, Program;
    DecoderFound(front[0], front + more, "0", StreamReads());
    StreamDecoderCompiles(front[0]);
  }

  lemma FoundIn(file: seq<Byte>, text: string, es: seq<Element>, decoder: Element)
    requires FirstText(file) == Some(text) && ReadDocument(text) == Some(es) && FindDecoder(es, "0") == Some(decoder)
    ensures StreamProgram(file) == Program(decoder)
  {
  }

  lemma OpeningParts(preamble: string) returns (test: Element)
    ensures AllValidNames([test]) && TextTrees([test])
    ensures OpeningText(preamble) == preamble + SerializeAll([test], 1)
  {
    test := TestElement(0);
    OpeningIsValid();
    SerializeOne(test, 1);
  }

  /** A file that begins with the opening metadata yields the stream program. */
  lemma {:induction false} StreamProgramFound(preamble: string, file: seq<Byte>)
    requires IsPreamble(preamble)
    requires FirstText(file) == Some(OpeningText(preamble))
    ensures StreamProgram(file).Some? && IsStreamProgram(StreamProgram(file).value)
  {
    hide FirstText, ReadDocument, FindDecoder, Program, StreamProgram, IsStreamProgram, AreStandardElements,
      IsPreamble, OpeningText, CanonicalAll, SerializeAll;
    var test := OpeningParts(preamble);
    var front := PreambleReadBack(preamble, [test]);
    StreamDecoderIn(front, CanonicalAll([test]));
    HasElements(front);
    FoundIn(file, OpeningText(preamble), front + CanonicalAll([test]), front[0]);
  }

  lemma HasElements(front: seq<Element>)
    requires AreStandardElements(front)
    ensures |front| == 4
  {
  }

  lemma OpeningTextFound(preamble: string, file: seq<Byte>)
    requires IsPreamble(preamble)
    requires FirstText(file) == Some(ToText(OfText(OpeningText(preamble))))
    ensures FirstText(file) == Some(OpeningText(preamble))
  {
    hide FirstText, OpeningText, IsPreamble;
    OpeningIsNarrow(preamble);
    TextRoundTrip(OpeningText(preamble));
  }
}
