/** The metadata of a recording: what group 0 of a finished file reads back as. */
module Metadata {
  import opened Bytes
  import opened BlockLayer
  import opened IndexAgreement
  import opened Xml
  import opened XmlReader
  import opened XmlConformance
  import Decimal
  import opened SieXml
  import opened Reader
  import opened Declarations
  import opened Descriptors
  import opened Handlers
  import opened FileLog
  import opened Ownership
  import opened Preamble
  import opened Bootstrap

  /** The elements an entry adds to the metadata. */
  function EntryElements(e: Entry, native: Endian): seq<Element> {
    match e
    case Opening(_) => [TestElement(0)]
    case Declared(_, _, h, b, labels) => HandlerElements(h, b, labels, native)
    case Data(_, _, _) => []
  }

  function LogElements(log: seq<Entry>, native: Endian): seq<Element> {
    if log == [] then [] else EntryElements(log[0], native) + LogElements(log[1..], native)
  }

  /** The texts handed to the writer are byte strings. */
  predicate OneByteLog(log: seq<Entry>, native: Endian) {
    forall i :: 0 <= i < |log| ==> OneByteEntry(log[i], native)
  }

  predicate OneByteEntry(e: Entry, native: Endian) {
    e.Declared? ==> OneByte(SerializeAll(HandlerElements(e.handler, e.binding, e.labels, native), 1))
  }

  /** They are made of XML characters as well. */
  predicate NarrowEntry(e: Entry, native: Endian) {
    e.Declared? ==> Narrow(SerializeAll(HandlerElements(e.handler, e.binding, e.labels, native), 1))
  }

  predicate NarrowLog(log: seq<Entry>, native: Endian) {
    forall i :: 0 <= i < |log| ==> NarrowEntry(log[i], native)
  }

  /** After the first entry there are only declarations and data of unreserved groups. */
  predicate Follows(e: Entry, native: Endian) {
    !e.Opening? && (e.Data? ==> e.handler.group >= 2) && OneByteEntry(e, native)
  }

  predicate AllFollow(log: seq<Entry>, native: Endian) {
    forall i :: 0 <= i < |log| ==> Follows(log[i], native)
  }

  // ----- Group 0 -----

  lemma LogBlocksTail(log: seq<Entry>, native: Endian)
    requires log != []
    ensures LogBlocks(log, native) != [] && LogBlocks(log, native)[0] == EntryBlock(log[0], native)
    ensures LogBlocks(log, native)[1..] == LogBlocks(log[1..], native)
  {
  }

  /** Leaving out the index blocks does not matter to the other groups. */
  lemma {:induction false} SelectWithoutIndex(blocks: seq<Block>, group: nat)
    requires group != INDEX
    ensures Select(DropIndex(blocks), group) == Select(blocks, group)
  {
    if blocks != [] {
      SelectWithoutIndex(blocks[1..], group);
      if blocks[0].group != INDEX {
        assert ([blocks[0]] + DropIndex(blocks[1..]))[1..] == DropIndex(blocks[1..]);
      } else {
        assert [] + DropIndex(blocks[1..]) == DropIndex(blocks[1..]);
        assert [] + Select(blocks[1..], group) == Select(blocks[1..], group);
      }
    }
  }

  lemma MetadataStep(b: Block, rest: seq<Block>, all: seq<Block>)
    requires all != [] && all[0] == b && all[1..] == rest
    ensures MetadataText(all) == (if b.group == METADATA then ToText(b.payload) else "") + MetadataText(rest)
  {
    var selected := Select(rest, METADATA);
    if b.group == METADATA {
      assert ([b] + selected)[1..] == selected;
      assert ([b.payload] + Payloads(selected))[1..] == Payloads(selected);
      ToTextConcat(b.payload, Flat(Payloads(selected)));
    } else {
      assert [] + selected == selected;
      assert "" + MetadataText(rest) == MetadataText(rest);
    }
  }

  lemma EntryText(e: Entry, native: Endian)
    requires Follows(e, native)
    ensures var b := EntryBlock(e, native);
            (if b.group == METADATA then ToText(b.payload) else "") == SerializeAll(EntryElements(e, native), 1)
  {
    if e.Declared? {
      TextRoundTrip(SerializeAll(EntryElements(e, native), 1));
    }
  }

  lemma {:induction false} MetadataOfTail(log: seq<Entry>, native: Endian)
    requires AllFollow(log, native)
    ensures MetadataText(LogBlocks(log, native)) == SerializeAll(LogElements(log, native), 1)
  {
    if log != [] {
      LogBlocksTail(log, native);
      MetadataStep(EntryBlock(log[0], native), LogBlocks(log[1..], native), LogBlocks(log, native));
      EntryText(log[0], native);
      MetadataOfTail(log[1..], native);
      SerializeAllConcat(EntryElements(log[0], native), LogElements(log[1..], native), 1);
    }
  }

  lemma {:induction false} MetadataOfLog(log: seq<Entry>, native: Endian, preamble: string)
    requires log != [] && log[0] == Opening(OpeningText(preamble)) && Narrow(OpeningText(preamble))
    requires AllFollow(log[1..], native)
    ensures MetadataText(LogBlocks(log, native)) == preamble + SerializeAll(LogElements(log, native), 1)
  {
    LogBlocksTail(log, native);
    MetadataStep(EntryBlock(log[0], native), LogBlocks(log[1..], native), LogBlocks(log, native));
    TextRoundTrip(OpeningText(preamble));
    MetadataOfTail(log[1..], native);
    SerializeAllConcat([TestElement(0)], LogElements(log[1..], native), 1);
    SerializeOne(TestElement(0), 1);
    Associative(preamble, Serialize(TestElement(0), 1), SerializeAll(LogElements(log[1..], native), 1));
  }

  lemma Associative(a: string, b: string, c: string)
    ensures (a + b) + c == a + (b + c)
  {
  }

  // ----- The elements are well formed -----

  lemma {:induction false} ValidConcat(a: seq<Element>, b: seq<Element>)
    requires AllValidNames(a) && AllValidNames(b)
    ensures AllValidNames(a + b)
  {
    if a == [] {
      assert a + b == b;
    } else {
      ValidConcat(a[1..], b);
      assert (a + b)[1..] == a[1..] + b;
    }
  }

  lemma TestIsValid(id: nat, channel: Element)
    requires ValidNames(channel)
    ensures ValidNames(TestElement(id)) && ValidNames(TestWith(id, channel))
  {
    ChannelNames();
    ValidNew("test", "");
    ValidAttribute(New("test"), "id", Decimal.ToDecimal(id));
    ValidChild(TestElement(id), channel);
  }

  lemma ValidPair(a: Element, b: Element)
    requires ValidNames(a) && ValidNames(b)
    ensures AllValidNames([a, b])
  {
    assert [a, b][1..] == [b] && [b][1..] == [];
  }

  /** The decoder and the channel an entry declares. */
  function DecoderOf(h: Handler, b: Binding, native: Endian): Element
    requires IsReady(h, b)
  {
    if h.ScalarHandler? then ScalarDecoder(b, native) else CanDecoder(b, native)
  }

  function ChannelOf(h: Handler, b: Binding, labels: Labels): Element
    requires IsReady(h, b)
  {
    if h.ScalarHandler? then ScalarChannel(b, labels) else CanChannel(b)
  }

  function SourcesOf(h: Handler, b: Binding): (r: seq<Source>)
    ensures r != [] && r[0].decoder == Decimal.ToDecimal(b.decoderId)
  {
    if h.ScalarHandler? then ScalarSources(b.decoderId) else FieldSources(b.decoderId, 0, 1 + |b.value.structFields|)
  }

  lemma DeclaredElements(h: Handler, b: Binding, labels: Labels, native: Endian)
    requires IsReady(h, b)
    ensures HandlerElements(h, b, labels, native) == [DecoderOf(h, b, native),
                                                      TestWith(labels.testId, ChannelOf(h, b, labels))]
    ensures Sound(DecoderOf(h, b, native))
    ensures ChannelFor(ChannelOf(h, b, labels), b.group, SourcesOf(h, b))
  {
    hide ScalarChannel, CanChannel, ScalarDecoder, CanDecoder, ChannelFor, Sound;
    if h.ScalarHandler? {
      ScalarDecoderIsSound(b, native);
      ScalarChannelIsGood(b, labels);
    } else {
      CanDecoderIsSound(b, native);
      CanChannelIsGood(b);
    }
  }

  lemma EntryIsValid(e: Entry, native: Endian)
    requires e.Declared? ==> IsReady(e.handler, e.binding)
    ensures AllValidNames(EntryElements(e, native))
  {
    hide IsReady, DecoderOf, ChannelOf, ValidNames, HandlerElements, TestWith;
    if e.Declared? {
      DeclaredElements(e.handler, e.binding, e.labels, native);
      TestIsValid(e.labels.testId, ChannelOf(e.handler, e.binding, e.labels));
      ValidPair(DecoderOf(e.handler, e.binding, native),
                TestWith(e.labels.testId, ChannelOf(e.handler, e.binding, e.labels)));
    } else if e.Opening? {
      OpeningIsValid();
    }
  }

  predicate AllReady(log: seq<Entry>) {
    forall i :: 0 <= i < |log| && log[i].Declared? ==> IsReady(log[i].handler, log[i].binding)
  }

  lemma {:induction false} LogIsValid(log: seq<Entry>, native: Endian)
    requires AllReady(log)
    ensures AllValidNames(LogElements(log, native))
  {
    if log != [] {
      EntryIsValid(log[0], native);
      LogIsValid(log[1..], native);
      ValidConcat(EntryElements(log[0], native), LogElements(log[1..], native));
    }
  }

  // ----- The metadata of a log in order -----

  lemma LogFollows(log: seq<Entry>, native: Endian, taken: nat)
    requires LogInOrder(log, native, taken) && taken <= MOST_IDS && OneByteLog(log, native)
    ensures AllFollow(log[1..], native) && AllReady(log)
  {
    forall i | 0 <= i < |log| ensures i > 0 ==> Follows(log[i], native)
      ensures log[i].Declared? ==> IsReady(log[i].handler, log[i].binding)
    {
      assert EntryInOrder(log, native, taken, i) && OneByteEntry(log[i], native);
      GroupsOfBlocks(log, native, taken, i);
    }
  }

  lemma {:induction false} TreesConcat(a: seq<Element>, b: seq<Element>)
    ensures TextTrees(a + b) <==> TextTrees(a) && TextTrees(b)
  {
    if a == [] {
      assert a + b == b;
    } else {
      assert (a + b)[1..] == a[1..] + b;
      TreesConcat(a[1..], b);
    }
  }

  lemma {:induction false} EachTree(es: seq<Element>, k: nat)
    requires TextTrees(es) && k < |es|
    ensures TextTree(es[k])
    decreases |es|
  {
    if k > 0 {
      EachTree(es[1..], k - 1);
    }
  }

  lemma DescriptionTag(b: Binding, labels: Labels)
    requires IsScalar(b.value.sampleType)
    ensures var ch := ScalarChannel(b, labels);
            |ch.children| == 10 && ch.content == "" && ch.children[3].content == labels.signal.description
  {
  }

  lemma ScalarText(b: Binding, labels: Labels, native: Endian)
    requires ScalarReady(b) && TextTrees(ScalarElements(b, labels, native))
    ensures IsText(labels.signal.description)
  {
    hide ScalarDecoder, ScalarChannel;
    var channel := ScalarChannel(b, labels);
    DescriptionTag(b, labels);
    EachTree(ScalarElements(b, labels, native), 1);
    var test := TestWith(labels.testId, channel);
    assert test.children == [channel];
    EachTree(test.children, 0);
    EachTree(channel.children, 3);
  }

  /** A description with a forbidden character spoils the metadata. */
  lemma {:induction false} BadDescription(log: seq<Entry>, native: Endian, i: nat)
    requires AllReady(log) && i < |log| && log[i].Declared? && log[i].handler.ScalarHandler?
    requires !IsText(log[i].labels.signal.description)
    ensures !TextTrees(LogElements(log, native))
    decreases |log|
  {
    hide IsText, ScalarElements, TextTrees;
    TreesConcat(EntryElements(log[0], native), LogElements(log[1..], native));
    if i > 0 {
      BadDescription(log[1..], native, i - 1);
    } else if TextTrees(EntryElements(log[0], native)) {
      ScalarText(log[0].binding, log[0].labels, native);
    }
  }

  lemma NarrowIsText(e: Entry, native: Endian)
    requires NarrowEntry(e, native) && (e.Declared? ==> IsReady(e.handler, e.binding))
    ensures OneByteEntry(e, native) && TextTrees(EntryElements(e, native))
  {
    hide IsReady, HandlerElements, AllValidNames, TextTrees, SerializeAll;
    EntryIsValid(e, native);
    match e
    case Opening(_) => OpeningIsValid();
    case Declared(_, _, h, b, labels) => SerializedIsText(HandlerElements(h, b, labels, native), 1);
    case Data(_, _, _) => NoTrees(1);
  }

  lemma {:induction false} LogIsText(log: seq<Entry>, native: Endian)
    requires NarrowLog(log, native) && AllReady(log)
    ensures OneByteLog(log, native) && TextTrees(LogElements(log, native))
  {
    if log != [] {
      NarrowIsText(log[0], native);
      LogIsText(log[1..], native);
      TreesConcat(EntryElements(log[0], native), LogElements(log[1..], native));
    }
  }

  lemma ReadyLog(log: seq<Entry>, native: Endian, taken: nat)
    requires LogInOrder(log, native, taken)
    ensures AllReady(log)
  {
    forall i | 0 <= i < |log| && log[i].Declared? ensures IsReady(log[i].handler, log[i].binding) {
      assert EntryInOrder(log, native, taken, i);
    }
  }

  /** The metadata forest: the metadata blocks of a file parse to the elements of the preamble, then to
      exactly the test and decoder elements in the order they were written, as a conforming reader sees
      them. One text with a character that is no XML character makes all of it unreadable. */
  lemma {:induction false} MetadataForest(log: seq<Entry>, native: Endian, taken: nat, preamble: string,
                                          blocks: seq<Block>)
    returns (front: seq<Element>)
    requires IsPreamble(preamble)
    requires LogInOrder(log, native, taken) && taken <= MOST_IDS && OneByteLog(log, native)
    requires log[0] == Opening(OpeningText(preamble))
    requires DropIndex(blocks) == LogBlocks(log, native)
    ensures AreStandardElements(front)
    ensures MetadataText(blocks) == preamble + SerializeAll(LogElements(log, native), 1)
    ensures ReadMetadata(blocks)
         == if TextTrees(LogElements(log, native)) then Some(front + CanonicalAll(LogElements(log, native))) else None
    ensures ReadMetadata(blocks) == Some(front + LogElements(log, native))
       <==> TextTrees(LogElements(log, native)) && AllFaithful(LogElements(log, native))
  {
    hide OpeningText, IsPreamble, AreStandardElements, SerializeAll, ReadDocument, CanonicalAll, Select, LogBlocks,
      TextTrees;
    OpeningIsNarrow(preamble);
    LogFollows(log, native, taken);
    MetadataOfLog(log, native, preamble);
    SelectWithoutIndex(blocks, METADATA);
    LogIsValid(log, native);
    front := PreambleReadBack(preamble, LogElements(log, native));
    CanonicalAllIffFaithful(LogElements(log, native));
    SameTail(front, CanonicalAll(LogElements(log, native)), LogElements(log, native));
  }

  lemma SameTail(front: seq<Element>, a: seq<Element>, b: seq<Element>)
    ensures front + a == front + b <==> a == b
  {
    if front + a == front + b {
      assert a == (front + a)[|front|..] == (front + b)[|front|..] == b;
    }
  }
}
