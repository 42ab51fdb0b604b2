/** The end-to-end theorem applied to one recording: what it asks for can be had all at once. */
module ExampleReadback {
  import opened Bytes
  import opened BlockLayer
  import opened IndexAgreement
  import opened Descriptors
  import opened SampleTypes
  import opened Handlers
  import opened FileLog
  import opened Runs
  import opened Disk
  import opened FileNames
  import opened NameClashes
  import opened Preamble
  import opened Readback
  import opened RunTheorems
  import opened Delivery
  import opened Partition
  import opened SignalStreams
  import opened ExampleRun
  import opened XmlReader
  import opened Reader
  import opened InputStreams
  import opened PreambleLimits
  import opened DeclarationLimits
  import opened IndexLayer
  import opened Decimal

  lemma OneGroup(text: string, labels: Labels, packet: Packet)
    requires packet.descriptor.Some? && DomainDescriptor(packet).Some?
    ensures GroupsOf(OnePacketLog(text, labels, packet), 0) == [2]
    ensures DataOf(OnePacketLog(text, labels, packet), 0) == [packet]
  {
    var log := OnePacketLog(text, labels, packet);
    var two, one := log[..2], log[..1];
    assert two[..1] == one && one[..0] == [];
    assert GroupsOf(one, 0) == [] && DataOf(one, 0) == [];
    assert GroupsOf(two, 0) == GroupsOf(two[..1], 0) + [2];
    assert DataOf(two, 0) == DataOf(two[..1], 0) + [];
    assert log[..|log| - 1] == two;
  }

  lemma OnlyFileIsLast(files: seq<FileState>)
    requires |files| == 1
    ensures LastUnder(files, 0)
  {
  }

  lemma OneMeaning(packet: Packet, native: Endian)
    requires Sampled(packet)
    ensures AllSampled([packet]) && OwnMeanings([packet], native) == OwnMeaning(packet, native)
  {
    assert [packet][1..] == [];
    assert OwnMeaning(packet, native) + [] == OwnMeaning(packet, native);
  }

  lemma FinishedRecording(name: string, signal: Signal, packet: Packet, uuid: string, cfg: Config)
    requires Recordable(packet)
    ensures var events := Events(name, signal, packet, uuid);
            && Finished(events, cfg, 0) && packet.descriptor.Some? && DomainDescriptor(packet).Some?
            && Run(events, cfg).files[0].log == OnePacketLog(OpeningText(cfg.preamble), Labels(signal, uuid, 0), packet)
            && Run(events, cfg).files[0].taken == 1 && Run(events, cfg).files[0].name == name
            && |Run(events, cfg).objects| == 1 && Run(events, cfg).objects[0].file == 0
            && Run(events, cfg).objects[0].signal == signal
            && Keep(Arrived(events, cfg, 0)) == [packet]
  {
    hide *;
    var events := Events(name, signal, packet, uuid);
    OneRecording(name, signal, packet, uuid, cfg);
    FirstIsAlone(events, cfg);
    OnlyFileIsLast(Run(events, cfg).files);
    IsFinished(events, cfg);
    Conservation(events, cfg, 0, 0);
    OneGroup(OpeningText(cfg.preamble), Labels(signal, uuid, 0), packet);
  }

  lemma IsFinished(events: seq<Event>, cfg: Config)
    requires Run(events, cfg).files != [] && Run(events, cfg).files[0].closed
    requires LastUnder(Run(events, cfg).files, 0) && OpenedAlone(events, cfg, 0)
    ensures Finished(events, cfg, 0)
  {
    hide Run, LastUnder, OpenedAlone;
  }

  lemma {:induction false} NobodyArrives(events: seq<Event>, cfg: Config, o: nat)
    requires forall k :: 0 <= k < |events| ==> !events[k].Arrive?
    ensures Arrived(events, cfg, o) == []
  {
    hide Run;
    if events != [] {
      NobodyArrives(events[..|events| - 1], cfg, o);
    }
  }

  lemma OneArrives(name: string, signal: Signal, packet: Packet, uuid: string, cfg: Config)
    ensures var arrived := Arrived(Events(name, signal, packet, uuid), cfg, 0);
            |arrived| <= 1 && (arrived == [] || arrived == [packet])
  {
    hide Run;
    var first := [Refresh(name), Connect(0, signal), Start, Find(7, 0)];
    var delivered := Delivered(name, signal, packet, uuid);
    NobodyArrives(first, cfg, 0);
    assert first + [Arrive(7, packet, uuid)] == delivered;
    ArrivedLast(first, Arrive(7, packet, uuid), cfg, 0);
    ArrivedLast(delivered, Release(7), cfg, 0);
    ArrivedLast(delivered + [Release(7)], Stop, cfg, 0);
  }

  lemma ScalarIsNoCan(packets: seq<Packet>, packet: Packet, native: Endian)
    requires Recordable(packet) && |packets| <= 1 && (packets == [] || packets == [packet])
    ensures !HasCan(packets)
  {
  }

  lemma OnlyObject(events: seq<Event>, cfg: Config, input: string)
    requires var objects := Run(events, cfg).objects;
             |objects| == 1 && objects[0].file == 0 && NormalizeEol(objects[0].signal.globalId) == input
    requires !HasCan(Arrived(events, cfg, 0))
    ensures AllOfItsName(events, cfg, 0, [0], input)
    ensures AllKept(events, cfg, [0]) == Keep(Arrived(events, cfg, 0))
  {
    hide Run, Arrived, NormalizeEol, HasCan;
    assert forall p: nat :: p in [0] <==> p == 0;
    assert [0][1..] == [] && AllKept(events, cfg, []) == [];
    assert Keep(Arrived(events, cfg, 0)) + [] == Keep(Arrived(events, cfg, 0));
  }

  lemma {:induction false} OnlyOne(events: seq<Event>, cfg: Config, o: nat)
    ensures InSuccession(events, cfg, [o])
  {
    if events != [] {
      OnlyOne(events[..|events| - 1], cfg, o);
    }
  }

  // ----- It fits the format -----

  lemma {:induction false} FewBlocks(bs: seq<Block>)
    requires |bs| < INDEX_EVERY && forall i :: 0 <= i < |bs| ==> bs[i].group != INDEX
    ensures |PutAll(bs).content| == Size(bs)
    ensures |PutAll(bs).index| == |bs|
  {
    if bs != [] {
      var init := bs[..|bs| - 1];
      FewBlocks(init);
      SizeLast(init, bs[|bs| - 1]);
      assert init + [bs[|bs| - 1]] == bs;
    }
  }

  lemma {:induction false} SizeLast(bs: seq<Block>, b: Block)
    ensures Size(bs + [b]) == Size(bs) + |b.payload| + OVERHEAD
  {
    if bs == [] {
      assert [] + [b] == [b] && [b][1..] == [];
    } else {
      assert (bs + [b])[1..] == bs[1..] + [b];
      SizeLast(bs[1..], b);
    }
  }

  lemma ThreeSizes(a: Block, b: Block, c: Block)
    ensures Size([a, b, c]) == |a.payload| + |b.payload| + |c.payload| + 60
  {
    assert [a, b] + [c] == [a, b, c] && [a] + [b] == [a, b];
    SizeLast([a, b], c);
    SizeLast([a], b);
    SizeLast([], a);
    assert [] + [a] == [a] && Size([]) == 0;
  }

  /** The texts of a recording of one packet are XML text, and they and the raw data are not huge. */
  predicate SmallPacket(packet: Packet, labels: Labels)
    requires packet.descriptor.Some? && DomainDescriptor(packet).Some?
  {
    var b := Binding(2, 2, 0, packet.descriptor.value, DomainDescriptor(packet).value);
    && NarrowTexts(b, labels) && DeclarationLength(ScalarHandler(2), b, labels) < 0x8000_0000
    && |packet.raw| < 0x8000_0000
  }

  lemma OnePacketFits(preamble: string, labels: Labels, packet: Packet, native: Endian)
    requires IsPreamble(preamble) && Recordable(packet)
    requires packet.descriptor.Some? && DomainDescriptor(packet).Some? && SmallPacket(packet, labels)
    ensures var log := OnePacketLog(OpeningText(preamble), labels, packet); FileFits(log, native) && ByteTexts(log)
  {
    hide IsPreamble, OpeningText, NarrowTexts, DeclarationLength, HandlerElements, Choose, IsRecorded;
    var log := OnePacketLog(OpeningText(preamble), labels, packet);
    var b := Binding(2, 2, 0, packet.descriptor.value, DomainDescriptor(packet).value);
    OpeningFits(preamble);
    RecordableIsReady(packet, labels, native);
    DeclarationText(ScalarHandler(2), b, labels, native);
    var bs := LogBlocks(log, native);
    assert bs == [bs[0], bs[1], bs[2]];
    ThreeSizes(bs[0], bs[1], bs[2]);
    FewBlocks(bs);
  }

  lemma RecordableIsReady(packet: Packet, labels: Labels, native: Endian)
    requires Recordable(packet) && packet.descriptor.Some? && DomainDescriptor(packet).Some?
    ensures IsReady(ScalarHandler(2), Binding(2, 2, 0, packet.descriptor.value, DomainDescriptor(packet).value))
    ensures DataPayload(ScalarHandler(2), packet, native).Some?
    ensures |DataPayload(ScalarHandler(2), packet, native).value| == 8 + |packet.raw|
  {
  }

  /** A recording of one scalar packet: reading what is recorded for the signal from the bytes under the name
      of the recording gives the samples of the packet. */
  lemma {:induction false} OneRecordingReadsBack(name: string, signal: Signal, packet: Packet, uuid: string,
                                                 cfg: Config)
    requires IsPreamble(cfg.preamble) && Recordable(packet) && Sampled(packet)
    requires packet.descriptor.Some? && DomainDescriptor(packet).Some? && SmallPacket(packet, Labels(signal, uuid, 0))
    ensures ReadInput(Under(Events(name, signal, packet, uuid), cfg, name), NormalizeEol(signal.globalId))
         == Some(OwnMeaning(packet, cfg.native))
  {
    hide *;
    var events := Events(name, signal, packet, uuid);
    FinishedRecording(name, signal, packet, uuid, cfg);
    OneMeaning(packet, cfg.native);
    FinishedParts(events, cfg, 0);
    OnePacketFits(cfg.preamble, Labels(signal, uuid, 0), packet, cfg.native);
    IsRepresentable(Run(events, cfg).files[0], cfg.native);
    OneArrives(name, signal, packet, uuid, cfg);
    ScalarIsNoCan(Arrived(events, cfg, 0), packet, cfg.native);
    OnlyObject(events, cfg, NormalizeEol(signal.globalId));
    OnlyOne(events, cfg, 0);
    InputReadsBack(events, cfg, 0, [0], NormalizeEol(signal.globalId));
  }

  lemma IsRepresentable(file: FileState, native: Endian)
    requires file.taken == 1 && FileFits(file.log, native) && ByteTexts(file.log)
    ensures Representable(file, native)
  {
    hide FileFits, ByteTexts;
  }

  /** There is such a packet. */
  lemma SomePacket(native: Endian) returns (packet: Packet)
    ensures Recordable(packet) && Sampled(packet)
    ensures packet.descriptor.Some? && DomainDescriptor(packet).Some?
    ensures SmallPacket(packet, Labels(Signal("", ""), "", 0))
  {
    packet := ScalarPacket("").(sampleCount := 1, raw := [0, 0, 0, 0, 0, 0, 0, 0]);
    ShortIds();
    assert OwnBinding(packet).value.structFields == [];
  }

  lemma ShortIds()
    ensures |ToDecimal(0)| == |ToDecimal(1)| == |ToDecimal(2)| == 1 && |ToSigned(0)| == |ToSigned(1)| == 1
  {
  }
}
