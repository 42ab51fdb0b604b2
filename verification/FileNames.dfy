/** Exactly when the recordings under one file name stay apart, and what happens when they do not. */
module FileNames {
  import opened Bytes
  import opened BlockLayer
  import opened IndexLayer
  import opened IndexAgreement
  import opened LogicalLayer
  import opened Descriptors
  import opened Handlers
  import opened FileLog
  import opened Runs
  import opened RunGrowth
  import opened Disk

  /** As long as no file is opened under the name after file f, its bytes are those of file f. */
  ghost predicate NameIsRight(events: seq<Event>, cfg: Config, f: nat) {
    var files := Run(events, cfg).files;
    f < |files| && (LastUnder(files, f) ==> Under(events, cfg, files[f].name) == Content(files[f]))
  }

  lemma {:induction false} AloneIsKept(events: seq<Event>, more: seq<Event>, cfg: Config, f: nat)
    requires f < |Run(events, cfg).files| && OpenedAlone(events, cfg, f)
    ensures f < |Run(events + more, cfg).files| && OpenedAlone(events + more, cfg, f)
    decreases |more|
  {
    hide Run, Step, OpenedAlone;
    if more == [] {
      assert events + more == events;
    } else {
      var init := more[..|more| - 1];
      AloneIsKept(events, init, cfg, f);
      assert (events + more)[..|events + more| - 1] == events + init;
      LastStep(events + more, cfg);
      OpenedAloneParts(events + more, cfg, f);
    }
  }

  lemma AloneIsRight(events: seq<Event>, more: seq<Event>, cfg: Config, f: nat)
    requires f < |Run(events, cfg).files| && OpenedAlone(events, cfg, f)
    ensures NameIsRight(events + more, cfg, f)
  {
    hide Run, OpenedAlone, Under;
    AloneIsKept(events, more, cfg, f);
    if LastUnder(Run(events + more, cfg).files, f) {
      NameHolds(events + more, cfg, f);
    }
  }

  // ----- A packet that makes any open file longer -----

  /** A packet of a scalar signal that is recorded, with a descriptor of the given name. */
  function ScalarPacket(name: string): Packet {
    Packet(Some(DataDescriptor(name, Float64, Some(ExplicitRule), None, [], None, None, "", "")),
           Some(DomainPacket(Some(DataDescriptor("", SampleType.Int64,
                                                 Some(LinearRule(Some(LinearParameters(None,
                                                     None)))), None, [], None, None, "", "")),
                             Some(0), [])),
           0, [])
  }

  /** A packet whose descriptor the signal object has not seen last. */
  function NewPacket(s: SignalState): (p: Packet)
    ensures Changed(s, p)
  {
    if ScalarPacket("").descriptor != s.lastValue then ScalarPacket("") else ScalarPacket("renamed")
  }

  lemma PutIsLonger(st: IndexState, b: Block)
    ensures |st.content| + |b.payload| + OVERHEAD <= |Put(st, b).content|
  {
    FlushGrows(Append(Remember(st, b.group), b));
  }

  lemma NewPacketCreates(w: WriterState, labels: Labels, s: SignalState, native: Endian)
    ensures var p := NewPacket(s);
            Create(w, labels, p.descriptor, DomainDescriptor(p), native).0 == Some(ScalarHandler(w.nextGroup))
  {
  }

  lemma CreateIsLonger(w: WriterState, labels: Labels, value: Option<DataDescriptor>, domain: Option<DataDescriptor>,
                       native: Endian)
    requires Create(w, labels, value, domain, native).0.Some?
    ensures |w.index.content| + OVERHEAD <= |Create(w, labels, value, domain, native).1.index.content|
  {
    hide Create, Put, EntryBlock;
    CreateWrites(w, 0, 0, labels, value, domain, native);
    var h := Create(w, labels, value, domain, native).0.value;
    PutIsLonger(w.index, EntryBlock(Declared(0, 0, h, Bind(w, value.value, domain.value), labels), native));
  }

  lemma DeliverIsLonger(w: WriterState, h: Handler, packet: Packet, native: Endian)
    requires h.ScalarHandler? && DataPayload(h, packet, native).Some?
    ensures |w.index.content| + 8 + OVERHEAD <= |Deliver(w, h, packet, native).index.content|
  {
    PutIsLonger(w.index, Block(h.group, DataPayload(h, packet, native).value));
  }

  /** A packet of a scalar signal with a new descriptor makes the file at least 48 bytes longer. */
  lemma FirstPacketLengthens(f: FileState, owner: nat, s: SignalState, labels: Labels, packet: Packet, native: Endian)
    requires Changed(s, packet) && packet.domain.Some? && packet.domain.value.offset.Some?
    requires var h := Create(f.writer, labels, packet.descriptor, DomainDescriptor(packet), native).0;
             h.Some? && h.value.ScalarHandler?
    ensures |Content(f)| + 48 <= |Content(ReceiveIn(f, owner, s, labels, packet, native).1)|
  {
    hide Create, Deliver;
    CreateIsLonger(f.writer, labels, packet.descriptor, DomainDescriptor(packet), native);
    var (h, w) := Create(f.writer, labels, packet.descriptor, DomainDescriptor(packet), native);
    DeliverIsLonger(w, h.value, packet, native);
    ReceiveInIsReceive(f, owner, s, labels, packet, native);
  }

  // ----- A recording that begins while another one of its name is still open -----

  lemma WrittenBeyond(bytes: seq<Byte>, before: seq<FileState>, after: seq<FileState>, g: nat, n: nat, name: string)
    requires |before| == |after| && g < |before| && n <= |after| && OnlyFile(before, after, g)
    requires before[g].name == after[g].name == name && |Content(before[g])| < |Content(after[g])|
    ensures g < n ==> |Content(after[g])| <= |Written(bytes, before, after[..n], name)|
    ensures n <= g ==> Written(bytes, before, after[..n], name) == bytes
    decreases n
  {
    if n > 0 {
      var k := n - 1;
      assert after[..n][..k] == after[..k];
      WrittenBeyond(bytes, before, after, g, k, name);
    }
  }

  /** The thread that still holds an object of the open file. */
  lemma HolderOf(s: System, g: nat) returns (t: nat)
    requires RefsInv(s) && ClosedInv(s) && g < |s.files| && !s.files[g].closed && s.writer != Some(g)
    ensures t in s.held && s.held[t] < |s.objects| && s.objects[s.held[t]].file == g
  {
    OpenIsHeld(s, g);
    t :| t in s.held && s.held[t] < |s.objects| && s.objects[s.held[t]].file == g;
  }

  lemma NewPacketLengthens(f: FileState, owner: nat, s: SignalState, labels: Labels, native: Endian)
    ensures var after := ReceiveIn(f, owner, s, labels, NewPacket(s), native).1;
            |Content(f)| + 48 <= |Content(after)| && after.name == f.name
  {
    hide Create, ReceiveIn;
    NewPacketCreates(f.writer, labels, s, native);
    FirstPacketLengthens(f, owner, s, labels, NewPacket(s), native);
    BytesGrow(f, owner, s, labels, NewPacket(s), native);
  }

  /** A delivery into a file that is still open under the name writes behind the new recording. */
  lemma LateDelivery(s: System, t: nat, cfg: Config) returns (e: Event)
    requires RefsInv(s) && t in s.held
    ensures e.Arrive? && e.thread == t
    ensures var r, g := Step(s, e, cfg), s.objects[s.held[t]].file;
            && |r.files| == |s.files| && OnlyFile(s.files, r.files, g)
            && r.files[g].name == s.files[g].name && |Content(s.files[g])| + 48 <= |Content(r.files[g])|
  {
    hide ReceiveIn, NewPacket, Content;
    var o := s.held[t];
    var obj := s.objects[o];
    e := Arrive(t, NewPacket(obj.state), "");
    NewPacketLengthens(s.files[obj.file], o, obj.state, Labels(obj.signal, "", 0), cfg.native);
  }

  lemma OpeningIsShort(f: FileState, name: string, cfg: Config)
    requires StartsWithPreamble(f, cfg)
    ensures |Content(Opened(name, OpeningText(cfg.preamble)))| <= |Content(f)|
  {
    hide OpeningText;
    assert Opened(name, OpeningText(cfg.preamble)).writer == Opened(f.name, OpeningText(cfg.preamble)).writer;
  }

  /** The bytes after a step that made file g of the name longer than the last file of the name. */
  lemma LongerThanLast(bytes: seq<Byte>, before: seq<FileState>, after: seq<FileState>, g: nat)
    requires |before| == |after| && g + 1 < |before| && OnlyFile(before, after, g)
    requires before[g].name == after[g].name == after[|after| - 1].name
    requires |Content(before[g])| < |Content(after[g])| && |Content(before[|before| - 1])| < |Content(after[g])|
    ensures Written(bytes, before, after, after[g].name) != Content(after[|after| - 1])
  {
    WrittenBeyond(bytes, before, after, g, |after|, after[g].name);
    assert after[..|after|] == after;
  }

  lemma AfterStarting(events: seq<Event>, cfg: Config)
    requires !Run(events, cfg).recording
    ensures var s, r := Run(events, cfg), Run(events + [Start], cfg);
            && r.files == s.files + [Opened(s.filename, OpeningText(cfg.preamble))]
            && r.held == s.held && s.objects <= r.objects && RefsInv(r)
  {
    hide Step, Opened, OpeningText, RefsInv, Run;
    RunInv(events, cfg);
    StartOpens(Run(events, cfg), cfg);
    RunStep(events, Start, cfg);
    RunInv(events + [Start], cfg);
  }

  /** If an earlier file of the name is still open, the bytes can become wrong. */
  lemma OverlapSpoils(events: seq<Event>, cfg: Config, g: nat) returns (e: Event)
    requires !Run(events, cfg).recording && g < |Run(events, cfg).files|
    requires Run(events, cfg).files[g].name == Run(events, cfg).filename && !Run(events, cfg).files[g].closed
    ensures !NameIsRight(events + [Start] + [e], cfg, |Run(events, cfg).files|)
  {
    hide Run, Step, Opened, OpeningText, Content, OnlyFile, Written, Under;
    var s, started := Run(events, cfg), events + [Start];
    RunInv(events, cfg);
    AfterStarting(events, cfg);
    var t := HolderOf(s, g);
    var r := Run(started, cfg);
    assert r.objects[s.held[t]] == s.objects[s.held[t]];
    e := LateDelivery(r, t, cfg);
    RunStep(started, e, cfg);
    var q := Run(started + [e], cfg);
    FilesBegin(events, cfg, g);
    OpeningIsShort(s.files[g], s.filename, cfg);
    assert (started + [e])[..|started + [e]| - 1] == started;
    UnderParts(started + [e], cfg, s.filename);
    SpoiledFiles(Under(started, cfg, s.filename), s, r, q, g, cfg);
  }

  lemma {:induction false} SpoiledFiles(bytes: seq<Byte>, s: System, r: System, q: System, g: nat, cfg: Config)
    requires r.files == s.files + [Opened(s.filename, OpeningText(cfg.preamble))] && g < |s.files|
    requires s.files[g].name == s.filename
    requires |q.files| == |r.files| && OnlyFile(r.files, q.files, g) && q.files[g].name == r.files[g].name
    requires |Content(r.files[g])| + 48 <= |Content(q.files[g])|
    requires |Content(Opened(s.filename, OpeningText(cfg.preamble)))| <= |Content(s.files[g])|
    ensures var f := |s.files|;
            && LastUnder(q.files, f) && q.files[f].name == s.filename
            && Written(bytes, r.files, q.files, s.filename) != Content(q.files[f])
  {
    hide Content, Written, OpeningText;
    LongerThanLast(bytes, r.files, q.files, g);
  }

  /** The bytes under a name are what is written through the file opened last under it, however the run
      goes on, if and only if every earlier file of the name was closed when it was opened. */
  lemma {:induction false} NameIsRightIff(events: seq<Event>, cfg: Config)
    requires !Run(events, cfg).recording
    ensures (forall more :: NameIsRight(events + [Start] + more, cfg, |Run(events, cfg).files|))
            <==> AllClosed(Run(events, cfg).files, Run(events, cfg).filename)
  {
    hide Run, Opened, OpeningText, NameIsRight, OpenedAlone;
    var s, f, started := Run(events, cfg), |Run(events, cfg).files|, events + [Start];
    AfterStarting(events, cfg);
    if AllClosed(s.files, s.filename) {
      assert started[..|started| - 1] == events;
      StartIsAlone(events, cfg);
      forall more ensures NameIsRight(started + more, cfg, f) {
        AloneIsRight(started, more, cfg, f);
      }
    } else {
      var g :| 0 <= g < |s.files| && s.files[g].name == s.filename && !s.files[g].closed;
      var e := OverlapSpoils(events, cfg, g);
    }
  }

  lemma StartIsAlone(events: seq<Event>, cfg: Config)
    requires !Run(events, cfg).recording && AllClosed(Run(events, cfg).files, Run(events, cfg).filename)
    ensures |Run(events, cfg).files| < |Run(events + [Start], cfg).files|
    ensures OpenedAlone(events + [Start], cfg, |Run(events, cfg).files|)
  {
    hide Run, OpeningText, OpenedAlone;
    AfterStarting(events, cfg);
    OpenedAloneParts(events + [Start], cfg, |Run(events, cfg).files|);
    assert (events + [Start])[..|events + [Start]| - 1] == events;
  }

  // ----- A closed recording lasts until its name is used again -----

  lemma {:induction false} PutAllSize(bs: seq<Block>)
    requires bs != []
    ensures |PutAll(bs).content| >= |Frame(bs[0])| + OVERHEAD * (|bs| - 1)
  {
    var init, last := bs[..|bs| - 1], bs[|bs| - 1];
    PutIsLonger(PutAll(init), last);
    if |bs| > 1 {
      PutAllSize(init);
    }
  }

  lemma FlushIsLonger(st: IndexState)
    requires st.index != []
    ensures |st.content| + OVERHEAD <= |Flush(st).content|
  {
  }

  lemma OneBlockPut(b: Block)
    requires b.group != INDEX
    ensures Put(EMPTY, b).index != [] && Put(EMPTY, b).content == Frame(b)
  {
    assert [] + Frame(b) == Frame(b);
  }

  /** The closing index block, or a hundred blocks before it, make the file longer than its first block. */
  lemma ClosedIsLonger(bs: seq<Block>)
    requires bs != [] && bs[0].group != INDEX
    ensures |Frame(bs[0])| + OVERHEAD <= |Closed(bs).content|
  {
    hide Put, Flush, Frame;
    PutAllSize(bs);
    FlushGrows(PutAll(bs));
    if |bs| == 1 {
      assert bs[..0] == [];
      OneBlockPut(bs[0]);
      FlushIsLonger(PutAll(bs));
    }
  }

  lemma OpenedContent(name: string, text: string)
    ensures Content(Opened(name, text)) == Frame(Block(METADATA, OfText(text)))
  {
    OneBlockPut(Block(METADATA, OfText(text)));
  }

  lemma ReopenedIsShorter(f: FileState, name: string, cfg: Config)
    requires FileInv(f, cfg.native) && f.closed && StartsWithPreamble(f, cfg)
    ensures |Content(Opened(name, OpeningText(cfg.preamble)))| < |Content(f)|
  {
    hide Frame, OpeningText, Opened, LogInOrder;
    var bs := LogBlocks(f.log, cfg.native);
    OpenedContent(name, OpeningText(cfg.preamble));
    ClosedIsLonger(bs);
  }

  ghost predicate Persists(events: seq<Event>, more: seq<Event>, cfg: Config, name: string, content: seq<Byte>) {
    forall k :: 0 <= k <= |more| ==> Under(events + more[..k], cfg, name) == content
  }

  lemma {:induction false} PersistsParts(events: seq<Event>, more: seq<Event>, cfg: Config, name: string,
                                         content: seq<Byte>)
    requires more != []
    ensures Persists(events, more, cfg, name, content)
            <==> Persists(events, more[..|more| - 1], cfg, name, content) && Under(events + more, cfg, name) == content
  {
    hide Under;
    var init := more[..|more| - 1];
    assert more[..|more|] == more;
    assert forall k :: 0 <= k <= |init| ==> init[..k] == more[..k];
  }

  lemma {:induction false} NothingMore(events: seq<Event>, more: seq<Event>, cfg: Config, name: string,
                                       content: seq<Byte>)
    requires more == [] && Under(events, cfg, name) == content
    ensures Persists(events, more, cfg, name, content)
  {
    hide Under;
    assert events + more[..0] == events;
  }

  lemma ClosedStays(events: seq<Event>, more: seq<Event>, cfg: Config, f: nat)
    requires f < |Run(events, cfg).files| && Run(events, cfg).files[f].closed
    ensures f < |Run(events + more, cfg).files| && Run(events + more, cfg).files[f] == Run(events, cfg).files[f]
  {
    hide Run;
    RunGrows(events, more, cfg);
    assert Grows(Run(events, cfg).files[f], Run(events + more, cfg).files[f]);
  }

  /** The step at which the name of a closed file is used again. */
  lemma Reopening(events: seq<Event>, cfg: Config, f: nat)
    requires events != [] && f < |Run(events[..|events| - 1], cfg).files|
    requires Run(events[..|events| - 1], cfg).files[f].closed
    requires LastUnder(Run(events[..|events| - 1], cfg).files, f)
    requires f < |Run(events, cfg).files| && !LastUnder(Run(events, cfg).files, f)
    ensures Under(events, cfg, Run(events, cfg).files[f].name) != Content(Run(events, cfg).files[f])
  {
    hide Run, OpeningText, Opened, Written, Under, Content, FileInv;
    var init := events[..|events| - 1];
    var before, files := Run(init, cfg).files, Run(events, cfg).files;
    LastStep(events, cfg);
    assert Grows(before[f], files[f]);
    forall g | 0 <= g < |before| ensures files[g].name == before[g].name {
      assert Grows(before[g], files[g]);
    }
    assert |files| == |before| + 1 && files[|before|].name == files[f].name;
    UnderParts(events, cfg, files[f].name);
    WrittenLast(Under(init, cfg, files[f].name), before, files);
    RunInv(events, cfg);
    FilesBegin(events, cfg, f);
    ReopenedIsShorter(files[f], Run(init, cfg).filename, cfg);
  }

  /** A closed recording keeps its bytes at every later time if and only if its name is not opened again. */
  lemma {:induction false} PersistsIff(events: seq<Event>, more: seq<Event>, cfg: Config, f: nat)
    requires f < |Run(events, cfg).files| && Run(events, cfg).files[f].closed
    requires LastUnder(Run(events, cfg).files, f) && OpenedAlone(events, cfg, f)
    ensures f < |Run(events + more, cfg).files|
    ensures Persists(events, more, cfg, Run(events, cfg).files[f].name, Content(Run(events, cfg).files[f]))
            <==> LastUnder(Run(events + more, cfg).files, f)
    decreases |more|
  {
    hide Run, OpenedAlone, Under, Content, LastUnder, FilesGrow, Step, Opened, OpeningText, Persists;
    var file := Run(events, cfg).files[f];
    ClosedStays(events, more, cfg, f);
    if more == [] {
      assert events + more == events;
      NameHolds(events, cfg, f);
      NothingMore(events, more, cfg, file.name, Content(file));
    } else {
      var init := more[..|more| - 1];
      PersistsIff(events, init, cfg, f);
      PersistsParts(events, more, cfg, file.name, Content(file));
      assert (events + more)[..|events + more| - 1] == events + init;
      ClosedStays(events, init, cfg, f);
      AloneIsKept(events, more, cfg, f);
      LastStep(events + more, cfg);
      if LastUnder(Run(events + more, cfg).files, f) {
        NamesStay(Run(events + init, cfg).files, Run(events + more, cfg).files, f, cfg);
        NameHolds(events + more, cfg, f);
      } else if LastUnder(Run(events + init, cfg).files, f) {
        Reopening(events + more, cfg, f);
      }
    }
  }
}
