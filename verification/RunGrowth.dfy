/** Files only grow, a closed file does not change, and every file begins with the preamble. */
module RunGrowth {
  import opened Bytes
  import opened BlockLayer
  import opened IndexLayer
  import opened LogicalLayer
  import opened Descriptors
  import opened Handlers
  import opened FileLog
  import opened Ports
  import opened Runs

  // ----- Files only grow, and closed files do not change -----

  predicate Grows(before: FileState, after: FileState) {
    && before.name == after.name && before.log <= after.log && before.taken <= after.taken
    && before.writer.index.content <= after.writer.index.content
    && (before.closed ==> after == before)
  }

  /** A file that was opened with the preamble and test 0, whatever came behind them. */
  predicate StartsWithPreamble(f: FileState, cfg: Config) {
    && f.log != [] && f.log[0] == Opening(OpeningText(cfg.preamble))
    && Opened(f.name, OpeningText(cfg.preamble)).writer.index.content <= f.writer.index.content
  }

  ghost predicate FilesGrow(before: seq<FileState>, after: seq<FileState>, cfg: Config) {
    && |before| <= |after|
    && (forall f :: 0 <= f < |before| ==> Grows(before[f], after[f]))
    && (forall f :: |before| <= f < |after| ==> StartsWithPreamble(after[f], cfg))
  }

  lemma CollectGrows(s: System, cfg: Config)
    ensures FilesGrow(s.files, Collect(s).files, cfg)
  {
    forall f | 0 <= f < |s.files| ensures Grows(s.files[f], Collect(s).files[f]) {
      FlushGrows(s.files[f].writer.index);
    }
  }

  lemma {:induction false} AddMissingFiles(s: System, ports: seq<Port>)
    requires s.writer.Some?
    ensures AddMissing(s, ports).files == s.files
    decreases |ports|
  {
    if ports != [] {
      AddMissingFiles(AddFirst(s, ports[0]), ports[1..]);
    }
  }

  lemma ReconfigureGrows(s: System, cfg: Config)
    ensures FilesGrow(s.files, Reconfigure(s, cfg).files, cfg)
  {
    if s.recording {
      AddMissingFiles(OpenWriter(s, cfg), s.ports);
    }
  }

  lemma GrowthComposes(a: seq<FileState>, b: seq<FileState>, c: seq<FileState>, cfg: Config)
    requires FilesGrow(a, b, cfg) && FilesGrow(b, c, cfg)
    ensures FilesGrow(a, c, cfg)
  {
    forall f | 0 <= f < |c|
      ensures f < |a| ==> Grows(a[f], c[f])
      ensures f >= |a| ==> StartsWithPreamble(c[f], cfg)
    {
      if f < |b| {
        assert Grows(b[f], c[f]);
      }
    }
  }

  // ----- Bytes are only added -----

  lemma FlushGrows(st: IndexState)
    ensures st.content <= Flush(st).content
  {
  }

  lemma PutGrows(st: IndexState, b: Block)
    ensures st.content <= Put(st, b).content
  {
    FlushGrows(Append(Remember(st, b.group), b));
  }

  lemma {:induction false} CreateGrows(w: WriterState, labels: Labels, value: Option<DataDescriptor>,
                                       domain: Option<DataDescriptor>, native: Endian)
    ensures w.index.content <= Create(w, labels, value, domain, native).1.index.content
  {
    hide Create, Put, EntryBlock;
    var (h, after) := Create(w, labels, value, domain, native);
    if h.Some? {
      CreateWrites(w, 0, 0, labels, value, domain, native);
      PutGrows(w.index, EntryBlock(Declared(0, 0, h.value, Bind(w, value.value, domain.value), labels), native));
    } else {
      CreateFails(w, labels, value, domain, native);
    }
  }

  lemma DeliverGrows(w: WriterState, h: Handler, packet: Packet, native: Endian)
    ensures w.index.content <= Deliver(w, h, packet, native).index.content
  {
    if DataPayload(h, packet, native).Some? {
      PutGrows(w.index, Block(h.group, DataPayload(h, packet, native).value));
    }
  }

  lemma BytesGrow(f: FileState, owner: nat, s: SignalState, labels: Labels, packet: Packet, native: Endian)
    ensures f.writer.index.content <= ReceiveIn(f, owner, s, labels, packet, native).1.writer.index.content
    ensures ReceiveIn(f, owner, s, labels, packet, native).1.name == f.name
  {
    hide DataPayload, Create;
    CreateGrows(f.writer, labels, packet.descriptor, DomainDescriptor(packet), native);
    var (handler, ready) :=
      if Changed(s, packet) then CreateIn(f, owner, labels, packet.descriptor, DomainDescriptor(packet), native)
          else (s.handler, f);
    if handler.Some? {
      DeliverGrows(ready.writer, handler.value, packet, native);
    }
  }

  lemma TakenGrows(f: FileState, owner: nat, s: SignalState, labels: Labels, packet: Packet, native: Endian)
    ensures f.taken <= ReceiveIn(f, owner, s, labels, packet, native).1.taken
  {
  }

  lemma NothingGrows(files: seq<FileState>, cfg: Config)
    ensures FilesGrow(files, files, cfg)
  {
  }

  lemma InvParts(s: System, native: Endian)
    requires Inv(s, native)
    ensures RefsInv(s) && FilesInv(s, native)
  {
  }

  /** A step leaves closed files alone and extends the logs of open ones. */
  lemma StepGrows(s: System, e: Event, cfg: Config)
    requires Inv(s, cfg.native)
    ensures FilesGrow(s.files, Step(s, e, cfg).files, cfg)
  {
    hide FilesGrow, Reconfigure, Collect, Inv, ReceiveIn, HasPort, Connected;
    NothingGrows(s.files, cfg);
    InvParts(s, cfg.native);
    match e
    case Connect(port, signal) => ReconfiguredGrows(Plug(s, port, signal), cfg);
    case Disconnect(port) => ReconfiguredGrows(Unplug(s, port), cfg);
    case Start => ReconfiguredGrows(s.(recording := true), cfg);
    case Stop => ReconfiguredGrows(s.(recording := false), cfg);
    case Refresh(name) => ReconfiguredGrows(s.(filename := name), cfg);
    case Find(thread, port) =>
      if port in s.signals {
        CollectGrows(s.(held := s.held[thread := s.signals[port]]), cfg);
      }
    case Release(thread) => CollectGrows(s.(held := s.held - {thread}), cfg);
    case Arrive(thread, packet, uuid) => ArriveGrows(s, e, cfg);
  }

  lemma ReconfiguredGrows(s: System, cfg: Config)
    ensures FilesGrow(s.files, Collect(Reconfigure(s, cfg)).files, cfg)
  {
    ReconfigureGrows(s, cfg);
    CollectGrows(Reconfigure(s, cfg), cfg);
    GrowthComposes(s.files, Reconfigure(s, cfg).files, Collect(Reconfigure(s, cfg)).files, cfg);
  }

  lemma ReplaceGrows(files: seq<FileState>, k: nat, file: FileState, cfg: Config)
    requires k < |files| && Grows(files[k], file)
    ensures FilesGrow(files, files[k := file], cfg)
  {
  }

  lemma ReceiveGrows(f: FileState, owner: nat, s: SignalState, labels: Labels, packet: Packet, native: Endian)
    requires FileInv(f, native) && !f.closed && SignalBound(f.log, owner, s)
    ensures Grows(f, ReceiveIn(f, owner, s, labels, packet, native).1)
  {
    ReceiveInInv(f, owner, s, labels, packet, native);
    TakenGrows(f, owner, s, labels, packet, native);
    BytesGrow(f, owner, s, labels, packet, native);
  }

  lemma HeldGrows(s: System, e: Event, cfg: Config)
    requires RefsInv(s) && FilesInv(s, cfg.native) && e.Arrive? && e.thread in s.held
    ensures FilesGrow(s.files, Step(s, e, cfg).files, cfg)
  {
    hide ReceiveIn, FilesGrow, FileInv;
    var o := s.held[e.thread];
    var obj := s.objects[o];
    var labels := Labels(obj.signal, e.uuid, 0);
    var file := ReceiveIn(s.files[obj.file], o, obj.state, labels, e.packet, cfg.native).1;
    ReceiveGrows(s.files[obj.file], o, obj.state, labels, e.packet, cfg.native);
    ReplaceGrows(s.files, obj.file, file, cfg);
  }

  lemma ArriveGrows(s: System, e: Event, cfg: Config)
    requires RefsInv(s) && FilesInv(s, cfg.native) && e.Arrive?
    ensures FilesGrow(s.files, Step(s, e, cfg).files, cfg)
  {
    if e.thread in s.held {
      HeldGrows(s, e, cfg);
    }
  }

  lemma RunStep(events: seq<Event>, e: Event, cfg: Config)
    ensures Run(events + [e], cfg) == Step(Run(events, cfg), e, cfg)
  {
    assert (events + [e])[..|events|] == events;
  }

  lemma {:induction false} RunGrows(events: seq<Event>, more: seq<Event>, cfg: Config)
    ensures FilesGrow(Run(events, cfg).files, Run(events + more, cfg).files, cfg)
    decreases |more|
  {
    if more == [] {
      assert events + more == events;
    } else {
      var init, last := more[..|more| - 1], more[|more| - 1];
      RunGrows(events, init, cfg);
      RunInv(events + init, cfg);
      StepGrows(Run(events + init, cfg), last, cfg);
      RunStep(events + init, last, cfg);
      assert events + init + [last] == events + more;
      GrowthComposes(Run(events, cfg).files, Run(events + init, cfg).files, Run(events + more, cfg).files, cfg);
    }
  }

  /** Every file of every run begins with the preamble and test 0. */
  lemma {:induction false} FilesBegin(events: seq<Event>, cfg: Config, f: nat)
    requires f < |Run(events, cfg).files|
    ensures StartsWithPreamble(Run(events, cfg).files[f], cfg)
  {
    RunGrows([], events, cfg);
    assert [] + events == events;
  }
}
