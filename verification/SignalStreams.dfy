/** From the packets that arrive at a signal object to the samples read back from its file. */
module SignalStreams {
  import opened Bytes
  import opened Decoders
  import opened Reader
  import opened Descriptors
  import opened SampleTypes
  import opened Handlers
  import opened FileLog
  import opened Runs
  import opened Ownership
  import opened Metadata
  import opened Readback
  import opened RunGrowth
  import opened RunTheorems
  import opened Preamble
  import opened Disk
  import opened Delivery
  import opened Partition

  // ----- Handlers take turns, over whole runs -----

  ghost predicate FilesInTurn(s: System) {
    && (forall f :: 0 <= f < |s.files| ==> InTurn(s.files[f].log))
    && (forall o :: 0 <= o < |s.objects| && s.objects[o].file < |s.files| ==>
          UsesLatest(s.files[s.objects[o].file].log, o, s.objects[o].state))
  }

  lemma OpeningInTurn(log: seq<Entry>)
    requires |log| == 1 && log[0].Opening?
    ensures InTurn(log)
  {
    assert log[..0] == [];
  }

  lemma QuietInTurn(s: System, r: System)
    requires FilesInTurn(s) && RefsInv(s) && Quiet(s, r)
    ensures FilesInTurn(r)
  {
    forall f | |s.files| <= f < |r.files| ensures InTurn(r.files[f].log) {
      OpeningInTurn(r.files[f].log);
    }
    forall o | 0 <= o < |r.objects| && r.objects[o].file < |r.files|
      ensures UsesLatest(r.files[r.objects[o].file].log, o, r.objects[o].state)
    {
      if o < |s.objects| {
        assert r.objects[o] == s.objects[o] && s.objects[o].file < |s.files|;
      }
    }
  }

  lemma ReplacedInTurn(s: System, target: nat, state: SignalState, file: FileState)
    requires FilesInTurn(s) && target < |s.objects| && s.objects[target].file < |s.files|
    requires InTurn(file.log) && UsesLatest(file.log, target, state)
    requires forall o :: o != target ==> Latest(file.log, o) == Latest(s.files[s.objects[target].file].log, o)
    ensures FilesInTurn(Replaced(s, target, state, file))
  {
    var r := Replaced(s, target, state, file);
    forall o | 0 <= o < |r.objects| && r.objects[o].file < |r.files|
      ensures UsesLatest(r.files[r.objects[o].file].log, o, r.objects[o].state)
    {
      if o != target {
        assert r.objects[o] == s.objects[o];
        assert UsesLatest(s.files[s.objects[o].file].log, o, s.objects[o].state);
      }
    }
  }

  lemma ArriveInTurn(s: System, e: Event, cfg: Config)
    requires FilesInTurn(s) && RefsInv(s) && e.Arrive?
    ensures FilesInTurn(Step(s, e, cfg))
  {
    if e.thread in s.held {
      var target := s.held[e.thread];
      var obj := s.objects[target];
      var labels := Labels(obj.signal, e.uuid, 0);
      assert UsesLatest(s.files[obj.file].log, target, obj.state);
      ReceiveInTurn(s.files[obj.file], target, obj.state, labels, e.packet, cfg.native);
      var (state, file) := ReceiveIn(s.files[obj.file], target, obj.state, labels, e.packet, cfg.native);
      ReplacedInTurn(s, target, state, file);
      assert Step(s, e, cfg) == Replaced(s, target, state, file);
    }
  }

  lemma {:induction false} RunInTurn(events: seq<Event>, cfg: Config)
    ensures FilesInTurn(Run(events, cfg))
  {
    if events != [] {
      var init, last := events[..|events| - 1], events[|events| - 1];
      RunInTurn(init, cfg);
      RunInv(init, cfg);
      if last.Arrive? {
        ArriveInTurn(Run(init, cfg), last, cfg);
      } else {
        StepQuiet(Run(init, cfg), last, cfg);
        QuietInTurn(Run(init, cfg), Step(Run(init, cfg), last, cfg));
      }
    }
  }

  // ----- What a packet means, judged by the packet alone -----

  function OwnHandler(packet: Packet): Handler {
    if IsScalarSignal(packet.descriptor, DomainDescriptor(packet)) then ScalarHandler(0) else CanHandler(0)
  }

  function OwnBinding(packet: Packet): Binding
    requires packet.descriptor.Some? && DomainDescriptor(packet).Some?
  {
    Binding(0, 0, 0, packet.descriptor.value, DomainDescriptor(packet).value)
  }

  lemma OwnIsReady(packet: Packet, native: Endian)
    requires IsRecorded(packet)
    ensures packet.descriptor.Some? && DomainDescriptor(packet).Some?
    ensures IsReady(OwnHandler(packet), OwnBinding(packet)) && DataPayload(OwnHandler(packet), packet, native).Some?
  {
  }

  /** An acceptable packet made of whole values. */
  predicate Sampled(packet: Packet) {
    IsRecorded(packet) && Whole(OwnHandler(packet), OwnBinding(packet), packet)
  }

  function OwnMeaning(packet: Packet, native: Endian): seq<seq<Value>>
    requires Sampled(packet)
  {
    OwnIsReady(packet, native);
    Meaning(OwnHandler(packet), OwnBinding(packet), packet, native)
  }

  predicate AllSampled(packets: seq<Packet>) {
    forall i :: 0 <= i < |packets| ==> Sampled(packets[i])
  }

  /** The samples of a list of packets, whatever their descriptors. */
  function OwnMeanings(packets: seq<Packet>, native: Endian): seq<seq<Value>>
    requires AllSampled(packets)
  {
    if packets == [] then [] else OwnMeaning(packets[0], native) + OwnMeanings(packets[1..], native)
  }

  lemma {:induction false} OwnMeaningsConcat(a: seq<Packet>, b: seq<Packet>, native: Endian)
    requires AllSampled(a + b)
    ensures AllSampled(a) && AllSampled(b)
    ensures OwnMeanings(a + b, native) == OwnMeanings(a, native) + OwnMeanings(b, native)
    decreases |a|
  {
    forall i | 0 <= i < |b| ensures Sampled(b[i]) {
      assert (a + b)[|a| + i] == b[i];
    }
    forall i | 0 <= i < |a| ensures Sampled(a[i]) {
      assert (a + b)[i] == a[i];
    }
    if a == [] {
      assert a + b == b;
    } else {
      assert (a + b)[1..] == a[1..] + b;
      OwnMeaningsConcat(a[1..], b, native);
    }
  }

  /** A packet bound to a declaration means what it means on its own. */
  predicate BoundTo(packet: Packet, h: Handler, b: Binding, native: Endian) {
    Some(b.value) == packet.descriptor && Some(b.domain) == DomainDescriptor(packet)
        && DataPayload(h, packet, native).Some?
  }

  lemma BoundMeaning(packet: Packet, h: Handler, b: Binding, native: Endian)
    requires IsReady(h, b) && BoundTo(packet, h, b, native) && Sampled(packet)
    ensures Whole(h, b, packet) && Meaning(h, b, packet, native) == OwnMeaning(packet, native)
  {
    OwnIsReady(packet, native);
  }

  lemma {:induction false} BoundMeanings(packets: seq<Packet>, h: Handler, b: Binding, native: Endian)
    requires IsReady(h, b) && AllSampled(packets) && forall i ::
               0 <= i < |packets| ==> BoundTo(packets[i], h, b, native)
    ensures AllWhole(packets, h, b) && AllWritten(packets, h, native)
    ensures Meanings(packets, h, b, native) == OwnMeanings(packets, native)
    decreases |packets|
  {
    forall i | 0 <= i < |packets| ensures Whole(h, b, packets[i]) && DataPayload(h, packets[i], native).Some? {
      assert BoundTo(packets[i], h, b, native);
      BoundMeaning(packets[i], h, b, native);
    }
    if packets != [] {
      BoundMeaning(packets[0], h, b, native);
      BoundMeanings(packets[1..], h, b, native);
    }
  }

  // ----- Reading all groups of a signal object -----

  lemma {:induction false} AcceptedAreBound(log: seq<Entry>, g: nat, h: Handler, b: Binding, native: Endian)
    requires forall j :: 0 <= j < |log| && log[j].Data? && log[j].handler.group == g ==>
               BoundTo(log[j].packet, h, b, native)
    ensures forall i :: 0 <= i < |Accepted(log, g)| ==> BoundTo(Accepted(log, g)[i], h, b, native)
  {
    if log != [] {
      AcceptedAreBound(log[1..], g, h, b, native);
    }
  }

  /** One group: what is read is what its packets mean. */
  lemma GroupReads(cfg: Config, file: FileState, i: nat)
    requires IsPreamble(cfg.preamble) && FileInv(file, cfg.native) && StartsWithPreamble(file, cfg)
    requires file.closed && Representable(file, cfg.native) && i < |file.log| && file.log[i].Declared?
    requires AllSampled(Accepted(file.log, file.log[i].handler.group))
    ensures ReadBack(Content(file), file.log[i].handler.group)
         == Some(OwnMeanings(Accepted(file.log, file.log[i].handler.group), cfg.native))
  {
    hide IsPreamble, OpeningText, IsReady, Whole, Content, ReadBack, OwnMeanings, Meanings, DataPayload, BoundTo,
      FileFits, NarrowLog;
    var h, b := file.log[i].handler, file.log[i].binding;
    FileReadsBack(cfg, file, i);
    GroupIsBound(file.log, cfg.native, file.taken, i);
    AcceptedAreBound(file.log, h.group, h, b, cfg.native);
    BoundMeanings(Accepted(file.log, h.group), h, b, cfg.native);
  }

  /** All data of a declared group is for the descriptors of the declaration. */
  lemma GroupIsBound(log: seq<Entry>, native: Endian, taken: nat, i: nat)
    requires LogInOrder(log, native, taken) && taken <= MOST_IDS && i < |log| && log[i].Declared?
    ensures forall j :: 0 <= j < |log| && log[j].Data? && log[j].handler.group == log[i].handler.group ==>
              BoundTo(log[j].packet, log[i].handler, log[i].binding, native)
  {
    forall j | 0 <= j < |log| && log[j].Data? && log[j].handler.group == log[i].handler.group
      ensures BoundTo(log[j].packet, log[i].handler, log[i].binding, native)
    {
      assert EntryInOrder(log, native, taken, j);
      GroupIsOneHandler(log, native, taken, i, j);
    }
  }

  /** Some declaration of the log is for this group. */
  predicate IsDeclared(log: seq<Entry>, g: nat) {
    exists i :: 0 <= i < |log| && log[i].Declared? && log[i].handler.group == g
  }

  predicate AreDeclared(log: seq<Entry>, groups: seq<nat>) {
    forall k :: 0 <= k < |groups| ==> IsDeclared(log, groups[k])
  }

  lemma OwnAreDeclared(log: seq<Entry>, o: nat)
    ensures AreDeclared(log, GroupsOf(log, o))
  {
    forall k | 0 <= k < |GroupsOf(log, o)| ensures IsDeclared(log, GroupsOf(log, o)[k]) {
      var i := GroupIsDeclared(log, o, GroupsOf(log, o)[k]);
    }
  }

  /** Groups read one after the other. */
  lemma {:induction false} GroupsRead(cfg: Config, file: FileState, groups: seq<nat>)
    requires IsPreamble(cfg.preamble) && FileInv(file, cfg.native) && StartsWithPreamble(file, cfg)
    requires file.closed && Representable(file, cfg.native)
    requires AreDeclared(file.log, groups)
    requires AllSampled(GroupPackets(file.log, groups))
    ensures ReadGroups(Content(file), groups) == Some(OwnMeanings(GroupPackets(file.log, groups), cfg.native))
    decreases |groups|
  {
    hide IsPreamble, OpeningText, Representable, FileInv, ReadBack, Content, OwnMeanings, StartsWithPreamble, Accepted,
      AllSampled;
    if groups == [] {
      NothingMeans(GroupPackets(file.log, groups), cfg.native);
    } else {
      var init, g := groups[..|groups| - 1], groups[|groups| - 1];
      OwnMeaningsConcat(GroupPackets(file.log, init), Accepted(file.log, g), cfg.native);
      GroupsRead(cfg, file, init);
      assert IsDeclared(file.log, g);
      var i :| 0 <= i < |file.log| && file.log[i].Declared? && file.log[i].handler.group == g;
      GroupReads(cfg, file, i);
    }
  }

  lemma NothingMeans(packets: seq<Packet>, native: Endian)
    requires packets == []
    ensures AllSampled(packets) && OwnMeanings(packets, native) == []
  {
  }

  /** The packets that arrived at a signal object, by group. */
  lemma ArrivedByGroup(events: seq<Event>, cfg: Config, o: nat)
    requires o < |Run(events, cfg).objects| && Run(events, cfg).objects[o].file < |Run(events, cfg).files|
    requires Run(events, cfg).files[Run(events, cfg).objects[o].file].taken <= MOST_IDS
    ensures var log := Run(events, cfg).files[Run(events, cfg).objects[o].file].log;
            GroupPackets(log, GroupsOf(log, o)) == Keep(Arrived(events, cfg, o))
  {
    hide *;
    var f := Run(events, cfg).objects[o].file;
    FileFacts(events, cfg, f);
    Conservation(events, cfg, o, f);
    PacketsByGroup(Run(events, cfg).files[f].log, cfg.native, Run(events, cfg).files[f].taken, o);
  }

  lemma FileFacts(events: seq<Event>, cfg: Config, f: nat)
    requires f < |Run(events, cfg).files|
    ensures var file := Run(events, cfg).files[f]; LogInOrder(file.log, cfg.native, file.taken) && InTurn(file.log)
  {
    hide Run;
    RunInv(events, cfg);
    RunInTurn(events, cfg);
    assert FileInv(Run(events, cfg).files[f], cfg.native);
  }

  /** From arrival to read-back. In every run, reading the groups a signal object declared in a finished
      recording, one after the other, from the bytes under the name of the recording yields exactly the
      samples of all acceptable packets that arrived at the object, in the order they arrived, across
      every change of descriptors. */
  lemma {:induction false} SignalReadsBack(events: seq<Event>, cfg: Config, o: nat, f: nat)
    requires IsPreamble(cfg.preamble) && Finished(events, cfg, f)
    requires o < |Run(events, cfg).objects| && Run(events, cfg).objects[o].file == f
    requires Representable(Run(events, cfg).files[f], cfg.native)
    requires AllSampled(Keep(Arrived(events, cfg, o)))
    ensures var file := Run(events, cfg).files[f];
            ReadGroups(Under(events, cfg, file.name), GroupsOf(file.log, o))
            == Some(OwnMeanings(Keep(Arrived(events, cfg, o)), cfg.native))
  {
    hide *;
    FinishedContent(events, cfg, f);
    FinishedParts(events, cfg, f);
    var file := Run(events, cfg).files[f];
    RepresentableParts(file, cfg.native);
    ArrivedByGroup(events, cfg, o);
    OwnAreDeclared(file.log, o);
    GroupsRead(cfg, file, GroupsOf(file.log, o));
  }

  lemma RepresentableParts(file: FileState, native: Endian)
    requires Representable(file, native)
    ensures file.taken <= MOST_IDS
  {
  }

  lemma FinishedParts(events: seq<Event>, cfg: Config, f: nat)
    requires Finished(events, cfg, f)
    ensures f < |Run(events, cfg).files| && Run(events, cfg).files[f].closed
  {
  }
}
