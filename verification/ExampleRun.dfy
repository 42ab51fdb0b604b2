/** Recordings from beginning to end: the events the theorems over runs speak about do happen. */
module ExampleRun {
  import opened Bytes
  import opened Descriptors
  import opened SampleTypes
  import opened Handlers
  import opened HandlerChoice
  import opened FileLog
  import opened Ports
  import opened Runs
  import opened RunGrowth
  import opened Connections

  /** A scalar packet that will be recorded. */
  predicate Recordable(packet: Packet) {
    IsRecorded(packet) && IsScalarSignal(packet.descriptor, DomainDescriptor(packet))
  }

  /** A signal is connected, a recording is started under a name, and a packet is being delivered. */
  function Delivered(name: string, signal: Signal, packet: Packet, uuid: string): seq<Event> {
    [Refresh(name), Connect(0, signal), Start, Find(7, 0), Arrive(7, packet, uuid)]
  }

  function PluggedPorts(signal: Signal): seq<Port> {
    [Port(0, Some(signal)), Port(1, None)]
  }

  lemma ConnectedPorts(signal: Signal)
    ensures forall id :: Connected(PluggedPorts(signal), id) <==> id == 0
  {
    assert PluggedPorts(signal)[0].id == 0 && PluggedPorts(signal)[0].connection.Some?;
  }

  function Idle(name: string, signal: Signal): System {
    System(false, name, PluggedPorts(signal), 2, None, [], map[], [], map[])
  }

  function Recording(name: string, signal: Signal, file: FileState, state: SignalState, held: map<nat, nat>): System {
    System(true, name, PluggedPorts(signal), 2, Some(0), [file], map[0 := 0], [Object(0, signal, state)], held)
  }

  lemma AfterRefresh(name: string, cfg: Config)
    ensures Step(INITIAL, Refresh(name), cfg) == INITIAL.(filename := name)
  {
    assert Collect(INITIAL.(filename := name)).files == [];
  }

  lemma AfterConnect(name: string, signal: Signal, cfg: Config)
    ensures Step(INITIAL.(filename := name), Connect(0, signal), cfg) == Idle(name, signal)
  {
    assert INITIAL.ports[0].id == 0;
    assert HasPort(INITIAL.ports, 0);
    assert SetConnection(INITIAL.ports, 0, Some(signal)) == [Port(0, Some(signal))];
    assert [Port(0, Some(signal))] + [Port(1, None)] == PluggedPorts(signal);
  }

  lemma WriterIsReferenced(s: System, f: nat)
    requires s.writer == Some(f)
    ensures Referenced(s, f)
  {
  }

  lemma CollectKeepsWriter(s: System)
    requires |s.files| == 1 && s.writer == Some(0)
    ensures Collect(s) == s
  {
    WriterIsReferenced(s, 0);
    assert Collect(s).files == s.files;
  }

  lemma OneMissing(s: System, signal: Signal)
    requires s.writer == Some(0) && s.signals == map[] && s.objects == []
    ensures AddMissing(s, PluggedPorts(signal)) == s.(signals := map[0 := 0],
                                                      objects := [Object(0, signal, NEW_SIGNAL)])
  {
    var ports := PluggedPorts(signal);
    var next := AddFirst(s, ports[0]);
    assert ports[1..] == [Port(1, None)] && ports[1..][1..] == [];
    assert next.objects == [Object(0, signal, NEW_SIGNAL)];
    assert next.signals == map[0 := 0];
    assert AddMissing(s, ports) == AddMissing(next, ports[1..]);
    assert AddMissing(next, ports[1..]) == AddMissing(next, ports[1..][1..]);
  }

  lemma AfterStart(name: string, signal: Signal, cfg: Config)
    ensures Step(Idle(name, signal), Start, cfg)
         == Recording(name, signal, Opened(name, OpeningText(cfg.preamble)), NEW_SIGNAL, map[])
  {
    hide Opened, OpeningText, Collect;
    var started := Idle(name, signal).(recording := true);
    var open := OpenWriter(started, cfg);
    OneMissing(open, signal);
    ConnectedPorts(signal);
    var added := AddMissing(open, started.ports);
    assert DropGone(added.signals, started.ports) == map[0 := 0];
    assert Reconfigure(started, cfg) == Recording(name, signal, Opened(name, OpeningText(cfg.preamble)), NEW_SIGNAL,
                                                  map[]);
    CollectKeepsWriter(Reconfigure(started, cfg));
  }

  lemma AfterFind(name: string, signal: Signal, file: FileState, state: SignalState, cfg: Config)
    ensures Step(Recording(name, signal, file, state, map[]), Find(7, 0), cfg)
            == Recording(name, signal, file, state, map[7 := 0])
  {
    CollectKeepsWriter(Recording(name, signal, file, state, map[7 := 0]));
  }

  lemma AfterArrive(name: string, signal: Signal, file: FileState, state: SignalState, packet: Packet, uuid: string,
                    cfg: Config)
    ensures var (state', file') := ReceiveIn(file, 0, state, Labels(signal, uuid, 0), packet, cfg.native);
            Step(Recording(name, signal, file, state, map[7 := 0]), Arrive(7, packet, uuid), cfg)
            == Recording(name, signal, file', state', map[7 := 0])
  {
    var s := Recording(name, signal, file, state, map[7 := 0]);
    assert s.held[7] == 0 && s.objects[0].file == 0;
    var (state', file') := ReceiveIn(file, 0, state, Labels(signal, uuid, 0), packet, cfg.native);
    assert s.files[0 := file'] == [file'];
    assert s.objects[0 := s.objects[0].(state := state')] == [Object(0, signal, state')];
  }

  lemma AfterRelease(name: string, signal: Signal, file: FileState, state: SignalState, cfg: Config)
    ensures Step(Recording(name, signal, file, state, map[7 := 0]), Release(7), cfg)
            == Recording(name, signal, file, state, map[])
  {
    assert (map[7 := 0] - {7}) == map[];
    CollectKeepsWriter(Recording(name, signal, file, state, map[]));
  }

  lemma AfterStop(name: string, signal: Signal, file: FileState, state: SignalState, cfg: Config)
    requires !file.closed
    ensures Step(Recording(name, signal, file, state, map[]), Stop, cfg)
         == Idle(name, signal).(files := [Close(file)], objects := [Object(0, signal, state)])
  {
    var s := Recording(name, signal, file, state, map[]).(recording := false, signals := map[], writer := None);
    assert Reconfigure(Recording(name, signal, file, state, map[]).(recording := false), cfg) == s;
    assert !Referenced(s, 0);
    assert Collect(s).files == [Close(file)];
  }

  /** The log of a file that was given one packet. */
  function OnePacketLog(text: string, labels: Labels, packet: Packet): seq<Entry>
    requires packet.descriptor.Some? && DomainDescriptor(packet).Some?
  {
    [Opening(text),
     Declared(0, 0, ScalarHandler(2), Binding(2, 2, 0, packet.descriptor.value, DomainDescriptor(packet).value),
              labels),
     Data(0, ScalarHandler(2), packet)]
  }

  lemma OpenedParts(name: string, text: string)
    ensures var f := Opened(name, text);
            && f.name == name && f.log == [Opening(text)] && f.taken == 0 && !f.closed
            && f.writer.nextGroup == 2 && f.writer.nextDecoder == 2 && f.writer.nextChannel == 0
  {
  }

  lemma RecordableParts(packet: Packet, group: nat, native: Endian)
    requires Recordable(packet)
    ensures packet.descriptor.Some? && DomainDescriptor(packet).Some?
    ensures DataPayload(ScalarHandler(group), packet, native).Some?
    ensures IsScalarSignal(packet.descriptor, DomainDescriptor(packet))
  {
    hide IsNumber;
  }

  lemma OnePacketReceived(name: string, text: string, labels: Labels, packet: Packet, native: Endian)
    requires Recordable(packet)
    ensures packet.descriptor.Some? && DomainDescriptor(packet).Some?
    ensures var (s, f) := ReceiveIn(Opened(name, text), 0, NEW_SIGNAL, labels, packet, native);
            f.log == OnePacketLog(text, labels, packet) && f.taken == 1 && !f.closed && f.name == name
  {
    hide Opened, Create, Choose, IsScalarSignal, IsMessageSignal, DataPayload, Deliver, Recordable;
    RecordableParts(packet, 2, native);
    OpenedParts(name, text);
    var value, domain := packet.descriptor, DomainDescriptor(packet);
    var f := Opened(name, text);
    CreatedIff(f.writer, labels, value, domain, native);
    CreateSucceeds(f.writer, labels, value, domain, native);
    var (h, created) := CreateIn(f, 0, labels, value, domain, native);
    assert h == Some(ScalarHandler(2));
    assert created.log == [Opening(text)] + [Declared(0, 0, ScalarHandler(2),
                                                      Binding(2, 2, 0, value.value, domain.value), labels)];
    assert DeliverIn(created, 0, ScalarHandler(2), packet, native).log
           == created.log + [Data(0, ScalarHandler(2), packet)];
  }

  lemma RunOfFive(events: seq<Event>, cfg: Config)
    requires |events| == 5
    ensures Run(events, cfg)
         == Step(Step(Step(Step(Step(INITIAL, events[0], cfg), events[1], cfg), events[2], cfg), events[3], cfg),
                 events[4], cfg)
  {
    hide Step;
    assert events[..4][..3] == events[..3] && events[..3][..2] == events[..2];
    assert events[..2][..1] == events[..1] && events[..1][..0] == [];
    assert Run(events[..1], cfg) == Step(Run([], cfg), events[0], cfg);
    assert Run(events[..2], cfg) == Step(Run(events[..1], cfg), events[1], cfg);
    assert Run(events[..3], cfg) == Step(Run(events[..2], cfg), events[2], cfg);
    assert Run(events[..4], cfg) == Step(Run(events[..3], cfg), events[3], cfg);
  }

  /** While the packet is being delivered. */
  lemma WhileDelivered(name: string, signal: Signal, packet: Packet, uuid: string, cfg: Config)
    ensures var (state, file) := ReceiveIn(Opened(name, OpeningText(cfg.preamble)), 0, NEW_SIGNAL,
                                           Labels(signal, uuid, 0), packet, cfg.native);
            Run(Delivered(name, signal, packet, uuid), cfg) == Recording(name, signal, file, state, map[7 := 0])
  {
    hide Step, Run, ReceiveIn, OpeningText, Opened, Recording, Idle;
    var file := Opened(name, OpeningText(cfg.preamble));
    RunOfFive(Delivered(name, signal, packet, uuid), cfg);
    AfterRefresh(name, cfg);
    AfterConnect(name, signal, cfg);
    AfterStart(name, signal, cfg);
    AfterFind(name, signal, file, NEW_SIGNAL, cfg);
    AfterArrive(name, signal, file, NEW_SIGNAL, packet, uuid, cfg);
  }

  /** A signal is connected, recorded, and the recording is stopped. */
  function Events(name: string, signal: Signal, packet: Packet, uuid: string): seq<Event> {
    Delivered(name, signal, packet, uuid) + [Release(7)] + [Stop]
  }

  /** After connecting, starting, one delivery and stopping there is one file; it is closed and holds
      the opening metadata, the declaration of group 2 and the packet. */
  lemma {:induction false} OneRecording(name: string, signal: Signal, packet: Packet, uuid: string, cfg: Config)
    requires Recordable(packet)
    ensures packet.descriptor.Some? && DomainDescriptor(packet).Some?
    ensures var r := Run(Events(name, signal, packet, uuid), cfg);
            && |r.files| == |r.objects| == 1 && r.objects[0].file == 0 && r.objects[0].signal == signal
            && r.files[0].closed && r.files[0].taken == 1 && r.files[0].name == name
            && r.files[0].log == OnePacketLog(OpeningText(cfg.preamble), Labels(signal, uuid, 0), packet)
  {
    hide Step, Run, ReceiveIn, OpeningText, Opened;
    var text, labels := OpeningText(cfg.preamble), Labels(signal, uuid, 0);
    var (state, file) := ReceiveIn(Opened(name, text), 0, NEW_SIGNAL, labels, packet, cfg.native);
    OnePacketReceived(name, text, labels, packet, cfg.native);
    WhileDelivered(name, signal, packet, uuid, cfg);
    RunStep(Delivered(name, signal, packet, uuid), Release(7), cfg);
    RunStep(Delivered(name, signal, packet, uuid) + [Release(7)], Stop, cfg);
    AfterRelease(name, signal, file, state, cfg);
    AfterStop(name, signal, file, state, cfg);
  }

  // ----- A port that gets another signal -----

  lemma FirstStart(name: string, signal: Signal, cfg: Config)
    ensures Run([Refresh(name), Connect(0, signal), Start], cfg)
         == Recording(name, signal, Opened(name, OpeningText(cfg.preamble)), NEW_SIGNAL, map[])
  {
    hide Step, OpeningText, Opened, Recording, Idle;
    var events := [Refresh(name), Connect(0, signal), Start];
    assert events[..2][..1] == events[..1] && events[..1][..0] == [];
    assert Run(events[..1], cfg) == Step(Run([], cfg), events[0], cfg);
    assert Run(events[..2], cfg) == Step(Run(events[..1], cfg), events[1], cfg);
    AfterRefresh(name, cfg);
    AfterConnect(name, signal, cfg);
    AfterStart(name, signal, cfg);
  }

  /** Connecting another signal to a port while recording leaves the entry of the port on the signal
      that was connected before. */
  lemma {:induction false} RewiringHappens(name: string, a: Signal, b: Signal, cfg: Config)
    requires a != b
    ensures var started := [Refresh(name), Connect(0, a), Start];
            Rewires(Run(started, cfg), Connect(0, b)) && !SignalsMatch(Run(started + [Connect(0, b)], cfg))
  {
    hide Step, OpeningText, Opened;
    var started := [Refresh(name), Connect(0, a), Start];
    FirstStart(name, a, cfg);
    RunInv(started, cfg);
    RunStep(started, Connect(0, b), cfg);
    var s := Run(started, cfg);
    assert s.ports[0].id == 0 && s.ports[0].connection == Some(a);
    assert ConnectedTo(s.ports, 0, a);
    StepMatches(s, Connect(0, b), cfg);
  }
}
