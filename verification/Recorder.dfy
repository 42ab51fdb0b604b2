/** AdvancedRecorderImpl: the recording flag, the writer, the input ports and the map from ports to
    signal objects, updated in place. */
module Recorder {
  import opened Bytes
  import opened FileLayer
  import opened BlockLayer
  import opened IndexLayer
  import opened LogicalLayer
  import opened Xml
  import opened SieXml
  import opened Decimal
  import opened Descriptors
  import opened Handlers
  import opened FileLog
  import opened Ports
  import opened RecorderSignal
  import opened Runs

  /** A packet in the queue of a connection. Other packets than data packets are ignored. A data
      packet comes with the random text a new channel would be given. */
  datatype Incoming = DataPacket(packet: Packet, uuid: string) | OtherPacket

  class InputPort {
    const name: string
    var connection: Option<Signal>
    var queue: seq<Incoming>

    constructor (name: string)
      ensures this.name == name && connection == None && queue == []
    {
      this.name, connection, queue := name, None, [];
    }
  }

  function PortName(k: nat): string {
    "Value" + ToDecimal(k)
  }

  /** Ports are named Value1, Value2 and so on, in order. */
  predicate Named(ports: seq<InputPort>) {
    forall i :: 0 <= i < |ports| ==> ports[i].name == PortName(i + 1)
  }

  function Connections(ports: seq<InputPort>): (r: seq<bool>)
    reads ports
    ensures |r| == |ports|
  {
    seq(|ports|, i requires 0 <= i < |ports| reads ports => ports[i].connection.Some?)
  }

  predicate HasConnection(ports: seq<InputPort>, p: InputPort)
    reads ports
  {
    p in ports && p.connection.Some?
  }

  /** The first n ports end in a free one, are one port or have a connected neighbour before it, and
      all other ports are free. */
  predicate TrimmedTo(all: seq<InputPort>, n: nat)
    reads all
  {
    && 1 <= n <= |all| && all[n - 1].connection == None && (n == 1 || all[n - 2].connection.Some?)
    && forall i :: n <= i < |all| ==> all[i].connection == None
  }

  lemma KeptIsTrimmedTo(all: seq<InputPort>)
    requires LastFree(Connections(all))
    ensures TrimmedTo(all, Kept(Connections(all)))
  {
    var n := Kept(Connections(all));
    KeptIsTrimmed(Connections(all));
    assert !Connections(all)[..n][n - 1];
    forall i | n <= i < |all| ensures all[i].connection == None {
      assert !Connections(all)[i];
    }
  }

  /** What a queue of packets does to a signal object and its writer. */
  function ReceiveQueue(s: SignalState, w: WriterState, signal: Signal, testId: nat, queue: seq<Incoming>,
                        native: Endian): (SignalState, WriterState)
    decreases |queue|
  {
    if queue == [] then (s, w)
    else
      var (s', w') :=
        match queue[0]
        case DataPacket(packet, uuid) => Receive(s, w, Labels(signal, uuid, testId), packet, native)
        case OtherPacket => (s, w);
      ReceiveQueue(s', w', signal, testId, queue[1..], native)
  }

  // ----- The numbers of ports and entries -----

  /** The ports of the state machine are these, by number. */
  ghost predicate PortsOf(ports: seq<InputPort>, ids: map<InputPort, nat>, numbered: seq<Port>)
    reads ports
  {
    && |numbered| == |ports|
    && forall i :: 0 <= i < |ports| ==> ports[i] in ids && numbered[i] == Port(ids[ports[i]], ports[i].connection)
  }

  /** The map of the state machine has the same entries, by number. */
  ghost predicate MapOf(signals: map<InputPort, AdvancedRecorderSignal>, ids: map<InputPort, nat>,
                        created: seq<AdvancedRecorderSignal>, numbered: map<nat, nat>)
  {
    && (forall p :: p in signals ==>
          p in ids && ids[p] in numbered && numbered[ids[p]] < |created| && created[numbered[ids[p]]] == signals[p])
    && (forall id :: id in numbered ==> exists p :: p in signals && p in ids && ids[p] == id)
  }

  predicate NumbersDiffer(ids: map<InputPort, nat>) {
    forall p, q :: p in ids && q in ids && ids[p] == ids[q] ==> p == q
  }

  lemma PortNumber(ports: seq<InputPort>, ids: map<InputPort, nat>, numbered: seq<Port>, i: nat)
    requires PortsOf(ports, ids, numbered) && i < |ports|
    ensures |numbered| == |ports| && ports[i] in ids && numbered[i] == Port(ids[ports[i]], ports[i].connection)
  {
  }

  lemma PortAdded(ports: seq<InputPort>, ids: map<InputPort, nat>, numbered: seq<Port>, port: InputPort, id: nat)
    requires PortsOf(ports, ids, numbered) && port !in ids
    ensures PortsOf(ports + [port], ids[port := id], numbered + [Port(id, port.connection)])
  {
    var more := ports + [port];
    forall i | 0 <= i < |more|
      ensures more[i] in ids[port := id]
      ensures (numbered + [Port(id, port.connection)])[i] == Port(ids[port := id][more[i]], more[i].connection)
    {
      if i < |ports| {
        assert more[i] == ports[i] && ports[i] in ids;
      }
    }
  }

  lemma PortsTrimmed(ports: seq<InputPort>, ids: map<InputPort, nat>, numbered: seq<Port>)
    requires PortsOf(ports, ids, numbered)
    ensures Flags(numbered) == Connections(ports)
    ensures forall n :: 0 <= n <= |ports| ==> PortsOf(ports[..n], ids, numbered[..n])
  {
  }

  lemma NumberAdded(signals: map<InputPort, AdvancedRecorderSignal>, ids: map<InputPort, nat>,
                    created: seq<AdvancedRecorderSignal>, numbered: map<nat, nat>, port: InputPort, id: nat)
    requires MapOf(signals, ids, created, numbered) && port !in ids
    ensures MapOf(signals, ids[port := id], created, numbered)
  {
    forall k | k in numbered ensures exists p :: p in signals && p in ids[port := id] && ids[port := id][p] == k {
      var p :| p in signals && p in ids && ids[p] == k;
      assert ids[port := id][p] == k;
    }
  }

  lemma EntryMapped(signals: map<InputPort, AdvancedRecorderSignal>, ids: map<InputPort, nat>,
                    created: seq<AdvancedRecorderSignal>, numbered: map<nat, nat>, port: InputPort,
                    entry: AdvancedRecorderSignal)
    requires MapOf(signals, ids, created, numbered) && NumbersDiffer(ids) && port in ids && port !in signals
    ensures ids[port] !in numbered
    ensures MapOf(signals[port := entry], ids, created + [entry], numbered[ids[port] := |created|])
  {
    var after := numbered[ids[port] := |created|];
    assert forall p :: p in signals && p in ids ==> ids[p] != ids[port];
    forall k | k in after ensures exists p :: p in signals[port := entry] && p in ids && ids[p] == k {
      if k == ids[port] {
        assert port in signals[port := entry];
      } else {
        var p :| p in signals && p in ids && ids[p] == k;
        assert p in signals[port := entry];
      }
    }
  }

  /** Keeping the entries of connected ports. */
  lemma EntriesErased(signals: map<InputPort, AdvancedRecorderSignal>, kept: map<InputPort, AdvancedRecorderSignal>,
                      ids: map<InputPort, nat>, created: seq<AdvancedRecorderSignal>, numbered: map<nat, nat>,
                      ports: seq<Port>)
    requires MapOf(signals, ids, created, numbered)
    requires forall p :: p in signals ==> p in ids && (p in kept <==> Connected(ports, ids[p]))
    requires forall p :: p in kept ==> p in signals && kept[p] == signals[p]
    ensures MapOf(kept, ids, created, DropGone(numbered, ports))
  {
    var after := DropGone(numbered, ports);
    forall k | k in after ensures exists p :: p in kept && p in ids && ids[p] == k {
      var p :| p in signals && p in ids && ids[p] == k;
      assert p in kept;
    }
  }

  // ----- Handler states and bytes -----

  lemma ReceiveInKeeps(f: FileState, owner: nat, s: SignalState, labels: Labels, packet: Packet, native: Endian)
    ensures var r := ReceiveIn(f, owner, s, labels, packet, native).1; r.name == f.name && r.closed == f.closed
  {
  }

  /** A writer that shares no object with others. */
  ghost predicate SeparateFrom(writers: seq<Writer>, w: Writer) {
    forall f :: 0 <= f < |writers| ==>
      writers[f] != w && writers[f].writer != w.writer && writers[f].writer.writer.file != w.writer.writer.file
  }

  ghost predicate Separate(created: seq<AdvancedRecorderSignal>, writers: seq<Writer>) {
    && (forall o, p :: 0 <= o < p < |created| ==> created[o] != created[p])
    && (forall f :: 0 <= f < |writers| ==> SeparateFrom(writers[..f], writers[f]))
  }

  /** Signal objects have the handler states, and the writers of open files the bytes, of the state machine. */
  ghost predicate SameStates(created: seq<AdvancedRecorderSignal>, writers: seq<Writer>, objects: seq<Object>,
                             files: seq<FileState>)
    reads created, writers, (set w | w in writers :: w.writer), (set w | w in writers :: w.writer.writer),
      (set w | w in writers :: w.writer.writer.file)
  {
    && |objects| == |created| && |files| == |writers| && Separate(created, writers)
    && (forall o :: 0 <= o < |created| ==> created[o].testId == 0 && objects[o].state == created[o].View())
    && (forall f :: 0 <= f < |writers| && !files[f].closed ==> files[f].writer == writers[f].View())
  }

  lemma WriterAdded(created: seq<AdvancedRecorderSignal>, writers: seq<Writer>, objects: seq<Object>,
                    files: seq<FileState>,
                    w: Writer, file: FileState)
    requires SameStates(created, writers, objects, files) && SeparateFrom(writers, w) && file.writer == w.View()
    ensures SameStates(created, writers + [w], objects, files + [file])
  {
    forall f | 0 <= f < |writers + [w]| ensures SeparateFrom((writers + [w])[..f], (writers + [w])[f]) {
      assert (writers + [w])[..f] == writers[..f];
    }
  }

  lemma EntryAdded(created: seq<AdvancedRecorderSignal>, writers: seq<Writer>, objects: seq<Object>,
                   files: seq<FileState>,
                   entry: AdvancedRecorderSignal, obj: Object)
    requires SameStates(created, writers, objects, files) && entry !in created && entry.testId == 0
    requires obj.state == entry.View()
    ensures SameStates(created + [entry], writers, objects + [obj], files)
  {
  }

  // ----- A delivery as steps of the state machine -----

  ghost function Steps(s: System, events: seq<Event>, cfg: Config): System
    decreases |events|
  {
    if events == [] then s else Steps(Step(s, events[0], cfg), events[1..], cfg)
  }

  /** The data packets of a queue arrive one after the other; other packets leave no trace. */
  ghost function Arrivals(thread: nat, queue: seq<Incoming>): seq<Event> {
    if queue == [] then []
    else
      (match queue[0]
       case DataPacket(packet, uuid) => [Arrive(thread, packet, uuid)]
       case OtherPacket => [])
      + Arrivals(thread, queue[1..])
  }

  ghost predicate Delivering(s: System, thread: nat, o: nat) {
    thread in s.held && s.held[thread] == o < |s.objects| && s.objects[o].file < |s.files|
  }

  lemma OneArrival(s: System, thread: nat, o: nat, packet: Packet, uuid: string, cfg: Config)
    returns (state: SignalState, file: FileState)
    requires Delivering(s, thread, o)
    ensures var (obj, before) := (s.objects[o], s.files[s.objects[o].file]);
            && Step(s, Arrive(thread, packet, uuid), cfg)
               == s.(objects := s.objects[o := obj.(state := state)], files := s.files[obj.file := file])
            && (state, file.writer) == Receive(obj.state, before.writer, Labels(obj.signal, uuid, 0), packet,
                                               cfg.native)
            && file.name == before.name && file.closed == before.closed
  {
    hide Receive;
    var obj := s.objects[o];
    ReceiveInIsReceive(s.files[obj.file], o, obj.state, Labels(obj.signal, uuid, 0), packet, cfg.native);
    ReceiveInKeeps(s.files[obj.file], o, obj.state, Labels(obj.signal, uuid, 0), packet, cfg.native);
    var (next, after) := ReceiveIn(s.files[obj.file], o, obj.state, Labels(obj.signal, uuid, 0), packet, cfg.native);
    state, file := next, after;
  }

  lemma StepsOne(s: System, e: Event, more: seq<Event>, cfg: Config)
    ensures Steps(s, [e] + more, cfg) == Steps(Step(s, e, cfg), more, cfg)
  {
    assert ([e] + more)[1..] == more;
  }

  /** What the arrivals of a queue come to. */
  lemma {:induction false} QueueArrives(s: System, thread: nat, o: nat, queue: seq<Incoming>, cfg: Config)
    returns (state: SignalState, file: FileState)
    requires Delivering(s, thread, o)
    ensures var (obj, before) := (s.objects[o], s.files[s.objects[o].file]);
            && Steps(s, Arrivals(thread, queue), cfg)
               == s.(objects := s.objects[o := obj.(state := state)], files := s.files[obj.file := file])
            && (state, file.writer) == ReceiveQueue(obj.state, before.writer, obj.signal, 0, queue, cfg.native)
            && file.name == before.name && file.closed == before.closed
    decreases |queue|
  {
    hide Receive, Step;
    var obj := s.objects[o];
    if queue == [] {
      state, file := obj.state, s.files[obj.file];
      assert s.objects[o := obj] == s.objects && s.files[obj.file := file] == s.files;
    } else {
      match queue[0]
      case OtherPacket =>
        assert [] + Arrivals(thread, queue[1..]) == Arrivals(thread, queue[1..]);
        state, file := QueueArrives(s, thread, o, queue[1..], cfg);
      case DataPacket(packet, uuid) =>
        var first, grown := OneArrival(s, thread, o, packet, uuid, cfg);
        var next := Step(s, Arrive(thread, packet, uuid), cfg);
        StepsOne(s, Arrive(thread, packet, uuid), Arrivals(thread, queue[1..]), cfg);
        state, file := QueueArrives(next, thread, o, queue[1..], cfg);
        assert next.objects[o := next.objects[o].(state := state)] == s.objects[o := obj.(state := state)];
        assert next.files[obj.file := file] == s.files[obj.file := file];
    }
  }

  lemma {:induction false} StepsLast(s: System, events: seq<Event>, last: Event, cfg: Config)
    ensures Steps(s, events + [last], cfg) == Step(Steps(s, events, cfg), last, cfg)
    decreases |events|
  {
    hide Step;
    if events == [] {
      assert [] + [last] == [last] && [last][1..] == [];
    } else {
      assert (events + [last])[1..] == events[1..] + [last];
      StepsLast(Step(s, events[0], cfg), events[1..], last, cfg);
    }
  }

  lemma {:induction false} NothingArrives(s: System, thread: nat, queue: seq<Incoming>, cfg: Config)
    requires thread !in s.held
    ensures Steps(s, Arrivals(thread, queue), cfg) == s
    decreases |queue|
  {
    if queue != [] {
      NothingArrives(s, thread, queue[1..], cfg);
      match queue[0]
      case OtherPacket => assert [] + Arrivals(thread, queue[1..]) == Arrivals(thread, queue[1..]);
      case DataPacket(packet, uuid) => StepsOne(s, Arrive(thread, packet, uuid), Arrivals(thread, queue[1..]), cfg);
    }
  }

  /** The steps of one delivery: the signal object of a port is found, the packets arrive, it is let go. */
  ghost function Delivery(thread: nat, id: nat, queue: seq<Incoming>): seq<Event> {
    [Find(thread, id)] + (Arrivals(thread, queue) + [Release(thread)])
  }

  lemma DeliveryParts(s: System, thread: nat, id: nat, queue: seq<Incoming>, cfg: Config)
    ensures Steps(s, Delivery(thread, id, queue), cfg)
         == Step(Steps(Step(s, Find(thread, id), cfg), Arrivals(thread, queue), cfg), Release(thread), cfg)
  {
    hide Step, Arrivals;
    StepsOne(s, Find(thread, id), Arrivals(thread, queue) + [Release(thread)], cfg);
    StepsLast(Step(s, Find(thread, id), cfg), Arrivals(thread, queue), Release(thread), cfg);
  }

  /** Finding an object changes nothing but who holds it, as long as nothing is let go. */
  lemma FindHolds(s: System, thread: nat, id: nat, cfg: Config)
    requires thread !in s.held && id in s.signals && s.signals[id] < |s.objects|
    requires s.objects[s.signals[id]].file < |s.files| && s.writer == Some(s.objects[s.signals[id]].file)
    ensures var r, o := Step(s, Find(thread, id), cfg), s.signals[id];
            Delivering(r, thread, o) && r.objects == s.objects
                && r.files[s.objects[o].file] == s.files[s.objects[o].file]
  {
    assert Referenced(s.(held := s.held[thread := s.signals[id]]), s.writer.value);
  }

  class AdvancedRecorderImpl {
    const kernel: Kernel
    const native: Endian
    const preamble: string
    var filename: string
    var recordingActive: bool
    var writer: Writer?
    var signals: map<InputPort, AdvancedRecorderSignal>
    var portCount: nat
    var ports: seq<InputPort>

    // The numbers the state machine in Runs gives to ports, signal objects and files.
    ghost var portIds: map<InputPort, nat>
    ghost var nextPort: nat
    ghost var created: seq<AdvancedRecorderSignal>
    ghost var writers: seq<Writer>

    /** The ports are Value1 .. Value{portCount}; all entries share the writer in use. */
    ghost predicate Valid()
      reads this
    {
      && portCount == |ports| >= 1
      && Named(ports)
      && (forall p :: p in signals ==> writer != null && signals[p].writer == writer)
      && Numbered()
    }

    /** Ports have different numbers below the next one. */
    ghost predicate Numbered()
      reads this
    {
      && (forall i :: 0 <= i < |ports| ==> ports[i] in portIds)
      && (forall p :: p in signals ==> p in portIds)
      && (forall p :: p in portIds ==> portIds[p] < nextPort)
      && NumbersDiffer(portIds)
    }

    function Settings(): Config {
      Config(native, preamble)
    }

    // ----- The state machine this object runs -----

    ghost predicate SamePorts(s: System)
      requires Numbered()
      reads this, ports
    {
      s.nextPort == nextPort && PortsOf(ports, portIds, s.ports)
    }

    ghost predicate SameWriter(s: System)
      reads this
    {
      && s.recording == recordingActive && s.filename == filename && |s.files| == |writers|
      && (forall f :: 0 <= f < |writers| ==> writers[f].writer.writer.file.filename == s.files[f].name)
      && (s.writer.Some? <==> writer != null)
      && (s.writer.Some? ==>
            s.writer.value < |writers| && writers[s.writer.value] == writer && !s.files[s.writer.value].closed)
    }

    ghost predicate SameObjects(s: System)
      reads this
    {
      && |s.objects| == |created|
      && forall o :: 0 <= o < |created| ==>
           s.objects[o].signal == created[o].signal && s.objects[o].file < |writers|
               && writers[s.objects[o].file] == created[o].writer
    }

    ghost predicate SameMap(s: System)
      requires Numbered()
      reads this
    {
      MapOf(signals, portIds, created, s.signals)
    }

    ghost predicate SameShape(s: System)
      requires Numbered()
      reads this, ports
    {
      SamePorts(s) && SameWriter(s) && SameObjects(s) && SameMap(s)
    }

    /** A state of the machine that has the same ports, connections, writer, map, handlers and bytes, by
        number. */
    ghost predicate Represents(s: System)
      requires Numbered()
      reads this, ports, created, writers, (set w | w in writers :: w.writer),
        (set w | w in writers :: w.writer.writer),
        (set w | w in writers :: w.writer.writer.file)
    {
      SameShape(s) && SameStates(created, writers, s.objects, s.files)
    }

    /** The map and the writer are those of the current ports and recording flag. */
    predicate UpToDate()
      reads this, ports
    {
      && (recordingActive <==> writer != null)
      && (forall p :: p in signals ==> recordingActive && HasConnection(ports, p))
      && (forall i :: 0 <= i < |ports| && recordingActive && ports[i].connection.Some? ==> ports[i] in signals)
    }

    constructor (kernel: Kernel, native: Endian, preamble: string)
      ensures this.kernel == kernel && this.native == native && this.preamble == preamble
      ensures Valid() && UpToDate() && !recordingActive && fresh(ports)
      ensures |ports| == 1 && ports[0].connection == None
      ensures Represents(INITIAL)
    {
      this.kernel, this.native, this.preamble, filename := kernel, native, preamble, "";
      recordingActive, writer, signals, portCount, ports := false, null, map[], 0, [];
      portIds, nextPort, created, writers := map[], 0, [], [];
      new;
      ghost var empty := System(false, "", [], 0, None, [], map[], [], map[]);
      AddInputPort(empty);
      assert empty.(ports := empty.ports + [Port(0, None)], nextPort := 1) == INITIAL;
    }

    method AddInputPort(ghost s: System)
      requires portCount == |ports| && Named(ports) && Numbered() && Represents(s)
      modifies this`portCount, this`ports, this`portIds, this`nextPort
      ensures portCount == |ports| == old(|ports|) + 1 && Named(ports) && Numbered()
      ensures Represents(s.(ports := s.ports + [Port(s.nextPort, None)], nextPort := s.nextPort + 1))
      ensures portIds == old(portIds)[ports[|ports| - 1] := old(nextPort)] && nextPort == old(nextPort) + 1
      ensures ports == old(ports) + [ports[|ports| - 1]]
      ensures fresh(ports[|ports| - 1]) && ports[|ports| - 1].connection == None
    {
      hide PortsOf, MapOf, SameStates, NumbersDiffer, PortName;
      portCount := portCount + 1;
      var port := new InputPort(PortName(portCount));
      AppendPort(port, s);
    }

    method AppendPort(port: InputPort, ghost s: System)
      requires Numbered() && Represents(s) && port !in portIds && port.connection == None
      modifies this`ports, this`portIds, this`nextPort
      ensures Numbered() && Represents(s.(ports := s.ports + [Port(s.nextPort, None)], nextPort := s.nextPort + 1))
      ensures ports == old(ports) + [port] && portIds == old(portIds)[port := old(nextPort)]
      ensures nextPort == old(nextPort) + 1
    {
      hide PortsOf, MapOf, SameStates;
      PortAdded(ports, portIds, s.ports, port, nextPort);
      NumberAdded(signals, portIds, created, s.signals, port, nextPort);
      ports := ports + [port];
      portIds, nextPort := portIds[port := nextPort], nextPort + 1;
    }

    // ----- reconfigure() -----

    /** The file of the filename property, created or truncated, with the preamble and the element of test
        0 in it. */
    method OpenFile() returns (w: Writer, ok: bool)
      ensures fresh(w) && fresh(w.writer) && fresh(w.writer.writer) && fresh(w.writer.writer.file)
      ensures w.writer.writer.file.kernel == kernel && w.writer.writer.file.filename == filename
      ensures ok ==> w.View() == Opened(filename, OpeningText(preamble)).writer
      ensures Cooperative(kernel) ==> ok
    {
      hide TestElement, Serialize, Cooperative;
      var file := new PosixVectorIoFile(kernel, filename);
      var blocks := new BlockWriter(file);
      var indexed := new IndexedWriter(blocks);
      w := new Writer(indexed);
      var os := new OStream();
      os.Put(preamble);
      os.SerializeElement(TestElement(0), 1);
      assert os.text == OpeningText(preamble) by {
        assert "" + preamble == preamble;
      }
      ok := w.WriteMetadataText(os.text);
    }

    /** An entry for one connected port that has none. */
    method AddEntry(port: InputPort, ghost i: nat, ghost s: System)
      requires Valid() && Represents(s) && writer != null
      requires i < |ports| && port == ports[i] && port.connection.Some? && port !in signals
      modifies this`signals, this`created
      ensures Valid() && Represents(AddFirst(s, s.ports[i]))
      ensures port in signals && signals == old(signals)[port := signals[port]] && fresh(signals[port])
      ensures signals[port].signal == port.connection.value && signals[port].testId == 0
      ensures signals[port].View() == NEW_SIGNAL
    {
      hide Valid, Represents, Numbered;
      var entry := new AdvancedRecorderSignal(port.connection.value, writer, 0);
      Register(port, entry, i, s);
    }

    /** The new object under its port. */
    method Register(port: InputPort, entry: AdvancedRecorderSignal, ghost i: nat, ghost s: System)
      requires Valid() && Represents(s) && writer != null
      requires i < |ports| && port == ports[i] && port.connection.Some? && port !in signals
      requires entry !in created && entry.signal == port.connection.value && entry.writer == writer && entry.testId == 0
      requires entry.View() == NEW_SIGNAL
      modifies this`signals, this`created
      ensures Valid() && Represents(AddFirst(s, s.ports[i])) && signals == old(signals)[port := entry]
    {
      hide SameStates, MapOf, PortsOf, NumbersDiffer, Named;
      PortNumber(ports, portIds, s.ports, i);
      EntryAdded(created, writers, s.objects, s.files, entry,
                 Object(s.writer.value, port.connection.value, NEW_SIGNAL));
      EntryMapped(signals, portIds, created, s.signals, port, entry);
      signals := signals[port := entry];
      created := created + [entry];
    }

    lemma RepresentedParts(s: System)
      requires Numbered() && Represents(s)
      ensures s.recording == recordingActive && (s.writer.Some? <==> writer != null) && |s.ports| == |ports|
      ensures forall i :: 0 <= i < |ports| ==> s.ports[i].connection == ports[i].connection
    {
    }

    lemma NothingToAdd(s: System, i: nat)
      requires Numbered() && Represents(s) && writer != null && i < |ports|
      requires ports[i].connection.None? || ports[i] in signals
      ensures AddFirst(s, s.ports[i]) == s
    {
    }

    /** One turn of the first pass. */
    method VisitPort(port: InputPort, ghost i: nat, ghost s: System)
      requires Valid() && Represents(s) && writer != null && i < |ports| && port == ports[i]
      modifies this`signals, this`created
      ensures Valid() && Numbered() && Represents(AddFirst(s, s.ports[i]))
      ensures port.connection.Some? ==> port in signals
      ensures forall p :: p in signals <==> p in old(signals) || (p == port && port.connection.Some?)
      ensures forall p :: p in old(signals) ==> signals[p] == old(signals)[p]
      ensures port in signals && port !in old(signals) ==> NewEntryFor(port)
    {
      hide Represents, Numbered;
      if port.connection.Some? && port !in signals {
        AddEntry(port, i, s);
      } else {
        NothingToAdd(s, i);
      }
    }

    /** A fresh entry for the signal now connected. */
    twostate predicate NewEntryFor(new port: InputPort)
      reads this, port, signals.Values
    {
      && port in signals && fresh(signals[port]) && port.connection.Some?
      && signals[port].signal == port.connection.value && signals[port].testId == 0
          && signals[port].View() == NEW_SIGNAL
    }

    lemma NothingVisited(s: System)
      requires s.writer.Some?
      ensures AddMissing(s, s.ports[..0]) == s && forall p :: !HasConnection(ports[..0], p)
    {
    }

    lemma SamePortsAfter(s: System, p: Port)
      requires s.writer.Some?
      ensures AddFirst(s, p).ports == s.ports && AddFirst(s, p).writer == s.writer
    {
    }

    lemma MoreConnected(i: nat)
      requires i < |ports|
      ensures forall p :: HasConnection(ports[..i + 1], p)
               <==> HasConnection(ports[..i], p) || (p == ports[i] && p.connection.Some?)
    {
      assert ports[..i + 1] == ports[..i] + [ports[i]];
    }

    /** The first pass: the connected ports, each with an entry. */
    method AddEntries(ghost s: System) returns (connected: set<InputPort>)
      requires Valid() && Numbered() && Represents(s) && writer != null
      modifies this`signals, this`created
      ensures Valid() && Represents(AddMissing(s, s.ports))
      ensures forall p :: p in connected <==> HasConnection(ports, p)
      ensures forall p :: p in old(signals) ==> p in signals && signals[p] == old(signals)[p]
      ensures forall p :: p in signals <==> p in old(signals) || p in connected
      ensures forall p :: p in signals && p !in old(signals) ==> NewEntryFor(p)
    {
      hide Valid, Represents, Numbered, AddMissing, AddFirst;
      RepresentedParts(s);
      connected := {};
      ghost var t := s;
      NothingVisited(s);
      for i := 0 to |ports|
        invariant Valid() && Numbered() && writer != null
        invariant t == AddMissing(s, s.ports[..i]) && t.ports == s.ports && t.writer == s.writer && Represents(t)
        invariant forall p :: p in connected <==> HasConnection(ports[..i], p)
        invariant forall p :: p in old(signals) ==> p in signals && signals[p] == old(signals)[p]
        invariant forall p :: p in signals <==> p in old(signals) || p in connected
        invariant forall p :: p in signals && p !in old(signals) ==> NewEntryFor(p)
      {
        var port := ports[i];
        assert ports[..i + 1] == ports[..i] + [port];
        assert s.ports[..i + 1] == s.ports[..i] + [s.ports[i]];
        AddMissingLast(s, s.ports[..i], s.ports[i]);
        MoreConnected(i);
        SamePortsAfter(t, s.ports[i]);
        if port.connection.Some? {
          connected := connected + {port};
        }
        VisitPort(port, i, t);
        t := AddFirst(t, s.ports[i]);
      }
      assert ports[..|ports|] == ports && s.ports[..|ports|] == s.ports;
    }

    /** Whether a port with an entry is connected, seen by number. */
    lemma ConnectedByNumber(s: System, p: InputPort)
      requires Numbered() && PortsOf(ports, portIds, s.ports) && p in portIds
      ensures Connected(s.ports, portIds[p]) <==> HasConnection(ports, p)
    {
      if HasConnection(ports, p) {
        var i := IndexOf(ports, p);
        assert s.ports[i] == Port(portIds[p], p.connection);
      }
      if Connected(s.ports, portIds[p]) {
        var i :| 0 <= i < |s.ports| && s.ports[i].id == portIds[p] && s.ports[i].connection.Some?;
        assert s.ports[i] == Port(portIds[ports[i]], ports[i].connection);
      }
    }

    /** The second pass: entries of other ports are erased. */
    method EraseEntries(connected: set<InputPort>)
      requires Valid()
      modifies this`signals
      ensures Valid()
      ensures forall p :: p in signals <==> p in old(signals) && p in connected
      ensures forall p :: p in signals ==> signals[p] == old(signals)[p]
    {
      hide NumbersDiffer, Named;
      var rest := signals.Keys;
      while rest != {}
        invariant rest <= signals.Keys && Valid()
        invariant forall p :: p in signals ==> p in old(signals) && signals[p] == old(signals)[p]
        invariant forall p :: p in old(signals) && p !in rest ==> (p in signals <==> p in connected)
        invariant forall p :: p in rest ==> p in old(signals)
        decreases rest
      {
        var port :| port in rest;
        rest := rest - {port};
        if port !in connected {
          signals := signals - {port};
        }
      }
    }

    /** Erasing the entries of unconnected ports is what the state machine does. */
    twostate lemma Erased(s: System)
      requires old(Numbered()) && old(SameShape(s)) && Numbered() && SameStates(created, writers, s.objects, s.files)
      requires unchanged(this`recordingActive, this`filename, this`writer, this`portCount, this`ports, this`portIds,
                         this`nextPort, this`created, this`writers)
      requires forall i :: 0 <= i < |ports| ==> unchanged(ports[i])
      requires forall p :: p in signals <==> p in old(signals) && HasConnection(ports, p)
      requires forall p :: p in signals ==> signals[p] == old(signals)[p]
      ensures Represents(s.(signals := DropGone(s.signals, s.ports)))
    {
      hide SameStates, MapOf, PortsOf, NumbersDiffer, HasConnection, Connected, DropGone;
      assert PortsOf(ports, portIds, s.ports);
      forall p | p in old(signals) ensures p in signals <==> Connected(s.ports, portIds[p]) {
        ConnectedByNumber(s, p);
      }
      EntriesErased(old(signals), signals, portIds, created, s.signals, s.ports);
    }

    lemma ShapeAndStates(s: System)
      requires Numbered() && Represents(s)
      ensures SameShape(s) && SameStates(created, writers, s.objects, s.files)
    {
    }

    /** Opens the output file if that was not done already. */
    method EnsureWriter(ghost s: System) returns (ok: bool)
      requires Valid() && Represents(s)
      modifies this`writer, this`writers
      ensures Valid() && writer != null && (ok ==> Represents(OpenWriter(s, Settings())))
      ensures old(writer) != null ==> ok && writer == old(writer)
      ensures old(writer) == null ==>
                && fresh(writer) && fresh(writer.writer) && fresh(writer.writer.writer)
                    && fresh(writer.writer.writer.file)
                && writer.writer.writer.file.filename == filename
                && (ok ==> writer.View() == Opened(filename, OpeningText(preamble)).writer)
      ensures Cooperative(kernel) ==> ok
    {
      hide Represents, NumbersDiffer, Named, Opened, OpeningText, Cooperative;
      ok := true;
      if writer == null {
        var w;
        w, ok := OpenFile();
        if ok {
          Adopt(w, s);
        } else {
          writer, writers := w, writers + [w];
        }
      } else {
        RepresentedParts(s);
      }
    }

    lemma OpenedParts(name: string, text: string)
      ensures !Opened(name, text).closed && Opened(name, text).name == name
    {
    }

    /** Takes a new writer into use. */
    method Adopt(w: Writer, ghost s: System)
      requires Valid() && Represents(s) && writer == null && SeparateFrom(writers, w)
      requires w.writer.writer.file.filename == filename && w.View() == Opened(filename, OpeningText(preamble)).writer
      modifies this`writer, this`writers
      ensures Valid() && writer == w && Represents(OpenWriter(s, Settings()))
    {
      hide SameStates, SeparateFrom, Opened, OpeningText, MapOf, PortsOf, NumbersDiffer;
      OpenedParts(filename, OpeningText(preamble));
      assert signals == map[];
      WriterAdded(created, writers, s.objects, s.files, w, Opened(filename, OpeningText(preamble)));
      writer := w;
      writers := writers + [writer];
    }

    /** The two passes over the ports and the entries. */
    method UpdateEntries(ghost s: System)
      requires Valid() && Represents(s) && writer != null
      modifies this`signals, this`created
      ensures Valid()
      ensures Represents(AddMissing(s, s.ports).(signals := DropGone(AddMissing(s, s.ports).signals, s.ports)))
      ensures forall p :: p in signals <==> HasConnection(ports, p)
      ensures forall p :: p in signals && p in old(signals) ==> signals[p] == old(signals)[p]
      ensures forall p :: p in signals && p !in old(signals) ==> NewEntryFor(p)
    {
      hide Represents, Numbered, SameShape, SameStates, AddMissing;
      RepresentedParts(s);
      var connected := AddEntries(s);
      ShapeAndStates(AddMissing(s, s.ports));
      label added:
      EraseEntries(connected);
      AddMissingOnly(s, s.ports);
      Erased@added(AddMissing(s, s.ports));
    }

    /** On failure, where the opening metadata could not be written, the entries stay as they were. */
    method Reconfigure(ghost s: System) returns (ok: bool)
      requires Valid() && Represents(s)
      modifies this`writer, this`signals, this`created, this`writers
      ensures Valid()
      ensures ok ==> UpToDate() && Represents(Runs.Reconfigure(s, Settings()))
      ensures !ok ==>
                recordingActive && old(writer) == null && writer != null && fresh(writer)
                && signals == old(signals)
      ensures Cooperative(kernel) ==> ok
      ensures recordingActive && old(writer) != null ==> writer == old(writer)
      ensures ok && recordingActive && old(writer) == null ==>
                && fresh(writer) && fresh(writer.writer) && fresh(writer.writer.writer)
                    && fresh(writer.writer.writer.file)
                && writer.writer.writer.file.filename == filename
                && writer.View() == Opened(filename, OpeningText(preamble)).writer
      ensures forall p :: p in signals && p in old(signals) ==> signals[p] == old(signals)[p]
      ensures forall p :: p in signals && p !in old(signals) ==> HasConnection(ports, p) && NewEntryFor(p)
    {
      hide Represents, Numbered, Opened, OpeningText, AddMissing, DropGone, Cooperative;
      RepresentedParts(s);
      ok := true;
      if recordingActive {
        ok := EnsureWriter(s);
        if !ok {
          return;
        }
        UpdateEntries(OpenWriter(s, Settings()));
      } else {
        Detach(s);
      }
    }

    /** Without a recording there are no entries and no writer. */
    method Detach(ghost s: System)
      requires Valid() && Represents(s)
      modifies this`signals, this`writer
      ensures Valid() && signals == map[] && writer == null && Represents(s.(signals := map[], writer := None))
    {
      signals := map[];
      writer := null;
    }

    lemma CollectedToo(s: System)
      requires Numbered() && Represents(s)
      ensures Represents(Collect(s))
    {
      hide SamePorts, SameMap, Referenced, SameStates;
      WriterStaysOpen(s);
      StatesCollected(s);
      ShapeBut(s, Collect(s));
    }

    lemma WriterStaysOpen(s: System)
      requires Numbered() && SameWriter(s)
      ensures s.writer.Some? ==> !Collect(s).files[s.writer.value].closed
    {
      if s.writer.Some? {
        assert Referenced(s, s.writer.value);
      }
    }

    lemma StatesCollected(s: System)
      requires SameStates(created, writers, s.objects, s.files)
      ensures SameStates(created, writers, s.objects, Collect(s).files)
    {
    }

    /** The shape of a state depends on its ports, names, writer, map and the assignment of objects. */
    lemma ShapeBut(s: System, r: System)
      requires Numbered() && SameShape(s)
      requires r == s.(held := r.held, files := r.files, objects := r.objects)
      requires |r.files| == |s.files| && forall f :: 0 <= f < |s.files| ==> r.files[f].name == s.files[f].name
      requires s.writer.Some? ==> !r.files[s.writer.value].closed
      requires |r.objects| == |s.objects|
      requires forall o :: 0 <= o < |s.objects| ==>
                 r.objects[o].signal == s.objects[o].signal && r.objects[o].file == s.objects[o].file
      ensures SameShape(r)
    {
    }

    /** What every operation that ends in reconfigure() makes of a writer and entries from before:
        entries of ports that stay connected are the same objects, new ones are for the signal now
        connected, a writer in use stays, and a new one has written the opening metadata. */
    predicate Settled(before: Writer?, entries: map<InputPort, AdvancedRecorderSignal>, ok: bool)
      reads this, ports, signals.Values
      reads if writer != null then {writer, writer.writer, writer.writer.writer, writer.writer.writer.file} else {}
    {
      && (ok ==> UpToDate())
      && (recordingActive && before != null ==> writer == before)
      && (ok && recordingActive && before == null ==>
            writer != null && writer.writer.writer.file.filename == filename
                && writer.View() == Opened(filename, OpeningText(preamble)).writer)
      && (forall p :: p in signals && p in entries ==> signals[p] == entries[p])
      && (forall p :: p in signals && p !in entries ==>
            HasConnection(ports, p) && signals[p].signal == p.connection.value && signals[p].View() == NEW_SIGNAL)
    }

    /** reconfigure(), seen as the end of a step of the state machine. */
    method Settle(ghost s: System) returns (ok: bool)
      requires Valid() && Represents(s)
      modifies this`writer, this`signals, this`created, this`writers
      ensures Valid() && Numbered() && Settled(old(writer), old(signals), ok)
      ensures ok ==> Represents(Collect(Runs.Reconfigure(s, Settings())))
      ensures Cooperative(kernel) || !recordingActive ==> ok
      ensures recordingActive && ok ==> forall p :: HasConnection(ports, p) ==> p in signals
      ensures !recordingActive ==> writer == null && signals == map[]
    {
      hide Represents, Numbered, Collect, Runs.Reconfigure, Cooperative, Opened, OpeningText;
      ok := Reconfigure(s);
      if ok {
        CollectedToo(Runs.Reconfigure(s, Settings()));
      }
    }

    // ----- Recording -----

    method SetRecording(active: bool, ghost s: System)
      requires Valid() && Represents(s)
      modifies this`recordingActive
      ensures recordingActive == active && Valid() && Numbered() && Represents(s.(recording := active))
    {
      hide PortsOf, MapOf, SameStates, NumbersDiffer;
      recordingActive := active;
    }

    lemma RecordingStep(s: System)
      ensures Step(s, Start, Settings()) == Collect(Runs.Reconfigure(s.(recording := true), Settings()))
      ensures Step(s, Stop, Settings()) == Collect(Runs.Reconfigure(s.(recording := false), Settings()))
    {
    }

    method StartRecording(ghost s: System) returns (ok: bool)
      requires Valid() && Represents(s)
      modifies this`recordingActive, this`writer, this`signals, this`created, this`writers
      ensures recordingActive && Valid() && Numbered() && Settled(old(writer), old(signals), ok)
      ensures (Cooperative(kernel) ==> ok)
      ensures ok ==> Represents(Step(s, Start, Settings()))
    {
      hide Valid, Represents, Numbered, Settled, Step, Collect, Runs.Reconfigure;
      RecordingStep(s);
      SetRecording(true, s);
      ok := Settle(s.(recording := true));
    }

    method StopRecording(ghost s: System) returns (ok: bool)
      requires Valid() && Represents(s)
      modifies this`recordingActive, this`writer, this`signals, this`created, this`writers
      ensures !recordingActive && Valid() && Numbered() && Settled(old(writer), old(signals), ok) && ok
      ensures writer == null && signals == map[]
      ensures Represents(Step(s, Stop, Settings()))
    {
      hide Valid, Represents, Numbered, Settled, Step, Collect, Runs.Reconfigure;
      RecordingStep(s);
      SetRecording(false, s);
      ok := Settle(s.(recording := false));
    }

    /** A deactivated component stops recording. */
    method ActiveChanged(active: bool, ghost s: System)
      requires Valid() && Represents(s)
      modifies this`recordingActive, this`writer, this`signals, this`created, this`writers
      ensures Valid()
      ensures !active ==>
                !recordingActive && writer == null && signals == map[]
                && Represents(Step(s, Stop, Settings()))
      ensures active ==>
                recordingActive == old(recordingActive) && writer == old(writer) && signals == old(signals)
                && Represents(s)
    {
      hide Represents, Numbered;
      if !active {
        var _ := StopRecording(s);
      }
    }

    /** Writing the filename property reconfigures; a file already open keeps its name. */
    method FilenameWritten(name: string, ghost s: System) returns (ok: bool)
      requires Valid() && Represents(s)
      modifies this`filename, this`writer, this`signals, this`created, this`writers
      ensures filename == name && recordingActive == old(recordingActive)
      ensures Valid() && Numbered() && Settled(old(writer), old(signals), ok)
      ensures (Cooperative(kernel) || !recordingActive ==> ok)
      ensures ok ==> Represents(Step(s, Refresh(name), Settings()))
    {
      hide Valid, Represents, Numbered, Settled, Step, Collect, Runs.Reconfigure;
      RefreshStep(s, name);
      SetFilename(name, s);
      ok := Settle(s.(filename := name));
    }

    method SetFilename(name: string, ghost s: System)
      requires Valid() && Represents(s)
      modifies this`filename
      ensures filename == name && Valid() && Numbered() && Represents(s.(filename := name))
    {
      hide PortsOf, MapOf, SameStates, NumbersDiffer;
      filename := name;
    }

    lemma RefreshStep(s: System, name: string)
      ensures Step(s, Refresh(name), Settings()) == Collect(Runs.Reconfigure(s.(filename := name), Settings()))
    {
    }

    // ----- Connections -----

    /** Called after a signal was connected to a port: the ports are those of s but for that. */
    method OnConnected(port: InputPort, ghost s: System) returns (ok: bool)
      requires Valid() && port in portIds
      requires port in ports && port.connection.Some?
      requires Represents(s.(ports := SetConnection(s.ports, portIds[port], port.connection)))
      modifies this`portCount, this`ports, this`portIds, this`nextPort
      modifies this`writer, this`signals, this`created, this`writers
      ensures Valid() && Numbered() && Settled(old(writer), old(signals), ok)
      ensures (Cooperative(kernel) || !recordingActive ==> ok)
      ensures recordingActive && ok ==> port in signals
      ensures ok ==> port in portIds && Represents(Step(s, Connect(portIds[port], port.connection.value), Settings()))
      ensures |ports| == old(|ports|) + 1 && ports[..|ports| - 1] == old(ports)
      ensures fresh(ports[|ports| - 1]) && ports[|ports| - 1].connection == None
    {
      hide Valid, Represents, Numbered, Settled, Step, Collect, Runs.Reconfigure;
      PlugPort(port, s);
      ghost var t := Plug(s, portIds[port], port.connection.value);
      ConnectStep(s, portIds[port], port.connection.value);
      ok := Settle(t);
    }

    lemma ConnectStep(s: System, id: nat, signal: Signal)
      requires HasPort(s.ports, id)
      ensures Step(s, Connect(id, signal), Settings()) == Collect(Runs.Reconfigure(Plug(s, id, signal), Settings()))
    {
    }

    lemma DisconnectStep(s: System, id: nat)
      requires Connected(s.ports, id)
      ensures Step(s, Disconnect(id), Settings()) == Collect(Runs.Reconfigure(Unplug(s, id), Settings()))
    {
    }

    lemma PlugParts(s: System, id: nat, signal: Signal)
      ensures var mid := s.(ports := SetConnection(s.ports, id, Some(signal)));
              Plug(s, id, signal) == mid.(ports := mid.ports + [Port(mid.nextPort, None)], nextPort := mid.nextPort + 1)
    {
    }

    lemma PluggedPort(port: InputPort, s: System)
      requires Numbered() && port in ports
      requires Represents(s.(ports := SetConnection(s.ports, portIds[port], port.connection)))
      ensures HasPort(s.ports, portIds[port])
    {
      var i := IndexOf(ports, port);
      assert s.ports[i].id == portIds[port];
    }

    /** The port that is added for the next connection. */
    method PlugPort(port: InputPort, ghost s: System)
      requires Valid() && port in portIds
      requires port in ports && port.connection.Some?
      requires Represents(s.(ports := SetConnection(s.ports, portIds[port], port.connection)))
      modifies this`portCount, this`ports, this`portIds, this`nextPort
      ensures Valid() && Numbered() && port in portIds && portIds[port] == old(portIds)[port] && port in ports
      ensures Represents(Plug(s, portIds[port], port.connection.value)) && HasPort(s.ports, portIds[port])
      ensures |ports| == old(|ports|) + 1 && ports[..|ports| - 1] == old(ports)
      ensures fresh(ports[|ports| - 1]) && ports[|ports| - 1].connection == None
    {
      PluggedPort(port, s);
      PlugParts(s, portIds[port], port.connection.value);
      hide Represents, SetConnection, Plug;
      AddInputPort(s.(ports := SetConnection(s.ports, portIds[port], port.connection)));
      assert port in ports[..|ports| - 1];
    }

    /** The loop of onDisconnected: removes the last port while it and the one before it are free. */
    method TrimPorts()
      requires portCount == |ports| >= 1 && Named(ports)
      modifies this`portCount, this`ports
      ensures portCount == |ports| >= 1 && Named(ports)
      ensures Kept(Connections(old(ports))) == |ports| && ports == old(ports)[..|ports|]
    {
      hide Kept;
      ghost var before := ports;
      ghost var all := Connections(before);
      assert all[..portCount] == all;
      while portCount >= 2
        invariant 1 <= portCount <= |before| == |all| && ports == before[..portCount]
        invariant Kept(all) == Kept(all[..portCount])
        decreases portCount
      {
        KeptStep(all, portCount);
        if ports[portCount - 1].connection.Some? {
          break;
        }
        if ports[portCount - 2].connection.Some? {
          break;
        }
        portCount := portCount - 1;
        ports := ports[..portCount];
      }
      assert Kept(all[..portCount]) == portCount;
    }

    /** Called after the signal of a port was disconnected: the ports are those of s but for that. */
    method OnDisconnected(port: InputPort, ghost s: System) returns (ok: bool)
      requires Valid() && port in portIds
      requires Connected(s.ports, portIds[port]) && Represents(s.(ports := SetConnection(s.ports, portIds[port], None)))
      modifies this`portCount, this`ports, this`writer, this`signals, this`created, this`writers
      ensures Valid() && Numbered() && Settled(old(writer), old(signals), ok)
      ensures (Cooperative(kernel) || !recordingActive ==> ok)
      ensures ok ==> Represents(Step(s, Disconnect(portIds[port]), Settings()))
      ensures |ports| <= old(|ports|) && ports == old(ports)[..|ports|]
      ensures LastFree(Connections(old(ports))) ==> TrimmedTo(old(ports), |ports|)
    {
      hide *;
      DisconnectStep(s, portIds[port]);
      UnplugPorts(port, s);
      ok := Settle(Unplug(s, portIds[port]));
    }

    method UnplugPorts(port: InputPort, ghost s: System)
      requires Valid() && port in portIds && Represents(s.(ports := SetConnection(s.ports, portIds[port], None)))
      modifies this`portCount, this`ports
      ensures Valid() && Numbered() && Represents(Unplug(s, portIds[port]))
      ensures |ports| <= old(|ports|) && ports == old(ports)[..|ports|]
      ensures LastFree(Connections(old(ports))) ==> TrimmedTo(old(ports), |ports|)
    {
      hide MapOf, PortsOf, SameStates, NumbersDiffer, Kept, TrimmedTo, LastFree, SetConnection;
      if LastFree(Connections(ports)) {
        KeptIsTrimmedTo(ports);
      }
      PortsTrimmed(ports, portIds, SetConnection(s.ports, portIds[port], None));
      TrimPorts();
    }

    // ----- Packets -----

    /** Finding a signal object, delivering through it and letting it go are steps that leave ports,
        writer and map as they are. */
    lemma DeliveryLeavesMap(s: System, e: Event)
      requires Numbered() && SameShape(s) && (e.Find? || e.Arrive? || e.Release?)
      ensures SameShape(Step(s, e, Settings()))
    {
      hide SameShape;
      var r := Step(s, e, Settings());
      DeliveryShape(s, e);
      ShapeBut(s, r);
    }

    lemma DeliveryShape(s: System, e: Event)
      requires Numbered() && SameShape(s) && (e.Find? || e.Arrive? || e.Release?)
      ensures var r := Step(s, e, Settings());
              && r == s.(held := r.held, files := r.files, objects := r.objects)
              && |r.files| == |s.files| && (forall f :: 0 <= f < |s.files| ==> r.files[f].name == s.files[f].name)
              && (s.writer.Some? ==> s.writer.value < |s.files| && !r.files[s.writer.value].closed)
              && |r.objects| == |s.objects|
              && forall o :: 0 <= o < |s.objects| ==>
                   r.objects[o].signal == s.objects[o].signal && r.objects[o].file == s.objects[o].file
    {
      hide ReceiveIn, SamePorts, SameMap;
      if e.Arrive? {
        ArriveKeepsNames(s, e);
      } else if s.writer.Some? {
        if e.Find? && e.port in s.signals {
          assert Referenced(s.(held := s.held[e.thread := s.signals[e.port]]), s.writer.value);
        } else if e.Release? {
          assert Referenced(s.(held := s.held - {e.thread}), s.writer.value);
        }
      }
    }

    lemma ArriveKeepsNames(s: System, e: Event)
      requires e.Arrive?
      ensures var r := Step(s, e, Settings());
              |r.files| == |s.files| && forall f :: 0 <= f < |s.files| ==>
                          r.files[f].name == s.files[f].name && r.files[f].closed == s.files[f].closed
    {
      if e.thread in s.held && s.held[e.thread] < |s.objects| && s.objects[s.held[e.thread]].file < |s.files| {
        var o := s.held[e.thread];
        var obj := s.objects[o];
        ReceiveInKeeps(s.files[obj.file], o, obj.state, Labels(obj.signal, e.uuid, 0), e.packet, native);
      }
    }

    method FindSignal(port: InputPort, ghost s: System) returns (signal: AdvancedRecorderSignal?)
      requires Valid() && Represents(s)
      ensures port in signals ==> signal == signals[port]
      ensures port !in signals ==> signal == null
      ensures port in portIds ==> (signal != null <==> portIds[port] in s.signals)
      ensures signal != null ==> s.signals[portIds[port]] < |created| && created[s.signals[portIds[port]]] == signal
    {
      signal := if port in signals then signals[port] else null;
    }

    lemma EntryByNumber(port: InputPort, s: System)
      requires Valid() && Represents(s) && port in signals
      ensures port in portIds && portIds[port] in s.signals
      ensures var o := s.signals[portIds[port]];
              && o < |created| == |s.objects| && created[o] == signals[port]
                  && s.objects[o].signal == signals[port].signal
              && signals[port].testId == 0 && s.objects[o].state == signals[port].View()
              && s.objects[o].file < |writers| == |s.files| && writers[s.objects[o].file] == signals[port].writer
              && s.writer == Some(s.objects[o].file)
              && !s.files[s.objects[o].file].closed
              && s.files[s.objects[o].file].writer == signals[port].writer.View()
    {
      hide PortsOf, Step;
      var o := s.signals[portIds[port]];
      OneWriter(s.objects[o].file, s.writer.value, created, writers);
    }

    /** What is new in the queue of a port does not matter to the shape. */
    twostate lemma ShapeStays(s: System)
      requires old(Numbered()) && old(SameShape(s)) && unchanged(this)
      requires forall i :: 0 <= i < |ports| ==> ports[i].connection == old(ports[i].connection)
      ensures Numbered() && SameShape(s)
    {
      hide MapOf, NumbersDiffer;
    }

    lemma FoundStates(s: System, thread: nat, id: nat)
      requires Numbered() && Represents(s)
      ensures var r := Step(s, Find(thread, id), Settings());
              SameShape(r) && SameStates(created, writers, r.objects, r.files)
      ensures var r := Step(s, Release(thread), Settings());
              SameShape(r) && SameStates(created, writers, r.objects, r.files)
    {
      hide SameShape, SameStates;
      ShapeAndStates(s);
      DeliveryLeavesMap(s, Find(thread, id));
      DeliveryLeavesMap(s, Release(thread));
      if id in s.signals {
        StatesCollected(s.(held := s.held[thread := s.signals[id]]));
      }
      StatesCollected(s.(held := s.held - {thread}));
    }

    /** What the delivery of a queue will come to, for signal object o and file f. */
    ghost predicate Expects(port: InputPort, s: System, r: System, o: nat, f: nat, state: SignalState, file: FileState)
      requires Numbered()
      reads this, ports, created, writers, (set w | w in writers :: w.writer),
        (set w | w in writers :: w.writer.writer),
        (set w | w in writers :: w.writer.writer.file)
    {
      && port in signals && o < |created| && f < |writers|
      && created[o] == signals[port] && writers[f] == signals[port].writer
      && SameStates(created, writers, s.objects, s.files) && SameShape(r)
      && r.objects == s.objects[o := s.objects[o].(state := state)] && r.files == s.files[f := file]
    }

    lemma BeforeDelivery(port: InputPort, s: System, thread: nat, queue: seq<Incoming>)
      returns (o: nat, f: nat, state: SignalState, file: FileState)
      requires Valid() && Represents(s) && port in signals && thread !in s.held
      ensures port in portIds
      ensures var found := Step(s, Find(thread, portIds[port]), Settings());
              Expects(port, found, Steps(found, Arrivals(thread, queue), Settings()), o, f, state, file)
      ensures (state, file.writer)
           == ReceiveQueue(signals[port].View(), signals[port].writer.View(), signals[port].signal,
                           signals[port].testId, queue, native)
      ensures OthersDiffer(created, writers, o, f) && created[o] == signals[port] && writers[f] == signals[port].writer
    {
      hide Step, Steps, SameShape, SameStates, Represents, ReceiveQueue, Arrivals;
      EntryByNumber(port, s);
      FoundStates(s, thread, portIds[port]);
      FindHolds(s, thread, portIds[port], Settings());
      o := s.signals[portIds[port]];
      f := s.objects[o].file;
      var found := Step(s, Find(thread, portIds[port]), Settings());
      state, file := QueueArrives(found, thread, o, queue, Settings());
      OpenWriterOf(s, thread, portIds[port]);
      OthersApart(created, writers, found.objects, found.files, o, f);
      ShapeBut(found, Steps(found, Arrivals(thread, queue), Settings()));
    }

    lemma OpenWriterOf(s: System, thread: nat, id: nat)
      requires Numbered() && Represents(s)
      ensures var r := Step(s, Find(thread, id), Settings());
              r.writer == s.writer && (r.writer.Some? ==> r.writer.value < |r.files| && !r.files[r.writer.value].closed)
    {
      hide SameStates, PortsOf, MapOf;
      DeliveryShape(s, Find(thread, id));
    }

    /** After the packets were handed over, the recorder represents the state the delivery leads to. */
    twostate lemma AfterDelivery(port: InputPort, new s: System, new r: System, new o: nat, new f: nat,
                                 new state: SignalState,
                                 new file: FileState, new thread: nat)
      requires unchanged(this) && old(Numbered()) && old(Expects(port, s, r, o, f, state, file))
      requires forall i :: 0 <= i < |ports| ==> ports[i].connection == old(ports[i].connection)
      requires forall p :: 0 <= p < |created| && p != o ==> unchanged(created[p])
      requires forall g :: 0 <= g < |writers| && g != f ==>
                 unchanged(writers[g]) && unchanged(writers[g].writer) && unchanged(writers[g].writer.writer.file)
      requires signals[port].View() == state && signals[port].writer.View() == file.writer
      ensures Numbered() && Represents(Step(r, Release(thread), Settings()))
    {
      hide SameShape, Step;
      ShapeStays(r);
      assert SameStates(created, writers, r.objects, r.files);
      assert Represents(r);
      FoundStates(r, thread, 0);
    }

    /** The file of the signal object takes everything that is written to it. */
    ghost predicate WriterCooperates(port: InputPort)
      requires port in signals
      reads this
    {
      Cooperative(signals[port].writer.writer.writer.file.kernel)
    }

    /** The queue of the port was handed to the signal object, packet by packet. */
    ghost predicate Handed(signal: AdvancedRecorderSignal, state: SignalState, w: WriterState, port: InputPort,
                           queue: seq<Incoming>)
      reads port, signal, signal.writer, signal.writer.writer, signal.writer.writer.writer
      reads signal.writer.writer.writer.file
    {
      && port.queue == []
      && (signal.View(), signal.writer.View()) == ReceiveQueue(state, w, signal.signal, signal.testId, queue, native)
    }

    /** Takes every packet out of the queue of a connected port and hands it to the port's signal
        object, if there is one. Seen as steps: the object is found, the packets arrive, it is let go. */
    method OnPacketReceived(port: InputPort, ghost s: System, ghost thread: nat) returns (ok: bool)
      requires Valid() && Represents(s) && port in portIds && thread !in s.held
      modifies port`queue
      modifies if port in signals then
                 {signals[port], signals[port].writer, signals[port].writer.writer,
                  signals[port].writer.writer.writer.file}
               else {}
      ensures Numbered() && portIds == old(portIds)
      ensures port.connection.None? ==> ok && port.queue == old(port.queue)
      ensures port.connection.Some? && port !in signals ==> ok && port.queue == []
      ensures port.connection.Some? && port in signals && WriterCooperates(port) ==>
                ok && Handed(signals[port], old(signals[port].View()), old(signals[port].writer.View()), port,
                             old(port.queue))
      ensures port.connection.Some? && (port in signals ==> WriterCooperates(port)) ==>
                Represents(Steps(s, Delivery(thread, portIds[port], old(port.queue)), Settings()))
    {
      hide Valid, Represents, Numbered, Steps, Step, Expects, ReceiveQueue, Delivery, Arrivals, Cooperative;
      ValidIsNumbered();
      var signal := FindSignal(port, s);
      ok := true;
      if port.connection.None? {
        return;
      }
      if signal != null {
        ok := DeliverTo(port, s, thread);
      } else {
        DropAll(port, s, thread);
      }
    }

    /** Hands the queue of a port to its signal object. */
    method DeliverTo(port: InputPort, ghost s: System, ghost thread: nat) returns (ok: bool)
      requires Valid() && Represents(s) && port in portIds && port in signals && thread !in s.held
      modifies port`queue, signals[port]
      modifies signals[port].writer, signals[port].writer.writer, signals[port].writer.writer.writer.file
      ensures Numbered()
      ensures WriterCooperates(port) ==>
                ok && Handed(signals[port], old(signals[port].View()), old(signals[port].writer.View()), port,
                             old(port.queue))
      ensures WriterCooperates(port) ==>
                Represents(Steps(s, Delivery(thread, portIds[port], old(port.queue)), Settings()))
    {
      hide Valid, Represents, Numbered, Steps, Step, Expects, ReceiveQueue, Delivery, Arrivals, Cooperative;
      ValidIsNumbered();
      ghost var o, f, state, file := BeforeDelivery(port, s, thread, port.queue);
      DeliveryParts(s, thread, portIds[port], port.queue, Settings());
      ok := Drain(port, signals[port]);
      if WriterCooperates(port) {
        ghost var found := Step(s, Find(thread, portIds[port]), Settings());
        AfterDelivery(port, found, Steps(found, Arrivals(thread, old(port.queue)), Settings()), o, f, state, file,
                      thread);
      }
    }

    /** Empties the queue of a port without an entry. */
    method DropAll(port: InputPort, ghost s: System, ghost thread: nat)
      requires Valid() && Represents(s) && port in portIds && port !in signals && thread !in s.held
      modifies port`queue
      ensures Numbered() && port.queue == []
      ensures Represents(Steps(s, Delivery(thread, portIds[port], old(port.queue)), Settings()))
    {
      hide Valid, Represents, Numbered, Steps, Step, Delivery, Arrivals;
      ValidIsNumbered();
      var _ := Drain(port, null);
      NothingDelivered(port, s, thread, old(port.queue));
    }

    lemma ValidIsNumbered()
      requires Valid()
      ensures Numbered()
    {
    }

    /** The loop of onPacketReceived: takes packets out of the queue until it is empty. */
    method Drain(port: InputPort, signal: AdvancedRecorderSignal?) returns (ok: bool)
      modifies port`queue
      modifies if signal != null then {signal, signal.writer, signal.writer.writer, signal.writer.writer.writer.file}
          else {}
      ensures signal == null ==> ok && port.queue == []
      ensures signal != null && Cooperative(signal.writer.writer.writer.file.kernel) ==>
                ok && Handed(signal, old(signal.View()), old(signal.writer.View()), port, old(port.queue))
    {
      hide Receive, Cooperative;
      ok := true;
      while ok && port.queue != []
        invariant signal == null ==> ok
        invariant signal != null && Cooperative(signal.writer.writer.writer.file.kernel) ==>
                    ok && ReceiveQueue(signal.View(), signal.writer.View(), signal.signal, signal.testId, port.queue,
                                       native)
                       == ReceiveQueue(old(signal.View()), old(signal.writer.View()), signal.signal, signal.testId,
                                       old(port.queue), native)
        decreases |port.queue|, ok
      {
        var incoming := port.queue[0];
        port.queue := port.queue[1..];
        if signal != null && incoming.DataPacket? {
          ok := signal.OnDataPacketReceived(incoming.packet, incoming.uuid, native);
        }
      }
    }

    /** Packets of a port without an entry go nowhere. */
    twostate lemma NothingDelivered(port: InputPort, new s: System, new thread: nat, new queue: seq<Incoming>)
      requires old(Valid()) && old(Represents(s)) && unchanged(this) && port in portIds && port !in signals
      requires thread !in s.held
      requires forall i :: 0 <= i < |ports| ==> ports[i].connection == old(ports[i].connection)
      requires forall p :: 0 <= p < |created| ==> unchanged(created[p])
      requires forall g :: 0 <= g < |writers| ==> unchanged(writers[g])
      requires forall g :: 0 <= g < |writers| ==> unchanged(writers[g].writer)
      requires forall g :: 0 <= g < |writers| ==> unchanged(writers[g].writer.writer.file)
      ensures Numbered() && Represents(Steps(s, Delivery(thread, portIds[port], queue), Settings()))
    {
      hide SameShape, Step, Steps;
      ShapeStays(s);
      assert SameStates(created, writers, s.objects, s.files);
      assert Represents(s);
      NoEntry(port, s);
      FindNothing(s, thread, portIds[port], Settings());
      NothingArrives(s, thread, queue, Settings());
      DeliveryParts(s, thread, portIds[port], queue, Settings());
      FoundStates(s, thread, 0);
    }

    lemma NoEntry(port: InputPort, s: System)
      requires Numbered() && SameShape(s) && port in portIds && port !in signals
      ensures portIds[port] !in s.signals
    {
    }
  }

  lemma FindNothing(s: System, thread: nat, id: nat, cfg: Config)
    requires id !in s.signals
    ensures Step(s, Find(thread, id), cfg) == s
  {
  }

  ghost predicate OthersDiffer(created: seq<AdvancedRecorderSignal>, writers: seq<Writer>, o: nat, f: nat) {
    && o < |created| && f < |writers|
    && (forall p :: 0 <= p < |created| && p != o ==> created[p] != created[o])
    && (forall g :: 0 <= g < |writers| && g != f ==>
          && writers[g] != writers[f] && writers[g].writer != writers[f].writer
          && writers[g].writer.writer.file != writers[f].writer.writer.file)
  }

  lemma OthersApart(created: seq<AdvancedRecorderSignal>, writers: seq<Writer>, objects: seq<Object>,
                    files: seq<FileState>, o: nat, f: nat)
    requires SameStates(created, writers, objects, files) && o < |created| && f < |writers|
    ensures OthersDiffer(created, writers, o, f)
  {
    forall g | 0 <= g < |writers| && g != f
      ensures writers[g] != writers[f] && writers[g].writer != writers[f].writer
      ensures writers[g].writer.writer.file != writers[f].writer.writer.file
    {
      var low, high := if g < f then g else f, if g < f then f else g;
      assert SeparateFrom(writers[..high], writers[high]);
      assert writers[..high][low] == writers[low];
    }
  }

  lemma OneWriter(f: nat, g: nat, created: seq<AdvancedRecorderSignal>, writers: seq<Writer>)
    requires Separate(created, writers) && f < |writers| && g < |writers| && writers[f] == writers[g]
    ensures f == g
  {
    forall a, b | 0 <= a < b < |writers| ensures writers[a] != writers[b] {
      assert SeparateFrom(writers[..b], writers[b]);
      assert writers[..b][a] == writers[a];
    }
  }

  ghost function IndexOf<T>(s: seq<T>, x: T): (i: nat)
    requires x in s
    ensures i < |s| && s[i] == x
  {
    var i :| 0 <= i < |s| && s[i] == x;
    i
  }
}
