/** The recorder as a state machine: connections, start and stop, and packet deliveries that hold a
    shared reference to a signal object while the configuration changes around them. */
module Runs {
  import opened Bytes
  import opened Descriptors
  import opened Handlers
  import opened FileLog
  import opened Ports

  /** The byte order of the machine and the metadata preamble. */
  datatype Config = Config(native: Endian, preamble: string)

  /** An AdvancedRecorderSignal: the file its writer belongs to, its signal and its handler state. */
  datatype Object = Object(file: nat, signal: Signal, state: SignalState)

  /** The filename property, and by number every file ever opened and every signal object ever created.
      The recorder refers to one writer and maps ports to signal objects; a delivery in progress holds a
      signal object. */
  datatype System = System(
    recording: bool,
    filename: string,
    ports: seq<Port>,
    nextPort: nat,
    writer: Option<nat>,
    files: seq<FileState>,
    signals: map<nat, nat>,
    objects: seq<Object>,
    held: map<nat, nat>)

  datatype Event =
    | Connect(port: nat, signal: Signal)
    | Disconnect(port: nat)
    | Start
    | Stop
    | Refresh(name: string)
    | Find(thread: nat, port: nat)
    | Arrive(thread: nat, packet: Packet, uuid: string)
    | Release(thread: nat)

  const INITIAL := System(false, "", [Port(0, None)], 1, None, [], map[], [], map[])

  // ----- Who refers to what -----

  ghost predicate Alive(s: System, o: nat) {
    o in s.signals.Values || o in s.held.Values
  }

  /** Some owner still refers to the writer of file f. */
  ghost predicate Referenced(s: System, f: nat) {
    s.writer == Some(f) || exists o :: 0 <= o < |s.objects| && Alive(s, o) && s.objects[o].file == f
  }

  /** Writers without a referrer are destroyed: they emit the closing index block. */
  ghost function Collect(s: System): System {
    s.(files := seq(|s.files|, f requires 0 <= f < |s.files| =>
                      if s.files[f].closed || Referenced(s, f) then s.files[f] else Close(s.files[f])))
  }

  // ----- reconfigure() -----

  function OpenWriter(s: System, cfg: Config): System {
    if s.writer.Some? then s
    else s.(writer := Some(|s.files|), files := s.files + [Opened(s.filename, OpeningText(cfg.preamble))])
  }

  /** Creates a signal object for a connected port that has none. */
  function AddFirst(s: System, p: Port): System
    requires s.writer.Some?
  {
    if p.connection.Some? && p.id !in s.signals then
      s.(signals := s.signals[p.id := |s.objects|],
         objects := s.objects + [Object(s.writer.value, p.connection.value, NEW_SIGNAL)])
    else s
  }

  function AddMissing(s: System, ports: seq<Port>): System
    requires s.writer.Some?
    decreases |ports|
  {
    if ports == [] then s else AddMissing(AddFirst(s, ports[0]), ports[1..])
  }

  /** Drops the entries of ports that are gone or no longer connected. */
  ghost function DropGone(signals: map<nat, nat>, ports: seq<Port>): map<nat, nat> {
    map id | id in signals && Connected(ports, id) :: signals[id]
  }

  ghost function Reconfigure(s: System, cfg: Config): System {
    if s.recording then
      var added := AddMissing(OpenWriter(s, cfg), s.ports);
      added.(signals := DropGone(added.signals, s.ports))
    else s.(signals := map[], writer := None)
  }

  // ----- Steps -----

  /** A signal is connected, and onConnected adds a port. */
  function Plug(s: System, port: nat, signal: Signal): System {
    s.(ports := SetConnection(s.ports, port, Some(signal)) + [Port(s.nextPort, None)], nextPort := s.nextPort + 1)
  }

  /** A signal is disconnected, and onDisconnected trims the ports. */
  function Unplug(s: System, port: nat): System {
    s.(ports := Trimmed(SetConnection(s.ports, port, None)))
  }

  ghost function Step(s: System, e: Event, cfg: Config): System {
    match e
    case Connect(port, signal) =>
      if !HasPort(s.ports, port) then s else Collect(Reconfigure(Plug(s, port, signal), cfg))
    case Disconnect(port) =>
      if !Connected(s.ports, port) then s else Collect(Reconfigure(Unplug(s, port), cfg))
    case Start => Collect(Reconfigure(s.(recording := true), cfg))
    case Stop => Collect(Reconfigure(s.(recording := false), cfg))
    case Refresh(name) => Collect(Reconfigure(s.(filename := name), cfg))
    case Find(thread, port) =>
      if port in s.signals then Collect(s.(held := s.held[thread := s.signals[port]])) else s
    case Arrive(thread, packet, uuid) =>
      if thread in s.held && s.held[thread] < |s.objects| && s.objects[s.held[thread]].file < |s.files| then
        var o := s.held[thread];
        var obj := s.objects[o];
        var (state, file) := ReceiveIn(s.files[obj.file], o, obj.state, Labels(obj.signal, uuid, 0), packet,
                                       cfg.native);
        s.(objects := s.objects[o := obj.(state := state)], files := s.files[obj.file := file])
      else s
    case Release(thread) => Collect(s.(held := s.held - {thread}))
  }

  ghost function Run(events: seq<Event>, cfg: Config): System {
    if events == [] then INITIAL else Step(Run(events[..|events| - 1], cfg), events[|events| - 1], cfg)
  }

  // ----- The invariant -----

  /** The writer in use and the objects anyone may write through belong to open files. */
  ghost predicate RefsInv(s: System) {
    && (s.writer.Some? ==> s.writer.value < |s.files| && !s.files[s.writer.value].closed)
    && (forall id :: id in s.signals ==> s.signals[id] < |s.objects| && s.writer == Some(s.objects[s.signals[id]].file))
    && (forall t :: t in s.held ==> s.held[t] < |s.objects|)
    && (forall o :: 0 <= o < |s.objects| ==> s.objects[o].file < |s.files|)
    && (forall t :: t in s.held ==> !s.files[s.objects[s.held[t]].file].closed)
  }

  ghost predicate FilesInOrder(files: seq<FileState>, native: Endian) {
    forall f :: 0 <= f < |files| ==> FileInv(files[f], native)
  }

  ghost predicate ObjectsBound(files: seq<FileState>, objects: seq<Object>) {
    forall o :: 0 <= o < |objects| && objects[o].file < |files| ==>
             SignalBound(files[objects[o].file].log, o, objects[o].state)
  }

  ghost predicate FilesInv(s: System, native: Endian) {
    FilesInOrder(s.files, native) && ObjectsBound(s.files, s.objects)
  }

  /** The map has exactly the connected ports while recording and is empty otherwise. */
  ghost predicate MapInv(s: System) {
    && (s.recording <==> s.writer.Some?)
    && (forall id :: id in s.signals <==> s.recording && Connected(s.ports, id))
  }

  /** A file is closed exactly when nothing refers to its writer any more. */
  ghost predicate ClosedInv(s: System) {
    forall f :: 0 <= f < |s.files| ==> (s.files[f].closed <==> !Referenced(s, f))
  }

  ghost predicate Inv(s: System, native: Endian) {
    RefsInv(s) && FilesInv(s, native) && MapInv(s) && ClosedInv(s) && PortsInv(s.ports, s.nextPort)
  }

  lemma InitialInv(native: Endian)
    ensures Inv(INITIAL, native)
  {
    assert Flags(INITIAL.ports) == [false];
  }

  // ----- Collecting -----

  lemma ReferencedIsOpen(s: System, f: nat)
    requires RefsInv(s) && f < |s.files| && Referenced(s, f)
    ensures !s.files[f].closed
  {
    if s.writer != Some(f) {
      var o :| 0 <= o < |s.objects| && Alive(s, o) && s.objects[o].file == f;
      var t :| t in s.held && s.held[t] == o;
    }
  }

  lemma CollectReferenced(s: System, f: nat)
    ensures Referenced(Collect(s), f) <==> Referenced(s, f)
  {
    var c := Collect(s);
    forall o ensures Alive(c, o) <==> Alive(s, o) {
    }
  }

  lemma HeldIsReferenced(s: System, t: nat)
    requires t in s.held && s.held[t] < |s.objects|
    ensures Referenced(s, s.objects[s.held[t]].file)
  {
    assert Alive(s, s.held[t]);
  }

  /** Collection closes what nobody refers to and leaves everything else alone. */
  lemma CollectInv(s: System, native: Endian)
    requires RefsInv(s) && FilesInv(s, native) && MapInv(s) && PortsInv(s.ports, s.nextPort)
    ensures Inv(Collect(s), native)
  {
    hide FileInv, SignalBound, PortsInv, Connected;
    var c := Collect(s);
    forall f | 0 <= f < |s.files|
      ensures FileInv(c.files[f], native) && c.files[f].log == s.files[f].log
      ensures c.files[f].closed <==> !Referenced(c, f)
    {
      CollectReferenced(s, f);
      if Referenced(s, f) {
        ReferencedIsOpen(s, f);
      }
      if !s.files[f].closed && !Referenced(s, f) {
        CloseInv(s.files[f], native);
      }
    }
    forall t | t in c.held ensures !c.files[c.objects[c.held[t]].file].closed {
      HeldIsReferenced(s, t);
    }
    if c.writer.Some? {
      assert Referenced(s, s.writer.value);
    }
  }

  // ----- Reconfiguring -----

  lemma OpenedIsOpen(name: string, text: string)
    ensures !Opened(name, text).closed
  {
  }

  lemma OpenWriterInv(s: System, cfg: Config)
    requires RefsInv(s) && FilesInv(s, cfg.native)
    ensures var r := OpenWriter(s, cfg);
            && RefsInv(r) && FilesInv(r, cfg.native) && r.writer.Some?
            && s.files <= r.files && (s.writer.Some? ==> r == s)
            && r == s.(writer := r.writer, files := r.files)
  {
    hide FileInv, Opened, OpeningText, SignalBound;
    OpenedInv(s.filename, OpeningText(cfg.preamble), cfg.native);
    OpenedIsOpen(s.filename, OpeningText(cfg.preamble));
  }

  /** Where a signal object of a new entry comes from. */
  ghost predicate NewEntry(s: System, r: System, ports: seq<Port>, id: nat) {
    && id in r.signals && |s.objects| <= r.signals[id] < |r.objects|
    && r.objects[r.signals[id]].state == NEW_SIGNAL
    && ConnectedTo(ports, id, r.objects[r.signals[id]].signal)
  }

  /** Every connected port gets an entry; entries that exist are not touched. */
  ghost predicate Added(s: System, r: System, ports: seq<Port>) {
    && r == s.(signals := r.signals, objects := r.objects)
    && s.objects <= r.objects
    && (forall id :: id in s.signals ==> id in r.signals && r.signals[id] == s.signals[id])
    && (forall id :: id in r.signals && id !in s.signals ==> NewEntry(s, r, ports, id))
    && (forall id :: Connected(ports, id) ==> id in r.signals)
  }

  lemma ConnectedParts(ports: seq<Port>, id: nat)
    requires ports != []
    ensures Connected(ports, id) <==> (ports[0].id == id && ports[0].connection.Some?) || Connected(ports[1..], id)
  {
    if Connected(ports, id) {
      var i :| 0 <= i < |ports| && ports[i].id == id && ports[i].connection.Some?;
      if i > 0 {
        assert ports[1..][i - 1] == ports[i];
      }
    }
    if Connected(ports[1..], id) {
      var i :| 0 <= i < |ports[1..]| && ports[1..][i].id == id && ports[1..][i].connection.Some?;
      assert ports[i + 1].id == id;
    }
  }

  lemma ConnectedToTail(ports: seq<Port>, id: nat, signal: Signal)
    requires ports != []
    ensures ConnectedTo(ports[1..], id, signal) ==> ConnectedTo(ports, id, signal)
    ensures ports[0].id == id && ports[0].connection == Some(signal) ==> ConnectedTo(ports, id, signal)
  {
    if ConnectedTo(ports[1..], id, signal) {
      var i :| 0 <= i < |ports[1..]| && ports[1..][i].id == id && ports[1..][i].connection == Some(signal);
      assert ports[i + 1].id == id;
    }
  }

  lemma AddFirstBound(files: seq<FileState>, objects: seq<Object>, file: nat, signal: Signal)
    requires ObjectsBound(files, objects)
    ensures ObjectsBound(files, objects + [Object(file, signal, NEW_SIGNAL)])
  {
    var more := objects + [Object(file, signal, NEW_SIGNAL)];
    forall o | 0 <= o < |more| && more[o].file < |files| ensures SignalBound(files[more[o].file].log, o,
        more[o].state) {
      if o < |objects| {
        assert more[o] == objects[o];
      }
    }
  }

  lemma AddFirstInv(s: System, p: Port, native: Endian)
    requires RefsInv(s) && FilesInv(s, native) && s.writer.Some?
    ensures RefsInv(AddFirst(s, p)) && FilesInv(AddFirst(s, p), native) && AddFirst(s, p).writer.Some?
  {
    if p.connection.Some? && p.id !in s.signals {
      AddFirstBound(s.files, s.objects, s.writer.value, p.connection.value);
      AddFirstRefs(s, p.id, Object(s.writer.value, p.connection.value, NEW_SIGNAL));
    }
  }

  lemma AddFirstRefs(s: System, id: nat, obj: Object)
    requires RefsInv(s) && s.writer == Some(obj.file)
    ensures RefsInv(s.(signals := s.signals[id := |s.objects|], objects := s.objects + [obj]))
  {
    var r := s.(signals := s.signals[id := |s.objects|], objects := s.objects + [obj]);
    forall x | x in r.signals ensures r.signals[x] < |r.objects| && r.writer == Some(r.objects[r.signals[x]].file) {
      assert x != id ==> r.objects[r.signals[x]] == s.objects[s.signals[x]];
    }
    forall t | t in r.held ensures r.objects[r.held[t]] == s.objects[s.held[t]] {
    }
  }

  lemma AddedStep(s: System, mid: System, r: System, ports: seq<Port>)
    requires ports != [] && s.writer.Some? && mid == AddFirst(s, ports[0]) && Added(mid, r, ports[1..])
    ensures Added(s, r, ports)
  {
    forall id | id in r.signals && id !in s.signals ensures NewEntry(s, r, ports, id) {
      if id in mid.signals {
        assert r.signals[id] == |s.objects| && r.objects[|s.objects|] == mid.objects[|s.objects|];
        ConnectedToTail(ports, id, ports[0].connection.value);
      } else {
        assert NewEntry(mid, r, ports[1..], id);
        ConnectedToTail(ports, id, r.objects[r.signals[id]].signal);
      }
    }
    forall id | Connected(ports, id) ensures id in r.signals {
      ConnectedParts(ports, id);
    }
  }

  lemma {:induction false} AddMissingOnly(s: System, ports: seq<Port>)
    requires s.writer.Some?
    ensures AddMissing(s, ports) == s.(signals := AddMissing(s, ports).signals, objects := AddMissing(s, ports).objects)
    decreases |ports|
  {
    if ports != [] {
      AddMissingOnly(AddFirst(s, ports[0]), ports[1..]);
    }
  }

  /** The ports are gone through one after the other. */
  lemma {:induction false} AddMissingLast(s: System, ports: seq<Port>, p: Port)
    requires s.writer.Some?
    ensures AddMissing(s, ports).writer.Some? && AddMissing(s, ports + [p]) == AddFirst(AddMissing(s, ports), p)
    decreases |ports|
  {
    AddMissingOnly(s, ports);
    if ports == [] {
      assert ([] + [p])[1..] == [];
    } else {
      assert (ports + [p])[1..] == ports[1..] + [p];
      AddMissingLast(AddFirst(s, ports[0]), ports[1..], p);
    }
  }

  lemma {:induction false} AddMissingInv(s: System, ports: seq<Port>, native: Endian)
    requires RefsInv(s) && FilesInv(s, native) && s.writer.Some?
    ensures var r := AddMissing(s, ports);
            RefsInv(r) && FilesInv(r, native) && Added(s, r, ports)
    decreases |ports|
  {
    if ports != [] {
      var mid := AddFirst(s, ports[0]);
      AddFirstInv(s, ports[0], native);
      AddMissingInv(mid, ports[1..], native);
      assert AddMissing(s, ports) == AddMissing(mid, ports[1..]);
      AddedStep(s, mid, AddMissing(s, ports), ports);
    }
  }

  /** What reconfigure() does to the map: its keys become exactly the connected ports, entries of
      ports that stay connected keep their object, new entries get a new object for the signal
      connected to their port and share the writer in use; without a recording nothing remains. */
  ghost predicate Reconfigured(s: System, r: System) {
    && r == s.(writer := r.writer, files := r.files, signals := r.signals, objects := r.objects)
    && s.objects <= r.objects && s.files <= r.files
    && (s.recording && s.writer.Some? ==> r.writer == s.writer)
    && (s.recording ==> forall id :: id in s.signals && Connected(s.ports, id) ==>
         id in r.signals && r.signals[id] == s.signals[id])
    && (s.recording ==> forall id :: id in r.signals && id !in s.signals ==> NewEntry(s, r, s.ports, id))
  }

  /** From the map with all connected ports to the one without the others. */
  lemma DroppedInv(s: System, open: System, added: System, native: Endian)
    requires s.recording && open.writer.Some? && open == s.(writer := open.writer, files := open.files)
    requires s.files <= open.files && (s.writer.Some? ==> open.writer == s.writer)
    requires RefsInv(added) && FilesInv(added, native) && Added(open, added, s.ports)
    ensures var r := added.(signals := DropGone(added.signals, s.ports));
            RefsInv(r) && FilesInv(r, native) && MapInv(r) && Reconfigured(s, r)
  {
    hide FilesInOrder, ObjectsBound;
    var r := added.(signals := DropGone(added.signals, s.ports));
    forall id | id in r.signals && id !in s.signals ensures NewEntry(s, r, s.ports, id) {
      assert NewEntry(open, added, s.ports, id);
    }
  }

  lemma {:induction false} ReconfigureInv(s: System, cfg: Config)
    requires RefsInv(s) && FilesInv(s, cfg.native)
    ensures var r := Reconfigure(s, cfg);
            RefsInv(r) && FilesInv(r, cfg.native) && MapInv(r) && Reconfigured(s, r)
  {
    hide FilesInOrder, ObjectsBound, OpenWriter, AddMissing, DropGone, NewEntry;
    if s.recording {
      OpenWriterInv(s, cfg);
      var open := OpenWriter(s, cfg);
      hide RefsInv, MapInv, Reconfigured, Added;
      AddMissingInv(open, s.ports, cfg.native);
      DroppedInv(s, open, AddMissing(open, s.ports), cfg.native);
    }
  }

  // ----- One step -----

  /** Delivery through object o: the file it writes is replaced by its successor. */
  lemma ArriveFiles(s: System, r: System, o: nat, state: SignalState, file: FileState, native: Endian)
    requires RefsInv(s) && FilesInv(s, native) && o < |s.objects|
    requires FileInv(file, native) && s.files[s.objects[o].file].log <= file.log && SignalBound(file.log, o, state)
    requires r == s.(objects := s.objects[o := s.objects[o].(state := state)],
                     files := s.files[s.objects[o].file := file])
    ensures FilesInv(r, native)
  {
    hide FileInv;
    var f := s.objects[o].file;
    forall p | 0 <= p < |r.objects| && r.objects[p].file < |r.files|
      ensures SignalBound(r.files[r.objects[p].file].log, p, r.objects[p].state)
    {
      if p != o && s.objects[p].file == f {
        StillBound(s.files[f].log, file.log, p, s.objects[p].state);
      }
    }
  }

  lemma ArriveRefs(s: System, r: System, o: nat, state: SignalState, file: FileState)
    requires RefsInv(s) && MapInv(s) && ClosedInv(s) && o < |s.objects|
    requires !file.closed && !s.files[s.objects[o].file].closed
    requires r == s.(objects := s.objects[o := s.objects[o].(state := state)],
                     files := s.files[s.objects[o].file := file])
    ensures RefsInv(r) && MapInv(r) && ClosedInv(r)
  {
    forall f | 0 <= f < |r.files| ensures r.files[f].closed <==> !Referenced(r, f) {
      SameReferences(s, r, f);
    }
  }

  /** A delivery through a held object: its file is open, and the object is the one that accepted. */
  lemma ArriveInv(s: System, thread: nat, packet: Packet, uuid: string, cfg: Config)
    requires Inv(s, cfg.native)
    ensures Inv(Step(s, Arrive(thread, packet, uuid), cfg), cfg.native)
  {
    if thread in s.held {
      var o := s.held[thread];
      var obj := s.objects[o];
      ReceiveInInv(s.files[obj.file], o, obj.state, Labels(obj.signal, uuid, 0), packet, cfg.native);
      var (state, file) := ReceiveIn(s.files[obj.file], o, obj.state, Labels(obj.signal, uuid, 0), packet, cfg.native);
      var r := Step(s, Arrive(thread, packet, uuid), cfg);
      ArriveFiles(s, r, o, state, file, cfg.native);
      ArriveRefs(s, r, o, state, file);
    }
  }

  lemma StillBound(log: seq<Entry>, longer: seq<Entry>, owner: nat, state: SignalState)
    requires log <= longer && SignalBound(log, owner, state)
    ensures SignalBound(longer, owner, state)
  {
    if state.handler.Some? {
      BoundGrows(log, longer[|log|..], owner, state.handler.value, state.lastValue, state.lastDomain);
      assert log + longer[|log|..] == longer;
    }
  }

  lemma SameReferences(s: System, r: System, f: nat)
    requires r.writer == s.writer && r.signals == s.signals && r.held == s.held && |r.objects| == |s.objects|
    requires forall o :: 0 <= o < |s.objects| ==> r.objects[o].file == s.objects[o].file
    ensures Referenced(r, f) <==> Referenced(s, f)
  {
    forall o ensures Alive(r, o) <==> Alive(s, o) {
    }
  }

  /** reconfigure() followed by the destruction of writers nobody refers to, after a change that
      leaves writers, objects and references alone. */
  lemma ReconfiguredInv(s: System, mid: System, cfg: Config)
    requires RefsInv(s) && FilesInv(s, cfg.native) && PortsInv(mid.ports, mid.nextPort)
    requires mid == s.(recording := mid.recording, filename := mid.filename, ports := mid.ports,
                       nextPort := mid.nextPort)
    ensures Inv(Collect(Reconfigure(mid, cfg)), cfg.native)
  {
    assert RefsInv(mid) && FilesInv(mid, cfg.native);
    ReconfigureInv(mid, cfg);
    CollectInv(Reconfigure(mid, cfg), cfg.native);
  }

  lemma ConnectInv(s: System, port: nat, signal: Signal, cfg: Config)
    requires Inv(s, cfg.native)
    ensures Inv(Step(s, Connect(port, signal), cfg), cfg.native)
  {
    ConnectKeepsPorts(s.ports, s.nextPort, port, signal);
    ReconfiguredInv(s, Plug(s, port, signal), cfg);
  }

  lemma DisconnectInv(s: System, port: nat, cfg: Config)
    requires Inv(s, cfg.native)
    ensures Inv(Step(s, Disconnect(port), cfg), cfg.native)
  {
    DisconnectKeepsPorts(s.ports, s.nextPort, port);
    ReconfiguredInv(s, Unplug(s, port), cfg);
  }

  /** Taking or dropping a reference. */
  lemma HoldInv(s: System, held: map<nat, nat>, cfg: Config)
    requires Inv(s, cfg.native)
    requires forall t :: t in held ==> (t in s.held && held[t] == s.held[t]) || held[t] in s.signals.Values
    ensures Inv(Collect(s.(held := held)), cfg.native)
  {
    hide FilesInOrder, ObjectsBound, PortsInv, ClosedInv, Collect;
    var r := s.(held := held);
    forall t | t in held ensures held[t] < |r.objects| && !r.files[r.objects[held[t]].file].closed {
      if !(t in s.held && held[t] == s.held[t]) {
        var id :| id in s.signals && s.signals[id] == held[t];
      }
    }
    assert RefsInv(r);
    CollectInv(r, cfg.native);
  }

  /** Every step keeps the invariant. */
  lemma {:induction false} StepInv(s: System, e: Event, cfg: Config)
    requires Inv(s, cfg.native)
    ensures Inv(Step(s, e, cfg), cfg.native)
  {
    match e
    case Connect(port, signal) => ConnectInv(s, port, signal, cfg);
    case Disconnect(port) => DisconnectInv(s, port, cfg);
    case Start => ReconfiguredInv(s, s.(recording := true), cfg);
    case Stop => ReconfiguredInv(s, s.(recording := false), cfg);
    case Refresh(name) => ReconfiguredInv(s, s.(filename := name), cfg);
    case Find(thread, port) =>
      if port in s.signals {
        HoldInv(s, s.held[thread := s.signals[port]], cfg);
      }
    case Arrive(thread, packet, uuid) => ArriveInv(s, thread, packet, uuid, cfg);
    case Release(thread) => HoldInv(s, s.held - {thread}, cfg);
  }

  /** The invariant holds in every reachable state. */
  lemma {:induction false} RunInv(events: seq<Event>, cfg: Config)
    ensures Inv(Run(events, cfg), cfg.native)
  {
    if events == [] {
      InitialInv(cfg.native);
    } else {
      RunInv(events[..|events| - 1], cfg);
      StepInv(Run(events[..|events| - 1], cfg), events[|events| - 1], cfg);
    }
  }
}
