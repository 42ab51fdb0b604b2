/** What the events of a run alone say about it: whether it is recording, under which name, and which
    files it has opened. */
module EventHistory {
  import opened Bytes
  import opened Handlers
  import opened Descriptors
  import opened FileLog
  import opened Ports
  import opened Runs
  import opened Disk

  /** The last start or stop decides; nothing is recorded before the first start. */
  function IsRecording(events: seq<Event>): bool {
    if events == [] then false
    else
      match events[|events| - 1]
      case Start => true
      case Stop => false
      case _ => IsRecording(events[..|events| - 1])
  }

  /** The name given last. */
  function CurrentName(events: seq<Event>): string {
    if events == [] then ""
    else
      match events[|events| - 1]
      case Refresh(name) => name
      case _ => CurrentName(events[..|events| - 1])
  }

  /** Every start of a recorder that is not recording opens a file under the name given last. */
  function NamesOpened(events: seq<Event>): seq<string> {
    if events == [] then []
    else
      var init := events[..|events| - 1];
      NamesOpened(init) + if events[|events| - 1] == Start && !IsRecording(init) then [CurrentName(init)] else []
  }

  function FileNames(files: seq<FileState>): (r: seq<string>)
    ensures |r| == |files|
  {
    seq(|files|, f requires 0 <= f < |files| => files[f].name)
  }

  /** The writer in use is that of the file opened last. */
  predicate WritesLast(s: System) {
    s.writer == if s.recording then Some(|s.files| - 1) else None
  }

  lemma CollectedNames(s: System)
    ensures FileNames(Collect(s).files) == FileNames(s.files)
  {
    var after, before := Collect(s).files, s.files;
    forall f | 0 <= f < |before| ensures FileNames(after)[f] == FileNames(before)[f] {
      assert after[f].name == before[f].name;
    }
  }

  /** What reconfigure() does to the files and the writer. */
  lemma ReconfiguredNames(s: System, cfg: Config)
    requires s.writer == None || s.writer == Some(|s.files| - 1)
    ensures var r := Collect(Reconfigure(s, cfg));
            && r.recording == s.recording && r.filename == s.filename && r.ports == s.ports && WritesLast(r)
            && FileNames(r.files)
               == FileNames(s.files) + if s.recording && s.writer.None? then [s.filename] else []
  {
    hide Opened, OpeningText, AddMissing, DropGone, Collect;
    CollectedNames(Reconfigure(s, cfg));
    CollectedRest(Reconfigure(s, cfg));
    ReconfigureFiles(s, cfg);
    if s.recording {
      AddMissingOnly(OpenWriter(s, cfg), s.ports);
      OpenedName(s.filename, OpeningText(cfg.preamble));
    }
  }

  lemma CollectedRest(s: System)
    ensures Collect(s) == s.(files := Collect(s).files) && |Collect(s).files| == |s.files|
  {
  }

  lemma OpenedName(name: string, text: string)
    ensures Opened(name, text).name == name
  {
  }

  /** A packet changes no name and no setting. */
  lemma ArriveNames(s: System, e: Event, cfg: Config)
    requires e.Arrive?
    ensures var r := Step(s, e, cfg);
            && r.recording == s.recording && r.filename == s.filename && r.ports == s.ports && r.writer == s.writer
            && FileNames(r.files) == FileNames(s.files)
  {
    hide CreateIn, DeliverIn;
    if e.thread in s.held && s.held[e.thread] < |s.objects| && s.objects[s.held[e.thread]].file < |s.files| {
      var obj := s.objects[s.held[e.thread]];
      ReceivedName(s.files[obj.file], s.held[e.thread], obj.state, Labels(obj.signal, e.uuid, 0), e.packet, cfg.native);
    }
  }

  lemma ReceivedName(f: FileState, owner: nat, s: SignalState, labels: Labels, packet: Packet, native: Endian)
    ensures ReceiveIn(f, owner, s, labels, packet, native).1.name == f.name
  {
  }

  lemma StepNames(s: System, e: Event, cfg: Config)
    requires WritesLast(s)
    ensures var r := Step(s, e, cfg);
            && WritesLast(r)
            && r.recording == (match e case Start => true case Stop => false case _ => s.recording)
            && r.filename == (match e case Refresh(name) => name case _ => s.filename)
            && FileNames(r.files) == FileNames(s.files) + if e == Start && !s.recording then [s.filename] else []
  {
    hide Collect, Reconfigure, FileNames, ReceiveIn;
    match e
    case Connect(port, signal) =>
      ReconfiguredNames(Plug(s, port, signal), cfg);
    case Disconnect(port) =>
      ReconfiguredNames(Unplug(s, port), cfg);
    case Start =>
      ReconfiguredNames(s.(recording := true), cfg);
    case Stop =>
      ReconfiguredNames(s.(recording := false), cfg);
    case Refresh(name) =>
      ReconfiguredNames(s.(filename := name), cfg);
    case Find(thread, port) =>
      if port in s.signals {
        CollectedNames(s.(held := s.held[thread := s.signals[port]]));
        CollectedRest(s.(held := s.held[thread := s.signals[port]]));
      }
    case Release(thread) =>
      CollectedNames(s.(held := s.held - {thread}));
      CollectedRest(s.(held := s.held - {thread}));
    case Arrive(thread, packet, uuid) =>
      ArriveNames(s, e, cfg);
      NamesCount(s, e, cfg);
  }

  lemma NamesCount(s: System, e: Event, cfg: Config)
    ensures FileNames(Step(s, e, cfg).files) == FileNames(s.files) ==> |Step(s, e, cfg).files| == |s.files|
  {
    hide Step;
  }

  /** The recording flag is that of the last start or stop, the name the one given last, and the files are
      those opened by the starts of an idle recorder, each under the name of its moment. While recording,
      the writer in use is that of the file opened last. */
  lemma {:induction false} FilesFollowEvents(events: seq<Event>, cfg: Config)
    ensures var s := Run(events, cfg);
            && s.recording == IsRecording(events) && s.filename == CurrentName(events) && WritesLast(s)
            && FileNames(s.files) == NamesOpened(events)
  {
    hide Step;
    if events != [] {
      var init := events[..|events| - 1];
      FilesFollowEvents(init, cfg);
      StepNames(Run(init, cfg), events[|events| - 1], cfg);
    }
  }

  // ----- Connections -----

  /** The signal connected to a port: a connection to a port that is not there is ignored. */
  ghost function CurrentSignal(events: seq<Event>, cfg: Config, port: nat): Option<Signal> {
    if events == [] then None
    else
      var init := events[..|events| - 1];
      match events[|events| - 1]
      case Connect(p, signal) =>
        if p == port && HasPort(Run(init, cfg).ports, port) then Some(signal) else CurrentSignal(init, cfg, port)
      case Disconnect(p) => if p == port then None else CurrentSignal(init, cfg, port)
      case _ => CurrentSignal(init, cfg, port)
  }

  lemma PortsOfStep(s: System, e: Event, cfg: Config)
    requires WritesLast(s)
    ensures Step(s, e, cfg).ports
         == match e
            case Connect(port, signal) => if HasPort(s.ports, port) then Plug(s, port, signal).ports else s.ports
            case Disconnect(port) => if Connected(s.ports, port) then Unplug(s, port).ports else s.ports
            case _ => s.ports
  {
    hide Collect, Reconfigure, FileNames, ReceiveIn;
    match e
    case Connect(port, signal) => ReconfiguredNames(Plug(s, port, signal), cfg);
    case Disconnect(port) => ReconfiguredNames(Unplug(s, port), cfg);
    case Start => ReconfiguredNames(s.(recording := true), cfg);
    case Stop => ReconfiguredNames(s.(recording := false), cfg);
    case Refresh(name) => ReconfiguredNames(s.(filename := name), cfg);
    case Find(thread, port) =>
      if port in s.signals {
        CollectedRest(s.(held := s.held[thread := s.signals[port]]));
      }
    case Release(thread) => CollectedRest(s.(held := s.held - {thread}));
    case Arrive(thread, packet, uuid) => ArriveNames(s, e, cfg);
  }

  lemma StepSignal(s: System, e: Event, cfg: Config, port: nat, signal: Signal)
    requires WritesLast(s) && PortsInv(s.ports, s.nextPort)
    ensures ConnectedTo(Step(s, e, cfg).ports, port, signal)
       <==> match e
            case Connect(p, other) => if p == port && HasPort(s.ports, port) then signal == other
              else ConnectedTo(s.ports, port, signal)
            case Disconnect(p) => p != port && ConnectedTo(s.ports, port, signal)
            case _ => ConnectedTo(s.ports, port, signal)
  {
    hide Step, PortsInv, ConnectedTo, Connected, HasPort, SetConnection, Trimmed;
    PortsOfStep(s, e, cfg);
    match e
    case Connect(p, other) =>
      if HasPort(s.ports, p) {
        SetConnectionIs(s.ports, s.nextPort, p, other, Port(s.nextPort, None));
      }
    case Disconnect(p) =>
      if Connected(s.ports, p) {
        DisconnectKeepsPorts(s.ports, s.nextPort, p);
      } else {
        ConnectedIsTo(s.ports, p);
      }
    case _ =>
  }

  /** A port is connected to the signal it was connected to last, unless it was disconnected since. */
  lemma {:induction false} ConnectionsFollowEvents(events: seq<Event>, cfg: Config, port: nat, signal: Signal)
    ensures ConnectedTo(Run(events, cfg).ports, port, signal) <==> CurrentSignal(events, cfg, port) == Some(signal)
  {
    hide Step, ConnectedTo, HasPort, Inv;
    if events != [] {
      var init := events[..|events| - 1];
      ConnectionsFollowEvents(init, cfg, port, signal);
      FilesFollowEvents(init, cfg);
      RunInv(init, cfg);
      PortsOf(Run(init, cfg), cfg);
      StepSignal(Run(init, cfg), events[|events| - 1], cfg, port, signal);
    } else {
      NoSignal(port, signal);
    }
  }

  lemma PortsOf(s: System, cfg: Config)
    requires Inv(s, cfg.native)
    ensures PortsInv(s.ports, s.nextPort)
  {
  }

  lemma NoSignal(port: nat, signal: Signal)
    ensures !ConnectedTo(INITIAL.ports, port, signal)
  {
  }

  // ----- Deliveries -----

  /** The object a thread holds: the one of the port it looked up last, until it lets go. */
  ghost function CurrentObject(events: seq<Event>, cfg: Config, thread: nat): Option<nat> {
    if events == [] then None
    else
      var init := events[..|events| - 1];
      match events[|events| - 1]
      case Find(t, port) =>
        if t == thread && port in Run(init, cfg).signals then Some(Run(init, cfg).signals[port])
        else CurrentObject(init, cfg, thread)
      case Release(t) => if t == thread then None else CurrentObject(init, cfg, thread)
      case _ => CurrentObject(init, cfg, thread)
  }

  predicate Holding(s: System, thread: nat, o: Option<nat>) {
    if thread in s.held then o == Some(s.held[thread]) else o == None
  }

  lemma HeldOfStep(s: System, e: Event, cfg: Config)
    ensures Step(s, e, cfg).held
         == match e
            case Find(thread, port) => if port in s.signals then s.held[thread := s.signals[port]] else s.held
            case Release(thread) => s.held - {thread}
            case _ => s.held
  {
    hide Opened, OpeningText, AddMissing, DropGone, ReceiveIn, Trimmed, SetConnection;
    match e
    case Connect(port, signal) => ReconfigureFiles(Plug(s, port, signal), cfg);
    case Disconnect(port) => ReconfigureFiles(Unplug(s, port), cfg);
    case Start => ReconfigureFiles(s.(recording := true), cfg);
    case Stop => ReconfigureFiles(s.(recording := false), cfg);
    case Refresh(name) => ReconfigureFiles(s.(filename := name), cfg);
    case Find(thread, port) =>
    case Release(thread) =>
    case Arrive(thread, packet, uuid) =>
  }

  /** What a thread holds is what it found last and has not let go, whatever else happens. */
  lemma {:induction false} DeliveriesFollowEvents(events: seq<Event>, cfg: Config, thread: nat)
    ensures Holding(Run(events, cfg), thread, CurrentObject(events, cfg, thread))
  {
    hide Step;
    if events != [] {
      var init := events[..|events| - 1];
      DeliveriesFollowEvents(init, cfg, thread);
      HeldOfStep(Run(init, cfg), events[|events| - 1], cfg);
    }
  }
}
