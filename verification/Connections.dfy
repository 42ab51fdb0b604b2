/** The map from ports to signal objects over whole runs. */
module Connections {
  import opened Bytes
  import opened Descriptors
  import opened FileLog
  import opened Ports
  import opened Runs

  /** Every entry records the signal that is connected to its port. */
  ghost predicate SignalsMatch(s: System) {
    forall id :: id in s.signals ==>
             s.signals[id] < |s.objects| && ConnectedTo(s.ports, id, s.objects[s.signals[id]].signal)
  }

  /** A different signal is connected to a port that already has an entry. */
  predicate Rewires(s: System, e: Event) {
    e.Connect? && e.port in s.signals && s.signals[e.port] < |s.objects|
        && s.objects[s.signals[e.port]].signal != e.signal
  }

  /** A change of ports and recording flag that keeps the connections of the ports that have entries
      and stay connected. */
  ghost predicate Undisturbed(s: System, mid: System) {
    && mid == s.(recording := mid.recording, filename := mid.filename, ports := mid.ports, nextPort := mid.nextPort)
    && forall id, signal :: ConnectedTo(s.ports, id, signal) && Connected(mid.ports, id) && id in s.signals ==>
         ConnectedTo(mid.ports, id, signal)
  }

  lemma ReconfigureMatches(s: System, mid: System, cfg: Config)
    requires Inv(s, cfg.native) && SignalsMatch(s) && Undisturbed(s, mid)
    ensures SignalsMatch(Collect(Reconfigure(mid, cfg)))
  {
    ReconfigureInv(mid, cfg);
    var r := Reconfigure(mid, cfg);
    forall id | id in r.signals ensures r.signals[id] < |r.objects|
           && ConnectedTo(r.ports, id, r.objects[r.signals[id]].signal) {
      if id in s.signals {
        assert r.objects[s.signals[id]] == s.objects[s.signals[id]];
        assert ConnectedTo(s.ports, id, s.objects[s.signals[id]].signal);
      } else {
        assert NewEntry(mid, r, mid.ports, id);
      }
    }
  }

  lemma ConnectMatches(s: System, port: nat, signal: Signal, cfg: Config)
    requires Inv(s, cfg.native) && SignalsMatch(s)
    ensures SignalsMatch(Step(s, Connect(port, signal), cfg)) <==> !Rewires(s, Connect(port, signal))
  {
    if HasPort(s.ports, port) {
      var mid := Plug(s, port, signal);
      SetConnectionIs(s.ports, s.nextPort, port, signal, Port(s.nextPort, None));
      if Rewires(s, Connect(port, signal)) {
        RewiringShows(s, port, signal, cfg);
      } else {
        if port in s.signals {
          OneSignal(s, port, s.objects[s.signals[port]].signal);
        }
        ReconfigureMatches(s, mid, cfg);
      }
    } else if port in s.signals {
      NoPortNoEntry(s, port);
    }
  }

  lemma NoPortNoEntry(s: System, port: nat)
    requires MapInv(s) && !HasPort(s.ports, port)
    ensures port !in s.signals
  {
  }

  lemma OneSignal(s: System, id: nat, signal: Signal)
    requires PortsInv(s.ports, s.nextPort) && ConnectedTo(s.ports, id, signal)
    ensures forall other :: ConnectedTo(s.ports, id, other) ==> other == signal
  {
  }

  lemma RewiringShows(s: System, port: nat, signal: Signal, cfg: Config)
    requires Inv(s, cfg.native) && HasPort(s.ports, port) && Rewires(s, Connect(port, signal))
    ensures !SignalsMatch(Step(s, Connect(port, signal), cfg))
  {
    hide FilesInOrder, ObjectsBound, Reconfigure, ClosedInv, Opened;
    var mid := Plug(s, port, signal);
    SetConnectionIs(s.ports, s.nextPort, port, signal, Port(s.nextPort, None));
    ReconfigureInv(mid, cfg);
    var r := Reconfigure(mid, cfg);
    assert r.signals[port] == s.signals[port] && r.objects[s.signals[port]] == s.objects[s.signals[port]];
    assert !ConnectedTo(r.ports, port, s.objects[s.signals[port]].signal);
  }

  /** A step breaks the match exactly when it connects a different signal to a port that already has
      an entry: the entry is found and left as it is. */
  lemma {:induction false} StepMatches(s: System, e: Event, cfg: Config)
    requires Inv(s, cfg.native) && SignalsMatch(s)
    ensures SignalsMatch(Step(s, e, cfg)) <==> !Rewires(s, e)
  {
    hide FilesInv, ClosedInv, Reconfigure, ReceiveIn, Referenced;
    match e
    case Connect(port, signal) => ConnectMatches(s, port, signal, cfg);
    case Disconnect(port) =>
      if Connected(s.ports, port) {
        DisconnectKeepsPorts(s.ports, s.nextPort, port);
        ReconfigureMatches(s, Unplug(s, port), cfg);
      }
    case Start => ReconfigureMatches(s, s.(recording := true), cfg);
    case Stop => ReconfigureMatches(s, s.(recording := false), cfg);
    case Refresh(name) => ReconfigureMatches(s, s.(filename := name), cfg);
    case Find(thread, port) =>
    case Release(thread) =>
    case Arrive(thread, packet, uuid) => ArriveMatches(s, e, cfg);
  }

  lemma ArriveMatches(s: System, e: Event, cfg: Config)
    requires Inv(s, cfg.native) && SignalsMatch(s) && e.Arrive?
    ensures SignalsMatch(Step(s, e, cfg))
  {
    SameObjects(s, e, cfg);
  }

  /** Delivering a packet changes no signal, no file assignment and no entry. */
  lemma SameObjects(s: System, e: Event, cfg: Config)
    requires e.Arrive?
    ensures var r := Step(s, e, cfg);
            && r.signals == s.signals && r.ports == s.ports && |r.objects| == |s.objects|
            && r.writer == s.writer && r.held == s.held && r.recording == s.recording
            && forall o :: 0 <= o < |s.objects| ==>
                 r.objects[o].signal == s.objects[o].signal && r.objects[o].file == s.objects[o].file
  {
  }

  ghost predicate NeverRewires(events: seq<Event>, cfg: Config) {
    forall k :: 0 <= k < |events| ==> !Rewires(Run(events[..k], cfg), events[k])
  }

  /** As long as ports are disconnected before they are connected to another signal, every entry is
      for the signal now connected. */
  lemma {:induction false} RunMatches(events: seq<Event>, cfg: Config)
    requires NeverRewires(events, cfg)
    ensures SignalsMatch(Run(events, cfg))
  {
    if events != [] {
      var init := events[..|events| - 1];
      forall k | 0 <= k < |init| ensures !Rewires(Run(init[..k], cfg), init[k]) {
        assert init[..k] == events[..k];
      }
      RunMatches(init, cfg);
      RunInv(init, cfg);
      StepMatches(Run(init, cfg), events[|events| - 1], cfg);
    }
  }

  /** While recording, a delivery for a connected port gets hold of an object for the signal that is connected
      there, and writes to the file in use; other deliveries keep what they hold. Nothing is found for a port
      without a connection, or without a recording. */
  lemma {:induction false} FoundIsConnected(events: seq<Event>, cfg: Config, thread: nat, port: nat)
    requires NeverRewires(events, cfg)
    ensures var s, r := Run(events, cfg), Run(events + [Find(thread, port)], cfg);
            if s.recording && Connected(s.ports, port) then
              && r.held.Keys == s.held.Keys + {thread} && r.held[thread] < |r.objects|
              && ConnectedTo(s.ports, port, r.objects[r.held[thread]].signal)
              && s.writer == Some(r.objects[r.held[thread]].file)
              && forall t :: t in s.held && t != thread ==> r.held[t] == s.held[t]
            else r == s
  {
    hide Connected, ConnectedTo, FilesInv, ClosedInv, PortsInv;
    assert (events + [Find(thread, port)])[..|events|] == events;
    RunMatches(events, cfg);
    RunInv(events, cfg);
  }

  // ----- Entries are left alone -----

  lemma ReconfigureKeeps(s: System, mid: System, cfg: Config, id: nat)
    requires Inv(s, cfg.native)
    requires mid == s.(recording := mid.recording, filename := mid.filename, ports := mid.ports,
                       nextPort := mid.nextPort)
    requires id in s.signals && id in Collect(Reconfigure(mid, cfg)).signals
    ensures var r := Collect(Reconfigure(mid, cfg));
            r.signals[id] == s.signals[id] && s.objects <= r.objects && r.writer == s.writer
  {
    ReconfigureInv(mid, cfg);
  }

  /** Plugging and unplugging change the ports only. */
  lemma PortsOnly(s: System)
    ensures forall port, signal ::
              Plug(s, port, signal) == s.(ports := Plug(s, port, signal).ports, nextPort := s.nextPort + 1)
    ensures forall port :: Unplug(s, port) == s.(ports := Unplug(s, port).ports)
  {
  }

  /** Whatever one event does, a port that has an entry before and after keeps the same signal object,
      which keeps writing to the same file; only a packet for that very object changes its state. */
  lemma {:induction false} EntryIsKept(s: System, e: Event, cfg: Config, id: nat)
    requires Inv(s, cfg.native) && id in s.signals && id in Step(s, e, cfg).signals
    ensures var r, o := Step(s, e, cfg), s.signals[id];
            && r.signals[id] == o < |r.objects| && o < |s.objects|
            && r.objects[o].file == s.objects[o].file && r.objects[o].signal == s.objects[o].signal
            && r.writer == s.writer
            && (r.objects[o].state != s.objects[o].state ==> e.Arrive? && e.thread in s.held && s.held[e.thread] == o)
  {
    hide FilesInv, ClosedInv, PortsInv, MapInv, Reconfigure, ReceiveIn, HasPort, Connected, Plug, Unplug, Collect;
    PortsOnly(s);
    match e
    case Connect(port, signal) =>
      if HasPort(s.ports, port) {
        ReconfigureKeeps(s, Plug(s, port, signal), cfg, id);
      }
    case Disconnect(port) =>
      if Connected(s.ports, port) {
        ReconfigureKeeps(s, Unplug(s, port), cfg, id);
      }
    case Start => ReconfigureKeeps(s, s.(recording := true), cfg, id);
    case Stop => ReconfigureKeeps(s, s.(recording := false), cfg, id);
    case Refresh(name) => ReconfigureKeeps(s, s.(filename := name), cfg, id);
    case Find(thread, port) => if port in s.signals {
      CollectKeeps(s.(held := s.held[thread := s.signals[port]]));
    }
    case Release(thread) => CollectKeeps(s.(held := s.held - {thread}));
    case Arrive(thread, packet, uuid) => SameObjects(s, e, cfg);
  }

  lemma CollectKeeps(s: System)
    ensures Collect(s).signals == s.signals && Collect(s).objects == s.objects && Collect(s).writer == s.writer
  {
  }

  /** In every reachable state the keys of the map are the connected ports while recording, all
      entries share the writer in use, whose file is open, and without a recording there is no entry
      and no writer. */
  lemma {:induction false} RunMap(events: seq<Event>, cfg: Config)
    ensures var s := Run(events, cfg);
            && (s.recording <==> s.writer.Some?)
            && (forall id :: id in s.signals <==> s.recording && Connected(s.ports, id))
            && (forall id :: id in s.signals ==>
                 s.signals[id] < |s.objects| && s.writer == Some(s.objects[s.signals[id]].file))
            && (s.writer.Some? ==> s.writer.value < |s.files| && !s.files[s.writer.value].closed)
            && (!s.recording ==> s.signals == map[])
  {
    RunInv(events, cfg);
    var s := Run(events, cfg);
    assert !s.recording ==> forall id :: id !in s.signals;
  }

  /** In every reachable state the last port is free, and right after a disconnection only one port is
      left or the last but one is connected. */
  lemma {:induction false} RunPorts(events: seq<Event>, port: nat, cfg: Config)
    ensures PortsInv(Run(events, cfg).ports, Run(events, cfg).nextPort)
    ensures Connected(Run(events, cfg).ports, port) ==>
              var after := Run(events + [Disconnect(port)], cfg).ports;
              after != [] && (|after| == 1 || after[|after| - 2].connection.Some?)
  {
    hide FilesInv, ClosedInv, RefsInv, MapInv, PortsInv, Reconfigure, Collect;
    RunInv(events, cfg);
    var s := Run(events, cfg);
    assert (events + [Disconnect(port)])[..|events|] == events;
    if Connected(s.ports, port) {
      DisconnectKeepsPorts(s.ports, s.nextPort, port);
      ReconfigurePorts(Unplug(s, port), cfg);
    }
  }

  lemma ReconfigurePorts(s: System, cfg: Config)
    ensures Collect(Reconfigure(s, cfg)).ports == s.ports
  {
    if s.recording {
      AddMissingPorts(OpenWriter(s, cfg), s.ports);
    }
  }

  lemma {:induction false} AddMissingPorts(s: System, ports: seq<Port>)
    requires s.writer.Some?
    ensures AddMissing(s, ports).ports == s.ports
    decreases |ports|
  {
    if ports != [] {
      AddMissingPorts(AddFirst(s, ports[0]), ports[1..]);
    }
  }
}
