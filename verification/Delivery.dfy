/** Nothing is lost and nothing is made up: the data entries of a signal object are exactly the
    acceptable packets delivered to it, in the order they arrived, over every run. */
module Delivery {
  import opened Bytes
  import opened Descriptors
  import opened SampleTypes
  import opened Handlers
  import opened HandlerChoice
  import opened FileLog
  import opened Ports
  import opened Runs

  // ----- Which packets are recorded -----

  function Keep(packets: seq<Packet>): seq<Packet> {
    if packets == [] then []
    else Keep(packets[..|packets| - 1])
         + if IsRecorded(packets[|packets| - 1]) then [packets[|packets| - 1]] else []
  }

  lemma KeepLast(packets: seq<Packet>, last: Packet)
    ensures Keep(packets + [last]) == Keep(packets) + if IsRecorded(last) then [last] else []
  {
    assert (packets + [last])[..|packets|] == packets;
  }

  /** The packets a log holds for a signal object. */
  function DataOf(log: seq<Entry>, owner: nat): seq<Packet> {
    if log == [] then []
    else
      var last := log[|log| - 1];
      DataOf(log[..|log| - 1], owner) + if last.Data? && last.owner == owner then [last.packet] else []
  }

  lemma DataOfLast(log: seq<Entry>, e: Entry, owner: nat)
    ensures DataOf(log + [e], owner) == DataOf(log, owner) + if e.Data? && e.owner == owner then [e.packet] else []
  {
    assert (log + [e])[..|log|] == log;
  }

  /** The packets that arrive at a signal object during a run. */
  ghost function Arrived(events: seq<Event>, cfg: Config, o: nat): seq<Packet> {
    if events == [] then []
    else
      var init, last := events[..|events| - 1], events[|events| - 1];
      Arrived(init, cfg, o) + ArrivedNow(Run(init, cfg), last, o)
  }

  function ArrivedNow(s: System, e: Event, o: nat): seq<Packet> {
    if e.Arrive? && e.thread in s.held && s.held[e.thread] == o then [e.packet] else []
  }

  // ----- One packet -----

  /** A signal object has a handler of the right kind exactly when its last descriptors allow one. */
  predicate Matches(s: SignalState) {
    && (s.handler.Some? <==> Buildable(s.lastValue, s.lastDomain))
    && (s.handler.Some? ==> (s.handler.value.ScalarHandler? <==> IsScalarSignal(s.lastValue, s.lastDomain)))
  }

  lemma NewMatches()
    ensures Matches(NEW_SIGNAL)
  {
  }

  lemma CreateMatches(f: FileState, owner: nat, labels: Labels, value: Option<DataDescriptor>,
                      domain: Option<DataDescriptor>, native: Endian)
    ensures var (h, f') := CreateIn(f, owner, labels, value, domain, native);
            && Matches(SignalState(h, value, domain))
            && forall o :: DataOf(f'.log, o) == DataOf(f.log, o)
  {
    hide Create, Choose, IsScalarSignal, IsMessageSignal, DataOf;
    CreatedIff(f.writer, labels, value, domain, native);
    var (h, f') := CreateIn(f, owner, labels, value, domain, native);
    forall o ensures DataOf(f'.log, o) == DataOf(f.log, o) {
      if h.Some? {
        DataOfLast(f.log, f'.log[|f.log|], o);
      }
    }
  }

  lemma DeliverData(f: FileState, owner: nat, h: Handler, packet: Packet, native: Endian, o: nat)
    ensures DataOf(DeliverIn(f, owner, h, packet, native).log, o)
         == DataOf(f.log, o) + if o == owner && DataPayload(h, packet, native).Some? then [packet] else []
  {
    if DataPayload(h, packet, native).Some? {
      DataOfLast(f.log, Data(owner, h, packet), o);
    }
  }

  lemma RecordedIff(s: SignalState, packet: Packet, native: Endian)
    requires Matches(s) && s.lastValue == packet.descriptor && s.lastDomain == DomainDescriptor(packet)
    ensures IsRecorded(packet) <==> s.handler.Some? && DataPayload(s.handler.value, packet, native).Some?
  {
  }

  /** One packet: recorded once if it is acceptable, and nothing else is. */
  lemma ReceiveRecords(f: FileState, owner: nat, s: SignalState, labels: Labels, packet: Packet, native: Endian)
    requires Matches(s)
    ensures var (s', f') := ReceiveIn(f, owner, s, labels, packet, native);
            && Matches(s')
            && forall o :: DataOf(f'.log, o) == DataOf(f.log, o) + if o == owner
                && IsRecorded(packet) then [packet] else []
  {
    var value, domain := packet.descriptor, DomainDescriptor(packet);
    var (handler, ready) := if Changed(s, packet) then CreateIn(f, owner, labels, value, domain, native)
        else (s.handler, f);
    CreateMatches(f, owner, labels, value, domain, native);
    var state := SignalState(handler, value, domain);
    RecordedIff(state, packet, native);
    var after := if handler.Some? then DeliverIn(ready, owner, handler.value, packet, native) else ready;
    forall o ensures DataOf(after.log, o) == DataOf(f.log, o) + if o == owner
           && IsRecorded(packet) then [packet] else [] {
      if handler.Some? {
        DeliverData(ready, owner, handler.value, packet, native, o);
      }
    }
    assert ReceiveIn(f, owner, s, labels, packet, native) == (state, after);
  }

  // ----- Steps -----

  /** A step that delivers nothing: logs stay as they are, new files hold only their opening, new
      objects have not seen a packet. */
  ghost predicate Quiet(s: System, r: System) {
    && |s.files| <= |r.files|
    && (forall f :: 0 <= f < |s.files| ==> r.files[f].log == s.files[f].log && r.files[f].taken == s.files[f].taken)
    && (forall f :: |s.files| <= f < |r.files| ==>
          |r.files[f].log| == 1 && r.files[f].log[0].Opening? && r.files[f].taken == 0)
    && s.objects <= r.objects
    && (forall o :: |s.objects| <= o < |r.objects| ==> r.objects[o].state == NEW_SIGNAL)
  }

  lemma {:induction false} AddMissingQuiet(s: System, ports: seq<Port>)
    requires s.writer.Some?
    ensures Quiet(s, AddMissing(s, ports)) && AddMissing(s, ports).files == s.files
    decreases |ports|
  {
    if ports != [] {
      var mid := AddFirst(s, ports[0]);
      AddMissingQuiet(mid, ports[1..]);
      assert AddMissing(s, ports) == AddMissing(mid, ports[1..]);
    }
  }

  lemma OpenedIsQuiet(name: string, text: string)
    ensures |Opened(name, text).log| == 1 && Opened(name, text).log[0].Opening? && Opened(name, text).taken == 0
  {
  }

  lemma CollectIsQuiet(s: System)
    ensures Collect(s).objects == s.objects && |Collect(s).files| == |s.files|
    ensures forall f :: 0 <= f < |s.files| ==>
              Collect(s).files[f].log == s.files[f].log && Collect(s).files[f].taken == s.files[f].taken
  {
  }

  lemma ReconfigureQuiet(s: System, cfg: Config)
    ensures Quiet(s, Collect(Reconfigure(s, cfg)))
  {
    hide Opened, OpeningText, AddMissing, DropGone, Referenced;
    OpenedIsQuiet(s.filename, OpeningText(cfg.preamble));
    if s.recording {
      AddMissingQuiet(OpenWriter(s, cfg), s.ports);
    }
    CollectIsQuiet(Reconfigure(s, cfg));
  }

  lemma QuietFrom(s: System, t: System, r: System)
    requires t.files == s.files && t.objects == s.objects && Quiet(t, r)
    ensures Quiet(s, r) && Quiet(s, s)
  {
  }

  lemma StepQuiet(s: System, e: Event, cfg: Config)
    requires !e.Arrive?
    ensures Quiet(s, Step(s, e, cfg))
  {
    hide Reconfigure, Collect, Quiet;
    var t := match e
      case Connect(port, signal) => Plug(s, port, signal)
      case Disconnect(port) => Unplug(s, port)
      case Start => s.(recording := true)
      case Stop => s.(recording := false)
      case Refresh(name) => s.(filename := name)
      case Find(thread, port) => if port in s.signals then s.(held := s.held[thread := s.signals[port]]) else s
      case Release(thread) => s.(held := s.held - {thread});
    ReconfigureQuiet(t, cfg);
    QuietFrom(s, t, Collect(Reconfigure(t, cfg)));
    CollectIsQuiet(t);
    QuietFrom(s, t, Collect(t));
  }

  /** What file f should hold for object o. */
  ghost predicate Recorded(events: seq<Event>, cfg: Config, s: System, f: nat, o: nat)
    requires f < |s.files|
  {
    DataOf(s.files[f].log, o)
    == if o < |s.objects| && s.objects[o].file == f then Keep(Arrived(events, cfg, o)) else []
  }

  ghost predicate AllRecorded(events: seq<Event>, cfg: Config, s: System) {
    && (forall f, o :: 0 <= f < |s.files| && 0 <= o ==> Recorded(events, cfg, s, f, o))
    && (forall o :: |s.objects| <= o ==> Arrived(events, cfg, o) == [])
    && (forall o :: 0 <= o < |s.objects| ==> Matches(s.objects[o].state))
  }

  lemma ArrivedLast(events: seq<Event>, e: Event, cfg: Config, o: nat)
    ensures Arrived(events + [e], cfg, o) == Arrived(events, cfg, o) + ArrivedNow(Run(events, cfg), e, o)
  {
    assert (events + [e])[..|events|] == events;
  }

  lemma QuietRecorded(events: seq<Event>, e: Event, cfg: Config, r: System)
    requires AllRecorded(events, cfg, Run(events, cfg)) && Inv(Run(events, cfg), cfg.native)
    requires !e.Arrive? && Quiet(Run(events, cfg), r)
    ensures AllRecorded(events + [e], cfg, r)
  {
    hide Run, Arrived, Keep, DataOf, Matches;
    forall f: nat, o: nat | f < |r.files| ensures Recorded(events + [e], cfg, r, f, o) {
      QuietPair(events, e, cfg, r, f, o);
    }
    forall o: nat ensures Arrived(events + [e], cfg, o) == Arrived(events, cfg, o) {
      ArrivedLast(events, e, cfg, o);
    }
    NewMatches();
  }

  lemma QuietPair(events: seq<Event>, e: Event, cfg: Config, r: System, f: nat, o: nat)
    requires AllRecorded(events, cfg, Run(events, cfg)) && Inv(Run(events, cfg), cfg.native)
    requires !e.Arrive? && Quiet(Run(events, cfg), r) && f < |r.files|
    ensures Recorded(events + [e], cfg, r, f, o)
  {
    hide Run, Arrived, Keep, DataOf, Matches, FileInv;
    var s := Run(events, cfg);
    ArrivedLast(events, e, cfg, o);
    NothingKept();
    assert Arrived(events, cfg, o) + [] == Arrived(events, cfg, o);
    if f < |s.files| {
      assert Recorded(events, cfg, s, f, o);
    } else {
      OnlyOpening(r.files[f].log, o);
      if o < |s.objects| {
        assert s.objects[o].file < |s.files|;
      }
    }
  }

  lemma NothingKept()
    ensures Keep([]) == []
  {
  }

  lemma OnlyOpening(log: seq<Entry>, o: nat)
    requires |log| == 1 && log[0].Opening?
    ensures DataOf(log, o) == []
  {
    assert log[..0] == [];
  }

  /** The system after object target accepted or dropped a packet. */
  function Replaced(s: System, target: nat, state: SignalState, file: FileState): System
    requires target < |s.objects| && s.objects[target].file < |s.files|
  {
    s.(objects := s.objects[target := s.objects[target].(state := state)],
       files := s.files[s.objects[target].file := file])
  }

  lemma {:induction false} ReplacedRecorded(before: seq<Packet>, after: seq<Packet>, s: System, target: nat,
                                            state: SignalState, file: FileState, packet: Packet, native: Endian,
                                            f: nat, o: nat)
    requires target < |s.objects| && s.objects[target].file < |s.files| && f < |s.files|
    requires DataOf(s.files[f].log, o) == if o < |s.objects| && s.objects[o].file == f then Keep(before) else []
    requires after == before + if o == target then [packet] else []
    requires f == s.objects[target].file ==>
               DataOf(file.log, o) == DataOf(s.files[f].log, o) + if o == target
                   && IsRecorded(packet) then [packet] else []
    ensures var r := Replaced(s, target, state, file);
            DataOf(r.files[f].log, o) == if o < |r.objects| && r.objects[o].file == f then Keep(after) else []
  {
    if o == target {
      KeepLast(before, packet);
    } else {
      assert after == before;
    }
  }

  lemma ArriveRecorded(events: seq<Event>, s: System, e: Event, cfg: Config)
    requires s == Run(events, cfg) && AllRecorded(events, cfg, s) && RefsInv(s) && e.Arrive?
    ensures AllRecorded(events + [e], cfg, Step(s, e, cfg))
  {
    forall o: nat ensures Arrived(events + [e], cfg, o) == Arrived(events, cfg, o) + ArrivedNow(s, e, o) {
      ArrivedLast(events, e, cfg, o);
    }
    if e.thread in s.held {
      HeldRecorded(events, s, e, cfg);
    } else {
      UnheldRecorded(events, s, e, cfg);
    }
  }

  lemma UnheldRecorded(events: seq<Event>, s: System, e: Event, cfg: Config)
    requires AllRecorded(events, cfg, s) && e.Arrive? && e.thread !in s.held
    requires forall o: nat :: Arrived(events + [e], cfg, o) == Arrived(events, cfg, o) + ArrivedNow(s, e, o)
    ensures AllRecorded(events + [e], cfg, Step(s, e, cfg))
  {
    assert Step(s, e, cfg) == s;
    forall o: nat ensures Arrived(events + [e], cfg, o) == Arrived(events, cfg, o) {
      assert ArrivedNow(s, e, o) == [];
    }
    forall f: nat, o: nat | f < |s.files| ensures Recorded(events + [e], cfg, s, f, o) {
      assert Recorded(events, cfg, s, f, o);
    }
  }

  lemma HeldRecorded(events: seq<Event>, s: System, e: Event, cfg: Config)
    requires AllRecorded(events, cfg, s) && RefsInv(s) && e.Arrive? && e.thread in s.held
    requires forall o: nat :: Arrived(events + [e], cfg, o) == Arrived(events, cfg, o) + ArrivedNow(s, e, o)
    ensures AllRecorded(events + [e], cfg, Step(s, e, cfg))
  {
    hide ReceiveIn, Arrived, Keep, DataOf, FileInv;
    var target := s.held[e.thread];
    var obj := s.objects[target];
    var (state, file) := ReceiveIn(s.files[obj.file], target, obj.state, Labels(obj.signal, e.uuid, 0), e.packet,
                                   cfg.native);
    ReceiveRecords(s.files[obj.file], target, obj.state, Labels(obj.signal, e.uuid, 0), e.packet, cfg.native);
    var r := Replaced(s, target, state, file);
    forall f: nat, o: nat | f < |r.files| ensures Recorded(events + [e], cfg, r, f, o) {
      assert Recorded(events, cfg, s, f, o);
      ReplacedRecorded(Arrived(events, cfg, o), Arrived(events + [e], cfg, o), s, target, state, file, e.packet,
                       cfg.native, f, o);
    }
    assert Step(s, e, cfg) == r;
  }

  lemma {:induction false} RunRecords(events: seq<Event>, cfg: Config)
    ensures AllRecorded(events, cfg, Run(events, cfg))
  {
    hide Step, AllRecorded, Inv, Quiet;
    if events == [] {
      NothingRecorded(events, cfg);
    } else {
      var init, last := events[..|events| - 1], events[|events| - 1];
      RunRecords(init, cfg);
      RunInv(init, cfg);
      assert init + [last] == events;
      if last.Arrive? {
        ArriveRecorded(init, Run(init, cfg), last, cfg);
      } else {
        StepQuiet(Run(init, cfg), last, cfg);
        QuietRecorded(init, last, cfg, Step(Run(init, cfg), last, cfg));
      }
    }
  }

  lemma NothingRecorded(events: seq<Event>, cfg: Config)
    requires events == []
    ensures AllRecorded(events, cfg, Run(events, cfg))
  {
  }

  /** Conservation: in every run the file of a signal object holds, for that object, exactly the
      acceptable packets that arrived at it, in order; no other file holds any. */
  lemma {:induction false} Conservation(events: seq<Event>, cfg: Config, o: nat, f: nat)
    requires o < |Run(events, cfg).objects| && f < |Run(events, cfg).files|
    ensures DataOf(Run(events, cfg).files[f].log, o)
         == if Run(events, cfg).objects[o].file == f then Keep(Arrived(events, cfg, o)) else []
  {
    RunRecords(events, cfg);
    assert Recorded(events, cfg, Run(events, cfg), f, o);
  }
}
