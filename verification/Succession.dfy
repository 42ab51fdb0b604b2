/** How handlers follow one another: a signal object declares a new one exactly when a packet comes with other
    descriptors than the packet before it, over every run. */
module Succession {
  import opened Bytes
  import opened Descriptors
  import opened SampleTypes
  import opened LogicalLayer
  import opened Handlers
  import opened HandlerChoice
  import opened FileLog
  import opened Runs
  import opened Delivery
  import opened Partition

  type Pair = (DataDescriptor, DataDescriptor)

  /** The descriptors of the last packet; none before the first. */
  function Seen(packets: seq<Packet>): (Option<DataDescriptor>, Option<DataDescriptor>) {
    if packets == [] then (None, None)
    else (packets[|packets| - 1].descriptor, DomainDescriptor(packets[|packets| - 1]))
  }

  /** The packet comes with a value or domain descriptor that differs from that of the last one. */
  predicate Differs(before: seq<Packet>, packet: Packet) {
    packet.descriptor != Seen(before).0 || DomainDescriptor(packet) != Seen(before).1
  }

  /** The descriptors a signal has one after the other, as far as they can be recorded. */
  function Successions(packets: seq<Packet>): seq<Pair> {
    if packets == [] then []
    else
      var init, last := packets[..|packets| - 1], packets[|packets| - 1];
      Successions(init)
      + if Differs(init, last) && Buildable(last.descriptor, DomainDescriptor(last))
        then [(last.descriptor.value, DomainDescriptor(last).value)] else []
  }

  /** The descriptors a signal object declared handlers for. */
  function DeclaredBy(log: seq<Entry>, o: nat): seq<Pair> {
    if log == [] then []
    else
      var last := log[|log| - 1];
      DeclaredBy(log[..|log| - 1], o)
      + if last.Declared? && last.owner == o then [(last.binding.value, last.binding.domain)] else []
  }

  lemma DeclaredLast(log: seq<Entry>, e: Entry, o: nat)
    ensures DeclaredBy(log + [e], o)
         == DeclaredBy(log, o) + if e.Declared? && e.owner == o then [(e.binding.value, e.binding.domain)] else []
  {
    assert (log + [e])[..|log|] == log;
  }

  lemma SuccessionsLast(packets: seq<Packet>, p: Packet)
    ensures Successions(packets + [p])
         == Successions(packets)
            + if Differs(packets, p) && Buildable(p.descriptor, DomainDescriptor(p))
              then [(p.descriptor.value, DomainDescriptor(p).value)] else []
    ensures Seen(packets + [p]) == (p.descriptor, DomainDescriptor(p))
  {
    assert (packets + [p])[..|packets|] == packets;
  }

  // ----- One packet -----

  function NextIds(w: WriterState): (nat, nat, nat) {
    (w.nextGroup, w.nextDecoder, w.nextChannel)
  }

  /** Delivering declares nothing. */
  lemma DeliverDeclares(f: FileState, owner: nat, h: Handler, packet: Packet, native: Endian, o: nat)
    ensures var f' := DeliverIn(f, owner, h, packet, native);
            && DeclaredBy(f'.log, o) == DeclaredBy(f.log, o)
            && f'.taken == f.taken && NextIds(f'.writer) == NextIds(f.writer)
  {
    if DataPayload(h, packet, native).Some? {
      DeclaredLast(f.log, Data(owner, h, packet), o);
      assert DeclaredBy(f.log, o) + [] == DeclaredBy(f.log, o);
    }
  }

  lemma CreateDeclares(f: FileState, owner: nat, labels: Labels, value: Option<DataDescriptor>,
                       domain: Option<DataDescriptor>, native: Endian, o: nat)
    ensures var f' := CreateIn(f, owner, labels, value, domain, native).1;
            && f'.taken == f.taken + (if IsSupported(value, domain) then 1 else 0)
            && DeclaredBy(f'.log, o)
               == DeclaredBy(f.log, o)
                  + if o == owner && Buildable(value, domain) then [(value.value, domain.value)] else []
  {
    hide Create, Choose, IsScalarSignal, IsMessageSignal, IsSupported, DeclaredBy;
    CreatedIff(f.writer, labels, value, domain, native);
    var (h, f') := CreateIn(f, owner, labels, value, domain, native);
    if h.Some? {
      BuildableParts(value, domain);
      DeclaredLast(f.log, f'.log[|f.log|], o);
    } else {
      assert DeclaredBy(f.log, o) + [] == DeclaredBy(f.log, o);
    }
  }

  lemma BuildableParts(value: Option<DataDescriptor>, domain: Option<DataDescriptor>)
    requires Buildable(value, domain)
    ensures value.Some? && domain.Some?
  {
  }

  /** A packet with other descriptors than the last one makes a handler for them, if there is one, and takes
      ids; a packet with the same descriptors declares nothing and leaves handler and ids alone. */
  lemma {:induction false} PacketSucceeds(f: FileState, owner: nat, s: SignalState, labels: Labels, packet: Packet,
                                          native: Endian)
    ensures var (s', f') := ReceiveIn(f, owner, s, labels, packet, native);
            var (value, domain) := (packet.descriptor, DomainDescriptor(packet));
            var other := value != s.lastValue || domain != s.lastDomain;
            && (s'.lastValue, s'.lastDomain) == (value, domain)
            && f'.taken == f.taken + (if other && IsSupported(value, domain) then 1 else 0)
            && (!other ==> s'.handler == s.handler && NextIds(f'.writer) == NextIds(f.writer))
            && forall o :: DeclaredBy(f'.log, o)
                 == DeclaredBy(f.log, o)
                    + if o == owner && other && Buildable(value, domain) then [(value.value, domain.value)] else []
  {
    hide CreateIn, DeliverIn, IsSupported, Buildable, DeclaredBy;
    var (value, domain) := (packet.descriptor, DomainDescriptor(packet));
    var (handler, ready) :=
      if Changed(s, packet) then CreateIn(f, owner, labels, value, domain, native) else (s.handler, f);
    var f' := ReceiveIn(f, owner, s, labels, packet, native).1;
    assert f' == if handler.Some? then DeliverIn(ready, owner, handler.value, packet, native) else ready;
    forall o ensures DeclaredBy(f'.log, o) == DeclaredBy(ready.log, o) {
      if handler.Some? {
        DeliverDeclares(ready, owner, handler.value, packet, native, o);
      }
    }
    if handler.Some? {
      DeliverDeclares(ready, owner, handler.value, packet, native, 0);
    }
    CreateDeclares(f, owner, labels, value, domain, native, 0);
    forall o
      ensures DeclaredBy(ready.log, o)
           == DeclaredBy(f.log, o)
              + if o == owner && Changed(s, packet) && Buildable(value, domain)
                then (BuildableParts(value, domain); [(value.value, domain.value)]) else []
    {
      CreateDeclares(f, owner, labels, value, domain, native, o);
      assert DeclaredBy(f.log, o) + [] == DeclaredBy(f.log, o);
    }
  }

  // ----- Runs -----

  /** The ids taken in a file: one of each kind for every packet with other descriptors, if the recorder
      begins to construct a handler for them. */
  ghost function TakenBy(events: seq<Event>, cfg: Config, f: nat): nat {
    if events == [] then 0
    else
      var init, last := events[..|events| - 1], events[|events| - 1];
      var s := Run(init, cfg);
      TakenBy(init, cfg, f)
      + if last.Arrive? && last.thread in s.held && s.held[last.thread] < |s.objects|
           && s.objects[s.held[last.thread]].file == f && Differs(Arrived(init, cfg, s.held[last.thread]), last.packet)
           && IsSupported(last.packet.descriptor, DomainDescriptor(last.packet))
        then 1 else 0
  }

  /** What the state of an object and the log and ids of a file should be. */
  ghost predicate ObjectSucceeds(events: seq<Event>, cfg: Config, s: System, o: nat) {
    if o < |s.objects| then
      (s.objects[o].state.lastValue, s.objects[o].state.lastDomain) == Seen(Arrived(events, cfg, o))
    else Arrived(events, cfg, o) == []
  }

  ghost predicate FileSucceeds(events: seq<Event>, cfg: Config, s: System, f: nat, o: nat)
    requires f < |s.files|
  {
    DeclaredBy(s.files[f].log, o)
    == if o < |s.objects| && s.objects[o].file == f then Successions(Arrived(events, cfg, o)) else []
  }

  ghost predicate Succeeds(events: seq<Event>, cfg: Config, s: System) {
    && (forall o: nat :: ObjectSucceeds(events, cfg, s, o))
    && (forall f: nat, o: nat :: f < |s.files| ==> FileSucceeds(events, cfg, s, f, o))
    && (forall f: nat :: (if f < |s.files| then s.files[f].taken else 0) == TakenBy(events, cfg, f))
  }

  lemma NoSuccessions(o: nat)
    ensures Successions([]) == [] && DeclaredBy([], o) == []
  {
  }

  lemma OpeningDeclares(log: seq<Entry>, o: nat)
    requires |log| == 1 && log[0].Opening?
    ensures DeclaredBy(log, o) == []
  {
    assert log[..0] == [];
  }

  lemma TakenLast(events: seq<Event>, e: Event, cfg: Config, f: nat)
    ensures var s := Run(events, cfg);
            TakenBy(events + [e], cfg, f)
            == TakenBy(events, cfg, f)
               + if e.Arrive? && e.thread in s.held && s.held[e.thread] < |s.objects|
                    && s.objects[s.held[e.thread]].file == f
                    && Differs(Arrived(events, cfg, s.held[e.thread]), e.packet)
                    && IsSupported(e.packet.descriptor, DomainDescriptor(e.packet))
                 then 1 else 0
  {
    assert (events + [e])[..|events|] == events;
  }

  /** Steps that hand nothing over. */
  lemma QuietSucceeds(events: seq<Event>, e: Event, cfg: Config, r: System)
    requires Succeeds(events, cfg, Run(events, cfg)) && RefsInv(Run(events, cfg))
    requires Quiet(Run(events, cfg), r) && forall o: nat :: ArrivedNow(Run(events, cfg), e, o) == []
    requires e.Arrive? ==> e.thread !in Run(events, cfg).held
    ensures Succeeds(events + [e], cfg, r)
  {
    hide Run, Arrived, Successions, DeclaredBy, Differs, IsSupported, TakenBy;
    var s := Run(events, cfg);
    forall o: nat ensures Arrived(events + [e], cfg, o) == Arrived(events, cfg, o) {
      ArrivedLast(events, e, cfg, o);
      assert Arrived(events, cfg, o) + [] == Arrived(events, cfg, o);
    }
    forall o: nat ensures ObjectSucceeds(events + [e], cfg, r, o) {
      assert ObjectSucceeds(events, cfg, s, o);
    }
    forall f: nat, o: nat | f < |r.files| ensures FileSucceeds(events + [e], cfg, r, f, o) {
      NoSuccessions(o);
      assert ObjectSucceeds(events, cfg, s, o);
      if f < |s.files| {
        assert FileSucceeds(events, cfg, s, f, o);
      } else {
        OpeningDeclares(r.files[f].log, o);
        assert o < |s.objects| ==> s.objects[o].file < |s.files|;
      }
    }
    forall f: nat
      ensures (if f < |r.files| then r.files[f].taken else 0) == TakenBy(events + [e], cfg, f)
    {
      TakenLast(events, e, cfg, f);
    }
  }

  /** A packet arrives at an object. */
  lemma HeldSucceeds(events: seq<Event>, e: Event, cfg: Config)
    requires Succeeds(events, cfg, Run(events, cfg)) && RefsInv(Run(events, cfg))
    requires e.Arrive? && e.thread in Run(events, cfg).held
    ensures Succeeds(events + [e], cfg, Step(Run(events, cfg), e, cfg))
  {
    hide Run, Arrived, Successions, DeclaredBy, IsSupported, Buildable, TakenBy, ReceiveIn, Seen;
    var s := Run(events, cfg);
    var target := s.held[e.thread];
    var obj := s.objects[target];
    var labels := Labels(obj.signal, e.uuid, 0);
    var (state, file) := ReceiveIn(s.files[obj.file], target, obj.state, labels, e.packet, cfg.native);
    PacketSucceeds(s.files[obj.file], target, obj.state, labels, e.packet, cfg.native);
    var r := Replaced(s, target, state, file);
    assert Step(s, e, cfg) == r;
    assert ObjectSucceeds(events, cfg, s, target);
    SuccessionsLast(Arrived(events, cfg, target), e.packet);
    forall o: nat ensures Arrived(events + [e], cfg, o) == Arrived(events, cfg, o) + ArrivedNow(s, e, o) {
      ArrivedLast(events, e, cfg, o);
    }
    forall o: nat ensures ObjectSucceeds(events + [e], cfg, r, o) {
      assert ObjectSucceeds(events, cfg, s, o);
      assert Arrived(events, cfg, o) + [] == Arrived(events, cfg, o);
    }
    forall f: nat, o: nat | f < |r.files| ensures FileSucceeds(events + [e], cfg, r, f, o) {
      assert FileSucceeds(events, cfg, s, f, o);
      assert Arrived(events, cfg, o) + [] == Arrived(events, cfg, o);
      assert DeclaredBy(s.files[f].log, o) + [] == DeclaredBy(s.files[f].log, o);
    }
    forall f: nat
      ensures (if f < |r.files| then r.files[f].taken else 0) == TakenBy(events + [e], cfg, f)
    {
      TakenLast(events, e, cfg, f);
    }
  }

  lemma {:induction false} RunSucceeds(events: seq<Event>, cfg: Config)
    ensures Succeeds(events, cfg, Run(events, cfg))
  {
    hide Step, Succeeds, Inv, Quiet;
    if events == [] {
      NothingSucceeds(events, cfg);
    } else {
      var init, last := events[..|events| - 1], events[|events| - 1];
      var s := Run(init, cfg);
      RunSucceeds(init, cfg);
      RunInv(init, cfg);
      InvParts(s, cfg.native);
      assert init + [last] == events;
      if last.Arrive? && last.thread in s.held {
        HeldSucceeds(init, last, cfg);
      } else {
        if last.Arrive? {
          UnheldIsQuiet(s, last, cfg);
        } else {
          StepQuiet(s, last, cfg);
        }
        QuietSucceeds(init, last, cfg, Step(s, last, cfg));
      }
    }
  }

  lemma NothingSucceeds(events: seq<Event>, cfg: Config)
    requires events == []
    ensures Succeeds(events, cfg, Run(events, cfg))
  {
  }

  lemma InvParts(s: System, native: Endian)
    requires Inv(s, native)
    ensures RefsInv(s)
  {
  }

  lemma UnheldIsQuiet(s: System, e: Event, cfg: Config)
    requires e.Arrive? && e.thread !in s.held
    ensures Quiet(s, Step(s, e, cfg))
  {
  }

  /** In every run the handlers a signal object declares are, one for one and in order, for the descriptors it
      was given one after the other, each as often as they changed to it; and the ids taken in a file are as
      many as there were such changes to descriptors the recorder supports. */
  lemma {:induction false} HandlersFollowDescriptors(events: seq<Event>, cfg: Config, o: nat, f: nat)
    requires o < |Run(events, cfg).objects| && Run(events, cfg).objects[o].file == f < |Run(events, cfg).files|
    ensures var file := Run(events, cfg).files[f];
            && DeclaredBy(file.log, o) == Successions(Arrived(events, cfg, o))
            && |GroupsOf(file.log, o)| == |Successions(Arrived(events, cfg, o))|
            && file.taken == TakenBy(events, cfg, f)
  {
    RunSucceeds(events, cfg);
    var s := Run(events, cfg);
    assert FileSucceeds(events, cfg, s, f, o);
    GroupForEach(s.files[f].log, o);
  }

  lemma {:induction false} GroupForEach(log: seq<Entry>, o: nat)
    ensures |GroupsOf(log, o)| == |DeclaredBy(log, o)|
  {
    if log != [] {
      GroupForEach(log[..|log| - 1], o);
    }
  }

  /** Packets with the same descriptors all along: one handler at most. */
  lemma {:induction false} SameDescriptors(packets: seq<Packet>)
    requires packets != [] && forall i :: 0 <= i < |packets| ==>
               && packets[i].descriptor == packets[0].descriptor
               && DomainDescriptor(packets[i]) == DomainDescriptor(packets[0])
    ensures |Successions(packets)| == if Buildable(packets[0].descriptor, DomainDescriptor(packets[0])) then 1 else 0
  {
    var init := packets[..|packets| - 1];
    if init == [] {
      NoSuccessions(0);
      assert Successions(init) == [];
    } else {
      SameDescriptors(init);
      assert init[|init| - 1] == packets[|packets| - 2];
    }
  }
}
