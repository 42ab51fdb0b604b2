/** From the packets of a scalar signal to the samples a reader finds under the signal's global id, with
    nothing but the bytes of the file. */
module InputStreams {
  import opened Bytes
  import Xml
  import opened XmlReader
  import opened IndexAgreement
  import opened Reader
  import opened Descriptors
  import opened SampleTypes
  import opened Handlers
  import opened HandlerChoice
  import opened FileLog
  import opened Runs
  import opened RunGrowth
  import opened Disk
  import opened Preamble
  import opened Ownership
  import opened Metadata
  import opened Readback
  import opened RunTheorems
  import opened Delivery
  import opened Partition
  import opened SignalStreams
  import opened InputChannels

  // ----- Where declarations come from -----

  predicate HasCan(packets: seq<Packet>) {
    exists i :: 0 <= i < |packets| && IsMessageSignal(packets[i].descriptor, DomainDescriptor(packets[i]))
  }

  /** A declaration was made for the descriptors of this packet, by the handler that records them. */
  predicate MadeFor(e: Entry, packet: Packet)
    requires e.Declared?
  {
    && Some(e.binding.value) == packet.descriptor
    && packet.domain.Some? && Some(e.binding.domain) == packet.domain.value.descriptor
    && (e.handler.CanHandler? <==> IsMessageSignal(packet.descriptor, packet.domain.value.descriptor))
    && (e.handler.ScalarHandler? <==> IsScalarSignal(packet.descriptor, packet.domain.value.descriptor))
  }

  predicate MadeForOne(e: Entry, packets: seq<Packet>)
    requires e.Declared?
  {
    exists k :: 0 <= k < |packets| && MadeFor(e, packets[k])
  }

  /** A declaration was made in test 0 for the signal of its owner, which writes to this file, and for the
      descriptors of a packet that arrived there. */
  predicate FromOwner(e: Entry, f: nat, objects: seq<Object>, arrived: seq<Packet>)
    requires e.Declared?
  {
    && e.owner < |objects| && objects[e.owner].file == f && e.labels.signal == objects[e.owner].signal
    && e.labels.testId == 0 && MadeForOne(e, arrived)
  }

  ghost predicate Origins(events: seq<Event>, cfg: Config, s: System) {
    forall f, i :: 0 <= f < |s.files| && 0 <= i < |s.files[f].log| && s.files[f].log[i].Declared? ==>
      FromOwner(s.files[f].log[i], f, s.objects, Arrived(events, cfg, s.files[f].log[i].owner))
  }

  /** What a packet adds to the log of its file. */
  lemma ReceiveDeclares(f: FileState, owner: nat, s: SignalState, labels: Labels, packet: Packet, native: Endian)
    ensures var log := ReceiveIn(f, owner, s, labels, packet, native).1.log;
            && f.log <= log
            && forall i :: |f.log| <= i < |log| && log[i].Declared? ==>
                 log[i].owner == owner && log[i].labels == labels && MadeFor(log[i], packet)
  {
    hide CreateIn, Deliver, DataPayload, Choose, IsMessageSignal, IsScalarSignal;
    CreateDeclares(f, owner, labels, packet.descriptor, DomainDescriptor(packet), native);
    NothingWithoutDomain(packet.descriptor);
  }

  lemma CreateDeclares(f: FileState, owner: nat, labels: Labels, value: Option<DataDescriptor>,
                       domain: Option<DataDescriptor>, native: Endian)
    ensures var log := CreateIn(f, owner, labels, value, domain, native).1.log;
            && f.log <= log && |log| <= |f.log| + 1
            && (|log| > |f.log| ==>
                  var e := log[|f.log|];
                  && e.Declared? && e.owner == owner && e.labels == labels
                  && Some(e.binding.value) == value && Some(e.binding.domain) == domain
                  && (e.handler.CanHandler? <==> IsMessageSignal(value, domain))
                  && (e.handler.ScalarHandler? <==> IsScalarSignal(value, domain)))
  {
    hide Create, Choose, IsScalarSignal, IsMessageSignal;
    CreatedIff(f.writer, labels, value, domain, native);
    if Buildable(value, domain) {
      BothGiven(value, domain);
    }
  }

  lemma BothGiven(value: Option<DataDescriptor>, domain: Option<DataDescriptor>)
    requires Buildable(value, domain)
    ensures value.Some? && domain.Some?
  {
  }

  lemma NothingWithoutDomain(value: Option<DataDescriptor>)
    ensures !Buildable(value, None)
  {
  }

  lemma MadeForMore(e: Entry, packets: seq<Packet>, packet: Packet)
    requires e.Declared?
    ensures MadeForOne(e, packets) || MadeFor(e, packet) ==> MadeForOne(e, packets + [packet])
  {
    var more := packets + [packet];
    if MadeForOne(e, packets) {
      var k :| 0 <= k < |packets| && MadeFor(e, packets[k]);
      assert more[k] == packets[k];
    }
    assert more[|packets|] == packet;
  }

  lemma CanWasSeen(e: Entry, packets: seq<Packet>)
    requires e.Declared? && e.handler.CanHandler? && MadeForOne(e, packets)
    ensures HasCan(packets)
  {
    var k :| 0 <= k < |packets| && MadeFor(e, packets[k]);
    assert IsMessageSignal(packets[k].descriptor, DomainDescriptor(packets[k]));
  }

  lemma QuietOrigins(events: seq<Event>, e: Event, cfg: Config, s: System, r: System)
    requires Origins(events, cfg, s) && Quiet(s, r) && !e.Arrive? && s == Run(events, cfg)
    ensures Origins(events + [e], cfg, r)
  {
    hide Run;
    forall f, i | 0 <= f < |r.files| && 0 <= i < |r.files[f].log| && r.files[f].log[i].Declared?
      ensures FromOwner(r.files[f].log[i], f, r.objects, Arrived(events + [e], cfg, r.files[f].log[i].owner))
    {
      var entry := r.files[f].log[i];
      assert f < |s.files| && s.files[f].log[i] == entry;
      assert FromOwner(entry, f, s.objects, Arrived(events, cfg, entry.owner));
      ArrivedLast(events, e, cfg, entry.owner);
      assert Arrived(events, cfg, entry.owner) + [] == Arrived(events, cfg, entry.owner);
    }
  }

  lemma HeldOrigins(events: seq<Event>, e: Event, cfg: Config, s: System)
    requires Origins(events, cfg, s) && s == Run(events, cfg) && RefsInv(s) && e.Arrive? && e.thread in s.held
    ensures Origins(events + [e], cfg, Step(s, e, cfg))
  {
    hide Run, ReceiveIn, FileInv;
    var target := s.held[e.thread];
    var obj := s.objects[target];
    var labels := Labels(obj.signal, e.uuid, 0);
    ReceiveDeclares(s.files[obj.file], target, obj.state, labels, e.packet, cfg.native);
    var (state, file) := ReceiveIn(s.files[obj.file], target, obj.state, labels, e.packet, cfg.native);
    var r := Replaced(s, target, state, file);
    assert Step(s, e, cfg) == r;
    forall f, i | 0 <= f < |r.files| && 0 <= i < |r.files[f].log| && r.files[f].log[i].Declared?
      ensures FromOwner(r.files[f].log[i], f, r.objects, Arrived(events + [e], cfg, r.files[f].log[i].owner))
    {
      var entry := r.files[f].log[i];
      ArrivedLast(events, e, cfg, entry.owner);
      if f != obj.file || i < |s.files[f].log| {
        OldOrigin(events, e, cfg, s, r, entry, f, i);
      } else {
        MadeForMore(entry, Arrived(events, cfg, target), e.packet);
      }
    }
  }

  lemma {:induction false} OldOrigin(events: seq<Event>, e: Event, cfg: Config, s: System, r: System, entry: Entry,
                                     f: nat, i: nat)
    requires Origins(events, cfg, s) && s == Run(events, cfg) && e.Arrive? && e.thread in s.held
    requires f < |s.files| && i < |s.files[f].log| && s.files[f].log[i] == entry && entry.Declared?
    requires |r.objects| == |s.objects|
    requires forall o :: 0 <= o < |s.objects| ==>
               r.objects[o].file == s.objects[o].file && r.objects[o].signal == s.objects[o].signal
    ensures FromOwner(entry, f, r.objects, Arrived(events + [e], cfg, entry.owner))
  {
    hide Run;
    assert FromOwner(entry, f, s.objects, Arrived(events, cfg, entry.owner));
    ArrivedLast(events, e, cfg, entry.owner);
    if s.held[e.thread] == entry.owner {
      MadeForMore(entry, Arrived(events, cfg, entry.owner), e.packet);
    } else {
      assert Arrived(events, cfg, entry.owner) + [] == Arrived(events, cfg, entry.owner);
    }
  }

  lemma {:induction false} UnheldOrigins(events: seq<Event>, e: Event, cfg: Config, s: System)
    requires Origins(events, cfg, s) && s == Run(events, cfg) && e.Arrive? && e.thread !in s.held
    ensures Origins(events + [e], cfg, Step(s, e, cfg))
  {
    hide Run;
    assert Step(s, e, cfg) == s;
    forall f, i | 0 <= f < |s.files| && 0 <= i < |s.files[f].log| && s.files[f].log[i].Declared?
      ensures FromOwner(s.files[f].log[i], f, s.objects, Arrived(events + [e], cfg, s.files[f].log[i].owner))
    {
      var o := s.files[f].log[i].owner;
      assert FromOwner(s.files[f].log[i], f, s.objects, Arrived(events, cfg, o));
      ArrivedLast(events, e, cfg, o);
      assert Arrived(events, cfg, o) + [] == Arrived(events, cfg, o);
    }
  }

  lemma {:induction false} RunOrigins(events: seq<Event>, cfg: Config)
    ensures Origins(events, cfg, Run(events, cfg))
  {
    hide Step, Origins, Inv, Quiet;
    if events == [] {
      NothingDeclared(events, cfg);
    } else {
      var init, last := events[..|events| - 1], events[|events| - 1];
      var s := Run(init, cfg);
      RunOrigins(init, cfg);
      RunInv(init, cfg);
      assert init + [last] == events;
      if !last.Arrive? {
        StepQuiet(s, last, cfg);
        QuietOrigins(init, last, cfg, s, Step(s, last, cfg));
      } else if last.thread in s.held {
        RefsOf(s, cfg.native);
        HeldOrigins(init, last, cfg, s);
      } else {
        UnheldOrigins(init, last, cfg, s);
      }
    }
  }

  lemma NothingDeclared(events: seq<Event>, cfg: Config)
    requires events == []
    ensures Origins(events, cfg, Run(events, cfg))
  {
  }

  lemma RefsOf(s: System, native: Endian)
    requires Inv(s, native)
    ensures RefsInv(s)
  {
  }

  // ----- The groups of one signal object -----

  lemma {:induction false} GroupsOfFront(log: seq<Entry>, o: nat)
    requires log != []
    ensures GroupsOf(log, o)
         == (if log[0].Declared? && log[0].owner == o then [log[0].handler.group] else []) + GroupsOf(log[1..], o)
    decreases |log|
  {
    hide GroupsOf;
    GroupsUnfold(log, o);
    NoGroups(o);
    if |log| == 1 {
      assert log[..0] == [] && log[1..] == [];
    } else {
      var init := log[..|log| - 1];
      GroupsOfFront(init, o);
      GroupsUnfold(log[1..], o);
      assert init[1..] == log[1..][..|log| - 2] && log[1..][|log| - 2] == log[|log| - 1];
    }
  }

  lemma NoGroups(o: nat)
    ensures GroupsOf([], o) == []
  {
  }

  lemma GroupsUnfold(log: seq<Entry>, o: nat)
    requires log != []
    ensures var last := log[|log| - 1];
            GroupsOf(log, o)
            == GroupsOf(log[..|log| - 1], o) + if last.Declared? && last.owner == o then [last.handler.group] else []
  {
  }

  /** The groups of several signal objects, one object after the other. */
  function AllGroups(log: seq<Entry>, os: seq<nat>): seq<nat> {
    if os == [] then [] else GroupsOf(log, os[0]) + AllGroups(log, os[1..])
  }

  predicate Distinct(os: seq<nat>) {
    forall a, b :: 0 <= a < b < |os| ==> os[a] != os[b]
  }

  /** No object declares a handler after one further on in the list has done so. */
  predicate TakeTurns(log: seq<Entry>, os: seq<nat>) {
    forall i, j, a, b :: 0 <= i < j < |log| && 0 <= b < a < |os| ==>
      !(log[i].Declared? && log[j].Declared? && log[i].owner == os[a] && log[j].owner == os[b])
  }

  lemma {:induction false} NothingOwned(log: seq<Entry>, o: nat)
    requires forall i :: 0 <= i < |log| && log[i].Declared? ==> log[i].owner != o
    ensures GroupsOf(log, o) == []
  {
    if log != [] {
      NothingOwned(log[..|log| - 1], o);
    }
  }

  lemma {:induction false} EmptyLog(os: seq<nat>)
    ensures AllGroups([], os) == []
  {
    if os != [] {
      EmptyLog(os[1..]);
    }
  }

  /** An entry that declares nothing for these objects. */
  lemma {:induction false} OthersGroups(log: seq<Entry>, os: seq<nat>)
    requires log != [] && (log[0].Declared? ==> log[0].owner !in os)
    ensures AllGroups(log, os) == AllGroups(log[1..], os)
  {
    if os != [] {
      assert os[0] in os;
      GroupsOfFront(log, os[0]);
      OthersGroups(log, os[1..]);
      assert [] + GroupsOf(log[1..], os[0]) == GroupsOf(log[1..], os[0]);
    }
  }

  /** The first declaration, when no object before its owner declares anything. */
  lemma {:induction false} FirstGroup(log: seq<Entry>, os: seq<nat>, a: nat)
    requires log != [] && log[0].Declared? && a < |os| && log[0].owner == os[a] && Distinct(os)
    requires forall b :: 0 <= b < a ==> GroupsOf(log, os[b]) == []
    ensures AllGroups(log, os) == [log[0].handler.group] + AllGroups(log[1..], os)
    decreases |os|
  {
    hide GroupsOf;
    var rest := AllGroups(log[1..], os[1..]);
    GroupsOfFront(log, os[0]);
    if a == 0 {
      OthersGroups(log, os[1..]);
      assert [log[0].handler.group] + GroupsOf(log[1..], os[0]) + rest
          == [log[0].handler.group] + (GroupsOf(log[1..], os[0]) + rest);
    } else {
      assert os[1..][a - 1] == os[a];
      FirstGroup(log, os[1..], a - 1);
      assert GroupsOf(log[1..], os[0]) == [];
      assert [] + ([log[0].handler.group] + rest) == [log[0].handler.group] + ([] + rest);
    }
  }

  /** The declarations of these signal objects are the scalar ones that name the signal. */
  predicate OnlyInputs(log: seq<Entry>, os: seq<nat>, input: string) {
    forall i :: 0 <= i < |log| && log[i].Declared? ==>
      log[i].handler.group == log[i].binding.group
      && (log[i].owner in os
          <==> log[i].handler.ScalarHandler? && NormalizeEol(log[i].labels.signal.globalId) == input)
  }

  lemma {:induction false} InputsAreGroups(log: seq<Entry>, os: seq<nat>, input: string)
    requires OnlyInputs(log, os, input) && TakeTurns(log, os) && Distinct(os)
    ensures InputsOf(log, input) == AllGroups(log, os)
  {
    if log == [] {
      EmptyLog(os);
    } else {
      InputsAreGroups(log[1..], os, input);
      if log[0].Declared? && log[0].owner in os {
        var a :| 0 <= a < |os| && log[0].owner == os[a];
        forall b | 0 <= b < a ensures GroupsOf(log, os[b]) == [] {
          NothingOwned(log, os[b]);
        }
        FirstGroup(log, os, a);
      } else {
        OthersGroups(log, os);
        assert [] + InputsOf(log[1..], input) == InputsOf(log[1..], input);
      }
    }
  }

  /** These are all the objects of the file for signals with this id, whatever its line ends, and nothing but
      scalar packets arrived at them. */
  ghost predicate AllOfItsName(events: seq<Event>, cfg: Config, f: nat, os: seq<nat>, input: string) {
    var s := Run(events, cfg);
    && Distinct(os)
    && (forall a :: 0 <= a < |os| ==> os[a] < |s.objects|)
    && (forall p :: 0 <= p < |s.objects| ==>
          (p in os <==> s.objects[p].file == f && NormalizeEol(s.objects[p].signal.globalId) == input))
    && (forall a :: 0 <= a < |os| ==> !HasCan(Arrived(events, cfg, os[a])))
  }

  lemma {:induction false} InputsAreOwn(events: seq<Event>, cfg: Config, f: nat, os: seq<nat>, input: string)
    requires f < |Run(events, cfg).files| && AllOfItsName(events, cfg, f, os, input)
    ensures OnlyInputs(Run(events, cfg).files[f].log, os, input)
  {
    hide Run, Arrived, NormalizeEol;
    var s := Run(events, cfg);
    var log := s.files[f].log;
    RunOrigins(events, cfg);
    FileFacts(events, cfg, f);
    forall i | 0 <= i < |log| && log[i].Declared?
      ensures log[i].handler.group == log[i].binding.group
      ensures log[i].owner in os
         <==> log[i].handler.ScalarHandler? && NormalizeEol(log[i].labels.signal.globalId) == input
    {
      assert EntryInOrder(log, cfg.native, s.files[f].taken, i);
      assert FromOwner(log[i], f, s.objects, Arrived(events, cfg, log[i].owner));
      if log[i].handler.CanHandler? {
        CanWasSeen(log[i], Arrived(events, cfg, log[i].owner));
      }
    }
  }

  // ----- One object after the other -----

  /** The signal object a packet arrives at. */
  function TargetOf(s: System, e: Event): Option<nat> {
    if e.Arrive? && e.thread in s.held then Some(s.held[e.thread]) else None
  }

  /** Nothing arrives at an object after something has arrived at one further on in the list. */
  ghost predicate InSuccession(events: seq<Event>, cfg: Config, os: seq<nat>) {
    events == []
    || (var init, last := events[..|events| - 1], events[|events| - 1];
        && InSuccession(init, cfg, os)
        && forall a, b :: 0 <= b < a < |os| && TargetOf(Run(init, cfg), last) == Some(os[b]) ==>
             Arrived(init, cfg, os[a]) == [])
  }

  /** What a step does to the log of a file: nothing, or it adds entries of the object a packet arrives at. */
  lemma LogStep(s: System, e: Event, cfg: Config, f: nat)
    requires RefsInv(s) && f < |Step(s, e, cfg).files|
    ensures var log := Step(s, e, cfg).files[f].log;
            && (f >= |s.files| ==> |log| == 1 && log[0].Opening?)
            && (f < |s.files| ==> s.files[f].log <= log)
            && (f < |s.files| ==> forall j :: |s.files[f].log| <= j < |log| && log[j].Declared? ==>
                  TargetOf(s, e) == Some(log[j].owner))
  {
    if e.Arrive? {
      if e.thread in s.held {
        var target := s.held[e.thread];
        var obj := s.objects[target];
        var labels := Labels(obj.signal, e.uuid, 0);
        ReceiveDeclares(s.files[obj.file], target, obj.state, labels, e.packet, cfg.native);
        var (state, file) := ReceiveIn(s.files[obj.file], target, obj.state, labels, e.packet, cfg.native);
        assert Step(s, e, cfg) == Replaced(s, target, state, file);
      }
    } else {
      StepQuiet(s, e, cfg);
    }
  }

  lemma {:induction false} TurnsTaken(events: seq<Event>, cfg: Config, f: nat, os: seq<nat>)
    requires InSuccession(events, cfg, os) && Distinct(os) && f < |Run(events, cfg).files|
    ensures TakeTurns(Run(events, cfg).files[f].log, os)
  {
    hide Step, Arrived, FromOwner;
    if events != [] {
      var init, last := events[..|events| - 1], events[|events| - 1];
      var s := Run(init, cfg);
      RunInv(init, cfg);
      RefsOf(s, cfg.native);
      LogStep(s, last, cfg, f);
      RunOrigins(init, cfg);
      if f < |s.files| {
        TurnsTaken(init, cfg, f, os);
        TurnsKept(init, cfg, last, f, os);
      }
    }
  }

  lemma TurnsKept(init: seq<Event>, cfg: Config, last: Event, f: nat, os: seq<nat>)
    requires var s := Run(init, cfg);
             && Origins(init, cfg, s) && RefsInv(s) && Distinct(os) && f < |s.files|
             && f < |Step(s, last, cfg).files| && TakeTurns(s.files[f].log, os)
             && forall a, b :: 0 <= b < a < |os| && TargetOf(s, last) == Some(os[b]) ==> Arrived(init, cfg, os[a]) == []
    ensures TakeTurns(Step(Run(init, cfg), last, cfg).files[f].log, os)
  {
    hide Run, Step, Arrived;
    var s := Run(init, cfg);
    LogStep(s, last, cfg, f);
    var before, log := s.files[f].log, Step(s, last, cfg).files[f].log;
    forall i | 0 <= i < |before| && before[i].Declared? ensures Arrived(init, cfg, before[i].owner) != [] {
      assert FromOwner(before[i], f, s.objects, Arrived(init, cfg, before[i].owner));
    }
    forall i, j, a, b | 0 <= i < j < |log| && 0 <= b < a < |os|
      ensures !(log[i].Declared? && log[j].Declared? && log[i].owner == os[a] && log[j].owner == os[b])
    {
      assert i < |before| ==> log[i] == before[i];
      assert j < |before| ==> log[j] == before[j];
    }
  }

  // ----- What arrived -----

  /** The acceptable packets that arrived at these objects, one object after the other. */
  ghost function AllKept(events: seq<Event>, cfg: Config, os: seq<nat>): seq<Packet> {
    if os == [] then [] else Keep(Arrived(events, cfg, os[0])) + AllKept(events, cfg, os[1..])
  }

  lemma {:induction false} GroupPacketsConcat(log: seq<Entry>, a: seq<nat>, b: seq<nat>)
    ensures GroupPackets(log, a + b) == GroupPackets(log, a) + GroupPackets(log, b)
    decreases |b|
  {
    hide Accepted;
    if b == [] {
      assert a + b == a;
      assert GroupPackets(log, a) + [] == GroupPackets(log, a);
    } else {
      var init, g := b[..|b| - 1], b[|b| - 1];
      GroupPacketsConcat(log, a, init);
      GroupPacketsLast(log, a + init, g);
      GroupPacketsLast(log, init, g);
      assert b == init + [g] && a + b == a + init + [g];
      hide GroupPackets;
      assert GroupPackets(log, a) + GroupPackets(log, init) + Accepted(log, g)
          == GroupPackets(log, a) + (GroupPackets(log, init) + Accepted(log, g));
    }
  }

  lemma {:induction false} AllArrived(events: seq<Event>, cfg: Config, f: nat, os: seq<nat>)
    requires f < |Run(events, cfg).files| && Run(events, cfg).files[f].taken <= MOST_IDS
    requires var s := Run(events, cfg);
             forall a :: 0 <= a < |os| ==> os[a] < |s.objects| && s.objects[os[a]].file == f
    ensures var log := Run(events, cfg).files[f].log;
            GroupPackets(log, AllGroups(log, os)) == AllKept(events, cfg, os)
  {
    hide Run, Keep, Arrived, GroupsOf;
    if os != [] {
      var log := Run(events, cfg).files[f].log;
      ArrivedByGroup(events, cfg, os[0]);
      AllArrived(events, cfg, f, os[1..]);
      GroupPacketsConcat(log, GroupsOf(log, os[0]), AllGroups(log, os[1..]));
    }
  }

  lemma {:induction false} InputsDeclared(log: seq<Entry>, input: string)
    requires forall i :: 0 <= i < |log| && log[i].Declared? ==> log[i].handler.group == log[i].binding.group
    ensures AreDeclared(log, InputsOf(log, input))
  {
    if log != [] {
      InputsDeclared(log[1..], input);
      var groups := InputsOf(log, input);
      forall k | 0 <= k < |groups| ensures IsDeclared(log, groups[k]) {
        var own := |InputOf(log[0], input)|;
        if k < own {
          assert log[0].Declared? && log[0].handler.group == groups[k];
        } else {
          assert IsDeclared(log[1..], InputsOf(log[1..], input)[k - own]);
          var i :| 0 <= i < |log| - 1 && log[1..][i].Declared? && log[1..][i].handler.group == groups[k];
          assert log[i + 1].Declared? && log[i + 1].handler.group == groups[k];
        }
      }
    }
  }

  // ----- The whole way -----

  lemma ReadInputParts(bytes: seq<Byte>, contents: Contents, groups: seq<nat>, input: string)
    requires ReadFile(bytes) == Some(contents) && InputGroups(contents.elements, input) == Some(groups)
    ensures ReadInput(bytes, input) == ReadGroups(bytes, groups)
  {
  }

  lemma FileParts(events: seq<Event>, cfg: Config, f: nat) returns (front: seq<Xml.Element>)
    requires IsPreamble(cfg.preamble) && Finished(events, cfg, f)
    requires Representable(Run(events, cfg).files[f], cfg.native)
    ensures AreStandardElements(front)
    ensures var file := Run(events, cfg).files[f];
            && LogInOrder(file.log, cfg.native, file.taken) && file.taken <= MOST_IDS && NarrowLog(file.log, cfg.native)
            && ReadFile(Under(events, cfg, file.name))
               == Some(Contents(ClosedBlocks(LogBlocks(file.log, cfg.native)), front
                   + CanonicalAll(LogElements(file.log, cfg.native))))
  {
    hide *;
    FinishedContent(events, cfg, f);
    FinishedParts(events, cfg, f);
    var file := Run(events, cfg).files[f];
    PartsOf(file, cfg);
    front := TextContents(cfg.preamble, file.log, cfg.native, file.taken);
  }

  lemma PartsOf(file: FileState, cfg: Config)
    requires FileInv(file, cfg.native) && StartsWithPreamble(file, cfg) && Representable(file, cfg.native)
    ensures LogInOrder(file.log, cfg.native, file.taken) && file.taken <= MOST_IDS && NarrowLog(file.log, cfg.native)
    ensures file.log != [] && file.log[0] == Opening(OpeningText(cfg.preamble)) && FileFits(file.log, cfg.native)
  {
    TextsAreNarrow(file.log, cfg.native, file.taken);
  }

  lemma GroupsAgree(log: seq<Entry>, native: Endian, taken: nat)
    requires LogInOrder(log, native, taken)
    ensures forall i :: 0 <= i < |log| && log[i].Declared? ==> log[i].handler.group == log[i].binding.group
  {
    forall i | 0 <= i < |log| && log[i].Declared? ensures log[i].handler.group == log[i].binding.group {
      assert EntryInOrder(log, native, taken, i);
    }
  }

  /** What a reader gets from the bytes under the name of a finished recording for any global id: the samples
      of all packets of all scalar groups declared for the id, in the order they were declared. */
  lemma {:induction false} InputGroupsRead(events: seq<Event>, cfg: Config, f: nat, input: string)
    requires IsPreamble(cfg.preamble) && Finished(events, cfg, f)
    requires Representable(Run(events, cfg).files[f], cfg.native)
    requires var log := Run(events, cfg).files[f].log; AllSampled(GroupPackets(log, InputsOf(log, input)))
    ensures var file := Run(events, cfg).files[f];
            ReadInput(Under(events, cfg, file.name), input)
            == Some(OwnMeanings(GroupPackets(file.log, InputsOf(file.log, input)), cfg.native))
  {
    hide *;
    FinishedContent(events, cfg, f);
    FinishedParts(events, cfg, f);
    var file := Run(events, cfg).files[f];
    var front := FileParts(events, cfg, f);
    FileInput(front, file.log, cfg.native, file.taken, input);
    ReadInputParts(Under(events, cfg, file.name), Contents(ClosedBlocks(LogBlocks(file.log, cfg.native)),
                   front + CanonicalAll(LogElements(file.log, cfg.native))), InputsOf(file.log, input), input);
    GroupsAgree(file.log, cfg.native, file.taken);
    InputsDeclared(file.log, input);
    GroupsRead(cfg, file, InputsOf(file.log, input));
  }

  lemma NameParts(events: seq<Event>, cfg: Config, f: nat, os: seq<nat>, input: string)
    requires AllOfItsName(events, cfg, f, os, input)
    ensures Distinct(os)
    ensures var s := Run(events, cfg); forall a :: 0 <= a < |os| ==> os[a] < |s.objects| && s.objects[os[a]].file == f
  {
    hide Run, Arrived, NormalizeEol;
    forall a | 0 <= a < |os| ensures os[a] < |Run(events, cfg).objects| && Run(events, cfg).objects[os[a]].file == f {
      assert os[a] in os;
    }
  }

  /** From arrival to read-back, for a scalar signal: given the bytes under the name of a finished recording
      and the global id of the signal, and nothing else, a reader gets exactly the samples of all acceptable
      packets that arrived at the signal objects the signal had in the recording, in the order they arrived.
      There is more than one of them when it was disconnected and connected again; then no delivery may be
      going on at an earlier object when packets arrive at a later one. */
  lemma {:induction false} InputReadsBack(events: seq<Event>, cfg: Config, f: nat, os: seq<nat>, input: string)
    requires IsPreamble(cfg.preamble) && Finished(events, cfg, f)
    requires Representable(Run(events, cfg).files[f], cfg.native)
    requires AllOfItsName(events, cfg, f, os, input) && InSuccession(events, cfg, os)
    requires AllSampled(AllKept(events, cfg, os))
    ensures ReadInput(Under(events, cfg, Run(events, cfg).files[f].name), input)
         == Some(OwnMeanings(AllKept(events, cfg, os), cfg.native))
  {
    hide *;
    FinishedParts(events, cfg, f);
    var file := Run(events, cfg).files[f];
    RepresentableParts(file, cfg.native);
    NameParts(events, cfg, f, os, input);
    TurnsTaken(events, cfg, f, os);
    InputsAreOwn(events, cfg, f, os, input);
    InputsAreGroups(file.log, os, input);
    AllArrived(events, cfg, f, os);
    InputGroupsRead(events, cfg, f, input);
  }
}
