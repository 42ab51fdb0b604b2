/** The packets of one signal object, spread over the groups of the handlers it had one after the other. */
module Partition {
  import opened Bytes
  import opened Descriptors
  import opened Handlers
  import opened FileLog
  import opened Ownership
  import opened Readback
  import opened Delivery

  /** The handler a signal object declared last. */
  function Latest(log: seq<Entry>, o: nat): Option<Handler> {
    if log == [] then None
    else
      var last := log[|log| - 1];
      if last.Declared? && last.owner == o then Some(last.handler) else Latest(log[..|log| - 1], o)
  }

  lemma LatestLast(log: seq<Entry>, e: Entry, o: nat)
    ensures Latest(log + [e], o) == if e.Declared? && e.owner == o then Some(e.handler) else Latest(log, o)
  {
    assert (log + [e])[..|log|] == log;
  }

  /** Data is always written through the handler its owner declared last. */
  predicate InTurn(log: seq<Entry>) {
    log == []
    || (var init, last := log[..|log| - 1], log[|log| - 1];
        InTurn(init) && (last.Data? ==> Latest(init, last.owner) == Some(last.handler)))
  }

  lemma InTurnLast(log: seq<Entry>, e: Entry)
    ensures InTurn(log + [e]) <==> InTurn(log) && (e.Data? ==> Latest(log, e.owner) == Some(e.handler))
  {
    assert (log + [e])[..|log|] == log;
  }

  // ----- One packet -----

  ghost predicate UsesLatest(log: seq<Entry>, o: nat, s: SignalState) {
    s.handler.Some? ==> Latest(log, o) == s.handler
  }

  lemma CreateInTurn(f: FileState, owner: nat, labels: Labels, value: Option<DataDescriptor>,
                     domain: Option<DataDescriptor>, native: Endian)
    requires InTurn(f.log)
    ensures var (h, f') := CreateIn(f, owner, labels, value, domain, native);
            && InTurn(f'.log) && UsesLatest(f'.log, owner, SignalState(h, value, domain))
            && forall o :: o != owner ==> Latest(f'.log, o) == Latest(f.log, o)
  {
    var (h, f') := CreateIn(f, owner, labels, value, domain, native);
    if h.Some? {
      InTurnLast(f.log, f'.log[|f.log|]);
      forall o ensures Latest(f'.log, o) == if o == owner then h else Latest(f.log, o) {
        LatestLast(f.log, f'.log[|f.log|], o);
      }
    }
  }

  lemma DeliverInTurn(f: FileState, owner: nat, h: Handler, packet: Packet, native: Endian)
    requires InTurn(f.log) && Latest(f.log, owner) == Some(h)
    ensures var f' := DeliverIn(f, owner, h, packet, native);
            InTurn(f'.log) && forall o :: Latest(f'.log, o) == Latest(f.log, o)
  {
    if DataPayload(h, packet, native).Some? {
      var e := Data(owner, h, packet);
      InTurnLast(f.log, e);
      forall o ensures Latest(f.log + [e], o) == Latest(f.log, o) {
        LatestLast(f.log, e, o);
      }
    }
  }

  lemma ReceiveInTurn(f: FileState, owner: nat, s: SignalState, labels: Labels, packet: Packet, native: Endian)
    requires InTurn(f.log) && UsesLatest(f.log, owner, s)
    ensures var (s', f') := ReceiveIn(f, owner, s, labels, packet, native);
            && InTurn(f'.log) && UsesLatest(f'.log, owner, s')
            && forall o :: o != owner ==> Latest(f'.log, o) == Latest(f.log, o)
  {
    var value, domain := packet.descriptor, DomainDescriptor(packet);
    var (handler, ready) := if Changed(s, packet) then CreateIn(f, owner, labels, value, domain, native)
        else (s.handler, f);
    CreateInTurn(f, owner, labels, value, domain, native);
    if handler.Some? {
      DeliverInTurn(ready, owner, handler.value, packet, native);
    }
  }

  // ----- The groups of a signal object -----

  /** The groups a signal object declared, in order. */
  function GroupsOf(log: seq<Entry>, o: nat): seq<nat> {
    if log == [] then []
    else
      var last := log[|log| - 1];
      GroupsOf(log[..|log| - 1], o) + if last.Declared? && last.owner == o then [last.handler.group] else []
  }

  /** The packets accepted under these groups, group by group. */
  function GroupPackets(log: seq<Entry>, groups: seq<nat>): seq<Packet> {
    if groups == [] then [] else GroupPackets(log, groups[..|groups| - 1]) + Accepted(log, groups[|groups| - 1])
  }

  lemma GroupPacketsLast(log: seq<Entry>, groups: seq<nat>, g: nat)
    ensures GroupPackets(log, groups + [g]) == GroupPackets(log, groups) + Accepted(log, g)
  {
    assert (groups + [g])[..|groups|] == groups;
  }

  lemma {:induction false} AcceptedLast(log: seq<Entry>, e: Entry, g: nat)
    ensures Accepted(log + [e], g) == Accepted(log, g) + if e.Data? && e.handler.group == g then [e.packet] else []
  {
    if log == [] {
      assert [] + [e] == [e] && [e][1..] == [];
    } else {
      assert (log + [e])[1..] == log[1..] + [e];
      AcceptedLast(log[1..], e, g);
    }
  }

  lemma {:induction false} OtherGroupsUnchanged(log: seq<Entry>, e: Entry, groups: seq<nat>)
    requires e.Data? ==> e.handler.group !in groups
    ensures GroupPackets(log + [e], groups) == GroupPackets(log, groups)
  {
    if groups != [] {
      OtherGroupsUnchanged(log, e, groups[..|groups| - 1]);
      AcceptedLast(log, e, groups[|groups| - 1]);
    }
  }

  lemma {:induction false} GroupIsDeclared(log: seq<Entry>, o: nat, g: nat) returns (i: nat)
    requires g in GroupsOf(log, o)
    ensures i < |log| && log[i].Declared? && log[i].owner == o && log[i].handler.group == g
  {
    var last := log[|log| - 1];
    if last.Declared? && last.owner == o && last.handler.group == g {
      i := |log| - 1;
    } else {
      i := GroupIsDeclared(log[..|log| - 1], o, g);
    }
  }

  lemma {:induction false} LatestIsLastGroup(log: seq<Entry>, o: nat)
    requires Latest(log, o).Some?
    ensures GroupsOf(log, o) != [] && GroupsOf(log, o)[|GroupsOf(log, o)| - 1] == Latest(log, o).value.group
  {
    var last := log[|log| - 1];
    if !(last.Declared? && last.owner == o) {
      LatestIsLastGroup(log[..|log| - 1], o);
      assert GroupsOf(log, o) == GroupsOf(log[..|log| - 1], o);
    }
  }

  lemma PrefixInOrder(log: seq<Entry>, native: Endian, taken: nat, n: nat)
    requires LogInOrder(log, native, taken) && 0 < n <= |log|
    ensures LogInOrder(log[..n], native, taken)
  {
    forall j | 0 <= j < n ensures EntryInOrder(log[..n], native, taken, j) {
      assert EntryInOrder(log, native, taken, j);
      if log[j].Data? {
        var i :| 0 <= i < j && Declares(log[i], log[j].owner, log[j].handler, log[j].packet.descriptor,
                                        DomainDescriptor(log[j].packet));
        assert Declares(log[..n][i], log[j].owner, log[j].handler, log[j].packet.descriptor,
                        DomainDescriptor(log[j].packet));
      }
    }
  }

  /** A declaration never reuses a group of the log. */
  lemma NewGroup(log: seq<Entry>, native: Endian, taken: nat, o: nat)
    requires LogInOrder(log, native, taken) && taken <= MOST_IDS && log[|log| - 1].Declared?
    ensures log[|log| - 1].handler.group !in GroupsOf(log[..|log| - 1], o)
    ensures Accepted(log[..|log| - 1], log[|log| - 1].handler.group) == []
  {
    var n := |log| - 1;
    var g := log[n].handler.group;
    assert EntryInOrder(log, native, taken, n);
    if g in GroupsOf(log[..n], o) {
      var i := GroupIsDeclared(log[..n], o, g);
      assert EntryInOrder(log, native, taken, i);
      DeclarationsAreDistinct(log, native, taken, i, n);
    }
    forall j | 0 <= j < n && log[..n][j].Data? ensures log[..n][j].handler.group != g {
      GroupIsOneHandler(log, native, taken, n, j);
    }
    NothingAccepted(log[..n], g);
  }

  lemma {:induction false} NothingAccepted(log: seq<Entry>, g: nat)
    requires forall j :: 0 <= j < |log| && log[j].Data? ==> log[j].handler.group != g
    ensures Accepted(log, g) == []
  {
    if log != [] {
      NothingAccepted(log[1..], g);
    }
  }

  ghost predicate Different(groups: seq<nat>) {
    forall a, b :: 0 <= a < b < |groups| ==> groups[a] != groups[b]
  }

  lemma {:induction false} GroupsAreDifferent(log: seq<Entry>, native: Endian, taken: nat, o: nat)
    requires LogInOrder(log, native, taken) && taken <= MOST_IDS
    ensures Different(GroupsOf(log, o))
    decreases |log|
  {
    var n := |log| - 1;
    if n > 0 {
      PrefixInOrder(log, native, taken, n);
      GroupsAreDifferent(log[..n], native, taken, o);
      if log[n].Declared? && log[n].owner == o {
        NewGroup(log, native, taken, o);
      }
    } else {
      assert log[..n] == [];
    }
  }

  /** Data of another object is in none of this object's groups. */
  lemma ForeignGroup(log: seq<Entry>, native: Endian, taken: nat, o: nat, j: nat)
    requires LogInOrder(log, native, taken) && taken <= MOST_IDS && j < |log| && log[j].Data? && log[j].owner != o
    ensures log[j].handler.group !in GroupsOf(log[..j], o)
  {
    if log[j].handler.group in GroupsOf(log[..j], o) {
      var i := GroupIsDeclared(log[..j], o, log[j].handler.group);
      GroupIsOneHandler(log, native, taken, i, j);
    }
  }

  lemma OwnPacket(before: seq<Entry>, e: Entry, groups: seq<nat>)
    requires e.Data? && groups != [] && groups[|groups| - 1] == e.handler.group && Different(groups)
    ensures GroupPackets(before + [e], groups) == GroupPackets(before, groups) + [e.packet]
  {
    var init := groups[..|groups| - 1];
    OtherGroupsUnchanged(before, e, init);
    AcceptedLast(before, e, e.handler.group);
  }

  lemma GroupsLast(log: seq<Entry>, e: Entry, o: nat)
    ensures GroupsOf(log + [e], o) == GroupsOf(log, o) + if e.Declared? && e.owner == o then [e.handler.group] else []
  {
    assert (log + [e])[..|log|] == log;
  }

  /** The packets of a signal object are those of its groups. */
  ghost predicate ByGroup(log: seq<Entry>, o: nat) {
    DataOf(log, o) == GroupPackets(log, GroupsOf(log, o))
  }

  lemma DeclaredStep(before: seq<Entry>, e: Entry, native: Endian, taken: nat, o: nat)
    requires LogInOrder(before + [e], native, taken) && taken <= MOST_IDS && e.Declared? && ByGroup(before, o)
    ensures ByGroup(before + [e], o)
  {
    var log, groups := before + [e], GroupsOf(before, o);
    DataOfLast(before, e, o);
    GroupsLast(before, e, o);
    OtherGroupsUnchanged(before, e, groups);
    assert DataOf(log, o) == DataOf(before, o);
    if e.owner != o {
      assert GroupsOf(log, o) == groups;
    } else {
      assert log[..|log| - 1] == before && log[|log| - 1] == e;
      NewGroup(log, native, taken, o);
      GroupPacketsLast(log, groups, e.handler.group);
      AcceptedLast(before, e, e.handler.group);
      assert Accepted(log, e.handler.group) == [];
    }
  }

  lemma DataStep(before: seq<Entry>, e: Entry, native: Endian, taken: nat, o: nat)
    requires LogInOrder(before + [e], native, taken) && LogInOrder(before, native, taken) && taken <= MOST_IDS
    requires e.Data? && Latest(before, e.owner) == Some(e.handler) && ByGroup(before, o)
    ensures ByGroup(before + [e], o)
  {
    var log, groups := before + [e], GroupsOf(before, o);
    DataOfLast(before, e, o);
    GroupsLast(before, e, o);
    assert GroupsOf(log, o) == groups;
    if e.owner == o {
      LatestIsLastGroup(before, o);
      GroupsAreDifferent(before, native, taken, o);
      OwnPacket(before, e, groups);
    } else {
      assert log[..|before|] == before && log[|before|] == e;
      assert DataOf(log, o) == DataOf(before, o);
      ForeignGroup(log, native, taken, o, |before|);
      OtherGroupsUnchanged(before, e, groups);
    }
  }

  lemma OpeningStep(e: Entry, o: nat)
    requires e.Opening?
    ensures ByGroup([e], o)
  {
    assert [] + [e] == [e];
    DataOfLast([], e, o);
    GroupsLast([], e, o);
    assert GroupsOf([e], o) == [];
  }

  /** The packets a file holds for a signal object are those of its groups, one group after the other:
      every packet is in exactly one group, and later groups hold later packets. */
  lemma {:induction false} PacketsByGroup(log: seq<Entry>, native: Endian, taken: nat, o: nat)
    requires LogInOrder(log, native, taken) && taken <= MOST_IDS && InTurn(log)
    ensures DataOf(log, o) == GroupPackets(log, GroupsOf(log, o))
    decreases |log|
  {
    var n := |log| - 1;
    var before, e := log[..n], log[n];
    if n == 0 {
      OpeningStep(e, o);
      assert log == [e];
    } else {
      assert before + [e] == log;
      PrefixInOrder(log, native, taken, n);
      PacketsByGroup(before, native, taken, o);
      assert EntryInOrder(log, native, taken, n);
      if e.Declared? {
        DeclaredStep(before, e, native, taken, o);
      } else {
        DataStep(before, e, native, taken, o);
      }
    }
  }
}
