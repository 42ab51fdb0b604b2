/** Every group of a file other than the reserved two belongs to exactly one handler. */
module Ownership {
  import opened Bytes
  import opened BlockLayer
  import opened IndexAgreement
  import opened Handlers
  import opened FileLog

  /** The id counters have not wrapped round to the reserved ids. */
  const MOST_IDS: nat := 0xFFFF_FFFE

  lemma IdsDiffer(m: nat, n: nat)
    requires m < n < MOST_IDS
    ensures IdAfter(m) != IdAfter(n)
    ensures IdAfter(m) >= 2 && IdAfter(n) >= 2
    ensures ChannelAfter(m) != ChannelAfter(n)
  {
  }

  /** The ids handed out are unreserved exactly as long as at most 2^32 - 2 are taken. */
  lemma {:induction false} IdsAreFreeIff(taken: nat)
    ensures (forall n :: 0 <= n < taken ==> IdAfter(n) >= 2) <==> taken <= MOST_IDS
  {
    assert IdAfter(MOST_IDS) == METADATA;
  }

  /** No two declarations share a group, a decoder or a channel, and none uses a reserved id. */
  lemma {:induction false} DeclarationsAreDistinct(log: seq<Entry>, native: Endian, taken: nat, i: nat, j: nat)
    requires LogInOrder(log, native, taken) && taken <= MOST_IDS
    requires i < |log| && j < |log| && log[i].Declared? && log[j].Declared?
    ensures log[i].binding.group >= 2 && log[i].binding.decoderId >= 2
    ensures i != j ==>
              log[i].binding.group != log[j].binding.group
              && log[i].binding.decoderId != log[j].binding.decoderId
              && log[i].binding.channelId != log[j].binding.channelId
  {
    assert EntryInOrder(log, native, taken, i) && EntryInOrder(log, native, taken, j);
    if i < j {
      IdsDiffer(log[i].serial, log[j].serial);
    } else if j < i {
      IdsDiffer(log[j].serial, log[i].serial);
    }
  }

  /** A data block comes after the one declaration of its group, was written by the handler declared
      there, on behalf of the same signal object, for a packet with the descriptors the declared
      decoder was built from. */
  lemma {:induction false} DataIsOwned(log: seq<Entry>, native: Endian, taken: nat, j: nat) returns (i: nat)
    requires LogInOrder(log, native, taken) && taken <= MOST_IDS && j < |log| && log[j].Data?
    ensures i < j && log[i].Declared? && log[i].binding.group == log[j].handler.group
    ensures Declares(log[i], log[j].owner, log[j].handler, log[j].packet.descriptor, DomainDescriptor(log[j].packet))
    ensures forall k :: 0 <= k < |log| && log[k].Declared? && log[k].binding.group == log[j].handler.group ==> k == i
  {
    assert EntryInOrder(log, native, taken, j);
    var d :| 0 <= d < j && Declares(log[d], log[j].owner, log[j].handler, log[j].packet.descriptor,
                                    DomainDescriptor(log[j].packet));
    i := d;
    assert EntryInOrder(log, native, taken, i);
    forall k | 0 <= k < |log| && log[k].Declared? && log[k].binding.group == log[j].handler.group ensures k == i {
      DeclarationsAreDistinct(log, native, taken, i, k);
    }
  }

  /** Data never lands in the metadata or index group, and nothing is written to the index group. */
  lemma GroupsOfBlocks(log: seq<Entry>, native: Endian, taken: nat, j: nat)
    requires LogInOrder(log, native, taken) && taken <= MOST_IDS && j < |log|
    ensures LogBlocks(log, native)[j].group == if log[j].Data? then log[j].handler.group else METADATA
    ensures log[j].Data? ==> log[j].handler.group >= 2
  {
    assert EntryInOrder(log, native, taken, j);
    if log[j].Data? {
      var i := DataIsOwned(log, native, taken, j);
      DeclarationsAreDistinct(log, native, taken, i, i);
    }
  }

  lemma NothingIndexed(log: seq<Entry>, native: Endian, taken: nat)
    requires LogInOrder(log, native, taken) && taken <= MOST_IDS
    ensures NoIndexGroup(LogBlocks(log, native))
  {
    forall j | 0 <= j < |log| ensures LogBlocks(log, native)[j].group != INDEX {
      GroupsOfBlocks(log, native, taken, j);
    }
  }

  /** All the packets whose data blocks carry the group of the declaration at i are the ones its own
      handler accepted. */
  lemma GroupIsOneHandler(log: seq<Entry>, native: Endian, taken: nat, i: nat, j: nat)
    requires LogInOrder(log, native, taken) && taken <= MOST_IDS
    requires i < |log| && log[i].Declared? && j < |log| && log[j].Data?
    ensures log[j].handler.group == log[i].handler.group ==>
              i < j && Declares(log[i], log[j].owner, log[j].handler, log[j].packet.descriptor,
                                DomainDescriptor(log[j].packet))
  {
    assert EntryInOrder(log, native, taken, i);
    if log[j].handler.group == log[i].handler.group {
      var k := DataIsOwned(log, native, taken, j);
      assert i == k;
    }
  }
}
