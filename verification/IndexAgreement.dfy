/** The index a file carries describes exactly the blocks in the file. */
module IndexAgreement {
  import opened Bytes
  import opened BlockLayer
  import opened IndexLayer

  // ----- The file after a sequence of successful writes -----

  function PutAll(bs: seq<Block>): IndexState {
    if bs == [] then EMPTY else Put(PutAll(bs[..|bs| - 1]), bs[|bs| - 1])
  }

  /** The file after the destructor. */
  function Closed(bs: seq<Block>): IndexState {
    Flush(PutAll(bs))
  }

  function FlushedBlocks(st: IndexState): seq<Block> {
    if st.index == [] then [] else [IndexBlock(st.index)]
  }

  /** The frames one write adds to the file. */
  function Emitted(st: IndexState, b: Block): seq<Block> {
    var remembered := Remember(st, b.group);
    [b] + if |remembered.index| >= INDEX_EVERY then [IndexBlock(remembered.index)] else []
  }

  function OnDisk(bs: seq<Block>): seq<Block> {
    if bs == [] then [] else OnDisk(bs[..|bs| - 1]) + Emitted(PutAll(bs[..|bs| - 1]), bs[|bs| - 1])
  }

  function ClosedBlocks(bs: seq<Block>): seq<Block> {
    OnDisk(bs) + FlushedBlocks(PutAll(bs))
  }

  // ----- What a reader sees -----

  function DropIndex(blocks: seq<Block>): seq<Block> {
    if blocks == [] then []
    else (if blocks[0].group != INDEX then [blocks[0]] else []) + DropIndex(blocks[1..])
  }

  /** The (offset, group) list of the blocks found by parsing, index blocks left out. */
  function Located(blocks: seq<Block>, base: nat): seq<IndexEntry> {
    if blocks == [] then []
    else (if blocks[0].group != INDEX then [IndexEntry(base, blocks[0].group)] else [])
         + Located(blocks[1..], base + |blocks[0].payload| + OVERHEAD)
  }

  function Size(blocks: seq<Block>): nat {
    if blocks == [] then 0 else |blocks[0].payload| + OVERHEAD + Size(blocks[1..])
  }

  lemma {:induction false} FramesSize(blocks: seq<Block>)
    ensures |Frames(blocks)| == Size(blocks)
  {
    if blocks != [] {
      FramesSize(blocks[1..]);
    }
  }

  /** The index decoder: a loop reading a 64-bit offset and a 32-bit group. */
  function ReadEntries(payload: seq<Byte>): seq<IndexEntry> {
    if |payload| < 12 then []
    else [IndexEntry(BeValue(payload[..8]), BeValue(payload[8..12]))] + ReadEntries(payload[12..])
  }

  function IndexedEntries(blocks: seq<Block>): seq<IndexEntry> {
    if blocks == [] then []
    else (if blocks[0].group == INDEX then ReadEntries(blocks[0].payload) else []) + IndexedEntries(blocks[1..])
  }

  predicate NoIndexGroup(bs: seq<Block>) {
    forall i :: 0 <= i < |bs| ==> bs[i].group != INDEX
  }

  predicate GoodIndexBlocks(blocks: seq<Block>) {
    forall i :: 0 <= i < |blocks| && blocks[i].group == INDEX ==>
      |blocks[i].payload| % 12 == 0 && 1 <= |blocks[i].payload| / 12 <= INDEX_EVERY
  }

  // ----- Appending to these lists -----

  lemma {:induction false} DropIndexConcat(a: seq<Block>, b: seq<Block>)
    ensures DropIndex(a + b) == DropIndex(a) + DropIndex(b)
  {
    if a == [] {
      assert a + b == b;
    } else {
      assert (a + b)[1..] == a[1..] + b;
      DropIndexConcat(a[1..], b);
    }
  }

  lemma {:induction false} IndexedConcat(a: seq<Block>, b: seq<Block>)
    ensures IndexedEntries(a + b) == IndexedEntries(a) + IndexedEntries(b)
  {
    if a == [] {
      assert a + b == b;
    } else {
      assert (a + b)[1..] == a[1..] + b;
      IndexedConcat(a[1..], b);
    }
  }

  lemma LocatedFirst(blocks: seq<Block>, base: nat)
    requires blocks != []
    ensures Located(blocks, base)
         == (if blocks[0].group != INDEX then [IndexEntry(base, blocks[0].group)] else [])
            + Located(blocks[1..], base + |blocks[0].payload| + OVERHEAD)
  {
  }

  lemma SizeFirst(blocks: seq<Block>)
    requires blocks != []
    ensures Size(blocks) == |blocks[0].payload| + OVERHEAD + Size(blocks[1..])
  {
  }

  lemma NothingLocated(blocks: seq<Block>, base: nat)
    ensures Located([], base) == [] && Size([]) == 0 && [] + blocks == blocks
    ensures [] + Located(blocks, base) == Located(blocks, base)
  {
  }

  lemma {:induction false} LocatedConcat(a: seq<Block>, b: seq<Block>, base: nat)
    ensures Located(a + b, base) == Located(a, base) + Located(b, base + Size(a))
    decreases |a|
  {
    hide Located, Size;
    if a == [] {
      NothingLocated(b, base);
    } else {
      var next := base + |a[0].payload| + OVERHEAD;
      assert (a + b)[1..] == a[1..] + b;
      LocatedFirst(a + b, base);
      LocatedFirst(a, base);
      SizeFirst(a);
      LocatedConcat(a[1..], b, next);
    }
  }

  lemma OneBlock(b: Block, base: nat)
    ensures DropIndex([b]) == if b.group != INDEX then [b] else []
    ensures IndexedEntries([b]) == if b.group == INDEX then ReadEntries(b.payload) else []
    ensures Located([b], base) == if b.group != INDEX then [IndexEntry(base, b.group)] else []
  {
    assert [b][1..] == [];
  }

  predicate EntryFits(e: IndexEntry) {
    e.offset < 0x1_0000_0000_0000_0000 && e.group < 0x1_0000_0000
  }

  lemma Fields(a: seq<Byte>, b: seq<Byte>)
    requires |a| == 8 && |b| == 4
    ensures BeValue((a + b)[..8]) == BeValue(a) && BeValue((a + b)[8..12]) == BeValue(b)
  {
    assert (a + b)[..8] == a && (a + b)[8..12] == b;
  }

  lemma UInt64Value(n: nat)
    ensures BeValue(UInt64(n)) == n % 0x1_0000_0000_0000_0000
  {
    Powers();
    BeRoundTrip(n % 0x1_0000_0000_0000_0000, 8);
  }

  lemma EntryRoundTrip(e: IndexEntry)
    requires EntryFits(e)
    ensures BeValue(EntryBytes(e)[..8]) == e.offset && BeValue(EntryBytes(e)[8..12]) == e.group
  {
    UInt64Value(e.offset);
    UInt32Value(e.group);
    Fields(UInt64(e.offset), UInt32(e.group));
  }

  lemma {:induction false} EntriesRoundTrip(es: seq<IndexEntry>)
    requires forall i :: 0 <= i < |es| ==> EntryFits(es[i])
    ensures ReadEntries(EntriesBytes(es)) == es
  {
    if es != [] {
      var bytes := EntriesBytes(es);
      assert EntryFits(es[0]);
      EntryRoundTrip(es[0]);
      assert bytes[..8] == EntryBytes(es[0])[..8];
      assert bytes[8..12] == EntryBytes(es[0])[8..12];
      assert bytes[12..] == EntriesBytes(es[1..]);
      EntriesRoundTrip(es[1..]);
    }
  }

  // ----- The invariant kept by every write -----

  /** The file holds these blocks and the writer knows its length. */
  ghost predicate Holds(st: IndexState, blocks: seq<Block>) {
    st.content == Frames(blocks) && st.offset == |st.content| == Size(blocks)
  }

  /** Index blocks and pending entries together list the other blocks, each once, in order. */
  ghost predicate Lists(index: seq<IndexEntry>, blocks: seq<Block>, bs: seq<Block>) {
    && DropIndex(blocks) == bs
    && IndexedEntries(blocks) + index == Located(blocks, 0)
    && GoodIndexBlocks(blocks)
    && (index == [] <==> blocks == [] || blocks[|blocks| - 1].group == INDEX)
    && (forall i :: 0 <= i < |index| ==> EntryFits(index[i]))
    && AllFit(blocks)
  }

  ghost predicate Agrees(st: IndexState, blocks: seq<Block>, bs: seq<Block>) {
    Holds(st, blocks) && Lists(st.index, blocks, bs)
  }

  lemma AppendHolds(st: IndexState, blocks: seq<Block>, b: Block)
    requires Holds(st, blocks)
    ensures Holds(Append(st, b), blocks + [b])
  {
    FramesAppend(blocks, b);
    FramesSize(blocks + [b]);
  }

  lemma AppendLists(index: seq<IndexEntry>, blocks: seq<Block>, bs: seq<Block>, b: Block)
    requires Lists(index, blocks, bs) && b.group != INDEX && Fits(b)
    requires Size(blocks) < 0x1_0000_0000_0000_0000
    ensures Lists(index + [IndexEntry(Size(blocks), b.group)], blocks + [b], bs + [b])
  {
    DropIndexConcat(blocks, [b]);
    IndexedConcat(blocks, [b]);
    LocatedConcat(blocks, [b], 0);
    OneBlock(b, Size(blocks));
    assert IndexedEntries(blocks + [b]) == IndexedEntries(blocks);
    assert (blocks + [b])[|blocks + [b]| - 1] == b;
  }

  lemma IndexAppended(index: seq<IndexEntry>, blocks: seq<Block>, bs: seq<Block>, b: Block)
    requires Lists(index, blocks, bs) && b.group == INDEX && Fits(b)
    requires ReadEntries(b.payload) == index && |b.payload| == 12 * |index| && 1 <= |index| <= INDEX_EVERY
    ensures Lists([], blocks + [b], bs)
  {
    DropIndexConcat(blocks, [b]);
    IndexedConcat(blocks, [b]);
    LocatedConcat(blocks, [b], 0);
    OneBlock(b, Size(blocks));
    assert IndexedEntries(blocks + [b]) == IndexedEntries(blocks) + index;
    assert (blocks + [b])[|blocks + [b]| - 1] == b;
  }

  lemma FlushLists(index: seq<IndexEntry>, blocks: seq<Block>, bs: seq<Block>)
    requires Lists(index, blocks, bs) && 1 <= |index| <= INDEX_EVERY
    ensures Lists([], blocks + [IndexBlock(index)], bs)
  {
    EntriesRoundTrip(index);
    IndexAppended(index, blocks, bs, IndexBlock(index));
  }

  lemma AppendAgrees(st: IndexState, blocks: seq<Block>, bs: seq<Block>, b: Block)
    requires Agrees(st, blocks, bs) && b.group != INDEX && Fits(b)
    requires st.offset < 0x1_0000_0000_0000_0000
    ensures Agrees(Append(Remember(st, b.group), b), blocks + [b], bs + [b])
  {
    AppendHolds(Remember(st, b.group), blocks, b);
    AppendLists(st.index, blocks, bs, b);
  }

  lemma FlushAgrees(st: IndexState, blocks: seq<Block>, bs: seq<Block>)
    requires Agrees(st, blocks, bs) && |st.index| <= INDEX_EVERY
    ensures Agrees(Flush(st), blocks + FlushedBlocks(st), bs)
    ensures Flush(st).index == []
  {
    if st.index == [] {
      assert blocks + [] == blocks;
    } else {
      AppendHolds(st, blocks, IndexBlock(st.index));
      FlushLists(st.index, blocks, bs);
    }
  }

  lemma PutAgrees(st: IndexState, blocks: seq<Block>, bs: seq<Block>, b: Block)
    requires Agrees(st, blocks, bs) && b.group != INDEX && Fits(b)
    requires st.offset < 0x1_0000_0000_0000_0000 && |st.index| < INDEX_EVERY
    ensures Agrees(Put(st, b), blocks + Emitted(st, b), bs + [b])
    ensures |Put(st, b).index| < INDEX_EVERY
  {
    AppendAgrees(st, blocks, bs, b);
    var mid := Append(Remember(st, b.group), b);
    if |mid.index| >= INDEX_EVERY {
      FlushAgrees(mid, blocks + [b], bs + [b]);
      assert blocks + [b] + [IndexBlock(mid.index)] == blocks + Emitted(st, b);
    } else {
      assert blocks + [b] == blocks + Emitted(st, b);
    }
  }

  lemma NothingAgrees()
    ensures Agrees(EMPTY, [], [])
  {
  }

  lemma PutOnlyAdds(st: IndexState, b: Block)
    ensures |st.content| <= |Put(st, b).content|
  {
  }

  lemma AgreesOnOffset(st: IndexState, blocks: seq<Block>, bs: seq<Block>)
    requires Agrees(st, blocks, bs)
    ensures st.offset == |st.content|
  {
  }

  lemma {:induction false} WritesAgree(bs: seq<Block>)
    requires NoIndexGroup(bs) && AllFit(bs)
    requires |PutAll(bs).content| < 0x1_0000_0000_0000_0000
    ensures Agrees(PutAll(bs), OnDisk(bs), bs)
    ensures |PutAll(bs).index| < INDEX_EVERY
  {
    hide Agrees, Put, Emitted;
    if bs == [] {
      NothingAgrees();
    } else {
      var before, b := bs[..|bs| - 1], bs[|bs| - 1];
      PutOnlyAdds(PutAll(before), b);
      WritesAgree(before);
      AgreesOnOffset(PutAll(before), OnDisk(before), before);
      PutAgrees(PutAll(before), OnDisk(before), before, b);
      assert before + [b] == bs;
    }
  }

  // ----- How often index blocks come -----

  lemma Hundreds(n: nat)
    ensures n + n / 100 == 101 * (n / 100) + n % 100
    ensures (n + n / 100) % 101 == n % 100
    ensures n % 100 == 99 ==> (n + 1) / 100 == n / 100 + 1 && (n + 1) % 100 == 0
    ensures n % 100 != 99 ==> (n + 1) / 100 == n / 100 && (n + 1) % 100 == n % 100 + 1
  {
  }

  lemma OneMore(st: IndexState, b: Block)
    requires b.group != INDEX && |st.index| < 100
    ensures |Put(st, b).index| == if |st.index| == 99 then 0 else |st.index| + 1
    ensures Emitted(st, b) == [b] + Emitted(st, b)[1..] && |Emitted(st, b)| == if |st.index| == 99 then 2 else 1
    ensures |st.index| == 99 ==> Emitted(st, b)[1].group == INDEX
  {
    hide Frame, EntriesBytes;
  }

  /** While writing, every block number 101 is an index block, and no other. */
  lemma {:induction false} EveryHundred(bs: seq<Block>)
    requires NoIndexGroup(bs)
    ensures |PutAll(bs).index| == |bs| % 100 && |OnDisk(bs)| == |bs| + |bs| / 100
    ensures forall k :: 0 <= k < |OnDisk(bs)| ==> (OnDisk(bs)[k].group == INDEX <==> k % 101 == 100)
  {
    hide Put, Emitted;
    if bs != [] {
      var before, b := bs[..|bs| - 1], bs[|bs| - 1];
      EveryHundred(before);
      Hundreds(|before|);
      OneMore(PutAll(before), b);
    }
  }

  /** In the closed file an index block comes after every hundred other blocks, and one behind the rest. */
  lemma {:induction false} IndexBlocksAreRegular(bs: seq<Block>)
    requires NoIndexGroup(bs)
    ensures |ClosedBlocks(bs)| == |bs| + (|bs| + 99) / 100
    ensures forall k :: 0 <= k < |ClosedBlocks(bs)| ==>
              (ClosedBlocks(bs)[k].group == 1 <==> k % 101 == 100 || k == |ClosedBlocks(bs)| - 1)
  {
    EveryHundred(bs);
    Hundreds(|bs|);
    RoundedUp(|bs|);
  }

  lemma RoundedUp(n: nat)
    ensures (n + 99) / 100 == if n % 100 == 0 then n / 100 else n / 100 + 1
    ensures n % 100 == 0 && n > 0 ==> (n + n / 100 - 1) % 101 == 100
  {
  }

  // ----- What follows for the finished file -----

  /** After the closing flush the index blocks list exactly the blocks of the file, in order. */
  lemma {:induction false} IndexAgreesWithFile(bs: seq<Block>)
    requires NoIndexGroup(bs) && AllFit(bs)
    requires |PutAll(bs).content| < 0x1_0000_0000_0000_0000
    ensures Closed(bs).content == Frames(ClosedBlocks(bs))
    ensures DropIndex(ClosedBlocks(bs)) == bs
    ensures IndexedEntries(ClosedBlocks(bs)) == Located(ClosedBlocks(bs), 0)
    ensures GoodIndexBlocks(ClosedBlocks(bs)) && AllFit(ClosedBlocks(bs))
    ensures bs != [] ==> ClosedBlocks(bs) != [] && ClosedBlocks(bs)[|ClosedBlocks(bs)| - 1].group == INDEX
  {
    WritesAgree(bs);
    FlushAgrees(PutAll(bs), OnDisk(bs), bs);
    assert IndexedEntries(ClosedBlocks(bs)) + [] == IndexedEntries(ClosedBlocks(bs));
  }

  /** A file begins with the block that was written first. */
  lemma {:induction false} FirstBlockStays(bs: seq<Block>)
    requires bs != []
    ensures OnDisk(bs) != [] && OnDisk(bs)[0] == bs[0]
  {
    if |bs| > 1 {
      FirstBlockStays(bs[..|bs| - 1]);
    }
  }

  /** The first bytes at an offset are a header that carries the group. */
  predicate HeaderAt(file: seq<Byte>, offset: nat, group: nat) {
    && offset + 12 <= |file|
    && UInt32At(file, offset + 4) == group
    && UInt32At(file, offset + 8) == SYNC_WORD
  }

  lemma {:induction false} LocatedOnHeaders(file: seq<Byte>, pos: nat, blocks: seq<Block>, i: nat)
    requires FramesAt(file, pos, blocks) && AllFit(blocks) && i < |Located(blocks, pos)|
    ensures var es := Located(blocks, pos);
            HeaderAt(file, es[i].offset, es[i].group) && pos <= es[i].offset
                && (i > 0 ==> es[i - 1].offset < es[i].offset)
    decreases |blocks|
  {
    var own := if blocks[0].group != INDEX then 1 else 0;
    if i >= own {
      LocatedOnHeaders(file, pos + |blocks[0].payload| + OVERHEAD, blocks[1..], i - own);
    }
  }

  /** Every index entry lands on a header with its group, and no block is listed twice. */
  lemma {:induction false} IndexEntriesLand(bs: seq<Block>, i: nat)
    requires NoIndexGroup(bs) && AllFit(bs)
    requires |PutAll(bs).content| < 0x1_0000_0000_0000_0000
    requires i < |IndexedEntries(ClosedBlocks(bs))|
    ensures var es := IndexedEntries(ClosedBlocks(bs));
            HeaderAt(Closed(bs).content, es[i].offset, es[i].group) && (i > 0 ==> es[i - 1].offset < es[i].offset)
  {
    IndexAgreesWithFile(bs);
    var blocks := ClosedBlocks(bs);
    FramesPlaced([], blocks);
    assert [] + Frames(blocks) == Frames(blocks);
    LocatedOnHeaders(Frames(blocks), 0, blocks, i);
  }
}
