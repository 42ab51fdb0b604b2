/** What the index says after writes that failed: exactly when it still describes the file. */
module IndexFailures {
  import opened Bytes
  import opened BlockLayer
  import opened IndexLayer
  import opened IndexAgreement

  /** How the write of a frame ends: all of it is in the file, or it failed and left so many bytes. */
  datatype Outcome = Done | Failed(left: nat)

  /** One write_block(): what became of its block, and of the flush that may be due after it. */
  datatype Attempt = Attempt(block: Block, write: Outcome, flush: Outcome)

  // ----- The file -----

  /** A file is made of blocks and of first parts of blocks. */
  datatype Piece = Whole(block: Block) | Part(bytes: seq<Byte>)

  function PieceBytes(p: Piece): seq<Byte> {
    if p.Whole? then Frame(p.block) else p.bytes
  }

  function Laid(pieces: seq<Piece>): seq<Byte> {
    if pieces == [] then [] else Laid(pieces[..|pieces| - 1]) + PieceBytes(pieces[|pieces| - 1])
  }

  /** The blocks that are whole. */
  function WholeBlocks(pieces: seq<Piece>): seq<Block> {
    if pieces == [] then []
    else
      var last := pieces[|pieces| - 1];
      WholeBlocks(pieces[..|pieces| - 1]) + if last.Whole? then [last.block] else []
  }

  /** Where the blocks other than index blocks are. */
  function Positions(pieces: seq<Piece>): seq<IndexEntry> {
    if pieces == [] then []
    else
      var init, last := pieces[..|pieces| - 1], pieces[|pieces| - 1];
      Positions(init)
      + if last.Whole? && last.block.group != INDEX then [IndexEntry(|Laid(init)|, last.block.group)] else []
  }

  /** What the index blocks say. */
  function Listed(pieces: seq<Piece>): seq<IndexEntry> {
    IndexedEntries(WholeBlocks(pieces))
  }

  // ----- The writer -----

  /** The bytes a failed write leaves: fewer than the frame has. */
  function Left(b: Block, left: nat): (r: seq<Byte>)
    ensures r < Frame(b)
  {
    Frame(b)[..if left < |Frame(b)| then left else |Frame(b)| - 1]
  }

  function Tear(st: IndexState, b: Block, left: nat): IndexState {
    st.(content := st.content + Left(b, left))
  }

  function FlushTo(st: IndexState, outcome: Outcome): IndexState {
    if st.index == [] then st
    else if outcome.Done? then Flush(st) else Tear(st, IndexBlock(st.index), outcome.left)
  }

  function FlushPieces(st: IndexState, outcome: Outcome): seq<Piece> {
    if st.index == [] then []
    else [if outcome.Done? then Whole(IndexBlock(st.index)) else Part(Left(IndexBlock(st.index), outcome.left))]
  }

  function After(st: IndexState, a: Attempt): IndexState {
    var remembered := Remember(st, a.block.group);
    if a.write.Failed? then Tear(remembered, a.block, a.write.left)
    else
      var written := Append(remembered, a.block);
      if |written.index| >= INDEX_EVERY then FlushTo(written, a.flush) else written
  }

  /** What an attempt adds to the file. */
  function Added(st: IndexState, a: Attempt): seq<Piece> {
    var remembered := Remember(st, a.block.group);
    if a.write.Failed? then [Part(Left(a.block, a.write.left))]
    else
      var written := Append(remembered, a.block);
      [Whole(a.block)] + if |written.index| >= INDEX_EVERY then FlushPieces(written, a.flush) else []
  }

  function AfterAll(attempts: seq<Attempt>): IndexState {
    if attempts == [] then EMPTY else After(AfterAll(attempts[..|attempts| - 1]), attempts[|attempts| - 1])
  }

  function InFile(attempts: seq<Attempt>): seq<Piece> {
    if attempts == [] then []
    else InFile(attempts[..|attempts| - 1]) + Added(AfterAll(attempts[..|attempts| - 1]), attempts[|attempts| - 1])
  }

  /** The state and the file after all attempts and the destructor, whose flush may fail as well. */
  function ClosedAfter(attempts: seq<Attempt>, closing: Outcome): IndexState {
    FlushTo(AfterAll(attempts), closing)
  }

  function ClosedFile(attempts: seq<Attempt>, closing: Outcome): seq<Piece> {
    InFile(attempts) + FlushPieces(AfterAll(attempts), closing)
  }

  /** The attempt ends with the exception of the file layer. */
  predicate Fails(st: IndexState, a: Attempt) {
    a.write.Failed? || (|Remember(st, a.block.group).index| >= INDEX_EVERY && a.flush.Failed?)
  }

  /** The attempts are the writes of the index layer: those that succeed, and all the ways to fail its
      contract allows. */
  lemma {:induction false} AttemptIsWrite(st: IndexState, b: Block, after: IndexState)
    ensures After(st, Attempt(b, Done, Done)) == Put(st, b)
    ensures PutFailed(st, b, after)
       <==> exists w: Outcome, f: Outcome :: Fails(st, Attempt(b, w, f)) && After(st, Attempt(b, w, f)) == after
  {
    hide Frame, IndexBlock;
    var remembered := Remember(st, b.group);
    var written := Append(remembered, b);
    if Torn(remembered, b, after) {
      var n := |after.content| - |st.content|;
      TornIsLeft(remembered, b, after);
      assert After(st, Attempt(b, Failed(n), Done)) == after;
    } else if PutFailed(st, b, after) {
      var n := |after.content| - |written.content|;
      TornIsLeft(written, IndexBlock(written.index), after);
      assert After(st, Attempt(b, Done, Failed(n))) == after;
    }
    forall w: Outcome, f: Outcome | Fails(st, Attempt(b, w, f)) && After(st, Attempt(b, w, f)) == after
      ensures PutFailed(st, b, after)
    {
      if w.Failed? {
        LeftIsTorn(remembered, b, w.left);
      } else {
        LeftIsTorn(written, IndexBlock(written.index), f.left);
      }
    }
  }

  lemma TornIsLeft(st: IndexState, b: Block, after: IndexState)
    requires Torn(st, b, after)
    ensures |st.content| <= |after.content| && Tear(st, b, |after.content| - |st.content|) == after
  {
    hide Frame;
    var n := |after.content| - |st.content|;
    assert after.content == (st.content + Frame(b))[..|after.content|] == st.content + Frame(b)[..n];
  }

  lemma LeftIsTorn(st: IndexState, b: Block, left: nat)
    ensures Torn(st, b, Tear(st, b, left))
  {
    hide Frame;
  }

  // ----- Adding a piece -----

  lemma OnePiece(pieces: seq<Piece>, p: Piece)
    ensures Laid(pieces + [p]) == Laid(pieces) + PieceBytes(p)
    ensures WholeBlocks(pieces + [p]) == WholeBlocks(pieces) + if p.Whole? then [p.block] else []
    ensures Positions(pieces + [p])
         == Positions(pieces)
            + if p.Whole? && p.block.group != INDEX then [IndexEntry(|Laid(pieces)|, p.block.group)] else []
  {
    hide PieceBytes;
    assert (pieces + [p])[..|pieces + [p]| - 1] == pieces;
  }

  lemma PieceListed(pieces: seq<Piece>, p: Piece)
    ensures Listed(pieces + [p])
         == Listed(pieces) + if p.Whole? && p.block.group == INDEX then ReadEntries(p.block.payload) else []
    ensures DropIndex(WholeBlocks(pieces + [p]))
         == DropIndex(WholeBlocks(pieces)) + if p.Whole? && p.block.group != INDEX then [p.block] else []
  {
    hide ReadEntries, Laid, Positions, WholeBlocks, IndexedEntries, DropIndex;
    OnePiece(pieces, p);
    if p.Whole? {
      IndexedConcat(WholeBlocks(pieces), [p.block]);
      DropIndexConcat(WholeBlocks(pieces), [p.block]);
      OneBlock(p.block, 0);
    } else {
      assert WholeBlocks(pieces) + [] == WholeBlocks(pieces);
    }
    assert IndexedEntries(WholeBlocks(pieces)) + [] == IndexedEntries(WholeBlocks(pieces));
    assert DropIndex(WholeBlocks(pieces)) + [] == DropIndex(WholeBlocks(pieces));
  }

  /** Without torn frames these are the notions of a file made of blocks. */
  lemma {:induction false} OnlyWhole(pieces: seq<Piece>)
    requires forall k :: 0 <= k < |pieces| ==> pieces[k].Whole?
    ensures Laid(pieces) == Frames(WholeBlocks(pieces)) && Positions(pieces) == Located(WholeBlocks(pieces), 0)
  {
    hide Frame, Located;
    if pieces == [] {
      NothingLocated([], 0);
    } else {
      var init, b := pieces[..|pieces| - 1], pieces[|pieces| - 1].block;
      OnlyWhole(init);
      FramesAppend(WholeBlocks(init), b);
      FramesSize(WholeBlocks(init));
      LocatedConcat(WholeBlocks(init), [b], 0);
      OneBlock(b, Size(WholeBlocks(init)));
    }
  }

  // ----- What the attempts come to -----

  /** The bytes failed writes and flushes have left in the file. */
  function LeftBytes(attempts: seq<Attempt>): nat {
    if attempts == [] then 0
    else
      var init, last := attempts[..|attempts| - 1], attempts[|attempts| - 1];
      LeftBytes(init) + TornBytes(Added(AfterAll(init), last))
  }

  function TornBytes(pieces: seq<Piece>): nat {
    if pieces == [] then 0
    else TornBytes(pieces[..|pieces| - 1]) + if pieces[|pieces| - 1].Part? then |pieces[|pieces| - 1].bytes| else 0
  }

  /** The writes that failed. */
  function Failures(attempts: seq<Attempt>): nat {
    if attempts == [] then 0
    else Failures(attempts[..|attempts| - 1]) + if attempts[|attempts| - 1].write.Done? then 0 else 1
  }

  /** The blocks whose writes did not fail. */
  function WrittenBlocks(attempts: seq<Attempt>): seq<Block> {
    if attempts == [] then []
    else
      var last := attempts[|attempts| - 1];
      WrittenBlocks(attempts[..|attempts| - 1]) + if last.write.Done? then [last.block] else []
  }

  /** What the writer puts down about every block it is given: where it believes the file ends. */
  function Believed(attempts: seq<Attempt>): (r: seq<IndexEntry>)
    ensures |r| == |attempts|
  {
    if attempts == [] then []
    else
      var init, last := attempts[..|attempts| - 1], attempts[|attempts| - 1];
      Believed(init) + [IndexEntry(AfterAll(init).offset, last.block.group)]
  }

  /** Where the blocks that were written are. */
  function Placed(attempts: seq<Attempt>): seq<IndexEntry> {
    if attempts == [] then []
    else
      var init, last := attempts[..|attempts| - 1], attempts[|attempts| - 1];
      Placed(init) + if last.write.Done? then [IndexEntry(|AfterAll(init).content|, last.block.group)] else []
  }

  /** The file is these pieces, the writer's offset lacks the bytes torn off, and the entries in the file and
      those pending are the ones believed. */
  ghost predicate Tally(st: IndexState, pieces: seq<Piece>, torn: nat, believed: seq<IndexEntry>,
                        placed: seq<IndexEntry>, blocks: seq<Block>) {
    && st.content == Laid(pieces)
    && st.offset + torn == |st.content|
    && Listed(pieces) + st.index == believed
    && Positions(pieces) == placed
    && DropIndex(WholeBlocks(pieces)) == blocks
    && (forall i :: 0 <= i < |st.index| ==> EntryFits(st.index[i]))
  }

  lemma WriteTallied(st: IndexState, pieces: seq<Piece>, torn: nat, believed: seq<IndexEntry>,
                     placed: seq<IndexEntry>, blocks: seq<Block>, b: Block)
    requires Tally(st, pieces, torn, believed, placed, blocks) && b.group != INDEX && Fits(b)
    requires |st.content| < 0x1_0000_0000_0000_0000
    ensures Tally(Append(Remember(st, b.group), b), pieces + [Whole(b)], torn,
                  believed + [IndexEntry(st.offset, b.group)], placed + [IndexEntry(|st.content|, b.group)],
                  blocks + [b])
  {
    hide Laid, Listed, Positions, WholeBlocks, DropIndex, Frame;
    OnePiece(pieces, Whole(b));
    PieceListed(pieces, Whole(b));
    Behind(Listed(pieces), st.index, IndexEntry(st.offset, b.group));
    assert Listed(pieces) + [] == Listed(pieces);
  }

  lemma Behind(a: seq<IndexEntry>, b: seq<IndexEntry>, e: IndexEntry)
    ensures a + (b + [e]) == (a + b) + [e]
  {
  }

  /** A torn frame, of a block or of the index. */
  lemma TearTallied(st: IndexState, pieces: seq<Piece>, torn: nat, believed: seq<IndexEntry>,
                    placed: seq<IndexEntry>, blocks: seq<Block>, b: Block, left: nat)
    requires Tally(st, pieces, torn, believed, placed, blocks)
    ensures Tally(Tear(st, b, left), pieces + [Part(Left(b, left))], torn + |Left(b, left)|, believed, placed, blocks)
  {
    hide Laid, Listed, Positions, WholeBlocks, DropIndex, Left;
    var p := Part(Left(b, left));
    OnePiece(pieces, p);
    PieceListed(pieces, p);
    assert Listed(pieces) + [] == Listed(pieces) && Positions(pieces) + [] == Positions(pieces);
    assert DropIndex(WholeBlocks(pieces)) + [] == DropIndex(WholeBlocks(pieces));
  }

  lemma RememberTallied(st: IndexState, pieces: seq<Piece>, torn: nat, believed: seq<IndexEntry>,
                        placed: seq<IndexEntry>, blocks: seq<Block>, b: Block)
    requires Tally(st, pieces, torn, believed, placed, blocks) && b.group != INDEX && Fits(b)
    requires |st.content| < 0x1_0000_0000_0000_0000
    ensures Tally(Remember(st, b.group), pieces, torn, believed + [IndexEntry(st.offset, b.group)], placed, blocks)
  {
    hide Laid, Listed, Positions, WholeBlocks, DropIndex;
    Behind(Listed(pieces), st.index, IndexEntry(st.offset, b.group));
  }

  lemma FlushTallied(st: IndexState, pieces: seq<Piece>, torn: nat, believed: seq<IndexEntry>,
                     placed: seq<IndexEntry>, blocks: seq<Block>, outcome: Outcome)
    requires Tally(st, pieces, torn, believed, placed, blocks)
    ensures Tally(FlushTo(st, outcome), pieces + FlushPieces(st, outcome), torn + TornBytes(FlushPieces(st, outcome)),
                  believed, placed, blocks)
    ensures outcome.Done? ==> FlushTo(st, outcome).index == []
  {
    hide Laid, Listed, Positions, WholeBlocks, DropIndex, IndexBlock, Frame, Left;
    if st.index == [] {
      assert pieces + [] == pieces;
    } else if outcome.Done? {
      IndexTallied(st, pieces, torn, believed, placed, blocks);
      NothingTorn(IndexBlock(st.index));
    } else {
      TearTallied(st, pieces, torn, believed, placed, blocks, IndexBlock(st.index), outcome.left);
      OneTorn(Left(IndexBlock(st.index), outcome.left));
    }
  }

  lemma OneTorn(bytes: seq<Byte>)
    ensures TornBytes([Part(bytes)]) == |bytes|
  {
    assert [Part(bytes)][..0] == [];
  }

  lemma NothingTorn(b: Block)
    ensures TornBytes([Whole(b)]) == 0
  {
    assert [Whole(b)][..0] == [];
  }

  lemma IndexTallied(st: IndexState, pieces: seq<Piece>, torn: nat, believed: seq<IndexEntry>,
                     placed: seq<IndexEntry>, blocks: seq<Block>)
    requires Tally(st, pieces, torn, believed, placed, blocks) && st.index != []
    ensures Tally(Flush(st), pieces + [Whole(IndexBlock(st.index))], torn, believed, placed, blocks)
  {
    hide Laid, Listed, Positions, WholeBlocks, DropIndex, Frame, EntriesBytes, ReadEntries;
    var b := IndexBlock(st.index);
    OnePiece(pieces, Whole(b));
    PieceListed(pieces, Whole(b));
    EntriesRoundTrip(st.index);
    assert Listed(pieces) + st.index + [] == Listed(pieces) + st.index;
    assert Positions(pieces) + [] == Positions(pieces);
    assert DropIndex(WholeBlocks(pieces)) + [] == DropIndex(WholeBlocks(pieces));
  }

  lemma TornConcat(p: Piece, q: seq<Piece>)
    requires |q| <= 1
    ensures TornBytes([p] + q) == TornBytes([p]) + TornBytes(q)
  {
    if q == [] {
      assert [p] + q == [p];
    } else {
      assert ([p] + q)[..1] == [p] && q[..0] == [];
    }
  }

  lemma AttemptTallied(st: IndexState, pieces: seq<Piece>, torn: nat, believed: seq<IndexEntry>,
                       placed: seq<IndexEntry>, blocks: seq<Block>, a: Attempt)
    requires Tally(st, pieces, torn, believed, placed, blocks) && a.block.group != INDEX && Fits(a.block)
    requires |st.content| < 0x1_0000_0000_0000_0000
    ensures Tally(After(st, a), pieces + Added(st, a), torn + TornBytes(Added(st, a)),
                  believed + [IndexEntry(st.offset, a.block.group)],
                  placed + if a.write.Done? then [IndexEntry(|st.content|, a.block.group)] else [],
                  blocks + if a.write.Done? then [a.block] else [])
  {
    hide Tally, Append, FlushTo, Remember;
    var now := believed + [IndexEntry(st.offset, a.block.group)];
    if a.write.Failed? {
      RememberTallied(st, pieces, torn, believed, placed, blocks, a.block);
      TearTallied(Remember(st, a.block.group), pieces, torn, now, placed, blocks, a.block, a.write.left);
      OneTorn(Left(a.block, a.write.left));
      assert placed + [] == placed && blocks + [] == blocks;
    } else {
      var written := Append(Remember(st, a.block.group), a.block);
      WriteTallied(st, pieces, torn, believed, placed, blocks, a.block);
      NothingTorn(a.block);
      var more := if |written.index| >= INDEX_EVERY then FlushPieces(written, a.flush) else [];
      if |written.index| >= INDEX_EVERY {
        FlushTallied(written, pieces + [Whole(a.block)], torn, now, placed + [IndexEntry(|st.content|, a.block.group)],
                     blocks + [a.block], a.flush);
      } else {
        assert pieces + [Whole(a.block)] + more == pieces + [Whole(a.block)];
      }
      assert pieces + [Whole(a.block)] + more == pieces + Added(st, a);
      TornConcat(Whole(a.block), more);
    }
  }

  predicate GoodAttempts(attempts: seq<Attempt>) {
    forall k :: 0 <= k < |attempts| ==> attempts[k].block.group != INDEX && Fits(attempts[k].block)
  }

  lemma AfterGrows(st: IndexState, a: Attempt)
    ensures |st.content| <= |After(st, a).content|
  {
  }

  /** After any writes and flushes, some of which failed: the file is the whole and torn frames, the writer's
      offset is behind its end by exactly the bytes left, and what the index says of a block is where the
      writer believed the end to be. */
  lemma {:induction false} AttemptsTallied(attempts: seq<Attempt>)
    requires GoodAttempts(attempts) && |AfterAll(attempts).content| < 0x1_0000_0000_0000_0000
    ensures Tally(AfterAll(attempts), InFile(attempts), LeftBytes(attempts), Believed(attempts), Placed(attempts),
                  WrittenBlocks(attempts))
  {
    hide Tally, Added, After;
    if attempts == [] {
      NothingTallied();
    } else {
      var init, last := attempts[..|attempts| - 1], attempts[|attempts| - 1];
      AfterGrows(AfterAll(init), last);
      AttemptsTallied(init);
      AttemptTallied(AfterAll(init), InFile(init), LeftBytes(init), Believed(init), Placed(init), WrittenBlocks(init),
                     last);
    }
  }

  lemma NothingTallied()
    ensures Tally(EMPTY, [], 0, [], [], [])
  {
  }

  // ----- When the index agrees with the file -----

  lemma {:induction false} PlacedCount(attempts: seq<Attempt>)
    ensures |Placed(attempts)| + Failures(attempts) == |attempts|
  {
    if attempts != [] {
      PlacedCount(attempts[..|attempts| - 1]);
    }
  }

  /** No write failed, and what failed flushes left came behind the last write. */
  predicate InOrder(attempts: seq<Attempt>) {
    Failures(attempts) == 0 && (attempts != [] ==> LeftBytes(attempts[..|attempts| - 1]) == 0)
  }

  lemma {:induction false} BelievedIffPlaced(attempts: seq<Attempt>)
    requires GoodAttempts(attempts) && |AfterAll(attempts).content| < 0x1_0000_0000_0000_0000
    ensures Believed(attempts) == Placed(attempts) <==> InOrder(attempts)
  {
    hide After, Added, AfterAll;
    PlacedCount(attempts);
    if attempts != [] && Failures(attempts) == 0 {
      var init, last := attempts[..|attempts| - 1], attempts[|attempts| - 1];
      BeforeLast(attempts);
      AttemptsTallied(init);
      PlacedCount(init);
      BelievedIffPlaced(init);
      SameEntry(Believed(init), Placed(init), IndexEntry(AfterAll(init).offset, last.block.group),
                IndexEntry(|AfterAll(init).content|, last.block.group));
      if InOrder(attempts) && init != [] {
        LeftEarlier(init);
      }
    }
  }

  lemma BeforeLast(attempts: seq<Attempt>)
    requires attempts != []
    ensures |AfterAll(attempts[..|attempts| - 1]).content| <= |AfterAll(attempts).content|
  {
    AfterGrows(AfterAll(attempts[..|attempts| - 1]), attempts[|attempts| - 1]);
  }

  lemma LeftEarlier(attempts: seq<Attempt>)
    requires attempts != []
    ensures LeftBytes(attempts[..|attempts| - 1]) <= LeftBytes(attempts)
  {
  }

  lemma SameEntry(a: seq<IndexEntry>, b: seq<IndexEntry>, e: IndexEntry, f: IndexEntry)
    requires |a| == |b|
    ensures a + [e] == b + [f] <==> a == b && e == f
  {
    if a + [e] == b + [f] {
      assert a == (a + [e])[..|a|] && b == (b + [f])[..|b|];
      assert (a + [e])[|a|] == e && (b + [f])[|b|] == f;
    }
  }

  /** A closed file holds the blocks whose writes did not fail. Once the closing flush succeeds, its index
      describes it if and only if no write failed and no flush left bytes before a later write; flushes that
      fail without leaving any do no harm. In general there are too many entries by the number of failed
      writes. If the closing flush fails as well, the index lacks exactly the pending entries. */
  lemma {:induction false} IndexAgreesIff(attempts: seq<Attempt>, closing: Outcome)
    requires GoodAttempts(attempts) && |AfterAll(attempts).content| < 0x1_0000_0000_0000_0000
    ensures var file := ClosedFile(attempts, closing);
            && ClosedAfter(attempts, closing).content == Laid(file)
            && DropIndex(WholeBlocks(file)) == WrittenBlocks(attempts)
            && (closing.Done? ==> (Listed(file) == Positions(file) <==> InOrder(attempts)))
            && (closing.Done? ==> |Listed(file)| == |Positions(file)| + Failures(attempts))
            && (closing.Failed? ==> Listed(file) + AfterAll(attempts).index == Believed(attempts))
  {
    hide AfterAll, InFile, Believed, Placed, InOrder, FlushPieces, Laid, Listed, Positions, WholeBlocks, DropIndex,
      TornBytes, IndexBlock;
    var st := AfterAll(attempts);
    AttemptsTallied(attempts);
    FlushTallied(st, InFile(attempts), LeftBytes(attempts), Believed(attempts), Placed(attempts),
                 WrittenBlocks(attempts), closing);
    PlacedCount(attempts);
    BelievedIffPlaced(attempts);
    if closing.Done? {
      assert Listed(ClosedFile(attempts, closing)) + [] == Listed(ClosedFile(attempts, closing));
    }
  }

  /** The entry of a block names a place short of where the block is by exactly the bytes left before it. */
  lemma {:induction false} EntriesLag(attempts: seq<Attempt>, k: nat)
    requires GoodAttempts(attempts) && |AfterAll(attempts).content| < 0x1_0000_0000_0000_0000
    requires k < |attempts| && Failures(attempts) == 0
    ensures |Placed(attempts)| == |attempts|
    ensures Placed(attempts)[k].offset == Believed(attempts)[k].offset + LeftBytes(attempts[..k])
    decreases |attempts|
  {
    hide After, Added, AfterAll;
    var init := attempts[..|attempts| - 1];
    PlacedCount(attempts);
    PlacedCount(init);
    BeforeLast(attempts);
    if k == |init| {
      AttemptsTallied(init);
    } else {
      EntriesLag(init, k);
      assert init[..k] == attempts[..k];
    }
  }

  // ----- What failed flushes leave behind -----

  predicate FlushesSucceed(attempts: seq<Attempt>) {
    forall k :: 0 <= k < |attempts| ==> attempts[k].flush.Done?
  }

  lemma {:induction false} PiecesConcat(a: seq<Piece>, b: seq<Piece>)
    ensures WholeBlocks(a + b) == WholeBlocks(a) + WholeBlocks(b)
    decreases |b|
  {
    if b == [] {
      assert a + b == a;
      assert WholeBlocks(a) + [] == WholeBlocks(a);
    } else {
      var init := b[..|b| - 1];
      assert (a + b)[..|a + b| - 1] == a + init;
      PiecesConcat(a, init);
    }
  }

  /** Without failures no index block has more than a hundred entries. */
  lemma {:induction false} IndexBlocksAreSmall(attempts: seq<Attempt>)
    requires GoodAttempts(attempts) && FlushesSucceed(attempts) && Failures(attempts) == 0
    ensures GoodIndexBlocks(WholeBlocks(InFile(attempts))) && |AfterAll(attempts).index| < INDEX_EVERY
  {
    hide Added, After;
    if attempts != [] {
      var init, last := attempts[..|attempts| - 1], attempts[|attempts| - 1];
      IndexBlocksAreSmall(init);
      AddedIsSmall(AfterAll(init), last);
      PiecesConcat(InFile(init), Added(AfterAll(init), last));
    }
  }

  lemma AddedIsSmall(st: IndexState, a: Attempt)
    requires |st.index| < INDEX_EVERY && a.block.group != INDEX && a.write.Done? && a.flush.Done?
    ensures GoodIndexBlocks(WholeBlocks(Added(st, a))) && |After(st, a).index| < INDEX_EVERY
  {
    hide EntriesBytes, Frame;
    var written := Append(Remember(st, a.block.group), a.block);
    assert |written.index| == |st.index| + 1;
    IndexBlockSize(written.index);
    OnePiece([], Whole(a.block));
    assert [] + [Whole(a.block)] == [Whole(a.block)];
    if |written.index| >= INDEX_EVERY {
      OnePiece([Whole(a.block)], Whole(IndexBlock(written.index)));
    }
  }

  lemma IndexBlockSize(index: seq<IndexEntry>)
    ensures |IndexBlock(index).payload| % 12 == 0 && |IndexBlock(index).payload| / 12 == |index|
  {
  }

  /** After a failed flush the next successful one writes an index block of more than a hundred entries. */
  lemma {:induction false} FailedFlushIsLarge(st: IndexState, a: Attempt, b: Attempt)
    requires a.write.Done? && a.flush.Failed? && b.write.Done? && b.flush.Done?
    requires a.block.group != INDEX && b.block.group != INDEX && |st.index| == INDEX_EVERY - 1
    ensures var added := Added(After(st, a), b);
            |added| == 2 && added[1].Whole? && added[1].block.group == INDEX
                && |added[1].block.payload| == 12 * (INDEX_EVERY + 1)
  {
  }
}
