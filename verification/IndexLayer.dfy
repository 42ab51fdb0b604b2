/** The index layer: every block written is remembered by offset and group, and the list is emitted
    as an index block from time to time and when the writer is destroyed. */
module IndexLayer {
  import opened Bytes
  import opened FileLayer
  import opened BlockLayer

  const INDEX_EVERY: nat := 100

  datatype IndexEntry = IndexEntry(offset: nat, group: nat)

  function UInt64(n: nat): (r: seq<Byte>)
    ensures |r| == 8
  {
    Be(n % 0x1_0000_0000_0000_0000, 8)
  }

  function EntryBytes(e: IndexEntry): (r: seq<Byte>)
    ensures |r| == 12
  {
    UInt64(e.offset) + UInt32(e.group)
  }

  function EntriesBytes(es: seq<IndexEntry>): (r: seq<Byte>)
    ensures |r| == 12 * |es|
  {
    if es == [] then [] else EntryBytes(es[0]) + EntriesBytes(es[1..])
  }

  function IndexBlock(es: seq<IndexEntry>): Block {
    Block(INDEX, EntriesBytes(es))
  }

  /** The file so far, the writer's idea of its length, and the blocks not yet indexed. */
  datatype IndexState = IndexState(content: seq<Byte>, offset: nat, index: seq<IndexEntry>)

  const EMPTY := IndexState([], 0, [])

  /** A block written by the layer below. */
  function Append(st: IndexState, b: Block): IndexState {
    st.(content := st.content + Frame(b), offset := st.offset + |b.payload| + OVERHEAD)
  }

  function Flush(st: IndexState): IndexState {
    if st.index == [] then st else Append(st, IndexBlock(st.index)).(index := [])
  }

  function Remember(st: IndexState, group: nat): IndexState {
    if group != INDEX then st.(index := st.index + [IndexEntry(st.offset, group)]) else st
  }

  /** A successful write_block(). */
  function Put(st: IndexState, b: Block): IndexState {
    var written := Append(Remember(st, b.group), b);
    if |written.index| >= INDEX_EVERY then Flush(written) else written
  }

  /** A block that could not be written: some of its first bytes may be in the file, but not all of them. */
  predicate Torn(before: IndexState, b: Block, after: IndexState) {
    after == before.(content := after.content) && before.content <= after.content < before.content + Frame(b)
  }

  predicate FlushFailed(st: IndexState, after: IndexState) {
    st.index != [] && Torn(st, IndexBlock(st.index), after)
  }

  /** A failed write_block(): the block was not written, or it was and the flush failed. */
  predicate PutFailed(st: IndexState, b: Block, after: IndexState) {
    || Torn(Remember(st, b.group), b, after)
    || (var written := Append(Remember(st, b.group), b); |written.index| >= INDEX_EVERY && FlushFailed(written, after))
  }

  class IndexedWriter {
    const writer: BlockWriter
    var index: seq<IndexEntry>
    var offset: nat

    constructor (writer: BlockWriter)
      requires writer.file.content == []
      ensures this.writer == writer && View() == EMPTY
    {
      this.writer := writer;
      index := [];
      offset := 0;
    }

    function View(): IndexState
      reads this, writer, writer.file
    {
      IndexState(writer.file.content, offset, index)
    }

    /** On failure the block has already been remembered. Either it is not in the file, or only the flush
        that was due after it failed. */
    method WriteBlock(group: nat, parts: seq<seq<Byte>>) returns (ok: bool)
      modifies this, writer.file
      ensures ok ==> View() == Put(old(View()), Block(group, Flat(parts)))
      ensures !ok ==> PutFailed(old(View()), Block(group, Flat(parts)), View())
      ensures Cooperative(writer.file.kernel) ==> ok
    {
      if group != INDEX {
        index := index + [IndexEntry(offset, group)];
      }
      var size := writer.WriteBlock(group, parts);
      if size.None? {
        return false;
      }
      offset := offset + size.value;
      ok := true;
      if |index| >= INDEX_EVERY {
        ok := FlushIndex();
      }
    }

    /** On failure nothing is forgotten and the offset stays where it was. */
    method FlushIndex() returns (ok: bool)
      modifies this, writer.file
      ensures ok ==> View() == Flush(old(View()))
      ensures !ok ==> FlushFailed(old(View()), View())
      ensures Cooperative(writer.file.kernel) ==> ok
    {
      if index == [] {
        return true;
      }
      FlatOne(EntriesBytes(index));
      var size := writer.WriteBlock(INDEX, [EntriesBytes(index)]);
      if size.None? {
        return false;
      }
      offset := offset + size.value;
      index := [];
      ok := true;
    }

    /** The destructor: a last flush whose failure is ignored. */
    method Destroy()
      modifies this, writer.file
      ensures View() == Flush(old(View())) || FlushFailed(old(View()), View())
      ensures Cooperative(writer.file.kernel) ==> View() == Flush(old(View()))
    {
      var _ := FlushIndex();
    }
  }
}
