/** The logical layer: unique ids for channels, decoders, groups and tests, and metadata blocks. */
module LogicalLayer {
  import opened Bytes
  import opened FileLayer
  import opened BlockLayer
  import opened IndexLayer

  /** Incrementing a 32-bit unsigned counter. */
  function Next(n: nat): nat {
    (n + 1) % 0x1_0000_0000
  }

  datatype WriterState = WriterState(nextChannel: nat, nextDecoder: nat, nextGroup: nat, nextTest: nat,
                                     index: IndexState)

  const FRESH := WriterState(0, 2, 2, 2, EMPTY)

  function WriteBlock(w: WriterState, group: nat, payload: seq<Byte>): WriterState {
    w.(index := Put(w.index, Block(group, payload)))
  }

  function WriteMetadata(w: WriterState, xml: string): WriterState {
    WriteBlock(w, METADATA, OfText(xml))
  }

  /** A block that could not be written as a whole: the ids are those handed out. */
  predicate WriteFailed(w: WriterState, group: nat, payload: seq<Byte>, after: WriterState) {
    after == w.(index := after.index) && PutFailed(w.index, Block(group, payload), after.index)
  }

  class Writer {
    const writer: IndexedWriter
    var nextChannelId: nat
    var nextDecoderId: nat
    var nextGroup: nat
    var nextTestId: nat

    constructor (writer: IndexedWriter)
      requires writer.View() == EMPTY
      ensures this.writer == writer && View() == FRESH
      ensures nextChannelId == 0 && nextDecoderId == nextGroup == nextTestId == 2
    {
      this.writer := writer;
      nextChannelId, nextDecoderId, nextGroup, nextTestId := 0, 2, 2, 2;
    }

    function View(): WriterState
      reads this, writer, writer.writer, writer.writer.file
    {
      WriterState(nextChannelId, nextDecoderId, nextGroup, nextTestId, writer.View())
    }

    method AllocateChannel() returns (id: nat)
      modifies this
      ensures id == old(nextChannelId) && View() == old(View()).(nextChannel := Next(id))
    {
      id := nextChannelId;
      nextChannelId := Next(nextChannelId);
    }

    method AllocateDecoder() returns (id: nat)
      modifies this
      ensures id == old(nextDecoderId) && View() == old(View()).(nextDecoder := Next(id))
    {
      id := nextDecoderId;
      nextDecoderId := Next(nextDecoderId);
    }

    method AllocateGroup() returns (id: nat)
      modifies this
      ensures id == old(nextGroup) && View() == old(View()).(nextGroup := Next(id))
    {
      id := nextGroup;
      nextGroup := Next(nextGroup);
    }

    method AllocateTest() returns (id: nat)
      modifies this
      ensures id == old(nextTestId) && View() == old(View()).(nextTest := Next(id))
    {
      id := nextTestId;
      nextTestId := Next(nextTestId);
    }

    method WriteMetadataText(xml: string) returns (ok: bool)
      modifies writer, writer.writer.file
      ensures ok ==> View() == WriteMetadata(old(View()), xml)
      ensures !ok ==> WriteFailed(old(View()), METADATA, OfText(xml), View())
      ensures Cooperative(writer.writer.file.kernel) ==> ok
    {
      FlatOne(OfText(xml));
      ok := Write(METADATA, [OfText(xml)]);
    }

    method Write(group: nat, parts: seq<seq<Byte>>) returns (ok: bool)
      modifies writer, writer.writer.file
      ensures ok ==> View() == WriteBlock(old(View()), group, Flat(parts))
      ensures !ok ==> WriteFailed(old(View()), group, Flat(parts), View())
      ensures Cooperative(writer.writer.file.kernel) ==> ok
    {
      ok := writer.WriteBlock(group, parts);
    }
  }
}
