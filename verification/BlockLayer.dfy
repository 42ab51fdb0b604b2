/** The block layer: a file is a plain sequence of framed blocks. */
module BlockLayer {
  import opened Bytes
  import opened FileLayer
  import Crc32

  const SYNC_WORD: nat := 0x51EDA7A0
  const METADATA: nat := 0
  const INDEX: nat := 1

  /** The header and footer of a block take 12 and 8 bytes. */
  const OVERHEAD: nat := 20

  /** A size or group number as the big-endian uint32 the header holds: larger values are cut off. */
  function UInt32(n: nat): (r: seq<Byte>)
    ensures |r| == 4
  {
    Be(n % 0x1_0000_0000, 4)
  }

  function Header(group: nat, payloadSize: nat): (r: seq<Byte>)
    ensures |r| == 12
  {
    UInt32(12 + payloadSize + 8) + UInt32(group) + UInt32(SYNC_WORD)
  }

  function Footer(checksum: nat, payloadSize: nat): (r: seq<Byte>)
    ensures |r| == 8
  {
    UInt32(checksum) + UInt32(12 + payloadSize + 8)
  }

  datatype Block = Block(group: nat, payload: seq<Byte>)

  /** The bytes of one block on disk. */
  function Frame(b: Block): (r: seq<Byte>)
    ensures |r| == |b.payload| + OVERHEAD
  {
    var head := Header(b.group, |b.payload|);
    head + b.payload + Footer(Crc32.Checksum(head + b.payload), |b.payload|)
  }

  function Frames(blocks: seq<Block>): seq<Byte> {
    if blocks == [] then [] else Frame(blocks[0]) + Frames(blocks[1..])
  }

  lemma {:induction false} FramesConcat(a: seq<Block>, b: seq<Block>)
    ensures Frames(a + b) == Frames(a) + Frames(b)
  {
    if a == [] {
      assert a + b == b;
    } else {
      assert (a + b)[1..] == a[1..] + b;
      FramesConcat(a[1..], b);
    }
  }

  lemma FramesAppend(blocks: seq<Block>, b: Block)
    ensures Frames(blocks + [b]) == Frames(blocks) + Frame(b)
  {
    FramesConcat(blocks, [b]);
    assert [b][1..] == [];
  }

  /** What the 32-bit fields of a block can represent. */
  predicate Fits(b: Block) {
    |b.payload| + OVERHEAD < 0x1_0000_0000 && b.group < 0x1_0000_0000
  }

  predicate AllFit(blocks: seq<Block>) {
    forall i :: 0 <= i < |blocks| ==> Fits(blocks[i])
  }

  lemma UInt32Value(n: nat)
    ensures BeValue(UInt32(n)) == n % 0x1_0000_0000
  {
    Powers();
    BeRoundTrip(n % 0x1_0000_0000, 4);
  }

  // ----- Where the parts of a frame lie -----

  /** The 32-bit big-endian number at a place in the file. */
  function UInt32At(file: seq<Byte>, pos: nat): nat
    requires pos + 4 <= |file|
  {
    BeValue(file[pos..pos + 4])
  }

  /** The parts of one frame, at their places in the file. */
  ghost predicate FrameAt(file: seq<Byte>, pos: nat, b: Block) {
    && pos + |b.payload| + OVERHEAD <= |file|
    && UInt32At(file, pos) == (|b.payload| + OVERHEAD) % 0x1_0000_0000
    && UInt32At(file, pos + 4) == b.group % 0x1_0000_0000
    && UInt32At(file, pos + 8) == 0x51ED_A7A0
    && file[pos + 12..pos + 12 + |b.payload|] == b.payload
    && UInt32At(file, pos + 16 + |b.payload|) == (|b.payload| + OVERHEAD) % 0x1_0000_0000
  }

  lemma SixParts(before: seq<Byte>, a: seq<Byte>, b: seq<Byte>, c: seq<Byte>, p: seq<Byte>, d: seq<Byte>, e: seq<Byte>,
                 after: seq<Byte>)
    requires |a| == |b| == |c| == |d| == |e| == 4
    ensures var file, pos := before + (a + b + c + p + (d + e)) + after, |before|;
            && file[pos..pos + 4] == a && file[pos + 4..pos + 8] == b && file[pos + 8..pos + 12] == c
            && file[pos + 12..pos + 12 + |p|] == p && file[pos + 16 + |p|..pos + 20 + |p|] == e
  {
  }

  lemma FramePlaced(before: seq<Byte>, b: Block, after: seq<Byte>)
    ensures FrameAt(before + Frame(b) + after, |before|, b)
  {
    hide BeValue, Crc32.Checksum, Be;
    var size, group, sync := UInt32(|b.payload| + OVERHEAD), UInt32(b.group), UInt32(SYNC_WORD);
    var sum := UInt32(Crc32.Checksum(Header(b.group, |b.payload|) + b.payload));
    assert Frame(b) == size + group + sync + b.payload + (sum + size);
    SixParts(before, size, group, sync, b.payload, sum, size, after);
    UInt32Value(|b.payload| + OVERHEAD);
    UInt32Value(b.group);
    UInt32Value(SYNC_WORD);
  }

  /** The file from pos on consists of these frames. */
  ghost predicate FramesAt(file: seq<Byte>, pos: nat, blocks: seq<Block>)
    decreases |blocks|
  {
    if blocks == [] then pos == |file|
    else FrameAt(file, pos, blocks[0]) && FramesAt(file, pos + |blocks[0].payload| + OVERHEAD, blocks[1..])
  }

  lemma Grouped(a: seq<Byte>, b: seq<Byte>, c: seq<Byte>)
    ensures a + (b + c) == a + b + c
  {
  }

  lemma FrameLength(b: Block)
    ensures |Frame(b)| == |b.payload| + OVERHEAD
  {
  }

  lemma {:induction false} FramesPlaced(before: seq<Byte>, blocks: seq<Block>)
    ensures FramesAt(before + Frames(blocks), |before|, blocks)
    decreases |blocks|
  {
    hide FrameAt, Frame;
    if blocks != [] {
      FramePlaced(before, blocks[0], Frames(blocks[1..]));
      FrameLength(blocks[0]);
      FramesPlaced(before + Frame(blocks[0]), blocks[1..]);
      Grouped(before, Frame(blocks[0]), Frames(blocks[1..]));
    } else {
      assert before + Frames(blocks) == before;
    }
  }

  // ----- Detecting damage -----

  /** The bytes the checksum of a block covers. */
  function Covered(b: Block): (r: seq<Byte>)
    ensures |r| == 12 + |b.payload|
  {
    Header(b.group, |b.payload|) + b.payload
  }

  lemma FootValue(frame: seq<Byte>, covered: seq<Byte>, sum: nat, size: seq<Byte>)
    requires |size| == 4 && sum < 0x1_0000_0000 && frame == covered + (UInt32(sum) + size)
    ensures |covered| + 4 <= |frame| && UInt32At(frame, |covered|) == sum
  {
    assert frame[|covered|..|covered| + 4] == UInt32(sum);
    UInt32Value(sum);
  }

  lemma FrameParted(b: Block)
    ensures Frame(b) == Covered(b) + (UInt32(Crc32.Checksum(Covered(b))) + UInt32(12 + |b.payload| + 8))
  {
  }

  lemma StoredChecksum(b: Block)
    ensures UInt32At(Frame(b), 12 + |b.payload|) == Crc32.Checksum(Covered(b))
  {
    FrameParted(b);
    Crc32.ChecksumFits(Covered(b));
    FootValue(Frame(b), Covered(b), Crc32.Checksum(Covered(b)), UInt32(12 + |b.payload| + 8));
  }

  /** Altering any run of at most four bytes of a block's size, group, sync word or payload makes the
      checksum of what is read differ from the one that was stored. */
  lemma {:induction false} AlterationDetected(b: Block, at: nat, altered: seq<Byte>)
    requires |altered| <= 4 && at + |altered| <= |Covered(b)| && altered != Covered(b)[at..at + |altered|]
    ensures Crc32.Checksum(Covered(b)[..at] + altered + Covered(b)[at + |altered|..]) != UInt32At(Frame(b), 12
            + |b.payload|)
  {
    var covered, original := Covered(b), Covered(b)[at..at + |altered|];
    assert covered == covered[..at] + original + covered[at + |altered|..];
    Crc32.BurstDetected(covered[..at], original, altered, covered[at + |altered|..]);
    StoredChecksum(b);
  }

  // ----- Writing -----

  function PayloadSize(parts: seq<seq<Byte>>): (n: nat)
    ensures n == |Flat(parts)|
  {
    if parts == [] then 0 else |parts[0]| + PayloadSize(parts[1..])
  }

  lemma {:induction false} FrameParts(head: seq<Byte>, parts: seq<seq<Byte>>, foot: seq<Byte>)
    ensures Flat([head] + parts + [foot]) == head + Flat(parts) + foot
  {
    FlatConcat([head] + parts, [foot]);
    FlatConcat([head], parts);
    FlatOne(head);
    FlatOne(foot);
  }

  class BlockWriter {
    const file: PosixVectorIoFile

    constructor (file: PosixVectorIoFile)
      ensures this.file == file
    {
      this.file := file;
    }

    /** do_payload_crc: feeds the segments one after the other. */
    method DoPayloadCrc(crc: Crc32.Crc32Type, parts: seq<seq<Byte>>)
      requires |crc.register| == 32
      modifies crc
      ensures |crc.register| == 32 && crc.register == Crc32.Process(old(crc.register), Flat(parts))
    {
      if parts != [] {
        Crc32.ProcessConcat(crc.register, parts[0], Flat(parts[1..]));
        crc.ProcessBytes(parts[0]);
        DoPayloadCrc(crc, parts[1..]);
      }
    }

    /** Writes one block. None stands for the exception of the file layer. */
    method WriteBlock(group: nat, parts: seq<seq<Byte>>) returns (size: Option<nat>)
      modifies file
      ensures size.Some? ==> size.value == |Flat(parts)| + OVERHEAD
      ensures size.Some? ==> file.content == old(file.content) + Frame(Block(group, Flat(parts)))
      ensures size.None? ==> old(file.content) <= file.content < old(file.content) + Frame(Block(group, Flat(parts)))
      ensures Cooperative(file.kernel) ==> size.Some?
    {
      var payloadSize := PayloadSize(parts);
      var header := Header(group, payloadSize);
      var crc := new Crc32.Crc32Type();
      crc.ProcessBytes(header);
      DoPayloadCrc(crc, parts);
      Crc32.ProcessConcat(Crc32.Ones(32), header, Flat(parts));
      var checksum := crc.Get();
      var footer := Footer(checksum, payloadSize);
      FrameParts(header, parts, footer);
      var ok := file.Write([header] + parts + [footer]);
      size := if ok then Some(12 + payloadSize + 8) else None;
    }
  }
}
