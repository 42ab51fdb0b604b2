/** The stream decoder of every file is the plain parser of the block format, on any bytes whatever. */
module StreamParse {
  import opened Bytes
  import opened BlockLayer
  import opened Decoders
  import opened StreamDecoder

  // ----- A plain parser -----

  /** A block starts here: sync word in its place, both sizes the same, and all of it there. */
  predicate BlockAt(file: seq<Byte>, pos: nat) {
    && pos + OVERHEAD <= |file|
    && UInt32At(file, pos + 8) == SYNC_WORD
    && OVERHEAD <= UInt32At(file, pos) <= |file| - pos
    && UInt32At(file, pos + UInt32At(file, pos) - 4) == UInt32At(file, pos)
  }

  function BlockIn(file: seq<Byte>, pos: nat): Block
    requires BlockAt(file, pos)
  {
    Block(UInt32At(file, pos + 4), file[pos + 12..pos + UInt32At(file, pos) - 8])
  }

  /** The blocks from a place to the end, if there is nothing but blocks. */
  function Parsed(file: seq<Byte>, pos: nat): Option<seq<Block>>
    decreases |file| - pos
  {
    if pos >= |file| then Some([])
    else if !BlockAt(file, pos) then None
    else
      var rest := Parsed(file, pos + UInt32At(file, pos));
      if rest.None? then None else Some([BlockIn(file, pos)] + rest.value)
  }

  // ----- One turn of the decoder -----

  /** A field that is not there, or not what it has to be. */
  lemma FieldFails(body: seq<Stmt>, k: nat, file: seq<Byte>, m: Machine)
    requires IsStreamBody(body) && k < 6 && k != 3
    requires || m.pos + 4 > |file| || (k == 2 && UInt32At(file, m.pos) != SYNC_WORD)
             || (k == 5 && "size" in m.vars && m.vars["size"].IntValue? && m.vars["size"].i != UInt32At(file, m.pos))
    ensures ExecAll(body[k..], file, m) == None
  {
    hide ExecAll;
    var s := body[k];
    assert s.bits % 8 == 0 && s.bits / 8 == 4;
    if m.pos + 4 <= |file| {
      assert Typed(UInt, Big, file[m.pos..m.pos + 4]) == IntValue(UInt32At(file, m.pos));
      assert k == 2 ==> Eval(Num(SYNC_WORD), m.vars) == Some(SYNC_WORD);
      assert k == 5 ==> Eval(Var("size"), m.vars) == Some(m.vars["size"].i);
    }
    assert Exec(s, file, m) == None;
    ExecAllAt(body, k, file, m);
  }

  function AfterHeader(file: seq<Byte>, m: Machine): Machine
    requires m.pos + 12 <= |file|
  {
    m.(pos := m.pos + 12,
       vars := m.vars["size" := IntValue(UInt32At(file, m.pos))]["group" := IntValue(UInt32At(file, m.pos + 4))]
               ["magic" := IntValue(UInt32At(file, m.pos + 8))])
  }

  lemma HeaderCases(body: seq<Stmt>, file: seq<Byte>, m: Machine)
    requires IsStreamBody(body)
    ensures ExecAll(body, file, m)
         == if m.pos + 12 <= |file| && UInt32At(file, m.pos + 8) == SYNC_WORD
            then ExecAll(body[3..], file, AfterHeader(file, m)) else None
  {
    hide ExecAll, UInt32At;
    assert body[0..] == body;
    if m.pos + 4 > |file| {
      FieldFails(body, 0, file, m);
    } else {
      FieldTurn(body, 0, file, m);
      var m1 := m.(pos := m.pos + 4, vars := m.vars["size" := IntValue(UInt32At(file, m.pos))]);
      if m1.pos + 4 > |file| {
        FieldFails(body, 1, file, m1);
      } else {
        FieldTurn(body, 1, file, m1);
        var m2 := m1.(pos := m1.pos + 4, vars := m1.vars["group" := IntValue(UInt32At(file, m1.pos))]);
        if m2.pos + 4 > |file| || UInt32At(file, m2.pos) != SYNC_WORD {
          FieldFails(body, 2, file, m2);
        } else {
          FieldTurn(body, 2, file, m2);
        }
      }
    }
  }

  lemma TailCases(body: seq<Stmt>, file: seq<Byte>, m: Machine, size: nat)
    requires IsStreamBody(body) && "size" in m.vars && m.vars["size"] == IntValue(size)
    ensures var r := ExecAll(body[4..], file, m);
            && (r.Some? <==> m.pos + 8 <= |file| && UInt32At(file, m.pos + 4) == size)
            && (r.Some? ==> r.value == m.(pos := m.pos + 8, vars := r.value.vars))
  {
    hide ExecAll, UInt32At;
    if m.pos + 4 > |file| {
      FieldFails(body, 4, file, m);
    } else {
      FieldTurn(body, 4, file, m);
      var m1 := m.(pos := m.pos + 4, vars := m.vars["checksum" := IntValue(UInt32At(file, m.pos))]);
      if m1.pos + 4 > |file| || UInt32At(file, m1.pos) != size {
        FieldFails(body, 5, file, m1);
      } else {
        FieldTurn(body, 5, file, m1);
        EndTurn(body, file, m1.(pos := m1.pos + 4, vars := m1.vars["size2" := IntValue(UInt32At(file, m1.pos))]));
      }
    }
  }

  /** One turn succeeds if and only if a block starts here, and hands out this block. */
  lemma {:induction false} BlockTurn(body: seq<Stmt>, file: seq<Byte>, m: Machine)
    requires IsStreamBody(body)
    ensures var r := ExecAll(body, file, m);
            && (r.Some? <==> BlockAt(file, m.pos))
            && (r.Some? ==> r.value.pos == m.pos + UInt32At(file, m.pos)
                            && r.value.routed == m.routed + [BlockIn(file, m.pos)])
  {
    hide ExecAll, UInt32At;
    HeaderCases(body, file, m);
    if m.pos + 12 <= |file| && UInt32At(file, m.pos + 8) == SYNC_WORD {
      var size, group, m3 := UInt32At(file, m.pos), UInt32At(file, m.pos + 4), AfterHeader(file, m);
      PayloadTurn(body, size, group, file, m3);
      if size >= 20 && m3.pos + size - 20 <= |file| {
        var bytes := file[m3.pos..m3.pos + size - 20];
        TailCases(body, file, m3.(pos := m3.pos + size - 20, vars := m3.vars["payload" := RawValue(bytes)],
                                  routed := m3.routed + [Block(group, bytes)]), size);
      }
    }
  }

  // ----- The whole stream -----

  lemma IterateStops(counter: Option<string>, i: int, step: int, body: seq<Stmt>, file: seq<Byte>, m: Machine)
    requires m.pos < |file| && ExecAll(body, file, Enter(counter, i, m)) == None
    ensures Iterate(counter, i, step, None, body, file, m) == None
  {
  }

  lemma {:induction false} StreamFrom(body: seq<Stmt>, file: seq<Byte>, i: int, m: Machine)
    requires IsStreamBody(body)
    ensures var r := Iterate(None, i, 1, None, body, file, m);
            && (r.Some? <==> Parsed(file, m.pos).Some?)
            && (r.Some? ==> r.value.routed == m.routed + Parsed(file, m.pos).value)
    decreases |file| - m.pos
  {
    hide ExecAll, UInt32At, BlockIn;
    if m.pos < |file| {
      BlockTurn(body, file, m);
      if BlockAt(file, m.pos) {
        IterateTurn(None, i, 1, body, file, m);
        StreamFrom(body, file, i + 1, ExecAll(body, file, m).value);
      } else {
        IterateStops(None, i, 1, body, file, m);
      }
    }
  }

  /** Running the stream decoder over any bytes is parsing them as blocks. */
  lemma {:induction false} StreamIsParsed(program: seq<Stmt>, file: seq<Byte>)
    requires IsStreamProgram(program)
    ensures ReadStream(program, file) == Parsed(file, 0)
  {
    hide IsStreamBody, Parsed;
    RunStream(program, file);
    StreamFrom(program[0].body, file, 0, START);
    assert Parsed(file, 0).Some? ==> [] + Parsed(file, 0).value == Parsed(file, 0).value;
  }

  // ----- What follows the last block -----

  lemma PlacedIsBlock(file: seq<Byte>, pos: nat, b: Block)
    requires Fits(b) && FrameAt(file, pos, b)
    ensures BlockAt(file, pos) && BlockIn(file, pos) == b && UInt32At(file, pos) == |b.payload| + OVERHEAD
  {
    hide UInt32At;
  }

  lemma FrameIsBlock(before: seq<Byte>, b: Block, after: seq<Byte>)
    requires Fits(b)
    ensures var file := before + Frame(b) + after;
            BlockAt(file, |before|) && BlockIn(file, |before|) == b && UInt32At(file, |before|) == |Frame(b)|
  {
    hide UInt32At, BlockAt, BlockIn, FrameAt, Frame, Fits;
    FramePlaced(before, b, after);
    PlacedIsBlock(before + Frame(b) + after, |before|, b);
  }

  lemma Shifted(a: seq<Byte>, b: seq<Byte>, pos: nat)
    ensures BlockAt(a + b, |a| + pos) <==> BlockAt(b, pos)
    ensures pos + 4 <= |b| ==> UInt32At(a + b, |a| + pos) == UInt32At(b, pos)
    ensures BlockAt(b, pos) ==> BlockIn(a + b, |a| + pos) == BlockIn(b, pos)
  {
    hide BeValue;
    forall k: nat | k + 4 <= |b| ensures UInt32At(a + b, |a| + k) == UInt32At(b, k) {
      assert (a + b)[|a| + k..|a| + k + 4] == b[k..k + 4];
    }
  }

  lemma {:induction false} ParsedBehind(a: seq<Byte>, b: seq<Byte>, pos: nat)
    ensures Parsed(a + b, |a| + pos) == Parsed(b, pos)
    decreases |b| - pos
  {
    hide UInt32At, BlockIn;
    if pos < |b| {
      Shifted(a, b, pos);
      if BlockAt(b, pos) {
        ParsedBehind(a, b, pos + UInt32At(b, pos));
      }
    }
  }

  lemma Regrouped(a: seq<Byte>, b: seq<Byte>, c: seq<Byte>, d: seq<Byte>)
    ensures a + (b + c) + d == a + b + c + d == a + b + (c + d)
  {
  }

  lemma {:induction false} FramesParsed(before: seq<Byte>, blocks: seq<Block>, rest: seq<Byte>)
    requires AllFit(blocks)
    ensures Parsed(before + Frames(blocks) + rest, |before|)
         == if Parsed(rest, 0).None? then None else Some(blocks + Parsed(rest, 0).value)
    decreases |blocks|
  {
    hide UInt32At, BlockIn, Frame;
    if blocks == [] {
      assert before + Frames(blocks) + rest == before + rest;
      ParsedBehind(before, rest, 0);
      assert Parsed(rest, 0).Some? ==> blocks + Parsed(rest, 0).value == Parsed(rest, 0).value;
    } else {
      FrameIsBlock(before, blocks[0], Frames(blocks[1..]) + rest);
      FramesParsed(before + Frame(blocks[0]), blocks[1..], rest);
      Regrouped(before, Frame(blocks[0]), Frames(blocks[1..]), rest);
      assert |before + Frame(blocks[0])| == |before| + |Frame(blocks[0])|;
      if Parsed(rest, 0).Some? {
        assert [blocks[0]] + (blocks[1..] + Parsed(rest, 0).value) == blocks + Parsed(rest, 0).value;
      }
    }
  }

  /** Blocks followed by other bytes: the stream is readable if and only if these bytes are blocks, too. */
  lemma {:induction false} BytesBehindBlocks(program: seq<Stmt>, blocks: seq<Block>, rest: seq<Byte>)
    requires IsStreamProgram(program) && AllFit(blocks)
    ensures ReadStream(program, Frames(blocks) + rest)
         == if Parsed(rest, 0).None? then None else Some(blocks + Parsed(rest, 0).value)
  {
    hide Frames, ReadStream, IsStreamProgram, Parsed;
    StreamIsParsed(program, Frames(blocks) + rest);
    FramesParsed([], blocks, rest);
    assert [] + Frames(blocks) + rest == Frames(blocks) + rest;
  }

  /** A first part of a frame is no block. */
  lemma {:induction false} TornFrame(b: Block, torn: seq<Byte>)
    requires Fits(b) && torn != [] && torn < Frame(b)
    ensures Parsed(torn, 0) == None
  {
    hide Frame, BeValue;
    if |torn| >= 4 {
      FrameIsBlock([], b, []);
      assert [] + Frame(b) + [] == Frame(b);
      assert UInt32At(Frame(b), 0) == |Frame(b)|;
      assert torn[0..4] == Frame(b)[0..4];
      assert UInt32At(torn, 0) == |Frame(b)| > |torn|;
    }
  }

  /** A file that ends with a first part of a block cannot be read at all. */
  lemma {:induction false} TornBlockLosesAll(program: seq<Stmt>, blocks: seq<Block>, b: Block, torn: seq<Byte>)
    requires IsStreamProgram(program) && AllFit(blocks) && Fits(b) && torn != [] && torn < Frame(b)
    ensures ReadStream(program, Frames(blocks) + torn) == None
  {
    hide Frames, ReadStream, IsStreamProgram, Parsed, Frame;
    TornFrame(b, torn);
    BytesBehindBlocks(program, blocks, torn);
  }
}
