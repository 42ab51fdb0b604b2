/** The stream decoder every file declares for itself, run over the frames the block layer writes. */
module StreamDecoder {
  import opened Bytes
  import opened BlockLayer
  import opened Decoders

  predicate IsStreamBody(body: seq<Stmt>) {
    && |body| == 6
    && body[0] == Read("size", UInt, 32, Big, None)
    && body[1] == Read("group", UInt, 32, Big, None)
    && body[2] == Read("magic", UInt, 32, Big, Some(Num(SYNC_WORD)))
    && body[3] == ReadRaw("payload", Sub(Var("size"), Num(20)), Some(Var("group")))
    && body[4] == Read("checksum", UInt, 32, Big, None)
    && body[5] == Read("size2", UInt, 32, Big, Some(Var("size")))
  }

  /** Decoder 0 of the preamble: one endless loop over the six reads of a block. */
  predicate IsStreamProgram(program: seq<Stmt>) {
    && |program| == 1
    && program[0].Loop?
    && program[0] == Loop(None, Num(0), Num(1), None, program[0].body)
    && IsStreamBody(program[0].body)
  }

  /** The blocks the stream decoder hands out, each to its group. */
  function ReadStream(program: seq<Stmt>, file: seq<Byte>): Option<seq<Block>> {
    var r := RunDecoder(program, file);
    if r.Some? then Some(r.value.routed) else None
  }

  /** One statement of the body that reads a 32-bit field. */
  lemma FieldTurn(body: seq<Stmt>, k: nat, file: seq<Byte>, m: Machine)
    requires IsStreamBody(body) && k < 6 && k != 3
    requires m.pos + 4 <= |file|
    requires k == 2 ==> UInt32At(file, m.pos) == SYNC_WORD
    requires k == 5 ==> "size" in m.vars && m.vars["size"] == IntValue(UInt32At(file, m.pos))
    ensures ExecAll(body[k..], file, m)
         == ExecAll(body[k + 1..], file, m.(pos := m.pos
             + 4, vars := m.vars[body[k].v := IntValue(UInt32At(file, m.pos))]))
  {
    hide ExecAll;
    var s := body[k];
    assert s.bits % 8 == 0 && s.bits / 8 == 4;
    assert Typed(UInt, Big, file[m.pos..m.pos + 4]) == IntValue(UInt32At(file, m.pos));
    assert s.expected.Some? ==> Eval(s.expected.value, m.vars) == Some(UInt32At(file, m.pos));
    assert Exec(s, file, m) == Some(m.(pos := m.pos + 4, vars := m.vars[s.v := IntValue(UInt32At(file, m.pos))]));
    ExecAllAt(body, k, file, m);
  }

  /** The payload read: its length comes from the size field, its destination from the group field. */
  lemma {:induction false} PayloadTurn(body: seq<Stmt>, size: nat, group: nat, file: seq<Byte>, m: Machine)
    requires IsStreamBody(body)
    requires "size" in m.vars && m.vars["size"] == IntValue(size)
    requires "group" in m.vars && m.vars["group"] == IntValue(group)
    ensures var r := ExecAll(body[3..], file, m);
            if size < 20 || m.pos + size - 20 > |file| then r == None
            else var bytes := file[m.pos..m.pos + size - 20];
                 r == ExecAll(body[4..], file, m.(pos := m.pos
                     + size - 20, vars := m.vars["payload" := RawValue(bytes)],
                                                  routed := m.routed + [Block(group, bytes)]))
  {
    hide ExecAll;
    ExecAllAt(body, 3, file, m);
    PayloadExec(body[3], size, group, file, m);
  }

  lemma PayloadExec(s: Stmt, size: nat, group: nat, file: seq<Byte>, m: Machine)
    requires s == ReadRaw("payload", Sub(Var("size"), Num(20)), Some(Var("group")))
    requires "size" in m.vars && m.vars["size"] == IntValue(size)
    requires "group" in m.vars && m.vars["group"] == IntValue(group)
    ensures Exec(s, file, m) ==
            if size < 20 || m.pos + size - 20 > |file| then None
            else var bytes := file[m.pos..m.pos + size - 20];
                 Some(m.(pos := m.pos + size - 20, vars := m.vars["payload" := RawValue(bytes)],
                         routed := m.routed + [Block(group, bytes)]))
  {
    assert Eval(Var("size"), m.vars) == Some(size) && Eval(Num(20), m.vars) == Some(20);
    assert Eval(s.octets, m.vars) == Some(size - 20);
  }

  /** The three header fields. */
  lemma HeaderTurn(body: seq<Stmt>, file: seq<Byte>, m: Machine, b: Block) returns (m3: Machine)
    requires IsStreamBody(body) && FrameAt(file, m.pos, b)
    ensures ExecAll(body, file, m) == ExecAll(body[3..], file, m3)
    ensures m3 == m.(pos := m.pos + 12, vars := m3.vars)
    ensures "size" in m3.vars && m3.vars["size"] == IntValue((|b.payload| + OVERHEAD) % 0x1_0000_0000)
    ensures "group" in m3.vars && m3.vars["group"] == IntValue(b.group % 0x1_0000_0000)
  {
    hide ExecAll;
    assert body[0..] == body;
    FieldTurn(body, 0, file, m);
    var m1 := m.(pos := m.pos + 4, vars := m.vars["size" := IntValue(UInt32At(file, m.pos))]);
    FieldTurn(body, 1, file, m1);
    var m2 := m1.(pos := m1.pos + 4, vars := m1.vars["group" := IntValue(UInt32At(file, m1.pos))]);
    FieldTurn(body, 2, file, m2);
    m3 := m2.(pos := m2.pos + 4, vars := m2.vars["magic" := IntValue(UInt32At(file, m2.pos))]);
  }

  /** The payload and what follows it. */
  lemma {:induction false} TailTurn(body: seq<Stmt>, file: seq<Byte>, m: Machine, pos: nat, b: Block)
    requires IsStreamBody(body) && FrameAt(file, pos, b) && Fits(b) && m.pos == pos + 12 + |b.payload|
    requires "size" in m.vars && m.vars["size"] == IntValue(|b.payload| + OVERHEAD)
    ensures var r := ExecAll(body[4..], file, m);
            r.Some? && r.value == m.(pos := m.pos + 8, vars := r.value.vars)
  {
    hide ExecAll;
    FieldTurn(body, 4, file, m);
    var m5 := m.(pos := m.pos + 4, vars := m.vars["checksum" := IntValue(UInt32At(file, m.pos))]);
    FieldTurn(body, 5, file, m5);
    var m6 := m5.(pos := m5.pos + 4, vars := m5.vars["size2" := IntValue(UInt32At(file, m5.pos))]);
    EndTurn(body, file, m6);
  }

  lemma EndTurn(body: seq<Stmt>, file: seq<Byte>, m: Machine)
    requires IsStreamBody(body)
    ensures ExecAll(body[6..], file, m) == Some(m)
  {
    assert body[6..] == [];
  }

  /** The machine after one turn of the stream loop over a frame that fits. */
  lemma {:induction false} StreamTurn(body: seq<Stmt>, file: seq<Byte>, m: Machine, b: Block)
    requires IsStreamBody(body) && FrameAt(file, m.pos, b) && Fits(b)
    ensures var r := ExecAll(body, file, m);
            r.Some? && r.value.pos == m.pos + |b.payload| + OVERHEAD && r.value.routed == m.routed + [b]
            && r.value.samples == m.samples
  {
    hide ExecAll;
    var m3 := HeaderTurn(body, file, m, b);
    PayloadTurn(body, |b.payload| + OVERHEAD, b.group, file, m3);
    var m4 := m3.(pos := m.pos + 12 + |b.payload|, vars := m3.vars["payload" := RawValue(b.payload)],
                  routed := m.routed + [b]);
    TailTurn(body, file, m4, m.pos, b);
  }

  lemma IterateTurn(counter: Option<string>, i: int, step: int, body: seq<Stmt>, file: seq<Byte>, m: Machine)
    requires m.pos < |file|
    requires var next := ExecAll(body, file, Enter(counter, i, m)); next.Some? && next.value.pos > m.pos
    ensures Iterate(counter, i, step, None, body, file, m)
         == Iterate(counter, i + step, step, None, body, file, ExecAll(body, file, Enter(counter, i, m)).value)
  {
  }

  lemma FrameInside(file: seq<Byte>, pos: nat, b: Block)
    requires FrameAt(file, pos, b)
    ensures pos < |file|
  {
  }

  /** From any block boundary on, the loop recovers the remaining blocks and stops at the end. */
  lemma {:induction false} StreamLoop(body: seq<Stmt>, file: seq<Byte>, blocks: seq<Block>, i: int, m: Machine)
    requires IsStreamBody(body) && AllFit(blocks) && FramesAt(file, m.pos, blocks)
    ensures var r := Iterate(None, i, 1, None, body, file, m);
            r.Some? && r.value.routed == m.routed + blocks && r.value.pos == |file|
    decreases |blocks|
  {
    hide ExecAll, FrameAt, UInt32At, Fits;
    if blocks != [] {
      FrameInside(file, m.pos, blocks[0]);
      StreamTurn(body, file, m, blocks[0]);
      var next := ExecAll(body, file, m).value;
      IterateTurn(None, i, 1, body, file, m);
      StreamLoop(body, file, blocks[1..], i + 1, next);
      assert m.routed + [blocks[0]] + blocks[1..] == m.routed + blocks;
    }
  }

  lemma RunStream(program: seq<Stmt>, file: seq<Byte>)
    requires IsStreamProgram(program)
    ensures RunDecoder(program, file) == Iterate(None, 0, 1, None, program[0].body, file, START)
  {
    assert program[0..] == program && program[1..] == [];
    ExecAllAt(program, 0, file, START);
    LoopRuns(program[0], file, START);
  }

  lemma LoopRuns(s: Stmt, file: seq<Byte>, m: Machine)
    requires s.Loop? && s.start == Num(0) && s.increment == Num(1) && s.end == None
    ensures Exec(s, file, m) == Iterate(s.counter, 0, 1, None, s.body, file, m)
  {
  }

  // ----- Blocks whose fields overflow -----

  /** Whatever one turn makes of a frame that does not fit, it is not the block that was written. */
  lemma OverflowTurn(body: seq<Stmt>, file: seq<Byte>, m: Machine, b: Block)
    requires IsStreamBody(body) && FrameAt(file, m.pos, b) && !Fits(b)
    ensures var r := ExecAll(body, file, m);
            r.Some? ==> |r.value.routed| > |m.routed| && r.value.routed[|m.routed|] != b
  {
    var size := (|b.payload| + OVERHEAD) % 0x1_0000_0000;
    var m3 := HeaderTurn(body, file, m, b);
    PayloadTurn(body, size, b.group % 0x1_0000_0000, file, m3);
    if size >= 20 && m3.pos + size - 20 <= |file| {
      var bytes := file[m3.pos..m3.pos + size - 20];
      var m4 := m3.(pos := m3.pos + size - 20, vars := m3.vars["payload" := RawValue(bytes)],
                    routed := m.routed + [Block(b.group % 0x1_0000_0000, bytes)]);
      ExecAllExtends(body[4..], file, m4);
      assert m4.routed[|m.routed|] != b;
    }
  }

  lemma {:induction false} OverflowLoop(body: seq<Stmt>, file: seq<Byte>, blocks: seq<Block>, i: int, m: Machine)
    requires IsStreamBody(body) && !AllFit(blocks) && FramesAt(file, m.pos, blocks)
    ensures var r := Iterate(None, i, 1, None, body, file, m);
            r.Some? ==> !(m.routed + blocks <= r.value.routed)
    decreases |blocks|
  {
    hide ExecAll, FrameAt, UInt32At, Fits;
    var b := blocks[0];
    FrameInside(file, m.pos, b);
    var next := ExecAll(body, file, m);
    if Fits(b) {
      StreamTurn(body, file, m, b);
      IterateTurn(None, i, 1, body, file, m);
      assert !AllFit(blocks[1..]);
      OverflowLoop(body, file, blocks[1..], i + 1, next.value);
      assert m.routed + [b] + blocks[1..] == m.routed + blocks;
    } else {
      OverflowTurn(body, file, m, b);
      if next.Some? && next.value.pos > m.pos {
        IterateTurn(None, i, 1, body, file, m);
        IterateExtends(None, i + 1, 1, None, body, file, next.value);
        assert (m.routed + blocks)[|m.routed|] == b;
      }
    }
  }

  lemma OverflowLost(program: seq<Stmt>, file: seq<Byte>, blocks: seq<Block>)
    requires IsStreamProgram(program) && !AllFit(blocks) && FramesAt(file, 0, blocks)
    ensures ReadStream(program, file) != Some(blocks)
  {
    RunStream(program, file);
    OverflowLoop(program[0].body, file, blocks, 0, START);
    assert START.routed + blocks == blocks;
  }

  // ----- The round trip -----

  lemma ReadsFrames(program: seq<Stmt>, file: seq<Byte>, blocks: seq<Block>)
    requires IsStreamProgram(program) && AllFit(blocks) && FramesAt(file, 0, blocks)
    ensures ReadStream(program, file) == Some(blocks)
    ensures RunDecoder(program, file).value.pos == |file|
  {
    RunStream(program, file);
    StreamLoop(program[0].body, file, blocks, 0, START);
    assert START.routed + blocks == blocks;
  }

  /** Blocks written one after the other are read back as the same groups and payloads, the whole
      file is consumed, and this holds exactly while size and group fit their 32-bit fields. */
  lemma {:induction false} FramingRoundTrip(program: seq<Stmt>, blocks: seq<Block>)
    requires IsStreamProgram(program)
    ensures ReadStream(program, Frames(blocks)) == Some(blocks) <==> AllFit(blocks)
    ensures AllFit(blocks) ==> RunDecoder(program, Frames(blocks)).value.pos == |Frames(blocks)|
  {
    FramesPlaced([], blocks);
    assert [] + Frames(blocks) == Frames(blocks);
    if AllFit(blocks) {
      ReadsFrames(program, Frames(blocks), blocks);
    } else {
      OverflowLost(program, Frames(blocks), blocks);
    }
  }
}
