/** Two runs in which recordings under one file name get in each other's way. */
module NameClashes {
  import opened Bytes
  import opened BlockLayer
  import opened IndexLayer
  import opened IndexAgreement
  import opened StreamDecoder
  import opened StreamParse
  import opened Descriptors
  import opened Handlers
  import opened FileLog
  import opened Ports
  import opened Runs
  import opened RunGrowth
  import opened Disk
  import opened FileNames
  import opened ExampleRun
  import opened Preamble
  import opened Reader
  import opened Bootstrap
  import opened Ownership
  import opened PreambleLimits

  // ----- Starting again under the same name -----

  lemma StartedOnce(name: string, cfg: Config)
    ensures Run([Refresh(name), Start], cfg)
         == INITIAL.(recording := true, filename := name, writer := Some(0),
                     files := [Opened(name, OpeningText(cfg.preamble))])
  {
    hide OpeningText, Opened;
    var s := INITIAL.(filename := name);
    AfterRefresh(name, cfg);
    assert [Refresh(name), Start][..1] == [Refresh(name)] && [Refresh(name)][..0] == [];
    assert Run([Refresh(name)], cfg) == Step(Run([], cfg), Refresh(name), cfg);
    var open := OpenWriter(s.(recording := true), cfg);
    assert open.ports[1..] == [];
    assert AddMissing(open, open.ports) == open;
    assert DropGone(map[], s.ports) == map[];
    CollectKeepsWriter(open);
  }

  lemma StoppedOnce(name: string, file: FileState, cfg: Config)
    requires !file.closed
    ensures Step(INITIAL.(recording := true, filename := name, writer := Some(0), files := [file]), Stop, cfg)
         == INITIAL.(filename := name, files := [Close(file)])
  {
    hide Close;
    var s := INITIAL.(filename := name, files := [file]);
    assert !Referenced(s, 0);
    assert Collect(s).files == [Close(file)];
  }

  /** Start, stop, start with the name left alone: what was recorded first is gone. */
  lemma {:induction false} RestartTruncates(name: string, cfg: Config)
    ensures var stopped := [Refresh(name), Start] + [Stop];
            var before, after := Run(stopped, cfg).files, Run(stopped + [Start], cfg).files;
            && |before| == 1 && before[0].closed && |after| == 2 && after[0] == before[0]
                && after[1].name == before[0].name == name
            && Under(stopped, cfg, name) == Content(before[0])
            && Under(stopped + [Start], cfg, name) == Content(after[1])
            && |Content(after[1])| < |Content(before[0])|
  {
    hide Step, Run, OpeningText, Content, Under, OpenedAlone;
    var file := Opened(name, OpeningText(cfg.preamble));
    var stopped := [Refresh(name), Start] + [Stop];
    StartedOnce(name, cfg);
    RunStep([Refresh(name), Start], Stop, cfg);
    StoppedOnce(name, file, cfg);
    AfterStarting(stopped, cfg);
    StartIsAlone(stopped, cfg);
    NameHolds(stopped + [Start], cfg, 1);
    FirstIsAlone(stopped, cfg);
    NameHolds(stopped, cfg, 0);
    RunInv(stopped, cfg);
    FilesBegin(stopped, cfg, 0);
    ReopenedIsShorter(Run(stopped, cfg).files[0], name, cfg);
  }

  lemma {:induction false} FirstIsAlone(events: seq<Event>, cfg: Config)
    requires Run(events, cfg).files != []
    ensures OpenedAlone(events, cfg, 0)
    decreases |events|
  {
    hide Run, OpeningText, OpenedAlone;
    OpenedAloneParts(events, cfg, 0);
    if Run(events[..|events| - 1], cfg).files != [] {
      FirstIsAlone(events[..|events| - 1], cfg);
    }
  }

  // ----- A late delivery from the recording before -----

  lemma {:induction false} WrittenByOne(bytes: seq<Byte>, before: seq<FileState>, after: seq<FileState>, g: nat,
                                        n: nat, name: string)
    requires g < |before| && n <= |after| && OnlyFile(before, after, g) && before[g].name == after[g].name == name
    ensures Written(bytes, before, after[..n], name)
         == if g < n then Overwrite(bytes, |Content(before[g])|, Fresh(before[g], after[g])) else bytes
    decreases n
  {
    if n > 0 {
      var k := n - 1;
      assert after[..n][..k] == after[..k];
      WrittenByOne(bytes, before, after, g, k, name);
    }
  }

  lemma ZerosAreNoBlock(n: nat, rest: seq<Byte>)
    requires n >= 12
    ensures Parsed(Zeros(n) + rest, 0) == None
  {
    var four := (Zeros(n) + rest)[8..12];
    assert four == [0, 0, 0, 0];
    assert [0, 0, 0, 0][..3] == [0, 0, 0] && [0, 0, 0][..2] == [0, 0] && [0, 0][..1] == [0] && [0][..0] == [];
    assert BeValue([0]) == 0 && BeValue([0, 0]) == 0 && BeValue([0, 0, 0]) == 0 && BeValue([0, 0, 0, 0]) == 0;
  }

  lemma FirstFrame(blocks: seq<Block>, rest: seq<Byte>)
    requires blocks != []
    ensures FrameAt(Frames(blocks) + rest, 0, blocks[0])
  {
    hide FrameAt, Frame;
    FramePlaced([], blocks[0], Frames(blocks[1..]) + rest);
    assert [] + Frame(blocks[0]) + (Frames(blocks[1..]) + rest) == Frames(blocks) + rest;
  }

  /** A recording with a hole and something else behind it cannot be read at all. */
  lemma HoleIsUnreadable(preamble: string, blocks: seq<Block>, n: nat, tail: seq<Byte>)
    requires IsPreamble(preamble) && blocks != [] && AllFit(blocks)
    requires blocks[0].payload == OfText(OpeningText(preamble))
    requires n >= 12
    ensures ReadFile(Frames(blocks) + Zeros(n) + tail) == None
  {
    hide Frames, OpeningText, IsPreamble, UInt32At, StreamProgram, FirstText, ReadStream, Zeros, Parsed;
    var file := Frames(blocks) + (Zeros(n) + tail);
    assert Frames(blocks) + Zeros(n) + tail == file;
    ZerosAreNoBlock(n, tail);
    FirstFrame(blocks, Zeros(n) + tail);
    FirstTextAt(file, blocks[0]);
    OpeningTextFound(preamble, file);
    StreamProgramFound(preamble, file);
    BytesBehindBlocks(StreamProgram(file).value, blocks, Zeros(n) + tail);
  }

  /** A writer that goes on behind the end of a finished recording of the same name leaves a hole. */
  lemma LateWrite(preamble: string, blocks: seq<Block>, before: seq<FileState>, after: seq<FileState>, g: nat)
    requires IsPreamble(preamble) && blocks != [] && AllFit(blocks)
    requires blocks[0].payload == OfText(OpeningText(preamble))
    requires g < |before| && OnlyFile(before, after, g) && before[g].name == after[g].name
    requires |Frames(blocks)| + 12 <= |Content(before[g])| < |Content(after[g])|
    ensures ReadFile(Written(Frames(blocks), before, after, before[g].name)) == None
  {
    hide Frames, OpeningText, IsPreamble, ReadFile, Content, Zeros;
    WrittenByOne(Frames(blocks), before, after, g, |after|, before[g].name);
    assert after[..|after|] == after;
    HoleIsUnreadable(preamble, blocks, |Content(before[g])| - |Frames(blocks)|, Fresh(before[g], after[g]));
  }

  function Stopped(name: string, signal: Signal, files: seq<FileState>, objects: seq<Object>, held: map<nat,
                   nat>): System {
    Idle(name, signal).(files := files, objects := objects, held := held)
  }

  function Again(name: string, signal: Signal, files: seq<FileState>, objects: seq<Object>): System {
    System(true, name, PluggedPorts(signal), 2, Some(1), files, map[0 := 1], objects, map[7 := 0])
  }

  /** The recording is stopped while the delivery holds its signal object. */
  lemma StoppedWhileHeld(name: string, signal: Signal, file: FileState, state: SignalState, cfg: Config)
    requires !file.closed
    ensures Step(Recording(name, signal, file, state, map[7 := 0]), Stop, cfg)
         == Stopped(name, signal, [file], [Object(0, signal, state)], map[7 := 0])
  {
    var s := Stopped(name, signal, [file], [Object(0, signal, state)], map[7 := 0]);
    assert Reconfigure(Recording(name, signal, file, state, map[7 := 0]).(recording := false), cfg) == s;
    HeldIsReferenced(s, 7);
    assert Collect(s).files == [file];
  }

  lemma SecondMissing(s: System, signal: Signal, o: Object)
    requires s.writer == Some(1) && s.signals == map[] && s.objects == [o]
    ensures AddMissing(s, PluggedPorts(signal)) == s.(signals := map[0 := 1],
                                                      objects := [o, Object(1, signal, NEW_SIGNAL)])
  {
    var ports := PluggedPorts(signal);
    var next := AddFirst(s, ports[0]);
    assert ports[1..] == [Port(1, None)] && ports[1..][1..] == [];
    assert next.objects == [o, Object(1, signal, NEW_SIGNAL)];
    assert next.signals == map[0 := 1];
    assert AddMissing(s, ports) == AddMissing(next, ports[1..]);
    assert AddMissing(next, ports[1..]) == AddMissing(next, ports[1..][1..]);
  }

  lemma StartedAgain(name: string, signal: Signal, file: FileState, o: Object, cfg: Config)
    requires o.file == 0
    ensures Step(Stopped(name, signal, [file], [o], map[7 := 0]), Start, cfg)
         == Again(name, signal, [file, Opened(name, OpeningText(cfg.preamble))], [o, Object(1, signal, NEW_SIGNAL)])
  {
    hide Opened, OpeningText;
    var second := Opened(name, OpeningText(cfg.preamble));
    var s := Stopped(name, signal, [file], [o], map[7 := 0]).(recording := true);
    var open := OpenWriter(s, cfg);
    assert open.files == [file, second];
    SecondMissing(open, signal, o);
    ConnectedPorts(signal);
    var r := Again(name, signal, [file, second], [o, Object(1, signal, NEW_SIGNAL)]);
    assert DropGone(map[0 := 1], s.ports) == map[0 := 1];
    assert Reconfigure(s, cfg) == r;
    HeldIsReferenced(r, 7);
    WriterIsReferenced(r, 1);
    assert Collect(r).files == r.files;
  }

  lemma StoppedAgain(name: string, signal: Signal, file: FileState, second: FileState, o: Object, p: Object,
                     cfg: Config)
    requires o.file == 0 && p.file == 1 && !second.closed
    ensures Step(Again(name, signal, [file, second], [o, p]), Stop, cfg)
         == Stopped(name, signal, [file, Close(second)], [o, p], map[7 := 0])
  {
    hide Close;
    var r := Stopped(name, signal, [file, second], [o, p], map[7 := 0]);
    assert Reconfigure(Again(name, signal, [file, second], [o, p]).(recording := false), cfg) == r;
    HeldIsReferenced(r, 7);
    assert !Alive(r, 1) && !Referenced(r, 1);
    assert Collect(r).files == [file, Close(second)];
  }

  lemma ReleasedLate(name: string, signal: Signal, file: FileState, second: FileState, o: Object, p: Object,
                     cfg: Config)
    requires !file.closed && second.closed
    ensures Step(Stopped(name, signal, [file, second], [o, p], map[7 := 0]), Release(7), cfg)
         == Stopped(name, signal, [Close(file), second], [o, p], map[])
  {
    hide Close;
    var r := Stopped(name, signal, [file, second], [o, p], map[]);
    assert (map[7 := 0] - {7}) == map[];
    assert !Referenced(r, 0);
    assert Collect(r).files == [Close(file), second];
  }

  /** The run: a delivery holds its signal object over a stop, a start and another stop. */
  function Overlapping(name: string, signal: Signal, packet: Packet, uuid: string): seq<Event> {
    Delivered(name, signal, packet, uuid) + [Stop] + [Start] + [Stop]
  }

  lemma {:induction false} FewAreListed(bs: seq<Block>)
    requires |bs| < INDEX_EVERY && forall i :: 0 <= i < |bs| ==> bs[i].group != INDEX
    ensures |PutAll(bs).index| == |bs|
  {
    if bs != [] {
      FewAreListed(bs[..|bs| - 1]);
    }
  }

  /** The file of the first recording when it is left behind. */
  lemma FirstFile(name: string, signal: Signal, packet: Packet, uuid: string, cfg: Config)
    requires Recordable(packet)
    ensures var file := ReceiveIn(Opened(name, OpeningText(cfg.preamble)), 0, NEW_SIGNAL, Labels(signal, uuid, 0),
                                  packet, cfg.native).1;
            && !file.closed && file.name == name
            && |Content(Opened(name, OpeningText(cfg.preamble)))| + 48 <= |Content(file)| < |Content(Close(file))|
  {
    hide OpeningText;
    var start, labels := Opened(name, OpeningText(cfg.preamble)), Labels(signal, uuid, 0);
    FirstPacketLengthens(start, 0, NEW_SIGNAL, labels, packet, cfg.native);
    OnePacketReceived(name, OpeningText(cfg.preamble), labels, packet, cfg.native);
    OpenedInv(name, OpeningText(cfg.preamble), cfg.native);
    ReceiveInInv(start, 0, NEW_SIGNAL, labels, packet, cfg.native);
    hide ReceiveIn, Opened, Recordable, FileInv;
    var file := ReceiveIn(start, 0, NEW_SIGNAL, labels, packet, cfg.native).1;
    FileOfThree(file, cfg.native);
  }

  lemma FileOfThree(file: FileState, native: Endian)
    requires FileInv(file, native) && !file.closed && |file.log| == 3 && file.taken <= MOST_IDS
    ensures |Content(file)| < |Content(Close(file))|
  {
    NothingIndexed(file.log, native, file.taken);
    FewAreListed(LogBlocks(file.log, native));
    FlushIsLonger(file.writer.index);
  }

  /** The second recording, which holds nothing but its opening. */
  lemma SecondFile(name: string, cfg: Config)
    requires Fits(Block(METADATA, OfText(OpeningText(cfg.preamble))))
    ensures var file := Opened(name, OpeningText(cfg.preamble));
            var blocks := [Block(METADATA, OfText(OpeningText(cfg.preamble))), IndexBlock([IndexEntry(0, METADATA)])];
            && Content(Close(file)) == Frames(blocks) && AllFit(blocks)
            && |Content(Close(file))| == |Content(file)| + 32
  {
    hide OpeningText;
    var b, last := Block(METADATA, OfText(OpeningText(cfg.preamble))), IndexBlock([IndexEntry(0, METADATA)]);
    OpenedContent(name, OpeningText(cfg.preamble));
    assert [] + [IndexEntry(0, METADATA)] == [IndexEntry(0, METADATA)];
    assert |last.payload| == 12;
    FramesAppend([b], last);
    FramesAppend([], b);
    assert [] + [b] == [b] && [b] + [last] == [b, last];
    assert Frames([]) + Frame(b) == Frame(b);
  }

  lemma WhileOverlapping(name: string, signal: Signal, packet: Packet, uuid: string, cfg: Config)
    returns (o: Object, p: Object)
    requires Recordable(packet)
    ensures var first := ReceiveIn(Opened(name, OpeningText(cfg.preamble)), 0, NEW_SIGNAL, Labels(signal, uuid, 0),
                                   packet, cfg.native).1;
            var second := Opened(name, OpeningText(cfg.preamble));
            var begun := Delivered(name, signal, packet, uuid) + [Stop] + [Start];
            && o.file == 0 && p.file == 1
            && Run(begun[..|begun| - 1], cfg).files == [first]
            && Run(begun, cfg).files == [first, second]
            && Run(begun + [Stop], cfg) == Stopped(name, signal, [first, Close(second)], [o, p], map[7 := 0])
            && Run(begun + [Stop] + [Release(7)], cfg).files == [Close(first), Close(second)]
  {
    hide Step, Run, ReceiveIn, OpeningText, Opened, Recording, Again, Close, Delivered, Recordable;
    var second := Opened(name, OpeningText(cfg.preamble));
    var (state, first) := ReceiveIn(second, 0, NEW_SIGNAL, Labels(signal, uuid, 0), packet, cfg.native);
    FirstFile(name, signal, packet, uuid, cfg);
    SecondIsOpen(name, cfg);
    o, p := Object(0, signal, state), Object(1, signal, NEW_SIGNAL);
    var held := Delivered(name, signal, packet, uuid);
    WhileDelivered(name, signal, packet, uuid, cfg);
    RunStep(held, Stop, cfg);
    StoppedWhileHeld(name, signal, first, state, cfg);
    RunStep(held + [Stop], Start, cfg);
    StartedAgain(name, signal, first, o, cfg);
    AgainFiles(name, signal, [first, second], [o, p]);
    assert (held + [Stop] + [Start])[..|held + [Stop] + [Start]| - 1] == held + [Stop];
    RunStep(held + [Stop] + [Start], Stop, cfg);
    StoppedAgain(name, signal, first, second, o, p, cfg);
    RunStep(held + [Stop] + [Start] + [Stop], Release(7), cfg);
    ReleasedLate(name, signal, first, Close(second), o, p, cfg);
  }

  lemma SecondIsOpen(name: string, cfg: Config)
    ensures var f := Opened(name, OpeningText(cfg.preamble));
            !f.closed && Close(f).closed && f.name == Close(f).name == name
  {
  }

  lemma AgainFiles(name: string, signal: Signal, files: seq<FileState>, objects: seq<Object>)
    ensures Again(name, signal, files, objects).files == files
  {
  }

  lemma CloseFills(bytes: seq<Byte>, first: FileState, second: FileState)
    requires bytes == Content(second) && !second.closed && first.name == second.name
    ensures Written(bytes, [first, second], [first, Close(second)], second.name) == Content(Close(second))
  {
    FlushGrows(second.writer.index);
    WrittenByOne(bytes, [first, second], [first, Close(second)], 1, 2, second.name);
    assert [first, Close(second)][..2] == [first, Close(second)];
  }

  /** A delivery that outlives its recording: by the time it lets go of its signal object another
      recording of the same name is finished, and readable; the closing index block of the first then
      lands behind a hole in the second, and nothing can be read any more. */
  lemma {:induction false} LateReleaseSpoils(name: string, signal: Signal, packet: Packet, uuid: string, cfg: Config)
    requires Recordable(packet) && IsPreamble(cfg.preamble)
    ensures var events := Overlapping(name, signal, packet, uuid);
            var files, after := Run(events, cfg).files, Run(events + [Release(7)], cfg).files;
            && |files| == |after| == 2 && files[1].closed && after[1] == files[1]
                && files[0].name == files[1].name == name
            && Under(events, cfg, name) == Content(files[1])
            && ReadFile(Under(events + [Release(7)], cfg, name)) == None
  {
    hide Run, Step, ReceiveIn, OpeningText, Opened, Close, Content, Delivered, Recordable, IsPreamble, ReadFile, Under,
      Written, Frames, Fits, AllFit;
    OpeningFits(cfg.preamble);
    var o, p := WhileOverlapping(name, signal, packet, uuid, cfg);
    FirstFile(name, signal, packet, uuid, cfg);
    SecondFile(name, cfg);
    SecondIsOpen(name, cfg);
    var first := ReceiveIn(Opened(name, OpeningText(cfg.preamble)), 0, NEW_SIGNAL, Labels(signal, uuid, 0), packet,
                           cfg.native).1;
    var second := Opened(name, OpeningText(cfg.preamble));
    var begun := Delivered(name, signal, packet, uuid) + [Stop] + [Start];
    var events := Overlapping(name, signal, packet, uuid);
    UnderParts(begun, cfg, name);
    WrittenLast(Under(begun[..|begun| - 1], cfg, name), [first], [first, second]);
    UnderParts(events, cfg, name);
    assert events[..|events| - 1] == begun;
    CloseFills(Under(begun, cfg, name), first, second);
    UnderParts(events + [Release(7)], cfg, name);
    assert (events + [Release(7)])[..|events + [Release(7)]| - 1] == events;
    ClosingLate(Under(events, cfg, name), first, second, name, cfg);
  }

  lemma ClosingLate(bytes: seq<Byte>, first: FileState, second: FileState, name: string, cfg: Config)
    requires IsPreamble(cfg.preamble) && Fits(Block(METADATA, OfText(OpeningText(cfg.preamble))))
    requires second == Opened(name, OpeningText(cfg.preamble)) && bytes == Content(Close(second)) && first.name == name
    requires |Content(second)| + 48 <= |Content(first)| < |Content(Close(first))|
    ensures ReadFile(Written(bytes, [first, Close(second)], [Close(first), Close(second)], name)) == None
  {
    hide OpeningText, Opened, Content, IsPreamble, ReadFile, Written, Frames, Fits, AllFit;
    SecondFile(name, cfg);
    var blocks := [Block(METADATA, OfText(OpeningText(cfg.preamble))), IndexBlock([IndexEntry(0, METADATA)])];
    LateWrite(cfg.preamble, blocks, [first, Close(second)], [Close(first), Close(second)], 0);
  }
}
