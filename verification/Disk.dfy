/** The bytes under a file name. Opening a name truncates what is there, and every writer goes on
    writing at its own offset: recordings under one name stay apart only while they do not overlap. */
module Disk {
  import opened Bytes
  import opened Descriptors
  import opened FileLog
  import opened Ports
  import opened Runs
  import opened RunGrowth

  // ----- What a step does to the bytes under a name -----

  function Zeros(n: nat): (r: seq<Byte>)
    ensures |r| == n
  {
    seq(n, _ => 0)
  }

  /** Bytes written at an offset: a gap before it is filled with zeros. */
  function Overwrite(bytes: seq<Byte>, at: nat, new_: seq<Byte>): seq<Byte> {
    if new_ == [] then bytes
    else if |bytes| <= at then bytes + Zeros(at - |bytes|) + new_
    else bytes[..at] + new_ + if at + |new_| <= |bytes| then bytes[at + |new_|..] else []
  }

  function Content(f: FileState): seq<Byte> {
    f.writer.index.content
  }

  /** What a writer added since its file was in the state before. */
  function Fresh(before: FileState, after: FileState): seq<Byte> {
    if |Content(before)| <= |Content(after)| then Content(after)[|Content(before)|..] else []
  }

  /** The bytes under a name after a step that took the files from one state to the next. */
  function Written(bytes: seq<Byte>, before: seq<FileState>, after: seq<FileState>, name: string): seq<Byte>
    decreases |after|
  {
    if after == [] then bytes
    else
      var n := |after| - 1;
      var rest := Written(bytes, before, after[..n], name);
      if after[n].name != name then rest
      else if n < |before| then Overwrite(rest, |Content(before[n])|, Fresh(before[n], after[n]))
      else Content(after[n])
  }

  /** The bytes under a name after a run; nothing is there before. */
  ghost function Under(events: seq<Event>, cfg: Config, name: string): seq<Byte> {
    if events == [] then []
    else
      var init := events[..|events| - 1];
      Written(Under(init, cfg, name), Run(init, cfg).files, Run(events, cfg).files, name)
  }

  // ----- Which files have their name for themselves -----

  /** No file was opened under the name of file f after it. */
  predicate LastUnder(files: seq<FileState>, f: nat)
    requires f < |files|
  {
    forall g :: f < g < |files| ==> files[g].name != files[f].name
  }

  predicate AllClosed(files: seq<FileState>, name: string) {
    forall g :: 0 <= g < |files| && files[g].name == name ==> files[g].closed
  }

  /** When file f was opened, every earlier file of its name was closed. */
  ghost predicate OpenedAlone(events: seq<Event>, cfg: Config, f: nat)
    requires f < |Run(events, cfg).files|
  {
    var init := events[..|events| - 1];
    if f < |Run(init, cfg).files| then OpenedAlone(init, cfg, f)
    else AllClosed(Run(init, cfg).files, Run(events, cfg).files[f].name)
  }

  // ----- One step opens or writes at most one file -----

  /** The step that opens a file. */
  predicate Opens(s: System, e: Event) {
    e == Start && !s.recording
  }

  lemma {:induction false} AddMissingObjects(s: System, ports: seq<Port>)
    requires s.writer.Some?
    ensures s.objects <= AddMissing(s, ports).objects
    decreases |ports|
  {
    if ports != [] {
      AddMissingObjects(AddFirst(s, ports[0]), ports[1..]);
    }
  }

  lemma ReconfigureFiles(s: System, cfg: Config)
    ensures var r := Reconfigure(s, cfg);
            && r.held == s.held && r.recording == s.recording && s.objects <= r.objects
            && r.files == (if s.recording && s.writer.None? then s.files
                + [Opened(s.filename, OpeningText(cfg.preamble))] else s.files)
            && (s.recording && s.writer.None? ==> r.writer == Some(|s.files|))
            && (s.recording && s.writer.Some? ==> r.writer == s.writer)
            && (!s.recording ==> r.writer == None && r.signals == map[] && r.objects == s.objects)
  {
    if s.recording {
      AddMissingFiles(OpenWriter(s, cfg), s.ports);
      AddMissingOnly(OpenWriter(s, cfg), s.ports);
      AddMissingObjects(OpenWriter(s, cfg), s.ports);
    }
  }

  ghost predicate HeldOpen(s: System, f: nat) {
    exists t :: t in s.held && s.held[t] < |s.objects| && s.objects[s.held[t]].file == f
  }

  /** A file that is open, but not the one in use, is held by a delivery. */
  lemma OpenIsHeld(s: System, f: nat)
    requires RefsInv(s) && ClosedInv(s) && f < |s.files| && !s.files[f].closed && s.writer != Some(f)
    ensures HeldOpen(s, f)
  {
    assert Referenced(s, f);
    var o :| 0 <= o < |s.objects| && Alive(s, o) && s.objects[o].file == f;
    assert o !in s.signals.Values;
    var t :| t in s.held && s.held[t] == o;
  }

  lemma HeldIsKept(s: System, r: System, f: nat)
    requires HeldOpen(s, f) && r.held == s.held && s.objects <= r.objects
    ensures Referenced(r, f)
  {
    var t :| t in s.held && s.held[t] < |s.objects| && s.objects[s.held[t]].file == f;
    assert Alive(r, r.held[t]) && r.objects[r.held[t]] == s.objects[s.held[t]];
  }

  /** Only the file in use can be closed while held objects stay held. */
  lemma CollectKeeps(s: System, r: System, f: nat)
    requires RefsInv(s) && ClosedInv(s) && f < |s.files| && s.writer != Some(f)
    requires r.held == s.held && s.objects <= r.objects && s.files <= r.files
    ensures Collect(r).files[f] == s.files[f]
  {
    if !s.files[f].closed {
      OpenIsHeld(s, f);
      HeldIsKept(s, r, f);
    }
  }

  /** Starting a recording opens a file and changes no other. */
  lemma StartOpens(s: System, cfg: Config)
    requires Inv(s, cfg.native) && !s.recording
    ensures var r := Step(s, Start, cfg);
            r.files == s.files + [Opened(s.filename, OpeningText(cfg.preamble))] && r.held == s.held
                && s.objects <= r.objects
  {
    hide Step, Reconfigure, OpenWriter, AddMissing, FileInv, Opened, OpeningText;
    StartIsReconfigure(s, cfg);
    var r := Reconfigure(s.(recording := true), cfg);
    ReconfigureFiles(s.(recording := true), cfg);
    forall f | 0 <= f < |s.files| ensures Collect(r).files[f] == s.files[f] {
      CollectKeeps(s, r, f);
    }
    assert Referenced(r, |s.files|);
  }

  lemma StartIsReconfigure(s: System, cfg: Config)
    requires Inv(s, cfg.native) && !s.recording
    ensures Step(s, Start, cfg) == Collect(Reconfigure(s.(recording := true), cfg))
    ensures Reconfigured(s.(recording := true), Reconfigure(s.(recording := true), cfg))
  {
    hide OpenWriter, AddMissing, Reconfigure, FileInv;
    assert RefsInv(s.(recording := true)) && FilesInv(s.(recording := true), cfg.native);
    ReconfigureInv(s.(recording := true), cfg);
  }

  // ----- At most one file is written in a step -----

  ghost predicate OnlyFile(before: seq<FileState>, after: seq<FileState>, k: nat) {
    |after| == |before| && forall f :: 0 <= f < |before| && f != k ==> after[f] == before[f]
  }

  /** reconfigure() after a change of the ports, the name or the recording flag. */
  lemma ReconfiguredOnly(s: System, mid: System, cfg: Config) returns (k: nat)
    requires RefsInv(s) && ClosedInv(s) && (mid.recording ==> s.writer.Some?)
    requires mid == s.(recording := mid.recording, filename := mid.filename, ports := mid.ports,
                       nextPort := mid.nextPort)
    ensures OnlyFile(s.files, Collect(Reconfigure(mid, cfg)).files, k)
  {
    hide Reconfigure, ClosedInv, RefsInv;
    k := if s.writer.Some? then s.writer.value else 0;
    ReconfigureFiles(mid, cfg);
    forall f | 0 <= f < |s.files| && f != k ensures Collect(Reconfigure(mid, cfg)).files[f] == s.files[f] {
      CollectKeeps(s, Reconfigure(mid, cfg), f);
    }
  }

  /** Taking or dropping a reference closes at most the file of the object let go. */
  lemma HoldOnly(s: System, thread: nat, held: map<nat, nat>) returns (k: nat)
    requires RefsInv(s) && ClosedInv(s)
    requires forall t :: t in s.held && t != thread ==> t in held && held[t] == s.held[t]
    ensures OnlyFile(s.files, Collect(s.(held := held)).files, k)
  {
    var r := s.(held := held);
    k := if thread in s.held then s.objects[s.held[thread]].file else 0;
    forall f | 0 <= f < |s.files| && f != k ensures Collect(r).files[f] == s.files[f] {
      if !s.files[f].closed && s.writer != Some(f) {
        OpenIsHeld(s, f);
        var t :| t in s.held && s.held[t] < |s.objects| && s.objects[s.held[t]].file == f;
        assert t != thread && Alive(r, r.held[t]);
      }
    }
  }

  lemma ArriveOnly(s: System, e: Event, cfg: Config) returns (k: nat)
    requires e.Arrive?
    ensures OnlyFile(s.files, Step(s, e, cfg).files, k)
  {
    hide ReceiveIn;
    k := if e.thread in s.held && s.held[e.thread] < |s.objects| then s.objects[s.held[e.thread]].file else 0;
  }

  /** A step that opens no file writes to at most one. */
  lemma {:induction false} OneFileAtATime(s: System, e: Event, cfg: Config) returns (k: nat)
    requires Inv(s, cfg.native)
    ensures Opens(s, e) ==> Step(s, e, cfg).files == s.files + [Opened(s.filename, OpeningText(cfg.preamble))]
    ensures !Opens(s, e) ==> OnlyFile(s.files, Step(s, e, cfg).files, k)
  {
    hide Reconfigure, ReceiveIn, Opened, OpeningText, Plug, Unplug, Collect, RefsInv, FilesInv, ClosedInv, PortsInv;
    k := 0;
    if Opens(s, e) {
      StartOpens(s, cfg);
    } else {
      match e
      case Connect(port, signal) =>
        if HasPort(s.ports, port) {
          PlugOnlyPorts(s, port, signal);
          k := ReconfiguredOnly(s, Plug(s, port, signal), cfg);
        }
      case Disconnect(port) =>
        if Connected(s.ports, port) {
          UnplugOnlyPorts(s, port);
          k := ReconfiguredOnly(s, Unplug(s, port), cfg);
        }
      case Start => k := ReconfiguredOnly(s, s.(recording := true), cfg);
      case Stop => k := ReconfiguredOnly(s, s.(recording := false), cfg);
      case Refresh(name) => k := ReconfiguredOnly(s, s.(filename := name), cfg);
      case Find(thread, port) =>
        if port in s.signals {
          k := HoldOnly(s, thread, s.held[thread := s.signals[port]]);
        }
      case Release(thread) => k := HoldOnly(s, thread, s.held - {thread});
      case Arrive(_, _, _) => k := ArriveOnly(s, e, cfg);
    }
  }

  lemma PlugOnlyPorts(s: System, port: nat, signal: Signal)
    ensures Plug(s, port, signal) == s.(ports := Plug(s, port, signal).ports,
                                        nextPort := Plug(s, port, signal).nextPort)
  {
  }

  lemma UnplugOnlyPorts(s: System, port: nat)
    ensures Unplug(s, port) == s.(ports := Unplug(s, port).ports)
  {
  }

  // ----- Files that have their name for themselves -----

  lemma RunSplit(events: seq<Event>, cfg: Config)
    requires events != []
    ensures Run(events, cfg) == Step(Run(events[..|events| - 1], cfg), events[|events| - 1], cfg)
  {
  }

  /** The last step of a run: it opened one file, or wrote to at most one. */
  lemma LastStep(events: seq<Event>, cfg: Config)
    requires events != []
    ensures var s, r, e := Run(events[..|events| - 1], cfg), Run(events, cfg), events[|events| - 1];
            && FilesGrow(s.files, r.files, cfg)
            && (Opens(s, e) ==> r.files == s.files + [Opened(s.filename, OpeningText(cfg.preamble))])
            && (!Opens(s, e) ==> |r.files| == |s.files|)
  {
    hide Step, Opened, OpeningText, FilesGrow;
    var s, e := Run(events[..|events| - 1], cfg), events[|events| - 1];
    RunInv(events[..|events| - 1], cfg);
    RunSplit(events, cfg);
    StepGrows(s, e, cfg);
    var _ := OneFileAtATime(s, e, cfg);
  }

  lemma EarlierStayClosed(before: seq<FileState>, after: seq<FileState>, f: nat, cfg: Config)
    requires FilesGrow(before, after, cfg) && f < |before|
    requires forall g :: 0 <= g < f && before[g].name == before[f].name ==> before[g].closed
    ensures forall g :: 0 <= g < f && after[g].name == after[f].name ==> after[g].closed
  {
    assert Grows(before[f], after[f]);
    forall g | 0 <= g < f && after[g].name == after[f].name ensures after[g].closed {
      assert Grows(before[g], after[g]);
    }
  }

  lemma OpenedAloneParts(events: seq<Event>, cfg: Config, f: nat)
    requires f < |Run(events, cfg).files|
    ensures events != []
    ensures var init := events[..|events| - 1];
            OpenedAlone(events, cfg, f) <==>
            if f < |Run(init, cfg).files| then OpenedAlone(init, cfg, f)
            else AllClosed(Run(init, cfg).files, Run(events, cfg).files[f].name)
  {
  }

  /** The earlier files of its name are still closed. */
  lemma {:induction false} EarlierAreClosed(events: seq<Event>, cfg: Config, f: nat)
    requires f < |Run(events, cfg).files| && OpenedAlone(events, cfg, f)
    ensures var files := Run(events, cfg).files;
            forall g :: 0 <= g < f && files[g].name == files[f].name ==> files[g].closed
    decreases |events|
  {
    hide Run, FilesGrow, OpenedAlone, Opened, OpeningText;
    OpenedAloneParts(events, cfg, f);
    LastStep(events, cfg);
    var init := events[..|events| - 1];
    if f < |Run(init, cfg).files| {
      EarlierAreClosed(init, cfg, f);
      EarlierStayClosed(Run(init, cfg).files, Run(events, cfg).files, f, cfg);
    }
  }

  /** Where all other files of a name are closed, its bytes follow the one that is not. */
  lemma {:induction false} WrittenAlone(bytes: seq<Byte>, before: seq<FileState>, after: seq<FileState>, f: nat,
                                        n: nat, cfg: Config)
    requires FilesGrow(before, after, cfg) && f < |before| && n <= |after|
    requires LastUnder(after, f) && bytes == Content(before[f])
    requires forall g :: 0 <= g < f && before[g].name == before[f].name ==> before[g].closed
    ensures Written(bytes, before, after[..n], before[f].name) == if f < n then Content(after[f]) else bytes
    decreases n
  {
    assert Grows(before[f], after[f]);
    if n > 0 {
      var k := n - 1;
      assert after[..n][..k] == after[..k];
      WrittenAlone(bytes, before, after, f, k, cfg);
      if after[k].name == before[f].name && k != f {
        assert k < f && Grows(before[k], after[k]);
      }
    }
  }

  lemma UnderParts(events: seq<Event>, cfg: Config, name: string)
    requires events != []
    ensures var init := events[..|events| - 1];
            Under(events, cfg, name) == Written(Under(init, cfg, name), Run(init, cfg).files, Run(events, cfg).files,
                                                name)
  {
  }

  lemma WrittenLast(bytes: seq<Byte>, before: seq<FileState>, after: seq<FileState>)
    requires |before| < |after|
    ensures Written(bytes, before, after, after[|after| - 1].name) == Content(after[|after| - 1])
  {
  }

  /** The bytes under a name are what was written through the file opened last under it, if earlier files
      of that name were closed when it was opened. */
  lemma {:induction false} NameHolds(events: seq<Event>, cfg: Config, f: nat)
    requires f < |Run(events, cfg).files| && LastUnder(Run(events, cfg).files, f) && OpenedAlone(events, cfg, f)
    ensures Under(events, cfg, Run(events, cfg).files[f].name) == Content(Run(events, cfg).files[f])
    decreases |events|
  {
    hide Run, OpenedAlone, Opened, OpeningText, Under, Written, FilesGrow;
    OpenedAloneParts(events, cfg, f);
    LastStep(events, cfg);
    var init := events[..|events| - 1];
    var before, files := Run(init, cfg).files, Run(events, cfg).files;
    UnderParts(events, cfg, files[f].name);
    if f < |before| {
      NamesStay(before, files, f, cfg);
      NameHolds(init, cfg, f);
      EarlierAreClosed(init, cfg, f);
      WrittenAlone(Under(init, cfg, files[f].name), before, files, f, |files|, cfg);
      assert files[..|files|] == files;
    } else {
      WrittenLast(Under(init, cfg, files[f].name), before, files);
    }
  }

  lemma NamesStay(before: seq<FileState>, after: seq<FileState>, f: nat, cfg: Config)
    requires FilesGrow(before, after, cfg) && f < |before| && LastUnder(after, f)
    ensures LastUnder(before, f) && after[f].name == before[f].name
  {
    assert Grows(before[f], after[f]);
    forall g | f < g < |before| ensures before[g].name != before[f].name {
      assert Grows(before[g], after[g]);
    }
  }
}
