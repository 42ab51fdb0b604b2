/** What holds over whole runs of the recorder: finished recordings stay finished, every data block has
    its declaration, and the bytes under a file name read back. */
module RunTheorems {
  import opened Bytes
  import opened BlockLayer
  import opened IndexAgreement
  import opened Preamble
  import opened Reader
  import opened Handlers
  import opened FileLog
  import opened Runs
  import opened RunGrowth
  import opened Disk
  import opened FileNames
  import opened Ownership
  import opened Metadata
  import opened Readback
  import opened DeclarationLimits
  import Xml
  import XmlConformance

  // ----- Finalisation under every interleaving -----

  /** While a delivery holds a signal object its file is open, whatever the recorder does; a file
      nobody refers to is closed, ends with the closing flush of exactly its log, and nothing is written
      through it again. If it had its name for itself when it was opened, these are the bytes under the
      name until the name is opened again. */
  lemma {:induction false} Finalisation(events: seq<Event>, more: seq<Event>, cfg: Config, f: nat)
    requires f < |Run(events, cfg).files|
    ensures var s, r := Run(events, cfg), Run(events + more, cfg);
            && f < |r.files|
            && (forall t :: t in s.held ==> s.held[t] < |s.objects|)
            && (s.files[f].closed <==> !Referenced(s, f))
            && ((exists t :: t in s.held && s.objects[s.held[t]].file == f) ==> !s.files[f].closed)
            && (s.files[f].closed ==> s.files[f].writer.index == Closed(LogBlocks(s.files[f].log, cfg.native)))
            && (s.files[f].closed ==> r.files[f] == s.files[f])
            && (s.files[f].closed && OpenedAlone(events, cfg, f) && LastUnder(r.files, f) ==>
                  Under(events + more, cfg, s.files[f].name) == Closed(LogBlocks(s.files[f].log, cfg.native)).content)
  {
    hide Run, OpenedAlone, Under, LastUnder;
    WriterFinalised(events, more, cfg, f);
    if Run(events, cfg).files[f].closed && OpenedAlone(events, cfg, f) && LastUnder(Run(events + more, cfg).files, f) {
      AloneIsKept(events, more, cfg, f);
      NameHolds(events + more, cfg, f);
    }
  }

  lemma WriterFinalised(events: seq<Event>, more: seq<Event>, cfg: Config, f: nat)
    requires f < |Run(events, cfg).files|
    ensures var s, r := Run(events, cfg), Run(events + more, cfg);
            && f < |r.files|
            && (forall t :: t in s.held ==> s.held[t] < |s.objects|)
            && (s.files[f].closed <==> !Referenced(s, f))
            && ((exists t :: t in s.held && s.objects[s.held[t]].file == f) ==> !s.files[f].closed)
            && (s.files[f].closed ==> s.files[f].writer.index == Closed(LogBlocks(s.files[f].log, cfg.native)))
            && (s.files[f].closed ==> r.files[f] == s.files[f])
  {
    hide Run;
    RunInv(events, cfg);
    RunGrows(events, more, cfg);
    assert FileInv(Run(events, cfg).files[f], cfg.native);
    assert Grows(Run(events, cfg).files[f], Run(events + more, cfg).files[f]);
  }

  /** After a stop, as soon as no delivery holds a signal object, every file is closed. */
  lemma {:induction false} StoppedAndReleased(events: seq<Event>, cfg: Config, f: nat)
    requires !Run(events, cfg).recording && Run(events, cfg).held == map[] && f < |Run(events, cfg).files|
    ensures Run(events, cfg).files[f].closed
  {
    RunInv(events, cfg);
    var s := Run(events, cfg);
    assert forall id :: id !in s.signals;
    assert !Referenced(s, f);
  }

  // ----- Finished recordings -----

  /** File f is closed, was opened while no other file of its name was open, and its name was not opened
      again. */
  ghost predicate Finished(events: seq<Event>, cfg: Config, f: nat) {
    var files := Run(events, cfg).files;
    f < |files| && files[f].closed && LastUnder(files, f) && OpenedAlone(events, cfg, f)
  }

  lemma FinishedContent(events: seq<Event>, cfg: Config, f: nat)
    requires Finished(events, cfg, f)
    ensures var file := Run(events, cfg).files[f];
            && FileInv(file, cfg.native) && StartsWithPreamble(file, cfg)
            && Under(events, cfg, file.name) == Content(file) == Closed(LogBlocks(file.log, cfg.native)).content
  {
    hide Run, OpenedAlone, Under, LastUnder;
    RunInv(events, cfg);
    FilesBegin(events, cfg, f);
    NameHolds(events, cfg, f);
    assert FileInv(Run(events, cfg).files[f], cfg.native);
  }

  /** The bytes under the name of a finished recording parse into its blocks, begin with metadata (group 0),
      end with an index block (group 1), and the index blocks list all the others. */
  lemma {:induction false} FinishedFile(events: seq<Event>, cfg: Config, f: nat)
    requires Finished(events, cfg, f)
    requires Run(events, cfg).files[f].taken <= MOST_IDS && FileFits(Run(events, cfg).files[f].log, cfg.native)
    ensures var file := Run(events, cfg).files[f];
            var bs := LogBlocks(file.log, cfg.native);
            var blocks := ClosedBlocks(bs);
            && Under(events, cfg, file.name) == Frames(blocks)
            && DropIndex(blocks) == bs
            && blocks != [] && blocks[0].group == 0 && blocks[|blocks| - 1].group == 1
            && IndexedEntries(blocks) == Located(blocks, 0)
            && GoodIndexBlocks(blocks)
  {
    hide Run, OpenedAlone, Under, LastUnder;
    var file := Run(events, cfg).files[f];
    FinishedContent(events, cfg, f);
    NothingIndexed(file.log, cfg.native, file.taken);
    IndexAgreesWithFile(LogBlocks(file.log, cfg.native));
    FirstBlockOfLog(file.log, cfg.native);
  }

  // ----- Reading a recording back -----

  /** A file the format can represent: the ids it takes are not used up, its block sizes and offsets fit, and
      the texts of descriptors and signals are made of XML characters of one byte. */
  ghost predicate Representable(file: FileState, native: Endian) {
    file.taken <= MOST_IDS && FileFits(file.log, native) && ByteTexts(file.log)
  }

  lemma TextsAreNarrow(log: seq<Entry>, native: Endian, taken: nat)
    requires LogInOrder(log, native, taken) && ByteTexts(log)
    ensures NarrowLog(log, native)
  {
    hide NarrowTexts, IsReady, Xml.Narrow, HandlerElements;
    forall i | 0 <= i < |log| ensures NarrowEntry(log[i], native) {
      assert EntryInOrder(log, native, taken, i);
      if log[i].Declared? {
        DeclarationText(log[i].handler, log[i].binding, log[i].labels, native);
      }
    }
  }

  lemma FileReadsBack(cfg: Config, file: FileState, i: nat)
    requires IsPreamble(cfg.preamble) && FileInv(file, cfg.native) && StartsWithPreamble(file, cfg)
    requires file.closed && Representable(file, cfg.native) && i < |file.log| && file.log[i].Declared?
    ensures ReadsBack(Content(file), file.log, cfg.native, i)
  {
    hide IsPreamble, OpeningText, NarrowLog, ByteTexts, FileFits, LogInOrder;
    TextsAreNarrow(file.log, cfg.native, file.taken);
    FileReadBack(cfg.preamble, file.log, cfg.native, file.taken, i);
  }

  /** The end-to-end theorem over runs. Whatever connections, disconnections, starts, stops, renamings
      and interleaved deliveries made it, every group declared in a finished recording reads back from
      the bytes under its name. */
  lemma {:induction false} RunReadBack(events: seq<Event>, cfg: Config, f: nat, i: nat)
    requires IsPreamble(cfg.preamble) && Finished(events, cfg, f)
    requires Representable(Run(events, cfg).files[f], cfg.native)
    requires i < |Run(events, cfg).files[f].log| && Run(events, cfg).files[f].log[i].Declared?
    ensures var file := Run(events, cfg).files[f];
            ReadsBack(Under(events, cfg, file.name), file.log, cfg.native, i)
  {
    hide Run, OpenedAlone, Under, LastUnder, IsPreamble, ReadsBack, Representable;
    FinishedContent(events, cfg, f);
    FileReadsBack(cfg, Run(events, cfg).files[f], i);
  }

  /** A finished recording whose texts are byte strings can be read if and only if these texts are made of XML
      characters. */
  lemma {:induction false} RunReadableIff(events: seq<Event>, cfg: Config, f: nat)
    requires IsPreamble(cfg.preamble) && Finished(events, cfg, f)
    requires Run(events, cfg).files[f].taken <= MOST_IDS && FileFits(Run(events, cfg).files[f].log, cfg.native)
    requires OneByteLog(Run(events, cfg).files[f].log, cfg.native)
    ensures var file := Run(events, cfg).files[f];
            ReadFile(Under(events, cfg, file.name)).Some?
            <==> XmlConformance.TextTrees(LogElements(file.log, cfg.native))
  {
    hide Run, OpenedAlone, Under, LastUnder, IsPreamble, ReadFile, LogElements, XmlConformance.TextTrees, OneByteLog,
      FileFits, LogInOrder;
    FinishedContent(events, cfg, f);
    var file := Run(events, cfg).files[f];
    var _ := FileContents(cfg.preamble, file.log, cfg.native, file.taken);
  }

  /** One forbidden character in the description of one recorded scalar signal makes the whole recording
      unreadable. */
  lemma {:induction false} BadDescriptionLosesAll(events: seq<Event>, cfg: Config, f: nat, i: nat)
    requires IsPreamble(cfg.preamble) && Finished(events, cfg, f)
    requires Run(events, cfg).files[f].taken <= MOST_IDS && FileFits(Run(events, cfg).files[f].log, cfg.native)
    requires OneByteLog(Run(events, cfg).files[f].log, cfg.native)
    requires var log := Run(events, cfg).files[f].log;
             i < |log| && log[i].Declared? && log[i].handler.ScalarHandler?
             && !Xml.IsText(log[i].labels.signal.description)
    ensures ReadFile(Under(events, cfg, Run(events, cfg).files[f].name)) == None
  {
    hide Run, OpenedAlone, Under, LastUnder, IsPreamble, ReadFile, LogElements, XmlConformance.TextTrees, OneByteLog,
      FileFits, LogInOrder, Xml.IsText;
    var file := Run(events, cfg).files[f];
    FinishedContent(events, cfg, f);
    ReadyLog(file.log, cfg.native, file.taken);
    RunReadableIff(events, cfg, f);
    BadDescription(file.log, cfg.native, i);
  }

  /** Group ownership over runs: every data block of every file comes after the one declaration of its
      group, on behalf of the same signal object, for a packet with the descriptors its decoder was
      built from; the groups, decoders and channels declared are pairwise different, the first two
      unreserved. */
  lemma {:induction false} RunOwnership(events: seq<Event>, cfg: Config, f: nat, j: nat) returns (i: nat)
    requires f < |Run(events, cfg).files| && Run(events, cfg).files[f].taken <= MOST_IDS
    requires j < |Run(events, cfg).files[f].log| && Run(events, cfg).files[f].log[j].Data?
    ensures var log := Run(events, cfg).files[f].log;
            && i < j && Declares(log[i], log[j].owner, log[j].handler, log[j].packet.descriptor,
                                 DomainDescriptor(log[j].packet))
            && log[j].handler.group == log[i].binding.group >= 2
            && (forall k :: 0 <= k < |log| && log[k].Declared? && k != i ==>
                  && log[k].binding.group != log[i].binding.group
                  && log[k].binding.decoderId != log[i].binding.decoderId
                  && log[k].binding.channelId != log[i].binding.channelId)
  {
    RunInv(events, cfg);
    var file := Run(events, cfg).files[f];
    assert FileInv(file, cfg.native);
    i := DataIsOwned(file.log, cfg.native, file.taken, j);
    forall k | 0 <= k < |file.log| && file.log[k].Declared?
      ensures file.log[i].binding.group >= 2
      ensures k != i ==>
                file.log[k].binding.group != file.log[i].binding.group
                && file.log[k].binding.decoderId != file.log[i].binding.decoderId
                && file.log[k].binding.channelId != file.log[i].binding.channelId
    {
      DeclarationsAreDistinct(file.log, cfg.native, file.taken, i, k);
    }
    DeclarationsAreDistinct(file.log, cfg.native, file.taken, i, i);
  }
}
