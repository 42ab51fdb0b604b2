/** What one recording file contains, entry by entry: the opening metadata, the declarations of the
    handlers and the packets they accepted. */
module FileLog {
  import opened Bytes
  import opened BlockLayer
  import opened IndexLayer
  import opened IndexAgreement
  import opened LogicalLayer
  import opened Xml
  import opened SieXml
  import opened Descriptors
  import opened Handlers
  import ScalarLinear
  import Can

  /** A handler was declared by a signal object; serial counts the ids taken in the file before. A
      packet was accepted by the handler of a signal object. */
  datatype Entry =
    | Opening(text: string)
    | Declared(owner: nat, serial: nat, handler: Handler, binding: Binding, labels: Labels)
    | Data(owner: nat, handler: Handler, packet: Packet)

  function HandlerElements(h: Handler, b: Binding, labels: Labels, native: Endian): seq<Element> {
    if h.ScalarHandler? then (if ScalarReady(b) then ScalarElements(b, labels, native) else [])
    else (if CanReady(b) then CanElements(b, labels.testId, native) else [])
  }

  /** The first metadata: a preamble and the element of test 0. */
  function OpeningText(preamble: string): string {
    preamble + Serialize(TestElement(0), 1)
  }

  /** The block an entry is written as. */
  function EntryBlock(e: Entry, native: Endian): Block {
    match e
    case Opening(text) => Block(METADATA, OfText(text))
    case Declared(_, _, h, b, labels) => Block(METADATA, OfText(SerializeAll(HandlerElements(h, b, labels, native), 1)))
    case Data(_, h, packet) =>
      var payload := DataPayload(h, packet, native);
      Block(h.group, if payload.Some? then payload.value else [])
  }

  function LogBlocks(log: seq<Entry>, native: Endian): (r: seq<Block>)
    ensures |r| == |log|
  {
    seq(|log|, i requires 0 <= i < |log| => EntryBlock(log[i], native))
  }

  lemma LogBlocksAppend(log: seq<Entry>, e: Entry, native: Endian)
    ensures LogBlocks(log + [e], native) == LogBlocks(log, native) + [EntryBlock(e, native)]
  {
  }

  lemma PutAllAppend(bs: seq<Block>, b: Block)
    ensures PutAll(bs + [b]) == Put(PutAll(bs), b)
  {
    assert (bs + [b])[..|bs|] == bs;
  }

  /** A file that was opened under a name, with what has been written through its writer. */
  datatype FileState = FileState(name: string, writer: WriterState, log: seq<Entry>, taken: nat, closed: bool)

  /** The id handed out after n others: the first two are reserved. */
  function IdAfter(n: nat): nat {
    (2 + n) % 0x1_0000_0000
  }

  /** The channel id handed out after n others: none is reserved. */
  function ChannelAfter(n: nat): nat {
    n % 0x1_0000_0000
  }

  predicate IsReady(h: Handler, b: Binding) {
    && h.group == b.group
    && (h.ScalarHandler? ==> ScalarReady(b) && ScalarLinear.Supports(Some(b.value), Some(b.domain)) == Supported)
    && (h.CanHandler? ==> CanReady(b) && Can.Supports(Some(b.value), Some(b.domain)) == Supported)
  }

  /** A declaration of handler h by the owner for these descriptors. */
  predicate Declares(e: Entry, owner: nat, h: Handler, value: Option<DataDescriptor>, domain: Option<DataDescriptor>) {
    e.Declared? && e.owner == owner && e.handler == h && Some(e.binding.value) == value
        && Some(e.binding.domain) == domain
  }

  ghost predicate Bound(log: seq<Entry>, n: nat, owner: nat, h: Handler, value: Option<DataDescriptor>,
                        domain: Option<DataDescriptor>)
    requires n <= |log|
  {
    exists i :: 0 <= i < n && Declares(log[i], owner, h, value, domain)
  }

  /** Entry number j is in order with those before it. */
  ghost predicate EntryInOrder(log: seq<Entry>, native: Endian, taken: nat, j: nat)
    requires j < |log|
  {
    match log[j]
    case Opening(_) => j == 0
    case Declared(_, serial, h, b, _) =>
      && j > 0 && serial < taken && IsReady(h, b)
      && b.group == b.decoderId == IdAfter(serial) && b.channelId == ChannelAfter(serial)
      && (forall i :: 0 <= i < j && log[i].Declared? ==> log[i].serial < serial)
    case Data(owner, h, packet) =>
      && DataPayload(h, packet, native).Some?
      && Bound(log, j, owner, h, packet.descriptor, DomainDescriptor(packet))
  }

  ghost predicate LogInOrder(log: seq<Entry>, native: Endian, taken: nat) {
    && log != [] && log[0].Opening?
    && forall j :: 0 <= j < |log| ==> EntryInOrder(log, native, taken, j)
  }

  /** The file holds the log, and the id counters count the ids taken. */
  ghost predicate FileInv(f: FileState, native: Endian) {
    && LogInOrder(f.log, native, f.taken)
    && f.writer.nextGroup == f.writer.nextDecoder == IdAfter(f.taken) && f.writer.nextChannel == ChannelAfter(f.taken)
    && f.writer.index == if f.closed then Closed(LogBlocks(f.log, native)) else PutAll(LogBlocks(f.log, native))
  }

  // ----- Steps -----

  /** A file that was just opened. */
  function Opened(name: string, text: string): FileState {
    FileState(name, WriteMetadata(FRESH, text), [Opening(text)], 0, false)
  }

  lemma OpenedInv(name: string, text: string, native: Endian)
    ensures FileInv(Opened(name, text), native)
  {
    assert LogBlocks([Opening(text)], native) == [] + [EntryBlock(Opening(text), native)];
    PutAllAppend([], EntryBlock(Opening(text), native));
  }

  function Close(f: FileState): FileState {
    f.(closed := true, writer := f.writer.(index := Flush(f.writer.index)))
  }

  /** The closing flush seals exactly the log. */
  lemma CloseInv(f: FileState, native: Endian)
    requires FileInv(f, native) && !f.closed
    ensures FileInv(Close(f), native)
  {
  }

  lemma AppendedInOrder(log: seq<Entry>, e: Entry, native: Endian, taken: nat, more: nat)
    requires LogInOrder(log, native, taken) && taken <= more
    requires EntryInOrder(log + [e], native, more, |log|)
    ensures LogInOrder(log + [e], native, more)
  {
    var after := log + [e];
    forall j | 0 <= j < |after| ensures EntryInOrder(after, native, more, j) {
      if j < |log| {
        assert EntryInOrder(log, native, taken, j);
        assert forall i :: 0 <= i < |log| ==> after[i] == log[i];
        if log[j].Data? {
          var i :| 0 <= i < j && Declares(log[i], log[j].owner, log[j].handler, log[j].packet.descriptor,
                                          DomainDescriptor(log[j].packet));
          assert Declares(after[i], log[j].owner, log[j].handler, log[j].packet.descriptor,
                          DomainDescriptor(log[j].packet));
        }
      }
    }
  }

  /** Bindings are never lost as the log grows. */
  lemma BoundGrows(log: seq<Entry>, more: seq<Entry>, owner: nat, h: Handler, value: Option<DataDescriptor>,
                   domain: Option<DataDescriptor>)
    requires Bound(log, |log|, owner, h, value, domain)
    ensures Bound(log + more, |log + more|, owner, h, value, domain)
  {
    var i :| 0 <= i < |log| && Declares(log[i], owner, h, value, domain);
    assert Declares((log + more)[i], owner, h, value, domain);
  }

  // ----- A packet arriving at a signal object -----

  predicate Creates(value: Option<DataDescriptor>, domain: Option<DataDescriptor>) {
    Choose(value, domain) != NoKind
  }

  /** Handler creation, recorded in the log. */
  function CreateIn(f: FileState, owner: nat, labels: Labels, value: Option<DataDescriptor>,
                    domain: Option<DataDescriptor>, native: Endian)
    : (Option<Handler>, FileState)
  {
    var (h, w) := Create(f.writer, labels, value, domain, native);
    (h, f.(writer := w,
           taken := if Creates(value, domain) then f.taken + 1 else f.taken,
           log := if h.Some? then f.log + [Declared(owner, f.taken, h.value, Bind(f.writer, value.value, domain.value),
                                                    labels)] else f.log))
  }

  /** Packet delivery, recorded in the log. */
  function DeliverIn(f: FileState, owner: nat, h: Handler, packet: Packet, native: Endian): FileState {
    f.(writer := Deliver(f.writer, h, packet, native),
       log := if DataPayload(h, packet, native).Some? then f.log + [Data(owner, h, packet)] else f.log)
  }

  function ReceiveIn(f: FileState, owner: nat, s: SignalState, labels: Labels, packet: Packet,
                     native: Endian): (SignalState, FileState) {
    var (handler, ready) :=
      if Changed(s, packet) then CreateIn(f, owner, labels, packet.descriptor, DomainDescriptor(packet), native)
          else (s.handler, f);
    (SignalState(handler, packet.descriptor, DomainDescriptor(packet)),
     if handler.Some? then DeliverIn(ready, owner, handler.value, packet, native) else ready)
  }

  /** The log is only a record: states and bytes are those of the signal class. */
  lemma {:induction false} ReceiveInIsReceive(f: FileState, owner: nat, s: SignalState, labels: Labels,
                                              packet: Packet, native: Endian)
    ensures var (s', f') := ReceiveIn(f, owner, s, labels, packet, native);
            (s', f'.writer) == Receive(s, f.writer, labels, packet, native)
  {
  }

  /** A handler in use was declared by its owner for the descriptors last seen. */
  ghost predicate SignalBound(log: seq<Entry>, owner: nat, s: SignalState) {
    s.handler.Some? ==> Bound(log, |log|, owner, s.handler.value, s.lastValue, s.lastDomain)
  }

  lemma NextModulo(n: nat)
    ensures Next(n % 0x1_0000_0000) == (n + 1) % 0x1_0000_0000
  {
  }

  lemma IdsAdvance(n: nat)
    ensures Next(IdAfter(n)) == IdAfter(n + 1) && Next(ChannelAfter(n)) == ChannelAfter(n + 1)
  {
    hide Next;
    NextModulo(2 + n);
    NextModulo(n);
  }

  lemma {:induction false} AppendDeclared(f: FileState, owner: nat, h: Handler, b: Binding, labels: Labels,
                                          native: Endian)
    requires FileInv(f, native) && !f.closed && IsReady(h, b)
    requires b.group == b.decoderId == IdAfter(f.taken) && b.channelId == ChannelAfter(f.taken)
    ensures LogInOrder(f.log + [Declared(owner, f.taken, h, b, labels)], native, f.taken + 1)
  {
    var e := Declared(owner, f.taken, h, b, labels);
    forall i | 0 <= i < |f.log| && f.log[i].Declared? ensures (f.log + [e])[i].serial < f.taken {
      assert EntryInOrder(f.log, native, f.taken, i);
    }
    AppendedInOrder(f.log, e, native, f.taken, f.taken + 1);
  }

  lemma LogKept(log: seq<Entry>, native: Endian, taken: nat, more: nat)
    requires LogInOrder(log, native, taken) && taken <= more
    ensures LogInOrder(log, native, more)
  {
    forall j | 0 <= j < |log| ensures EntryInOrder(log, native, more, j) {
      assert EntryInOrder(log, native, taken, j);
    }
  }

  /** The block of a declaration is what Create writes. */
  lemma CreateWrites(w: WriterState, owner: nat, serial: nat, labels: Labels, value: Option<DataDescriptor>,
                     domain: Option<DataDescriptor>, native: Endian)
    requires Create(w, labels, value, domain, native).0.Some?
    ensures value.Some? && domain.Some?
    ensures var (h, after) := Create(w, labels, value, domain, native);
            var b := Bind(w, value.value, domain.value);
            IsReady(h.value, b)
            && after == Allocate(w).(index := Put(w.index,
                                                  EntryBlock(Declared(owner, serial, h.value, b, labels), native)))
  {
    hide ScalarElements, CanElements, SerializeAll, Put, OfText, LinearStartDelta, SieReadType, Can.GoodFields;
  }

  lemma CreateFails(w: WriterState, labels: Labels, value: Option<DataDescriptor>, domain: Option<DataDescriptor>,
                    native: Endian)
    requires Create(w, labels, value, domain, native).0.None?
    ensures Create(w, labels, value, domain, native).1 == if Creates(value, domain) then Allocate(w) else w
  {
  }

  lemma CreateSucceeds(w: WriterState, labels: Labels, value: Option<DataDescriptor>, domain: Option<DataDescriptor>,
                       native: Endian)
    requires Create(w, labels, value, domain, native).0.Some?
    ensures Creates(value, domain)
  {
  }

  lemma DeclaredInv(f: FileState, e: Entry, w: WriterState, native: Endian)
    requires FileInv(f, native) && !f.closed
    requires e.Declared? && LogInOrder(f.log + [e], native, f.taken + 1)
    requires w == Allocate(f.writer).(index := Put(f.writer.index, EntryBlock(e, native)))
    ensures FileInv(f.(writer := w, taken := f.taken + 1, log := f.log + [e]), native)
  {
    hide EntryBlock, Put, LogInOrder, IdAfter, LogBlocks;
    IdsAdvance(f.taken);
    LogBlocksAppend(f.log, e, native);
    PutAllAppend(LogBlocks(f.log, native), EntryBlock(e, native));
  }

  lemma UndeclaredInv(f: FileState, w: WriterState, created: bool, native: Endian)
    requires FileInv(f, native) && !f.closed
    requires w == if created then Allocate(f.writer) else f.writer
    ensures FileInv(f.(writer := w, taken := if created then f.taken + 1 else f.taken), native)
  {
    IdsAdvance(f.taken);
    LogKept(f.log, native, f.taken, f.taken + 1);
  }

  lemma CreatedInv(f: FileState, owner: nat, labels: Labels, value: Option<DataDescriptor>,
                   domain: Option<DataDescriptor>, native: Endian,
                   h: Handler, w: WriterState)
    requires FileInv(f, native) && !f.closed && (Some(h), w) == Create(f.writer, labels, value, domain, native)
    ensures value.Some? && domain.Some?
    ensures var f' := f.(writer := w, taken := f.taken + 1,
                         log := f.log + [Declared(owner, f.taken, h, Bind(f.writer, value.value, domain.value),
                                                  labels)]);
            FileInv(f', native) && Bound(f'.log, |f'.log|, owner, h, value, domain)
  {
    CreateWrites(f.writer, owner, f.taken, labels, value, domain, native);
    var b := Bind(f.writer, value.value, domain.value);
    var e := Declared(owner, f.taken, h, b, labels);
    AppendDeclared(f, owner, h, b, labels, native);
    DeclaredInv(f, e, w, native);
    assert Declares((f.log + [e])[|f.log|], owner, h, value, domain);
  }

  lemma CreateInInv(f: FileState, owner: nat, labels: Labels, value: Option<DataDescriptor>,
                    domain: Option<DataDescriptor>, native: Endian)
    requires FileInv(f, native) && !f.closed
    ensures var (h, f') := CreateIn(f, owner, labels, value, domain, native);
            && FileInv(f', native) && !f'.closed && f.log <= f'.log
            && SignalBound(f'.log, owner, SignalState(h, value, domain))
  {
    hide Create, FileInv, Bound, Choose;
    var (h, w) := Create(f.writer, labels, value, domain, native);
    if h.Some? {
      CreateSucceeds(f.writer, labels, value, domain, native);
      CreatedInv(f, owner, labels, value, domain, native, h.value, w);
    } else {
      CreateFails(f.writer, labels, value, domain, native);
      UndeclaredInv(f, w, Creates(value, domain), native);
    }
  }

  lemma DeliverInInv(f: FileState, owner: nat, h: Handler, packet: Packet, native: Endian)
    requires FileInv(f, native) && !f.closed
    requires Bound(f.log, |f.log|, owner, h, packet.descriptor, DomainDescriptor(packet))
    ensures var f' := DeliverIn(f, owner, h, packet, native);
            && FileInv(f', native) && !f'.closed && f.log <= f'.log
            && Bound(f'.log, |f'.log|, owner, h, packet.descriptor, DomainDescriptor(packet))
  {
    if DataPayload(h, packet, native).Some? {
      var e := Data(owner, h, packet);
      LogBlocksAppend(f.log, e, native);
      PutAllAppend(LogBlocks(f.log, native), EntryBlock(e, native));
      var i :| 0 <= i < |f.log| && Declares(f.log[i], owner, h, packet.descriptor, DomainDescriptor(packet));
      assert Declares((f.log + [e])[i], owner, h, packet.descriptor, DomainDescriptor(packet));
      AppendedInOrder(f.log, e, native, f.taken, f.taken);
      BoundGrows(f.log, [e], owner, h, packet.descriptor, DomainDescriptor(packet));
    }
  }

  /** One packet keeps the file in order and the signal object bound. */
  lemma {:induction false} ReceiveInInv(f: FileState, owner: nat, s: SignalState, labels: Labels, packet: Packet,
                                        native: Endian)
    requires FileInv(f, native) && !f.closed && SignalBound(f.log, owner, s)
    ensures var (s', f') := ReceiveIn(f, owner, s, labels, packet, native);
            && FileInv(f', native) && !f'.closed && f.log <= f'.log
            && SignalBound(f'.log, owner, s')
  {
    var (handler, ready) :=
      if Changed(s, packet) then CreateIn(f, owner, labels, packet.descriptor, DomainDescriptor(packet), native)
          else (s.handler, f);
    if Changed(s, packet) {
      CreateInInv(f, owner, labels, packet.descriptor, DomainDescriptor(packet), native);
    }
    if handler.Some? {
      DeliverInInv(ready, owner, handler.value, packet, native);
    }
  }
}
