/** Creating a signal handler and handing packets to it, as changes of the writer's state. */
module Handlers {
  import opened Bytes
  import opened BlockLayer
  import opened LogicalLayer
  import opened Xml
  import opened SieXml
  import opened Descriptors
  import ScalarLinear
  import Can
  import CanCorrect
  import Decimal

  datatype Handler = ScalarHandler(group: nat) | CanHandler(group: nat)

  /** What a handler is built for: its ids and the descriptors of the packets it will accept. */
  datatype Binding = Binding(group: nat, decoderId: nat, channelId: nat, value: DataDescriptor, domain: DataDescriptor)

  /** Texts that come from outside: the signal's labels and a random UUID. */
  datatype Labels = Labels(signal: Signal, uuid: string, testId: nat)

  const ZERO_TEXT := "0.000000e+00"

  // ----- The channel of a scalar signal -----

  function AddUnits(dim: Element, unit: Option<string>): Element {
    if unit.Some? then dim.AddChild(UnitsElement(unit.value)) else dim
  }

  function DomainDimension(b: Binding): Element {
    AddUnits(DimensionElement(0).AddChild(TransformElement(b.domain.tickScale, ZERO_TEXT))
        .AddChild(DataElement(b.decoderId, 0)), b.domain.unit)
  }

  function ScalarDimension(b: Binding): Element {
    var dim := AddUnits(DimensionElement(1).AddChild(DataElement(b.decoderId, 1)), b.value.unit);
    if b.value.range.Some? then
      dim.AddChild(TagElement("FS_Min", b.value.range.value.0)).AddChild(TagElement("FS_Max", b.value.range.value.1))
    else dim
  }

  function DataTypeText(t: SampleType): string {
    match t
    case Float32 => "sequential_float32"
    case Float64 => "sequential_float64"
    case UInt8 => "sequential_uint8"
    case Int8 => "sequential_int8"
    case UInt16 => "sequential_uint16"
    case Int16 => "sequential_int16"
    case UInt32 => "sequential_uint32"
    case Int32 => "sequential_int32"
    case UInt64 => "sequential_uint64"
    case Int64 => "sequential_int64"
    case _ => ""
  }

  function ScalarChannel(b: Binding, labels: Labels): Element
    requires IsScalar(b.value.sampleType)
  {
    var (kind, bits) := SieReadType(b.value.sampleType).value;
    ChannelElement(b.channelId, b.group, b.value.name)
    .AddChild(TagElement("core:uuid", labels.uuid))
    .AddChild(TagElement("data_type", DataTypeText(b.value.sampleType)))
    .AddChild(TagElement("somat:data_format", kind))
    .AddChild(TagElement("core:description", labels.signal.description))
    .AddChild(TagElement("somat:input_channel", labels.signal.globalId))
    .AddChild(TagElement("core:sample_rate", b.domain.rateText))
    .AddChild(TagElement("somat:data_bits", Decimal.ToDecimal(bits)))
    .AddChild(TagElement("core:schema", "somat:sequential"))
    .AddChild(DomainDimension(b))
    .AddChild(ScalarDimension(b))
  }

  // ----- The channel of a CAN signal -----

  function FieldDimension(decoderId: nat, index: nat, field: DataDescriptor): Element {
    DimensionElement(index).AddChild(TagElement("openDAQ:fieldName", field.name))
        .AddChild(DataElement(decoderId, index))
  }

  function FieldDimensions(decoderId: nat, index: nat, fields: seq<DataDescriptor>): seq<Element>
    decreases |fields|
  {
    if fields == [] then []
    else [FieldDimension(decoderId, index, fields[0])] + FieldDimensions(decoderId, index + 1, fields[1..])
  }

  function CanChannel(b: Binding): Element {
    var channel :=
      ChannelElement(b.channelId, b.group, b.value.name)
      .AddChild(TagElement("core:description", "Raw CAN messages"))
      .AddChild(TagElement("data_type", "message_can"))
      .AddChild(TagElement("somat:datamode_type", "message_log"))
      .AddChild(TagElement("core:schema", "somat:message"))
      .AddChild(DomainDimension(b));
    channel.(children := channel.children + FieldDimensions(b.decoderId, 1, b.value.structFields))
  }

  // ----- Construction -----

  predicate ScalarReady(b: Binding) {
    IsScalar(b.value.sampleType) && LinearStartDelta(b.domain).Some?
  }

  predicate CanReady(b: Binding) {
    SieReadType(b.domain.sampleType).Some? && Can.GoodFields(b.value.structFields)
  }

  function ScalarDecoder(b: Binding, native: Endian): Element
    requires ScalarReady(b)
  {
    var (start, delta) := LinearStartDelta(b.domain).value;
    var (kind, bits) := SieReadType(b.value.sampleType).value;
    ScalarLinear.Decoder(b.decoderId, start, delta, kind, bits, native)
  }

  function CanDecoder(b: Binding, native: Endian): Element
    requires CanReady(b)
  {
    var (kind, bits) := SieReadType(b.domain.sampleType).value;
    Can.Decoder(b.decoderId, kind, bits, b.value.structFields, native)
  }

  function TestWith(testId: nat, channel: Element): Element {
    TestElement(testId).AddChild(channel)
  }

  /** The two elements a handler declares when it is constructed. */
  function ScalarElements(b: Binding, labels: Labels, native: Endian): seq<Element>
    requires ScalarReady(b)
  {
    [ScalarDecoder(b, native), TestWith(labels.testId, ScalarChannel(b, labels))]
  }

  function CanElements(b: Binding, testId: nat, native: Endian): seq<Element>
    requires CanReady(b)
  {
    [CanDecoder(b, native), TestWith(testId, CanChannel(b))]
  }

  /** Taking one group, decoder and channel id. */
  function Allocate(w: WriterState): WriterState {
    w.(nextGroup := Next(w.nextGroup), nextDecoder := Next(w.nextDecoder), nextChannel := Next(w.nextChannel))
  }

  function Bind(w: WriterState, value: DataDescriptor, domain: DataDescriptor): Binding {
    Binding(w.nextGroup, w.nextDecoder, w.nextChannel, value, domain)
  }

  datatype Kind = ScalarKind | CanKind | NoKind

  /** Which handler supports the descriptors. A supports() predicate that throws ends the search. */
  function Choose(value: Option<DataDescriptor>, domain: Option<DataDescriptor>): (k: Kind)
    ensures k != NoKind ==> value.Some? && domain.Some?
  {
    match ScalarLinear.Supports(value, domain)
    case Supported => ScalarKind
    case Throws => NoKind
    case Unsupported => if Can.Supports(value, domain) == Supported then CanKind else NoKind
  }

  /** Creating the handler for new descriptors: none when it is unsupported or its constructor
      throws, which happens after the ids are taken. */
  function Create(w: WriterState, labels: Labels, value: Option<DataDescriptor>, domain: Option<DataDescriptor>,
                  native: Endian)
    : (r: (Option<Handler>, WriterState))
  {
    match Choose(value, domain)
    case NoKind => (None, w)
    case ScalarKind =>
      var b := Bind(w, value.value, domain.value);
      if !ScalarReady(b) then (None, Allocate(w))
      else (Some(ScalarHandler(b.group)), WriteMetadata(Allocate(w),
                                                        SerializeAll(ScalarElements(b, labels, native), 1)))
    case CanKind =>
      var b := Bind(w, value.value, domain.value);
      if !CanReady(b) then (None, Allocate(w))
      else (Some(CanHandler(b.group)), WriteMetadata(Allocate(w),
                                                     SerializeAll(CanElements(b, labels.testId, native), 1)))
  }

  /** The metadata a new handler declares itself with. */
  function Declaration(w: WriterState, labels: Labels, value: Option<DataDescriptor>, domain: Option<DataDescriptor>,
                       native: Endian)
    : string
    requires Create(w, labels, value, domain, native).0.Some?
  {
    var b := Bind(w, value.value, domain.value);
    SerializeAll(if Choose(value, domain) == ScalarKind then ScalarElements(b, labels, native)
        else CanElements(b, labels.testId, native), 1)
  }

  /** A handler that could have been created, had its declaration been written. */
  predicate CreateFailed(w: WriterState, labels: Labels, value: Option<DataDescriptor>, domain: Option<DataDescriptor>,
                         native: Endian,
                         after: WriterState)
  {
    && Create(w, labels, value, domain, native).0.Some?
    && WriteFailed(Allocate(w), METADATA, OfText(Declaration(w, labels, value, domain, native)), after)
  }

  // ----- Packets -----

  /** The payload written for a packet, if it is not dropped. */
  function DataPayload(h: Handler, packet: Packet, native: Endian): Option<seq<Byte>> {
    match h
    case ScalarHandler(_) =>
      if packet.domain.None? || packet.domain.value.offset.None? then None
      else Some(ScalarLinear.Payload(native, packet.domain.value.offset.value, packet.raw))
    case CanHandler(_) => CanCorrect.DataPayload(native, packet)
  }

  function Deliver(w: WriterState, h: Handler, packet: Packet, native: Endian): WriterState {
    var payload := DataPayload(h, packet, native);
    if payload.Some? then WriteBlock(w, h.group, payload.value) else w
  }

  /** The block of a packet could not be written. */
  predicate DeliverFailed(w: WriterState, h: Handler, packet: Packet, native: Endian, after: WriterState) {
    var payload := DataPayload(h, packet, native);
    payload.Some? && WriteFailed(w, h.group, payload.value, after)
  }

  datatype SignalState = SignalState(handler: Option<Handler>, lastValue: Option<DataDescriptor>,
                                     lastDomain: Option<DataDescriptor>)

  const NEW_SIGNAL := SignalState(None, None, None)

  function DomainDescriptor(packet: Packet): Option<DataDescriptor> {
    if packet.domain.Some? then packet.domain.value.descriptor else None
  }

  /** Whether the packet's descriptors differ from those of the last one. */
  predicate Changed(s: SignalState, packet: Packet) {
    packet.descriptor != s.lastValue || DomainDescriptor(packet) != s.lastDomain
  }

  /** The handler a packet is handed to, once a change of descriptors has replaced it. */
  function Rebound(s: SignalState, w: WriterState, labels: Labels, packet: Packet, native: Endian): (Option<Handler>,
      WriterState) {
    if Changed(s, packet) then Create(w, labels, packet.descriptor, DomainDescriptor(packet), native)
        else (s.handler, w)
  }

  /** AdvancedRecorderSignal::onDataPacketReceived when no write fails. */
  function Receive(s: SignalState, w: WriterState, labels: Labels, packet: Packet, native: Endian): (SignalState,
      WriterState) {
    var (handler, ready) := Rebound(s, w, labels, packet, native);
    (SignalState(handler, packet.descriptor, DomainDescriptor(packet)),
     if handler.Some? then Deliver(ready, handler.value, packet, native) else ready)
  }
}
