/** What descriptors say by themselves, whatever the recorder makes of them: numbers of each sample type,
    linear rules, byte strings, and which pairs of descriptors describe a signal that is recorded. */
module SampleTypes {
  import opened Bytes
  import opened Decoders
  import opened Descriptors
  import SieXml

  // ----- Numbers -----

  predicate IsNumber(t: SampleType) {
    match t
    case Float32 | Float64 => true
    case UInt8 | Int8 | UInt16 | Int16 | UInt32 | Int32 | UInt64 | Int64 => true
    case Struct => false
    case OtherType => false
  }

  /** The size of one element in bytes. */
  function ElementSize(t: SampleType): nat {
    match t
    case UInt8 | Int8 => 1
    case UInt16 | Int16 => 2
    case UInt32 | Int32 | Float32 => 4
    case UInt64 | Int64 | Float64 => 8
    case Struct => 0
    case OtherType => 0
  }

  /** The number with a bit pattern in two's complement, given the weight of the sign bit. */
  function TwosComplement(pattern: nat, sign: nat): int {
    if pattern < sign then pattern else pattern - 2 * sign
  }

  /** The number some bytes stand for: unsigned, in two's complement, or a floating-point pattern. */
  function Number(t: SampleType, native: Endian, bytes: seq<Byte>): Value {
    var pattern := Decode(native, bytes);
    match t
    case UInt8 | UInt16 | UInt32 | UInt64 => IntValue(pattern)
    case Int8 => IntValue(TwosComplement(pattern, 0x80))
    case Int16 => IntValue(TwosComplement(pattern, 0x8000))
    case Int32 => IntValue(TwosComplement(pattern, 0x8000_0000))
    case Int64 => IntValue(TwosComplement(pattern, 0x8000_0000_0000_0000))
    case Float32 => FloatValue(32, pattern)
    case Float64 => FloatValue(64, pattern)
    case Struct => RawValue(bytes)
    case OtherType => RawValue(bytes)
  }

  /** A typed read of this kind and width yields the numbers of the type. */
  ghost predicate ReadAs(t: SampleType, kind: Kind, bits: nat) {
    && IsNumber(t) && bits == 8 * ElementSize(t)
    && forall native: Endian, bytes: seq<Byte> :: |bytes| == ElementSize(t) ==>
         Typed(kind, native, bytes) == Number(t, native, bytes)
  }

  lemma WidthOf(t: SampleType, kind: Kind, bits: nat)
    requires ReadAs(t, kind, bits)
    ensures bits in {8, 16, 32, 64} && bits / 8 == ElementSize(t)
  {
  }

  lemma SignedIs(t: SampleType, pattern: nat)
    requires t == Int8 || t == Int16 || t == Int32 || t == Int64
    ensures Signed(pattern, ElementSize(t))
         == TwosComplement(pattern, match t case Int8 => 0x80 case Int16 => 0x8000 case Int32 => 0x8000_0000
                                    case _ => 0x8000_0000_0000_0000)
  {
    Powers();
    assert Pow256(3) == 0x100_0000 && Pow256(7) == 0x100_0000_0000_0000;
  }

  /** The reads declared for the sample types are the right ones, and there are reads for numbers only. */
  lemma {:induction false} DeclaredRead(t: SampleType)
    ensures SieReadType(t).Some? <==> IsNumber(t)
    ensures IsNumber(t) ==>
              var (text, bits) := SieReadType(t).value;
              var kind := SieXml.KindOf(text);
              kind.Some? && ReadAs(t, kind.value, bits)
  {
    if IsNumber(t) {
      forall native: Endian, bytes: seq<Byte> | |bytes| == ElementSize(t)
        ensures Typed(SieXml.KindOf(SieReadType(t).value.0).value, native, bytes) == Number(t, native, bytes)
      {
        if t == Int8 || t == Int16 || t == Int32 || t == Int64 {
          SignedIs(t, Decode(native, bytes));
        }
      }
    }
  }

  // ----- Linear rules -----

  predicate HasLinearRule(d: DataDescriptor) {
    match d.rule
    case Some(LinearRule(Some(_))) => true
    case _ => false
  }

  /** The value of a linear rule at index 0, and its step. */
  function RuleStart(d: DataDescriptor): int {
    match d.rule
    case Some(LinearRule(Some(LinearParameters(Some(start), _)))) => start
    case _ => 0
  }

  function RuleDelta(d: DataDescriptor): int {
    match d.rule
    case Some(LinearRule(Some(LinearParameters(_, Some(delta))))) => delta
    case _ => 1
  }

  lemma {:induction false} RuleIsRead(d: DataDescriptor)
    ensures LinearStartDelta(d) == if HasLinearRule(d) then Some((RuleStart(d), RuleDelta(d))) else None
  {
  }

  /** Item i of a packed array. */
  function Slice(bytes: seq<Byte>, size: nat, i: nat): (r: seq<Byte>)
    requires (i + 1) * size <= |bytes|
    ensures |r| == size
  {
    assert (i + 1) * size == i * size + size;
    bytes[i * size..(i + 1) * size]
  }

  lemma SliceFits(length: nat, size: nat, i: nat)
    requires size > 0 && i < length / size
    ensures (i + 1) * size <= length
  {
    Multiples(i + 1, length / size, size);
  }

  lemma Multiples(a: nat, b: nat, k: nat)
    requires a <= b
    ensures a * k <= b * k
  {
  }

  /** The samples of a packet of numbers: number i at offset + start + i * delta. */
  function ScalarSamples(value: DataDescriptor, domain: DataDescriptor, offset: int, raw: seq<Byte>,
                         native: Endian): (r: seq<seq<Value>>)
    requires IsNumber(value.sampleType)
    ensures |r| == |raw| / ElementSize(value.sampleType)
  {
    var size := ElementSize(value.sampleType);
    seq(|raw| / size, i requires 0 <= i < |raw| / size =>
      (SliceFits(|raw|, size, i);
       [IntValue(offset + RuleStart(domain) + i * RuleDelta(domain)),
        Number(value.sampleType, native, Slice(raw, size, i))]))
  }

  // ----- Arrays -----

  /** The number of elements of an array with these dimensions. */
  function Elements(dimensions: seq<Dimension>): nat {
    if dimensions == [] then 1 else dimensions[0].size * Elements(dimensions[1..])
  }

  function ElementCount(f: DataDescriptor): nat {
    if f.dimensions.None? then 1 else Elements(f.dimensions.value)
  }

  function FieldSize(f: DataDescriptor): nat {
    ElementSize(f.sampleType) * ElementCount(f)
  }

  /** A string of bytes: one linear dimension of 8-bit elements. */
  predicate IsByteString(f: DataDescriptor) {
    match f.sampleType
    case UInt8 | Int8 => (match f.dimensions case Some(ds) => |ds| == 1 && ds[0].linear case None => false)
    case _ => false
  }

  predicate AllNumbers(fields: seq<DataDescriptor>) {
    forall k :: 0 <= k < |fields| ==> IsNumber(fields[k].sampleType)
  }

  // ----- Signals that are recorded -----

  /** Numbers without dimensions, each with a domain value given by a linear rule. */
  predicate IsScalarSignal(value: Option<DataDescriptor>, domain: Option<DataDescriptor>) {
    && value.Some? && domain.Some?
    && IsNumber(value.value.sampleType) && value.value.rule == Some(ExplicitRule)
    && (value.value.dimensions.None? || value.value.dimensions == Some([]))
    && HasLinearRule(domain.value)
  }

  /** Structs of numbers and arrays of numbers, each with an explicit number as its domain value. */
  predicate IsMessageSignal(value: Option<DataDescriptor>, domain: Option<DataDescriptor>) {
    && value.Some? && domain.Some?
    && value.value.sampleType == Struct && value.value.rule == Some(ExplicitRule)
    && AllNumbers(value.value.structFields)
    && IsNumber(domain.value.sampleType) && domain.value.rule == Some(ExplicitRule)
  }

  /** Descriptors for which the construction of a handler is begun, and ids are taken: it still fails without
      the parameters of the rule, or without a read for a field or for the domain. */
  predicate IsSupported(value: Option<DataDescriptor>, domain: Option<DataDescriptor>) {
    && value.Some? && domain.Some? && value.value.rule == Some(ExplicitRule)
    && (|| (&& IsNumber(value.value.sampleType) && (value.value.dimensions.None? || value.value.dimensions == Some([]))
            && domain.value.rule.Some? && domain.value.rule.value.LinearRule?)
        || (value.value.sampleType == Struct && domain.value.rule == Some(ExplicitRule)))
  }

  /** The size of one CAN message. */
  const MESSAGE_BYTES: nat := 4 + 1 + 64

  /** The packets that are recorded: scalars with a domain offset, messages with at least 69 bytes and 8
      domain bytes for each sample, counted with 32 bits. */
  predicate IsRecorded(packet: Packet) {
    packet.domain.Some?
    && var domain, n := packet.domain.value, packet.sampleCount % 0x1_0000_0000;
       || (IsScalarSignal(packet.descriptor, domain.descriptor) && domain.offset.Some?)
       || (&& IsMessageSignal(packet.descriptor, domain.descriptor)
           && n * MESSAGE_BYTES <= |packet.raw| && n * 8 <= |domain.raw|)
  }
}
