/** The parts of openDAQ descriptors and packets the recorder looks at. */
module Descriptors {
  import opened Bytes

  datatype SampleType =
    | Float32 | Float64 | UInt8 | Int8 | UInt16 | Int16 | UInt32 | Int32 | UInt64 | Int64
    | Struct | OtherType

  datatype LinearParameters = LinearParameters(start: Option<int>, delta: Option<int>)

  datatype Rule = LinearRule(parameters: Option<LinearParameters>) | ExplicitRule | OtherRule

  datatype Dimension = Dimension(linear: bool, size: nat)

  /** The last four fields are texts the model does not look into: the formatted tick scale, sample
      rate and value range. */
  datatype DataDescriptor = DataDescriptor(
    name: string,
    sampleType: SampleType,
    rule: Option<Rule>,
    dimensions: Option<seq<Dimension>>,
    structFields: seq<DataDescriptor>,
    unit: Option<string>,
    range: Option<(string, string)>,
    tickScale: string,
    rateText: string)

  datatype DomainPacket = DomainPacket(descriptor: Option<DataDescriptor>, offset: Option<Int64>, raw: seq<Byte>)

  datatype Packet = Packet(descriptor: Option<DataDescriptor>, domain: Option<DomainPacket>, sampleCount: nat,
                           raw: seq<Byte>)

  /** The description and global id of a signal. */
  datatype Signal = Signal(description: string, globalId: string)

  /** The answer of a supports() predicate: using an absent descriptor throws. */
  datatype Support = Supported | Unsupported | Throws

  /** sampleTypeToSieReadType: the SIE type name and width in bits, if there is one. */
  function SieReadType(t: SampleType): (r: Option<(string, nat)>)
    ensures r.Some? ==> r.value.1 in {8, 16, 32, 64} && r.value.0 in {"float", "uint", "int"}
  {
    match t
    case Float32 => Some(("float", 32))
    case Float64 => Some(("float", 64))
    case UInt8 => Some(("uint", 8))
    case Int8 => Some(("int", 8))
    case UInt16 => Some(("uint", 16))
    case Int16 => Some(("int", 16))
    case UInt32 => Some(("uint", 32))
    case Int32 => Some(("int", 32))
    case UInt64 => Some(("uint", 64))
    case Int64 => Some(("int", 64))
    case _ => None
  }

  predicate IsScalar(t: SampleType) {
    SieReadType(t).Some?
  }

  /** getLinearRuleStartDelta: None where it throws. */
  function LinearStartDelta(d: DataDescriptor): Option<(int, int)> {
    if d.rule.None? || !d.rule.value.LinearRule? || d.rule.value.parameters.None? then None
    else
      var p := d.rule.value.parameters.value;
      Some((if p.start.Some? then p.start.value else 0, if p.delta.Some? then p.delta.value else 1))
  }
}
