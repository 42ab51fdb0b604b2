/** The handler for CAN message signals: a decoder with two seeks per turn walks a block of domain
    values and a block of 69-byte messages side by side. */
module Can {
  import opened Bytes
  import opened Xml
  import opened Decimal
  import opened Decoders
  import opened SieXml
  import opened Descriptors

  /** sizeof(opendaq_can_message). */
  const MESSAGE: nat := 69

  function Supports(value: Option<DataDescriptor>, domain: Option<DataDescriptor>): Support {
    if domain.None? then Throws
    else if domain.value.rule != Some(ExplicitRule) then Unsupported
    else if value.None? then Throws
    else if value.value.rule != Some(ExplicitRule) then Unsupported
    else if value.value.sampleType != Struct then Unsupported
    else Supported
  }

  // ----- Fields -----

  /** A field that is a one-dimensional array of bytes is read raw. */
  predicate IsRawField(f: DataDescriptor) {
    && (f.sampleType == Int8 || f.sampleType == UInt8)
    && f.dimensions.Some? && |f.dimensions.value| == 1 && f.dimensions.value[0].linear
  }

  predicate GoodField(f: DataDescriptor) {
    IsRawField(f) || SieReadType(f.sampleType).Some?
  }

  predicate GoodFields(fields: seq<DataDescriptor>) {
    forall i :: 0 <= i < |fields| ==> GoodField(fields[i])
  }

  function Width(f: DataDescriptor): nat
    requires GoodField(f)
  {
    if IsRawField(f) then f.dimensions.value[0].size else SieReadType(f.sampleType).value.1 / 8
  }

  function TotalWidth(fields: seq<DataDescriptor>): nat
    requires GoodFields(fields)
  {
    if fields == [] then 0 else Width(fields[0]) + TotalWidth(fields[1..])
  }

  function Variable(k: nat): string {
    "v" + ToDecimal(k)
  }

  function FieldElement(f: DataDescriptor, k: nat, native: Endian): Element
    requires GoodField(f)
  {
    if IsRawField(f) then ReadRawElement(Variable(k), f.dimensions.value[0].size)
    else ReadElement(Variable(k), SieReadType(f.sampleType).value.0, SieReadType(f.sampleType).value.1, native)
  }

  function FieldElements(fields: seq<DataDescriptor>, k: nat, native: Endian): seq<Element>
    requires GoodFields(fields)
  {
    if fields == [] then [] else [FieldElement(fields[0], k, native)] + FieldElements(fields[1..], k + 1, native)
  }

  function FieldStmt(f: DataDescriptor, k: nat, native: Endian): Stmt
    requires GoodField(f)
  {
    if IsRawField(f) then ReadRaw(Variable(k), Num(f.dimensions.value[0].size), None)
    else Read(Variable(k), KindOf(SieReadType(f.sampleType).value.0).value, SieReadType(f.sampleType).value.1, native,
              None)
  }

  function FieldStmts(fields: seq<DataDescriptor>, k: nat, native: Endian): seq<Stmt>
    requires GoodFields(fields)
  {
    if fields == [] then [] else [FieldStmt(fields[0], k, native)] + FieldStmts(fields[1..], k + 1, native)
  }

  /** The value of one field, and of all fields of a message laid end to end. */
  function FieldValue(f: DataDescriptor, native: Endian, bytes: seq<Byte>): Value
    requires GoodField(f)
  {
    if IsRawField(f) then RawValue(bytes)
    else Typed(KindOf(SieReadType(f.sampleType).value.0).value, native, bytes)
  }

  function FieldValues(fields: seq<DataDescriptor>, native: Endian, bytes: seq<Byte>): (r: seq<Value>)
    requires GoodFields(fields) && TotalWidth(fields) <= |bytes|
    ensures |r| == |fields|
  {
    if fields == [] then []
    else
      [FieldValue(fields[0], native, bytes[..Width(fields[0])])]
      + FieldValues(fields[1..], native, bytes[Width(fields[0])..])
  }

  function Columns(k: nat, count: nat): seq<string>
    decreases count
  {
    if count == 0 then [] else [Variable(k)] + Columns(k + 1, count - 1)
  }

  // ----- The decoder -----

  function MessageOffset(width: nat): Expr {
    Add(Add(Num(4), Mul(Num(width), Var("n"))), Mul(Num(MESSAGE), Var("i")))
  }

  function NextOffset(width: nat): Expr {
    Add(Num(4 + width), Mul(Num(width), Var("i")))
  }

  function MessageOffsetText(width: nat): string {
    "{" + ToDecimal(4) + " + (" + ToDecimal(width) + " * $n) + (69 * $i)}"
  }

  function NextOffsetText(width: nat): string {
    "{" + ToDecimal(4 + width) + " + (" + ToDecimal(width) + " * $i)}"
  }

  function LoopChildren(kind: string, bits: nat, fields: seq<DataDescriptor>, native: Endian): seq<Element>
    requires GoodFields(fields)
  {
    [ReadElement("v0", kind, bits, native), SeekElement("start", MessageOffsetText(bits / 8))]
    + FieldElements(fields, 1, native)
    + [SampleElement(), SeekElement("start", NextOffsetText(bits / 8))]
  }

  function LoopElement(kind: string, bits: nat, fields: seq<DataDescriptor>, native: Endian): Element
    requires GoodFields(fields)
  {
    New("loop").AddAttribute("var", "i").AddAttribute("start", "0").AddAttribute("end", "{$n}")
    .(children := LoopChildren(kind, bits, fields, native))
  }

  function Decoder(id: nat, kind: string, bits: nat, fields: seq<DataDescriptor>, native: Endian): Element
    requires GoodFields(fields)
  {
    DecoderElement(id).AddChild(ReadElement("n", "uint", 32, native)).AddChild(LoopElement(kind, bits, fields, native))
  }

  predicate IsBody(body: seq<Stmt>, kind: Kind, bits: nat, fields: seq<DataDescriptor>, native: Endian)
    requires GoodFields(fields)
  {
    body == [Read("v0", kind, bits, native, None), Seek(MessageOffset(bits / 8))]
            + FieldStmts(fields, 1, native)
            + [Sample, Seek(NextOffset(bits / 8))]
  }

  predicate IsProgram(program: seq<Stmt>, kind: Kind, bits: nat, fields: seq<DataDescriptor>, native: Endian)
    requires GoodFields(fields)
  {
    && |program| == 2
    && program[0] == Read("n", UInt, 32, native, None)
    && program[1].Loop?
    && program[1] == Loop(Some("i"), Num(0), Num(1), Some(Var("n")), program[1].body)
    && IsBody(program[1].body, kind, bits, fields, native)
  }
}
