/** What the read declared for a struct field takes from a message, in terms of the field's descriptor. */
module CanFields {
  import opened Bytes
  import opened Xml
  import opened Decimal
  import opened Decoders
  import opened SieXml
  import opened Descriptors
  import opened SampleTypes
  import opened Can
  import opened CanCompile
  import opened CanCorrect
  import opened CanMessages

  /** Run here, the statement takes so many bytes into variable k, as this value of them, or fails. */
  predicate TakesHere(s: Stmt, k: nat, size: nat, value: seq<Byte> -> Value, payload: seq<Byte>, m: Machine) {
    Exec(s, payload, m)
    == if m.pos + size > |payload| then None
       else Some(m.(pos := m.pos + size,
                    vars := m.vars["v" + ToDecimal(k) := value(payload[m.pos..m.pos + size])]))
  }

  /** The element is such a read wherever it is run. */
  ghost predicate Takes(e: Element, k: nat, size: nat, value: seq<Byte> -> Value) {
    && Compile(e).Some?
    && forall payload: seq<Byte>, m: Machine :: TakesHere(Compile(e).value, k, size, value, payload, m)
  }

  /** A byte string is read as its bytes, any other field as one number of its type. */
  ghost predicate ReadsField(e: Element, f: DataDescriptor, k: nat, native: Endian) {
    if IsByteString(f) then Takes(e, k, ElementCount(f), bytes => RawValue(bytes))
    else Takes(e, k, ElementSize(f.sampleType), bytes => Number(f.sampleType, native, bytes))
  }

  /** One turn of the declared read. */
  lemma FieldExec(f: DataDescriptor, k: nat, native: Endian, payload: seq<Byte>, m: Machine)
    requires GoodField(f)
    ensures Exec(FieldStmt(f, k, native), payload, m)
         == if m.pos + Width(f) > |payload| then None
            else Some(m.(pos := m.pos + Width(f),
                         vars := m.vars["v" + ToDecimal(k) := FieldValue(f, native, payload[m.pos..m.pos + Width(f)])]))
  {
    hide Exec, FieldStmt, FieldValue, Width;
    if m.pos + Width(f) > |payload| {
      OneFieldFails(f, k, native, payload, m);
    } else {
      OneField(f, k, native, payload, m);
    }
  }

  lemma FieldTakes(f: DataDescriptor, bytes: seq<Byte>, native: Endian)
    requires GoodField(f)
    ensures Width(f) == if IsByteString(f) then ElementCount(f) else ElementSize(f.sampleType)
    ensures |bytes| == Width(f) ==>
              FieldValue(f, native, bytes)
              == if IsByteString(f) then RawValue(bytes) else Number(f.sampleType, native, bytes)
  {
    DeclaredField(f);
    DeclaredRead(f.sampleType);
    if IsByteString(f) {
      OneDimension(f);
    }
  }

  lemma BytesTaken(f: DataDescriptor, k: nat, native: Endian)
    requires GoodField(f) && IsByteString(f)
    ensures Takes(FieldElement(f, k, native), k, ElementCount(f), bytes => RawValue(bytes))
  {
    var value: seq<Byte> -> Value := bytes => RawValue(bytes);
    hide Exec, Compile, FieldElement, FieldStmt, GoodField, Width, FieldValue, IsByteString;
    CompileField(f, k, native);
    FieldTakes(f, [], native);
    forall payload: seq<Byte>, m: Machine ensures TakesHere(FieldStmt(f, k, native), k, Width(f), value, payload, m) {
      FieldExec(f, k, native, payload, m);
      if m.pos + Width(f) <= |payload| {
        FieldTakes(f, payload[m.pos..m.pos + Width(f)], native);
      }
    }
  }

  lemma NumberTaken(f: DataDescriptor, k: nat, native: Endian)
    requires GoodField(f) && !IsByteString(f)
    ensures Takes(FieldElement(f, k, native), k, ElementSize(f.sampleType),
                  bytes => Number(f.sampleType, native, bytes))
  {
    var value: seq<Byte> -> Value := bytes => Number(f.sampleType, native, bytes);
    hide Exec, Number, Compile, ElementSize, FieldElement, FieldStmt, GoodField, Width, FieldValue, IsByteString;
    CompileField(f, k, native);
    FieldTakes(f, [], native);
    forall payload: seq<Byte>, m: Machine ensures TakesHere(FieldStmt(f, k, native), k, Width(f), value, payload, m) {
      FieldExec(f, k, native, payload, m);
      if m.pos + Width(f) <= |payload| {
        FieldTakes(f, payload[m.pos..m.pos + Width(f)], native);
      }
    }
  }

  /** The read of a field does this. */
  lemma {:induction false} FieldIsRead(f: DataDescriptor, k: nat, native: Endian)
    requires GoodField(f)
    ensures ReadsField(FieldElement(f, k, native), f, k, native)
  {
    hide GoodField, FieldElement, Takes, IsByteString;
    if IsByteString(f) {
      BytesTaken(f, k, native);
    } else {
      NumberTaken(f, k, native);
    }
  }

  lemma OneDimension(f: DataDescriptor)
    requires IsByteString(f)
    ensures ElementCount(f) == f.dimensions.value[0].size
  {
    assert f.dimensions.value[1..] == [];
    assert Elements(f.dimensions.value) == f.dimensions.value[0].size * 1;
  }
}
