/** What a packet of CAN messages holds by its descriptors alone: how long its fields are, where they lie
    and what they say. */
module CanMessages {
  import opened Bytes
  import opened Decoders
  import opened Descriptors
  import opened SampleTypes
  import opened Can
  import opened CanCorrect

  // ----- Fields -----

  function MessageSize(fields: seq<DataDescriptor>): nat {
    if fields == [] then 0 else FieldSize(fields[0]) + MessageSize(fields[1..])
  }

  /** What a field says: byte strings and arrays are their bytes, a single element is a number. */
  function TrueValue(f: DataDescriptor, native: Endian, bytes: seq<Byte>): Value {
    if IsByteString(f) || ElementCount(f) != 1 then RawValue(bytes) else Number(f.sampleType, native, bytes)
  }

  function TrueValues(fields: seq<DataDescriptor>, native: Endian, message: seq<Byte>): (r: seq<Value>)
    requires MessageSize(fields) <= |message|
    ensures |r| == |fields|
  {
    if fields == [] then []
    else
      var size := FieldSize(fields[0]);
      [TrueValue(fields[0], native, message[..size])] + TrueValues(fields[1..], native, message[size..])
  }

  // ----- Samples -----

  lemma SliceIsItem(bytes: seq<Byte>, size: nat, i: nat)
    requires (i + 1) * size <= |bytes|
    ensures Slice(bytes, size, i) == Item(bytes, size, i)
  {
    assert (i + 1) * size == i * size + size;
  }

  /** Message i: the messages of a packet lie end to end. */
  function Message(fields: seq<DataDescriptor>, raw: seq<Byte>, i: nat): (r: seq<Byte>)
    requires (i + 1) * MessageSize(fields) <= |raw|
    ensures |r| == MessageSize(fields)
  {
    Slice(raw, MessageSize(fields), i)
  }

  /** Sample i: its domain value and the fields of its message. */
  function TrueSample(t: SampleType, native: Endian, fields: seq<DataDescriptor>, domain: seq<Byte>, raw: seq<Byte>,
                      i: nat): seq<Value>
    requires (i + 1) * ElementSize(t) <= |domain| && (i + 1) * MessageSize(fields) <= |raw|
  {
    [Number(t, native, Slice(domain, ElementSize(t), i))] + TrueValues(fields, native, Message(fields, raw, i))
  }

  /** The samples of a packet that holds so many, with domain values of this type. */
  function TrueSamples(t: SampleType, native: Endian, fields: seq<DataDescriptor>, domain: seq<Byte>, raw: seq<Byte>,
                       count: nat): (r: seq<seq<Value>>)
    requires count * ElementSize(t) <= |domain| && count * MessageSize(fields) <= |raw|
    ensures |r| == count
  {
    seq(count, i requires 0 <= i < count =>
      (Below(i + 1, count, ElementSize(t));
       Below(i + 1, count, MessageSize(fields));
       TrueSample(t, native, fields, domain, raw, i)))
  }

  // ----- Which fields the declared reads read as a whole -----

  /** The read declared for the field reads all of it. */
  predicate ReadWhole(f: DataDescriptor) {
    IsByteString(f) || ElementCount(f) == 1
  }

  predicate AllReadWhole(fields: seq<DataDescriptor>) {
    forall k :: 0 <= k < |fields| ==> ReadWhole(fields[k])
  }

  /** Raw reads are declared for byte strings, and fields that can be declared are made of numbers. */
  lemma {:induction false} DeclaredField(f: DataDescriptor)
    ensures IsRawField(f) <==> IsByteString(f)
    ensures GoodField(f) <==> IsNumber(f.sampleType)
  {
    DeclaredRead(f.sampleType);
  }

  lemma {:induction false} DeclaredFields(fields: seq<DataDescriptor>)
    ensures GoodFields(fields) <==> AllNumbers(fields)
  {
    hide GoodField, IsNumber;
    forall k | 0 <= k < |fields| ensures GoodField(fields[k]) <==> IsNumber(fields[k].sampleType) {
      DeclaredField(fields[k]);
    }
  }

  lemma WholeField(f: DataDescriptor, native: Endian, bytes: seq<Byte>)
    requires GoodField(f) && ReadWhole(f)
    ensures Width(f) == FieldSize(f)
    ensures |bytes| == Width(f) ==> FieldValue(f, native, bytes) == TrueValue(f, native, bytes)
  {
    DeclaredField(f);
    DeclaredRead(f.sampleType);
    if IsRawField(f) {
      assert f.dimensions.value[1..] == [];
      assert Elements(f.dimensions.value) == f.dimensions.value[0].size * 1;
    }
  }

  lemma {:induction false} WholeWidth(fields: seq<DataDescriptor>)
    requires GoodFields(fields) && AllReadWhole(fields)
    ensures TotalWidth(fields) == MessageSize(fields)
  {
    if fields != [] {
      WholeField(fields[0], Big, []);
      WholeWidth(fields[1..]);
    }
  }

  lemma {:induction false} WholeValues(fields: seq<DataDescriptor>, native: Endian, message: seq<Byte>)
    requires GoodFields(fields) && AllReadWhole(fields) && TotalWidth(fields) <= |message|
    ensures MessageSize(fields) <= |message|
    ensures FieldValues(fields, native, message) == TrueValues(fields, native, message)
    decreases |fields|
  {
    WholeWidth(fields);
    if fields != [] {
      var w := Width(fields[0]);
      WholeField(fields[0], native, message[..w]);
      WholeValues(fields[1..], native, message[w..]);
    }
  }

  /** A field that is not read whole is an array read as a single number. */
  lemma {:induction false} ReadAsNumber(fields: seq<DataDescriptor>, native: Endian, a: seq<Byte>, b: seq<Byte>, k: nat)
    requires GoodFields(fields) && TotalWidth(fields) <= |a| && MessageSize(fields) <= |b|
    requires k < |fields| && !ReadWhole(fields[k])
    ensures FieldValues(fields, native, a)[k] != TrueValues(fields, native, b)[k]
    decreases |fields|
  {
    hide ElementSize, Elements, SieReadType, Number;
    if k > 0 {
      ReadAsNumber(fields[1..], native, a[Width(fields[0])..], b[FieldSize(fields[0])..], k - 1);
    } else {
      DeclaredField(fields[0]);
    }
  }
}
