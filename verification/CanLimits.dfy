/** When the packets the CAN handler accepts decode to the samples they hold. */
module CanLimits {
  import opened Bytes
  import opened Decoders
  import opened Descriptors
  import opened SampleTypes
  import opened Can
  import opened CanCorrect
  import opened CanMessages
  import SieXml

  // ----- Different bytes are different values -----

  lemma {:induction false} BeInjective(a: seq<Byte>, b: seq<Byte>)
    requires |a| == |b| && BeValue(a) == BeValue(b)
    ensures a == b
  {
    if a != [] {
      BeInjective(a[..|a| - 1], b[..|b| - 1]);
      assert a == a[..|a| - 1] + [a[|a| - 1]] && b == b[..|b| - 1] + [b[|b| - 1]];
    }
  }

  lemma {:induction false} LeInjective(a: seq<Byte>, b: seq<Byte>)
    requires |a| == |b| && LeValue(a) == LeValue(b)
    ensures a == b
  {
    if a != [] {
      LeInjective(a[1..], b[1..]);
    }
  }

  lemma {:induction false} DecodeInjective(e: Endian, a: seq<Byte>, b: seq<Byte>)
    requires |a| == |b| && Decode(e, a) == Decode(e, b)
    ensures a == b
  {
    if e.Big? {
      BeInjective(a, b);
    } else {
      LeInjective(a, b);
    }
  }

  lemma {:induction false} BeBound(a: seq<Byte>)
    ensures BeValue(a) < Pow256(|a|)
  {
    if a != [] {
      BeBound(a[..|a| - 1]);
    }
  }

  lemma {:induction false} LeBound(a: seq<Byte>)
    ensures LeValue(a) < Pow256(|a|)
  {
    if a != [] {
      LeBound(a[1..]);
    }
  }

  lemma {:induction false} SignedInjective(m: nat, n: nat, k: nat)
    requires k > 0 && m < Pow256(k) && n < Pow256(k) && Signed(m, k) == Signed(n, k)
    ensures m == n
  {
  }

  lemma {:induction false} TypedInjective(kind: Kind, e: Endian, a: seq<Byte>, b: seq<Byte>)
    requires |a| == |b| > 0 && Typed(kind, e, a) == Typed(kind, e, b)
    ensures a == b
  {
    if kind.Int? {
      BeBound(a);
      BeBound(b);
      LeBound(a);
      LeBound(b);
      SignedInjective(Decode(e, a), Decode(e, b), |a|);
    }
    DecodeInjective(e, a, b);
  }

  function KindOfField(f: DataDescriptor): Kind
    requires GoodField(f)
  {
    SieXml.KindOf(SieReadType(f.sampleType).value.0).value
  }

  lemma {:induction false} FieldInjective(f: DataDescriptor, e: Endian, a: seq<Byte>, b: seq<Byte>)
    requires GoodField(f) && |a| == |b| > 0 && FieldValue(f, e, a) == FieldValue(f, e, b)
    ensures a == b
  {
    if !IsRawField(f) {
      TypedInjective(KindOfField(f), e, a, b);
    }
  }

  /** Fields read from bytes that differ at the start have different values. */
  lemma {:induction false} FieldsInjective(fields: seq<DataDescriptor>, e: Endian, a: seq<Byte>, b: seq<Byte>)
    requires GoodFields(fields) && |a| == |b| == TotalWidth(fields) > 0 && a[0] != b[0]
    ensures FieldValues(fields, e, a) != FieldValues(fields, e, b)
    decreases |fields|
  {
    var w := Width(fields[0]);
    if w > 0 {
      assert a[..w][0] == a[0] && b[..w][0] == b[0];
      if FieldValue(fields[0], e, a[..w]) == FieldValue(fields[0], e, b[..w]) {
        FieldInjective(fields[0], e, a[..w], b[..w]);
      }
      assert FieldValues(fields, e, a)[0] != FieldValues(fields, e, b)[0];
    } else {
      FieldsInjective(fields[1..], e, a[w..], b[w..]);
      assert FieldValues(fields, e, a)[1..] == FieldValues(fields[1..], e, a[w..]);
      assert FieldValues(fields, e, b)[1..] == FieldValues(fields[1..], e, b[w..]);
    }
  }

  // ----- Samples that pair up -----

  /** A packet the CAN handler for these descriptors accepts, of these sizes. */
  predicate Accepted(native: Endian, packet: Packet, value: DataDescriptor, domain: DataDescriptor, count: nat,
                     domainSize: nat) {
    && DataPayload(native, packet).Some? && packet.sampleCount == count
    && packet.descriptor == Some(value) && packet.domain.value.descriptor == Some(domain)
    && |packet.domain.value.raw| == domainSize
  }

  /** The packet holds its samples, and the reader gets exactly these: sample i is domain value i with all
      of the fields of message i. */
  ghost predicate PairsUp(program: seq<Stmt>, t: SampleType, fields: seq<DataDescriptor>, native: Endian,
                          packet: Packet)
    requires DataPayload(native, packet).Some?
  {
    var (r, n) := (RunDecoder(program, DataPayload(native, packet).value), packet.sampleCount);
    && n * ElementSize(t) <= |packet.domain.value.raw| && n * MessageSize(fields) <= |packet.raw|
    && r.Some?
    && Rows(r.value.samples, Columns(0, 1 + |fields|))
       == Some(TrueSamples(t, native, fields, packet.domain.value.raw, packet.raw, n))
  }

  /** The samples the declared reads take from a packet, and those it holds. */
  lemma {:induction false} ReadSamples(program: seq<Stmt>, t: SampleType, kind: Kind, bits: nat,
                                       fields: seq<DataDescriptor>, native: Endian, packet: Packet, n: nat,
                                       cut: nat)
    requires GoodFields(fields) && ReadAs(t, kind, bits) && IsProgram(program, kind, bits, fields, native)
    requires DataPayload(native, packet).Some?
    requires packet.sampleCount * MessageSize(fields) <= |packet.raw|
    requires packet.sampleCount * ElementSize(t) <= |packet.domain.value.raw|
    requires n == packet.sampleCount % 0x1_0000_0000 && cut == n * (bits / 8)
    ensures cut <= |packet.domain.value.raw|
    ensures var messages := packet.domain.value.raw[cut..] + packet.raw;
            PairsUp(program, t, fields, native, packet)
            <==> Room(fields, messages, n)
                 && SamplesFrom(kind, native, bits / 8, fields, packet.domain.value.raw[..cut], messages, 0, n)
                    == TrueSamples(t, native, fields, packet.domain.value.raw, packet.raw, packet.sampleCount)
  {
    hide RunDecoder, IsProgram, Rows, SamplesFrom, TrueSamples, Room, MessageSize, GoodFields, Columns, ReadAs,
      ElementSize;
    WidthOf(t, kind, bits);
    AcceptedPacket(program, kind, bits, fields, native, packet);
  }

  lemma {:induction false} SampleRead(kind: Kind, native: Endian, width: nat, fields: seq<DataDescriptor>,
                                      domain: seq<Byte>, messages: seq<Byte>, i: nat, count: nat, k: nat)
    requires GoodFields(fields) && i + k < count
    requires count * width <= |domain| && Room(fields, messages, count)
    ensures (i + k + 1) * width <= |domain| && (i + k) * MESSAGE + TotalWidth(fields) <= |messages|
    ensures SamplesFrom(kind, native, width, fields, domain, messages, i, count)[k]
         == SampleOf(kind, native, width, fields, domain, messages, i + k)
    decreases k
  {
    hide SampleOf;
    Below(i + k + 1, count, width);
    RoomForEach(fields, messages, count, i + k);
    if k > 0 {
      SampleRead(kind, native, width, fields, domain, messages, i + 1, count, k - 1);
    }
  }

  lemma SampleHeld(t: SampleType, native: Endian, fields: seq<DataDescriptor>, domain: seq<Byte>, raw: seq<Byte>,
                   count: nat, i: nat)
    requires count * ElementSize(t) <= |domain| && count * MessageSize(fields) <= |raw| && i < count
    ensures (i + 1) * ElementSize(t) <= |domain| && (i + 1) * MessageSize(fields) <= |raw|
    ensures TrueSamples(t, native, fields, domain, raw, count)[i]
         == TrueSample(t, native, fields, domain, raw, i)
  {
    hide TrueSample;
    Below(i + 1, count, ElementSize(t));
    Below(i + 1, count, MessageSize(fields));
  }

  // ----- Sizes that are right -----

  /** What the fields and sizes have to be for every accepted packet to be read back rightly. */
  predicate RightSizes(t: SampleType, fields: seq<DataDescriptor>, count: nat, domainSize: nat)
  {
    || count == 0
    || (&& count < 0x1_0000_0000 && AllReadWhole(fields)
        && (|| MessageSize(fields) == 0
            || (&& ElementSize(t) == 8 && domainSize == count * 8
                && (MessageSize(fields) == MESSAGE || (MessageSize(fields) < MESSAGE && count == 1)))))
  }

  /** Accepted packets of the right sizes hold their samples. */
  lemma RightSizesFit(t: SampleType, fields: seq<DataDescriptor>, native: Endian, packet: Packet)
    requires DataPayload(native, packet).Some?
    requires RightSizes(t, fields, packet.sampleCount, |packet.domain.value.raw|)
    ensures packet.sampleCount * ElementSize(t) <= |packet.domain.value.raw|
    ensures packet.sampleCount * MessageSize(fields) <= |packet.raw|
  {
    hide MessageSize, AllReadWhole, Payload;
    var n := packet.sampleCount;
    if n > 0 {
      assert n % 0x1_0000_0000 == n;
      Below(ElementSize(t), 8, n);
      Below(1, n, MESSAGE);
      assert MessageSize(fields) == 0 ==> n * MessageSize(fields) == 0;
    }
  }

  lemma ItemOfPrefix(bytes: seq<Byte>, width: nat, cut: nat, i: nat)
    requires (i + 1) * width <= cut <= |bytes|
    ensures Item(bytes[..cut], width, i) == Item(bytes, width, i)
  {
    assert (i + 1) * width == i * width + width;
    DoubleSlice(bytes, 0, cut, i * width, width);
    assert bytes[0..cut] == bytes[..cut];
  }

  /** Message i is where the reader looks for it. */
  ghost predicate Found(fields: seq<DataDescriptor>, messages: seq<Byte>, raw: seq<Byte>, i: nat)
    requires GoodFields(fields)
  {
    && i * MESSAGE + TotalWidth(fields) <= |messages| && (i + 1) * MessageSize(fields) <= |raw|
    && FieldBytes(fields, messages, i) == Message(fields, raw, i)
  }

  lemma FoundIsRead(t: SampleType, kind: Kind, native: Endian, width: nat, fields: seq<DataDescriptor>,
                    domain: seq<Byte>, cut: nat, messages: seq<Byte>, raw: seq<Byte>, i: nat)
    requires ReadAs(t, kind, 8 * width) && GoodFields(fields) && AllReadWhole(fields)
    requires (i + 1) * width <= cut <= |domain|
    requires Found(fields, messages, raw, i)
    ensures SampleOf(kind, native, width, fields, domain[..cut], messages, i)
         == TrueSample(t, native, fields, domain, raw, i)
  {
    hide Item, FieldValues, TrueValues, Message, FieldBytes, AllReadWhole, TotalWidth, MessageSize;
    ItemOfPrefix(domain, width, cut, i);
    SliceIsItem(domain, width, i);
    WholeValues(fields, native, FieldBytes(fields, messages, i));
  }

  lemma EmptyIsFound(fields: seq<DataDescriptor>, messages: seq<Byte>, raw: seq<Byte>, i: nat)
    requires GoodFields(fields) && TotalWidth(fields) == MessageSize(fields) == 0 && i * MESSAGE <= |messages|
    ensures Found(fields, messages, raw, i)
  {
    hide MessageSize, TotalWidth, GoodFields;
    assert (i + 1) * MessageSize(fields) == 0;
  }

  lemma AlignedIsFound(fields: seq<DataDescriptor>, raw: seq<Byte>, i: nat)
    requires GoodFields(fields) && TotalWidth(fields) == MessageSize(fields) && (i + 1) * MESSAGE <= |raw|
    requires MessageSize(fields) == MESSAGE || (MessageSize(fields) < MESSAGE && i == 0)
    ensures Found(fields, raw, raw, i)
  {
    hide MessageSize, TotalWidth, GoodFields;
  }

  lemma MessageIsFound(t: SampleType, cut: nat, fields: seq<DataDescriptor>, domain: seq<Byte>, raw: seq<Byte>,
                       count: nat, i: nat)
    requires GoodFields(fields) && RightSizes(t, fields, count, |domain|) && i < count
    requires cut == count * ElementSize(t) <= |domain| && count * MESSAGE <= |raw|
    ensures Found(fields, domain[cut..] + raw, raw, i)
  {
    hide GoodFields, MessageSize, TotalWidth, AllReadWhole, Found, ElementSize;
    WholeWidth(fields);
    Below(i + 1, count, MESSAGE);
    assert (i + 1) * MESSAGE == i * MESSAGE + MESSAGE;
    if MessageSize(fields) == 0 {
      EmptyIsFound(fields, domain[cut..] + raw, raw, i);
    } else {
      assert cut == |domain|;
      assert domain[cut..] + raw == raw;
      AlignedIsFound(fields, raw, i);
    }
  }

  lemma RoomForRight(t: SampleType, cut: nat, fields: seq<DataDescriptor>, domain: seq<Byte>, raw: seq<Byte>,
                     count: nat)
    requires GoodFields(fields) && RightSizes(t, fields, count, |domain|) && count * MESSAGE <= |raw|
    requires cut <= |domain|
    ensures Room(fields, domain[cut..] + raw, count)
  {
    hide GoodFields;
    if count > 0 {
      WholeWidth(fields);
      RoomInMessages(fields, domain[cut..] + raw, count);
    }
  }

  lemma SamplesAgree(t: SampleType, kind: Kind, native: Endian, bits: nat, fields: seq<DataDescriptor>,
                     domain: seq<Byte>, raw: seq<Byte>, count: nat, cut: nat)
    requires GoodFields(fields) && ReadAs(t, kind, bits) && RightSizes(t, fields, count, |domain|)
    requires cut == count * (bits / 8) == count * ElementSize(t) <= |domain|
    requires count * MessageSize(fields) <= |raw| && count * MESSAGE <= |raw|
    requires Room(fields, domain[cut..] + raw, count)
    ensures SamplesFrom(kind, native, bits / 8, fields, domain[..cut], domain[cut..] + raw, 0, count)
         == TrueSamples(t, native, fields, domain, raw, count)
  {
    hide SamplesFrom, TrueSamples, SampleOf, TrueSample, Room, GoodFields, MessageSize, TotalWidth, Found, ReadAs,
      RightSizes, ElementSize;
    WidthOf(t, kind, bits);
    var width := bits / 8;
    var read := SamplesFrom(kind, native, width, fields, domain[..cut], domain[cut..] + raw, 0, count);
    assert AllReadWhole(fields) || count == 0 by {
      RightFieldsWhole(t, fields, count, |domain|);
    }
    forall i | 0 <= i < count ensures read[i] == TrueSamples(t, native, fields, domain, raw, count)[i] {
      SampleRead(kind, native, width, fields, domain[..cut], domain[cut..] + raw, 0, count, i);
      SampleHeld(t, native, fields, domain, raw, count, i);
      MessageIsFound(t, cut, fields, domain, raw, count, i);
      Below(i + 1, count, width);
      FoundIsRead(t, kind, native, width, fields, domain, cut, domain[cut..] + raw, raw, i);
    }
  }

  lemma RightFieldsWhole(t: SampleType, fields: seq<DataDescriptor>, count: nat, domainSize: nat)
    requires RightSizes(t, fields, count, domainSize)
    ensures AllReadWhole(fields) || count == 0
  {
  }

  /** Accepted packets of the right sizes are read back rightly. */
  lemma {:induction false} RightSizesPair(program: seq<Stmt>, t: SampleType, kind: Kind, bits: nat,
                                          fields: seq<DataDescriptor>,
                                          native: Endian, packet: Packet)
    requires GoodFields(fields) && ReadAs(t, kind, bits) && IsProgram(program, kind, bits, fields, native)
    requires DataPayload(native, packet).Some?
    requires RightSizes(t, fields, packet.sampleCount, |packet.domain.value.raw|)
    ensures PairsUp(program, t, fields, native, packet)
  {
    hide PairsUp, IsProgram, SamplesFrom, TrueSamples, MessageSize, GoodFields, Room;
    var n := packet.sampleCount;
    assert n % 0x1_0000_0000 == n;
    RightSizesFit(t, fields, native, packet);
    WidthOf(t, kind, bits);
    WidthBound(n, bits);
    var cut := n * (bits / 8);
    RoomForRight(t, cut, fields, packet.domain.value.raw, packet.raw, n);
    SamplesAgree(t, kind, native, bits, fields, packet.domain.value.raw, packet.raw, n, cut);
    ReadSamples(program, t, kind, bits, fields, native, packet, n, cut);
  }

  // ----- Sizes that are wrong -----

  function Repeat(b: Byte, n: nat): (r: seq<Byte>)
    ensures |r| == n
  {
    seq(n, i => b)
  }

  /** Messages of 69 bytes that are all 255, but for the first byte of the second one. */
  function TellingMessages(n: nat): (r: seq<Byte>)
    ensures |r| == n * MESSAGE
  {
    Below(if n > 1 then 2 else 0, n, MESSAGE);
    if n > 1 then Repeat(255, n * MESSAGE)[MESSAGE := 0] else Repeat(255, n * MESSAGE)
  }

  /** A packet whose domain bytes are all 0. */
  function Telling(value: DataDescriptor, domain: DataDescriptor, count: nat, domainSize: nat): Packet {
    Packet(Some(value), Some(DomainPacket(Some(domain), None, Repeat(0, domainSize))), count,
           TellingMessages(count % 0x1_0000_0000))
  }

  lemma TellingIsAccepted(native: Endian, value: DataDescriptor, domain: DataDescriptor, count: nat, domainSize: nat)
    requires domainSize >= count % 0x1_0000_0000 * 8
    ensures Accepted(native, Telling(value, domain, count, domainSize), value, domain, count, domainSize)
  {
  }

  /** With more samples than 32 bits can count, some are not read. */
  lemma TooManySamples(program: seq<Stmt>, t: SampleType, kind: Kind, bits: nat, fields: seq<DataDescriptor>,
                       native: Endian,
                       packet: Packet)
    requires GoodFields(fields) && ReadAs(t, kind, bits) && IsProgram(program, kind, bits, fields, native)
    requires DataPayload(native, packet).Some? && packet.sampleCount >= 0x1_0000_0000
    ensures !PairsUp(program, t, fields, native, packet)
  {
    hide RunDecoder, IsProgram, Rows, SamplesFrom, Room, GoodFields, MessageSize, Columns, TrueSamples;
    if PairsUp(program, t, fields, native, packet) {
      var n := packet.sampleCount % 0x1_0000_0000;
      WidthOf(t, kind, bits);
      WidthBound(n, bits);
      ReadSamples(program, t, kind, bits, fields, native, packet, n, n * (bits / 8));
    }
  }

  /** The reader's sample i is the sample i of the packet. */
  predicate ReadAsHeld(t: SampleType, kind: Kind, native: Endian, width: nat, fields: seq<DataDescriptor>,
                       domain: seq<Byte>, cut: nat, messages: seq<Byte>, raw: seq<Byte>, i: nat)
    requires GoodFields(fields) && width == ElementSize(t)
  {
    && (i + 1) * width <= cut <= |domain|
    && i * MESSAGE + TotalWidth(fields) <= |messages| && (i + 1) * MessageSize(fields) <= |raw|
    && SampleOf(kind, native, width, fields, domain[..cut], messages, i)
       == TrueSample(t, native, fields, domain, raw, i)
  }

  /** One sample that is not what the packet holds there. */
  lemma SampleMisread(program: seq<Stmt>, t: SampleType, kind: Kind, bits: nat, fields: seq<DataDescriptor>,
                      native: Endian, packet: Packet, i: nat, cut: nat)
    requires GoodFields(fields) && ReadAs(t, kind, bits) && IsProgram(program, kind, bits, fields, native)
    requires DataPayload(native, packet).Some? && i < packet.sampleCount < 0x1_0000_0000
    requires bits / 8 == ElementSize(t) && cut == packet.sampleCount * (bits / 8)
    requires var domain := packet.domain.value.raw;
             cut <= |domain| ==>
               !ReadAsHeld(t, kind, native, bits / 8, fields, domain, cut, domain[cut..] + packet.raw, packet.raw, i)
    ensures !PairsUp(program, t, fields, native, packet)
  {
    hide RunDecoder, IsProgram, Rows, SamplesFrom, Room, GoodFields, MessageSize, Columns, TrueSamples, TotalWidth,
      SampleOf, TrueSample, ReadAs, ElementSize;
    if PairsUp(program, t, fields, native, packet) {
      var n, domain := packet.sampleCount, packet.domain.value.raw;
      assert n % 0x1_0000_0000 == n;
      ReadSamples(program, t, kind, bits, fields, native, packet, n, cut);
      Below(i + 1, n, bits / 8);
      SampleRead(kind, native, bits / 8, fields, domain[..cut], domain[cut..] + packet.raw, 0, n, i);
      SampleHeld(t, native, fields, domain, packet.raw, n, i);
    }
  }

  lemma ArraySample(t: SampleType, kind: Kind, native: Endian, width: nat, fields: seq<DataDescriptor>,
                    domain: seq<Byte>,
                    cut: nat,
                    messages: seq<Byte>, raw: seq<Byte>, i: nat)
    requires GoodFields(fields) && !AllReadWhole(fields) && width == ElementSize(t)
    ensures !ReadAsHeld(t, kind, native, width, fields, domain, cut, messages, raw, i)
  {
    hide FieldValues, TrueValues, Item, FieldBytes, GoodFields, MessageSize, TotalWidth, Message;
    if ReadAsHeld(t, kind, native, width, fields, domain, cut, messages, raw, i) {
      var k :| 0 <= k < |fields| && !ReadWhole(fields[k]);
      var (a, b) := (FieldBytes(fields, messages, i), Message(fields, raw, i));
      assert SampleOf(kind, native, width, fields, domain[..cut], messages, i)[1..] == FieldValues(fields, native, a);
      assert TrueSample(t, native, fields, domain, raw, i)[1..] == TrueValues(fields, native, b);
      ReadAsNumber(fields, native, a, b, k);
    }
  }

  lemma ByteSample(t: SampleType, kind: Kind, native: Endian, width: nat, fields: seq<DataDescriptor>,
                   domain: seq<Byte>,
                    cut: nat,
                   messages: seq<Byte>, raw: seq<Byte>, i: nat)
    requires GoodFields(fields) && AllReadWhole(fields) && MessageSize(fields) > 0 && width == ElementSize(t)
    requires i * MESSAGE < |messages| && i * MessageSize(fields) < |raw|
    requires messages[i * MESSAGE] != raw[i * MessageSize(fields)]
    ensures !ReadAsHeld(t, kind, native, width, fields, domain, cut, messages, raw, i)
  {
    hide FieldValues, TrueValues, GoodFields, MessageSize, TotalWidth;
    if ReadAsHeld(t, kind, native, width, fields, domain, cut, messages, raw, i) {
      WholeWidth(fields);
      var (a, b) := (FieldBytes(fields, messages, i), Message(fields, raw, i));
      WholeValues(fields, native, b);
      assert SampleOf(kind, native, width, fields, domain[..cut], messages, i)[1..] == FieldValues(fields, native, a);
      assert TrueSample(t, native, fields, domain, raw, i)[1..] == TrueValues(fields, native, b);
      FieldsInjective(fields, native, a, b);
    }
  }

  /** An array that is not read whole is misread in every sample of every packet. */
  lemma {:induction false} ArrayIsMisread(program: seq<Stmt>, t: SampleType, kind: Kind, bits: nat,
                                          fields: seq<DataDescriptor>,
                                          native: Endian, packet: Packet)
    requires GoodFields(fields) && ReadAs(t, kind, bits) && IsProgram(program, kind, bits, fields, native)
    requires DataPayload(native, packet).Some? && packet.sampleCount > 0 && !AllReadWhole(fields)
    ensures !PairsUp(program, t, fields, native, packet)
  {
    hide IsProgram, GoodFields, PairsUp, MessageSize, AllReadWhole, ReadAsHeld, TotalWidth, ReadAs, ElementSize;
    var n, domain := packet.sampleCount, packet.domain.value.raw;
    WidthOf(t, kind, bits);
    if n >= 0x1_0000_0000 {
      TooManySamples(program, t, kind, bits, fields, native, packet);
    } else {
      WidthBound(n, bits);
      var cut := n * (bits / 8);
      if cut <= |domain| {
        ArraySample(t, kind, native, bits / 8, fields, domain, cut, domain[cut..] + packet.raw, packet.raw, 0);
      }
      SampleMisread(program, t, kind, bits, fields, native, packet, 0, cut);
    }
  }

  /** A message whose first byte is not the one the reader finds in its place is misread. */
  lemma FirstByteTells(program: seq<Stmt>, t: SampleType, kind: Kind, bits: nat, fields: seq<DataDescriptor>,
                       native: Endian, packet: Packet, i: nat, cut: nat, sought: nat, held: nat)
    requires GoodFields(fields) && ReadAs(t, kind, bits) && IsProgram(program, kind, bits, fields, native)
    requires DataPayload(native, packet).Some? && i < packet.sampleCount < 0x1_0000_0000
    requires AllReadWhole(fields) && MessageSize(fields) > 0
    requires cut == packet.sampleCount * (bits / 8) <= |packet.domain.value.raw|
    requires sought == i * MESSAGE && held == i * MessageSize(fields) < |packet.raw|
    requires var messages := packet.domain.value.raw[cut..] + packet.raw;
             sought < |messages| && messages[sought] != packet.raw[held]
    ensures !PairsUp(program, t, fields, native, packet)
  {
    hide IsProgram, GoodFields, PairsUp, MessageSize, AllReadWhole, ReadAsHeld, TotalWidth, ReadAs, ElementSize;
    var domain := packet.domain.value.raw;
    WidthOf(t, kind, bits);
    ByteSample(t, kind, native, bits / 8, fields, domain, cut, domain[cut..] + packet.raw, packet.raw, i);
    SampleMisread(program, t, kind, bits, fields, native, packet, i, cut);
  }

  lemma NarrowIsLess(count: nat, bits: nat)
    requires bits in {8, 16, 32, 64} && count > 0
    ensures bits != 64 ==> count * (bits / 8) < count * 8
    ensures bits == 64 ==> count * (bits / 8) == count * 8
  {
  }

  lemma WrongSizesShow(program: seq<Stmt>, t: SampleType, kind: Kind, bits: nat, fields: seq<DataDescriptor>,
                       native: Endian,
                       value: DataDescriptor, domain: DataDescriptor, count: nat, domainSize: nat)
    requires GoodFields(fields) && ReadAs(t, kind, bits) && IsProgram(program, kind, bits, fields, native)
    requires domainSize >= count % 0x1_0000_0000 * 8 && !RightSizes(t, fields, count, domainSize)
    ensures var packet := Telling(value, domain, count, domainSize);
            DataPayload(native, packet).Some? && !PairsUp(program, t, fields, native, packet)
  {
    hide PairsUp, IsProgram, DataPayload, GoodFields, MessageSize, AllReadWhole;
    var packet := Telling(value, domain, count, domainSize);
    TellingIsAccepted(native, value, domain, count, domainSize);
    if count >= 0x1_0000_0000 {
      TooManySamples(program, t, kind, bits, fields, native, packet);
    } else if !AllReadWhole(fields) {
      ArrayIsMisread(program, t, kind, bits, fields, native, packet);
    } else {
      MisplacedMessage(program, t, kind, bits, fields, native, value, domain, count, domainSize);
    }
  }

  lemma TellingBytes(n: nat, size: nat, width: nat, domainSize: nat)
    requires 0 < size <= MESSAGE && n > 0 && n * width <= domainSize
    ensures n * size <= n * MESSAGE
    ensures var messages := Repeat(0, domainSize)[n * width..] + TellingMessages(n);
            && (n * width < domainSize ==> messages[0] != TellingMessages(n)[0])
            && (n * width == domainSize && n > 1 && size < MESSAGE ==>
                  MESSAGE < |messages| && size < |TellingMessages(n)| && messages[MESSAGE] != TellingMessages(n)[size])
  {
    Below(size, MESSAGE, n);
    assert n * size <= n * MESSAGE;
    Below(1, n, MESSAGE);
    if n > 1 {
      Below(2, n, MESSAGE);
    }
  }

  /** With 32-bit counts and fields that are read whole, a byte of a message tells that it was sought in the
      wrong place. */
  lemma MisplacedMessage(program: seq<Stmt>, t: SampleType, kind: Kind, bits: nat, fields: seq<DataDescriptor>,
                         native: Endian,
                         value: DataDescriptor, domain: DataDescriptor, count: nat, domainSize: nat)
    requires GoodFields(fields) && ReadAs(t, kind, bits) && IsProgram(program, kind, bits, fields, native)
    requires count < 0x1_0000_0000 && AllReadWhole(fields)
    requires domainSize >= count * 8 && !RightSizes(t, fields, count, domainSize)
    ensures var packet := Telling(value, domain, count, domainSize);
            DataPayload(native, packet).Some? && !PairsUp(program, t, fields, native, packet)
  {
    hide IsProgram, DataPayload, GoodFields, MessageSize, AllReadWhole, RunDecoder, Rows, Columns, TrueSamples,
      TellingMessages, Repeat;
    var packet, size := Telling(value, domain, count, domainSize), MessageSize(fields);
    assert count % 0x1_0000_0000 == count;
    TellingIsAccepted(native, value, domain, count, domainSize);
    WidthBound(count, bits);
    if size > MESSAGE {
      Longer(count, size);
    } else {
      hide PairsUp;
      NarrowIsLess(count, bits);
      TellingBytes(count, size, bits / 8, domainSize);
      var surplus := bits != 64 || domainSize != count * 8;
      var i := if surplus then 0 else 1;
      FirstByteTells(program, t, kind, bits, fields, native, packet, i, count * (bits / 8), i * MESSAGE, i * size);
    }
  }

  lemma Longer(count: nat, size: nat)
    requires count > 0 && size > MESSAGE
    ensures count * size > count * MESSAGE
  {
    Below(MESSAGE + 1, size, count);
    assert count * size == size * count >= (MESSAGE + 1) * count == MESSAGE * count + count;
  }

  /** Among the packets the handler accepts, those with so many samples and so much domain data are all
      read back rightly if and only if there are none, or the sample count fits 32 bits, every array among
      the fields is a byte string of one dimension or a single element and, unless there is nothing to
      read, the domain type is 64 bits wide, there is exactly one domain value per sample, and the fields
      take up 69 bytes, or less where there is one sample only: the handler checks for at least 8 bytes
      per sample, whatever the type, and the decoder expects the messages right behind the domain values
      and 69 bytes apart. */
  lemma {:induction false} PairingIff(program: seq<Stmt>, kind: Kind, bits: nat, native: Endian, value: DataDescriptor,
                                      domain: DataDescriptor, count: nat, domainSize: nat)
    requires GoodFields(value.structFields) && ReadAs(domain.sampleType, kind, bits)
    requires IsProgram(program, kind, bits, value.structFields, native)
    requires domainSize >= count % 0x1_0000_0000 * 8
    ensures (forall packet :: Accepted(native, packet, value, domain, count, domainSize) ==>
               PairsUp(program, domain.sampleType, value.structFields, native, packet))
       <==> RightSizes(domain.sampleType, value.structFields, count, domainSize)
  {
    hide RunDecoder, IsProgram, RightSizes, PairsUp, DataPayload;
    var t, fields := domain.sampleType, value.structFields;
    if RightSizes(t, fields, count, domainSize) {
      forall packet | Accepted(native, packet, value, domain, count, domainSize)
        ensures PairsUp(program, t, fields, native, packet)
      {
        RightSizesPair(program, t, kind, bits, fields, native, packet);
      }
    } else {
      TellingIsAccepted(native, value, domain, count, domainSize);
      WrongSizesShow(program, t, kind, bits, fields, native, value, domain, count, domainSize);
    }
  }

  // ----- An array that is lost -----

  function Field(name: string, sampleType: SampleType, dimensions: Option<seq<Dimension>>): DataDescriptor {
    DataDescriptor(name, sampleType, Some(ExplicitRule), dimensions, [], None, None, "", "")
  }

  /** An id, a length and 32 data words of 16 bits: 69 bytes. */
  function WordMessage(): seq<DataDescriptor> {
    [Field("id", UInt32, None), Field("size", UInt8, None), Field("data", UInt16, Some([Dimension(true, 32)]))]
  }

  /** The handler supports a signal of such messages with 64-bit time stamps. The reader takes 7 bytes of each
      message, and no packet with samples is read back rightly. */
  lemma {:induction false} WordsAreLost(program: seq<Stmt>, kind: Kind, native: Endian, value: DataDescriptor,
                                        domain: DataDescriptor, packet: Packet)
    requires value.structFields == WordMessage() && value.sampleType == Struct && value.rule == Some(ExplicitRule)
    requires domain.sampleType == Int64 && domain.rule == Some(ExplicitRule)
    requires ReadAs(Int64, kind, 64) && IsProgram(program, kind, 64, WordMessage(), native)
    requires DataPayload(native, packet).Some? && packet.sampleCount > 0
    ensures Supports(Some(value), Some(domain)) == Supported
    ensures GoodFields(WordMessage()) && MessageSize(WordMessage()) == MESSAGE && TotalWidth(WordMessage()) == 7
    ensures !PairsUp(program, Int64, WordMessage(), native, packet)
  {
    hide IsProgram, PairsUp, DataPayload;
    var fields := WordMessage();
    WordSizes();
    assert !ReadWhole(fields[2]);
    ArrayIsMisread(program, Int64, kind, 64, fields, native, packet);
  }

  lemma WordSizes()
    ensures GoodFields(WordMessage()) && MessageSize(WordMessage()) == MESSAGE && TotalWidth(WordMessage()) == 7
    ensures ElementCount(WordMessage()[2]) == 32
  {
    var fields := WordMessage();
    assert fields[1..][1..] == fields[2..] && fields[2..][1..] == [];
    assert Elements([Dimension(true, 32)]) == 32 * Elements([]);
    assert FieldSize(fields[0]) == 4 && FieldSize(fields[1]) == 1 && FieldSize(fields[2]) == 64;
    assert MessageSize(fields[2..]) == 64 && TotalWidth(fields[2..]) == 2;
    assert MessageSize(fields[1..]) == 65 && TotalWidth(fields[1..]) == 3;
  }
}
