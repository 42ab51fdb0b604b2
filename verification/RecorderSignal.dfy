/** AdvancedRecorderSignal and its handlers, writing to a shared writer. */
module RecorderSignal {
  import opened Bytes
  import opened FileLayer
  import opened BlockLayer
  import opened LogicalLayer
  import opened Xml
  import opened SieXml
  import opened Descriptors
  import opened Handlers
  import opened SampleTypes
  import opened HandlerChoice
  import opened CanFields
  import Can
  import ScalarLinear
  import CanMessages
  import CanCorrect
  import Decimal

  lemma SerializeTwo(a: Element, b: Element, indent: nat)
    ensures SerializeAll([a, b], indent) == Serialize(a, indent) + Serialize(b, indent)
  {
    SerializeAllConcat([a], [b], indent);
    SerializeOne(a, indent);
    SerializeOne(b, indent);
    assert [a] + [b] == [a, b];
  }

  lemma {:induction false} FieldElementsLast(fields: seq<DataDescriptor>, last: DataDescriptor, k: nat, native: Endian)
    requires Can.GoodFields(fields) && Can.GoodField(last) && Can.GoodFields(fields + [last])
    ensures Can.FieldElements(fields + [last], k, native)
         == Can.FieldElements(fields, k, native) + [Can.FieldElement(last, k + |fields|, native)]
    decreases |fields|
  {
    hide Can.FieldElement, Can.GoodField;
    if fields == [] {
      assert ([] + [last])[1..] == [];
    } else {
      assert (fields + [last])[1..] == fields[1..] + [last];
      FieldElementsLast(fields[1..], last, k + 1, native);
    }
  }

  lemma {:induction false} DimensionsLast(fields: seq<DataDescriptor>, last: DataDescriptor, k: nat, decoderId: nat)
    ensures FieldDimensions(decoderId, k, fields + [last])
         == FieldDimensions(decoderId, k, fields) + [FieldDimension(decoderId, k + |fields|, last)]
    decreases |fields|
  {
    if fields == [] {
      assert ([] + [last])[1..] == [];
    } else {
      assert (fields + [last])[1..] == fields[1..] + [last];
      DimensionsLast(fields[1..], last, k + 1, decoderId);
    }
  }

  lemma CanParts(packet: Packet, native: Endian, parts: seq<seq<Byte>>)
    requires CanCorrect.DataPayload(native, packet).Some?
    requires parts == [Encode(native, packet.sampleCount % 0x1_0000_0000, 4), packet.domain.value.raw, packet.raw]
    ensures CanCorrect.DataPayload(native, packet) == Some(Flat(parts))
  {
    FlatThree(parts[0], parts[1], parts[2]);
    assert parts == [parts[0], parts[1], parts[2]];
    assert (packet.sampleCount % 0x1_0000_0000) % 0x1_0000_0000 == packet.sampleCount % 0x1_0000_0000;
  }

  /** What creating a handler may come to. */
  predicate NewHandler(w: WriterState, labels: Labels, value: Option<DataDescriptor>, domain: Option<DataDescriptor>,
                       native: Endian,
                       h: Option<Handler>, after: WriterState)
  {
    || (h, after) == Create(w, labels, value, domain, native)
    || (h == None && CreateFailed(w, labels, value, domain, native, after))
  }

  lemma SupportedIsScalar(value: Option<DataDescriptor>, domain: Option<DataDescriptor>)
    requires Choose(value, domain) == ScalarKind
    ensures value.Some? && domain.Some? && IsScalar(value.value.sampleType)
  {
  }

  class AdvancedRecorderSignal {
    const signal: Signal
    const writer: Writer
    const testId: nat
    var handler: Option<Handler>
    var lastValueDescriptor: Option<DataDescriptor>
    var lastDomainDescriptor: Option<DataDescriptor>

    constructor (signal: Signal, writer: Writer, testId: nat)
      ensures this.signal == signal && this.writer == writer && this.testId == testId && View() == NEW_SIGNAL
    {
      this.signal, this.writer, this.testId := signal, writer, testId;
      handler, lastValueDescriptor, lastDomainDescriptor := None, None, None;
    }

    function View(): SignalState
      reads this
    {
      SignalState(handler, lastValueDescriptor, lastDomainDescriptor)
    }

    function LabelsFor(uuid: string): Labels {
      Labels(signal, uuid, testId)
    }

    /** The ids every handler constructor takes first. */
    method AllocateIds(value: DataDescriptor, domain: DataDescriptor) returns (b: Binding)
      modifies writer
      ensures b == Bind(old(writer.View()), value, domain) && writer.View() == Allocate(old(writer.View()))
    {
      var group := writer.AllocateGroup();
      var decoderId := writer.AllocateDecoder();
      var channelId := writer.AllocateChannel();
      b := Binding(group, decoderId, channelId, value, domain);
    }

    /** Serializes the decoder and the test element and writes them as one metadata block. */
    method Declare(decoder: Element, test: Element) returns (ok: bool)
      modifies writer.writer, writer.writer.writer.file
      ensures ok ==> writer.View() == WriteMetadata(old(writer.View()), SerializeAll([decoder, test], 1))
      ensures !ok ==> WriteFailed(old(writer.View()), METADATA, OfText(SerializeAll([decoder, test], 1)), writer.View())
      ensures Cooperative(writer.writer.writer.file.kernel) ==> ok
    {
      var os := new OStream();
      os.SerializeElement(decoder, 1);
      os.SerializeElement(test, 1);
      SerializeTwo(decoder, test, 1);
      assert os.text == SerializeAll([decoder, test], 1);
      ok := writer.WriteMetadataText(os.text);
    }

    /** The constructor of the scalar handler. None where it throws, also when its declaration cannot be
        written: the ids are taken by then. */
    method NewScalarHandler(uuid: string, value: DataDescriptor, domain: DataDescriptor,
                            native: Endian) returns (h: Option<Handler>)
      requires IsScalar(value.sampleType)
      modifies writer, writer.writer, writer.writer.writer.file
      ensures var w := old(writer.View());
              var b := Bind(w, value, domain);
              if !ScalarReady(b) then h == None && writer.View() == Allocate(w)
              else
                var text := SerializeAll(ScalarElements(b, LabelsFor(uuid), native), 1);
                if h.Some? then h == Some(ScalarHandler(b.group)) && writer.View() == WriteMetadata(Allocate(w), text)
                else WriteFailed(Allocate(w), METADATA, OfText(text), writer.View())
      ensures HasLinearRule(domain) <==> ScalarReady(Bind(old(writer.View()), value, domain))
      ensures Cooperative(writer.writer.writer.file.kernel) ==> (h.Some? <==> HasLinearRule(domain))
    {
      RuleIsRead(domain);
      var b := AllocateIds(value, domain);
      var startDelta := LinearStartDelta(domain);
      if startDelta.None? {
        return None;
      }
      var ok := Declare(ScalarDecoder(b, native), TestWith(testId, ScalarChannel(b, LabelsFor(uuid))));
      h := if ok then Some(ScalarHandler(b.group)) else None;
    }

    /** The read and the dimension of one struct field. */
    method BuildField(field: DataDescriptor, decoderId: nat, dimIndex: nat, native: Endian) returns (read: Element,
        dim: Element, ok: bool)
      ensures ok <==> IsNumber(field.sampleType)
      ensures ok <==> Can.GoodField(field)
      ensures ok ==>
                read == Can.FieldElement(field, dimIndex, native) && ReadsField(read, field, dimIndex, native)
                && dim == FieldDimension(decoderId, dimIndex, field)
    {
      hide ReadsField;
      CanMessages.DeclaredField(field);
      if Can.GoodField(field) {
        FieldIsRead(field, dimIndex, native);
      }
      dim := DimensionElement(dimIndex).AddChild(TagElement("openDAQ:fieldName", field.name))
          .AddChild(DataElement(decoderId, dimIndex));
      read, ok := New("read"), true;
      if Can.IsRawField(field) {
        var octets := field.dimensions.value[0].size;
        read := ReadRawElement("v" + Decimal.ToDecimal(dimIndex), octets);
      } else {
        var fieldType := SieReadType(field.sampleType);
        if fieldType.None? {
          ok := false;
        } else {
          read := ReadElement("v" + Decimal.ToDecimal(dimIndex), fieldType.value.0, fieldType.value.1, native);
        }
      }
    }

    /** The loop over the struct fields in the constructor of the CAN handler. */
    method BuildFields(b: Binding, native: Endian) returns (fieldReads: seq<Element>, dims: seq<Element>, ok: bool)
      ensures ok <==> Can.GoodFields(b.value.structFields)
      ensures ok ==> fieldReads == Can.FieldElements(b.value.structFields, 1, native)
      ensures ok ==> dims == FieldDimensions(b.decoderId, 1, b.value.structFields)
    {
      hide Can.FieldElement, FieldDimension, Can.GoodField;
      var fields := b.value.structFields;
      fieldReads, dims, ok := [], [], true;
      var dimIndex := 1;
      for i := 0 to |fields|
        invariant dimIndex == 1 + i && ok
        invariant Can.GoodFields(fields[..i])
        invariant fieldReads == Can.FieldElements(fields[..i], 1, native)
        invariant dims == FieldDimensions(b.decoderId, 1, fields[..i])
      {
        var read, dim, good := BuildField(fields[i], b.decoderId, dimIndex, native);
        if !good {
          return fieldReads, dims, false;
        }
        assert fields[..i + 1] == fields[..i] + [fields[i]];
        FieldElementsLast(fields[..i], fields[i], 1, native);
        DimensionsLast(fields[..i], fields[i], 1, b.decoderId);
        fieldReads := fieldReads + [read];
        dims := dims + [dim];
        dimIndex := dimIndex + 1;
      }
      assert fields[..|fields|] == fields;
    }

    /** The constructor of the CAN handler. None where it throws, also when its declaration cannot be written. */
    method NewCanHandler(value: DataDescriptor, domain: DataDescriptor, native: Endian) returns (h: Option<Handler>)
      modifies writer, writer.writer, writer.writer.writer.file
      ensures var w := old(writer.View());
              var b := Bind(w, value, domain);
              if !CanReady(b) then h == None && writer.View() == Allocate(w)
              else
                var text := SerializeAll(CanElements(b, testId, native), 1);
                if h.Some? then h == Some(CanHandler(b.group)) && writer.View() == WriteMetadata(Allocate(w), text)
                else WriteFailed(Allocate(w), METADATA, OfText(text), writer.View())
      ensures IsNumber(domain.sampleType) && AllNumbers(value.structFields)
         <==> CanReady(Bind(old(writer.View()), value, domain))
      ensures Cooperative(writer.writer.writer.file.kernel) ==>
                (h.Some? <==> IsNumber(domain.sampleType) && AllNumbers(value.structFields))
    {
      DeclaredRead(domain.sampleType);
      CanMessages.DeclaredFields(value.structFields);
      var b := AllocateIds(value, domain);
      var domainType := SieReadType(domain.sampleType);
      if domainType.None? {
        return None;
      }
      var fieldReads, dims, good := BuildFields(b, native);
      if !good {
        return None;
      }
      var (kind, bits) := domainType.value;
      var loop := New("loop").AddAttribute("var", "i").AddAttribute("start", "0").AddAttribute("end", "{$n}");
      loop := loop.(children := [ReadElement("v0", kind, bits, native),
                                 SeekElement("start", Can.MessageOffsetText(bits / 8))]
                                + fieldReads + [SampleElement(), SeekElement("start", Can.NextOffsetText(bits / 8))]);
      var decoder := DecoderElement(b.decoderId).AddChild(ReadElement("n", "uint", 32, native)).AddChild(loop);
      assert decoder == CanDecoder(b, native);
      var ok := Declare(decoder, TestWith(testId, CanChannel(b)));
      h := if ok then Some(CanHandler(b.group)) else None;
    }

    /** ScalarLinearSignalHandler::onDataPacketReceived. */
    method HandleScalarPacket(group: nat, packet: Packet, native: Endian) returns (ok: bool)
      modifies writer.writer, writer.writer.writer.file
      ensures ok ==> writer.View() == Deliver(old(writer.View()), ScalarHandler(group), packet, native)
      ensures !ok ==> DeliverFailed(old(writer.View()), ScalarHandler(group), packet, native, writer.View())
      ensures Cooperative(writer.writer.writer.file.kernel) ==> ok
    {
      if packet.domain.None? || packet.domain.value.offset.None? {
        return true;
      }
      var offset := Int64Bytes(native, packet.domain.value.offset.value);
      FlatTwo(offset, packet.raw);
      ok := writer.Write(group, [offset, packet.raw]);
    }

    /** CanSignalHandler::onDataPacketReceived. */
    method HandleCanPacket(group: nat, packet: Packet, native: Endian) returns (ok: bool)
      modifies writer.writer, writer.writer.writer.file
      ensures ok ==> writer.View() == Deliver(old(writer.View()), CanHandler(group), packet, native)
      ensures !ok ==> DeliverFailed(old(writer.View()), CanHandler(group), packet, native, writer.View())
      ensures Cooperative(writer.writer.writer.file.kernel) ==> ok
    {
      if packet.domain.None? {
        return true;
      }
      var domain := packet.domain.value;
      var n := packet.sampleCount % 0x1_0000_0000;
      if |packet.raw| < n * Can.MESSAGE {
        return true;
      }
      if |domain.raw| < n * 8 {
        return true;
      }
      var parts := [Encode(native, n, 4), domain.raw, packet.raw];
      CanParts(packet, native, parts);
      ok := writer.Write(group, parts);
    }

    method HandlePacket(h: Handler, packet: Packet, native: Endian) returns (ok: bool)
      modifies writer.writer, writer.writer.writer.file
      ensures ok ==> writer.View() == Deliver(old(writer.View()), h, packet, native)
      ensures !ok ==> DeliverFailed(old(writer.View()), h, packet, native, writer.View())
      ensures Cooperative(writer.writer.writer.file.kernel) ==> ok
    {
      match h
      case ScalarHandler(group) => ok := HandleScalarPacket(group, packet, native);
      case CanHandler(group) => ok := HandleCanPacket(group, packet, native);
    }

    /** The first kind of handler that supports the descriptors. */
    method CreateHandler(uuid: string, value: Option<DataDescriptor>, domain: Option<DataDescriptor>, native: Endian)
      returns (h: Option<Handler>)
      modifies writer, writer.writer, writer.writer.writer.file
      ensures NewHandler(old(writer.View()), LabelsFor(uuid), value, domain, native, h, writer.View())
      ensures Cooperative(writer.writer.writer.file.kernel) ==>
                (h, writer.View()) == Create(old(writer.View()), LabelsFor(uuid), value, domain, native)
      ensures Cooperative(writer.writer.writer.file.kernel) ==>
                && (h.Some? && h.value.ScalarHandler? <==> IsScalarSignal(value, domain))
                && (h.Some? && h.value.CanHandler? <==> IsMessageSignal(value, domain))
    {
      hide ScalarElements, CanElements, ScalarReady, CanReady, WriteMetadata, WriteFailed, Allocate, SerializeAll,
        Cooperative, IsScalarSignal, IsMessageSignal, ScalarLinear.Supports, Can.Supports, IsScalar, IsSupported;
      CreatedIff(writer.View(), LabelsFor(uuid), value, domain, native);
      h := None;
      var kind := Choose(value, domain);
      if kind == ScalarKind {
        SupportedIsScalar(value, domain);
        h := NewScalarHandler(uuid, value.value, domain.value, native);
      } else if kind == CanKind {
        h := NewCanHandler(value.value, domain.value, native);
      }
    }

    /** Replaces the handler when the descriptors changed. Where the declaration of the new one cannot be
        written there is none. */
    method Rebind(packet: Packet, uuid: string, native: Endian)
      modifies this, writer, writer.writer, writer.writer.writer.file
      ensures lastValueDescriptor == packet.descriptor && lastDomainDescriptor == DomainDescriptor(packet)
      ensures packet.descriptor == old(lastValueDescriptor) && DomainDescriptor(packet) == old(lastDomainDescriptor) ==>
                (handler, writer.View()) == (old(handler), old(writer.View()))
      ensures packet.descriptor != old(lastValueDescriptor) || DomainDescriptor(packet) != old(lastDomainDescriptor) ==>
                NewHandler(old(writer.View()), LabelsFor(uuid), packet.descriptor, DomainDescriptor(packet), native,
                           handler, writer.View())
      ensures (packet.descriptor != old(lastValueDescriptor) || DomainDescriptor(packet) != old(lastDomainDescriptor))
              && Cooperative(writer.writer.writer.file.kernel) ==>
                (handler, writer.View())
                == Create(old(writer.View()), LabelsFor(uuid), packet.descriptor, DomainDescriptor(packet), native)
    {
      var value, domain := packet.descriptor, DomainDescriptor(packet);
      if value != lastValueDescriptor || domain != lastDomainDescriptor {
        handler := None;
        lastValueDescriptor, lastDomainDescriptor := value, domain;
        handler := CreateHandler(uuid, value, domain, native);
      }
    }

    /** onDataPacketReceived. The result is false where it throws; a failing handler constructor
        only leaves the signal without a handler. */
    method OnDataPacketReceived(packet: Packet, uuid: string, native: Endian) returns (ok: bool)
      modifies this, writer, writer.writer, writer.writer.writer.file
      ensures lastValueDescriptor == packet.descriptor && lastDomainDescriptor == DomainDescriptor(packet)
      ensures ok ==>
                || (View(), writer.View()) == Receive(old(View()), old(writer.View()), LabelsFor(uuid), packet, native)
                || ((packet.descriptor != old(lastValueDescriptor)
                     || DomainDescriptor(packet) != old(lastDomainDescriptor))
                    && handler == None
                    && CreateFailed(old(writer.View()), LabelsFor(uuid), packet.descriptor, DomainDescriptor(packet),
                                    native, writer.View()))
      ensures !ok ==>
                var (h, ready) := Rebound(old(View()), old(writer.View()), LabelsFor(uuid), packet, native);
                handler == h && h.Some? && DeliverFailed(ready, h.value, packet, native, writer.View())
      ensures packet.descriptor == old(lastValueDescriptor) && DomainDescriptor(packet) == old(lastDomainDescriptor) ==>
                && handler == old(handler)
                && (handler == None ==> ok && writer.View() == old(writer.View()))
                && (handler.Some? ==>
                      if ok then writer.View() == Deliver(old(writer.View()), handler.value, packet, native)
                      else DeliverFailed(old(writer.View()), handler.value, packet, native, writer.View()))
      ensures Cooperative(writer.writer.writer.file.kernel) ==>
                ok && (View(), writer.View()) == Receive(old(View()), old(writer.View()), LabelsFor(uuid), packet,
                                                         native)
    {
      hide Create, CreateFailed, DeliverFailed, Deliver, Cooperative;
      Rebind(packet, uuid, native);
      ok := true;
      if handler.Some? {
        ok := HandlePacket(handler.value, packet, native);
      }
    }
  }
}
