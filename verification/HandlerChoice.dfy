/** For which descriptors a handler is built, judged by the descriptors alone. */
module HandlerChoice {
  import opened Bytes
  import opened LogicalLayer
  import opened Xml
  import opened Descriptors
  import opened SampleTypes
  import opened Handlers
  import Can
  import CanMessages

  /** A handler is built for signals of scalars and of messages, and for no others. */
  lemma {:induction false} HandlerBuiltIff(value: Option<DataDescriptor>, domain: Option<DataDescriptor>)
    ensures Choose(value, domain) == ScalarKind && LinearStartDelta(domain.value).Some?
       <==> IsScalarSignal(value, domain)
    ensures Choose(value, domain) == CanKind && SieReadType(domain.value.sampleType).Some?
            && Can.GoodFields(value.value.structFields)
       <==> IsMessageSignal(value, domain)
  {
    hide LinearStartDelta, SieReadType, Can.GoodFields, AllNumbers, IsNumber;
    if value.Some? && domain.Some? {
      RuleIsRead(domain.value);
      DeclaredRead(value.value.sampleType);
      DeclaredRead(domain.value.sampleType);
      CanMessages.DeclaredFields(value.value.structFields);
      StructIsNoNumber();
    }
  }

  /** What becomes of the construction of a handler. */
  lemma {:induction false} CreatedIff(w: WriterState, labels: Labels, value: Option<DataDescriptor>,
                                      domain: Option<DataDescriptor>, native: Endian)
    ensures var (h, after) := Create(w, labels, value, domain, native);
            && (h.Some? <==> Buildable(value, domain))
            && (h.Some? ==> (h.value.ScalarHandler? <==> IsScalarSignal(value, domain)))
            && (h.Some? ==> (h.value.CanHandler? <==> IsMessageSignal(value, domain)))
            && (h.Some? ==> h.value.group == w.nextGroup)
    ensures Choose(value, domain) != NoKind <==> IsSupported(value, domain)
    ensures var after := Create(w, labels, value, domain, native).1;
            (after.nextGroup, after.nextDecoder, after.nextChannel)
            == if IsSupported(value, domain) then (Next(w.nextGroup), Next(w.nextDecoder), Next(w.nextChannel))
               else (w.nextGroup, w.nextDecoder, w.nextChannel)
  {
    hide LinearStartDelta, SieReadType, Can.GoodFields, AllNumbers, IsNumber, ScalarElements, CanElements,
      Xml.SerializeAll;
    HandlerBuiltIff(value, domain);
    if value.Some? {
      DeclaredRead(value.value.sampleType);
      StructIsNoNumber();
    }
  }

  lemma StructIsNoNumber()
    ensures !IsNumber(Struct)
  {
  }

  /** Descriptors some handler is built for. */
  predicate Buildable(value: Option<DataDescriptor>, domain: Option<DataDescriptor>) {
    IsScalarSignal(value, domain) || IsMessageSignal(value, domain)
  }
}
