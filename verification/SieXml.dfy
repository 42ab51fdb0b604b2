/** The SIE elements the recorder builds, and the meaning of the decoder elements among them. */
module SieXml {
  import opened Bytes
  import opened Xml
  import opened Decimal
  import opened Decoders
  import opened Expressions

  function NativeEndian(e: Endian): string {
    if e.Big? then "big" else "little"
  }

  function ChannelElement(id: nat, group: nat, name: string): Element {
    New("ch").AddAttribute("id", ToDecimal(id)).AddAttribute("group", ToDecimal(group)).AddAttribute("name", name)
  }

  function DataElement(decoderId: nat, variableId: nat): Element {
    New("data").AddAttribute("decoder", ToDecimal(decoderId)).AddAttribute("v", ToDecimal(variableId))
  }

  function DecoderElement(id: nat): Element {
    New("decoder").AddAttribute("id", ToDecimal(id))
  }

  function DimensionElement(id: nat): Element {
    New("dim").AddAttribute("index", ToDecimal(id))
  }

  function ReadElement(v: string, kind: string, bits: nat, native: Endian): Element {
    New("read").AddAttribute("var", v).AddAttribute("type", kind).AddAttribute("bits", ToDecimal(bits))
    .AddAttribute("endian", NativeEndian(native))
  }

  function ReadRawElement(v: string, octets: nat): Element {
    New("read").AddAttribute("var", v).AddAttribute("type", "raw").AddAttribute("octets", ToDecimal(octets))
  }

  function SampleElement(): Element {
    New("sample")
  }

  function SeekElement(from: string, offset: string): Element {
    New("seek").AddAttribute("from", from).AddAttribute("offset", offset)
  }

  function TagElement(id: string, value: string): Element {
    New("tag").AddAttribute("id", id).WithContent(value)
  }

  function TestElement(id: nat): Element {
    New("test").AddAttribute("id", ToDecimal(id))
  }

  function TransformElement(scale: string, offset: string): Element {
    New("xform").AddAttribute("scale", scale).AddAttribute("offset", offset)
  }

  function UnitsElement(name: string): Element {
    New("units").WithContent(name)
  }

  // ----- The program a decoder element stands for -----

  function AttributeOf(attributes: seq<Attribute>, id: string): Option<string> {
    if attributes == [] then None
    else if attributes[0].id == id then Some(attributes[0].value)
    else AttributeOf(attributes[1..], id)
  }

  function ValueOf(e: Element, id: string): Option<Expr> {
    var text := AttributeOf(e.attributes, id);
    if text.Some? then ParseValue(text.value) else None
  }

  function ValueOr(e: Element, id: string, default: int): Option<Expr> {
    if AttributeOf(e.attributes, id).None? then Some(Num(default)) else ValueOf(e, id)
  }

  /** An attribute that may be missing: None when it is there but malformed. */
  function OptionalValue(e: Element, id: string): Option<Option<Expr>> {
    if AttributeOf(e.attributes, id).None? then Some(None)
    else
      var v := ValueOf(e, id);
      if v.Some? then Some(v) else None
  }

  function KindOf(kind: string): Option<Kind> {
    if kind == "uint" then Some(UInt)
    else if kind == "int" then Some(Int)
    else if kind == "float" then Some(Float)
    else None
  }

  function EndianOf(endian: string): Option<Endian> {
    if endian == "big" then Some(Big) else if endian == "little" then Some(Little) else None
  }

  function CompileRead(e: Element): Option<Stmt> {
    var v, kind := AttributeOf(e.attributes, "var"), AttributeOf(e.attributes, "type");
    if v.None? || kind.None? then None
    else if kind.value == "raw" then
      var octets, group := ValueOf(e, "octets"), OptionalValue(e, "group");
      if octets.None? || group.None? then None else Some(ReadRaw(v.value, octets.value, group.value))
    else
      var k, bits, expected := KindOf(kind.value), ValueOf(e, "bits"), OptionalValue(e, "value");
      var endian := AttributeOf(e.attributes, "endian");
      if k.None? || bits.None? || !bits.value.Num? || bits.value.n < 0 || expected.None? || endian.None?
          || EndianOf(endian.value).None? then None
      else Some(Read(v.value, k.value, bits.value.n, EndianOf(endian.value).value, expected.value))
  }

  function Compile(e: Element): Option<Stmt>
    decreases e, 1
  {
    if e.name == "read" then CompileRead(e)
    else if e.name == "seek" then
      var offset := ValueOf(e, "offset");
      if AttributeOf(e.attributes, "from") == Some("start") && offset.Some? then Some(Seek(offset.value)) else None
    else if e.name == "sample" then Some(Sample)
    else if e.name == "loop" then
      var start, step, end := ValueOr(e, "start", 0), ValueOr(e, "increment", 1), OptionalValue(e, "end");
      var body := CompileAll(e.children);
      if start.None? || step.None? || end.None? || body.None? then None
      else Some(Loop(AttributeOf(e.attributes, "var"), start.value, step.value, end.value, body.value))
    else None
  }

  function CompileAll(es: seq<Element>): Option<seq<Stmt>>
    decreases es, 0
  {
    if es == [] then Some([])
    else
      var first, rest := Compile(es[0]), CompileAll(es[1..]);
      if first.None? || rest.None? then None else Some([first.value] + rest.value)
  }

  /** The program of a decoder element. */
  function Program(e: Element): Option<seq<Stmt>> {
    if e.name == "decoder" then CompileAll(e.children) else None
  }

  lemma CompileCons(e: Element, es: seq<Element>)
    ensures CompileAll([e] + es)
         == var first, rest := Compile(e), CompileAll(es);
            if first.None? || rest.None? then None else Some([first.value] + rest.value)
  {
    assert ([e] + es)[1..] == es;
  }

  lemma {:induction false} CompileConcat(a: seq<Element>, b: seq<Element>)
    ensures CompileAll(a + b)
         == var first, rest := CompileAll(a), CompileAll(b);
            if first.None? || rest.None? then None else Some(first.value + rest.value)
  {
    if a == [] {
      assert a + b == b;
      assert CompileAll(b).Some? ==> [] + CompileAll(b).value == CompileAll(b).value;
    } else {
      assert (a + b)[1..] == a[1..] + b;
      CompileConcat(a[1..], b);
      if CompileAll(a).Some? && CompileAll(b).Some? {
        assert CompileAll(a).value + CompileAll(b).value
            == [Compile(a[0]).value] + (CompileAll(a[1..]).value + CompileAll(b).value);
      }
    }
  }

  // ----- Single elements -----

  lemma NumberValue(n: int)
    ensures ParseValue(ToSigned(n)) == Some(Num(n))
  {
    NumberRoundTrip(n);
    assert ToSigned(n)[0] != '{';
  }

  lemma {:induction false} AttributeFound(a: seq<Attribute>, k: nat, id: string)
    requires k < |a| && a[k].id == id && forall i :: 0 <= i < k ==> a[i].id != id
    ensures AttributeOf(a, id) == Some(a[k].value)
  {
    if k > 0 {
      AttributeFound(a[1..], k - 1, id);
    }
  }

  lemma {:induction false} AttributeMissing(a: seq<Attribute>, id: string)
    requires forall i :: 0 <= i < |a| ==> a[i].id != id
    ensures AttributeOf(a, id) == None
  {
    if a != [] {
      AttributeMissing(a[1..], id);
    }
  }

  lemma {:induction false} CompileTypedRead(v: string, kind: string, bits: nat, native: Endian)
    requires KindOf(kind).Some?
    ensures Compile(ReadElement(v, kind, bits, native)) == Some(Read(v, KindOf(kind).value, bits, native, None))
  {
    var e := ReadElement(v, kind, bits, native);
    assert e.attributes == [Attribute("var", v), Attribute("type", kind), Attribute("bits", ToDecimal(bits)),
                            Attribute("endian", NativeEndian(native))];
    AttributeFound(e.attributes, 0, "var");
    AttributeFound(e.attributes, 1, "type");
    AttributeFound(e.attributes, 2, "bits");
    AttributeFound(e.attributes, 3, "endian");
    AttributeMissing(e.attributes, "value");
    NumberValue(bits);
    assert EndianOf(NativeEndian(native)) == Some(native);
    assert kind != "raw";
  }

  lemma {:induction false} CompileRawRead(v: string, octets: nat)
    ensures Compile(ReadRawElement(v, octets)) == Some(ReadRaw(v, Num(octets), None))
  {
    var e := ReadRawElement(v, octets);
    assert e.attributes == [Attribute("var", v), Attribute("type", "raw"), Attribute("octets", ToDecimal(octets))];
    AttributeFound(e.attributes, 0, "var");
    AttributeFound(e.attributes, 1, "type");
    AttributeFound(e.attributes, 2, "octets");
    AttributeMissing(e.attributes, "group");
    NumberValue(octets);
  }

  lemma {:induction false} CompileSeek(offset: string)
    requires ParseValue(offset).Some?
    ensures Compile(SeekElement("start", offset)) == Some(Seek(ParseValue(offset).value))
  {
    var e := SeekElement("start", offset);
    assert e.attributes == [Attribute("from", "start"), Attribute("offset", offset)];
    AttributeFound(e.attributes, 0, "from");
    AttributeFound(e.attributes, 1, "offset");
  }
}
