/** Looking things up in metadata that went through print and read: names and numbers survive. */
module CanonicalElements {
  import opened Bytes
  import opened Xml
  import opened XmlReader
  import opened XmlConformance
  import opened Decimal
  import opened SieXml
  import opened Reader

  lemma CanonicalCons(e: Element, es: seq<Element>)
    ensures CanonicalAll([e] + es) == [Canonical(e)] + CanonicalAll(es)
  {
    assert ([e] + es)[1..] == es;
    assert ([EolTree(e)] + EolTrees(es))[1..] == EolTrees(es);
  }

  lemma {:induction false} CanonicalConcat(a: seq<Element>, b: seq<Element>)
    ensures CanonicalAll(a + b) == CanonicalAll(a) + CanonicalAll(b)
  {
    if a == [] {
      assert a + b == b;
    } else {
      assert a + b == [a[0]] + (a[1..] + b) && a == [a[0]] + a[1..];
      CanonicalConcat(a[1..], b);
      CanonicalCons(a[0], a[1..] + b);
      CanonicalCons(a[0], a[1..]);
    }
  }

  lemma CanonicalParts(e: Element)
    ensures Canonical(e).name == e.name
    ensures e.content == "" ==> Canonical(e).children == CanonicalAll(e.children)
  {
    EolClean(e.content);
  }

  function Clean(v: Option<string>): Option<string> {
    if v.Some? then Some(SpaceOut(NormalizeEol(v.value))) else None
  }

  lemma {:induction false} CanonicalAttribute(attributes: seq<Attribute>, id: string)
    ensures AttributeOf(SeenAttributes(EolAttributes(attributes)), id) == Clean(AttributeOf(attributes, id))
  {
    if attributes != [] {
      assert SeenAttributes(EolAttributes(attributes))[1..] == SeenAttributes(EolAttributes(attributes[1..]));
      CanonicalAttribute(attributes[1..], id);
    }
  }

  /** An attribute without white space other than blanks is read as it was written. */
  lemma PlainAttribute(e: Element, id: string)
    requires AttributeOf(e.attributes, id).Some? ==> NoSpaceButBlank(AttributeOf(e.attributes, id).value)
    ensures AttributeOf(Canonical(e).attributes, id) == AttributeOf(e.attributes, id)
  {
    CanonicalAttribute(e.attributes, id);
    if AttributeOf(e.attributes, id).Some? {
      ValueFaithful(AttributeOf(e.attributes, id).value);
    }
  }

  lemma DigitsArePlain(s: string)
    requires AllDigits(s)
    ensures NoSpaceButBlank(s)
  {
  }

  lemma {:induction false} CanonicalFirst(es: seq<Element>, name: string)
    ensures FirstNamed(CanonicalAll(es), name)
         == var first := FirstNamed(es, name); if first.Some? then Some(Canonical(first.value)) else None
  {
    if es != [] {
      assert es == [es[0]] + es[1..];
      CanonicalCons(es[0], es[1..]);
      CanonicalFirst(es[1..], name);
    }
  }

  /** A dimension whose data element names a decoder and a variable by number. */
  ghost predicate HasSource(dim: Element, decoderId: nat, variable: nat) {
    && dim.content == ""
    && FirstNamed(dim.children, "data") == Some(DataElement(decoderId, variable))
  }

  lemma DataAttributes(decoderId: nat, variable: nat)
    ensures var d := DataElement(decoderId, variable);
            && AttributeOf(d.attributes, "decoder") == Some(ToDecimal(decoderId))
            && AttributeOf(d.attributes, "v") == Some(ToDecimal(variable))
  {
    var a := DataElement(decoderId, variable).attributes;
    assert a == [Attribute("decoder", ToDecimal(decoderId)), Attribute("v", ToDecimal(variable))];
    AttributeFound(a, 0, "decoder");
    AttributeFound(a, 1, "v");
  }

  lemma CanonicalSource(dim: Element, decoderId: nat, variable: nat)
    requires HasSource(dim, decoderId, variable)
    ensures SourceOf(Canonical(dim)) == Some(Source(ToDecimal(decoderId), "v" + ToDecimal(variable)))
  {
    CanonicalParts(dim);
    CanonicalFirst(dim.children, "data");
    DataAttributes(decoderId, variable);
    DigitsArePlain(ToDecimal(decoderId));
    DigitsArePlain(ToDecimal(variable));
    PlainAttribute(DataElement(decoderId, variable), "decoder");
    PlainAttribute(DataElement(decoderId, variable), "v");
  }
}
