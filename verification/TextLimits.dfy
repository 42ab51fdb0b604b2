/** How long the metadata of a declaration can get, and that it is made of one-byte characters, given the
    texts it is made of. */
module TextLimits {
  import opened Bytes
  import opened Xml
  import opened Decimal
  import opened SieXml

  // ----- Printed elements of limited size -----

  /** A start tag without its closing bracket. */
  predicate SlimHead(e: Element, w: nat) {
    Narrow(OpenTag(e)) && |OpenTag(e)| <= w
  }

  /** Printed at any depth up to a cap, the element takes at most w one-byte characters. */
  ghost predicate Slim(e: Element, cap: nat, w: nat) {
    forall k: nat :: k <= cap ==> Narrow(Markup(e, k)) && |Markup(e, k)| <= w
  }

  ghost predicate SlimAll(es: seq<Element>, cap: nat, w: nat) {
    forall k: nat :: k <= cap ==> Narrow(SerializeAll(es, k)) && |SerializeAll(es, k)| <= w
  }

  lemma NarrowJoin(a: string, b: string)
    ensures Narrow(a + b) <==> Narrow(a) && Narrow(b)
  {
    if Narrow(a + b) {
      assert forall i :: 0 <= i < |a| ==> a[i] == (a + b)[i];
      assert forall i :: 0 <= i < |b| ==> b[i] == (a + b)[|a| + i];
    }
  }

  lemma {:induction false} EscapeSlim(s: string)
    requires Narrow(s)
    ensures Narrow(Escape(s)) && |Escape(s)| <= 6 * |s|
  {
    if s != "" {
      EscapeSlim(s[1..]);
      NarrowJoin(EscapeChar(s[0]), Escape(s[1..]));
    }
  }

  lemma AttributeSlim(id: string, value: string)
    requires Narrow(id) && Narrow(value)
    ensures Narrow(AttributeText(Attribute(id, value)))
    ensures |AttributeText(Attribute(id, value))| <= 4 + |id| + 6 * |value|
  {
    EscapeSlim(value);
    NarrowJoin(" " + id + "=\"", Escape(value));
    NarrowJoin(" " + id + "=\"" + Escape(value), "\"");
  }

  lemma HeadNew(name: string)
    requires Narrow(name)
    ensures SlimHead(New(name), |name| + 1)
  {
    assert OpenTag(New(name)) == "<" + name;
  }

  lemma OneMore(open: string, texts: string, last: string)
    ensures open + (texts + last) == (open + texts) + last
  {
  }

  lemma OpenTagGrows(e: Element, a: Attribute)
    ensures OpenTag(e.AddAttribute(a.id, a.value)) == OpenTag(e) + AttributeText(a)
  {
    hide AttributeText;
    AttributesConcat(e.attributes, [a]);
    assert [a][1..] == [];
    assert AttributesText([a]) == AttributeText(a) + "" == AttributeText(a);
    OneMore("<" + e.name, AttributesText(e.attributes), AttributeText(a));
  }

  lemma HeadAttribute(e: Element, w: nat, id: string, value: string)
    requires SlimHead(e, w) && Narrow(id) && Narrow(value)
    ensures SlimHead(e.AddAttribute(id, value), w + 4 + |id| + 6 * |value|)
  {
    hide OpenTag, AttributeText, Narrow;
    AttributeSlim(id, value);
    OpenTagGrows(e, Attribute(id, value));
    NarrowJoin(OpenTag(e), AttributeText(Attribute(id, value)));
  }

  lemma SlimEmpty(e: Element, cap: nat, w: nat)
    requires SlimHead(e, w) && e.content == "" && e.children == []
    ensures Slim(e, cap, w + 2)
  {
    forall k: nat | k <= cap ensures Narrow(Markup(e, k)) && |Markup(e, k)| <= w + 2 {
      NarrowJoin(OpenTag(e), "/>");
    }
  }

  lemma SlimText(e: Element, cap: nat, w: nat, text: string)
    requires SlimHead(e, w) && e.content == "" && e.children == [] && Narrow(e.name) && Narrow(text)
    ensures Slim(e.WithContent(text), cap, w + 6 * |text| + |e.name| + 4)
  {
    hide Escape, AttributesText;
    if text == "" {
      assert e.WithContent(text) == e;
      SlimEmpty(e, cap, w);
    } else {
      var body := ">" + Escape(text) + CloseTag(e.name);
      EscapeSlim(text);
      NarrowJoin(">", Escape(text));
      NarrowJoin(">" + Escape(text), CloseTag(e.name));
      NarrowJoin(OpenTag(e), body);
      forall k: nat | k <= cap
        ensures Narrow(Markup(e.WithContent(text), k))
        ensures |Markup(e.WithContent(text), k)| <= w + 6 * |text| + |e.name| + 4
      {
        assert Markup(e.WithContent(text), k) == OpenTag(e) + body;
      }
    }
  }

  lemma NarrowBody(all: string, spaces: string, close: string)
    requires Narrow(all) && Narrow(spaces) && Narrow(close)
    ensures Narrow(">\n" + all + spaces + close) && |">\n" + all + spaces + close| == 2 + |all| + |spaces| + |close|
  {
    NarrowJoin(">\n", all);
    NarrowJoin(">\n" + all, spaces);
    NarrowJoin(">\n" + all + spaces, close);
  }

  /** An element around children that are printed one level deeper. */
  lemma SlimParent(e: Element, cap: nat, w: nat, es: seq<Element>, we: nat)
    requires SlimHead(e, w) && e.content == "" && Narrow(e.name) && SlimAll(es, cap + 1, we)
    ensures Slim(e.(children := es), cap, w + we + cap + |e.name| + 5)
  {
    var f := e.(children := es);
    if es == [] {
      assert OpenTag(f) == OpenTag(e);
      SlimEmpty(f, cap, w);
    } else {
      forall k: nat | k <= cap ensures Narrow(Markup(f, k)) && |Markup(f, k)| <= w + we + cap + |e.name| + 5 {
        NarrowBody(SerializeAll(es, k + 1), Spaces(k), CloseTag(e.name));
        NarrowJoin(OpenTag(e), Body(f, k));
        assert Markup(f, k) == OpenTag(e) + Body(f, k);
      }
    }
  }

  lemma SlimNone(cap: nat)
    ensures SlimAll([], cap, 0)
  {
  }

  lemma SlimOne(e: Element, cap: nat, w: nat)
    requires Slim(e, cap, w)
    ensures SlimAll([e], cap, w + cap + 1)
  {
    forall k: nat | k <= cap ensures Narrow(SerializeAll([e], k)) && |SerializeAll([e], k)| <= w + cap + 1 {
      assert Narrow(Markup(e, k)) && |Markup(e, k)| <= w;
      SerializeOne(e, k);
      NarrowJoin(Spaces(k), Markup(e, k));
      NarrowJoin(Spaces(k) + Markup(e, k), "\n");
    }
  }

  lemma SlimJoin(a: seq<Element>, wa: nat, b: seq<Element>, wb: nat, cap: nat)
    requires SlimAll(a, cap, wa) && SlimAll(b, cap, wb)
    ensures SlimAll(a + b, cap, wa + wb)
  {
    forall k: nat | k <= cap ensures Narrow(SerializeAll(a + b, k)) && |SerializeAll(a + b, k)| <= wa + wb {
      SerializeAllConcat(a, b, k);
      NarrowJoin(SerializeAll(a, k), SerializeAll(b, k));
    }
  }

  lemma SlimMore(es: seq<Element>, wa: nat, e: Element, w: nat, cap: nat)
    requires SlimAll(es, cap, wa) && Slim(e, cap, w)
    ensures SlimAll(es + [e], cap, wa + w + cap + 1)
  {
    SlimOne(e, cap, w);
    SlimJoin(es, wa, [e], w + cap + 1, cap);
  }

  lemma SlimWider(es: seq<Element>, cap: nat, w: nat, wider: nat)
    requires SlimAll(es, cap, w) && w <= wider
    ensures SlimAll(es, cap, wider)
  {
  }

  // ----- The elements of a declaration -----

  lemma DigitsAreNarrow(s: string)
    requires AllDigits(s)
    ensures Narrow(s)
  {
  }

  lemma SignedIsNarrow(n: int)
    ensures Narrow(ToSigned(n))
  {
  }

  lemma TagSlim(id: string, value: string, cap: nat)
    requires Narrow(id) && Narrow(value)
    ensures Slim(TagElement(id, value), cap, 20 + 6 * |id| + 6 * |value|)
  {
    HeadNew("tag");
    HeadAttribute(New("tag"), 4, "id", id);
    SlimText(New("tag").AddAttribute("id", id), cap, 4 + 4 + 2 + 6 * |id|, value);
  }

  lemma UnitsSlim(name: string, cap: nat)
    requires Narrow(name)
    ensures Slim(UnitsElement(name), cap, 20 + 6 * |name|)
  {
    HeadNew("units");
    SlimText(New("units"), cap, 6, name);
  }

  /** An element with up to four attributes. */
  lemma FourSlim(name: string, i1: string, v1: string, i2: string, v2: string, i3: string, v3: string, i4: string,
                 v4: string)
    requires Narrow(name) && Narrow(i1) && Narrow(i2) && Narrow(i3) && Narrow(i4)
    requires Narrow(v1) && Narrow(v2) && Narrow(v3) && Narrow(v4)
    ensures var e := New(name).AddAttribute(i1, v1).AddAttribute(i2, v2);
            SlimHead(e, |name| + 9 + |i1| + |i2| + 6 * |v1| + 6 * |v2|)
    ensures var e := New(name).AddAttribute(i1, v1).AddAttribute(i2, v2).AddAttribute(i3, v3);
            SlimHead(e, |name| + 13 + |i1| + |i2| + |i3| + 6 * |v1| + 6 * |v2| + 6 * |v3|)
    ensures var e := New(name).AddAttribute(i1, v1).AddAttribute(i2, v2).AddAttribute(i3, v3).AddAttribute(i4, v4);
            SlimHead(e, |name| + 17 + |i1| + |i2| + |i3| + |i4| + 6 * |v1| + 6 * |v2| + 6 * |v3| + 6 * |v4|)
  {
    hide SlimHead, Narrow;
    HeadNew(name);
    var e1 := New(name).AddAttribute(i1, v1);
    HeadAttribute(New(name), |name| + 1, i1, v1);
    var e2 := e1.AddAttribute(i2, v2);
    HeadAttribute(e1, |name| + 5 + |i1| + 6 * |v1|, i2, v2);
    var e3 := e2.AddAttribute(i3, v3);
    HeadAttribute(e2, |name| + 9 + |i1| + |i2| + 6 * |v1| + 6 * |v2|, i3, v3);
    HeadAttribute(e3, |name| + 13 + |i1| + |i2| + |i3| + 6 * |v1| + 6 * |v2| + 6 * |v3|, i4, v4);
  }

  lemma ReadNames()
    ensures Narrow("read") && Narrow("var") && Narrow("type") && Narrow("bits") && Narrow("endian") && Narrow("octets")
    ensures Narrow("raw") && Narrow("big") && Narrow("little")
    ensures |"read"| == |"type"| == |"bits"| == 4 && |"var"| == |"raw"| == 3
    ensures |"endian"| == |"octets"| == |"little"| == 6
  {
  }

  lemma ReadSlim(v: string, kind: string, bits: nat, native: Endian, cap: nat)
    requires Narrow(v) && Narrow(kind)
    ensures Slim(ReadElement(v, kind, bits, native), cap, 80 + 6 * |v| + 6 * |kind| + 6 * |ToDecimal(bits)|)
  {
    hide Narrow, Markup, OpenTag;
    ReadNames();
    NarrowDecimal(bits);
    FourSlim("read", "var", v, "type", kind, "bits", ToDecimal(bits), "endian", NativeEndian(native));
    SlimEmpty(ReadElement(v, kind, bits, native), cap,
              4 + 17 + 3 + 4 + 4 + 6 + 6 * |v| + 6 * |kind| + 6 * |ToDecimal(bits)| + 36);
  }

  lemma NarrowDecimal(n: nat)
    ensures Narrow(ToDecimal(n))
  {
    DigitsAreNarrow(ToDecimal(n));
  }

  lemma RawReadSlim(v: string, octets: nat, cap: nat)
    requires Narrow(v)
    ensures Slim(ReadRawElement(v, octets), cap, 80 + 6 * |v| + 6 * |ToDecimal(octets)|)
  {
    hide Narrow, Markup, OpenTag;
    ReadNames();
    NarrowDecimal(octets);
    FourSlim("read", "var", v, "type", "raw", "octets", ToDecimal(octets), "octets", ToDecimal(octets));
    SlimEmpty(ReadRawElement(v, octets), cap, 4 + 13 + 3 + 4 + 6 + 6 * |v| + 18 + 6 * |ToDecimal(octets)|);
  }
}
