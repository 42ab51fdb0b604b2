/** The XML layer: elements, their fluent construction and their serialization. */
module Xml {
  datatype Attribute = Attribute(id: string, value: string)

  datatype Element = Element(name: string, attributes: seq<Attribute>, children: seq<Element>, content: string) {
    function AddAttribute(id: string, value: string): Element {
      this.(attributes := attributes + [Attribute(id, value)])
    }

    function AddChild(child: Element): Element {
      this.(children := children + [child])
    }

    function WithContent(text: string): Element {
      this.(content := text)
    }
  }

  function New(name: string): Element {
    Element(name, [], [], "")
  }

  /** The characters of XML 1.0 (fifth edition, section 2.2). */
  predicate IsChar(c: char) {
    c == '\t' || c == '\n' || c == '\r' || (' ' <= c && c != '\U{FFFE}' && c != '\U{FFFF}')
  }

  predicate IsText(s: string) {
    forall i :: 0 <= i < |s| ==> IsChar(s[i])
  }

  /** Text whose characters take one byte each. */
  predicate Narrow(s: string) {
    forall i :: 0 <= i < |s| ==> IsChar(s[i]) && s[i] as int < 256
  }

  function EscapeChar(ch: char): string {
    match ch
    case '"' => "&quot;"
    case '\'' => "&apos;"
    case '<' => "&lt;"
    case '>' => "&gt;"
    case '&' => "&amp;"
    case _ => [ch]
  }

  function Escape(s: string): string {
    if s == "" then "" else EscapeChar(s[0]) + Escape(s[1..])
  }

  function Spaces(n: nat): (r: string)
    ensures |r| == n
  {
    seq(n, _ => ' ')
  }

  function AttributeText(a: Attribute): string {
    " " + a.id + "=\"" + Escape(a.value) + "\""
  }

  function AttributesText(attributes: seq<Attribute>): string {
    if attributes == [] then "" else AttributeText(attributes[0]) + AttributesText(attributes[1..])
  }

  function OpenTag(e: Element): string {
    "<" + e.name + AttributesText(e.attributes)
  }

  function CloseTag(name: string): string {
    "</" + name + ">"
  }

  /** An element from its '<' to its last '>'. */
  function Markup(e: Element, indent: nat): string
    decreases e, 2
  {
    OpenTag(e) + Body(e, indent)
  }

  /** What follows the attributes: an element with content is printed without its children. */
  function Body(e: Element, indent: nat): string
    decreases e, 1
  {
    if e.content == "" && e.children == [] then "/>"
    else if e.content != "" then ">" + Escape(e.content) + CloseTag(e.name)
    else ">\n" + SerializeAll(e.children, indent + 1) + Spaces(indent) + CloseTag(e.name)
  }

  function SerializeAll(es: seq<Element>, indent: nat): string
    decreases es, 0
  {
    if es == [] then ""
    else Spaces(indent) + Markup(es[0], indent) + "\n" + SerializeAll(es[1..], indent)
  }

  /** What serialize() appends to the stream. */
  function Serialize(e: Element, indent: nat): string {
    Spaces(indent) + Markup(e, indent) + "\n"
  }

  lemma {:induction false} EscapeConcat(a: string, b: string)
    ensures Escape(a + b) == Escape(a) + Escape(b)
  {
    if a == "" {
      assert a + b == b;
    } else {
      assert (a + b)[1..] == a[1..] + b;
      EscapeConcat(a[1..], b);
    }
  }

  lemma EscapeLast(s: string, i: nat)
    requires i < |s|
    ensures Escape(s[..i + 1]) == Escape(s[..i]) + EscapeChar(s[i])
  {
    EscapeConcat(s[..i], [s[i]]);
    assert s[..i + 1] == s[..i] + [s[i]];
    assert [s[i]][1..] == "";
  }

  /** Position i starts one of the five predefined references (section 4.6 of XML 1.0). */
  predicate ReferenceAt(s: string, i: nat)
    requires i < |s|
  {
    "&quot;" <= s[i..] || "&apos;" <= s[i..] || "&lt;" <= s[i..] || "&gt;" <= s[i..] || "&amp;" <= s[i..]
  }

  predicate OnlyReferences(s: string) {
    forall i :: 0 <= i < |s| ==>
      s[i] != '"' && s[i] != '\'' && s[i] != '<' && s[i] != '>' && (s[i] == '&' ==> ReferenceAt(s, i))
  }

  lemma ReferencesJoin(a: string, b: string)
    requires OnlyReferences(a) && OnlyReferences(b)
    ensures OnlyReferences(a + b)
  {
    forall i | 0 <= i < |a| && a[i] == '&' ensures ReferenceAt(a + b, i) {
      assert ReferenceAt(a, i);
      assert (a + b)[i..] == a[i..] + b;
    }
    forall i | |a| <= i < |a + b| && (a + b)[i] == '&' ensures ReferenceAt(a + b, i) {
      assert ReferenceAt(b, i - |a|);
      assert (a + b)[i..] == b[i - |a|..];
    }
  }

  /** Escaped text holds no markup character: quotes and angle brackets are gone, and every ampersand
      starts a reference. */
  lemma {:induction false} EscapedHasNoMarkup(s: string)
    ensures OnlyReferences(Escape(s))
  {
    if s != "" {
      EscapedHasNoMarkup(s[1..]);
      CharHasNoMarkup(s[0]);
      ReferencesJoin(EscapeChar(s[0]), Escape(s[1..]));
    }
  }

  lemma CharHasNoMarkup(c: char)
    ensures OnlyReferences(EscapeChar(c))
  {
    var t := EscapeChar(c);
    if c in {'"', '\'', '<', '>', '&'} {
      assert t[0..] == t;
      assert ReferenceAt(t, 0);
    }
  }

  lemma {:induction false} AttributesConcat(a: seq<Attribute>, b: seq<Attribute>)
    ensures AttributesText(a + b) == AttributesText(a) + AttributesText(b)
  {
    if a == [] {
      assert a + b == b;
    } else {
      assert (a + b)[1..] == a[1..] + b;
      AttributesConcat(a[1..], b);
    }
  }

  lemma {:induction false} SerializeAllConcat(a: seq<Element>, b: seq<Element>, indent: nat)
    ensures SerializeAll(a + b, indent) == SerializeAll(a, indent) + SerializeAll(b, indent)
  {
    if a == [] {
      assert a + b == b;
    } else {
      assert (a + b)[1..] == a[1..] + b;
      SerializeAllConcat(a[1..], b, indent);
    }
  }

  lemma SerializeOne(e: Element, indent: nat)
    ensures SerializeAll([e], indent) == Serialize(e, indent)
  {
    assert [e][1..] == [];
  }

  lemma AttributesLast(attributes: seq<Attribute>, i: nat)
    requires i < |attributes|
    ensures AttributesText(attributes[..i + 1]) == AttributesText(attributes[..i]) + AttributeText(attributes[i])
  {
    AttributesConcat(attributes[..i], [attributes[i]]);
    assert attributes[..i + 1] == attributes[..i] + [attributes[i]];
    assert [attributes[i]][1..] == [];
  }

  lemma SerializeLast(es: seq<Element>, i: nat, indent: nat)
    requires i < |es|
    ensures SerializeAll(es[..i + 1], indent) == SerializeAll(es[..i], indent) + Serialize(es[i], indent)
  {
    SerializeAllConcat(es[..i], [es[i]], indent);
    SerializeOne(es[i], indent);
    assert es[..i + 1] == es[..i] + [es[i]];
  }

  lemma Grouped(o: string, a: string, b: string, c: string, d: string)
    ensures o + a + b + c + d == o + (a + b + c + d)
    ensures o + a + b + (c + d) == o + (a + b + c + d)
    ensures o + a + b + c == o + (a + b + c)
    ensures o + a + b == o + (a + b)
  {
  }

  // ----- Layout -----

  lemma LeafLine(name: string, id: string, value: string, text: string, indent: nat)
    ensures Serialize(Element(name, [Attribute(id, value)], [], text), indent)
         == Spaces(indent) + ("<" + name + (" " + id + "=\"" + Escape(value) + "\"")
                              + if text == "" then "/>" else ">" + Escape(text) + ("</" + name + ">")) + "\n"
  {
    var a := Attribute(id, value);
    assert [a][1..] == [];
    assert AttributesText([a]) == AttributeText(a) + "" == AttributeText(a);
    var e := Element(name, [a], [], text);
    assert OpenTag(e) == "<" + name + AttributeText(a);
    assert Markup(e, indent) == OpenTag(e) + Body(e, indent);
  }

  /** The layout of two levels: every element on lines of its own, children one blank further in than their
      parent, attribute values in double quotes. */
  lemma {:induction false} TwoLevels(name: string, first: string, second: string, id: string, value: string,
                                     text: string, indent: nat)
    requires text != ""
    ensures var margin, inner := Spaces(indent), Spaces(indent + 1);
            var attribute := " " + id + "=\"" + Escape(value) + "\"";
            Serialize(Element(name, [], [Element(first, [Attribute(id, value)], [], ""),
                                         Element(second, [Attribute(id, value)], [], text)], ""), indent)
            == margin + ("<" + name
                         + (">\n"
                            + ((inner + ("<" + first + attribute + "/>") + "\n")
                               + (inner + ("<" + second + attribute + (">" + Escape(text) + ("</" + second + ">")))
                                  + "\n"))
                            + margin + ("</" + name + ">"))) + "\n"
  {
    hide Escape, Spaces;
    var a, b := Element(first, [Attribute(id, value)], [], ""), Element(second, [Attribute(id, value)], [], text);
    LeafLine(first, id, value, "", indent + 1);
    LeafLine(second, id, value, text, indent + 1);
    SerializeAllConcat([a], [b], indent + 1);
    SerializeOne(a, indent + 1);
    SerializeOne(b, indent + 1);
    assert [a] + [b] == [a, b];
    var e := Element(name, [], [a, b], "");
    assert OpenTag(e) == "<" + name + "" == "<" + name;
    assert Markup(e, indent) == OpenTag(e) + Body(e, indent);
    assert Body(e, indent)
        == ">\n" + (Serialize(a, indent + 1) + Serialize(b, indent + 1)) + Spaces(indent) + CloseTag(name);
  }


  /** A std::ostringstream. */
  class OStream {
    var text: string

    constructor ()
      ensures text == ""
    {
      text := "";
    }

    method Put(s: string)
      modifies this
      ensures text == old(text) + s
    {
      text := text + s;
    }

    /** operator<< for an escaped string. */
    method PutEscaped(s: string)
      modifies this
      ensures text == old(text) + Escape(s)
    {
      for i := 0 to |s|
        invariant text == old(text) + Escape(s[..i])
      {
        EscapeLast(s, i);
        ghost var before := Escape(s[..i]);
        Put(EscapeChar(s[i]));
        Grouped(old(text), before, EscapeChar(s[i]), "", "");
      }
      assert s[..|s|] == s;
    }

    method PutAttribute(a: Attribute)
      modifies this
      ensures text == old(text) + AttributeText(a)
    {
      Put(" ");
      Put(a.id);
      Put("=\"");
      Grouped(old(text), " ", a.id, "=\"", "");
      PutEscaped(a.value);
      Put("\"");
      Grouped(old(text), " " + a.id + "=\"", Escape(a.value), "\"", "");
    }

    method PutAttributes(attributes: seq<Attribute>)
      modifies this
      ensures text == old(text) + AttributesText(attributes)
    {
      for i := 0 to |attributes|
        invariant text == old(text) + AttributesText(attributes[..i])
      {
        AttributesLast(attributes, i);
        ghost var before := AttributesText(attributes[..i]);
        PutAttribute(attributes[i]);
        Grouped(old(text), before, AttributeText(attributes[i]), "", "");
      }
      assert attributes[..|attributes|] == attributes;
    }

    method PutEndTag(name: string)
      modifies this
      ensures text == old(text) + (CloseTag(name) + "\n")
    {
      Put("</");
      Put(name);
      Put(">\n");
      Grouped(old(text), "</", name, ">\n", "");
      assert ">\n" == ">" + "\n";
      Grouped("</" + name, ">", "\n", "", "");
    }

    /** The loop of serialize() over the children. */
    method SerializeChildren(es: seq<Element>, indent: nat)
      modifies this
      ensures text == old(text) + SerializeAll(es, indent)
      decreases es, 0
    {
      for i := 0 to |es|
        invariant text == old(text) + SerializeAll(es[..i], indent)
      {
        SerializeLast(es, i, indent);
        ghost var before := SerializeAll(es[..i], indent);
        SerializeElement(es[i], indent);
        Grouped(old(text), before, Serialize(es[i], indent), "", "");
      }
      assert es[..|es|] == es;
    }

    /** The part of serialize() after the attributes. */
    method PutBody(e: Element, indent: nat)
      modifies this
      ensures text == old(text) + (Body(e, indent) + "\n")
      decreases e, 1
    {
      if e.content == "" && e.children == [] {
        Put("/>\n");
        assert "/>\n" == "/>" + "\n";
      } else if e.content != "" {
        Put(">");
        PutEscaped(e.content);
        PutEndTag(e.name);
        Grouped(old(text), ">", Escape(e.content), CloseTag(e.name), "\n");
      } else {
        Put(">\n");
        SerializeChildren(e.children, indent + 1);
        Grouped(old(text), ">\n", SerializeAll(e.children, indent + 1), "", "");
        Put(Spaces(indent));
        PutEndTag(e.name);
        Grouped(old(text), ">\n" + SerializeAll(e.children, indent + 1), Spaces(indent), CloseTag(e.name), "\n");
      }
    }

    /** element::serialize. */
    method SerializeElement(e: Element, indent: nat)
      modifies this
      ensures text == old(text) + Serialize(e, indent)
      decreases e, 2
    {
      Put(Spaces(indent));
      Put("<");
      Put(e.name);
      PutAttributes(e.attributes);
      Grouped(old(text), Spaces(indent), "<", e.name, AttributesText(e.attributes));
      Grouped(Spaces(indent), "<", e.name, AttributesText(e.attributes), "");
      assert text == old(text) + (Spaces(indent) + OpenTag(e));
      PutBody(e, indent);
      Grouped(old(text), Spaces(indent) + OpenTag(e), Body(e, indent), "\n", "");
      Grouped(Spaces(indent), OpenTag(e), Body(e, indent), "\n", "");
    }
  }
}
