/** Elements whose text is plain: no carriage return, and every character fits in one C++ char. */
module PlainText {
  import opened Xml
  import opened XmlReader
  import opened XmlConformance
  import opened XmlDocument
  import opened Declarations

  // ----- Plain text -----

  /** XML characters of one byte and no carriage return. */
  predicate Plain(s: string) {
    forall i :: 0 <= i < |s| ==> s[i] != '\r' && IsChar(s[i]) && s[i] as int < 256
  }

  predicate PlainAttributes(attributes: seq<Attribute>) {
    forall i :: 0 <= i < |attributes| ==> Plain(attributes[i].id) && Plain(attributes[i].value)
  }

  predicate PlainTree(e: Element)
    decreases e, 1
  {
    Plain(e.name) && PlainAttributes(e.attributes) && Plain(e.content) && PlainTrees(e.children)
  }

  predicate PlainTrees(es: seq<Element>)
    decreases es, 0
  {
    es == [] || (PlainTree(es[0]) && PlainTrees(es[1..]))
  }

  lemma PlainJoin(a: string, b: string)
    requires Plain(a) && Plain(b)
    ensures Plain(a + b)
  {
  }

  lemma {:induction false} PlainEscape(s: string)
    requires Plain(s)
    ensures Plain(Escape(s))
  {
    if s != "" {
      PlainEscape(s[1..]);
      PlainJoin(EscapeChar(s[0]), Escape(s[1..]));
    }
  }

  lemma PlainAttribute(a: Attribute)
    requires Plain(a.id) && Plain(a.value)
    ensures Plain(AttributeText(a))
  {
    PlainEscape(a.value);
    PlainJoin(" " + a.id + "=\"", Escape(a.value));
  }

  lemma {:induction false} PlainAttributesText(attributes: seq<Attribute>)
    requires PlainAttributes(attributes)
    ensures Plain(AttributesText(attributes))
  {
    if attributes != [] {
      PlainAttribute(attributes[0]);
      PlainAttributesText(attributes[1..]);
      PlainJoin(AttributeText(attributes[0]), AttributesText(attributes[1..]));
    }
  }

  lemma PlainOpenTag(e: Element)
    requires Plain(e.name) && PlainAttributes(e.attributes)
    ensures Plain(OpenTag(e))
  {
    PlainAttributesText(e.attributes);
    PlainJoin("<" + e.name, AttributesText(e.attributes));
  }

  lemma PlainContent(e: Element)
    requires Plain(e.name) && Plain(e.content)
    ensures Plain(">" + Escape(e.content) + CloseTag(e.name))
  {
    PlainEscape(e.content);
    PlainJoin(">" + Escape(e.content), CloseTag(e.name));
  }

  lemma PlainSpaces(n: nat)
    ensures Plain(Spaces(n))
  {
  }

  lemma PlainNested(all: string, spaces: string, name: string)
    requires Plain(all) && Plain(spaces) && Plain(name)
    ensures Plain(">\n" + all + spaces + CloseTag(name))
  {
    PlainJoin(">\n", all);
    PlainJoin(">\n" + all, spaces);
    PlainJoin(">\n" + all + spaces, CloseTag(name));
  }

  lemma {:induction false} PlainMarkup(e: Element, indent: nat)
    requires PlainTree(e)
    ensures Plain(Markup(e, indent))
    decreases e, 1
  {
    PlainOpenTag(e);
    PlainContent(e);
    PlainSpaces(indent);
    PlainSerialized(e.children, indent + 1);
    PlainNested(SerializeAll(e.children, indent + 1), Spaces(indent), e.name);
    assert Plain("/>");
    PlainJoin(OpenTag(e), Body(e, indent));
  }

  lemma PlainLine(spaces: string, markup: string)
    requires Plain(spaces) && Plain(markup)
    ensures Plain(spaces + markup + "\n")
  {
    PlainJoin(spaces, markup);
    PlainJoin(spaces + markup, "\n");
  }

  lemma {:induction false} PlainSerialized(es: seq<Element>, indent: nat)
    requires PlainTrees(es)
    ensures Plain(SerializeAll(es, indent))
    decreases es, 0
  {
    if es != [] {
      PlainMarkup(es[0], indent);
      PlainSerialized(es[1..], indent);
      PlainSpaces(indent);
      PlainLine(Spaces(indent), Markup(es[0], indent));
      PlainJoin(Spaces(indent) + Markup(es[0], indent) + "\n", SerializeAll(es[1..], indent));
    }
  }

  lemma PlainSerialize(e: Element, indent: nat)
    requires PlainTree(e)
    ensures Plain(Serialize(e, indent))
  {
    PlainMarkup(e, indent);
    PlainSpaces(indent);
    PlainLine(Spaces(indent), Markup(e, indent));
  }

  predicate PlainItem(i: Item) {
    match i
    case Gap(space) => Plain(space)
    case Note(text) => Plain(text)
    case Node(e) => PlainTree(e)
  }

  lemma PlainItemText(i: Item)
    requires PlainItem(i)
    ensures Plain(ItemText(i))
  {
    match i
    case Gap(_) =>
    case Note(text) => PlainJoin("<!--" + text, "-->");
    case Node(e) => PlainSerialize(e, 1);
  }

  lemma {:induction false} PlainItemsText(items: seq<Item>)
    requires forall k :: 0 <= k < |items| ==> PlainItem(items[k])
    ensures Plain(ItemsText(items))
  {
    if items != [] {
      PlainItemText(items[0]);
      PlainItemsText(items[1..]);
      PlainJoin(ItemText(items[0]), ItemsText(items[1..]));
    }
  }

  // ----- The elements -----

  /** An element that is read back as it is, from one-byte text. */
  predicate Standard(e: Element) {
    Sound(e) && PlainTree(e)
  }

  lemma {:induction false} PlainAppend(es: seq<Element>, e: Element)
    requires PlainTrees(es) && PlainTree(e)
    ensures PlainTrees(es + [e])
  {
    if es == [] {
      assert [] + [e] == [e] && [e][1..] == [];
    } else {
      PlainAppend(es[1..], e);
      assert (es + [e])[1..] == es[1..] + [e];
    }
  }

  lemma StandardNew(name: string)
    requires IsName(name) && Plain(name)
    ensures Standard(New(name))
  {
    SoundNew(name);
  }

  lemma StandardAttribute(e: Element, id: string, value: string)
    requires Standard(e) && IsName(id) && NoSpaceButBlank(value) && Plain(id) && Plain(value)
    requires !HasAttribute(e.attributes, id)
    ensures Standard(e.AddAttribute(id, value))
  {
    SoundAttribute(e, id, value);
  }

  lemma StandardChild(e: Element, child: Element)
    requires Standard(e) && Standard(child)
    ensures Standard(e.AddChild(child))
  {
    SoundChild(e, child);
    PlainAppend(e.children, child);
  }

  lemma {:induction false} SeenIsKept(e: Element)
    requires Faithful(e)
    ensures Seen(e) == e
    decreases e, 1
  {
    forall i | 0 <= i < |e.attributes| ensures SeenAttributes(e.attributes)[i] == e.attributes[i] {
      assert SpaceOut(e.attributes[i].value) == e.attributes[i].value;
    }
    assert SeenAttributes(e.attributes) == e.attributes;
    AllSeenIsKept(e.children);
  }

  lemma {:induction false} AllSeenIsKept(es: seq<Element>)
    requires AllFaithful(es)
    ensures SeenAll(es) == es
    decreases es, 0
  {
    if es != [] {
      SeenIsKept(es[0]);
      AllSeenIsKept(es[1..]);
    }
  }
}
