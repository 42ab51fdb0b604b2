/** What a conforming XML reader recovers from the recorder's output, and exactly when that is the
    tree that was written. */
module XmlConformance {
  import opened Bytes
  import opened Xml
  import opened XmlReader
  import opened XmlRoundTrip

  // ----- Line-end normalization acts piece by piece -----

  /** No line end is split between the two texts. */
  predicate Separate(a: string, b: string) {
    a == "" || b == "" || a[|a| - 1] != '\r' || b[0] != '\n'
  }

  lemma EolCrLf(s: string)
    ensures NormalizeEol("\r" + ("\n" + s)) == "\n" + NormalizeEol(s)
  {
    var t := "\r" + ("\n" + s);
    assert t[2..] == s;
  }

  lemma EolCons(c: char, s: string)
    requires c == '\r' ==> s == "" || s[0] != '\n'
    ensures NormalizeEol([c] + s) == [if c == '\r' then '\n' else c] + NormalizeEol(s)
  {
    assert ([c] + s)[1..] == s;
  }

  lemma EolConcatCrLf(r: string, b: string)
    requires NormalizeEol(r + b) == NormalizeEol(r) + NormalizeEol(b)
    ensures NormalizeEol("\r" + ("\n" + r) + b) == NormalizeEol("\r" + ("\n" + r)) + NormalizeEol(b)
  {
    Nest("\r", "\n" + r, "", "", "", b);
    Nest("\n", r, "", "", "", b);
    EolCrLf(r + b);
    EolCrLf(r);
    Nest("\n", NormalizeEol(r), "", "", "", NormalizeEol(b));
  }

  lemma EolConcatOther(c: char, r: string, b: string)
    requires c == '\r' ==> (r == "" || r[0] != '\n') && (r + b == "" || (r + b)[0] != '\n')
    requires NormalizeEol(r + b) == NormalizeEol(r) + NormalizeEol(b)
    ensures NormalizeEol([c] + r + b) == NormalizeEol([c] + r) + NormalizeEol(b)
  {
    Nest([c], r, "", "", "", b);
    EolCons(c, r + b);
    EolCons(c, r);
    Nest([if c == '\r' then '\n' else c], NormalizeEol(r), "", "", "", NormalizeEol(b));
  }

  lemma {:induction false} EolConcat(a: string, b: string)
    requires Separate(a, b)
    ensures NormalizeEol(a + b) == NormalizeEol(a) + NormalizeEol(b)
    decreases |a|
  {
    if a == "" {
      assert a + b == b;
    } else if a[0] == '\r' && |a| > 1 && a[1] == '\n' {
      EolConcat(a[2..], b);
      assert a == "\r" + ("\n" + a[2..]);
      EolConcatCrLf(a[2..], b);
    } else {
      EolConcat(a[1..], b);
      assert a == [a[0]] + a[1..];
      EolConcatOther(a[0], a[1..], b);
    }
  }

  lemma {:induction false} EolIdentity(s: string)
    requires forall i :: 0 <= i < |s| ==> s[i] != '\r'
    ensures NormalizeEol(s) == s
  {
    if s != "" {
      EolIdentity(s[1..]);
    }
  }

  lemma {:induction false} EolClean(s: string)
    ensures forall i :: 0 <= i < |NormalizeEol(s)| ==> NormalizeEol(s)[i] != '\r'
    ensures NormalizeEol(s) == "" <==> s == ""
    decreases |s|
  {
    if s != "" {
      if s[0] == '\r' && |s| > 1 && s[1] == '\n' {
        EolClean(s[2..]);
      } else {
        EolClean(s[1..]);
      }
    }
  }

  lemma EscapeCons(c: char, s: string)
    ensures Escape([c] + s) == EscapeChar(c) + Escape(s)
  {
    assert ([c] + s)[1..] == s;
  }

  lemma {:induction false} EscapeCrLf(r: string)
    requires NormalizeEol(Escape(r)) == Escape(NormalizeEol(r))
    ensures NormalizeEol(Escape("\r" + ("\n" + r))) == Escape(NormalizeEol("\r" + ("\n" + r)))
  {
    EscapeCons('\r', "\n" + r);
    EscapeCons('\n', r);
    EolCrLf(Escape(r));
    EolCrLf(r);
    EscapeCons('\n', NormalizeEol(r));
  }

  lemma EscapeOther(c: char, r: string)
    requires NormalizeEol(Escape(r)) == Escape(NormalizeEol(r))
    requires Separate(EscapeChar(c), Escape(r)) && Separate([c], r)
    ensures NormalizeEol(Escape([c] + r)) == Escape(NormalizeEol([c] + r))
  {
    EscapeCons(c, r);
    EolCons(c, r);
    EolConcat(EscapeChar(c), Escape(r));
    EolOfEscapeChar(c);
    EscapeCons(if c == '\r' then '\n' else c, NormalizeEol(r));
  }

  lemma EscapeCharHead(c: char)
    ensures EscapeChar(c) != "" && (EscapeChar(c)[0] == '\n' <==> c == '\n')
  {
  }

  lemma {:induction false} EscapeHead(s: string)
    ensures s != "" ==> Escape(s) != "" && (Escape(s)[0] == '\n' <==> s[0] == '\n')
  {
    if s != "" {
      EscapeCharHead(s[0]);
      assert Escape(s) == EscapeChar(s[0]) + Escape(s[1..]);
    }
  }

  /** Escaping keeps line ends where they are. */
  lemma {:induction false} EolEscape(s: string)
    ensures NormalizeEol(Escape(s)) == Escape(NormalizeEol(s))
    decreases |s|
  {
    if s == "" {
    } else if s[0] == '\r' && |s| > 1 && s[1] == '\n' {
      assert s == "\r" + ("\n" + s[2..]);
      EolEscape(s[2..]);
      EscapeCrLf(s[2..]);
    } else {
      assert s == [s[0]] + s[1..];
      EolEscape(s[1..]);
      EscapeHead(s[1..]);
      EscapeOther(s[0], s[1..]);
    }
  }

  lemma EolOfEscapeChar(c: char)
    ensures NormalizeEol(EscapeChar(c)) == EscapeChar(if c == '\r' then '\n' else c)
  {
    if c == '\r' {
      assert NormalizeEol("\r") == "\n" + NormalizeEol("");
    } else {
      EolIdentity(EscapeChar(c));
    }
  }

  // ----- Line-end normalization of a whole document -----

  /** Normalization of a text between two neighbours that cannot split a line end with it. */
  lemma EolBetween(a: string, s: string, b: string)
    requires a != "" && a[|a| - 1] != '\r' && b != "" && b[0] != '\n'
    ensures NormalizeEol(a + s + b) == NormalizeEol(a) + NormalizeEol(s) + NormalizeEol(b)
  {
    EolConcat(a, s);
    EolConcat(a + s, b);
  }

  predicate NoReturn(s: string) {
    forall i :: 0 <= i < |s| ==> s[i] != '\r'
  }

  lemma EolAttribute(a: Attribute)
    requires IsName(a.id)
    ensures NormalizeEol(AttributeText(a)) == AttributeText(a.(value := NormalizeEol(a.value)))
    ensures AttributeText(a)[|AttributeText(a)| - 1] == '"'
  {
    var start := " " + a.id + "=\"";
    assert NoReturn(start);
    EolIdentity(start);
    EolIdentity("\"");
    EolBetween(start, Escape(a.value), "\"");
    EolEscape(a.value);
  }

  lemma EolAttributesParts(attributes: seq<Attribute>)
    ensures attributes == [] ==> EolAttributes(attributes) == []
    ensures attributes != [] ==>
      EolAttributes(attributes)
      == [attributes[0].(value := NormalizeEol(attributes[0].value))] + EolAttributes(attributes[1..])
  {
  }

  lemma AttributesCons(a: Attribute, rest: seq<Attribute>)
    ensures AttributesText([a] + rest) == AttributeText(a) + AttributesText(rest)
  {
    assert ([a] + rest)[1..] == rest;
  }

  lemma {:induction false} EolAttributesText(attributes: seq<Attribute>)
    requires ValidAttributes(attributes)
    ensures NormalizeEol(AttributesText(attributes)) == AttributesText(EolAttributes(attributes))
    ensures attributes != [] ==>
              AttributesText(attributes) != "" && AttributesText(attributes)[|AttributesText(attributes)| - 1] == '"'
  {
    hide NormalizeEol, Escape, IsName, EolAttributes;
    EolAttributesParts(attributes);
    if attributes == [] {
      EolIdentity(AttributesText(attributes));
    } else {
      EolAttributesText(attributes[1..]);
      EolAttribute(attributes[0]);
      EolConcat(AttributeText(attributes[0]), AttributesText(attributes[1..]));
      AttributesCons(attributes[0].(value := NormalizeEol(attributes[0].value)), EolAttributes(attributes[1..]));
    }
  }

  lemma EolOpenTag(e: Element)
    requires IsName(e.name) && ValidAttributes(e.attributes)
    ensures NormalizeEol(OpenTag(e)) == OpenTag(e.(attributes := EolAttributes(e.attributes)))
    ensures OpenTag(e) != "" && OpenTag(e)[|OpenTag(e)| - 1] != '\r'
  {
    var start := "<" + e.name;
    assert NoReturn(start);
    EolIdentity(start);
    EolAttributesText(e.attributes);
    EolConcat(start, AttributesText(e.attributes));
  }

  lemma EolCloseTag(name: string)
    requires IsName(name)
    ensures NormalizeEol(CloseTag(name)) == CloseTag(name) && NoReturn(CloseTag(name))
    ensures CloseTag(name)[0] == '<' && CloseTag(name)[|CloseTag(name)| - 1] == '>'
  {
    assert NoReturn(CloseTag(name));
    EolIdentity(CloseTag(name));
  }

  lemma MarkupEnds(e: Element, indent: nat)
    requires IsName(e.name)
    ensures Markup(e, indent) != "" && Markup(e, indent)[0] == '<' && Markup(e, indent)[|Markup(e, indent)| - 1] == '>'
  {
    EolCloseTag(e.name);
  }

  lemma EolBody(e: Element, indent: nat)
    requires IsName(e.name)
    requires (e.content == "" ==>
               NormalizeEol(SerializeAll(e.children, indent + 1)) == SerializeAll(EolTrees(e.children), indent + 1))
    ensures NormalizeEol(Body(e, indent)) == Body(EolTree(e), indent)
    ensures Body(e, indent) != "" && Body(e, indent)[0] != '\n'
  {
    hide NormalizeEol, Escape, SerializeAll, EolAttributes, IsNameStart, IsNameChar;
    EolClean(e.content);
    EolCloseTag(e.name);
    if e.content == "" && e.children == [] {
      EolIdentity("/>");
    } else if e.content != "" {
      EolIdentity(">");
      EolBetween(">", Escape(e.content), CloseTag(e.name));
      EolEscape(e.content);
    } else {
      EolNested(SerializeAll(e.children, indent + 1), Spaces(indent), CloseTag(e.name));
      assert EolTree(e).children != [];
    }
  }

  lemma {:induction false} EolNested(all: string, spaces: string, close: string)
    requires NoReturn(spaces) && NoReturn(close) && close != "" && close[0] == '<'
    requires forall i :: 0 <= i < |spaces| ==> spaces[i] == ' '
    ensures NormalizeEol(">\n" + all + spaces + close) == ">\n" + NormalizeEol(all) + spaces + close
  {
    EolIdentity(">\n");
    EolIdentity(spaces + close);
    EolBetween(">\n", all, spaces + close);
    Nest(">\n" + all, spaces, "", "", "", close);
    Nest(">\n" + NormalizeEol(all), spaces, "", "", "", close);
  }

  lemma {:induction false} EolMarkup(e: Element, indent: nat)
    requires ValidNames(e)
    ensures NormalizeEol(Markup(e, indent)) == Markup(EolTree(e), indent)
    decreases e, 1
  {
    EolOpenTag(e);
    EolSerializeAll(e.children, indent + 1);
    EolBody(e, indent);
    EolConcat(OpenTag(e), Body(e, indent));
  }

  /** One serialized element and what follows it. */
  lemma EolLine(spaces: string, markup: string, rest: string)
    requires forall i :: 0 <= i < |spaces| ==> spaces[i] == ' '
    requires markup != "" && markup[0] == '<' && markup[|markup| - 1] == '>'
    ensures NormalizeEol(spaces + markup + "\n" + rest) == spaces + NormalizeEol(markup) + "\n" + NormalizeEol(rest)
  {
    EolIdentity(spaces);
    EolIdentity("\n");
    EolConcat(spaces, markup);
    EolConcat(spaces + markup, "\n");
    EolConcat(spaces + markup + "\n", rest);
  }

  lemma {:induction false} EolSerializeAll(es: seq<Element>, indent: nat)
    requires AllValidNames(es)
    ensures NormalizeEol(SerializeAll(es, indent)) == SerializeAll(EolTrees(es), indent)
    decreases es, 0
  {
    if es != [] {
      EolMarkup(es[0], indent);
      EolSerializeAll(es[1..], indent);
      MarkupEnds(es[0], indent);
      EolLine(Spaces(indent), Markup(es[0], indent), SerializeAll(es[1..], indent));
      SerializeCons(EolTree(es[0]), EolTrees(es[1..]), indent);
    }
  }

  lemma SerializeCons(e: Element, rest: seq<Element>, indent: nat)
    ensures SerializeAll([e] + rest, indent) == Spaces(indent) + Markup(e, indent) + "\n" + SerializeAll(rest, indent)
  {
    assert ([e] + rest)[1..] == rest;
  }

  lemma {:induction false} EolTreesValid(es: seq<Element>)
    requires AllValidNames(es)
    ensures AllValidNames(EolTrees(es))
    decreases es, 0
  {
    if es != [] {
      EolTreeValid(es[0]);
      EolTreesValid(es[1..]);
      assert ([EolTree(es[0])] + EolTrees(es[1..]))[1..] == EolTrees(es[1..]);
    }
  }

  lemma {:induction false} EolTreeValid(e: Element)
    requires ValidNames(e)
    ensures ValidNames(EolTree(e))
    decreases e, 1
  {
    EolTreesValid(e.children);
  }

  // ----- Which forests are XML text -----

  /** Every printed value and content is made of XML characters. */
  predicate TextTree(e: Element)
    decreases e, 1
  {
    && (forall i :: 0 <= i < |e.attributes| ==> IsText(e.attributes[i].value))
    && IsText(e.content) && (e.content != "" || TextTrees(e.children))
  }

  predicate TextTrees(es: seq<Element>)
    decreases es, 0
  {
    es == [] || (TextTree(es[0]) && TextTrees(es[1..]))
  }

  lemma TextJoin(a: string, b: string)
    ensures IsText(a + b) <==> IsText(a) && IsText(b)
  {
    if IsText(a + b) {
      assert forall i :: 0 <= i < |a| ==> a[i] == (a + b)[i];
      assert forall i :: 0 <= i < |b| ==> b[i] == (a + b)[|a| + i];
    }
  }

  lemma ThreeTexts(a: string, b: string, c: string)
    ensures IsText(a + b + c) <==> IsText(a) && IsText(b) && IsText(c)
  {
    TextJoin(a, b);
    TextJoin(a + b, c);
  }

  lemma OneCharacter(c: char)
    ensures IsText([c]) <==> IsChar(c)
  {
    assert [c][0] == c;
  }

  lemma EscapeCharIsText(c: char)
    ensures IsText(EscapeChar(c)) <==> IsChar(c)
  {
    OneCharacter(c);
  }

  lemma NoText(s: string)
    requires s == ""
    ensures IsText(s) && Escape(s) == s
  {
  }

  lemma {:induction false} EscapeText(s: string)
    ensures IsText(Escape(s)) <==> IsText(s)
  {
    hide IsText, EscapeChar;
    if s == "" {
      NoText(s);
    } else {
      EscapeText(s[1..]);
      EscapeCharIsText(s[0]);
      OneCharacter(s[0]);
      TextJoin(EscapeChar(s[0]), Escape(s[1..]));
      TextJoin([s[0]], s[1..]);
      assert s == [s[0]] + s[1..];
    }
  }

  /** Names of lower-case letters. */
  predicate Lower(s: string) {
    s != "" && forall i :: 0 <= i < |s| ==> 'a' <= s[i] <= 'z'
  }

  lemma LowerIsName(s: string)
    requires Lower(s)
    ensures IsName(s)
  {
  }

  lemma NameIsText(name: string)
    requires IsName(name)
    ensures IsText(name)
  {
  }

  lemma AttributeIsText(a: Attribute)
    requires IsName(a.id)
    ensures IsText(AttributeText(a)) <==> IsText(a.value)
  {
    NameIsText(a.id);
    EscapeText(a.value);
    ThreeTexts(" ", a.id, "=\"");
    ThreeTexts(" " + a.id + "=\"", Escape(a.value), "\"");
  }

  lemma {:induction false} AttributesAreText(attributes: seq<Attribute>)
    requires ValidAttributes(attributes)
    ensures IsText(AttributesText(attributes)) <==> forall i :: 0 <= i < |attributes| ==> IsText(attributes[i].value)
  {
    hide IsText;
    if attributes == [] {
      NoText(AttributesText(attributes));
    } else {
      AttributeIsText(attributes[0]);
      AttributesAreText(attributes[1..]);
      TextJoin(AttributeText(attributes[0]), AttributesText(attributes[1..]));
    }
  }

  lemma OpenTagIsText(e: Element)
    requires IsName(e.name) && ValidAttributes(e.attributes)
    ensures IsText(OpenTag(e)) <==> forall i :: 0 <= i < |e.attributes| ==> IsText(e.attributes[i].value)
  {
    NameIsText(e.name);
    AttributesAreText(e.attributes);
    ThreeTexts("<", e.name, AttributesText(e.attributes));
  }

  lemma CloseTagIsText(name: string)
    requires IsName(name)
    ensures IsText(CloseTag(name))
  {
    NameIsText(name);
    ThreeTexts("</", name, ">");
  }

  lemma BodyIsText(e: Element, indent: nat)
    requires IsName(e.name)
    requires e.content == "" ==> (IsText(SerializeAll(e.children, indent + 1)) <==> TextTrees(e.children))
    ensures IsText(Body(e, indent)) <==> IsText(e.content) && (e.content != "" || TextTrees(e.children))
  {
    hide TextTrees, Escape, SerializeAll;
    CloseTagIsText(e.name);
    EscapeText(e.content);
    ThreeTexts(">", Escape(e.content), CloseTag(e.name));
    var all := SerializeAll(e.children, indent + 1);
    ThreeTexts(">\n", all, Spaces(indent));
    TextJoin(">\n" + all + Spaces(indent), CloseTag(e.name));
    if e.children == [] {
      NoTrees(indent);
    }
  }

  lemma NoTrees(indent: nat)
    ensures TextTrees([]) && SerializeAll([], indent) == ""
  {
  }

  lemma {:induction false} MarkupIsText(e: Element, indent: nat)
    requires ValidNames(e)
    ensures IsText(Markup(e, indent)) <==> TextTree(e)
    decreases e, 1
  {
    hide IsText, OpenTag, Body;
    OpenTagIsText(e);
    SerializedIsText(e.children, indent + 1);
    BodyIsText(e, indent);
    TextJoin(OpenTag(e), Body(e, indent));
  }

  /** What is printed is XML text if and only if all texts that go into it are. */
  lemma {:induction false} SerializedIsText(es: seq<Element>, indent: nat)
    requires AllValidNames(es)
    ensures IsText(SerializeAll(es, indent)) <==> TextTrees(es)
    decreases es, 0
  {
    hide IsText, Markup;
    if es == [] {
      BlankIsText(0);
      assert SerializeAll(es, indent) == Spaces(0);
    } else {
      MarkupIsText(es[0], indent);
      SerializedIsText(es[1..], indent);
      BlankIsText(indent);
      ThreeTexts(Spaces(indent), Markup(es[0], indent), "\n");
      TextJoin(Spaces(indent) + Markup(es[0], indent) + "\n", SerializeAll(es[1..], indent));
    }
  }

  lemma BlankIsText(n: nat)
    ensures IsText(Spaces(n)) && IsText("\n")
  {
  }

  /** A conforming reader recovers the canonical form of a forest with valid names and attributes, at every
      indent, if it is XML text; otherwise it rejects it. */
  lemma {:induction false} ForestReadBack(es: seq<Element>, indent: nat)
    requires AllValidNames(es)
    ensures ReadForest(SerializeAll(es, indent)) == if TextTrees(es) then Some(CanonicalAll(es)) else None
  {
    hide IsText, TextTrees;
    SerializedIsText(es, indent);
    EolSerializeAll(es, indent);
    EolTreesValid(es);
    ForestParsed("", EolTrees(es), indent);
    var text := SerializeAll(EolTrees(es), indent);
    assert "" + (text + "") == text;
  }

  // ----- Exactly when nothing is lost -----

  predicate NoSpaceButBlank(s: string) {
    forall i :: 0 <= i < |s| ==> s[i] != '\t' && s[i] != '\n' && s[i] != '\r'
  }

  /** No element has both content and children, no attribute value holds a tab or line end, and no
      content holds a carriage return. */
  predicate Faithful(e: Element)
    decreases e, 1
  {
    && (e.content == "" || e.children == [])
    && (forall i :: 0 <= i < |e.attributes| ==> NoSpaceButBlank(e.attributes[i].value))
    && NoReturn(e.content)
    && AllFaithful(e.children)
  }

  predicate AllFaithful(es: seq<Element>)
    decreases es, 0
  {
    es == [] || (Faithful(es[0]) && AllFaithful(es[1..]))
  }

  lemma {:induction false} ValueFaithful(v: string)
    ensures SpaceOut(NormalizeEol(v)) == v <==> NoSpaceButBlank(v)
  {
    if NoSpaceButBlank(v) {
      EolIdentity(v);
      assert SpaceOut(v) == v;
    } else {
      assert NoSpaceButBlank(SpaceOut(NormalizeEol(v)));
    }
  }

  lemma {:induction false} ContentFaithful(c: string)
    ensures NormalizeEol(c) == c <==> NoReturn(c)
  {
    if NoReturn(c) {
      EolIdentity(c);
    } else {
      EolClean(c);
    }
  }

  lemma AttributesFaithful(attributes: seq<Attribute>)
    ensures SeenAttributes(EolAttributes(attributes)) == attributes
       <==> forall i :: 0 <= i < |attributes| ==> NoSpaceButBlank(attributes[i].value)
  {
    var seen := SeenAttributes(EolAttributes(attributes));
    forall i | 0 <= i < |attributes|
      ensures seen[i] == attributes[i] <==> NoSpaceButBlank(attributes[i].value)
    {
      ValueFaithful(attributes[i].value);
      assert seen[i] == attributes[i].(value := SpaceOut(NormalizeEol(attributes[i].value)));
    }
  }

  /** A tree survives exactly when it is faithful. */
  lemma {:induction false} CanonicalIffFaithful(e: Element)
    ensures Canonical(e) == e <==> Faithful(e)
    decreases e, 1
  {
    AttributesFaithful(e.attributes);
    ContentFaithful(e.content);
    EolClean(e.content);
    CanonicalAllIffFaithful(e.children);
  }

  lemma {:induction false} CanonicalAllIffFaithful(es: seq<Element>)
    ensures CanonicalAll(es) == es <==> AllFaithful(es)
    decreases es, 0
  {
    if es != [] {
      CanonicalIffFaithful(es[0]);
      CanonicalAllIffFaithful(es[1..]);
      assert EolTrees(es)[1..] == EolTrees(es[1..]);
      assert CanonicalAll(es) == [Canonical(es[0])] + CanonicalAll(es[1..]);
      assert es == [es[0]] + es[1..];
    }
  }

  /** Printing and reading returns the same trees if and only if they are faithful, their names are XML names,
      no element has two attributes of one name, and all texts are made of XML characters. */
  lemma {:induction false} RoundTripIff(es: seq<Element>, indent: nat)
    ensures ReadForest(SerializeAll(es, indent)) == Some(es)
       <==> AllValidNames(es) && TextTrees(es) && AllFaithful(es)
  {
    hide AllValidNames, TextTrees, AllFaithful, CanonicalAll, SerializeAll;
    if AllValidNames(es) {
      ForestReadBack(es, indent);
      CanonicalAllIffFaithful(es);
    }
  }
}
