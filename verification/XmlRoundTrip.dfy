/** Reading back what the XML layer prints. */
module XmlRoundTrip {
  import opened Bytes
  import opened Xml
  import opened XmlReader

  // ----- Spans over concatenations -----

  lemma {:induction false} NameSpanConcat(a: string, rest: string)
    requires forall i :: 0 <= i < |a| ==> IsNameChar(a[i])
    requires rest == "" || !IsNameChar(rest[0])
    ensures NameSpan(a + rest) == |a|
  {
    if a == "" {
      assert a + rest == rest;
    } else {
      assert (a + rest)[1..] == a[1..] + rest;
      NameSpanConcat(a[1..], rest);
    }
  }

  lemma {:induction false} UntilConcat(a: string, rest: string, stop: char)
    requires forall i :: 0 <= i < |a| ==> a[i] != stop
    requires rest != "" && rest[0] == stop
    ensures Until(a + rest, stop) == |a|
  {
    if a == "" {
      assert a + rest == rest;
    } else {
      assert (a + rest)[1..] == a[1..] + rest;
      UntilConcat(a[1..], rest, stop);
    }
  }

  lemma {:induction false} SkipSpaceConcat(a: string, rest: string)
    requires AllSpace(a)
    requires rest == "" || !IsSpace(rest[0])
    ensures SkipSpace(a + rest) == rest
  {
    if a == "" {
      assert a + rest == rest;
    } else {
      assert (a + rest)[1..] == a[1..] + rest;
      SkipSpaceConcat(a[1..], rest);
    }
  }

  lemma Cut(a: string, b: string)
    ensures (a + b)[..|a|] == a && (a + b)[|a|..] == b && a <= a + b
  {
  }

  lemma Nest(a: string, b: string, c: string, d: string, e: string, r: string)
    ensures a + b + c + d + e + r == a + (b + (c + (d + (e + r))))
    ensures a + b + c + d + r == a + (b + (c + (d + r)))
    ensures a + b + c + r == a + (b + (c + r))
    ensures a + b + r == a + (b + r)
  {
  }

  lemma NotPrefix(p: string, s: string, i: nat)
    requires i < |p| && i < |s| && p[i] != s[i]
    ensures !(p <= s)
  {
  }

  // ----- Text -----

  lemma {:induction false} EscapeClean(s: string)
    ensures forall i :: 0 <= i < |Escape(s)| ==> Escape(s)[i] != '<' && Escape(s)[i] != '"'
    ensures s != "" ==> Escape(s) != ""
  {
    if s != "" {
      EscapeClean(s[1..]);
    }
  }

  lemma UnescapeOne(c: char, rest: string, mode: Mode)
    ensures Unescape(EscapeChar(c) + rest, mode)
         == Prepend(if mode.InAttribute? && IsSpace(c) then ' ' else c, Unescape(rest, mode))
  {
    var e := EscapeChar(c);
    Cut(e, rest);
    if c == '\'' {
      NotPrefix("&quot;", e + rest, 1);
    } else if c == '<' {
      NotPrefix("&quot;", e + rest, 1);
      NotPrefix("&apos;", e + rest, 1);
    } else if c == '>' {
      NotPrefix("&quot;", e + rest, 1);
      NotPrefix("&apos;", e + rest, 1);
      NotPrefix("&lt;", e + rest, 1);
    } else if c == '&' {
      NotPrefix("&quot;", e + rest, 1);
      NotPrefix("&apos;", e + rest, 2);
      NotPrefix("&lt;", e + rest, 1);
      NotPrefix("&gt;", e + rest, 1);
    }
  }

  lemma SpaceOutParts(s: string)
    ensures s == "" ==> SpaceOut(s) == s
    ensures s != "" ==> s == [s[0]] + s[1..]
    ensures s != "" ==> SpaceOut(s) == [if IsSpace(s[0]) then ' ' else s[0]] + SpaceOut(s[1..])
  {
  }

  lemma EscapeParts(s: string)
    requires s != ""
    ensures Escape(s) == EscapeChar(s[0]) + Escape(s[1..])
  {
  }

  lemma {:induction false} UnescapeEscape(s: string, mode: Mode)
    ensures Unescape(Escape(s), mode) == Some(if mode.InAttribute? then SpaceOut(s) else s)
  {
    SpaceOutParts(s);
    if s != "" {
      UnescapeEscape(s[1..], mode);
      UnescapeOne(s[0], Escape(s[1..]), mode);
      EscapeParts(s);
    }
  }

  // ----- Attributes -----

  /** The quoted value of an attribute. */
  lemma ValueStep(raw: string, rest: string)
    requires forall i :: 0 <= i < |raw| ==> raw[i] != '"'
    ensures var u := raw + ("\"" + rest);
            Until(u, '"') == |raw| < |u| && u[..|raw|] == raw && u[|raw| + 1..] == rest
  {
    var tail := "\"" + rest;
    UntilConcat(raw, tail, '"');
    Cut(raw, tail);
    assert (raw + tail)[|raw| + 1..] == tail[1..] == rest;
  }

  /** The name and the equals sign of an attribute. */
  lemma NameStep(id: string, u: string)
    requires IsName(id)
    ensures var t := id + ("=\"" + u);
            && SkipSpace(" " + t) == t && NameSpan(t) == |id|
            && t[..|id|] == id && "=\"" <= t[|id|..] && t[|id| + 2..] == u
  {
    var v := "=\"" + u;
    SkipSpaceConcat(" ", id + v);
    NameSpanConcat(id, v);
    Cut(id, v);
    Cut("=\"", u);
    assert (id + v)[|id| + 2..] == v[2..];
  }

  /** One unfolding of ParseAttributes. */
  lemma ParseUnfold(s: string, t: string, n: nat, u: string, k: nat)
    requires t == SkipSpace(s) && |t| < |s| && n == NameSpan(t) > 0
    requires n + 2 <= |t| && "=\"" <= t[n..] && u == t[n + 2..]
    requires k == Until(u, '"') < |u|
    ensures ParseAttributes(s)
         == var value := Unescape(u[..k], InAttribute);
            var others := ParseAttributes(u[k + 1..]);
            if value.None? || others.None? || !IsNameStart(t[0]) || HasAttribute(others.value.0, t[..n]) then None
                else Some(([Attribute(t[..n], value.value)] + others.value.0, others.value.1))
  {
    hide Unescape, HasAttribute, IsNameStart, IsNameChar, IsSpace, ValidAttributes;
  }

  /** ParseAttributes on text cut at the right places. */
  lemma {:induction false} AttributeStep(id: string, raw: string, rest: string)
    requires IsName(id) && forall i :: 0 <= i < |raw| ==> raw[i] != '"'
    ensures ParseAttributes(" " + (id + ("=\"" + (raw + ("\"" + rest)))))
         == var value := Unescape(raw, InAttribute);
            var others := ParseAttributes(rest);
            if value.None? || others.None? || HasAttribute(others.value.0, id) then None
                else Some(([Attribute(id, value.value)] + others.value.0, others.value.1))
  {
    hide Unescape, HasAttribute, ValidAttributes, IsNameStart, IsNameChar;
    var u := raw + ("\"" + rest);
    var t := id + ("=\"" + u);
    NameStep(id, u);
    ValueStep(raw, rest);
    ParseUnfold(" " + t, t, |id|, u, |raw|);
  }

  lemma ParseOneAttribute(a: Attribute, rest: string)
    requires IsName(a.id)
    ensures ParseAttributes(AttributeText(a) + rest)
         == var others := ParseAttributes(rest);
            if others.None? || HasAttribute(others.value.0, a.id) then None
                else Some(([a.(value := SpaceOut(a.value))] + others.value.0, others.value.1))
  {
    hide HasAttribute, ValidAttributes, IsNameStart, IsNameChar;
    Nest(" ", a.id, "=\"", Escape(a.value), "\"", rest);
    EscapeClean(a.value);
    AttributeStep(a.id, Escape(a.value), rest);
    UnescapeEscape(a.value, InAttribute);
  }

  lemma SeenAttributesParts(attributes: seq<Attribute>)
    requires attributes != []
    ensures SeenAttributes(attributes)
         == [attributes[0].(value := SpaceOut(attributes[0].value))] + SeenAttributes(attributes[1..])
  {
  }

  lemma NoAttributes(rest: string)
    requires rest != "" && (rest[0] == '/' || rest[0] == '>')
    ensures ParseAttributes(rest) == Some(([], rest))
  {
  }

  lemma {:induction false} ParseAttributesOf(attributes: seq<Attribute>, rest: string)
    requires ValidAttributes(attributes)
    requires rest != "" && (rest[0] == '/' || rest[0] == '>')
    ensures ParseAttributes(AttributesText(attributes) + rest) == Some((SeenAttributes(attributes), rest))
  {
    hide IsName, SpaceOut, AttributeText, IsNameStart, IsNameChar;
    if attributes == [] {
      NoAttributes(rest);
      assert "" + rest == rest;
    } else {
      var others := AttributesText(attributes[1..]) + rest;
      Nest(AttributeText(attributes[0]), AttributesText(attributes[1..]), "", "", "", rest);
      ParseOneAttribute(attributes[0], others);
      ParseAttributesOf(attributes[1..], rest);
      SeenAttributesParts(attributes);
      assert !HasAttribute(SeenAttributes(attributes[1..]), attributes[0].id);
    }
  }

  // ----- Elements -----

  /** What stands behind the name of an element ends the name. */
  lemma NameEnds(attributes: seq<Attribute>, rest: string)
    requires rest != "" && (rest[0] == '/' || rest[0] == '>')
    ensures AttributesText(attributes) + rest != "" && !IsNameChar((AttributesText(attributes) + rest)[0])
  {
    if attributes != [] {
      assert AttributesText(attributes)[0] == AttributeText(attributes[0])[0] == ' ';
    }
  }

  lemma TagName(e: Element, rest: string)
    requires IsName(e.name)
    requires rest != "" && (rest[0] == '/' || rest[0] == '>')
    ensures var s := OpenTag(e) + rest;
            && s != "" && s[0] == '<' && NameSpan(s[1..]) == |e.name| > 0 && s[1..][..|e.name|] == e.name
            && s[1] == s[1..][0] == e.name[0] && s[1..][|e.name|..] == AttributesText(e.attributes) + rest
  {
    hide AttributesText, IsNameStart, IsNameChar;
    var t := AttributesText(e.attributes) + rest;
    assert (OpenTag(e) + rest)[1..] == e.name + t;
    NameEnds(e.attributes, rest);
    NameSpanConcat(e.name, t);
    Cut(e.name, t);
  }

  lemma {:induction false} OpenTagParsed(e: Element, rest: string)
    requires IsName(e.name) && ValidAttributes(e.attributes)
    requires rest != "" && (rest[0] == '/' || rest[0] == '>')
    ensures ParseElement(OpenTag(e) + rest)
         == var start := Element(e.name, SeenAttributes(e.attributes), [], "");
            if "/>" <= rest then Some((start, rest[2..]))
            else if !(">" <= rest) then None
            else ParseBody(start, rest[1..])
  {
    hide OpenTag, AttributesText, IsNameStart, IsNameChar, ValidAttributes, ParseAttributes, ParseBody, NameSpan;
    TagName(e, rest);
    ParseAttributesOf(e.attributes, rest);
  }

  lemma CloseTagParsed(name: string, rest: string)
    ensures ParseCloseTag(name, CloseTag(name) + rest) == Some(rest)
    ensures "</" <= CloseTag(name) + rest
  {
    Cut(CloseTag(name), rest);
  }

  /** The text after '>' of an element with content. */
  lemma ContentParsed(start: Element, content: string, rest: string)
    requires start.content == "" && start.children == []
    ensures ParseBody(start, Escape(content) + CloseTag(start.name) + rest) == Some((start.(content := content), rest))
  {
    var tail := CloseTag(start.name) + rest;
    var u := Escape(content) + tail;
    assert Escape(content) + CloseTag(start.name) + rest == u;
    EscapeClean(content);
    UntilConcat(Escape(content), tail, '<');
    Cut(Escape(content), tail);
    CloseTagParsed(start.name, rest);
    UnescapeEscape(content, InContent);
  }

  /** The text after '>' of an element with children. */
  lemma NestedParsed(start: Element, kids: string, children: seq<Element>, rest: string)
    requires start.content == "" && start.children == []
    requires ParseChildren(kids + (CloseTag(start.name) + rest)) == Some((children, CloseTag(start.name) + rest))
    requires var u := kids + (CloseTag(start.name) + rest); !("</" <= u[Until(u, '<')..])
    ensures ParseBody(start, kids + (CloseTag(start.name) + rest)) == Some((start.(children := children), rest))
  {
    CloseTagParsed(start.name, rest);
  }

  lemma {:induction false} MarkupParsed(e: Element, indent: nat, rest: string)
    requires ValidNames(e)
    ensures ParseElement(Markup(e, indent) + rest) == Some((Seen(e), rest))
    decreases e, 1
  {
    var start := Element(e.name, SeenAttributes(e.attributes), [], "");
    Nest(OpenTag(e), Body(e, indent), "", "", "", rest);
    if e.content == "" && e.children == [] {
      Cut("/>", rest);
      OpenTagParsed(e, "/>" + rest);
    } else if e.content != "" {
      var u := Escape(e.content) + CloseTag(e.name) + rest;
      ContentParsed(start, e.content, rest);
      Nest(">", Escape(e.content), CloseTag(e.name), "", "", rest);
      Nest(Escape(e.content), CloseTag(e.name), "", "", "", rest);
      OpenTagParsed(e, ">" + u);
      NotPrefix("/>", ">" + u, 0);
      Cut(">", u);
    } else {
      var kids := "\n" + (SerializeAll(e.children, indent + 1) + Spaces(indent));
      var u := kids + (CloseTag(e.name) + rest);
      KidsParsed(e, indent, CloseTag(e.name) + rest);
      NestedParsed(start, kids, SeenAll(e.children), rest);
      BodyShape(SerializeAll(e.children, indent + 1), Spaces(indent), CloseTag(e.name), rest);
      OpenTagParsed(e, ">" + u);
      NotPrefix("/>", ">" + u, 0);
      Cut(">", u);
    }
  }

  lemma BodyShape(all: string, last: string, close: string, rest: string)
    ensures (">\n" + all + last + close) + rest == ">" + ("\n" + (all + last) + (close + rest))
  {
    assert ">\n" == ">" + "\n";
  }

  lemma {:induction false} KidsParsed(e: Element, indent: nat, tail: string)
    requires ValidNames(e) && e.children != [] && "</" <= tail
    ensures var u := "\n" + (SerializeAll(e.children, indent + 1) + Spaces(indent)) + tail;
            ParseChildren(u) == Some((SeenAll(e.children), tail)) && !("</" <= u[Until(u, '<')..])
    decreases e, 0
  {
    ChildrenParsed("\n", e.children, indent + 1, Spaces(indent), tail);
    FirstChildSeen(e.children, indent + 1, Spaces(indent) + tail);
    var all := SerializeAll(e.children, indent + 1);
    Regroup(all, Spaces(indent), tail);
  }

  lemma Regroup(all: string, last: string, tail: string)
    ensures "\n" + (all + last) + tail == "\n" + (all + last + tail) == "\n" + (all + (last + tail))
  {
  }

  /** The text of a list of elements starts with the first one. */
  lemma FirstShape(space: string, es: seq<Element>, indent: nat, tail: string)
    requires es != []
    ensures space + (SerializeAll(es, indent) + tail)
         == (space + Spaces(indent)) + (Markup(es[0], indent) + ("\n" + (SerializeAll(es[1..], indent) + tail)))
  {
    FirstShapeOf(space, Spaces(indent), Markup(es[0], indent), SerializeAll(es[1..], indent), tail);
  }

  lemma FirstShapeOf(space: string, indent: string, first: string, others: string, tail: string)
    ensures space + ((indent + first + "\n" + others) + tail) == (space + indent) + (first + ("\n" + (others + tail)))
  {
  }

  lemma MarkupStarts(e: Element, indent: nat, more: string)
    requires ValidNames(e)
    ensures var t := Markup(e, indent) + more;
            |t| >= 2 && t[0] == '<' && !IsSpace(t[0]) && !("</" <= t)
  {
    var t := Markup(e, indent) + more;
    assert OpenTag(e)[0] == '<' && OpenTag(e)[1] == e.name[0];
    assert t[0] == '<' && t[1] == e.name[0];
    NotPrefix("</", t, 1);
  }

  /** White space, elements, white space, end tag. */
  lemma {:induction false} ChildrenParsed(space: string, es: seq<Element>, indent: nat, last: string, tail: string)
    requires AllValidNames(es) && AllSpace(space) && AllSpace(last) && "</" <= tail
    ensures ParseChildren(space + (SerializeAll(es, indent) + last + tail)) == Some((SeenAll(es), tail))
    decreases es, 0
  {
    hide Markup, ParseElement, Seen;
    var s := space + (SerializeAll(es, indent) + last + tail);
    Nest(SerializeAll(es, indent), last, "", "", "", tail);
    if es == [] {
      assert s == (space + last) + tail;
      SkipSpaceConcat(space + last, tail);
    } else {
      var more := "\n" + (SerializeAll(es[1..], indent) + (last + tail));
      var t := Markup(es[0], indent) + more;
      FirstShape(space, es, indent, last + tail);
      MarkupStarts(es[0], indent, more);
      SkipSpaceConcat(space + Spaces(indent), t);
      MarkupParsed(es[0], indent, more);
      ChildrenParsed("\n", es[1..], indent, last, tail);
      Nest(SerializeAll(es[1..], indent), last, "", "", "", tail);
    }
  }

  /** The first '<' after the start tag of an element with children opens a child. */
  lemma FirstChildSeen(es: seq<Element>, indent: nat, tail: string)
    requires es != [] && AllValidNames(es)
    ensures var u := "\n" + (SerializeAll(es, indent) + tail); !("</" <= u[Until(u, '<')..])
  {
    var more := "\n" + (SerializeAll(es[1..], indent) + tail);
    var t := Markup(es[0], indent) + more;
    FirstShape("\n", es, indent, tail);
    MarkupStarts(es[0], indent, more);
    UntilConcat("\n" + Spaces(indent), t, '<');
    Cut("\n" + Spaces(indent), t);
  }

  /** Where there is no comment only white space is passed over. */
  lemma SkipMiscSpace(space: string, t: string)
    requires AllSpace(space) && (t == "" || !IsSpace(t[0])) && !("<!--" <= t)
    ensures SkipMisc(space + t) == t
  {
    SkipSpaceConcat(space, t);
  }

  lemma NoComment(e: Element, indent: nat, more: string)
    requires ValidNames(e)
    ensures !("<!--" <= Markup(e, indent) + more)
  {
    var t := Markup(e, indent) + more;
    assert OpenTag(e)[0] == '<' && OpenTag(e)[1] == e.name[0] != '!';
    assert t[1] == e.name[0];
    NotPrefix("<!--", t, 1);
  }

  /** White space, an element and the rest of the text. */
  lemma ElementStep(space: string, e: Element, indent: nat, rest: string)
    requires ValidNames(e) && AllSpace(space)
    ensures ParseForest(space + (Markup(e, indent) + rest))
         == var more := ParseForest(rest); if more.None? then None else Some([Seen(e)] + more.value)
  {
    MarkupStarts(e, indent, rest);
    NoComment(e, indent, rest);
    SkipMiscSpace(space, Markup(e, indent) + rest);
    MarkupParsed(e, indent, rest);
  }

  lemma {:induction false} ForestParsed(space: string, es: seq<Element>, indent: nat)
    requires AllValidNames(es) && AllSpace(space)
    ensures ParseForest(space + (SerializeAll(es, indent) + "")) == Some(SeenAll(es))
    decreases |es|
  {
    if es == [] {
      assert space + (SerializeAll(es, indent) + "") == space + "";
      SkipMiscSpace(space, "");
    } else {
      var more := "\n" + (SerializeAll(es[1..], indent) + "");
      FirstShape(space, es, indent, "");
      ElementStep(space + Spaces(indent), es[0], indent, more);
      ForestParsed("\n", es[1..], indent);
    }
  }
}
