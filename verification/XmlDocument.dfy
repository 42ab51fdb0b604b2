/** Documents made of a declaration, a root start tag, and comments, elements and white space in turn. */
module XmlDocument {
  import opened Bytes
  import opened Xml
  import opened XmlReader
  import opened XmlRoundTrip
  import opened XmlConformance

  datatype Item = Gap(space: string) | Note(text: string) | Node(element: Element)

  function Comment(text: string): string {
    "<!--" + text + "-->"
  }

  function ItemText(i: Item): string {
    match i
    case Gap(space) => space
    case Note(text) => Comment(text)
    case Node(e) => Serialize(e, 1)
  }

  function ItemsText(items: seq<Item>): string {
    if items == [] then "" else ItemText(items[0]) + ItemsText(items[1..])
  }

  /** White space between tags, comments without '>', elements with valid names. */
  predicate GoodItem(i: Item) {
    match i
    case Gap(space) => AllSpace(space)
    case Note(text) => forall k :: 0 <= k < |text| ==> text[k] != '>'
    case Node(e) => ValidNames(e)
  }

  predicate GoodItems(items: seq<Item>) {
    forall k :: 0 <= k < |items| ==> GoodItem(items[k])
  }

  /** The elements among the items, as they are parsed. */
  function Nodes(items: seq<Item>): seq<Element> {
    if items == [] then []
    else (if items[0].Node? then [Seen(items[0].element)] else []) + Nodes(items[1..])
  }

  // ----- Comments -----

  /** A mark that ends in '>' is not met inside text without '>'. */
  lemma MarkBehind(mark: string, text: string, rest: string)
    requires 0 < |mark| && mark[|mark| - 1] == '>' && forall i :: 0 <= i < |mark| - 1 ==> mark[i] != '>'
    requires text != "" && forall k :: 0 <= k < |text| ==> text[k] != '>'
    ensures !(mark <= text + (mark + rest))
  {
    var s := text + (mark + rest);
    var last := |mark| - 1;
    assert s[last] == if last < |text| then text[last] else mark[last - |text|];
    NotPrefix(mark, s, last);
  }

  lemma {:induction false} AfterMark(mark: string, text: string, rest: string)
    requires 0 < |mark| && mark[|mark| - 1] == '>' && forall i :: 0 <= i < |mark| - 1 ==> mark[i] != '>'
    requires forall k :: 0 <= k < |text| ==> text[k] != '>'
    ensures After(text + (mark + rest), mark) == Some(rest)
    decreases |text|
  {
    Cut(mark, rest);
    if text == "" {
      assert text + (mark + rest) == mark + rest;
    } else {
      MarkBehind(mark, text, rest);
      assert (text + (mark + rest))[1..] == text[1..] + (mark + rest);
      AfterMark(mark, text[1..], rest);
    }
  }

  lemma CommentShape(text: string, rest: string)
    ensures Comment(text) + rest == "<!--" + (text + ("-->" + rest))
  {
  }

  lemma CommentSkipped(space: string, text: string, rest: string)
    requires AllSpace(space) && forall k :: 0 <= k < |text| ==> text[k] != '>'
    ensures SkipMisc(space + (Comment(text) + rest)) == SkipMisc(rest)
  {
    var t := "<!--" + (text + ("-->" + rest));
    CommentShape(text, rest);
    SkipSpaceConcat(space, t);
    Cut("<!--", text + ("-->" + rest));
    AfterMark("-->", text, rest);
  }

  lemma MiscThenForest(s: string, t: string)
    requires SkipMisc(s) == SkipMisc(t)
    ensures ParseForest(s) == ParseForest(t)
  {
  }

  // ----- Items in front of a forest -----

  lemma Reassociate(space: string, first: string, rest: string, tail: string)
    ensures space + ((first + rest) + tail) == space + (first + (rest + tail)) == (space + first) + (rest + tail)
  {
  }

  lemma NodeShape(space: string, indent: string, markup: string, rest: string)
    ensures space + ((indent + markup + "\n") + rest) == (space + indent) + (markup + ("\n" + rest))
  {
  }

  lemma GapStep(space: string, more: string, rest: string, tail: string)
    requires AllSpace(space) && AllSpace(more)
    ensures AllSpace(space + more) && space + ((more + rest) + tail) == (space + more) + (rest + tail)
  {
  }

  lemma NoteStep(space: string, text: string, rest: string, tail: string)
    requires AllSpace(space) && forall k :: 0 <= k < |text| ==> text[k] != '>'
    ensures ParseForest(space + ((Comment(text) + rest) + tail)) == ParseForest("" + (rest + tail))
  {
    Reassociate(space, Comment(text), rest, tail);
    CommentSkipped(space, text, rest + tail);
    assert "" + (rest + tail) == rest + tail;
    MiscThenForest(space + (Comment(text) + (rest + tail)), rest + tail);
  }

  lemma NodeItemStep(space: string, e: Element, rest: string, tail: string)
    requires AllSpace(space) && ValidNames(e)
    ensures ParseForest(space + ((Serialize(e, 1) + rest) + tail))
         == var more := ParseForest("\n" + (rest + tail)); if more.None? then None else Some([Seen(e)] + more.value)
  {
    Reassociate(space, Serialize(e, 1), rest, tail);
    NodeShape(space, Spaces(1), Markup(e, 1), rest + tail);
    ElementStep(space + Spaces(1), e, 1, "\n" + (rest + tail));
  }

  lemma {:induction false} NodesParts(items: seq<Item>, es: seq<Element>)
    requires items != []
    ensures !items[0].Node? ==> Nodes(items) + es == Nodes(items[1..]) + es
    ensures items[0].Node? ==> Nodes(items) + es == [Seen(items[0].element)] + (Nodes(items[1..]) + es)
  {
    hide Seen;
    var rest := Nodes(items[1..]);
    if items[0].Node? {
      Prefixed(Seen(items[0].element), rest, es);
    } else {
      assert Nodes(items) == [] + rest == rest;
    }
  }

  lemma Prefixed(e: Element, rest: seq<Element>, es: seq<Element>)
    ensures ([e] + rest) + es == [e] + (rest + es)
  {
  }

  lemma ItemsParts(items: seq<Item>)
    requires items != [] && GoodItems(items)
    ensures ItemsText(items) == ItemText(items[0]) + ItemsText(items[1..]) && GoodItem(items[0])
    ensures GoodItems(items[1..])
  {
  }

  lemma NoItems(space: string, es: seq<Element>)
    requires AllSpace(space) && AllValidNames(es)
    ensures ParseForest(space + (ItemsText([]) + SerializeAll(es, 1))) == Some(Nodes([]) + SeenAll(es))
  {
    hide ParseForest, SerializeAll, SeenAll, AllValidNames, AllSpace;
    ForestParsed(space, es, 1);
    assert ItemsText([]) + SerializeAll(es, 1) == SerializeAll(es, 1) + "";
    assert Nodes([]) + SeenAll(es) == SeenAll(es);
  }

  /** Comments and white space leave no trace, elements are parsed in order. */
  lemma {:induction false} ItemsParsed(space: string, items: seq<Item>, es: seq<Element>)
    requires AllSpace(space) && GoodItems(items) && AllValidNames(es)
    ensures ParseForest(space + (ItemsText(items) + SerializeAll(es, 1))) == Some(Nodes(items) + SeenAll(es))
    decreases |items|
  {
    hide ParseForest, SerializeAll, AllSpace, AllValidNames, SeenAll, Serialize, ItemsText, Nodes, Comment, ItemsText,
      GoodItems, Seen;
    if items == [] {
      NoItems(space, es);
    } else {
      var rest, tail := ItemsText(items[1..]), SerializeAll(es, 1);
      ItemsParts(items);
      NodesParts(items, SeenAll(es));
      match items[0]
      case Gap(more) =>
        GapStep(space, more, rest, tail);
        ItemsParsed(space + more, items[1..], es);
      case Note(text) =>
        NoteStep(space, text, rest, tail);
        NoSpace();
        ItemsParsed("", items[1..], es);
      case Node(e) =>
        NodeItemStep(space, e, rest, tail);
        LineEndIsSpace();
        ItemsParsed("\n", items[1..], es);
    }
  }

  lemma NoSpace()
    ensures AllSpace("")
  {
  }

  lemma LineEndIsSpace()
    ensures AllSpace("\n")
  {
  }

  // ----- The head of the document -----

  /** The XML declaration and the start tag of the root. */
  datatype Head = Head(declaration: string, root: Element)

  function HeadText(h: Head): string {
    "<?xml" + h.declaration + "?>" + "\n" + OpenTag(h.root) + ">"
  }

  predicate GoodHead(h: Head) {
    (forall k :: 0 <= k < |h.declaration| ==> h.declaration[k] != '>') && ValidNames(h.root)
  }

  lemma RootTagSkipped(root: Element, rest: string)
    requires ValidNames(root)
    ensures SkipRootTag(OpenTag(root) + (">" + rest)) == Some(rest)
  {
    hide OpenTag, AttributesText, IsNameStart, IsNameChar, ValidAttributes, ParseAttributes, NameSpan, AllValidNames;
    TagName(root, ">" + rest);
    ParseAttributesOf(root.attributes, ">" + rest);
    Cut(">", rest);
  }

  lemma HeadShape(declaration: string, open: string, rest: string)
    ensures ("<?xml" + declaration + "?>" + "\n" + open + ">") + rest
         == "<?xml" + (declaration + ("?>" + ("\n" + (open + (">" + rest)))))
  {
  }

  lemma HeadSkipped(h: Head, rest: string)
    requires GoodHead(h)
    ensures var body := SkipDeclaration(HeadText(h) + rest);
            body.Some? && SkipRootTag(SkipMisc(body.value)) == Some(rest)
  {
    var t := OpenTag(h.root) + (">" + rest);
    HeadShape(h.declaration, OpenTag(h.root), rest);
    Cut("<?xml", h.declaration + ("?>" + ("\n" + t)));
    AfterMark("?>", h.declaration, "\n" + t);
    assert t[0] == '<' && t[1] == h.root.name[0] != '!';
    NotPrefix("<!--", t, 1);
    SkipMiscSpace("\n", t);
    RootTagSkipped(h.root, rest);
  }

  // ----- Whole documents -----

  lemma FrontUnchanged(front: string, es: seq<Element>)
    requires NoReturn(front) && front != "" && AllValidNames(es)
    ensures NormalizeEol(front + SerializeAll(es, 1)) == front + SerializeAll(EolTrees(es), 1)
  {
    EolIdentity(front);
    assert front[|front| - 1] != '\r';
    EolConcat(front, SerializeAll(es, 1));
    EolSerializeAll(es, 1);
  }

  lemma HeadFirst(head: string, items: string, tail: string)
    ensures (head + items) + tail == head + ("" + (items + tail))
  {
  }

  lemma FrontIsText(front: string, es: seq<Element>)
    requires IsText(front) && AllValidNames(es)
    ensures IsText(front + SerializeAll(es, 1)) <==> TextTrees(es)
  {
    hide IsText, TextTrees;
    SerializedIsText(es, 1);
    TextJoin(front, SerializeAll(es, 1));
  }

  /** A document whose own text holds no carriage return, followed by any elements: it is rejected if and only
      if some text among them holds a character that is not an XML character. */
  lemma {:induction false} DocumentReadBack(h: Head, items: seq<Item>, es: seq<Element>)
    requires GoodHead(h) && GoodItems(items) && AllValidNames(es)
    requires NoReturn(HeadText(h) + ItemsText(items)) && IsText(HeadText(h) + ItemsText(items))
    ensures ReadDocument(HeadText(h) + ItemsText(items) + SerializeAll(es, 1))
         == if TextTrees(es) then Some(Nodes(items) + CanonicalAll(es)) else None
  {
    hide IsText, TextTrees, SerializeAll, ParseForest, ItemsText, AllValidNames, GoodItems, SeenAll, EolTrees, Nodes,
      SkipRootTag, SkipMisc, SkipDeclaration, NormalizeEol;
    HeadHasText(h);
    FrontIsText(HeadText(h) + ItemsText(items), es);
    FrontUnchanged(HeadText(h) + ItemsText(items), es);
    EolTreesValid(es);
    NoSpace();
    HeadFirst(HeadText(h), ItemsText(items), SerializeAll(EolTrees(es), 1));
    HeadSkipped(h, "" + (ItemsText(items) + SerializeAll(EolTrees(es), 1)));
    ItemsParsed("", items, EolTrees(es));
  }

  lemma HeadHasText(h: Head)
    ensures HeadText(h) != ""
  {
    assert |HeadText(h)| >= |"<?xml"|;
  }
}
