/** A reader for the XML the recorder writes, following XML 1.0 (fifth edition): line ends are
    normalized (section 2.11), attribute values are normalized (section 3.3.3), predefined entities
    are expanded (section 4.6), and space between tags is ignored. Characters (section 2.2) and names
    (section 2.3) are checked, and no start tag has two attributes of one name (section 3.1). The XML
    declaration (section 2.8), a root start tag that is still open, and comments between the elements in
    it (section 2.5) are passed over. */
module XmlReader {
  import opened Bytes
  import opened Xml

  predicate IsSpace(c: char) {
    c == ' ' || c == '\t' || c == '\n' || c == '\r'
  }

  /** Name characters outside ASCII. */
  predicate IsWideNameStart(c: char) {
    || '\U{C0}' <= c <= '\U{D6}' || '\U{D8}' <= c <= '\U{F6}' || '\U{F8}' <= c <= '\U{2FF}'
    || '\U{370}' <= c <= '\U{37D}' || '\U{37F}' <= c <= '\U{1FFF}' || '\U{200C}' <= c <= '\U{200D}'
    || '\U{2070}' <= c <= '\U{218F}' || '\U{2C00}' <= c <= '\U{2FEF}' || '\U{3001}' <= c <= '\U{D7FF}'
    || '\U{F900}' <= c <= '\U{FDCF}' || '\U{FDF0}' <= c <= '\U{FFFD}' || '\U{10000}' <= c <= '\U{EFFFF}'
  }

  predicate IsWideNameChar(c: char) {
    IsWideNameStart(c) || c == '\U{B7}' || '\U{300}' <= c <= '\U{36F}' || '\U{203F}' <= c <= '\U{2040}'
  }

  predicate IsNameStart(c: char) {
    'a' <= c <= 'z' || 'A' <= c <= 'Z' || c == '_' || c == ':' || IsWideNameStart(c)
  }

  predicate IsNameChar(c: char) {
    'a' <= c <= 'z' || 'A' <= c <= 'Z' || c == '_' || c == ':' || '0' <= c <= '9' || c == '-' || c == '.'
    || IsWideNameChar(c)
  }

  predicate IsName(s: string) {
    s != "" && IsNameStart(s[0]) && forall i :: 0 <= i < |s| ==> IsNameChar(s[i])
  }

  // ----- Spans -----

  /** The length of the longest prefix made of name characters. */
  function NameSpan(s: string): (n: nat)
    ensures n <= |s|
    ensures forall i :: 0 <= i < n ==> IsNameChar(s[i])
  {
    if s == "" || !IsNameChar(s[0]) then 0 else 1 + NameSpan(s[1..])
  }

  /** The length of the longest prefix without the stop character. */
  function Until(s: string, stop: char): (n: nat)
    ensures n <= |s|
  {
    if s == "" || s[0] == stop then 0 else 1 + Until(s[1..], stop)
  }

  function SkipSpace(s: string): (r: string)
    ensures |r| <= |s|
    ensures r != "" ==> !IsSpace(r[0])
  {
    if s != "" && IsSpace(s[0]) then SkipSpace(s[1..]) else s
  }

  predicate AllSpace(s: string) {
    forall i :: 0 <= i < |s| ==> IsSpace(s[i])
  }

  // ----- Text -----

  /** Section 2.11: every line end becomes a line feed. */
  function NormalizeEol(s: string): string {
    if s == "" then ""
    else if s[0] == '\r' then
      "\n" + if |s| > 1 && s[1] == '\n' then NormalizeEol(s[2..]) else NormalizeEol(s[1..])
    else [s[0]] + NormalizeEol(s[1..])
  }

  datatype Mode = InContent | InAttribute

  /** Expands the predefined entities. In an attribute value, literal white space becomes spaces. */
  function Unescape(s: string, mode: Mode): Option<string> {
    if s == "" then Some("")
    else if s[0] == '&' then
      if "&quot;" <= s then Prepend('"', Unescape(s[6..], mode))
      else if "&apos;" <= s then Prepend('\'', Unescape(s[6..], mode))
      else if "&lt;" <= s then Prepend('<', Unescape(s[4..], mode))
      else if "&gt;" <= s then Prepend('>', Unescape(s[4..], mode))
      else if "&amp;" <= s then Prepend('&', Unescape(s[5..], mode))
      else None
    else if s[0] == '<' then None
    else Prepend(if mode.InAttribute? && IsSpace(s[0]) then ' ' else s[0], Unescape(s[1..], mode))
  }

  function Prepend(c: char, s: Option<string>): Option<string> {
    if s.Some? then Some([c] + s.value) else None
  }

  // ----- Tags and elements -----

  /** The attributes up to the end of a start tag, each after some white space. */
  function ParseAttributes(s: string): (r: Option<(seq<Attribute>, string)>)
    ensures r.Some? ==> |r.value.1| <= |s| && ValidAttributes(r.value.0)
    decreases |s|
  {
    var t := SkipSpace(s);
    var n := NameSpan(t);
    if n == 0 || |t| == |s| then Some(([], t))
    else if !("=\"" <= t[n..]) then None
    else
      var u := t[n + 2..];
      var k := Until(u, '"');
      if k == |u| then None
      else
        var value := Unescape(u[..k], InAttribute);
        var rest := ParseAttributes(u[k + 1..]);
        if value.None? || rest.None? || !IsNameStart(t[0]) || HasAttribute(rest.value.0, t[..n]) then None
        else Some(([Attribute(t[..n], value.value)] + rest.value.0, rest.value.1))
  }

  function ParseCloseTag(name: string, s: string): (r: Option<string>)
    ensures r.Some? ==> |r.value| < |s|
  {
    if CloseTag(name) <= s then Some(s[|CloseTag(name)|..]) else None
  }

  /** An element that starts at the beginning of s, and what is left after it. */
  function ParseElement(s: string): (r: Option<(Element, string)>)
    ensures r.Some? ==> |r.value.1| < |s| && ValidNames(r.value.0)
    decreases |s|, 0
  {
    if s == "" || s[0] != '<' then None
    else
      var n := NameSpan(s[1..]);
      var name := s[1..][..n];
      var attributes := ParseAttributes(s[1..][n..]);
      if n == 0 || !IsNameStart(name[0]) || attributes.None? then None
      else
        var start := Element(name, attributes.value.0, [], "");
        var t := attributes.value.1;
        if "/>" <= t then Some((start, t[2..]))
        else if !(">" <= t) then None
        else ParseBody(start, t[1..])
  }

  /** Text directly followed by the end tag is content; otherwise only elements are expected. */
  function ParseBody(start: Element, u: string): (r: Option<(Element, string)>)
    ensures r.Some? ==> |r.value.1| < |u|
    ensures r.Some? && ValidNames(start) ==> ValidNames(r.value.0)
    decreases |u|, 2
  {
    var k := Until(u, '<');
    if "</" <= u[k..] then
      var text := Unescape(u[..k], InContent);
      var rest := ParseCloseTag(start.name, u[k..]);
      if text.None? || rest.None? then None else Some((start.(content := text.value), rest.value))
    else
      var children := ParseChildren(u);
      if children.None? then None
      else
        var rest := ParseCloseTag(start.name, children.value.1);
        if rest.None? then None else Some((start.(children := children.value.0), rest.value))
  }

  function ParseChildren(s: string): (r: Option<(seq<Element>, string)>)
    ensures r.Some? ==> |r.value.1| <= |s| && AllValidNames(r.value.0)
    decreases |s|, 1
  {
    var t := SkipSpace(s);
    if "</" <= t then Some(([], t))
    else
      var first := ParseElement(t);
      if first.None? then None
      else
        var rest := ParseChildren(first.value.1);
        if rest.None? then None else Some(([first.value.0] + rest.value.0, rest.value.1))
  }

  /** What follows the first occurrence of a mark. */
  function After(s: string, mark: string): (r: Option<string>)
    ensures r.Some? ==> |r.value| <= |s|
  {
    if mark <= s then Some(s[|mark|..])
    else if s == "" then None
    else After(s[1..], mark)
  }

  /** Passes over white space and comments. */
  function SkipMisc(s: string): (r: string)
    ensures |r| <= |s|
    decreases |s|
  {
    var t := SkipSpace(s);
    if !("<!--" <= t) then t
    else
      var rest := After(t[4..], "-->");
      if rest.None? then t else SkipMisc(rest.value)
  }

  /** A sequence of elements up to the end of the text. */
  function ParseForest(s: string): (r: Option<seq<Element>>)
    ensures r.Some? ==> AllValidNames(r.value)
    decreases |s|
  {
    var t := SkipMisc(s);
    if t == "" then Some([])
    else
      var first := ParseElement(t);
      if first.None? then None
      else
        var rest := ParseForest(first.value.1);
        if rest.None? then None else Some([first.value.0] + rest.value)
  }

  /** What a conforming reader makes of a text. */
  function ReadForest(text: string): Option<seq<Element>> {
    if IsText(text) then ParseForest(NormalizeEol(text)) else None
  }

  function SkipDeclaration(s: string): Option<string> {
    if "<?xml" <= s then After(s[5..], "?>") else Some(s)
  }

  /** Passes over the start tag of the root element. */
  function SkipRootTag(s: string): Option<string> {
    if s == "" || s[0] != '<' then None
    else
      var n := NameSpan(s[1..]);
      var attributes := ParseAttributes(s[1..][n..]);
      if n == 0 || !IsNameStart(s[1]) || attributes.None? || !(">" <= attributes.value.1) then None
      else Some(attributes.value.1[1..])
  }

  /** The elements inside the root element of a document whose end tag was never written. */
  function ReadDocument(text: string): Option<seq<Element>> {
    var body := SkipDeclaration(NormalizeEol(text));
    if !IsText(text) || body.None? then None
    else
      var inside := SkipRootTag(SkipMisc(body.value));
      if inside.None? then None else ParseForest(inside.value)
  }

  // ----- The trees that can be written -----

  predicate HasAttribute(attributes: seq<Attribute>, id: string) {
    exists i :: 0 <= i < |attributes| && attributes[i].id == id
  }

  predicate ValidAttributes(attributes: seq<Attribute>) {
    && (forall i :: 0 <= i < |attributes| ==> IsName(attributes[i].id))
    && (forall i, j :: 0 <= i < j < |attributes| ==> attributes[i].id != attributes[j].id)
  }

  /** Element and attribute names are XML names, and no element has two attributes of one name. */
  predicate ValidNames(e: Element)
    decreases e, 1
  {
    IsName(e.name) && ValidAttributes(e.attributes) && AllValidNames(e.children)
  }

  predicate AllValidNames(es: seq<Element>)
    decreases es, 0
  {
    es == [] || (ValidNames(es[0]) && AllValidNames(es[1..]))
  }

  // ----- What is read back -----

  function SpaceOut(s: string): string {
    seq(|s|, i requires 0 <= i < |s| => if IsSpace(s[i]) then ' ' else s[i])
  }

  function SeenAttributes(attributes: seq<Attribute>): (r: seq<Attribute>)
    ensures |r| == |attributes|
  {
    seq(|attributes|, i requires 0 <= i < |attributes| => attributes[i].(value := SpaceOut(attributes[i].value)))
  }

  /** The element as parsed from its own serialization. */
  function Seen(e: Element): Element
    decreases e, 1
  {
    Element(e.name, SeenAttributes(e.attributes), if e.content != "" then [] else SeenAll(e.children), e.content)
  }

  function SeenAll(es: seq<Element>): (r: seq<Element>)
    ensures |r| == |es|
    decreases es, 0
  {
    if es == [] then [] else [Seen(es[0])] + SeenAll(es[1..])
  }

  function EolAttributes(attributes: seq<Attribute>): (r: seq<Attribute>)
    ensures |r| == |attributes|
  {
    seq(|attributes|, i requires 0 <= i < |attributes| => attributes[i].(value := NormalizeEol(attributes[i].value)))
  }

  function EolTree(e: Element): Element
    decreases e, 1
  {
    Element(e.name, EolAttributes(e.attributes), EolTrees(e.children), NormalizeEol(e.content))
  }

  function EolTrees(es: seq<Element>): (r: seq<Element>)
    ensures |r| == |es|
    decreases es, 0
  {
    if es == [] then [] else [EolTree(es[0])] + EolTrees(es[1..])
  }

  function Canonical(e: Element): Element {
    Seen(EolTree(e))
  }

  function CanonicalAll(es: seq<Element>): seq<Element> {
    SeenAll(EolTrees(es))
  }
}
