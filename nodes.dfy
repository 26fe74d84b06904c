/** The nodes the structuring passes work on. A page body starts as a flat list of markup
    elements and text runs; the passes replace recognised shapes by typed markers (headings,
    stat blocks, tables) and finally by output sections. */
module Nodes {
  import opened Text

  datatype Option<T> = None | Some(value: T)

  /** One stored stat-block attribute; keys keep insertion order and may repeat. */
  datatype KeyValue = KeyValue(key: string, value: string)

  datatype Node =
      /** A markup element: tag name, attributes in document order, children. */
    | Element(name: string, attrs: seq<(string, string)>, children: seq<Node>)
      /** A raw text run. */
    | TextRun(value: string)
      /** A section title of level 1..5; `details` fills up during collapse. */
    | Heading(level: int, name: string, details: seq<Node>)
      /** A stat-block title (`isSection == false`) or a labelled sub-region of a stat block
          (`isSection == true`), with its extracted attributes, its interior and the
          provenance list of the markup it absorbed. */
    | StatBlock(isSection: bool, name: string, keys: seq<KeyValue>, details: seq<Node>, html: seq<Node>)
      /** The opaque value the external table parser returns for a table-shaped node. */
    | Table(source: Node, book: string)
      /** An output section: optional name, the book it comes from, optional own text and its
          `sections` entry. */
    | Section(title: Option<string>, book: string, text: Option<string>, sections: Children)

  /** The `sections` entry of an output section: absent, or a list of children (which may be
      empty). */
  datatype Children = Absent | Listed(items: seq<Node>)

  /** `tag.get(key, "")`: the value of the last attribute named `key`, or "". */
  function Attr(attrs: seq<(string, string)>, key: string): (v: string)
    ensures (forall i :: 0 <= i < |attrs| ==> attrs[i].0 != key) ==> v == ""
  {
    if attrs == [] then ""
    else if attrs[|attrs| - 1].0 == key then attrs[|attrs| - 1].1
    else Attr(attrs[..|attrs| - 1], key)
  }

  /** `has_name(node, tag)`: the node has a `name` attribute equal to `tag`. Markup elements,
      headings and stat blocks all carry a `name`; text runs, tables and sections do not. */
  predicate HasName(n: Node, tag: string) {
    match n
    case Element(name, _, _) => name == tag
    case Heading(_, name, _) => name == tag
    case StatBlock(_, name, _, _, _) => name == tag
    case _ => false
  }

  /** A markup element with the given tag name. */
  predicate IsElement(n: Node, tag: string) {
    n.Element? && n.name == tag
  }

  /** A heading or stat-block object whose title happens to equal a tag name: `has_name`
      accepts it, and the markup-only attribute access that follows then fails. */
  predicate NamedObject(n: Node, tag: string) {
    (n.Heading? || n.StatBlock?) && n.name == tag
  }

  /** `issubclass(node.__class__, Heading)`: a heading, a stat-block title or a stat-block
      section. */
  predicate IsHeadingLike(n: Node) {
    n.Heading? || n.StatBlock?
  }

  /** A node the markup parser can produce: elements and text runs, all the way down. */
  predicate IsDom(n: Node) {
    match n
    case Element(_, _, children) => forall i :: 0 <= i < |children| ==> IsDom(children[i])
    case TextRun(_) => true
    case _ => false
  }

  /** `''.join(node.findAll(text=True))`: the text runs below a node, in document order. */
  function GetText(n: Node): string {
    match n
    case Element(_, _, children) => GetTextSeq(children)
    case TextRun(v) => v
    case _ => ""
  }

  function GetTextSeq(s: seq<Node>): string {
    if s == [] then "" else GetText(s[0]) + GetTextSeq(s[1..])
  }

  /** `unicode(node)`: the markup of an element with its attributes and children, or the text
      of a text run. Structured nodes render as a non-blank placeholder. */
  function Render(n: Node): (r: string)
    ensures !n.TextRun? ==> |r| > 0 && r[0] == '<'
  {
    match n
    case Element(name, attrs, children) =>
      "<" + name + RenderAttrs(attrs) + ">" + RenderSeq(children) + "</" + name + ">"
    case TextRun(v) => v
    case Heading(_, name, _) => "<Heading " + name + ">"
    case StatBlock(_, name, _, _, _) => "<StatBlockHeading " + name + ">"
    case Table(_, _) => "<table>"
    case Section(_, _, _, _) => "<section>"
  }

  function RenderSeq(s: seq<Node>): string {
    if s == [] then "" else Render(s[0]) + RenderSeq(s[1..])
  }

  function RenderAttrs(attrs: seq<(string, string)>): string {
    if attrs == [] then "" else " " + attrs[0].0 + "=\"" + attrs[0].1 + "\"" + RenderAttrs(attrs[1..])
  }

  /** A size that counts every node once together with the nodes gathered in its `details`
      (or, for an output section, its `sections`); it decreases when the interior of a node is
      processed on its own. */
  function Size(n: Node): (k: nat)
    ensures k >= 1
  {
    match n
    case Heading(_, _, details) => 1 + SizeSeq(details)
    case StatBlock(_, _, _, details, _) => 1 + SizeSeq(details)
    case Section(_, _, _, Listed(items)) => 1 + SizeSeq(items)
    case _ => 1
  }

  function SizeSeq(s: seq<Node>): nat {
    if s == [] then 0 else Size(s[0]) + SizeSeq(s[1..])
  }

  lemma {:induction false} SizeSeqAppend(a: seq<Node>, b: seq<Node>)
    ensures SizeSeq(a + b) == SizeSeq(a) + SizeSeq(b)
  {
    if a == [] {
      assert a + b == b;
    } else {
      assert (a + b)[1..] == a[1..] + b;
      SizeSeqAppend(a[1..], b);
    }
  }

  lemma {:induction false} SizeSeqElement(s: seq<Node>, i: nat)
    requires i < |s|
    ensures Size(s[i]) <= SizeSeq(s)
  {
    if i > 0 {
      SizeSeqElement(s[1..], i - 1);
    }
  }

  /** Regrouping a concatenation; stated once so that loop proofs can cite it. */
  lemma Regroup(a: seq<Node>, b: seq<Node>, c: seq<Node>)
    ensures (a + b) + c == a + (b + c)
  {
  }
}
