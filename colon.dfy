/** The colon normaliser: in each markup element of a list, the first text run (in document
    order) that starts with ": " loses that prefix; the details of headings and stat blocks
    are treated the same way. */
module Colon {
  import opened Text
  import opened Nodes

  /** The text run matches `^: .*`: it starts with a colon and a space. */
  predicate ColonLed(v: string) {
    StartsWith(v, ": ")
  }

  /** Some text run below `n` (or `n` itself) is colon-led. */
  predicate HasColon(n: Node) {
    match n
    case TextRun(v) => ColonLed(v)
    case Element(_, _, children) => HasColonSeq(children)
    case _ => false
  }

  predicate HasColonSeq(s: seq<Node>) {
    s != [] && (HasColon(s[0]) || HasColonSeq(s[1..]))
  }

  /** The first colon-led text run in document order loses its leading ": "
      (`replaceWith(re.sub('^: ', '', ...))`). */
  function DropColon(n: Node): (r: Node)
    requires HasColon(n)
    ensures r.TextRun? == n.TextRun? && r.Element? == n.Element?
    ensures r.Element? ==> r.name == n.name && r.attrs == n.attrs
  {
    match n
    case TextRun(v) => TextRun(v[2..])
    case Element(name, attrs, children) => Element(name, attrs, DropColonSeq(children))
  }

  function DropColonSeq(s: seq<Node>): (r: seq<Node>)
    requires HasColonSeq(s)
    ensures |r| == |s|
  {
    if HasColon(s[0]) then [DropColon(s[0])] + s[1..] else [s[0]] + DropColonSeq(s[1..])
  }

  /** Where, in the text of `n`, the removed ": " stood. */
  function ColonAt(n: Node): (k: nat)
    requires HasColon(n)
  {
    match n
    case TextRun(_) => 0
    case Element(_, _, children) => ColonAtSeq(children)
  }

  function ColonAtSeq(s: seq<Node>): (k: nat)
    requires HasColonSeq(s)
  {
    if HasColon(s[0]) then ColonAt(s[0]) else |GetText(s[0])| + ColonAtSeq(s[1..])
  }

  /** The text of the element loses exactly the one ": " at `ColonAt`, and nothing else
      changes in it. */
  lemma {:induction false} DropColonText(n: Node)
    requires HasColon(n)
    ensures ColonAt(n) + 2 <= |GetText(n)|
    ensures GetText(n)[ColonAt(n)..ColonAt(n) + 2] == ": "
    ensures GetText(DropColon(n)) == GetText(n)[..ColonAt(n)] + GetText(n)[ColonAt(n) + 2..]
    decreases n, 2
  {
    match n
    case TextRun(v) =>
    case Element(_, _, children) =>
      DropColonSeqText(children);
  }

  lemma {:induction false} DropColonSeqText(s: seq<Node>)
    requires HasColonSeq(s)
    ensures ColonAtSeq(s) + 2 <= |GetTextSeq(s)|
    ensures GetTextSeq(s)[ColonAtSeq(s)..ColonAtSeq(s) + 2] == ": "
    ensures GetTextSeq(DropColonSeq(s)) == GetTextSeq(s)[..ColonAtSeq(s)] + GetTextSeq(s)[ColonAtSeq(s) + 2..]
    decreases s, 1
  {
    if HasColon(s[0]) {
      DropColonHeadText(s);
    } else {
      DropColonTailText(s);
    }
  }

  /** The removed ": " lies in the first node of the list. */
  lemma {:induction false} DropColonHeadText(s: seq<Node>)
    requires HasColonSeq(s) && HasColon(s[0])
    ensures ColonAtSeq(s) + 2 <= |GetTextSeq(s)|
    ensures GetTextSeq(s)[ColonAtSeq(s)..ColonAtSeq(s) + 2] == ": "
    ensures GetTextSeq(DropColonSeq(s)) == GetTextSeq(s)[..ColonAtSeq(s)] + GetTextSeq(s)[ColonAtSeq(s) + 2..]
    decreases s, 0
  {
    var r := DropColonSeq(s);
    assert r[0] == DropColon(s[0]) && r[1..] == s[1..];
    DropColonText(s[0]);
    SplicedInHead(GetText(s[0]), GetText(r[0]), GetTextSeq(s[1..]), ColonAt(s[0]));
  }

  /** The removed ": " lies further down the list. */
  lemma {:induction false} DropColonTailText(s: seq<Node>)
    requires HasColonSeq(s) && !HasColon(s[0])
    ensures ColonAtSeq(s) + 2 <= |GetTextSeq(s)|
    ensures GetTextSeq(s)[ColonAtSeq(s)..ColonAtSeq(s) + 2] == ": "
    ensures GetTextSeq(DropColonSeq(s)) == GetTextSeq(s)[..ColonAtSeq(s)] + GetTextSeq(s)[ColonAtSeq(s) + 2..]
    decreases s, 0
  {
    var r := DropColonSeq(s);
    assert r[0] == s[0] && r[1..] == DropColonSeq(s[1..]);
    DropColonSeqText(s[1..]);
    SplicedInTail(GetText(s[0]), GetTextSeq(s[1..]), GetTextSeq(r[1..]), ColonAtSeq(s[1..]));
  }

  /** Cutting two characters out of the head of a concatenation. */
  lemma SplicedInHead(head: string, cut: string, tail: string, k: nat)
    requires k + 2 <= |head| && head[k..k + 2] == ": " && cut == head[..k] + head[k + 2..]
    ensures k + 2 <= |head + tail| && (head + tail)[k..k + 2] == ": "
    ensures cut + tail == (head + tail)[..k] + (head + tail)[k + 2..]
  {
    assert (head + tail)[k..k + 2] == head[k..k + 2];
    assert (head + tail)[..k] == head[..k];
    assert (head + tail)[k + 2..] == head[k + 2..] + tail;
  }

  /** Cutting two characters out of the tail of a concatenation. */
  lemma SplicedInTail(head: string, tail: string, cut: string, k: nat)
    requires k + 2 <= |tail| && tail[k..k + 2] == ": " && cut == tail[..k] + tail[k + 2..]
    ensures |head| + k + 2 <= |head + tail| && (head + tail)[|head| + k..|head| + k + 2] == ": "
    ensures head + cut == (head + tail)[..|head| + k] + (head + tail)[|head| + k + 2..]
  {
    assert (head + tail)[|head| + k..|head| + k + 2] == tail[k..k + 2];
    assert (head + tail)[..|head| + k] == head + tail[..k];
    assert (head + tail)[|head| + k + 2..] == tail[k + 2..];
  }

  /** What `colon_pass` does to one node of the list: a markup element loses its first
      leading ": "; a heading or stat block has its details treated as a list; every other
      node is left alone. */
  function ColonNode(d: Node): (r: Node)
    ensures d.Element? && HasColon(d) ==> r == DropColon(d)
    ensures IsHeadingLike(d) ==> r == d.(details := ColonSeq(d.details))
    ensures !(d.Element? && HasColon(d)) && !IsHeadingLike(d) ==> r == d
    decreases Size(d), 0
  {
    if d.Element? && HasColon(d) then DropColon(d)
    else if IsHeadingLike(d) then d.(details := ColonSeq(d.details))
    else d
  }

  /** The pass on a list: node by node, in place. */
  function ColonSeq(s: seq<Node>): (r: seq<Node>)
    ensures |r| == |s|
    decreases SizeSeq(s), 1
  {
    if s == [] then [] else [ColonNode(s[0])] + ColonSeq(s[1..])
  }

  /** The list pass is the node pass at every position. */
  lemma {:induction false} ColonSeqAt(s: seq<Node>)
    ensures forall i :: 0 <= i < |s| ==> ColonSeq(s)[i] == ColonNode(s[i])
  {
    if s != [] {
      ColonSeqAt(s[1..]);
      assert forall i :: 1 <= i < |s| ==> s[i] == s[1..][i - 1];
    }
  }

  /** `colon_pass`. The source rewrites the text runs in place and returns nothing; the model
      returns the list as it is afterwards. */
  method ColonPass(s: seq<Node>) returns (r: seq<Node>)
    ensures r == ColonSeq(s)
    decreases SizeSeq(s)
  {
    r := [];
    ghost var rest := s;
    for i := 0 to |s|
      invariant rest == s[i..] && SizeSeq(rest) <= SizeSeq(s)
      invariant r + ColonSeq(rest) == ColonSeq(s)
    {
      var d := s[i];
      assert rest[0] == d && rest[1..] == s[i + 1..];
      assert SizeSeq(rest) == Size(d) + SizeSeq(rest[1..]);
      var next := d;
      if d.Element? {
        if HasColon(d) {
          next := DropColon(d);
        }
      } else if d.Heading? || d.StatBlock? {
        var inner := ColonPass(d.details);
        next := d.(details := inner);
      }
      assert next == ColonNode(d);
      assert ColonSeq(rest) == [next] + ColonSeq(rest[1..]);
      Regroup(r, [next], ColonSeq(rest[1..]));
      r := r + [next];
      rest := rest[1..];
    }
    assert ColonSeq(rest) == [];
  }

  /** The pass is not idempotent: a paragraph whose text is ": : x" becomes ": x" and then
      "x", since each pass removes a single ": ". */
  lemma ColonPassNotIdempotent()
    ensures var p := [Element("p", [], [TextRun(": : x")])];
      ColonSeq(ColonSeq(p)) != ColonSeq(p)
  {
    var p := [Element("p", [], [TextRun(": : x")])];
    var once := [Element("p", [], [TextRun(": x")])];
    assert ": : x"[..2] == ": " && ": : x"[2..] == ": x";
    assert HasColon(TextRun(": : x")) && HasColon(p[0]);
    assert DropColonSeq([TextRun(": : x")]) == [TextRun(": x")];
    assert ColonSeq(p) == once;
    assert ": x"[..2] == ": " && ": x"[2..] == "x";
    assert HasColon(TextRun(": x")) && HasColon(once[0]);
    assert DropColonSeq([TextRun(": x")]) == [TextRun("x")];
    assert ColonSeq(once) == [Element("p", [], [TextRun("x")])];
  }
}
