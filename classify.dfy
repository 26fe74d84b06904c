/** The classifier passes: each maps one node list to another, in order, replacing the node
    shapes it recognises by typed markers (headings, tables, stat-block titles). */
module Classify {
  import opened Text
  import opened Nodes
  import opened StatBlocks

  // ---------------------------------------------------------------------------------------
  // noop_pass: blank removal

  /** A node whose markup is not blank: `noop_pass` keeps exactly these. */
  predicate Visible(n: Node) {
    !IsBlank(Render(n))
  }

  /** The visible nodes of `s`, in order. */
  function NonBlank(s: seq<Node>): (r: seq<Node>)
    ensures |r| <= |s|
    ensures forall i :: 0 <= i < |r| ==> Visible(r[i])
  {
    if s == [] then []
    else NonBlank(s[..|s| - 1]) + (if Visible(s[|s| - 1]) then [s[|s| - 1]] else [])
  }

  /** `noop_pass`. */
  method NoopPass(s: seq<Node>) returns (r: seq<Node>)
    ensures r == NonBlank(s)
  {
    r := [];
    for i := 0 to |s|
      invariant r == NonBlank(s[..i])
    {
      assert s[..i + 1][..i] == s[..i];
      if !IsBlank(Render(s[i])) {
        r := r + [s[i]];
      }
    }
    assert s[..|s|] == s;
  }

  /** Blank removal distributes over concatenation, so it keeps the relative order of the
      nodes it keeps. */
  lemma {:induction false} NonBlankAppend(a: seq<Node>, b: seq<Node>)
    ensures NonBlank(a + b) == NonBlank(a) + NonBlank(b)
    decreases |b|
  {
    if b == [] {
      assert a + b == a;
    } else {
      var b' := b[..|b| - 1];
      assert (a + b)[..|a + b| - 1] == a + b';
      assert (a + b)[|a + b| - 1] == b[|b| - 1];
      NonBlankAppend(a, b');
    }
  }

  /** A node is kept exactly when it is visible; only blank text runs are dropped, since the
      markup of every other node starts with `<`. */
  lemma {:induction false} NonBlankMembers(s: seq<Node>)
    ensures forall x :: x in NonBlank(s) <==> x in s && Visible(x)
    ensures forall x :: x in s && x !in NonBlank(s) ==> x.TextRun? && IsBlank(x.value)
  {
    if s != [] {
      var p := s[..|s| - 1];
      NonBlankMembers(p);
      assert s == p + [s[|s| - 1]];
      forall x | x in s && !x.TextRun?
        ensures Visible(x)
      {
        assert !IsSpace(Render(x)[0]);
      }
    }
  }

  /** Blank removal keeps a list whose nodes are all visible as it is; in particular it is
      idempotent. */
  lemma {:induction false} NonBlankAllVisible(s: seq<Node>)
    requires forall i :: 0 <= i < |s| ==> Visible(s[i])
    ensures NonBlank(s) == s
  {
    if s != [] {
      NonBlankAllVisible(s[..|s| - 1]);
      assert s == s[..|s| - 1] + [s[|s| - 1]];
    }
  }

  lemma NonBlankIdempotent(s: seq<Node>)
    ensures NonBlank(NonBlank(s)) == NonBlank(s)
  {
    NonBlankAllVisible(NonBlank(s));
  }

  // ---------------------------------------------------------------------------------------
  // title_pass: h1 and h2 headings

  /** `title_pass` fails on a heading object whose title is "h1" or "h2" when that level is
      converted: `has_name` accepts it and it has no text to extract. */
  predicate TitleSafe(s: seq<Node>, maxTitle: int) {
    forall i :: 0 <= i < |s| ==>
      !(NamedObject(s[i], "h1") && maxTitle >= 1) && !(NamedObject(s[i], "h2") && maxTitle >= 2)
  }

  /** What `title_pass` makes of one node: only an `h1` (from level 1 on) or an `h2` (from
      level 2 on) changes, into an empty heading of that level named by its trimmed text. */
  function TitleNode(d: Node, maxTitle: int): (r: Node)
    requires !(NamedObject(d, "h1") && maxTitle >= 1) && !(NamedObject(d, "h2") && maxTitle >= 2)
    ensures r != d <==> (IsElement(d, "h1") && maxTitle >= 1) || (IsElement(d, "h2") && maxTitle >= 2)
    ensures r != d ==> r.Heading? && r.details == [] && r.name == Strip(GetText(d))
                       && r.level == (if d.name == "h1" then 1 else 2)
  {
    if HasName(d, "h1") && maxTitle >= 1 then Heading(1, Strip(GetText(d)), [])
    else if HasName(d, "h2") && maxTitle >= 2 then Heading(2, Strip(GetText(d)), [])
    else d
  }

  /** `title_pass` on a whole list: node by node, same length. */
  function TitleMap(s: seq<Node>, maxTitle: int): (r: seq<Node>)
    requires TitleSafe(s, maxTitle)
    ensures |r| == |s|
    ensures forall i :: 0 <= i < |s| ==> r[i] == TitleNode(s[i], maxTitle)
  {
    if s == [] then []
    else TitleMap(s[..|s| - 1], maxTitle) + [TitleNode(s[|s| - 1], maxTitle)]
  }

  /** `title_pass`. */
  method TitlePass(s: seq<Node>, maxTitle: int) returns (r: seq<Node>)
    requires TitleSafe(s, maxTitle)
    ensures r == TitleMap(s, maxTitle)
  {
    r := [];
    for i := 0 to |s|
      invariant |r| == i && forall j :: 0 <= j < i ==> r[j] == TitleNode(s[j], maxTitle)
    {
      var d := s[i];
      if HasName(d, "h1") && maxTitle >= 1 {
        r := r + [Heading(1, Strip(GetText(d)), [])];
      } else if HasName(d, "h2") && maxTitle >= 2 {
        r := r + [Heading(2, Strip(GetText(d)), [])];
      } else {
        r := r + [d];
      }
    }
  }

  /** Below level 1 nothing is a title: the pass is the identity. */
  lemma TitleMapBelowOne(s: seq<Node>, maxTitle: int)
    requires maxTitle < 1
    ensures TitleMap(s, maxTitle) == s
  {
  }

  // ---------------------------------------------------------------------------------------
  // table_pass: the table recogniser and parser are outside the model; the recogniser is a
  // parameter and the parsed value is the opaque `Table` node.

  /** `table_pass` on a whole list: every node the recogniser accepts is replaced by the
      parsed table, in place. */
  function Tabled(s: seq<Node>, book: string, isTable: Node -> bool): (r: seq<Node>)
    ensures |r| == |s|
    ensures forall i :: 0 <= i < |s| ==> r[i] == if isTable(s[i]) then Table(s[i], book) else s[i]
  {
    if s == [] then []
    else Tabled(s[..|s| - 1], book, isTable) + [if isTable(s[|s| - 1]) then Table(s[|s| - 1], book) else s[|s| - 1]]
  }

  /** `table_pass`. */
  method TablePass(s: seq<Node>, book: string, isTable: Node -> bool) returns (r: seq<Node>)
    ensures r == Tabled(s, book, isTable)
  {
    r := [];
    for i := 0 to |s|
      invariant |r| == i
      invariant forall j :: 0 <= j < i ==> r[j] == if isTable(s[j]) then Table(s[j], book) else s[j]
    {
      if isTable(s[i]) {
        r := r + [Table(s[i], book)];
      } else {
        r := r + [s[i]];
      }
    }
  }

  /** The inverse of `table_pass` on a list without tables: every table value remembers the
      node it was parsed from. */
  function Untable(n: Node): Node {
    if n.Table? then n.source else n
  }

  lemma TablesRecoverSource(s: seq<Node>, book: string, isTable: Node -> bool)
    requires forall i :: 0 <= i < |s| ==> !s[i].Table?
    ensures forall i :: 0 <= i < |s| ==> Untable(Tabled(s, book, isTable)[i]) == s[i]
    ensures forall i :: 0 <= i < |s| ==> (Tabled(s, book, isTable)[i].Table? <==> isTable(s[i]))
  {
  }

  // ---------------------------------------------------------------------------------------
  // stat_block_pass: stat-block titles

  /** A paragraph whose class contains `stat-block-title`. */
  predicate IsStatBlockTitle(d: Node) {
    ClassHas(d, "stat-block-title")
  }

  /** Its second child is a `span` of class exactly `stat-block-cr`. The children of a markup
      element are markup or text, so `has_name` on them is a tag test. */
  predicate HasCr(d: Node)
    requires d.Element?
  {
    |d.children| > 1 && IsElement(d.children[1], "span") && Attr(d.children[1].attrs, "class") == "stat-block-cr"
  }

  /** An `h3` whose id contains `companion`. */
  predicate IsCompanion(d: Node) {
    IsElement(d, "h3") && Contains(Attr(d.attrs, "id"), "companion")
  }

  /** `stat_block_pass` fails on a heading object titled "p" or "h3" (no attributes to read)
      and on a title paragraph with a CR span whose first child is not text (it has no
      `strip`). */
  predicate StatBlockSafe(d: Node) {
    !NamedObject(d, "p") && !NamedObject(d, "h3") &&
    (IsStatBlockTitle(d) && HasCr(d) ==> d.children[0].TextRun?)
  }

  /** What `stat_block_pass` makes of one node: a stat-block title or a companion heading
      becomes a stat block with no interior whose provenance is that node; only a title with
      a CR span carries a pair, the CR. */
  function StatBlockNode(d: Node): (r: Node)
    requires StatBlockSafe(d)
    ensures r != d <==> IsStatBlockTitle(d) || IsCompanion(d)
    ensures r != d ==> r.StatBlock? && !r.isSection && IsTrimmed(r.name) && r.details == [] && r.html == [d]
    ensures r != d && |r.keys| > 0 ==>
              IsStatBlockTitle(d) && HasCr(d) && r.keys == [StoredPair("CR", [GetText(d.children[1])])]
  {
    if IsStatBlockTitle(d) then
      if HasCr(d) then
        StatBlock(false, Strip(d.children[0].value), [StoredPair("CR", [GetText(d.children[1])])], [], [d])
      else StatBlock(false, Strip(GetText(d)), [], [], [d])
    else if IsCompanion(d) then StatBlock(false, Strip(GetText(d)), [], [], [d])
    else d
  }

  /** The name and pairs of a converted node: a title with a CR span is named by its first
      child and carries exactly the CR pair; any other converted node is named by its text and
      carries no pair. */
  lemma StatBlockNodeNamed(d: Node)
    requires StatBlockSafe(d)
    ensures IsStatBlockTitle(d) && HasCr(d) ==>
              StatBlockNode(d).keys == [StoredPair("CR", [GetText(d.children[1])])]
              && StatBlockNode(d).name == Strip(d.children[0].value)
    ensures StatBlockNode(d) != d && !(IsStatBlockTitle(d) && HasCr(d)) ==>
              StatBlockNode(d).keys == [] && StatBlockNode(d).name == Strip(GetText(d))
  {
  }

  /** `stat_block_pass` on a whole list: node by node, same length. */
  function StatBlocked(s: seq<Node>): (r: seq<Node>)
    requires forall i :: 0 <= i < |s| ==> StatBlockSafe(s[i])
    ensures |r| == |s|
    ensures forall i :: 0 <= i < |s| ==> r[i] == StatBlockNode(s[i])
  {
    if s == [] then [] else StatBlocked(s[..|s| - 1]) + [StatBlockNode(s[|s| - 1])]
  }

  /** `stat_block_pass`. The CR text is passed to `store_key` as one string, which joins to
      itself. */
  method StatBlockPass(s: seq<Node>) returns (r: seq<Node>)
    requires forall i :: 0 <= i < |s| ==> StatBlockSafe(s[i])
    ensures r == StatBlocked(s)
  {
    r := [];
    for i := 0 to |s|
      invariant |r| == i && forall j :: 0 <= j < i ==> r[j] == StatBlockNode(s[j])
    {
      var d := s[i];
      if HasName(d, "p") && Contains(Attr(d.attrs, "class"), "stat-block-title") {
        if |d.children| > 1 && IsElement(d.children[1], "span") && Attr(d.children[1].attrs, "class") == "stat-block-cr" {
          var sb := new StatBlockRecord(false, d.children[0].value, d);
          sb.StoreKey("CR", [GetText(d.children[1])]);
          r := r + [sb.ToNode()];
        } else {
          var sb := new StatBlockRecord(false, GetText(d), d);
          r := r + [sb.ToNode()];
        }
      } else if HasName(d, "h3") && Contains(Attr(d.attrs, "id"), "companion") {
        var sb := new StatBlockRecord(false, GetText(d), d);
        r := r + [sb.ToNode()];
      } else {
        r := r + [d];
      }
    }
  }

  // ---------------------------------------------------------------------------------------
  // subtitle_pass: h3 headings and bold or italic leads, recursively inside headings

  /** The first child replaced by an empty text run (`replaceWith('')`). */
  function DropLead(d: Node): (r: Node)
    requires d.Element? && |d.children| > 0
    ensures r.Element? && r.name == d.name && r.attrs == d.attrs
    ensures GetText(d) == GetText(d.children[0]) + GetText(r)
  {
    var r := d.(children := [TextRun("")] + d.children[1..]);
    assert r.children[1..] == d.children[1..];
    assert GetTextSeq(r.children) == GetText(TextRun("")) + GetTextSeq(d.children[1..]);
    assert GetTextSeq(d.children) == GetText(d.children[0]) + GetTextSeq(d.children[1..]);
    r
  }

  /** The first child of a markup element is a `tag` element. */
  predicate LeadIs(d: Node, tag: string)
    requires d.Element?
  {
    |d.children| > 0 && HasName(d.children[0], tag)
  }

  /** The markup elements `subtitle_pass` converts: an `h3` from level 3 on, an element led by
      bold text (from level 2 on) or by italic text (from level 5 on). A bold-led element that
      is centred is recognised but left as it is. */
  predicate SubtitleShape(d: Node, maxTitle: int) {
    d.Element? && ((HasName(d, "h3") && maxTitle >= 3) || (LeadIs(d, "b") && maxTitle >= 2) || (LeadIs(d, "i") && maxTitle >= 5))
  }

  /** What `subtitle_pass` makes of one node: a heading or stat block has its details passed
      through again; an `h3` becomes a level-3 heading; a markup element led by bold text (not
      centred) or italic text is preceded by a level-4 or level-5 heading named by that lead,
      which it loses. Every other node stays as it is. */
  function SubtitleNode(d: Node, maxTitle: int): (r: seq<Node>)
    ensures 1 <= |r| <= 2
    ensures |r| == 2 ==> d.Element? && |d.children| > 0 && maxTitle >= 2
                         && r[0].Heading? && r[0].details == [] && (r[0].level == 4 || r[0].level == 5)
                         && r[0].name == Strip(GetText(d.children[0]))
                         && r[1] == DropLead(d)
    ensures IsHeadingLike(d) ==> r == [d.(details := SubtitleSeq(d.details, maxTitle))]
    ensures d.Element? && HasName(d, "h3") && maxTitle >= 3 ==> r == [Heading(3, Strip(GetText(d)), [])]
    ensures d.Element? && !(HasName(d, "h3") && maxTitle >= 3) && LeadIs(d, "b") && maxTitle >= 2 ==>
              r == if Attr(d.attrs, "align") == "center" then [d]
                   else [Heading(4, Strip(GetText(d.children[0])), []), DropLead(d)]
    ensures d.Element? && !(HasName(d, "h3") && maxTitle >= 3) && LeadIs(d, "i") && maxTitle >= 5 ==>
              r == [Heading(5, Strip(GetText(d.children[0])), []), DropLead(d)]
    ensures !IsHeadingLike(d) && !SubtitleShape(d, maxTitle) ==> r == [d]
    decreases Size(d), 0
  {
    if IsHeadingLike(d) then [d.(details := SubtitleSeq(d.details, maxTitle))]
    else if !d.Element? then [d]
    else if HasName(d, "h3") && maxTitle >= 3 then [Heading(3, Strip(GetText(d)), [])]
    else if |d.children| > 0 then
      var lead := d.children[0];
      if HasName(lead, "b") && maxTitle >= 2 then
        if Attr(d.attrs, "align") != "center" then [Heading(4, Strip(GetText(lead)), []), DropLead(d)]
        else [d]
      else if HasName(lead, "i") && maxTitle >= 5 then [Heading(5, Strip(GetText(lead)), []), DropLead(d)]
      else [d]
    else [d]
  }

  /** `subtitle_pass` on a list: each node's replacement, in order. */
  function SubtitleSeq(s: seq<Node>, maxTitle: int): (r: seq<Node>)
    ensures |s| <= |r| <= 2 * |s|
    decreases SizeSeq(s), 1
  {
    if s == [] then [] else SubtitleNode(s[0], maxTitle) + SubtitleSeq(s[1..], maxTitle)
  }

  /** The pass works node by node: a list's result is its parts' results, in order, so no
      node is dropped or moved. */
  lemma {:induction false} SubtitleSeqAppend(a: seq<Node>, b: seq<Node>, maxTitle: int)
    ensures SubtitleSeq(a + b, maxTitle) == SubtitleSeq(a, maxTitle) + SubtitleSeq(b, maxTitle)
  {
    if a == [] {
      assert a + b == b;
    } else {
      assert (a + b)[0] == a[0] && (a + b)[1..] == a[1..] + b;
      SubtitleSeqAppend(a[1..], b, maxTitle);
      Regroup(SubtitleNode(a[0], maxTitle), SubtitleSeq(a[1..], maxTitle), SubtitleSeq(b, maxTitle));
    }
  }

  /** `subtitle_pass`, recursive through the details of headings and stat blocks. */
  method SubtitlePass(s: seq<Node>, maxTitle: int) returns (r: seq<Node>)
    ensures r == SubtitleSeq(s, maxTitle)
    decreases SizeSeq(s)
  {
    r := [];
    ghost var rest := s;
    for i := 0 to |s|
      invariant rest == s[i..] && SizeSeq(rest) <= SizeSeq(s)
      invariant r + SubtitleSeq(rest, maxTitle) == SubtitleSeq(s, maxTitle)
    {
      var d := s[i];
      assert rest[0] == d && rest[1..] == s[i + 1..];
      assert SizeSeq(rest) == Size(d) + SizeSeq(rest[1..]);
      var next: seq<Node>;
      if d.Heading? || d.StatBlock? {
        var inner := SubtitlePass(d.details, maxTitle);
        next := [d.(details := inner)];
      } else if d.Element? {
        if HasName(d, "h3") && maxTitle >= 3 {
          next := [Heading(3, Strip(GetText(d)), [])];
        } else if |d.children| > 0 {
          var lead := d.children[0];
          next := [d];
          if HasName(lead, "b") && maxTitle >= 2 {
            if Attr(d.attrs, "align") != "center" {
              next := [Heading(4, Strip(GetText(lead)), []), DropLead(d)];
            }
          } else if HasName(lead, "i") && maxTitle >= 5 {
            next := [Heading(5, Strip(GetText(lead)), []), DropLead(d)];
          }
        } else {
          next := [d];
        }
      } else {
        next := [d];
      }
      assert next == SubtitleNode(d, maxTitle);
      assert SubtitleSeq(rest, maxTitle) == next + SubtitleSeq(rest[1..], maxTitle);
      Regroup(r, next, SubtitleSeq(rest[1..], maxTitle));
      r := r + next;
      rest := rest[1..];
    }
    assert SubtitleSeq(rest, maxTitle) == [];
  }

  /** Below level 2 no subtitle is recognised anywhere: the pass is the identity. */
  lemma {:induction false} SubtitleSeqBelowTwo(s: seq<Node>, maxTitle: int)
    requires maxTitle < 2
    ensures SubtitleSeq(s, maxTitle) == s
    decreases SizeSeq(s), 1
  {
    if s != [] {
      SubtitleNodeBelowTwo(s[0], maxTitle);
      SubtitleSeqBelowTwo(s[1..], maxTitle);
      assert s == [s[0]] + s[1..];
    }
  }

  lemma {:induction false} SubtitleNodeBelowTwo(d: Node, maxTitle: int)
    requires maxTitle < 2
    ensures SubtitleNode(d, maxTitle) == [d]
    decreases Size(d), 0
  {
    if IsHeadingLike(d) {
      SubtitleSeqBelowTwo(d.details, maxTitle);
      assert d.(details := d.details) == d;
    }
  }
}
