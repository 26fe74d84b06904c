/** `parse_body`: the passes applied in order to the contents of a page body, and the output
    section tree built from what they leave. */
module Pipeline {
  import opened Text
  import opened Nodes
  import opened StatBlocks
  import opened Classify
  import opened Collapse
  import opened Colon
  import opened Sections

  /** The title collapses, finest level first, each only when the page allows that level:
      levels 5, 4 and 3 leave stat blocks at the top, levels 2 and 1 gather them. */
  function Collapses(s: seq<Node>, maxTitle: int): (r: seq<Node>)
    ensures SizeSeq(r) == SizeSeq(s)
    ensures Flat(r) == Flat(s)
  {
    CollapsedSize(s, 5, false);
    CollapsedFlat(s, 5, false);
    var s5 := if maxTitle >= 5 then Collapsed(s, 5, false) else s;
    CollapsedSize(s5, 4, false);
    CollapsedFlat(s5, 4, false);
    var s4 := if maxTitle >= 4 then Collapsed(s5, 4, false) else s5;
    CollapsedSize(s4, 3, false);
    CollapsedFlat(s4, 3, false);
    var s3 := if maxTitle >= 3 then Collapsed(s4, 3, false) else s4;
    CollapsedSize(s3, 2, true);
    CollapsedFlat(s3, 2, true);
    var s2 := if maxTitle >= 2 then Collapsed(s3, 2, true) else s3;
    CollapsedSize(s2, 1, true);
    CollapsedFlat(s2, 1, true);
    if maxTitle >= 1 then Collapsed(s2, 1, true) else s2
  }

  /** The passes up to the stat-block title pass run without failing. */
  predicate LinesSafe(contents: seq<Node>, book: string, maxTitle: int, isTable: Node -> bool) {
    var s1 := NonBlank(contents);
    TitleSafe(s1, maxTitle) &&
    var s3 := Tabled(TitleMap(s1, maxTitle), book, isTable);
    (forall i :: 0 <= i < |s3| ==> StatBlockSafe(s3[i])) &&
    ScopesSafe(StatBlocked(s3))
  }

  /** The list after the colon pass. No pass empties a non-empty list: the collapses keep
      the weight of the list, only nesting nodes deeper. */
  function Lines(contents: seq<Node>, book: string, maxTitle: int, isTable: Node -> bool): (r: seq<Node>)
    requires LinesSafe(contents, book, maxTitle, isTable)
    ensures NonBlank(contents) != [] ==> r != []
  {
    var s1 := NonBlank(contents);
    var s4 := StatBlocked(Tabled(TitleMap(s1, maxTitle), book, isTable));
    var s6 := SubtitleSeq(Scopes(s4), maxTitle);
    var s7 := Collapses(s6, maxTitle);
    assert s6 != [] ==> SizeSeq(s6) > 0;
    assert s7 == [] ==> SizeSeq(s7) == 0;
    ColonSeq(s7)
  }

  /** The node the output tree is built from: the only line, or a title section holding all
      of them. */
  function Top(lines: seq<Node>, book: string, title: Option<string>): (r: Node)
    requires lines != []
    requires |lines| > 1 && title.Some? && title.value != [] ==> !IsBlank(title.value)
    ensures |lines| == 1 ==> r == lines[0]
    ensures |lines| > 1 ==> r.Section? && r.book == book && r.text.None? && r.sections == Listed(lines)
    ensures |lines| > 1 ==> (r.title.Some? <==> title.Some? && title.value != [])
  {
    if |lines| > 1 then
      var t := CreateTitleSection(book, title);
      t.(sections := Listed(lines))
    else lines[0]
  }

  /** `parse_body` runs without failing: the passes are safe, some node of the body is
      visible (the source reads the first line), a non-empty title is not blank, and the
      sections built from headings are safe for the text pass. */
  predicate ParseSafe(contents: seq<Node>, book: string, title: Option<string>, maxTitle: int, isTable: Node -> bool) {
    LinesSafe(contents, book, maxTitle, isTable) && NonBlank(contents) != [] &&
    var lines := Lines(contents, book, maxTitle, isTable);
    (|lines| > 1 && title.Some? && title.value != [] ==> !IsBlank(title.value)) &&
    var top := Top(lines, book, title);
    FoldSafe(top) && (Folded(top, book).Section? ==> TextSafe(Folded(top, book)))
  }

  /** What `parse_body` returns. With more than one line it is the title section (named after
      a non-empty title) of the book. */
  function Parsed(contents: seq<Node>, book: string, title: Option<string>, maxTitle: int, isTable: Node -> bool): (r: Node)
    requires ParseSafe(contents, book, title, maxTitle, isTable)
    ensures var lines := Lines(contents, book, maxTitle, isTable);
      |lines| > 1 ==> r.Section? && r.book == book && (r.title.Some? <==> title.Some? && title.value != [])
  {
    var top := Folded(Top(Lines(contents, book, maxTitle, isTable), book, title), book);
    if top.Section? then TextPass(top, book) else top
  }

  /** The five gated calls of `title_collapse_pass` in `parse_body`. */
  method CollapseTitles(s: seq<Node>, maxTitle: int) returns (r: seq<Node>)
    ensures r == Collapses(s, maxTitle)
  {
    r := s;
    if maxTitle >= 5 {
      r := TitleCollapsePass(r, 5, false);
    }
    if maxTitle >= 4 {
      r := TitleCollapsePass(r, 4, false);
    }
    if maxTitle >= 3 {
      r := TitleCollapsePass(r, 3, false);
    }
    if maxTitle >= 2 {
      r := TitleCollapsePass(r, 2, true);
    }
    if maxTitle >= 1 {
      r := TitleCollapsePass(r, 1, true);
    }
  }

  /** `parse_body(div, book, title, max_title)` on the contents of the body. */
  method ParseBody(contents: seq<Node>, book: string, title: Option<string>, maxTitle: int, isTable: Node -> bool)
    returns (top: Node)
    requires ParseSafe(contents, book, title, maxTitle, isTable)
    ensures top == Parsed(contents, book, title, maxTitle, isTable)
  {
    var lines := NoopPass(contents);
    lines := TitlePass(lines, maxTitle);
    lines := TablePass(lines, book, isTable);
    lines := StatBlockPass(lines);
    lines := StatBlockCollapsePass(lines);
    lines := SubtitlePass(lines, maxTitle);
    lines := CollapseTitles(lines, maxTitle);
    lines := ColonPass(lines);
    assert lines == Lines(contents, book, maxTitle, isTable);
    top := lines[0];
    if |lines| > 1 {
      top := CreateTitleSection(book, title);
      top := top.(sections := Listed(lines));
    }
    top := SectionPass(top, book);
    if top.Section? {
      top := SectionTextPass(top, book);
    }
  }

  /** No heading object is left in the returned tree outside stat blocks: every heading the
      passes produced at the top or inside another heading has become a named section. The
      headings `subtitle_pass` makes inside a stat block's details are not reached by
      `section_pass` and stay there (`Sections.HeadingInStatBlockStays`). */
  lemma ParsedHeadingFree(contents: seq<Node>, book: string, title: Option<string>, maxTitle: int, isTable: Node -> bool)
    requires ParseSafe(contents, book, title, maxTitle, isTable)
    ensures HeadingFree(Parsed(contents, book, title, maxTitle, isTable))
  {
    var top := Folded(Top(Lines(contents, book, maxTitle, isTable), book, title), book);
    FoldedHeadingFree(Top(Lines(contents, book, maxTitle, isTable), book, title), book);
    if top.Section? {
      TextPassHeadingFree(top, book);
    }
  }
}
