/** The output stage: headings become named output sections (`section_pass`), and the text
    runs left inside each section become its own text or anonymous child sections
    (`section_text_pass`). */
module Sections {
  import opened Text
  import opened Nodes

  // ----- Section names -------------------------------------------------------------------

  /** `filter_name`: the trimmed name without one trailing colon. The source reads the last
      character of the trimmed name, so a blank name is an error there. */
  function FilterName(name: string): (r: string)
    requires !IsBlank(name)
    ensures IsTrimmed(r)
  {
    StripEmpty(name);
    var n := Strip(name);
    if n[|n| - 1] == ':' then Strip(n[..|n| - 1]) else n
  }

  /** Only the trimmed name matters: surrounding whitespace is dropped before the colon
      test, so " Foo: " gives what "Foo:" gives. */
  lemma FilterNameStrips(v: string)
    requires !IsBlank(v)
    ensures !IsBlank(Strip(v)) && FilterName(v) == FilterName(Strip(v))
  {
    StripEmpty(v);
    StripEmpty(Strip(v));
    StripIdempotent(v);
  }

  /** A trimmed name followed by a colon loses exactly the colon. */
  lemma FilterNameDropsColon(v: string)
    requires IsTrimmed(v)
    ensures !IsBlank(v + ":")
    ensures FilterName(v + ":") == v
  {
    var w := v + ":";
    assert w[|v|] == ':';
    assert IsTrimmed(w);
    StripTrimmed(w);
    assert w[..|w| - 1] == v;
    StripTrimmed(v);
  }

  /** A trimmed name that does not end in a colon is kept as it is. */
  lemma FilterNameKeeps(v: string)
    requires IsTrimmed(v) && v != [] && v[|v| - 1] != ':'
    ensures !IsBlank(v) && FilterName(v) == v
  {
    assert !IsSpace(v[0]);
    StripTrimmed(v);
  }

  /** Only one colon goes: a name ending in two colons keeps the first of them. */
  lemma FilterNameDropsOneColon(v: string)
    requires IsTrimmed(v) && v != []
    ensures !IsBlank(v + "::")
    ensures FilterName(v + "::") == v + ":"
  {
    var w := v + "::";
    assert w[|v|] == ':';
    assert IsTrimmed(w);
    StripTrimmed(w);
    assert w[..|w| - 1] == v + ":";
    assert IsTrimmed(v + ":");
    StripTrimmed(v + ":");
  }

  /** `create_title_section`: an empty top-level section for the book, named after the title
      when a non-empty title is given. */
  function CreateTitleSection(book: string, title: Option<string>): (r: Node)
    requires title.Some? && title.value != [] ==> !IsBlank(title.value)
    ensures r.Section? && r.book == book && r.text.None? && r.sections == Listed([])
    ensures r.title.Some? <==> title.Some? && title.value != []
    ensures r.title.Some? ==> IsTrimmed(r.title.value) && r.title.value == FilterName(title.value)
  {
    Section(if title.Some? && title.value != [] then Some(FilterName(title.value)) else None, book, None, Listed([]))
  }

  // ----- section_pass ----------------------------------------------------------------------

  /** Every heading `section_pass` reaches has a non-blank name, so `filter_name` can read its
      last character. The pass walks the details of headings and the children of sections,
      and nothing else. */
  predicate FoldSafe(n: Node) {
    match n
    case Heading(_, name, details) => !IsBlank(name) && forall i :: 0 <= i < |details| ==> FoldSafe(details[i])
    case Section(_, _, _, Listed(items)) => forall i :: 0 <= i < |items| ==> FoldSafe(items[i])
    case _ => true
  }

  /** What `section_pass` turns a node into. A section keeps its fields and gets its children
      converted (an absent list counts as empty and becomes present); a heading (exactly a
      heading: stat-block titles are not converted) becomes a section named after it, whose
      children are its converted details, absent when there are none; every other node is
      returned unchanged. */
  function Folded(n: Node, book: string): (r: Node)
    requires FoldSafe(n)
    ensures n.Section? || n.Heading? <==> r.Section?
    ensures !n.Section? && !n.Heading? ==> r == n
    ensures n.Section? ==> r.title == n.title && r.book == n.book && r.text == n.text && r.sections.Listed?
    ensures n.Heading? ==> r.title == Some(FilterName(n.name)) && r.book == book && r.text.None?
    ensures n.Heading? ==> (r.sections.Listed? <==> n.details != [])
    ensures n.Heading? && n.details != [] ==> r.sections == Listed(FoldedSeq(n.details, book))
    ensures n.Section? ==> r.sections == Listed(FoldedSeq(if n.sections.Listed? then n.sections.items else [], book))
    decreases Size(n), 0
  {
    match n
    case Section(title, source, text, sections) =>
      Section(title, source, text, Listed(FoldedSeq(if sections.Listed? then sections.items else [], book)))
    case Heading(_, name, details) =>
      var p := FoldedSeq(details, book);
      Section(Some(FilterName(name)), book, None, if |p| > 0 then Listed(p) else Absent)
    case _ => n
  }

  /** The children converted one by one, in their order. */
  function FoldedSeq(s: seq<Node>, book: string): (r: seq<Node>)
    requires forall i :: 0 <= i < |s| ==> FoldSafe(s[i])
    ensures |r| == |s|
    decreases SizeSeq(s), 1
  {
    if s == [] then [] else [Folded(s[0], book)] + FoldedSeq(s[1..], book)
  }

  lemma {:induction false} FoldedSeqAt(s: seq<Node>, book: string)
    requires forall i :: 0 <= i < |s| ==> FoldSafe(s[i])
    ensures forall i :: 0 <= i < |s| ==> FoldedSeq(s, book)[i] == Folded(s[i], book)
  {
    if s != [] {
      var r, t := FoldedSeq(s, book), FoldedSeq(s[1..], book);
      assert r == [Folded(s[0], book)] + t;
      FoldedSeqAt(s[1..], book);
      forall i | 0 <= i < |s|
        ensures r[i] == Folded(s[i], book)
      {
        if i > 0 {
          assert r[i] == t[i - 1] && s[1..][i - 1] == s[i];
        }
      }
    }
  }

  /** `section_pass(struct, book)`. The source fills the list of a section in place; the model
      returns the converted node. */
  method SectionPass(n: Node, book: string) returns (r: Node)
    requires FoldSafe(n)
    ensures r == Folded(n, book)
    decreases Size(n)
  {
    if n.Section? || n.Heading? {
      var items := if n.Heading? then n.details else if n.sections.Listed? then n.sections.items else [];
      var proc: seq<Node> := [];
      for i := 0 to |items|
        invariant |proc| == i
        invariant forall j :: 0 <= j < i ==> proc[j] == Folded(items[j], book)
      {
        SizeSeqElement(items, i);
        var p := SectionPass(items[i], book);
        proc := proc + [p];
      }
      FoldedSeqAt(items, book);
      assert proc == FoldedSeq(items, book);
      if n.Section? {
        r := n.(sections := Listed(proc));
      } else {
        var name := FilterName(n.name);
        r := Section(Some(name), book, None, if |proc| > 0 then Listed(proc) else Absent);
      }
    } else {
      r := n;
    }
  }

  /** No heading is left where the pass walked: the node and, below sections, every child.
      The details of stat blocks are not walked, and may hold headings. */
  predicate HeadingFree(n: Node) {
    match n
    case Heading(_, _, _) => false
    case Section(_, _, _, Listed(items)) => forall i :: 0 <= i < |items| ==> HeadingFree(items[i])
    case _ => true
  }

  lemma {:induction false} FoldedHeadingFree(n: Node, book: string)
    requires FoldSafe(n)
    ensures HeadingFree(Folded(n, book))
    decreases Size(n)
  {
    if n.Section? || n.Heading? {
      var items := if n.Heading? then n.details else if n.sections.Listed? then n.sections.items else [];
      var p := FoldedSeq(items, book);
      FoldedSeqAt(items, book);
      forall i | 0 <= i < |p|
        ensures HeadingFree(p[i])
      {
        SizeSeqElement(items, i);
        FoldedHeadingFree(items[i], book);
      }
    }
  }

  /** A stat block whose details hold a heading (as `subtitle_pass` leaves one after a bold
      lead inside a stat block) passes `section_pass` unchanged, heading included. */
  lemma HeadingInStatBlockStays(book: string)
    ensures var sb := StatBlock(false, "Goblin", [], [Heading(4, "Aura", [])], []);
      Folded(sb, book) == sb && HeadingFree(sb) && sb.details[0].Heading?
  {
  }

  // ----- section_text_pass -----------------------------------------------------------------

  /** A markup element or a text run: what `section_text_pass` collects as text (`Tag`,
      `NavigableString`, or a plain string, modelled as a text run). */
  predicate IsTextItem(n: Node) {
    n.Element? || n.TextRun?
  }

  /** The pass deletes the `sections` key of every section it visits when no children remain,
      which fails when the key is absent: every section it reaches must carry a list. */
  predicate TextSafe(n: Node) {
    match n
    case Section(_, _, _, Listed(items)) => forall i :: 0 <= i < |items| ==> (items[i].Section? ==> TextSafe(items[i]))
    case _ => false
  }

  predicate ItemsSafe(s: seq<Node>) {
    forall i :: 0 <= i < |s| ==> (s[i].Section? ==> TextSafe(s[i]))
  }

  /** Text runs for a list of strings, the children of an anonymous section. */
  function Runs(texts: seq<string>): (r: seq<Node>)
    ensures |r| == |texts|
    ensures forall i :: 0 <= i < |texts| ==> r[i] == TextRun(texts[i])
  {
    if texts == [] then [] else [TextRun(texts[0])] + Runs(texts[1..])
  }

  /** `unicode(item)` for each item. */
  function Texts(items: seq<Node>): (r: seq<string>)
    ensures |r| == |items|
  {
    if items == [] then [] else [Render(items[0])] + Texts(items[1..])
  }

  /** An anonymous child section holding the joined text of a run. */
  function Anon(book: string, texts: seq<string>): Node {
    Section(None, book, Some(Join(texts)), Absent)
  }

  /** The loop state of `section_text_pass`: the section's text (`struct['text']`, if set),
      the pending text list, whether a non-text item has been seen, and the new children. */
  datatype Scan = Scan(text: Option<string>, buffer: seq<string>, done: bool, out: seq<Node>)

  /** The section as the pass returns it: its own text from the scan and its children,
      absent when there are none. */
  function TextPass(n: Node, book: string): (r: Node)
    requires TextSafe(n)
    ensures r.Section? && r.title == n.title && r.book == n.book
    ensures r.sections.Listed? ==> r.sections.items != []
    decreases Size(n), 0
  {
    var st := Fold(Scan(n.text, [], false, []), n.sections.items, book);
    var (text, out) := Close(st, book);
    n.(text := text, sections := if |out| > 0 then Listed(out) else Absent)
  }

  /** A non-text item as it is placed among the children: a section is processed itself,
      headings and stat blocks (and table values, which reach this point as plain data) are
      kept as they are. */
  function Placed(item: Node, book: string): Node
    requires item.Section? ==> TextSafe(item)
    decreases Size(item), 1
  {
    if item.Section? then TextPass(item, book) else item
  }

  /** One iteration of the loop. */
  function Step(st: Scan, item: Node, book: string): (r: Scan)
    requires item.Section? ==> TextSafe(item)
    ensures IsTextItem(item) ==> r == st.(buffer := st.buffer + [Render(item)])
    ensures !IsTextItem(item) ==> r.done && r.buffer == [] && |r.out| == |st.out| + 1 + (if st.done && st.buffer != [] then 1 else 0)
    ensures st.done ==> r.done && r.text == st.text
    decreases Size(item), 2
  {
    if IsTextItem(item) then st.(buffer := st.buffer + [Render(item)])
    else
      var cleared :=
        if !st.done then Scan(if |st.buffer| > 0 then Some(Join(st.buffer)) else st.text, [], true, st.out)
        else Scan(st.text, [], true, st.out + (if |st.buffer| > 0 then [Anon(book, st.buffer)] else []));
      cleared.(out := cleared.out + [Placed(item, book)])
  }

  function Fold(st: Scan, items: seq<Node>, book: string): (r: Scan)
    requires ItemsSafe(items)
    ensures |r.out| >= |st.out|
    ensures st.done ==> r.done && r.text == st.text
    decreases SizeSeq(items), 3
  {
    if items == [] then st else Fold(Step(st, items[0], book), items[1..], book)
  }

  /** After the loop: pending text becomes an anonymous child when the section already has
      text, and its own text otherwise. */
  function Close(st: Scan, book: string): (r: (Option<string>, seq<Node>))
    ensures |st.buffer| == 0 ==> r == (st.text, st.out)
    ensures |st.buffer| > 0 && st.text.Some? ==> r == (st.text, st.out + [Anon(book, st.buffer)])
    ensures |st.buffer| > 0 && st.text.None? ==> r == (Some(Join(st.buffer)), st.out)
  {
    if |st.buffer| == 0 then (st.text, st.out)
    else if st.text.Some? then (st.text, st.out + [Anon(book, st.buffer)])
    else (Some(Join(st.buffer)), st.out)
  }

  lemma RunsSize(texts: seq<string>)
    ensures SizeSeq(Runs(texts)) == |texts|
  {
    if texts != [] {
      assert Runs(texts)[1..] == Runs(texts[1..]);
      RunsSize(texts[1..]);
    }
  }

  /** `section_text_pass(struct, book)`. The source updates the dictionary in place; the model
      returns the section as it is afterwards. */
  method SectionTextPass(n: Node, book: string) returns (r: Node)
    requires TextSafe(n)
    ensures r == TextPass(n, book)
    decreases Size(n), if n.text.Some? then 1 else 0
  {
    var items := n.sections.items;
    var text := n.text;
    var buffer: seq<string> := [];
    var done := false;
    var out: seq<Node> := [];
    ghost var rest := items;
    for i := 0 to |items|
      invariant rest == items[i..]
      invariant Fold(Scan(text, buffer, done, out), rest, book) == Fold(Scan(n.text, [], false, []), items, book)
      invariant |buffer| + (if done then 1 else 0) + SizeSeq(rest) <= SizeSeq(items)
      invariant !done ==> text == n.text
    {
      var item := items[i];
      ghost var before := Scan(text, buffer, done, out);
      assert rest[0] == item && rest[1..] == items[i + 1..];
      assert SizeSeq(rest) == Size(item) + SizeSeq(rest[1..]);
      if IsTextItem(item) {
        buffer := buffer + [Render(item)];
      } else {
        if !done {
          done := true;
          if |buffer| > 0 {
            text := Some(Join(buffer));
          }
          buffer := [];
        } else {
          if |buffer| > 0 {
            AnonSection(book, buffer);
            RunsSize(buffer);
            var child := SectionTextPass(Section(None, book, None, Listed(Runs(buffer))), book);
            out := out + [child];
          }
          buffer := [];
        }
        if item.Section? {
          SizeSeqElement(items, i);
          var child := SectionTextPass(item, book);
          out := out + [child];
        } else {
          out := out + [item];
        }
      }
      assert Step(before, item, book) == Scan(text, buffer, done, out);
      rest := rest[1..];
    }
    if |buffer| > 0 {
      if text.Some? {
        AnonSection(book, buffer);
        RunsSize(buffer);
        var child := SectionTextPass(Section(None, book, None, Listed(Runs(buffer))), book);
        out := out + [child];
      } else {
        text := Some(Join(buffer));
      }
    }
    r := n.(text := text, sections := if |out| > 0 then Listed(out) else Absent);
  }

  // ----- Properties of section_text_pass ---------------------------------------------------

  lemma {:induction false} FoldAppend(st: Scan, a: seq<Node>, b: seq<Node>, book: string)
    requires ItemsSafe(a) && ItemsSafe(b)
    ensures ItemsSafe(a + b)
    ensures Fold(st, a + b, book) == Fold(Fold(st, a, book), b, book)
    decreases |a|
  {
    if a == [] {
      assert a + b == b;
    } else {
      assert (a + b)[0] == a[0] && (a + b)[1..] == a[1..] + b;
      FoldAppend(Step(st, a[0], book), a[1..], b, book);
    }
  }

  /** Text items only extend the pending text list. */
  lemma {:induction false} FoldTexts(st: Scan, items: seq<Node>, book: string)
    requires forall i :: 0 <= i < |items| ==> IsTextItem(items[i])
    ensures ItemsSafe(items)
    ensures Fold(st, items, book) == st.(buffer := st.buffer + Texts(items))
    decreases |items|
  {
    if items != [] {
      var next := st.(buffer := st.buffer + [Render(items[0])]);
      FoldTexts(next, items[1..], book);
      assert st.buffer + Texts(items) == next.buffer + Texts(items[1..]);
    }
  }

  /** A new section made of a non-empty run of strings comes back with the joined strings as
      its own text and no children. */
  lemma AnonSection(book: string, texts: seq<string>)
    requires texts != []
    ensures TextSafe(Section(None, book, None, Listed(Runs(texts))))
    ensures TextPass(Section(None, book, None, Listed(Runs(texts))), book) == Anon(book, texts)
  {
    var runs := Runs(texts);
    var st0 := Scan(None, [], false, []);
    FoldTexts(st0, runs, book);
    RunsTexts(texts);
    assert st0.buffer + Texts(runs) == texts;
    assert Fold(st0, runs, book) == Scan(None, texts, false, []);
  }

  lemma RunsTexts(texts: seq<string>)
    ensures Texts(Runs(texts)) == texts
  {
    if texts != [] {
      assert Runs(texts)[1..] == Runs(texts[1..]);
      RunsTexts(texts[1..]);
    }
  }

  /** Before the first non-text item: the text gathered so far becomes the section's own text
      (replacing any it had) when there is some, and the item is placed as the first child. */
  lemma FoldLead(st: Scan, lead: seq<Node>, x: Node, rest: seq<Node>, book: string)
    requires !st.done
    requires forall i :: 0 <= i < |lead| ==> IsTextItem(lead[i])
    requires !IsTextItem(x) && (x.Section? ==> TextSafe(x)) && ItemsSafe(rest)
    ensures ItemsSafe(lead + [x] + rest)
    ensures var buf := st.buffer + Texts(lead);
      Fold(st, lead + [x] + rest, book)
      == Fold(Scan(if buf != [] then Some(Join(buf)) else st.text, [], true, st.out + [Placed(x, book)]), rest, book)
  {
    var tail := [x] + rest;
    assert lead + [x] + rest == lead + tail;
    FoldTexts(st, lead, book);
    assert tail[0] == x && tail[1..] == rest;
    FoldAppend(st, lead, tail, book);
  }

  /** After the first non-text item: a run of text followed by a non-text item becomes one
      anonymous child placed just before that item's own entry. */
  lemma FoldRun(st: Scan, run: seq<Node>, x: Node, rest: seq<Node>, book: string)
    requires st.done
    requires forall i :: 0 <= i < |run| ==> IsTextItem(run[i])
    requires !IsTextItem(x) && (x.Section? ==> TextSafe(x)) && ItemsSafe(rest)
    ensures ItemsSafe(run + [x] + rest)
    ensures var buf := st.buffer + Texts(run);
      Fold(st, run + [x] + rest, book)
      == Fold(Scan(st.text, [], true, st.out + (if buf != [] then [Anon(book, buf)] else []) + [Placed(x, book)]), rest, book)
  {
    var tail := [x] + rest;
    assert run + [x] + rest == run + tail;
    FoldTexts(st, run, book);
    assert tail[0] == x && tail[1..] == rest;
    FoldAppend(st, run, tail, book);
  }

  /** Text before the first non-text item becomes the section's own text. */
  lemma LeadingTextIsOwn(n: Node, book: string, k: nat)
    requires TextSafe(n) && 0 < k < |n.sections.items|
    requires forall i :: 0 <= i < k ==> IsTextItem(n.sections.items[i])
    requires !IsTextItem(n.sections.items[k])
    ensures TextPass(n, book).text == Some(Join(Texts(n.sections.items[..k])))
  {
    var items := n.sections.items;
    var lead, x, rest := items[..k], items[k], items[k + 1..];
    assert items == lead + [x] + rest;
    var st0 := Scan(n.text, [], false, []);
    FoldLead(st0, lead, x, rest, book);
    assert st0.buffer + Texts(lead) == Texts(lead) != [];
  }

  /** Some non-text item means a non-empty child list. */
  lemma {:induction false} FoldOutGrows(st: Scan, items: seq<Node>, book: string, k: nat)
    requires ItemsSafe(items) && k < |items| && !IsTextItem(items[k])
    ensures |Fold(st, items, book).out| > 0
    decreases k
  {
    if k > 0 {
      FoldOutGrows(Step(st, items[0], book), items[1..], book, k - 1);
    }
  }

  /** The `sections` entry disappears exactly when every item was text and that text became
      the section's own (there was no text before, or there was no item at all). */
  lemma SectionsDropped(n: Node, book: string)
    requires TextSafe(n)
    ensures TextPass(n, book).sections.Absent? <==>
      (forall i :: 0 <= i < |n.sections.items| ==> IsTextItem(n.sections.items[i]))
      && (n.sections.items == [] || n.text.None?)
  {
    var items := n.sections.items;
    var st0 := Scan(n.text, [], false, []);
    if k :| 0 <= k < |items| && !IsTextItem(items[k]) {
      FoldOutGrows(st0, items, book, k);
    } else {
      FoldTexts(st0, items, book);
    }
  }

  /** No heading appears in a section the pass returns when none was there before: the pass
      only adds anonymous sections and processes child sections. */
  lemma {:induction false} TextPassHeadingFree(n: Node, book: string)
    requires TextSafe(n) && HeadingFree(n)
    ensures HeadingFree(TextPass(n, book))
    decreases Size(n), 1
  {
    var items := n.sections.items;
    var st := Fold(Scan(n.text, [], false, []), items, book);
    FoldHeadingFree(Scan(n.text, [], false, []), items, book);
    var (text, out) := Close(st, book);
    assert forall i :: 0 <= i < |out| ==> HeadingFree(out[i]);
  }

  lemma {:induction false} FoldHeadingFree(st: Scan, items: seq<Node>, book: string)
    requires ItemsSafe(items)
    requires forall i :: 0 <= i < |items| ==> HeadingFree(items[i])
    requires forall i :: 0 <= i < |st.out| ==> HeadingFree(st.out[i])
    ensures forall i :: 0 <= i < |Fold(st, items, book).out| ==> HeadingFree(Fold(st, items, book).out[i])
    decreases SizeSeq(items), 2
  {
    if items != [] {
      var x := items[0];
      if x.Section? {
        TextPassHeadingFree(x, book);
      }
      var next := Step(st, x, book);
      if !IsTextItem(x) {
        var added := if st.done && st.buffer != [] then [Anon(book, st.buffer)] else [];
        assert next.out == st.out + added + [Placed(x, book)];
        assert HeadingFree(Placed(x, book));
        assert forall i :: 0 <= i < |added| ==> HeadingFree(added[i]);
      }
      assert forall i :: 0 <= i < |next.out| ==> HeadingFree(next.out[i]);
      FoldHeadingFree(next, items[1..], book);
    }
  }
}
