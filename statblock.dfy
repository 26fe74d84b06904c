/** The stat-block extractor: a stat block absorbs the nodes up to the next heading, its
    interior is split at "breaker" paragraphs into sub-regions, and a line-oriented state
    machine turns the leading key lines into ordered key/value pairs. */
module StatBlocks {
  import opened Text
  import opened Nodes

  // ---------------------------------------------------------------------------------------
  // store_key: value normalisation

  /** The stored value: the fragments joined and trimmed, one trailing `;` or `,` dropped,
      trimmed again. */
  function Normalised(parts: seq<string>): (v: string)
    ensures IsTrimmed(v)
  {
    var p := Strip(Join(parts));
    if EndsWith(p, ";") || EndsWith(p, ",") then Strip(p[..|p| - 1]) else p
  }

  /** The pair `store_key` appends: trimmed key, normalised value. */
  function StoredPair(key: string, parts: seq<string>): (kv: KeyValue)
    ensures IsTrimmed(kv.key) && IsTrimmed(kv.value)
  {
    KeyValue(Strip(key), Normalised(parts))
  }

  /** A value followed by one `;` or `,` is stored without it: "foo;" and "foo," are both
      stored as "foo". */
  lemma NormalisedDropsSeparator(v: string, sep: char)
    requires IsTrimmed(v) && (sep == ';' || sep == ',')
    ensures Normalised([v + [sep]]) == v
  {
    var p := v + [sep];
    JoinOne(p);
    assert IsTrimmed(p);
    StripTrimmed(p);
    assert p[..|p| - 1] == v;
    StripTrimmed(v);
  }

  /** Whitespace around the value and around the separator is dropped as well:
      [" foo ", "; "] is stored as "foo". */
  lemma NormalisedSpaced(v: string, sep: char)
    requires IsTrimmed(v) && v != [] && (sep == ';' || sep == ',')
    ensures Normalised([" " + v + " ", [sep, ' ']]) == v
  {
    JoinTwo(" " + v + " ", [sep, ' ']);
    StripSpacedSeparator(v, sep);
    var u := v + " " + [sep];
    assert EndsWith(u, ";") || EndsWith(u, ",") by {
      assert u[|u| - 1..] == [sep];
    }
    assert u[..|u| - 1] == v + " ";
    StripTrailingSpace(v);
    StripTrimmed(v);
  }

  /** The outer spaces of a spaced value and separator go; the inner one stays. */
  lemma StripSpacedSeparator(v: string, sep: char)
    requires IsTrimmed(v) && v != [] && (sep == ';' || sep == ',')
    ensures Strip((" " + v + " ") + [sep, ' ']) == v + " " + [sep]
  {
    var u := v + " " + [sep];
    assert (" " + v + " ") + [sep, ' '] == " " + (u + " ");
    StripLeadingSpace(u + " ");
    StripTrailingSpace(u);
    assert IsTrimmed(u);
    StripTrimmed(u);
  }

  /** Only one trailing separator is dropped: "foo;;" is stored as "foo;". */
  lemma NormalisedDropsOneSeparator(v: string, sep: char)
    requires IsTrimmed(v) && (sep == ';' || sep == ',')
    ensures Normalised([v + [sep, sep]]) == v + [sep]
  {
    assert IsTrimmed(v + [sep]);
    assert v + [sep, sep] == (v + [sep]) + [sep];
    NormalisedDropsSeparator(v + [sep], sep);
  }

  /** A trimmed value that does not end in `;` or `,` is stored unchanged. */
  lemma NormalisedStable(v: string)
    requires IsTrimmed(v) && !EndsWith(v, ";") && !EndsWith(v, ",")
    ensures Normalised([v]) == v
  {
    JoinOne(v);
    StripTrimmed(v);
  }

  // ---------------------------------------------------------------------------------------
  // Line shapes inside a stat block

  /** A `p` element whose class attribute contains `marker`. */
  predicate ClassHas(n: Node, marker: string) {
    IsElement(n, "p") && Contains(Attr(n.attrs, "class"), marker)
  }

  /** A key line (`stat-block-1`). */
  predicate IsKeyLine(n: Node) {
    ClassHas(n, "stat-block-1")
  }

  /** A continuation line (`stat-block-2`), appended verbatim to the pending value. */
  predicate IsContinuationLine(n: Node) {
    ClassHas(n, "stat-block-2")
  }

  /** A dedicated experience line (`stat-block-xp`). */
  predicate IsXpLine(n: Node) {
    ClassHas(n, "stat-block-xp")
  }

  /** What the first key pass consumes while it is still at the top of the block. */
  predicate IsMarkedLine(n: Node) {
    IsKeyLine(n) || IsContinuationLine(n) || IsXpLine(n)
  }

  /** A paragraph whose first child is bold: the fallback key line. */
  predicate IsBoldLine(n: Node) {
    IsElement(n, "p") && |n.children| > 0 && IsElement(n.children[0], "b")
  }

  /** A paragraph whose class is exactly `stat-block-breaker`. */
  predicate IsBreaker(n: Node) {
    IsElement(n, "p") && Attr(n.attrs, "class") == "stat-block-breaker"
  }

  /** `text.replace('XP', '').strip()`. */
  function XpValue(s: string): string {
    Strip(ReplaceAll(s, "XP", ""))
  }

  // ---------------------------------------------------------------------------------------
  // stat_block_key_inner_parse: one key line, child by child

  /** The state threaded through one line: stored pairs, pending key ("" for none), pending
      value fragments, and whether a bold child was seen. */
  datatype LineState = LineState(keys: seq<KeyValue>, key: string, text: seq<string>, stored: bool)

  /** What a bold child flushes: the pending key with its value, or else the pending text as
      descriptor(s); exactly two pending fragments are stored as two descriptors. */
  function Flush(keys: seq<KeyValue>, key: string, text: seq<string>): seq<KeyValue> {
    if key != "" then keys + [StoredPair(key, text)]
    else if |text| == 2 then keys + [StoredPair("descriptor", [text[0]]), StoredPair("descriptor", [text[1]])]
    else if |text| > 0 then keys + [StoredPair("descriptor", text)]
    else keys
  }

  /** One child: a bold child flushes and becomes the pending key, any other child adds its
      text to the pending value. */
  function InnerStep(st: LineState, e: Node): LineState {
    if IsElement(e, "b") then LineState(Flush(st.keys, st.key, st.text), GetText(e), [], true)
    else st.(text := st.text + [GetText(e)])
  }

  /** The children of a line read left to right. */
  function InnerFold(st: LineState, children: seq<Node>): LineState {
    if children == [] then st
    else InnerStep(InnerFold(st, children[..|children| - 1]), children[|children| - 1])
  }

  /** The whole line: the children in order, then the descriptor fallback for a line without
      a bold child while at most one pair is stored. */
  function InnerLine(keys: seq<KeyValue>, children: seq<Node>, key: string, text: seq<string>): LineState {
    var st := InnerFold(LineState(keys, key, text, false), children);
    if |st.keys| <= 1 && !st.stored then LineState(st.keys + [StoredPair("descriptor", st.text)], st.key, [], st.stored)
    else st
  }

  lemma {:induction false} InnerFoldAppend(st: LineState, a: seq<Node>, b: seq<Node>)
    ensures InnerFold(st, a + b) == InnerFold(InnerFold(st, a), b)
    decreases |b|
  {
    if b == [] {
      assert a + b == a;
    } else {
      assert (a + b)[..|a + b| - 1] == a + b[..|b| - 1];
      InnerFoldAppend(st, a, b[..|b| - 1]);
    }
  }

  /** The texts of a line's children. */
  function ChildTexts(children: seq<Node>): (r: seq<string>)
    ensures |r| == |children|
  {
    if children == [] then [] else ChildTexts(children[..|children| - 1]) + [GetText(children[|children| - 1])]
  }

  predicate NoBold(children: seq<Node>) {
    forall i :: 0 <= i < |children| ==> !IsElement(children[i], "b")
  }

  lemma {:induction false} InnerFoldNoBold(st: LineState, children: seq<Node>)
    requires NoBold(children)
    ensures InnerFold(st, children) == st.(text := st.text + ChildTexts(children))
  {
    if children == [] {
      assert st.text + [] == st.text;
    } else {
      var init := children[..|children| - 1];
      assert NoBold(init) by {
        forall i | 0 <= i < |init| ensures !IsElement(init[i], "b") {
          assert init[i] == children[i];
        }
      }
      InnerFoldNoBold(st, init);
      assert st.text + ChildTexts(init) + [GetText(children[|children| - 1])] == st.text + ChildTexts(children);
    }
  }

  /** A line without a bold child: with at most one stored pair its whole text (pending
      fragments first) is stored as a descriptor; otherwise it only extends the pending value. */
  lemma InnerLineNoBold(keys: seq<KeyValue>, children: seq<Node>, key: string, text: seq<string>)
    requires NoBold(children)
    ensures var l := InnerLine(keys, children, key, text);
      l.key == key &&
      (|keys| <= 1 ==> l.keys == keys + [StoredPair("descriptor", text + ChildTexts(children))] && l.text == []) &&
      (|keys| > 1 ==> l.keys == keys && l.text == text + ChildTexts(children))
  {
    InnerFoldNoBold(LineState(keys, key, text, false), children);
  }

  /** Pairs are only ever appended. */
  lemma {:induction false} InnerFoldKeysGrow(st: LineState, children: seq<Node>)
    ensures |InnerFold(st, children).keys| >= |st.keys|
    ensures InnerFold(st, children).keys[..|st.keys|] == st.keys
  {
    if children != [] {
      var mid := InnerFold(st, children[..|children| - 1]);
      InnerFoldKeysGrow(st, children[..|children| - 1]);
      var last := InnerStep(mid, children[|children| - 1]);
      assert |last.keys| >= |mid.keys| && last.keys[..|mid.keys|] == mid.keys;
      assert last.keys[..|mid.keys|][..|st.keys|] == last.keys[..|st.keys|];
    }
  }

  /** A bold child that opens a line flushes the pending key with the pending value before
      anything else is stored. */
  lemma InnerLineFlushesPendingKey(keys: seq<KeyValue>, children: seq<Node>, key: string, text: seq<string>)
    requires |children| > 0 && IsElement(children[0], "b") && key != ""
    ensures var l := InnerLine(keys, children, key, text);
      |l.keys| > |keys| && l.keys[..|keys| + 1] == keys + [StoredPair(key, text)]
  {
    var st := LineState(keys, key, text, false);
    assert children == [children[0]] + children[1..];
    InnerFoldAppend(st, [children[0]], children[1..]);
    assert [children[0]][..0] == [];
    var first := InnerFold(st, [children[0]]);
    assert first.keys == keys + [StoredPair(key, text)] && first.stored;
    InnerFoldKeysGrow(first, children[1..]);
  }

  lemma InnerLineKeysGrow(keys: seq<KeyValue>, children: seq<Node>, key: string, text: seq<string>)
    ensures |InnerLine(keys, children, key, text).keys| >= |keys|
    ensures InnerLine(keys, children, key, text).keys[..|keys|] == keys
  {
    var st := InnerFold(LineState(keys, key, text, false), children);
    InnerFoldKeysGrow(LineState(keys, key, text, false), children);
    assert (st.keys + [StoredPair("descriptor", st.text)])[..|keys|] == st.keys[..|keys|];
  }

  // ---------------------------------------------------------------------------------------
  // stat_block_key_first_pass and stat_block_key_second_pass
  //
  // Both passes decide line by line whether a node is consumed as a key line or stays in the
  // block's details; the pairs come from reading the consumed lines in order.

  /** A consumed line, as the pair reader sees it. */
  datatype LineEvent =
      /** A `stat-block-1` line (first pass). */
    | KeyLineRead(children: seq<Node>)
      /** A `stat-block-2` line, read by its markup. */
    | ContinuationRead(line: Node)
      /** A `stat-block-xp` line, read by its text. */
    | XpRead(line: Node)
      /** A bold-first paragraph (fallback pass). */
    | BoldLineRead(children: seq<Node>)

  /** The pair reader's state: stored pairs, pending key ("" for none), pending value. */
  datatype Pending = Pending(keys: seq<KeyValue>, key: string, text: seq<string>)

  /** A pending key of the form "XP ..." left by the previous key line. */
  predicate PendingXp(key: string) {
    key != "" && StartsWith(key, "XP ")
  }

  /** Reading one consumed line. A key line first stores a pending "XP ..." key as the pair
      ("XP", its remainder); an experience line stores its own remainder under "XP". */
  function ReadLine(p: Pending, e: LineEvent): Pending {
    match e
    case KeyLineRead(children) =>
      var keys := if PendingXp(p.key) then p.keys + [StoredPair("XP", [XpValue(p.key)])] else p.keys;
      var key := if PendingXp(p.key) then "" else p.key;
      var l := InnerLine(keys, children, key, p.text);
      Pending(l.keys, l.key, l.text)
    case ContinuationRead(line) => p.(text := p.text + [Render(line)])
    case XpRead(line) => p.(keys := p.keys + [StoredPair("XP", [XpValue(GetText(line))])])
    case BoldLineRead(children) =>
      var l := InnerLine(p.keys, children, p.key, p.text);
      Pending(l.keys, l.key, l.text)
  }

  function Replay(p: Pending, events: seq<LineEvent>): Pending {
    if events == [] then p else ReadLine(Replay(p, events[..|events| - 1]), events[|events| - 1])
  }

  /** The line-by-line state of both passes: the lines consumed so far, the nodes kept in
      `details`, whether the scan is still at the top of the block, and whether a key line
      has been seen. */
  datatype ScanState = ScanState(events: seq<LineEvent>, kept: seq<Node>, top: bool, started: bool)

  const ScanStart := ScanState([], [], true, false)

  function FirstStep(st: ScanState, d: Node): ScanState {
    if IsKeyLine(d) && st.top then st.(events := st.events + [KeyLineRead(d.children)], started := true)
    else if IsContinuationLine(d) && st.top then st.(events := st.events + [ContinuationRead(d)])
    else if IsXpLine(d) && st.top then st.(events := st.events + [XpRead(d)])
    else st.(kept := st.kept + [d], top := st.top && !st.started)
  }

  function FirstRun(st: ScanState, ds: seq<Node>): ScanState
    decreases |ds|
  {
    if ds == [] then st else FirstRun(FirstStep(st, ds[0]), ds[1..])
  }

  function SecondStep(st: ScanState, d: Node): ScanState {
    if IsBoldLine(d) && st.top then st.(events := st.events + [BoldLineRead(d.children)], started := true)
    else st.(kept := st.kept + [d], top := st.top && !st.started)
  }

  function SecondRun(st: ScanState, ds: seq<Node>): ScanState
    decreases |ds|
  {
    if ds == [] then st else SecondRun(SecondStep(st, ds[0]), ds[1..])
  }

  /** The fallback pass over a stat block: bold-first paragraphs at the top become pairs, and
      the last pending key is stored at the end. */
  function KeySecond(sb: Node): (r: Node)
    requires sb.StatBlock?
    ensures r.StatBlock?
  {
    var st := SecondRun(ScanStart, sb.details);
    var p := Replay(Pending(sb.keys, "", []), st.events);
    sb.(keys := if st.started then p.keys + [StoredPair(p.key, p.text)] else p.keys, details := st.kept)
  }

  /** The style-marker pass over a stat block: the last pending key (or "descriptor") is
      stored at the end; when no key line was seen, the pending text is dropped and the
      fallback pass runs on what was kept. */
  function KeyFirst(sb: Node): (r: Node)
    requires sb.StatBlock?
    ensures r.StatBlock?
  {
    var st := FirstRun(ScanStart, sb.details);
    var p := Replay(Pending(sb.keys, "", []), st.events);
    if st.started then
      sb.(keys := p.keys + [StoredPair(if p.key == "" then "descriptor" else p.key, p.text)], details := st.kept)
    else KeySecond(sb.(keys := p.keys, details := st.kept))
  }

  /** The first pass starts (and so the fallback pass is skipped) exactly when the block holds
      a key line. */
  lemma {:induction false} FirstRunStarted(st: ScanState, ds: seq<Node>)
    requires st.top || st.started
    ensures FirstRun(st, ds).started <==> st.started || exists i :: 0 <= i < |ds| && IsKeyLine(ds[i])
    decreases |ds|
  {
    if ds != [] {
      FirstRunStarted(FirstStep(st, ds[0]), ds[1..]);
      forall i | 0 <= i < |ds[1..]| && IsKeyLine(ds[1..][i])
        ensures exists j :: 0 <= j < |ds| && IsKeyLine(ds[j])
      {
        assert ds[i + 1] == ds[1..][i];
      }
      if exists i :: 0 <= i < |ds| && IsKeyLine(ds[i]) {
        var i :| 0 <= i < |ds| && IsKeyLine(ds[i]);
        if i > 0 {
          assert IsKeyLine(ds[1..][i - 1]);
        }
      }
    }
  }

  lemma FirstPassStartsIffKeyLine(ds: seq<Node>)
    ensures FirstRun(ScanStart, ds).started <==> exists i :: 0 <= i < |ds| && IsKeyLine(ds[i])
  {
    FirstRunStarted(ScanStart, ds);
  }

  /** Where the first pass stops consuming: after the first key line, at the first node that
      is not a marked line; without a key line, never. */
  function FirstCut(ds: seq<Node>, started: bool): (c: nat)
    ensures c <= |ds|
  {
    if ds == [] then 0
    else if IsMarkedLine(ds[0]) then 1 + FirstCut(ds[1..], started || IsKeyLine(ds[0]))
    else if started then 0
    else 1 + FirstCut(ds[1..], started)
  }

  /** Cutting after the head of a sequence. */
  lemma SliceCons<T>(ds: seq<T>, c: nat)
    requires 1 <= c <= |ds|
    ensures ds[..c] == [ds[0]] + ds[1..][..c - 1] && ds[c..] == ds[1..][c - 1..]
  {
  }

  /** Nodes the pass leaves in `details`. */
  function Unmarked(ds: seq<Node>): (r: seq<Node>)
    ensures |r| <= |ds|
  {
    if ds == [] then [] else (if IsMarkedLine(ds[0]) then [] else [ds[0]]) + Unmarked(ds[1..])
  }

  /** The nodes the first pass keeps from `ds` while still at the top. */
  function TopKept(ds: seq<Node>, started: bool): seq<Node> {
    if ds == [] then []
    else if IsMarkedLine(ds[0]) then TopKept(ds[1..], started || IsKeyLine(ds[0]))
    else if started then ds
    else [ds[0]] + TopKept(ds[1..], started)
  }

  lemma {:induction false} FirstRunTopKept(st: ScanState, ds: seq<Node>)
    requires st.top
    ensures FirstRun(st, ds).kept == st.kept + TopKept(ds, st.started)
    decreases |ds|
  {
    if ds == [] {
    } else if IsMarkedLine(ds[0]) {
      FirstRunTopKept(FirstStep(st, ds[0]), ds[1..]);
    } else if st.started {
      FirstRunUnstoppedKept(FirstStep(st, ds[0]), ds[1..]);
      assert st.kept + [ds[0]] + ds[1..] == st.kept + ds;
    } else {
      FirstRunTopKept(FirstStep(st, ds[0]), ds[1..]);
      assert st.kept + [ds[0]] + TopKept(ds[1..], false) == st.kept + ([ds[0]] + TopKept(ds[1..], false));
    }
  }

  lemma {:induction false} TopKeptCut(ds: seq<Node>, started: bool)
    ensures TopKept(ds, started) == Unmarked(ds[..FirstCut(ds, started)]) + ds[FirstCut(ds, started)..]
    decreases |ds|
  {
    if ds != [] {
      var c := FirstCut(ds, started);
      if IsMarkedLine(ds[0]) || !started {
        var started' := started || IsKeyLine(ds[0]);
        TopKeptCut(ds[1..], started');
        SliceCons(ds, c);
        assert Unmarked(ds[..c]) == (if IsMarkedLine(ds[0]) then [] else [ds[0]]) + Unmarked(ds[1..][..c - 1]);
        assert TopKept(ds, started) == (if IsMarkedLine(ds[0]) then [] else [ds[0]]) + TopKept(ds[1..], started');
      } else {
        assert ds[..c] == [];
      }
    }
  }

  /** Once the scan has left the top, every further node is kept. */
  lemma {:induction false} FirstRunUnstoppedKept(st: ScanState, ds: seq<Node>)
    requires !st.top
    ensures FirstRun(st, ds).kept == st.kept + ds
    decreases |ds|
  {
    if ds != [] {
      FirstRunUnstoppedKept(FirstStep(st, ds[0]), ds[1..]);
      assert st.kept + [ds[0]] + ds[1..] == st.kept + ds;
    }
  }

  /** The first pass keeps, in their original order, every node before its cut that is not a
      marked line and every node from the cut on. */
  lemma FirstPassKeepsOrder(ds: seq<Node>)
    ensures var c := FirstCut(ds, false);
      FirstRun(ScanStart, ds).kept == Unmarked(ds[..c]) + ds[c..]
  {
    FirstRunTopKept(ScanStart, ds);
    TopKeptCut(ds, false);
  }

  /** Where the fallback pass stops consuming: after the first bold-first paragraph, at the
      first node that is not one. */
  function SecondCut(ds: seq<Node>, started: bool): (c: nat)
    ensures c <= |ds|
  {
    if ds == [] then 0
    else if IsBoldLine(ds[0]) then 1 + SecondCut(ds[1..], true)
    else if started then 0
    else 1 + SecondCut(ds[1..], started)
  }

  function NotBoldLines(ds: seq<Node>): (r: seq<Node>)
    ensures |r| <= |ds|
  {
    if ds == [] then [] else (if IsBoldLine(ds[0]) then [] else [ds[0]]) + NotBoldLines(ds[1..])
  }

  lemma {:induction false} SecondRunKept(st: ScanState, ds: seq<Node>)
    requires st.top
    ensures SecondRun(st, ds).kept ==
            st.kept + NotBoldLines(ds[..SecondCut(ds, st.started)]) + ds[SecondCut(ds, st.started)..]
    decreases |ds|
  {
    if ds == [] {
      assert st.kept + [] + [] == st.kept;
    } else {
      var next := SecondStep(st, ds[0]);
      if IsBoldLine(ds[0]) || !st.started {
        var c' := SecondCut(ds[1..], next.started);
        assert SecondCut(ds, st.started) == c' + 1;
        var head := if IsBoldLine(ds[0]) then [] else [ds[0]];
        assert next.kept == st.kept + head && next.top;
        SecondRunKept(next, ds[1..]);
        NotBoldLinesCons(ds, c' + 1);
        Regroup(st.kept, head, NotBoldLines(ds[1..][..c']));
      } else {
        SecondRunUnstoppedKept(next, ds[1..]);
        assert [ds[0]] + ds[1..] == ds;
      }
    }
  }

  /** Cutting after the head of a sequence, for the fallback pass. */
  lemma NotBoldLinesCons(ds: seq<Node>, c: nat)
    requires 1 <= c <= |ds|
    ensures NotBoldLines(ds[..c]) == (if IsBoldLine(ds[0]) then [] else [ds[0]]) + NotBoldLines(ds[1..][..c - 1])
    ensures ds[c..] == ds[1..][c - 1..]
  {
    assert ds[..c][1..] == ds[1..][..c - 1];
  }

  lemma {:induction false} SecondRunUnstoppedKept(st: ScanState, ds: seq<Node>)
    requires !st.top
    ensures SecondRun(st, ds).kept == st.kept + ds
    decreases |ds|
  {
    if ds != [] {
      SecondRunUnstoppedKept(SecondStep(st, ds[0]), ds[1..]);
      assert st.kept + [ds[0]] + ds[1..] == st.kept + ds;
    }
  }

  /** The fallback pass removes only bold-first paragraphs before its cut; everything else
      stays in `details` in its original order. */
  lemma SecondPassKeepsOrder(sb: Node)
    requires sb.StatBlock?
    ensures var c := SecondCut(sb.details, false);
      KeySecond(sb).details == NotBoldLines(sb.details[..c]) + sb.details[c..]
  {
    SecondRunKept(ScanStart, sb.details);
  }

  // ---------------------------------------------------------------------------------------
  // stat_block_internals_first_pass

  /** A breaker paragraph becomes a stat-block section named by its text. */
  function BreakerNode(d: Node): (r: Node)
    ensures Size(r) == Size(d)
  {
    if IsBreaker(d) then StatBlock(true, Strip(GetText(d)), [], [], [d]) else d
  }

  function Breakers(s: seq<Node>): (r: seq<Node>)
    ensures |r| == |s| && SizeSeq(r) == SizeSeq(s)
    ensures forall i :: 0 <= i < |s| ==> r[i] == BreakerNode(s[i])
  {
    if s == [] then []
    else
      var r := [BreakerNode(s[0])] + Breakers(s[1..]);
      assert r[1..] == Breakers(s[1..]);
      r
  }

  // ---------------------------------------------------------------------------------------
  // stat_block_collapse_pass and stat_block_preparse

  /** The number of leading nodes that are not headings of any kind: the scope of a stat
      block that precedes them. */
  function PlainRun(t: seq<Node>): (k: nat)
    ensures k <= |t|
    ensures forall j :: 0 <= j < k ==> !IsHeadingLike(t[j])
    ensures k < |t| ==> IsHeadingLike(t[k])
  {
    if t == [] || IsHeadingLike(t[0]) then 0
    else
      var k := 1 + PlainRun(t[1..]);
      assert forall j :: 1 <= j < k ==> t[j] == t[1..][j - 1];
      k
  }

  /** A heading or stat block with `seg` appended to its details. */
  function Absorb(h: Node, seg: seq<Node>): (r: Node)
    requires h.Heading? || h.StatBlock?
    ensures r.Heading? == h.Heading? && r.StatBlock? == h.StatBlock?
  {
    h.(details := h.details + seg)
  }

  lemma SizeOfScope(s: seq<Node>, k: nat)
    requires 0 < |s| && s[0].StatBlock? && k + 1 <= |s|
    ensures SizeSeq(Absorb(s[0], s[1..k + 1]).details) + SizeSeq(s[k + 1..]) < SizeSeq(s)
  {
    assert s[1..] == s[1..k + 1] + s[k + 1..];
    SizeSeqAppend(s[1..k + 1], s[k + 1..]);
    SizeSeqAppend(s[0].details, s[1..k + 1]);
  }

  /** What preparsing a stat block yields: its interior split at breakers, each sub-region
      preparsed, and the key lines turned into pairs; the interior is added to the provenance
      list. */
  function Preparsed(sb: Node): (r: Node)
    requires sb.StatBlock?
    ensures r.StatBlock?
    decreases SizeSeq(sb.details), 1
  {
    KeyFirst(sb.(details := Scopes(Breakers(sb.details)), html := sb.html + sb.details))
  }

  /** The stat-block collapse: every stat block (title or section) takes the nodes up to the
      next heading of any kind into its details and is then preparsed; every other node stays
      where it is. */
  function Scopes(s: seq<Node>): (r: seq<Node>)
    decreases SizeSeq(s), 0
  {
    if s == [] then []
    else if s[0].StatBlock? then
      var k := PlainRun(s[1..]);
      SizeOfScope(s, k);
      [Preparsed(Absorb(s[0], s[1..k + 1]))] + Scopes(s[k + 1..])
    else [s[0]] + Scopes(s[1..])
  }

  // ---------------------------------------------------------------------------------------
  // Where the source fails. `has_name` also accepts a stat-block section whose title is "p",
  // after which `.get` or `.contents` is missing; the fallback pass reads `contents[0]` of
  // every paragraph, so an empty paragraph fails there.

  predicate NoNamedP(s: seq<Node>) {
    forall i :: 0 <= i < |s| ==> !NamedObject(s[i], "p")
  }

  predicate SecondSafe(s: seq<Node>) {
    forall i :: 0 <= i < |s| ==> !NamedObject(s[i], "p") && (IsElement(s[i], "p") ==> |s[i].children| > 0)
  }

  predicate FirstSafe(sb: Node)
    requires sb.StatBlock?
  {
    NoNamedP(sb.details) &&
    var st := FirstRun(ScanStart, sb.details);
    st.started || SecondSafe(st.kept)
  }

  predicate PreparseSafe(sb: Node)
    requires sb.StatBlock?
    decreases SizeSeq(sb.details), 1
  {
    NoNamedP(sb.details) && ScopesSafe(Breakers(sb.details)) &&
    FirstSafe(sb.(details := Scopes(Breakers(sb.details)), html := sb.html + sb.details))
  }

  /** The stat-block collapse of `s` runs without failing. */
  predicate ScopesSafe(s: seq<Node>)
    decreases SizeSeq(s), 0
  {
    if s == [] then true
    else if s[0].StatBlock? then
      var k := PlainRun(s[1..]);
      SizeOfScope(s, k);
      PreparseSafe(Absorb(s[0], s[1..k + 1])) && ScopesSafe(s[k + 1..])
    else ScopesSafe(s[1..])
  }

  // ---------------------------------------------------------------------------------------
  // Properties of the stat-block collapse

  /** After the collapse every stat block is followed by a heading of some kind or by the end:
      no plain node is left between a stat block and the next heading. */
  lemma {:induction false} ScopesClosed(s: seq<Node>)
    ensures forall i :: 0 <= i < |Scopes(s)| - 1 && Scopes(s)[i].StatBlock? ==> IsHeadingLike(Scopes(s)[i + 1])
    ensures |Scopes(s)| > 0 ==> (Scopes(s)[0].StatBlock? <==> s[0].StatBlock?)
    ensures |Scopes(s)| > 0 ==> (IsHeadingLike(Scopes(s)[0]) <==> IsHeadingLike(s[0]))
    ensures |Scopes(s)| == 0 <==> |s| == 0
    decreases SizeSeq(s)
  {
    if s != [] {
      if s[0].StatBlock? {
        var k := PlainRun(s[1..]);
        SizeOfScope(s, k);
        ScopesClosed(s[k + 1..]);
        if k + 1 < |s| {
          assert s[k + 1..][0] == s[1..][k];
        }
      } else {
        ScopesClosed(s[1..]);
      }
    }
  }

  /** Preparsing keeps a stat block's kind and title and appends pairs after the ones it
      already held (the challenge rating stored with the title stays first). */
  lemma PreparsedKeepsKeys(sb: Node)
    requires sb.StatBlock?
    ensures Preparsed(sb).isSection == sb.isSection && Preparsed(sb).name == sb.name
    ensures |Preparsed(sb).keys| >= |sb.keys| && Preparsed(sb).keys[..|sb.keys|] == sb.keys
  {
    var mid := sb.(details := Scopes(Breakers(sb.details)), html := sb.html + sb.details);
    KeyFirstKeysGrow(mid);
  }

  lemma ReadLineKeysGrow(p: Pending, e: LineEvent)
    ensures |ReadLine(p, e).keys| >= |p.keys| && ReadLine(p, e).keys[..|p.keys|] == p.keys
  {
    match e
    case KeyLineRead(children) =>
      var keys := if PendingXp(p.key) then p.keys + [StoredPair("XP", [XpValue(p.key)])] else p.keys;
      var key := if PendingXp(p.key) then "" else p.key;
      InnerLineKeysGrow(keys, children, key, p.text);
      assert keys[..|p.keys|] == p.keys;
      assert ReadLine(p, e).keys[..|keys|][..|p.keys|] == ReadLine(p, e).keys[..|p.keys|];
    case ContinuationRead(_) =>
    case XpRead(_) =>
      assert ReadLine(p, e).keys[..|p.keys|] == p.keys;
    case BoldLineRead(children) =>
      InnerLineKeysGrow(p.keys, children, p.key, p.text);
  }

  lemma {:induction false} ReplayKeysGrow(p: Pending, events: seq<LineEvent>)
    ensures |Replay(p, events).keys| >= |p.keys| && Replay(p, events).keys[..|p.keys|] == p.keys
  {
    if events != [] {
      var mid := Replay(p, events[..|events| - 1]);
      ReplayKeysGrow(p, events[..|events| - 1]);
      ReadLineKeysGrow(mid, events[|events| - 1]);
      assert Replay(p, events).keys[..|mid.keys|][..|p.keys|] == Replay(p, events).keys[..|p.keys|];
    }
  }

  lemma KeySecondKeysGrow(sb: Node)
    requires sb.StatBlock?
    ensures KeySecond(sb).isSection == sb.isSection && KeySecond(sb).name == sb.name
    ensures |KeySecond(sb).keys| >= |sb.keys| && KeySecond(sb).keys[..|sb.keys|] == sb.keys
  {
    var st := SecondRun(ScanStart, sb.details);
    var p := Replay(Pending(sb.keys, "", []), st.events);
    ReplayKeysGrow(Pending(sb.keys, "", []), st.events);
    assert (p.keys + [StoredPair(p.key, p.text)])[..|sb.keys|] == p.keys[..|sb.keys|];
  }

  lemma KeyFirstKeysGrow(sb: Node)
    requires sb.StatBlock?
    ensures KeyFirst(sb).isSection == sb.isSection && KeyFirst(sb).name == sb.name
    ensures |KeyFirst(sb).keys| >= |sb.keys| && KeyFirst(sb).keys[..|sb.keys|] == sb.keys
  {
    var st := FirstRun(ScanStart, sb.details);
    var p := Replay(Pending(sb.keys, "", []), st.events);
    ReplayKeysGrow(Pending(sb.keys, "", []), st.events);
    if st.started {
      assert (p.keys + [StoredPair(if p.key == "" then "descriptor" else p.key, p.text)])[..|sb.keys|] == p.keys[..|sb.keys|];
    } else {
      var mid := sb.(keys := p.keys, details := st.kept);
      KeySecondKeysGrow(mid);
      assert KeySecond(mid).keys[..|sb.keys|] == KeySecond(mid).keys[..|p.keys|][..|sb.keys|];
    }
  }

  /** One more consumed line is read after the earlier ones. */
  lemma ReplayStep(p: Pending, events: seq<LineEvent>, e: LineEvent)
    ensures Replay(p, events + [e]) == ReadLine(Replay(p, events), e)
  {
    assert (events + [e])[..|events|] == events;
  }

  lemma FirstRunStep(st: ScanState, ds: seq<Node>, i: nat)
    requires i < |ds|
    ensures FirstRun(st, ds[i..]) == FirstRun(FirstStep(st, ds[i]), ds[i + 1..])
  {
    assert ds[i..][1..] == ds[i + 1..];
  }

  lemma SecondRunStep(st: ScanState, ds: seq<Node>, i: nat)
    requires i < |ds|
    ensures SecondRun(st, ds[i..]) == SecondRun(SecondStep(st, ds[i]), ds[i + 1..])
  {
    assert ds[i..][1..] == ds[i + 1..];
  }

  // ---------------------------------------------------------------------------------------
  // The mutable stat-block record the extractor updates in place

  /** A stat block as the extractor sees it: an object whose key list, interior and
      provenance list the passes update. */
  class StatBlockRecord {
    var isSection: bool
    var name: string
    var keys: seq<KeyValue>
    var details: seq<Node>
    var html: seq<Node>

    /** The record as a node value. */
    function ToNode(): (n: Node)
      reads this
      ensures n.StatBlock?
    {
      StatBlock(isSection, name, keys, details, html)
    }

    /** `StatBlockHeading(name, html)` or `StatBlockSection(name, html)`: trimmed title, no
        pairs, empty interior, the source markup as provenance. */
    constructor (isSection: bool, name: string, source: Node)
      ensures ToNode() == StatBlock(isSection, Strip(name), [], [], [source])
    {
      this.isSection := isSection;
      this.name := Strip(name);
      this.keys := [];
      this.details := [];
      this.html := [source];
    }

    /** Takes up a stat block held in a node list, to update it in place. */
    constructor FromNode(n: Node)
      requires n.StatBlock?
      ensures ToNode() == n
    {
      isSection := n.isSection;
      name := n.name;
      keys := n.keys;
      details := n.details;
      html := n.html;
    }

    /** `store_key`: appends exactly one normalised pair; earlier pairs stay as they were. */
    method StoreKey(key: string, parts: seq<string>)
      modifies this`keys
      ensures keys == old(keys) + [StoredPair(key, parts)]
    {
      var p := Strip(Join(parts));
      if EndsWith(p, ";") || EndsWith(p, ",") {
        p := p[..|p| - 1];
      }
      keys := keys + [KeyValue(Strip(key), Strip(p))];
    }

    /** What a bold child flushes in `stat_block_key_inner_parse`. */
    method FlushPending(key: string, text: seq<string>)
      modifies this`keys
      ensures keys == Flush(old(keys), key, text)
    {
      if key != "" {
        StoreKey(key, text);
      } else if |text| > 0 {
        if |text| == 2 {
          StoreKey("descriptor", [text[0]]);
          StoreKey("descriptor", [text[1]]);
        } else {
          StoreKey("descriptor", text);
        }
      }
    }

    /** `stat_block_key_inner_parse`: one key line, child by child. */
    method KeyInnerParse(line: Node, key: string, text: seq<string>) returns (nextKey: string, nextText: seq<string>)
      requires line.Element?
      modifies this`keys
      ensures var l := InnerLine(old(keys), line.children, key, text);
        keys == l.keys && nextKey == l.key && nextText == l.text
    {
      var stored := false;
      nextKey, nextText := key, text;
      var children := line.children;
      for i := 0 to |children|
        invariant LineState(keys, nextKey, nextText, stored) ==
                  InnerFold(LineState(old(keys), key, text, false), children[..i])
      {
        var e := children[i];
        assert children[..i + 1][..i] == children[..i];
        if IsElement(e, "b") {
          stored := true;
          FlushPending(nextKey, nextText);
          nextText := [];
          nextKey := GetText(e);
        } else {
          nextText := nextText + [GetText(e)];
        }
      }
      assert children[..|children|] == children;
      if |keys| <= 1 && !stored {
        StoreKey("descriptor", nextText);
        nextText := [];
      }
    }

    /** `stat_block_key_second_pass`: bold-first paragraphs at the top of the block. */
    method KeySecondPass()
      requires SecondSafe(details)
      modifies this`keys, this`details
      ensures ToNode() == KeySecond(old(ToNode()))
    {
      ghost var start := ToNode();
      ghost var events: seq<LineEvent> := [];
      var lines := details;
      var kept: seq<Node> := [];
      var key := "";
      var text: seq<string> := [];
      var top := true;
      var started := false;
      for i := 0 to |lines|
        invariant SecondRun(ScanState(events, kept, top, started), lines[i..]) == SecondRun(ScanStart, start.details)
        invariant Pending(keys, key, text) == Replay(Pending(start.keys, "", []), events)
      {
        var d := lines[i];
        ghost var scan := ScanState(events, kept, top, started);
        SecondRunStep(scan, lines, i);
        if IsElement(d, "p") && IsElement(d.children[0], "b") && top {
          started := true;
          key, text := KeyInnerParse(d, key, text);
          ReplayStep(Pending(start.keys, "", []), events, BoldLineRead(d.children));
          events := events + [BoldLineRead(d.children)];
        } else {
          if started {
            top := false;
          }
          kept := kept + [d];
        }
        assert ScanState(events, kept, top, started) == SecondStep(scan, d);
      }
      details := kept;
      if started {
        StoreKey(key, text);
      }
    }

    /** The line loop of `stat_block_key_first_pass`: reads the style-marked lines at the top
        of the block into pairs and returns the lines it keeps, the pending key and value, and
        whether a key line was seen. */
    method KeyFirstLoop() returns (kept: seq<Node>, key: string, text: seq<string>, started: bool)
      modifies this`keys
      ensures var st := FirstRun(ScanStart, details);
        kept == st.kept && started == st.started &&
        Pending(keys, key, text) == Replay(Pending(old(keys), "", []), st.events)
    {
      ghost var events: seq<LineEvent> := [];
      var lines := details;
      kept, key, text, started := [], "", [], false;
      var top := true;
      for i := 0 to |lines|
        invariant FirstRun(ScanState(events, kept, top, started), lines[i..]) == FirstRun(ScanStart, lines)
        invariant Pending(keys, key, text) == Replay(Pending(old(keys), "", []), events)
      {
        var d := lines[i];
        ghost var scan := ScanState(events, kept, top, started);
        FirstRunStep(scan, lines, i);
        ghost var pending := Pending(keys, key, text);
        if IsKeyLine(d) && top {
          started := true;
          if key != "" && StartsWith(key, "XP ") {
            StoreKey("XP", [XpValue(key)]);
            key := "";
          }
          key, text := KeyInnerParse(d, key, text);
          ReplayStep(Pending(old(keys), "", []), events, KeyLineRead(d.children));
          events := events + [KeyLineRead(d.children)];
          assert Pending(keys, key, text) == ReadLine(pending, KeyLineRead(d.children));
        } else if IsContinuationLine(d) && top {
          text := text + [Render(d)];
          ReplayStep(Pending(old(keys), "", []), events, ContinuationRead(d));
          events := events + [ContinuationRead(d)];
        } else if IsXpLine(d) && top {
          StoreKey("XP", [XpValue(GetText(d))]);
          ReplayStep(Pending(old(keys), "", []), events, XpRead(d));
          events := events + [XpRead(d)];
        } else {
          if started {
            top := false;
          }
          kept := kept + [d];
        }
        assert ScanState(events, kept, top, started) == FirstStep(scan, d);
      }
    }

    /** `stat_block_key_first_pass`: style-marked lines at the top of the block, then the
        fallback pass when no key line was seen. */
    method KeyFirstPass()
      requires FirstSafe(ToNode())
      modifies this`keys, this`details
      ensures ToNode() == KeyFirst(old(ToNode()))
    {
      var kept, key, text, started := KeyFirstLoop();
      details := kept;
      if started {
        if key == "" {
          key := "descriptor";
        }
        StoreKey(key, text);
      } else {
        KeySecondPass();
      }
    }

    /** `stat_block_internals_first_pass`: every interior node is added to the provenance
        list, and breaker paragraphs become stat-block sections. */
    method InternalsFirstPass(d: seq<Node>) returns (r: seq<Node>)
      requires NoNamedP(d)
      modifies this`html
      ensures html == old(html) + d
      ensures r == Breakers(d)
    {
      r := [];
      for i := 0 to |d|
        invariant html == old(html) + d[..i]
        invariant |r| == i && forall j :: 0 <= j < i ==> r[j] == BreakerNode(d[j])
      {
        var detail := d[i];
        html := html + [detail];
        assert d[..i + 1] == d[..i] + [detail];
        if IsElement(detail, "p") && Attr(detail.attrs, "class") == "stat-block-breaker" {
          var section := new StatBlockRecord(true, GetText(detail), detail);
          r := r + [section.ToNode()];
        } else {
          r := r + [detail];
        }
      }
      assert d[..|d|] == d;
    }

    /** `stat_block_preparse`. */
    method Preparse()
      requires PreparseSafe(ToNode())
      modifies this
      ensures ToNode() == Preparsed(old(ToNode()))
      decreases SizeSeq(details), 2
    {
      var d := InternalsFirstPass(details);
      details := d;
      d := StatBlockCollapsePass(details);
      details := d;
      KeyFirstPass();
    }
  }

  /** The collapse of a non-empty list, read at its head. */
  lemma ScopesCons(t: seq<Node>)
    requires |t| > 0 && !t[0].StatBlock?
    ensures Scopes(t) == [t[0]] + Scopes(t[1..])
    ensures ScopesSafe(t) ==> ScopesSafe(t[1..])
  {
  }

  /** Plain nodes followed by a heading (or nothing) are exactly the scope. */
  lemma {:induction false} PlainRunPrefix(absorbed: seq<Node>, rest: seq<Node>)
    requires forall m :: 0 <= m < |absorbed| ==> !IsHeadingLike(absorbed[m])
    requires rest == [] || IsHeadingLike(rest[0])
    ensures PlainRun(absorbed + rest) == |absorbed|
  {
    if absorbed != [] {
      assert (absorbed + rest)[1..] == absorbed[1..] + rest;
      PlainRunPrefix(absorbed[1..], rest);
    } else {
      assert absorbed + rest == rest;
    }
  }

  /** A stat block at the head of `t` whose scope is `absorbed`, followed by `rest`. */
  lemma ScopeClosed(t: seq<Node>, absorbed: seq<Node>, rest: seq<Node>)
    requires |t| > 0 && t[0].StatBlock? && t[1..] == absorbed + rest
    requires forall m :: 0 <= m < |absorbed| ==> !IsHeadingLike(absorbed[m])
    requires rest == [] || IsHeadingLike(rest[0])
    ensures Scopes(t) == [Preparsed(Absorb(t[0], absorbed))] + Scopes(rest)
    ensures ScopesSafe(t) ==> PreparseSafe(Absorb(t[0], absorbed)) && ScopesSafe(rest)
    ensures SizeSeq(Absorb(t[0], absorbed).details) < SizeSeq(t)
  {
    PlainRunPrefix(absorbed, rest);
    var k := |absorbed|;
    assert t[1..k + 1] == (absorbed + rest)[..k] == absorbed;
    assert t[k + 1..] == (absorbed + rest)[k..] == rest;
    SizeOfScope(t, k);
  }

  /** The state of the collapse pass over `s` with `rest` still to read: `r` followed by the
      collapse of `rest` is the collapse of `s`. While a stat block is open, `r` ends with it,
      `block` is the list from that stat block on and `absorbed` the plain nodes it took. */
  ghost predicate Collapsing(s: seq<Node>, r: seq<Node>, open: bool, block: seq<Node>, absorbed: seq<Node>, rest: seq<Node>) {
    SizeSeq(rest) <= SizeSeq(s) &&
    if !open then r + Scopes(rest) == Scopes(s) && ScopesSafe(rest)
    else
      |block| > 0 && block[0].StatBlock? && block[1..] == absorbed + rest
      && SizeSeq(block) <= SizeSeq(s)
      && (forall m :: 0 <= m < |absorbed| ==> !IsHeadingLike(absorbed[m]))
      && |r| > 0 && r[|r| - 1] == Absorb(block[0], absorbed)
      && r[..|r| - 1] + Scopes(block) == Scopes(s) && ScopesSafe(block)
  }

  /** A stat block read with no stat block open is emitted and opens a scope. */
  lemma CollapsingOpen(s: seq<Node>, r: seq<Node>, rest: seq<Node>)
    requires Collapsing(s, r, false, [], [], rest)
    requires |rest| > 0 && rest[0].StatBlock?
    ensures Collapsing(s, r + [rest[0]], true, rest, [], rest[1..])
  {
    var d := rest[0];
    assert Absorb(d, []) == d by {
      assert d.details + [] == d.details;
    }
    assert (r + [d])[..|r + [d]| - 1] == r;
    assert rest[1..] == [] + rest[1..];
  }

  /** A plain node joins the open stat block. */
  lemma CollapsingAbsorb(s: seq<Node>, r: seq<Node>, block: seq<Node>, absorbed: seq<Node>, rest: seq<Node>)
    requires Collapsing(s, r, true, block, absorbed, rest)
    requires |rest| > 0 && !IsHeadingLike(rest[0])
    ensures r[|r| - 1].StatBlock?
    ensures Collapsing(s, r[..|r| - 1] + [Absorb(r[|r| - 1], [rest[0]])], true, block, absorbed + [rest[0]], rest[1..])
  {
    var d := rest[0];
    var r' := r[..|r| - 1] + [Absorb(r[|r| - 1], [d])];
    assert block[1..] == (absorbed + [d]) + rest[1..];
    assert block[0].details + absorbed + [d] == block[0].details + (absorbed + [d]);
    assert r'[..|r'| - 1] == r[..|r| - 1];
  }

  /** Any node but a stat block, read with no stat block open, is emitted as it is. */
  lemma CollapsingPlain(s: seq<Node>, r: seq<Node>, rest: seq<Node>)
    requires Collapsing(s, r, false, [], [], rest)
    requires |rest| > 0 && !rest[0].StatBlock?
    ensures Collapsing(s, r + [rest[0]], false, [], [], rest[1..])
  {
    ScopesCons(rest);
    assert SizeSeq(rest) == Size(rest[0]) + SizeSeq(rest[1..]);
    Regroup(r, [rest[0]], Scopes(rest[1..]));
  }

  /** Preparses the open stat block, the last node emitted, once a heading or the end of the
      list closes its scope. */
  method CloseScope(r: seq<Node>, ghost s: seq<Node>, ghost block: seq<Node>, ghost absorbed: seq<Node>, ghost rest: seq<Node>)
    returns (closed: seq<Node>)
    requires Collapsing(s, r, true, block, absorbed, rest)
    requires rest == [] || IsHeadingLike(rest[0])
    ensures |r| > 0 && r[|r| - 1].StatBlock? && closed == r[..|r| - 1] + [Preparsed(r[|r| - 1])]
    ensures Collapsing(s, closed, false, [], [], rest)
    decreases SizeSeq(s), 0
  {
    CollapsingClose(s, r, block, absorbed, rest);
    var rec := new StatBlockRecord.FromNode(r[|r| - 1]);
    rec.Preparse();
    closed := r[..|r| - 1] + [rec.ToNode()];
  }

  /** Closing the open scope: the stat block, preparsed, replaces the last node emitted. */
  lemma CollapsingClose(s: seq<Node>, r: seq<Node>, block: seq<Node>, absorbed: seq<Node>, rest: seq<Node>)
    requires Collapsing(s, r, true, block, absorbed, rest)
    requires rest == [] || IsHeadingLike(rest[0])
    ensures r[|r| - 1].StatBlock? && PreparseSafe(r[|r| - 1])
    ensures SizeSeq(r[|r| - 1].details) < SizeSeq(s)
    ensures Collapsing(s, r[..|r| - 1] + [Preparsed(r[|r| - 1])], false, [], [], rest)
  {
    ScopeClosed(block, absorbed, rest);
    var r' := r[..|r| - 1] + [Preparsed(r[|r| - 1])];
    assert r'[..|r| - 1] == r[..|r| - 1];
    Regroup(r[..|r| - 1], [Preparsed(r[|r| - 1])], Scopes(rest));
  }

  /** `stat_block_collapse_pass`: the current stat block is always the last node emitted; a
      heading of any kind closes it (and it is preparsed then), a plain node joins it. */
  method StatBlockCollapsePass(s: seq<Node>) returns (r: seq<Node>)
    requires ScopesSafe(s)
    ensures r == Scopes(s)
    decreases SizeSeq(s), 1
  {
    r := [];
    var open := false;
    ghost var rest := s;
    ghost var block: seq<Node> := [];
    ghost var absorbed: seq<Node> := [];
    for i := 0 to |s|
      invariant rest == s[i..]
      invariant Collapsing(s, r, open, block, absorbed, rest)
    {
      var d := s[i];
      assert rest[0] == d && rest[1..] == s[i + 1..];
      if IsHeadingLike(d) {
        if open {
          r := CloseScope(r, s, block, absorbed, rest);
          open, block, absorbed := false, [], [];
        }
        if d.StatBlock? {
          CollapsingOpen(s, r, rest);
          open, block, absorbed := true, rest, [];
        } else {
          CollapsingPlain(s, r, rest);
        }
        r := r + [d];
      } else if open {
        CollapsingAbsorb(s, r, block, absorbed, rest);
        r := r[..|r| - 1] + [Absorb(r[|r| - 1], [d])];
        absorbed := absorbed + [d];
      } else {
        CollapsingPlain(s, r, rest);
        r := r + [d];
      }
      rest := rest[1..];
    }
    if open {
      r := CloseScope(r, s, block, absorbed, rest);
    }
    assert rest == [];
  }
}
