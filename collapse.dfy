/** The level-parameterised collapse: a heading of the collapse level takes the nodes that
    follow it into its details, up to the next heading of that level or a coarser one. */
module Collapse {
  import opened Nodes
  import opened StatBlocks

  /** An exact heading (not a stat block) of level at most `level`: it ends the current
      scope and stays at the top. */
  predicate Stops(d: Node, level: int) {
    d.Heading? && d.level <= level
  }

  /** Whether a node inside a scope goes into the heading's details: every node does when
      stat blocks are collected, otherwise every node but a stat block. */
  predicate Joins(d: Node, addStatBlocks: bool) {
    addStatBlocks || !d.StatBlock?
  }

  /** The length of the scope at the head of `t`: the nodes before the first heading that
      stops it. */
  function OpenRun(t: seq<Node>, level: int): (k: nat)
    ensures k <= |t|
    ensures forall j :: 0 <= j < k ==> !Stops(t[j], level)
    ensures k < |t| ==> Stops(t[k], level)
  {
    if t == [] || Stops(t[0], level) then 0
    else
      var k := 1 + OpenRun(t[1..], level);
      assert forall j :: 1 <= j < k ==> t[j] == t[1..][j - 1];
      k
  }

  /** The nodes of a scope that go into the heading, in order. */
  function Joined(seg: seq<Node>, addStatBlocks: bool): (r: seq<Node>)
    ensures forall j :: 0 <= j < |r| ==> Joins(r[j], addStatBlocks)
  {
    if seg == [] then []
    else Joined(seg[..|seg| - 1], addStatBlocks) +
         (if Joins(seg[|seg| - 1], addStatBlocks) then [seg[|seg| - 1]] else [])
  }

  /** The nodes of a scope that stay at the top after the heading, in order. */
  function Passed(seg: seq<Node>, addStatBlocks: bool): (r: seq<Node>)
    ensures forall j :: 0 <= j < |r| ==> !Joins(r[j], addStatBlocks)
  {
    if seg == [] then []
    else Passed(seg[..|seg| - 1], addStatBlocks) +
         (if Joins(seg[|seg| - 1], addStatBlocks) then [] else [seg[|seg| - 1]])
  }

  /** The collapse at `level`: each heading of exactly that level takes the joining nodes of
      its scope into its details, and the other nodes of the scope follow it at the top; every
      node outside a scope stays where it is. */
  function Collapsed(s: seq<Node>, level: int, addStatBlocks: bool): seq<Node>
    decreases |s|
  {
    if s == [] then []
    else if s[0].Heading? && s[0].level == level then
      var k := OpenRun(s[1..], level);
      var seg := s[1..k + 1];
      [Absorb(s[0], Joined(seg, addStatBlocks))] + Passed(seg, addStatBlocks) + Collapsed(s[k + 1..], level, addStatBlocks)
    else [s[0]] + Collapsed(s[1..], level, addStatBlocks)
  }

  // ---------------------------------------------------------------------------------------
  // The loop of title_collapse_pass against Collapsed

  /** The state of the pass over `s` with `rest` still to read: `r` followed by the collapse
      of `rest` is the collapse of `s`. While a heading is current (`cur >= 0`, its index in
      `r`), `block` is the list from that heading on, `seen` its scope read so far, and `r` is
      `done`, the heading with the joining part of `seen`, then the rest of `seen`. */
  ghost predicate Collapsing(s: seq<Node>, level: int, add: bool, r: seq<Node>, cur: int,
                             done: seq<Node>, block: seq<Node>, seen: seq<Node>, rest: seq<Node>)
  {
    if cur < 0 then r + Collapsed(rest, level, add) == Collapsed(s, level, add)
    else
      |block| > 0 && block[0].Heading? && block[0].level == level && block[1..] == seen + rest
      && (forall m :: 0 <= m < |seen| ==> !Stops(seen[m], level))
      && cur == |done| && r == done + [Absorb(block[0], Joined(seen, add))] + Passed(seen, add)
      && done + Collapsed(block, level, add) == Collapsed(s, level, add)
  }

  /** A scope followed by a stopping heading (or nothing) is exactly the open run. */
  lemma {:induction false} OpenRunPrefix(seen: seq<Node>, rest: seq<Node>, level: int)
    requires forall m :: 0 <= m < |seen| ==> !Stops(seen[m], level)
    requires rest == [] || Stops(rest[0], level)
    ensures OpenRun(seen + rest, level) == |seen|
  {
    if seen != [] {
      assert (seen + rest)[1..] == seen[1..] + rest;
      OpenRunPrefix(seen[1..], rest, level);
    } else {
      assert seen + rest == rest;
    }
  }

  /** A stopping heading or the end closes the current heading's scope. */
  lemma CollapsingClose(s: seq<Node>, level: int, add: bool, r: seq<Node>, cur: int,
                        done: seq<Node>, block: seq<Node>, seen: seq<Node>, rest: seq<Node>)
    requires cur >= 0 && Collapsing(s, level, add, r, cur, done, block, seen, rest)
    requires rest == [] || Stops(rest[0], level)
    ensures Collapsing(s, level, add, r, -1, [], [], [], rest)
  {
    var h := [Absorb(block[0], Joined(seen, add))];
    var p := Passed(seen, add);
    assert r == done + h + p;
    assert done + Collapsed(block, level, add) == Collapsed(s, level, add);
    OpenRunPrefix(seen, rest, level);
    ScopeAtHeading(block, seen, rest, level, add);
    var c := Collapsed(rest, level, add);
    assert Collapsed(block, level, add) == h + p + c;
    Regroup4(done, h, p, c);
  }

  lemma Regroup4(a: seq<Node>, b: seq<Node>, c: seq<Node>, d: seq<Node>)
    ensures (a + b + c) + d == a + (b + c + d)
  {
  }

  /** The collapse of a list that starts with a heading of the collapse level whose scope is
      `seen`. */
  lemma ScopeAtHeading(block: seq<Node>, seen: seq<Node>, rest: seq<Node>, level: int, add: bool)
    requires |block| > 0 && block[0].Heading? && block[0].level == level && block[1..] == seen + rest
    requires OpenRun(seen + rest, level) == |seen|
    ensures Collapsed(block, level, add) ==
            [Absorb(block[0], Joined(seen, add))] + Passed(seen, add) + Collapsed(rest, level, add)
  {
    var k := |seen|;
    assert block[1..k + 1] == seen;
    assert block[k + 1..] == rest;
  }

  /** A heading of the collapse level read with no heading current stays at the top and
      becomes current, with an empty scope so far. */
  lemma CollapsingOpen(s: seq<Node>, level: int, add: bool, r: seq<Node>, rest: seq<Node>)
    requires Collapsing(s, level, add, r, -1, [], [], [], rest)
    requires |rest| > 0 && rest[0].Heading? && rest[0].level == level
    ensures Collapsing(s, level, add, r + [rest[0]], |r|, r, rest, [], rest[1..])
  {
    var d := rest[0];
    assert Joined([], add) == [] && Passed([], add) == [];
    assert Absorb(d, []) == d by {
      assert d.details + [] == d.details;
    }
    assert r + [d] == r + [Absorb(d, Joined([], add))] + Passed([], add);
    assert rest[1..] == [] + rest[1..];
  }

  /** A heading coarser than the collapse level read with no heading current stays at the
      top. */
  lemma CollapsingStopAbove(s: seq<Node>, level: int, add: bool, r: seq<Node>, rest: seq<Node>)
    requires Collapsing(s, level, add, r, -1, [], [], [], rest)
    requires |rest| > 0 && Stops(rest[0], level) && rest[0].level != level
    ensures Collapsing(s, level, add, r + [rest[0]], -1, [], [], [], rest[1..])
  {
    CollapsedCons(rest, level, add);
    Regroup(r, [rest[0]], Collapsed(rest[1..], level, add));
  }

  /** A node read with no heading current stays at the top. */
  lemma CollapsingPlain(s: seq<Node>, level: int, add: bool, r: seq<Node>, rest: seq<Node>)
    requires Collapsing(s, level, add, r, -1, [], [], [], rest)
    requires |rest| > 0 && !Stops(rest[0], level)
    ensures Collapsing(s, level, add, r + [rest[0]], -1, [], [], [], rest[1..])
  {
    assert (r + [rest[0]]) + Collapsed(rest[1..], level, add) == r + Collapsed(rest, level, add);
  }

  /** A node of the current scope that joins goes into the current heading's details, in
      place in `r`. */
  lemma CollapsingJoin(s: seq<Node>, level: int, add: bool, r: seq<Node>, cur: int,
                       done: seq<Node>, block: seq<Node>, seen: seq<Node>, rest: seq<Node>)
    requires cur >= 0 && Collapsing(s, level, add, r, cur, done, block, seen, rest)
    requires |rest| > 0 && !Stops(rest[0], level) && Joins(rest[0], add)
    ensures 0 <= cur < |r| && r[cur].Heading?
    ensures Collapsing(s, level, add, r[cur := Absorb(r[cur], [rest[0]])], cur, done, block, seen + [rest[0]], rest[1..])
  {
    var d := rest[0];
    var seen' := seen + [d];
    assert seen'[..|seen|] == seen && seen'[|seen|] == d;
    assert Joined(seen', add) == Joined(seen, add) + [d];
    assert Passed(seen', add) == Passed(seen, add);
    assert block[1..] == seen' + rest[1..];
    var h := block[0];
    assert h.details + Joined(seen, add) + [d] == h.details + Joined(seen', add);
    assert r[cur := Absorb(r[cur], [d])] == done + [Absorb(h, Joined(seen', add))] + Passed(seen', add);
  }

  /** A stat block of the current scope that does not join stays at the top after it. */
  lemma CollapsingPass(s: seq<Node>, level: int, add: bool, r: seq<Node>, cur: int,
                       done: seq<Node>, block: seq<Node>, seen: seq<Node>, rest: seq<Node>)
    requires cur >= 0 && Collapsing(s, level, add, r, cur, done, block, seen, rest)
    requires |rest| > 0 && !Stops(rest[0], level) && !Joins(rest[0], add)
    ensures Collapsing(s, level, add, r + [rest[0]], cur, done, block, seen + [rest[0]], rest[1..])
  {
    var d := rest[0];
    var seen' := seen + [d];
    assert seen'[..|seen|] == seen && seen'[|seen|] == d;
    assert Joined(seen', add) == Joined(seen, add);
    assert Passed(seen', add) == Passed(seen, add) + [d];
    assert block[1..] == seen' + rest[1..];
  }

  /** `title_collapse_pass`. The current heading is the node at index `cur` of the output
      list, so appending to its details is seen in the list that is returned. */
  method TitleCollapsePass(s: seq<Node>, level: int, addStatBlocks: bool) returns (r: seq<Node>)
    ensures r == Collapsed(s, level, addStatBlocks)
  {
    r := [];
    var cur := -1;
    ghost var rest := s;
    ghost var done: seq<Node> := [];
    ghost var block: seq<Node> := [];
    ghost var seen: seq<Node> := [];
    for i := 0 to |s|
      invariant rest == s[i..]
      invariant -1 <= cur
      invariant Collapsing(s, level, addStatBlocks, r, cur, done, block, seen, rest)
    {
      var d := s[i];
      assert rest[0] == d && rest[1..] == s[i + 1..];
      if d.Heading? && d.level <= level {
        if cur >= 0 {
          CollapsingClose(s, level, addStatBlocks, r, cur, done, block, seen, rest);
        }
        cur, done, block, seen := -1, [], [], [];
        if d.level == level {
          CollapsingOpen(s, level, addStatBlocks, r, rest);
          cur, done, block := |r|, r, rest;
        } else {
          CollapsingStopAbove(s, level, addStatBlocks, r, rest);
        }
        r := r + [d];
      } else if cur >= 0 {
        if addStatBlocks || !d.StatBlock? {
          CollapsingJoin(s, level, addStatBlocks, r, cur, done, block, seen, rest);
          r := r[cur := Absorb(r[cur], [d])];
        } else {
          CollapsingPass(s, level, addStatBlocks, r, cur, done, block, seen, rest);
          r := r + [d];
        }
        seen := seen + [d];
      } else {
        CollapsingPlain(s, level, addStatBlocks, r, rest);
        r := r + [d];
      }
      rest := rest[1..];
    }
    if cur >= 0 {
      CollapsingClose(s, level, addStatBlocks, r, cur, done, block, seen, rest);
    }
    assert r + Collapsed(rest, level, addStatBlocks) == r;
  }

  // ---------------------------------------------------------------------------------------
  // Properties of the collapse

  /** The collapse of a list read at its head, by cases: a heading of the collapse level with
      its scope `seg` and what follows `rest`, or any other node. */
  lemma CollapsedAt(s: seq<Node>, level: int, add: bool) returns (seg: seq<Node>, rest: seq<Node>)
    requires |s| > 0 && s[0].Heading? && s[0].level == level
    ensures s == [s[0]] + seg + rest && |rest| < |s|
    ensures forall j :: 0 <= j < |seg| ==> !Stops(seg[j], level)
    ensures rest == [] || Stops(rest[0], level)
    ensures Collapsed(s, level, add) == [Absorb(s[0], Joined(seg, add))] + Passed(seg, add) + Collapsed(rest, level, add)
  {
    var t := s[1..];
    var k := OpenRun(t, level);
    seg, rest := t[..k], t[k..];
    assert s[1..k + 1] == seg && s[k + 1..] == rest;
    assert forall j :: 0 <= j < |seg| ==> seg[j] == t[j];
    assert rest != [] ==> rest[0] == t[k];
    assert t == seg + rest;
  }

  lemma CollapsedCons(s: seq<Node>, level: int, add: bool)
    requires |s| > 0 && !(s[0].Heading? && s[0].level == level)
    ensures Collapsed(s, level, add) == [s[0]] + Collapsed(s[1..], level, add)
    ensures s == [s[0]] + s[1..]
  {
  }

  /** In a scope that was already collapsed nothing joins: joining part empty, the rest whole. */
  lemma {:induction false} NothingJoins(seg: seq<Node>, add: bool)
    requires forall j :: 0 <= j < |seg| ==> !Joins(seg[j], add)
    ensures Joined(seg, add) == [] && Passed(seg, add) == seg
  {
    if seg != [] {
      NothingJoins(seg[..|seg| - 1], add);
      assert seg == seg[..|seg| - 1] + [seg[|seg| - 1]];
    }
  }

  /** The collapse of a list that starts with a stopping heading (or is empty) starts with a
      stopping heading too. */
  lemma CollapsedStartsStopped(t: seq<Node>, level: int, add: bool)
    requires t == [] || Stops(t[0], level)
    ensures Collapsed(t, level, add) == [] || Stops(Collapsed(t, level, add)[0], level)
  {
  }

  /** Collapsing twice is collapsing once: after one pass every heading of the collapse level
      is followed only by stopping headings or, when stat blocks are not collected, by the
      stat blocks of its scope, so a second pass has nothing left to move. */
  lemma {:induction false} CollapsedIdempotent(s: seq<Node>, level: int, add: bool)
    ensures Collapsed(Collapsed(s, level, add), level, add) == Collapsed(s, level, add)
    decreases |s|
  {
    if s == [] {
    } else if s[0].Heading? && s[0].level == level {
      var seg, rest := CollapsedAt(s, level, add);
      CollapsedIdempotent(rest, level, add);
      IdempotentAtHeading(s[0], seg, rest, level, add);
    } else {
      CollapsedCons(s, level, add);
      CollapsedIdempotent(s[1..], level, add);
      var c := Collapsed(s[1..], level, add);
      CollapsedCons([s[0]] + c, level, add);
      assert ([s[0]] + c)[1..] == c;
    }
  }

  lemma IdempotentAtHeading(h: Node, seg: seq<Node>, rest: seq<Node>, level: int, add: bool)
    requires h.Heading? && h.level == level
    requires rest == [] || Stops(rest[0], level)
    requires Collapsed(Collapsed(rest, level, add), level, add) == Collapsed(rest, level, add)
    ensures var r := [Absorb(h, Joined(seg, add))] + Passed(seg, add) + Collapsed(rest, level, add);
      Collapsed(r, level, add) == r
  {
    CollapsedStartsStopped(rest, level, add);
    Recollapse(Absorb(h, Joined(seg, add)), Passed(seg, add), Collapsed(rest, level, add), level, add);
  }

  /** A heading of the collapse level followed by nodes that do not join it and then by a
      stopping heading (or the end) is left where it is. */
  lemma Recollapse(h: Node, p: seq<Node>, c: seq<Node>, level: int, add: bool)
    requires h.Heading? && h.level == level
    requires forall j :: 0 <= j < |p| ==> !Joins(p[j], add)
    requires c == [] || Stops(c[0], level)
    ensures Collapsed([h] + p + c, level, add) == [h] + p + Collapsed(c, level, add)
  {
    var r := [h] + p + c;
    assert OpenRun(p + c, level) == |p| by {
      OpenRunPrefix(p, c, level);
    }
    assert r[0] == h && r[1..] == p + c;
    ScopeAtHeading(r, p, c, level, add);
    NothingJoins(p, add);
    assert Absorb(h, []) == h by {
      assert h.details + [] == h.details;
    }
  }

  /** The two parts of a scope together weigh what the scope weighs. */
  lemma {:induction false} ScopeSplitSize(seg: seq<Node>, add: bool)
    ensures SizeSeq(Joined(seg, add)) + SizeSeq(Passed(seg, add)) == SizeSeq(seg)
  {
    if seg != [] {
      var init := seg[..|seg| - 1];
      var last := [seg[|seg| - 1]];
      ScopeSplitSize(init, add);
      assert seg == init + last;
      SizeSeqAppend(init, last);
      if Joins(seg[|seg| - 1], add) {
        assert Joined(seg, add) == Joined(init, add) + last;
        assert Passed(seg, add) == Passed(init, add);
        SizeSeqAppend(Joined(init, add), last);
      } else {
        assert Joined(seg, add) == Joined(init, add);
        assert Passed(seg, add) == Passed(init, add) + last;
        SizeSeqAppend(Passed(init, add), last);
      }
    }
  }

  /** The two parts of a scope are the scope split in two: each node of it goes to exactly
      one of them. */
  lemma {:induction false} ScopeSplit(seg: seq<Node>, add: bool)
    ensures multiset(Joined(seg, add)) + multiset(Passed(seg, add)) == multiset(seg)
  {
    if seg != [] {
      var init := seg[..|seg| - 1];
      var x := [seg[|seg| - 1]];
      ScopeSplit(init, add);
      ScopeSnoc(seg, add);
      var j, p := Joined(init, add), Passed(init, add);
      if Joined(seg, add) == j + x {
        MultisetMoved(multiset(j), multiset(p), multiset(init), multiset(x));
      } else {
        MultisetAdded(multiset(j), multiset(p), multiset(init), multiset(x));
      }
    }
  }

  /** The same split, counted with the nesting undone. */
  lemma {:induction false} ScopeSplitFlat(seg: seq<Node>, add: bool)
    ensures Flat(Joined(seg, add)) + Flat(Passed(seg, add)) == Flat(seg)
  {
    if seg != [] {
      var init := seg[..|seg| - 1];
      var x := [seg[|seg| - 1]];
      ScopeSplitFlat(init, add);
      ScopeSnoc(seg, add);
      FlatStep(Joined(init, add), Passed(init, add), init, x, Joined(seg, add), Passed(seg, add));
    }
  }

  /** The parts of a scope, read up to its last node. */
  lemma ScopeSnoc(seg: seq<Node>, add: bool)
    requires seg != []
    ensures var init, x := seg[..|seg| - 1], [seg[|seg| - 1]];
      seg == init + x &&
      ((Joined(seg, add) == Joined(init, add) + x && Passed(seg, add) == Passed(init, add)) ||
       (Joined(seg, add) == Joined(init, add) && Passed(seg, add) == Passed(init, add) + x))
  {
  }

  /** One more node of the scope, in either part. */
  lemma FlatStep(j: seq<Node>, p: seq<Node>, init: seq<Node>, x: seq<Node>, j': seq<Node>, p': seq<Node>)
    requires Flat(j) + Flat(p) == Flat(init)
    requires (j' == j + x && p' == p) || (j' == j && p' == p + x)
    ensures Flat(j') + Flat(p') == Flat(init + x)
  {
    FlatAppend(init, x);
    if j' == j + x && p' == p {
      FlatAppend(j, x);
      MultisetMoved(Flat(j), Flat(p), Flat(init), Flat(x));
    } else {
      FlatAppend(p, x);
      MultisetAdded(Flat(j), Flat(p), Flat(init), Flat(x));
    }
  }

  lemma MultisetMoved(a: multiset<Node>, b: multiset<Node>, c: multiset<Node>, d: multiset<Node>)
    requires a + b == c
    ensures (a + d) + b == c + d
  {
  }

  lemma MultisetAdded(a: multiset<Node>, b: multiset<Node>, c: multiset<Node>, d: multiset<Node>)
    requires a + b == c
    ensures a + (b + d) == c + d
  {
  }

  /** When stat blocks are collected the whole scope goes into the heading. */
  lemma {:induction false} JoinedAll(seg: seq<Node>)
    ensures Joined(seg, true) == seg && Passed(seg, true) == []
  {
    if seg != [] {
      JoinedAll(seg[..|seg| - 1]);
      assert seg == seg[..|seg| - 1] + [seg[|seg| - 1]];
    }
  }

  /** The nodes of a list with the nesting made by the collapse undone: a heading counts as
      the empty heading of its level and title followed by the nodes of its details, every
      other node as itself. */
  function Flat(s: seq<Node>): multiset<Node>
    decreases SizeSeq(s), 1
  {
    if s == [] then multiset{} else FlatNode(s[0]) + Flat(s[1..])
  }

  function FlatNode(n: Node): multiset<Node>
    decreases Size(n), 0
  {
    if n.Heading? then multiset{Heading(n.level, n.name, [])} + Flat(n.details) else multiset{n}
  }

  lemma {:induction false} FlatAppend(a: seq<Node>, b: seq<Node>)
    ensures Flat(a + b) == Flat(a) + Flat(b)
  {
    if a == [] {
      assert a + b == b;
    } else {
      assert (a + b)[0] == a[0] && (a + b)[1..] == a[1..] + b;
      FlatAppend(a[1..], b);
    }
  }

  /** The collapse loses, duplicates and alters no node: with the heading nesting undone, the
      result holds exactly the nodes of the input, each as often. */
  lemma {:induction false} CollapsedFlat(s: seq<Node>, level: int, add: bool)
    ensures Flat(Collapsed(s, level, add)) == Flat(s)
    decreases |s|
  {
    if s == [] {
    } else if s[0].Heading? && s[0].level == level {
      var seg, rest := CollapsedAt(s, level, add);
      CollapsedFlat(rest, level, add);
      FlatAtHeading(s[0], seg, rest, level, add);
    } else {
      CollapsedCons(s, level, add);
      CollapsedFlat(s[1..], level, add);
      FlatAppend([s[0]], s[1..]);
      FlatAppend([s[0]], Collapsed(s[1..], level, add));
    }
  }

  lemma FlatSingle(n: Node)
    ensures Flat([n]) == FlatNode(n)
  {
    assert [n][1..] == [];
  }

  lemma FlatAtHeading(h: Node, seg: seq<Node>, rest: seq<Node>, level: int, add: bool)
    requires h.Heading?
    requires Flat(Collapsed(rest, level, add)) == Flat(rest)
    ensures Flat([Absorb(h, Joined(seg, add))] + Passed(seg, add) + Collapsed(rest, level, add))
            == Flat([h] + seg + rest)
  {
    var j := Joined(seg, add);
    var p := Passed(seg, add);
    var c := Collapsed(rest, level, add);
    var a := Absorb(h, j);
    var e := multiset{Heading(h.level, h.name, [])};
    ScopeSplitFlat(seg, add);
    FlatAppend(h.details, j);
    FlatSingle(a);
    FlatSingle(h);
    assert Flat([a]) == e + Flat(h.details) + Flat(j);
    assert Flat([h]) == e + Flat(h.details);
    FlatAppend([a] + p, c);
    FlatAppend([a], p);
    FlatAppend([h] + seg, rest);
    FlatAppend([h], seg);
  }

  /** Counting every node together with the nodes in its details, the collapse keeps the
      weight of the list. */
  lemma {:induction false} CollapsedSize(s: seq<Node>, level: int, add: bool)
    ensures SizeSeq(Collapsed(s, level, add)) == SizeSeq(s)
    decreases |s|
  {
    if s == [] {
    } else if s[0].Heading? && s[0].level == level {
      var seg, rest := CollapsedAt(s, level, add);
      CollapsedSize(rest, level, add);
      SizeAtHeading(s[0], seg, rest, level, add);
    } else {
      CollapsedCons(s, level, add);
      CollapsedSize(s[1..], level, add);
    }
  }

  lemma SizeAtHeading(h: Node, seg: seq<Node>, rest: seq<Node>, level: int, add: bool)
    requires h.Heading?
    requires SizeSeq(Collapsed(rest, level, add)) == SizeSeq(rest)
    ensures SizeSeq([Absorb(h, Joined(seg, add))] + Passed(seg, add) + Collapsed(rest, level, add))
            == SizeSeq([h] + seg + rest)
  {
    var j := Joined(seg, add);
    var p := Passed(seg, add);
    var c := Collapsed(rest, level, add);
    var h' := [Absorb(h, j)];
    ScopeSplitSize(seg, add);
    SizeSeqAppend(h.details, j);
    SizeSeqAppend(h' + p, c);
    SizeSeqAppend(h', p);
    SizeSeqAppend([h] + seg, rest);
    SizeSeqAppend([h], seg);
  }

  /** The stopping headings of a list, as (level, title) pairs, in order. */
  function Outline(s: seq<Node>, level: int): (r: seq<(int, string)>)
    ensures |r| <= |s|
  {
    if s == [] then []
    else (if Stops(s[0], level) then [(s[0].level, s[0].name)] else []) + Outline(s[1..], level)
  }

  lemma {:induction false} OutlineAppend(a: seq<Node>, b: seq<Node>, level: int)
    ensures Outline(a + b, level) == Outline(a, level) + Outline(b, level)
  {
    if a != [] {
      assert (a + b)[1..] == a[1..] + b;
      OutlineAppend(a[1..], b, level);
    } else {
      assert a + b == b;
    }
  }

  lemma {:induction false} OutlineNone(t: seq<Node>, level: int)
    requires forall j :: 0 <= j < |t| ==> !Stops(t[j], level)
    ensures Outline(t, level) == []
  {
    if t != [] {
      OutlineNone(t[1..], level);
    }
  }

  /** Every exact heading of the collapse level or a coarser one stays at the top, in its
      original order, with its title: the collapse never nests one of them. */
  lemma {:induction false} CollapsedKeepsOutline(s: seq<Node>, level: int, add: bool)
    ensures Outline(Collapsed(s, level, add), level) == Outline(s, level)
    decreases |s|
  {
    if s == [] {
    } else if s[0].Heading? && s[0].level == level {
      var seg, rest := CollapsedAt(s, level, add);
      CollapsedKeepsOutline(rest, level, add);
      var p := Passed(seg, add);
      var h := [Absorb(s[0], Joined(seg, add))];
      OutlineNone(seg, level);
      OutlineNone(p, level);
      OutlineAppend(h + p, Collapsed(rest, level, add), level);
      OutlineAppend(h, p, level);
      OutlineAppend([s[0]] + seg, rest, level);
      OutlineAppend([s[0]], seg, level);
    } else {
      CollapsedCons(s, level, add);
      CollapsedKeepsOutline(s[1..], level, add);
      OutlineAppend([s[0]], s[1..], level);
      OutlineAppend([s[0]], Collapsed(s[1..], level, add), level);
    }
  }

  /** The stat blocks at the top of a list, in order. */
  function TopStatBlocks(s: seq<Node>): (r: seq<Node>)
    ensures forall j :: 0 <= j < |r| ==> r[j].StatBlock?
  {
    if s == [] then [] else (if s[0].StatBlock? then [s[0]] else []) + TopStatBlocks(s[1..])
  }

  lemma {:induction false} TopStatBlocksAppend(a: seq<Node>, b: seq<Node>)
    ensures TopStatBlocks(a + b) == TopStatBlocks(a) + TopStatBlocks(b)
  {
    if a != [] {
      assert (a + b)[1..] == a[1..] + b;
      TopStatBlocksAppend(a[1..], b);
    } else {
      assert a + b == b;
    }
  }

  /** When stat blocks are not collected, the stat blocks of a scope are exactly the part of
      it that stays at the top, and none joins. */
  lemma {:induction false} PassedStatBlocks(seg: seq<Node>)
    ensures TopStatBlocks(Passed(seg, false)) == TopStatBlocks(seg)
    ensures TopStatBlocks(Joined(seg, false)) == []
  {
    if seg != [] {
      var init := seg[..|seg| - 1];
      var last := [seg[|seg| - 1]];
      PassedStatBlocks(init);
      assert seg == init + last;
      TopStatBlocksAppend(init, last);
      if seg[|seg| - 1].StatBlock? {
        assert Passed(seg, false) == Passed(init, false) + last;
        assert Joined(seg, false) == Joined(init, false);
        TopStatBlocksAppend(Passed(init, false), last);
      } else {
        assert Passed(seg, false) == Passed(init, false);
        assert Joined(seg, false) == Joined(init, false) + last;
        TopStatBlocksAppend(Joined(init, false), last);
      }
    }
  }

  /** When stat blocks are not collected, every stat block stays at the top, in its original
      order and unchanged, whatever heading scope it was in. */
  lemma {:induction false} CollapsedKeepsStatBlocks(s: seq<Node>, level: int)
    ensures TopStatBlocks(Collapsed(s, level, false)) == TopStatBlocks(s)
    decreases |s|
  {
    if s == [] {
    } else if s[0].Heading? && s[0].level == level {
      var seg, rest := CollapsedAt(s, level, false);
      CollapsedKeepsStatBlocks(rest, level);
      PassedStatBlocks(seg);
      var h := [Absorb(s[0], Joined(seg, false))];
      var p := Passed(seg, false);
      TopStatBlocksAppend(h + p, Collapsed(rest, level, false));
      TopStatBlocksAppend(h, p);
      TopStatBlocksAppend([s[0]] + seg, rest);
      TopStatBlocksAppend([s[0]], seg);
    } else {
      CollapsedCons(s, level, false);
      CollapsedKeepsStatBlocks(s[1..], level);
      TopStatBlocksAppend([s[0]], s[1..]);
      TopStatBlocksAppend([s[0]], Collapsed(s[1..], level, false));
    }
  }
}
