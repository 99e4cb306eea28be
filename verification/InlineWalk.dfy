// Walking the printed form of one line: the runs come back with fresh link numbers, and `finish` leaves them
// alone (apps/rich-editor/src/sanitize.ts:251-292 on the output of apps/rich-editor/src/model.ts:163-193).

module InlineWalk {
  import opened Base
  import opened Chars
  import opened RichModel
  import opened Finish
  import opened FinishSpec
  import opened Markup
  import opened Printer
  import opened LinkLines
  import opened SanitizerModel
  import opened SanitizerLines
  import opened DocRoundTrip

  /** An element tree as the tree the sanitizer walks. */
  function ToDom(n: Node): Dom
    decreases n, 1
  {
    match n
    case Text(t) => TextNode(t)
    case Elem(tag, href, kids) => Element(tag, href, ToDoms(kids))
  }

  function ToDoms(f: seq<Node>): seq<Dom>
    decreases f, 0
  {
    if f == [] then [] else [ToDom(f[0])] + ToDoms(f[1..])
  }

  lemma {:induction false} DomsConcat(f: seq<Node>, g: seq<Node>)
    ensures ToDoms(f + g) == ToDoms(f) + ToDoms(g)
    decreases |f|
  {
    hide ToDom;
    if f == [] {
      assert f + g == g;
    } else {
      DomsConcat(f[1..], g);
      assert (f + g)[1..] == f[1..] + g;
      SeqAssoc([ToDom(f[0])], ToDoms(f[1..]), ToDoms(g));
    }
  }

  lemma {:induction false} WalkConcat(a: seq<Dom>, b: seq<Dom>, m: Marks, link: nat, depth: nat, st: State, r: Rules)
    ensures WalkAll(a + b, m, link, depth, st, r) ==
            match WalkAll(a, m, link, depth, st, r) case None => None case Some(s) => WalkAll(b, m, link, depth, s, r)
    decreases |a|
  {
    hide Walk;
    if a == [] {
      assert a + b == b;
    } else {
      assert (a + b)[1..] == a[1..] + b;
      match Walk(a[0], m, link, depth, st, r)
      case None =>
      case Some(s) => WalkConcat(a[1..], b, m, link, depth, s, r);
    }
  }

  /** One forest after the other. */
  lemma {:induction false} WalkForests(f: seq<Node>, g: seq<Node>, m: Marks, link: nat, depth: nat, st: State, s: State, r: Rules)
    requires WalkAll(ToDoms(f), m, link, depth, st, r) == Some(s)
    ensures WalkAll(ToDoms(f + g), m, link, depth, st, r) == WalkAll(ToDoms(g), m, link, depth, s, r)
  {
    hide WalkAll, ToDoms;
    DomsConcat(f, g);
    WalkConcat(ToDoms(f), ToDoms(g), m, link, depth, st, r);
  }

  lemma {:induction false} WalkOne(n: Node, m: Marks, link: nat, depth: nat, st: State, r: Rules)
    ensures WalkAll(ToDoms([n]), m, link, depth, st, r) == Walk(ToDom(n), m, link, depth, st, r)
  {
    hide Walk, ToDom;
    assert [n][1..] == [];
    assert ToDoms([n]) == [ToDom(n)];
    assert [ToDom(n)][1..] == [];
  }

  // ---- fresh link numbers ----

  function SetLink(cs: seq<Chunk>, link: nat): seq<Chunk> {
    seq(|cs|, i requires 0 <= i < |cs| => if cs[i].Br? then Br else cs[i].(link := link))
  }

  /** The line with a new number for every link element; numbers continue from `n`. */
  function Relink(cs: seq<Chunk>, n: nat): seq<Chunk>
    decreases |cs|
  {
    if cs == [] then []
    else if cs[0].Br? then [Br] + Relink(cs[1..], n)
    else
      var k := RunLen(cs, 0);
      if cs[0].marks.href == "" then SetLink(cs[..k], 0) + Relink(cs[k..], n)
      else SetLink(cs[..k], n + 1) + Relink(cs[k..], n + 1)
  }

  /** The number of the last link element. */
  function Counted(cs: seq<Chunk>, n: nat): (m: nat)
    ensures m >= n
    decreases |cs|
  {
    if cs == [] then n
    else if cs[0].Br? then Counted(cs[1..], n)
    else Counted(cs[RunLen(cs, 0)..], if cs[0].marks.href == "" then n else n + 1)
  }

  // ---- the walk inside a link or outside links ----

  /** The marks of the levels below `k`. */
  function KeepMarks(m: Marks, k: nat): Marks {
    Marks(k > 1 && m.strong, k > 2 && m.em, k > 3 && m.u, if k > 0 then m.href else "")
  }

  /** All runs have the marks `m` below level `k`, and nothing keeps their text or marks out. */
  ghost predicate Walkable(cs: seq<Chunk>, k: nat, m: Marks, r: Rules) {
    forall i :: 0 <= i < |cs| ==>
      && (k > 0 ==> cs[i].Run?)
      && (cs[i].Run? ==>
            && KeepMarks(cs[i].marks, k) == m && cs[i].text != "" && AllowedText(cs[i].text) && MarksFit(cs[i].marks, r)
            && (cs[i].marks.href != "" ==> r.clean(cs[i].marks.href) == Some(cs[i].marks.href)))
  }

  lemma {:induction false} WalkableParts(cs: seq<Chunk>, n: nat, k: nat, m: Marks, r: Rules)
    requires Walkable(cs, k, m, r) && n <= |cs|
    ensures Walkable(cs[..n], k, m, r) && Walkable(cs[n..], k, m, r)
  {
    hide MarksFit;
    assert forall i :: 0 <= i < |cs| - n ==> cs[n..][i] == cs[n + i];
  }

  /** The first run, one level further in. */
  lemma {:induction false} WalkableRun(cs: seq<Chunk>, k: nat, m: Marks, r: Rules)
    requires k < 4 && cs != [] && cs[0].Run? && Walkable(cs, k, m, r)
    ensures Walkable(cs[..RunLen(cs, k)], k + 1, KeepMarks(cs[0].marks, k + 1), r)
    ensures KeepMarks(cs[0].marks, k) == m
  {
    hide MarksFit;
    var n := RunLen(cs, k);
    forall i | 0 <= i < n ensures KeepMarks(cs[i].marks, k + 1) == KeepMarks(cs[0].marks, k + 1) {
      assert KeepMarks(cs[i].marks, k) == m == KeepMarks(cs[0].marks, k);
      LevelDecides(cs[i].marks, cs[0].marks, k);
    }
  }

  lemma {:induction false} LevelDecides(a: Marks, b: Marks, k: nat)
    requires k < 4 && AtLevel(a, k) == AtLevel(b, k) && KeepMarks(a, k) == KeepMarks(b, k)
    ensures KeepMarks(a, k + 1) == KeepMarks(b, k + 1)
  {}

  /** The element of the mark at level `k > 0` adds that mark for its children and undoes nothing after them. */
  lemma {:induction false} MarkPlan(c: Marks, k: nat, link: nat, st: State, r: Rules)
    requires 0 < k < 4 && AtLevel(c, k) != [] && MarksFit(c, r)
    ensures var x := AtLevel(c, k)[0];
            && TagOf(x.kind) !in DROP_TAGS && TagOf(x.kind) != "br"
            && Enter(TagOf(x.kind), HrefOf(x), KeepMarks(c, k), link, st, r) == Inline(st, KeepMarks(c, k + 1), link)
  {
    hide Flush, OpenQuote, OpenList, OpenItem, BOUNDARY_TAGS;
  }

  lemma {:induction false} NoMark(c: Marks, k: nat)
    requires k < 4 && AtLevel(c, k) == []
    ensures KeepMarks(c, k + 1) == KeepMarks(c, k)
  {}

  lemma {:induction false} ElementWalk(n: Node, m: Marks, link: nat, depth: nat, st: State, r: Rules)
    requires n.Elem? && n.tag !in DROP_TAGS && n.tag != "br" && depth <= MAX_DEPTH
    ensures var p := Enter(n.tag, n.href, m, link, st, r);
            Walk(ToDom(n), m, link, depth, st, r) ==
              match WalkAll(ToDoms(n.kids), p.m, p.link, depth + 1, p.st, r)
              case None => None
              case Some(s) => Some(Leave(p, s))
  {
    hide Enter, WalkAll, Leave, ToDoms;
  }

  /** Two parts of a pending run, one walked after the other. */
  lemma {:induction false} WalkParts(cs: seq<Chunk>, n: nat, f: seq<Node>, g: seq<Node>, m: Marks, link: nat, depth: nat, st: State, s: State, r: Rules)
    requires n <= |cs| && s == st.(cur := st.cur + SetLink(cs[..n], link))
    requires WalkAll(ToDoms(f), m, link, depth, st, r) == Some(s)
    requires WalkAll(ToDoms(g), m, link, depth, s, r) == Some(s.(cur := s.cur + SetLink(cs[n..], link)))
    ensures WalkAll(ToDoms(f + g), m, link, depth, st, r) == Some(st.(cur := st.cur + SetLink(cs, link)))
  {
    hide WalkAll, ToDoms;
    WalkForests(f, g, m, link, depth, st, s, r);
    SetLinkParts(cs, n, link);
    SeqAssoc(st.cur, SetLink(cs[..n], link), SetLink(cs[n..], link));
  }

  lemma {:induction false} SetLinkNothing(link: nat)
    ensures SetLink([], link) == []
  {}

  lemma {:induction false} OneLinked(cs: seq<Chunk>, m: Marks, link: nat)
    requires cs != [] && cs[0].Run? && cs[0].marks == m
    ensures SetLink(cs[..1], link) == [Run(cs[0].text, m, link)]
  {}

  lemma {:induction false} SetLinkParts(cs: seq<Chunk>, n: nat, link: nat)
    requires n <= |cs|
    ensures SetLink(cs, link) == SetLink(cs[..n], link) + SetLink(cs[n..], link)
  {}

  /** A run of equally linked text, walked from level `k > 0` on, is pending after it. */
  lemma {:induction false} WalkMarked(cs: seq<Chunk>, k: nat, m: Marks, link: nat, depth: nat, st: State, r: Rules)
    requires 0 < k <= 4 && Walkable(cs, k, m, r) && depth + 4 - k <= MAX_DEPTH
    ensures WalkAll(ToDoms(Nest(cs, k)), m, link, depth, st, r) == Some(st.(cur := st.cur + SetLink(cs, link)))
    decreases 4 - k, |cs|
  {
    hide Walkable, WalkAll, AtLevel, Walk, ToDoms, KeepMarks, Wrap, SetLink;
    if cs == [] {
      WalkNothing(m, link, depth, st, r);
      SetLinkNothing(link);
      assert st.cur + SetLink([], link) == st.cur;
    } else {
      FirstWalkable(cs, k, m, r);
      if k == 4 {
        WalkableParts(cs, 1, k, m, r);
        var s := st.(cur := st.cur + [Run(cs[0].text, m, link)]);
        LeafWalk(cs[0], m, link, depth, st, r);
        KeepAll(cs[0].marks);
        WalkMarked(cs[1..], 4, m, link, depth, s, r);
        OneLinked(cs, m, link);
        WalkParts(cs, 1, [Text(cs[0].text)], Nest(cs[1..], 4), m, link, depth, st, s, r);
      } else {
        var n := RunLen(cs, k);
        var s := st.(cur := st.cur + SetLink(cs[..n], link));
        WalkableParts(cs, n, k, m, r);
        WalkableRun(cs, k, m, r);
        var x := AtLevel(cs[0].marks, k);
        var f := Nest(cs[..n], k + 1);
        AtLevelRank(cs[0].marks, k);
        if x == [] {
          NoMark(cs[0].marks, k);
          WalkMarked(cs[..n], k + 1, m, link, depth, st, r);
        } else {
          WalkMarked(cs[..n], k + 1, KeepMarks(cs[0].marks, k + 1), link, depth + 1, st, r);
          MarkWalk(cs[0].marks, k, f, link, depth, st, s, r);
        }
        WrapWalk(x, f, m, link, depth, st, s, r);
        WalkMarked(cs[n..], k, m, link, depth, s, r);
        WalkParts(cs, n, Wrap(x, f), Nest(cs[n..], k), m, link, depth, st, s, r);
      }
    }
  }

  lemma {:induction false} WalkNothing(m: Marks, link: nat, depth: nat, st: State, r: Rules)
    ensures WalkAll(ToDoms([]), m, link, depth, st, r) == Some(st)
  {}

  lemma {:induction false} FirstWalkable(cs: seq<Chunk>, k: nat, m: Marks, r: Rules)
    requires cs != [] && Walkable(cs, k, m, r)
    ensures k > 0 ==> cs[0].Run?
    ensures cs[0].Run? ==>
              && KeepMarks(cs[0].marks, k) == m && cs[0].text != "" && AllowedText(cs[0].text) && MarksFit(cs[0].marks, r)
              && (cs[0].marks.href != "" ==> r.clean(cs[0].marks.href) == Some(cs[0].marks.href))
  {}

  lemma {:induction false} LeafWalk(c: Chunk, m: Marks, link: nat, depth: nat, st: State, r: Rules)
    requires c.Run? && c.text != "" && AllowedText(c.text) && depth <= MAX_DEPTH
    ensures WalkAll(ToDoms([Text(c.text)]), m, link, depth, st, r) == Some(st.(cur := st.cur + [Run(c.text, m, link)]))
  {
    hide AllowedText;
    WalkOne(Text(c.text), m, link, depth, st, r);
  }

  lemma {:induction false} MarkWalk(c: Marks, k: nat, f: seq<Node>, link: nat, depth: nat, st: State, s: State, r: Rules)
    requires 0 < k < 4 && AtLevel(c, k) != [] && MarksFit(c, r) && depth <= MAX_DEPTH
    requires WalkAll(ToDoms(f), KeepMarks(c, k + 1), link, depth + 1, st, r) == Some(s)
    ensures var x := AtLevel(c, k)[0];
            Walk(ToDom(Elem(TagOf(x.kind), HrefOf(x), f)), KeepMarks(c, k), link, depth, st, r) == Some(s)
  {
    hide AtLevel, KeepMarks, WalkAll, Walk, ToDoms, ToDom, Enter, MarksFit;
    var x := AtLevel(c, k)[0];
    MarkPlan(c, k, link, st, r);
    ElementWalk(Elem(TagOf(x.kind), HrefOf(x), f), KeepMarks(c, k), link, depth, st, r);
  }

  lemma {:induction false} WrapWalk(x: seq<Mark>, f: seq<Node>, m: Marks, link: nat, depth: nat, st: State, s: State, r: Rules)
    requires |x| <= 1
    requires if x == [] then WalkAll(ToDoms(f), m, link, depth, st, r) == Some(s)
             else Walk(ToDom(Elem(TagOf(x[0].kind), HrefOf(x[0]), f)), m, link, depth, st, r) == Some(s)
    ensures WalkAll(ToDoms(Wrap(x, f)), m, link, depth, st, r) == Some(s)
  {
    hide Walk, WalkAll, ToDoms, ToDom;
    if x != [] { WalkOne(Elem(TagOf(x[0].kind), HrefOf(x[0]), f), m, link, depth, st, r); }
  }

  lemma {:induction false} KeepAll(m: Marks)
    ensures KeepMarks(m, 4) == m
  {}

  // ---- a whole line ----

  /** A run of one link target becomes one link element with the next number. */
  lemma {:induction false} LinkWalk(cs: seq<Chunk>, depth: nat, st: State, r: Rules)
    requires cs != [] && cs[0].Run? && cs[0].marks.href != "" && "a" in r.tags && depth + 4 <= MAX_DEPTH
    requires Walkable(cs, 1, KeepMarks(cs[0].marks, 1), r)
    ensures WalkAll(ToDoms(Wrap(AtLevel(cs[0].marks, 0), Nest(cs, 1))), NO_MARKS, 0, depth, st, r)
         == Some(st.(cur := st.cur + SetLink(cs, st.nextLink + 1), nextLink := st.nextLink + 1))
  {
    hide Walkable, WalkAll, Walk, ToDoms, Nest, Flush, OpenQuote, OpenList, OpenItem, BOUNDARY_TAGS;
    var h := cs[0].marks.href;
    var f := Nest(cs, 1);
    var st1 := st.(nextLink := st.nextLink + 1);
    FirstWalkable(cs, 1, KeepMarks(cs[0].marks, 1), r);
    WalkMarked(cs, 1, KeepMarks(cs[0].marks, 1), st.nextLink + 1, depth + 1, st1, r);
    ElementWalk(Elem("a", Some(h), f), NO_MARKS, 0, depth, st, r);
    assert Enter("a", Some(h), NO_MARKS, 0, st, r) == Inline(st1, NO_MARKS.(href := h), st.nextLink + 1);
    assert KeepMarks(cs[0].marks, 1) == NO_MARKS.(href := h);
    WalkOne(Elem("a", Some(h), f), NO_MARKS, 0, depth, st, r);
    assert Wrap(AtLevel(cs[0].marks, 0), f) == [Elem("a", Some(h), f)];
  }

  lemma {:induction false} BreakWalk(depth: nat, st: State, r: Rules)
    requires depth <= MAX_DEPTH
    ensures WalkAll(ToDoms([Elem("br", None, [])]), NO_MARKS, 0, depth, st, r) == Some(st.(cur := st.cur + [Br]))
  {
    hide Enter, Flush;
    WalkOne(Elem("br", None, []), NO_MARKS, 0, depth, st, r);
    assert "br" !in DROP_TAGS;
  }

  lemma {:induction false} PlainWalk(cs: seq<Chunk>, depth: nat, st: State, r: Rules)
    requires cs != [] && cs[0].Run? && cs[0].marks.href == "" && depth + 4 <= MAX_DEPTH
    requires Walkable(cs, 1, KeepMarks(cs[0].marks, 1), r)
    ensures WalkAll(ToDoms(Wrap(AtLevel(cs[0].marks, 0), Nest(cs, 1))), NO_MARKS, 0, depth, st, r)
         == Some(st.(cur := st.cur + SetLink(cs, 0)))
  {
    hide Walkable, WalkAll, Walk, ToDoms, Nest;
    assert KeepMarks(cs[0].marks, 1) == NO_MARKS;
    WalkMarked(cs, 1, NO_MARKS, 0, depth, st, r);
  }

  lemma {:induction false} LinkTagAllowed(cs: seq<Chunk>, k: nat, m: Marks, r: Rules)
    requires cs != [] && cs[0].Run? && cs[0].marks.href != "" && Walkable(cs, k, m, r)
    ensures "a" in r.tags
  {}

  /** Walking a printed line leaves its runs pending, with new link numbers. */
  lemma {:induction false} WalkLine(cs: seq<Chunk>, depth: nat, st: State, r: Rules)
    requires Walkable(cs, 0, NO_MARKS, r) && depth + 4 <= MAX_DEPTH
    ensures WalkAll(ToDoms(Nest(cs, 0)), NO_MARKS, 0, depth, st, r)
         == Some(st.(cur := st.cur + Relink(cs, st.nextLink), nextLink := Counted(cs, st.nextLink)))
    decreases |cs|
  {
    hide Walkable, WalkAll, AtLevel, ToDoms, KeepMarks, Wrap, Nest, Relink, Counted, SetLink;
    if cs == [] {
      WalkNothing(NO_MARKS, 0, depth, st, r);
      NoLine(st.nextLink);
      assert st.cur + [] == st.cur;
    } else if cs[0].Br? {
      var s := st.(cur := st.cur + [Br]);
      WalkableParts(cs, 1, 0, NO_MARKS, r);
      BreakWalk(depth, st, r);
      WalkLine(cs[1..], depth, s, r);
      NestBreak(cs, 0);
      RelinkBreak(cs, st.nextLink);
      WalkForests([Elem("br", None, [])], Nest(cs[1..], 0), NO_MARKS, 0, depth, st, s, r);
      SeqAssoc(st.cur, [Br], Relink(cs[1..], st.nextLink));
    } else {
      var n := RunLen(cs, 0);
      var linked := cs[0].marks.href != "";
      var next := if linked then st.nextLink + 1 else st.nextLink;
      var run := SetLink(cs[..n], if linked then st.nextLink + 1 else 0);
      var s := st.(cur := st.cur + run, nextLink := next);
      WalkableParts(cs, n, 0, NO_MARKS, r);
      WalkableRun(cs, 0, NO_MARKS, r);
      if linked { LinkTagAllowed(cs, 0, NO_MARKS, r); LinkWalk(cs[..n], depth, st, r); } else { PlainWalk(cs[..n], depth, st, r); }
      WalkLine(cs[n..], depth, s, r);
      WalkForests(Wrap(AtLevel(cs[0].marks, 0), Nest(cs[..n], 1)), Nest(cs[n..], 0), NO_MARKS, 0, depth, st, s, r);
      NestRun(cs, 0);
      RelinkRun(cs, st.nextLink);
      SeqAssoc(st.cur, run, Relink(cs[n..], next));
    }
  }

  lemma {:induction false} NoLine(n: nat)
    ensures Nest([], 0) == [] && Relink([], n) == [] && Counted([], n) == n
  {}

  lemma {:induction false} RelinkBreak(cs: seq<Chunk>, n: nat)
    requires cs != [] && cs[0].Br?
    ensures Relink(cs, n) == [Br] + Relink(cs[1..], n) && Counted(cs, n) == Counted(cs[1..], n)
  {}

  lemma {:induction false} RelinkRun(cs: seq<Chunk>, n: nat)
    requires cs != [] && cs[0].Run?
    ensures var k, next := RunLen(cs, 0), if cs[0].marks.href != "" then n + 1 else n;
            && Relink(cs, n) == SetLink(cs[..k], if cs[0].marks.href != "" then n + 1 else 0) + Relink(cs[k..], next)
            && Counted(cs, n) == Counted(cs[k..], next)
  {}

  // ---- finish leaves the relinked line alone ----

  predicate SameButLink(a: Chunk, b: Chunk) {
    a.Br? == b.Br? && (a.Run? ==> a.text == b.text && a.marks == b.marks)
  }

  predicate SameRuns(a: seq<Chunk>, b: seq<Chunk>) {
    |a| == |b| && forall i :: 0 <= i < |a| ==> SameButLink(a[i], b[i])
  }

  lemma {:induction false} RelinkSame(cs: seq<Chunk>, n: nat)
    ensures SameRuns(cs, Relink(cs, n))
    decreases |cs|
  {
    if cs != [] {
      if cs[0].Br? {
        RelinkSame(cs[1..], n);
      } else {
        var k := RunLen(cs, 0);
        var next := if cs[0].marks.href == "" then n else n + 1;
        RelinkSame(cs[k..], next);
        var out := Relink(cs, n);
        assert out == SetLink(cs[..k], if cs[0].marks.href == "" then 0 else n + 1) + Relink(cs[k..], next);
        forall i | 0 <= i < |cs| ensures SameButLink(cs[i], out[i]) {
          if i >= k { assert SameButLink(cs[k..][i-k], Relink(cs[k..], next)[i-k]); }
        }
      }
    }
  }

  lemma {:induction false} SameCells(a: seq<Chunk>, b: seq<Chunk>)
    requires SameRuns(a, b)
    ensures Bares(Cells(a)) == Bares(Cells(b))
    decreases |a|
  {
    if a != [] {
      var n := |a| - 1;
      SameCells(a[..n], b[..n]);
      assert SameButLink(a[n], b[n]);
      BaresConcat(Cells(a[..n]), ChunkCells(a[n]));
      BaresConcat(Cells(b[..n]), ChunkCells(b[n]));
      assert Bares(ChunkCells(a[n])) == Bares(ChunkCells(b[n]));
    }
  }

  lemma {:induction false} SameCanonical(a: seq<Chunk>, b: seq<Chunk>)
    requires SameRuns(a, b) && Canonical(a)
    ensures Canonical(b)
  {
    forall i | 0 < i < |b| && b[i].Run? && b[i-1].Run? ensures b[i-1].marks != b[i].marks {
      assert SameButLink(a[i], b[i]) && SameButLink(a[i-1], b[i-1]);
    }
    forall i | 0 <= i < |b| && b[i].Run? ensures b[i].text != "" { assert SameButLink(a[i], b[i]); }
  }

  lemma {:induction false} SameRunLen(a: seq<Chunk>, b: seq<Chunk>, k: nat)
    requires SameRuns(a, b) && a != [] && a[0].Run?
    ensures b[0].Run? && RunLen(a, k) == RunLen(b, k)
    decreases |a|
  {
    hide AtLevel;
    assert SameButLink(a[0], b[0]);
    if |a| > 1 {
      assert SameButLink(a[1], b[1]);
      if a[1].Run? { SameRunLen(a[1..], b[1..], k); }
    }
  }

  /** The nested forest does not depend on link numbers. */
  lemma {:induction false} SameNest(a: seq<Chunk>, b: seq<Chunk>, k: nat)
    requires SameRuns(a, b) && k <= 4
    ensures Nest(a, k) == Nest(b, k)
    decreases 4 - k, |a|
  {
    hide AtLevel, Wrap, SameRuns, Nest;
    SameSize(a, b);
    if a == [] {
      assert a == b;
    } else {
      SameTail(a, b, 1);
      if a[0].Br? {
        NestBreak(a, k);
        NestBreak(b, k);
        SameNest(a[1..], b[1..], k);
      } else if k == 4 {
        NestLeaf(a);
        NestLeaf(b);
        SameNest(a[1..], b[1..], k);
      } else {
        NestRun(a, k);
        NestRun(b, k);
        SameRunLen(a, b, k);
        var n := RunLen(a, k);
        SameTail(a, b, n);
        SameNest(a[..n], b[..n], k + 1);
        SameNest(a[n..], b[n..], k);
      }
    }
  }

  lemma {:induction false} SameSize(a: seq<Chunk>, b: seq<Chunk>)
    requires SameRuns(a, b)
    ensures |a| == |b| && (a != [] ==> SameButLink(a[0], b[0]))
  {}

  lemma {:induction false} SameTail(a: seq<Chunk>, b: seq<Chunk>, n: nat)
    requires SameRuns(a, b) && n <= |a|
    ensures SameRuns(a[..n], b[..n]) && SameRuns(a[n..], b[n..])
  {
    forall i | 0 <= i < |a| - n ensures SameButLink(a[n..][i], b[n..][i]) { assert SameButLink(a[n+i], b[n+i]); }
  }

  /** The ink that a link element holds lies in its first run. */
  lemma {:induction false} AheadInRun(cs: seq<Chunk>, i: nat) returns (j: nat)
    requires cs != [] && cs[0].Run? && cs[0].marks.href != "" && i < RunLen(cs, 0) && InkAhead(cs, i, cs[0].marks.href)
    ensures j < RunLen(cs, 0) && !IsSpaceText(cs[j].text)
    decreases |cs| - i
  {
    if !IsSpaceText(cs[i].text) {
      j := i;
    } else {
      Level0Href(cs, i + 1);
      j := AheadInRun(cs, i + 1);
    }
  }

  lemma {:induction false} Level0Href(cs: seq<Chunk>, i: nat)
    requires cs != [] && cs[0].Run? && 0 < i <= RunLen(cs, 0) && i < |cs| && cs[i].Run?
    requires cs[0].marks.href == cs[i].marks.href
    ensures i < RunLen(cs, 0)
  {}

  /** After the first run of one target, or a break, every link element still holds text. */
  lemma {:induction false} TailHoldsText(cs: seq<Chunk>, n: nat)
    requires LinksHoldText(cs) && 0 < n <= |cs|
    requires n < |cs| && cs[n].Run? && cs[n].marks.href != "" ==> LinkStart(cs, n)
    ensures LinksHoldText(cs[n..])
  {
    var t := cs[n..];
    forall i | 0 <= i < |t| && LinkStart(t, i) ensures InkAhead(t, i, t[i].marks.href) {
      assert t[i] == cs[n+i];
      if i > 0 { assert t[i-1] == cs[n+i-1]; }
      assert LinkStart(cs, n + i);
      TailAhead(cs, n, i, t[i].marks.href);
    }
  }

  lemma {:induction false} TailAhead(cs: seq<Chunk>, n: nat, i: nat, h: string)
    requires n <= |cs| && InkAhead(cs, n + i, h)
    ensures InkAhead(cs[n..], i, h)
    decreases |cs| - i
  {
    if IsSpaceText(cs[n+i].text) { TailAhead(cs, n, i + 1, h); }
  }

  /** Each new link number is carried by a run that holds ink. */
  lemma {:induction false} RelinkHoldsInk(cs: seq<Chunk>, n: nat)
    requires LinksHoldText(cs)
    ensures LinksHoldInk(Relink(cs, n))
    decreases |cs|
  {
    hide LinksHoldText;
    if cs != [] {
      var out := Relink(cs, n);
      if cs[0].Br? {
        TailHoldsText(cs, 1);
        RelinkHoldsInk(cs[1..], n);
        HoldsInkAfter([Br], Relink(cs[1..], n));
      } else {
        var k := RunLen(cs, 0);
        var linked := cs[0].marks.href != "";
        var next := if linked then n + 1 else n;
        var run := SetLink(cs[..k], if linked then n + 1 else 0);
        RunStops(cs);
        TailHoldsText(cs, k);
        RelinkHoldsInk(cs[k..], next);
        if linked {
          FirstAhead(cs);
          var j := AheadInRun(cs, 0);
          RunHoldsInk(cs, k, j, n + 1);
        } else {
          RunUnlinked(cs, k);
        }
        HoldsInkAfter(run, Relink(cs[k..], next));
        assert out == run + Relink(cs[k..], next);
      }
    }
  }

  lemma {:induction false} FirstAhead(cs: seq<Chunk>)
    requires cs != [] && LinksHoldText(cs) && cs[0].Run? && cs[0].marks.href != ""
    ensures InkAhead(cs, 0, cs[0].marks.href)
  {
    assert LinkStart(cs, 0);
  }

  lemma {:induction false} RunStops(cs: seq<Chunk>)
    requires cs != [] && cs[0].Run?
    ensures var k := RunLen(cs, 0);
            (forall i :: 0 <= i < k ==> cs[i].marks.href == cs[0].marks.href)
            && (k < |cs| && cs[k].Run? && cs[k].marks.href != "" ==> LinkStart(cs, k))
  {}

  lemma {:induction false} RunHoldsInk(cs: seq<Chunk>, k: nat, j: nat, link: nat)
    requires j < k <= |cs| && cs[0].Run? && cs[0].marks.href != ""
    requires forall i :: 0 <= i < k ==> cs[i].Run? && cs[i].marks.href == cs[0].marks.href
    requires !IsSpaceText(cs[j].text)
    ensures LinksHoldInk(SetLink(cs[..k], link))
  {
    var run := SetLink(cs[..k], link);
    assert HoldsInk(run[j]);
    assert link in InkedLinks(run);
  }

  lemma {:induction false} RunUnlinked(cs: seq<Chunk>, k: nat)
    requires k <= |cs| && forall i :: 0 <= i < k ==> cs[i].Run? && cs[i].marks.href == ""
    ensures LinksHoldInk(SetLink(cs[..k], 0))
  {}

  lemma {:induction false} InkedIn(a: seq<Chunk>, b: seq<Chunk>)
    ensures InkedLinks(a) <= InkedLinks(a + b) && InkedLinks(b) <= InkedLinks(a + b)
  {
    var c := a + b;
    forall l | l in InkedLinks(a) ensures l in InkedLinks(c) {
      var i :| 0 <= i < |a| && HoldsInk(a[i]) && a[i].link == l;
      assert c[i] == a[i];
    }
    forall l | l in InkedLinks(b) ensures l in InkedLinks(c) {
      var i :| 0 <= i < |b| && HoldsInk(b[i]) && b[i].link == l;
      assert c[|a| + i] == b[i];
    }
  }

  lemma {:induction false} HoldsInkAfter(a: seq<Chunk>, b: seq<Chunk>)
    requires LinksHoldInk(a) && LinksHoldInk(b)
    ensures LinksHoldInk(a + b)
  {
    hide InkedLinks;
    InkedIn(a, b);
    var c := a + b;
    forall i | 0 <= i < |c| && c[i].Run? && c[i].marks.href != "" ensures c[i].link in InkedLinks(c) {
      if i < |a| { assert c[i] == a[i]; } else { assert c[i] == b[i - |a|]; }
    }
  }

  /** A good line, printed and walked again, is finished into itself up to link numbers. */
  lemma {:induction false} RelinkFinished(cs: seq<Chunk>, n: nat, r: Rules)
    requires cs != [] && LineInv(cs, r)
    ensures Finished(Relink(cs, n)) == Some(Relink(cs, n)) && Relink(cs, n) != []
    ensures Nest(Relink(cs, n), 0) == Nest(cs, 0)
  {
    hide Canonical, Tidy, Cells, BesideLink, RunsFit, LinksHoldText, LinksHoldInk, Relink;
    var out := Relink(cs, n);
    RelinkSame(cs, n);
    SameCells(cs, out);
    SameCanonical(cs, out);
    BareTidy(Cells(cs), Cells(out));
    BesideHoldsText(cs);
    RelinkHoldsInk(cs, n);
    FinishFixes(out);
    SameBack(cs, out);
    SameNest(out, cs, 0);
  }

  lemma {:induction false} SameBack(a: seq<Chunk>, b: seq<Chunk>)
    requires SameRuns(a, b)
    ensures SameRuns(b, a)
  {
    forall i | 0 <= i < |b| ensures SameButLink(b[i], a[i]) { assert SameButLink(a[i], b[i]); }
  }
}
