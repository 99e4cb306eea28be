// Sanitizing what was sanitized changes nothing: walking the tree of a sanitized document's HTML gives a document
// with the same tree (apps/rich-editor/src/sanitize.ts:251-353, 484-501; the source documents `sanitize` as idempotent).

module SanitizerFix {
  import opened Base
  import opened Chars
  import opened RichModel
  import opened Finish
  import opened Markup
  import opened Printer
  import opened FinishSpec
  import opened LinkLines
  import opened SanitizerModel
  import opened SanitizerLines
  import opened SanitizerInv
  import opened SanitizerWalk
  import opened InlineWalk

  /** The link check returns the targets of a line unchanged. */
  ghost predicate FixedLine(cs: seq<Chunk>, r: Rules) {
    forall i :: 0 <= i < |cs| && LinkedRun(cs[i]) ==> r.clean(cs[i].marks.href) == Some(cs[i].marks.href)
  }

  ghost predicate FixedItems(items: seq<Item>, r: Rules)
    decreases items, 0
  {
    items != [] ==> FixedLine(items[0].inl, r) && FixedSubs(items[0].subs, r) && FixedItems(items[1..], r)
  }

  ghost predicate FixedSubs(subs: seq<List>, r: Rules)
    decreases subs, 0
  {
    subs != [] ==> FixedItems(subs[0].items, r) && FixedSubs(subs[1..], r)
  }

  ghost predicate FixedBlock(b: Block, r: Rules) {
    match b
    case TextBlock(_, inl) => FixedLine(inl, r)
    case Quote(paras) => forall i :: 0 <= i < |paras| ==> FixedLine(paras[i], r)
    case ListBlock(l) => FixedItems(l.items, r)
  }

  ghost predicate FixedDoc(d: Doc, r: Rules) {
    forall i :: 0 <= i < |d| ==> FixedBlock(d[i], r)
  }

  // ---- states at rest ----

  /** Nothing is pending. */
  predicate AtRest(st: State) { st.cur == [] && st.curKind == P }

  lemma {:induction false} FlushAtRest(st: State)
    requires AtRest(st)
    ensures Flush(st) == st
  {
    assert Finished([]) == None;
  }

  lemma {:induction false} LineWalkable(cs: seq<Chunk>, r: Rules)
    requires LineInv(cs, r) && FixedLine(cs, r)
    ensures Walkable(cs, 0, NO_MARKS, r)
  {
    hide Tidy, BesideLink, MarksFit, AllowedText;
    forall i | 0 <= i < |cs| && cs[i].Run? ensures AllowedText(cs[i].text) && MarksFit(cs[i].marks, r) && KeepMarks(cs[i].marks, 0) == NO_MARKS {
      assert RunFit(cs[i], r);
    }
  }

  /** A printed line, walked at rest and flushed: the line with new link numbers goes into the open container. */
  lemma {:induction false} LineFlushed(cs: seq<Chunk>, depth: nat, st: State, kind: TextKind, r: Rules)
    requires cs != [] && LineInv(cs, r) && FixedLine(cs, r) && depth + 4 <= MAX_DEPTH && st.cur == [] && st.curKind == kind
    ensures var w := WalkAll(ToDoms(Nest(cs, 0)), NO_MARKS, 0, depth, st, r);
            && w.Some?
            && Flush(w.value) == State(Deposit(st.root, TopOf(st), kind, Relink(cs, st.nextLink)), st.stack, [], P,
                                       Counted(cs, st.nextLink))
  {
    hide LineInv, FixedLine, WalkAll, Deposit, Relink, Finished, Walkable, Counted, ToDoms, Nest;
    LineWalkable(cs, r);
    WalkLine(cs, depth, st, r);
    RelinkFinished(cs, st.nextLink, r);
    assert st.cur + Relink(cs, st.nextLink) == Relink(cs, st.nextLink);
  }

  /** A block element that only ends the paragraph before it. */
  lemma {:induction false} ParagraphWalk(tag: string, kids: seq<Node>, depth: nat, st: State, s: State, r: Rules)
    requires tag == "p" && AtRest(st) && depth <= MAX_DEPTH
    requires WalkAll(ToDoms(kids), NO_MARKS, 0, depth + 1, st, r) == Some(s)
    ensures Walk(ToDom(Elem(tag, None, kids)), NO_MARKS, 0, depth, st, r) == Some(Flush(s))
  {
    hide WalkAll, Walk, ToDoms, ToDom, Flush, DROP_TAGS, BOUNDARY_TAGS;
    PIsBlock();
    PStays();
    FlushAtRest(st);
    ElementWalk(Elem(tag, None, kids), NO_MARKS, 0, depth, st, r);
    assert Enter(tag, None, NO_MARKS, 0, st, r) == Plan(st, NO_MARKS, 0, true, false) by { hide OpenQuote, OpenList, OpenItem; }
  }

  lemma {:induction false} HeadingWalk(kind: TextKind, kids: seq<Node>, depth: nat, st: State, s: State, r: Rules)
    requires kind != P && "h3" in r.tags && AtRest(st) && TopOf(st) == AtRoot && depth <= MAX_DEPTH
    requires WalkAll(ToDoms(kids), NO_MARKS, 0, depth + 1, st.(curKind := kind), r) == Some(s)
    ensures Walk(ToDom(Elem(KindTag(kind), None, kids)), NO_MARKS, 0, depth, st, r) == Some(Flush(s))
  {
    hide WalkAll, Walk, ToDoms, ToDom, Flush, BOUNDARY_TAGS;
    FlushAtRest(st);
    ElementWalk(Elem(KindTag(kind), None, kids), NO_MARKS, 0, depth, st, r);
    var tag := KindTag(kind);
    assert IsHeading(tag) && HeadingKind(tag) == kind;
    assert Enter(tag, None, NO_MARKS, 0, st, r) == Plan(st.(curKind := kind), NO_MARKS, 0, true, false) by { hide OpenQuote, OpenList, OpenItem; }
  }

  // ---- quotes ----

  lemma {:induction false} ParasWalk(ps: seq<seq<Chunk>>, b: nat, depth: nat, st: State, r: Rules) returns (ps': seq<seq<Chunk>>, n: nat)
    requires AtRest(st) && depth + 5 <= MAX_DEPTH && TopOf(st) == AtQuote(b) && b < |st.root| && st.root[b].Quote?
    requires forall i :: 0 <= i < |ps| ==> ps[i] != [] && LineInv(ps[i], r) && FixedLine(ps[i], r)
    ensures WalkAll(ToDoms(ParaTrees(ps)), NO_MARKS, 0, depth, st, r)
         == Some(st.(root := st.root[b := Quote(st.root[b].paras + ps')], nextLink := n))
    ensures ParaTrees(ps') == ParaTrees(ps) && |ps'| == |ps|
    decreases |ps|
  {
    hide LineInv, FixedLine, WalkAll, Walk, ToDoms, ToDom, Flush, Nest, Relink, Counted, ParaTrees;
    if ps == [] {
      ps', n := [], st.nextLink;
      WalkNothing(NO_MARKS, 0, depth, st, r);
      QuoteSame(st.root, b);
      NoParas();
    } else {
      var p := Relink(ps[0], st.nextLink);
      LineFlushed(ps[0], depth + 1, st, P, r);
      RelinkFinished(ps[0], st.nextLink, r);
      var w := WalkAll(ToDoms(Nest(ps[0], 0)), NO_MARKS, 0, depth + 1, st, r).value;
      var s := Flush(w);
      ParagraphWalk("p", Nest(ps[0], 0), depth, st, w, r);
      WalkOne(Elem("p", None, Nest(ps[0], 0)), NO_MARKS, 0, depth, st, r);
      var rest;
      rest, n := ParasWalk(ps[1..], b, depth, s, r);
      ps' := [p] + rest;
      WalkForests([Elem("p", None, Nest(ps[0], 0))], ParaTrees(ps[1..]), NO_MARKS, 0, depth, st, s, r);
      ParaTreesHead(ps, ps', rest);
      QuoteTwice(st.root, b, p, rest);
    }
  }

  lemma {:induction false} NoParas()
    ensures ParaTrees([]) == []
  {}

  lemma {:induction false} ParaTreesHead(ps: seq<seq<Chunk>>, ps': seq<seq<Chunk>>, rest: seq<seq<Chunk>>)
    requires ps != [] && ps' != [] && ps'[1..] == rest && Nest(ps'[0], 0) == Nest(ps[0], 0)
    requires ParaTrees(rest) == ParaTrees(ps[1..])
    ensures ParaTrees(ps) == [Elem("p", None, Nest(ps[0], 0))] + ParaTrees(ps[1..])
    ensures ParaTrees(ps') == ParaTrees(ps)
  {}

  lemma {:induction false} QuoteSame(root: Doc, b: nat)
    requires b < |root| && root[b].Quote?
    ensures root[b := Quote(root[b].paras + [])] == root
  {
    assert root[b].paras + [] == root[b].paras;
  }

  lemma {:induction false} QuoteTwice(root: Doc, b: nat, p: seq<Chunk>, rest: seq<seq<Chunk>>)
    requires b < |root| && root[b].Quote?
    ensures var one := root[b := Quote(root[b].paras + [p])];
            one[b := Quote(one[b].paras + rest)] == root[b := Quote(root[b].paras + ([p] + rest))]
  {
    assert (root[b].paras + [p]) + rest == root[b].paras + ([p] + rest);
  }

  lemma {:induction false} QuoteWalk(ps: seq<seq<Chunk>>, depth: nat, st: State, r: Rules) returns (ps': seq<seq<Chunk>>, n: nat)
    requires AtRest(st) && depth + 6 <= MAX_DEPTH && TopOf(st) == AtRoot && "blockquote" in r.tags && st.stack != []
    requires forall i :: 0 <= i < |ps| ==> ps[i] != [] && LineInv(ps[i], r) && FixedLine(ps[i], r)
    ensures Walk(ToDom(Elem("blockquote", None, ParaTrees(ps))), NO_MARKS, 0, depth, st, r)
         == Some(st.(root := st.root + [Quote(ps')], nextLink := n))
    ensures ParaTrees(ps') == ParaTrees(ps) && |ps'| == |ps|
  {
    hide LineInv, FixedLine, WalkAll, Walk, ToDoms, ToDom, Flush, ParaTrees, BOUNDARY_TAGS;
    FlushAtRest(st);
    var b := |st.root|;
    var st1 := PushOn(st, st.root + [Quote([])], AtQuote(b));
    ps', n := ParasWalk(ps, b, depth + 1, st1, r);
    ElementWalk(Elem("blockquote", None, ParaTrees(ps)), NO_MARKS, 0, depth, st, r);
    assert Enter("blockquote", None, NO_MARKS, 0, st, r) == Plan(st1, NO_MARKS, 0, true, true) by { hide OpenList, OpenItem; }
    var s := st1.(root := st1.root[b := Quote([] + ps')], nextLink := n);
    assert [] + ps' == ps';
    assert st1.root[b := Quote(ps')] == st.root + [Quote(ps')];
    FlushAtRest(s);
    assert s.stack[..|s.stack|-1] == st.stack;
  }

  // ---- list objects written twice ----

  lemma {:induction false} SetTwice(root: Doc, path: ListPath, a: List, b: List)
    requires HasList(root, path)
    ensures SetList(SetList(root, path, a), path, b) == SetList(root, path, b)
  {
    match path
    case InBlock(k) =>
    case Below(p, i, s) =>
      var o := ListAt(root, p);
      var a' := SetItem(o, i, SetSub(o.items[i], s, a));
      SetThenAt(root, p, a');
      SetTwice(root, p, a', SetItem(o, i, SetSub(o.items[i], s, b)));
      assert SetSub(SetSub(o.items[i], s, a), s, b) == SetSub(o.items[i], s, b);
      assert SetItem(a', i, SetSub(a'.items[i], s, b)) == SetItem(o, i, SetSub(o.items[i], s, b));
  }

  lemma {:induction false} SetSame(root: Doc, path: ListPath)
    requires HasList(root, path)
    ensures SetList(root, path, ListAt(root, path)) == root
  {
    match path
    case InBlock(b) =>
    case Below(p, i, s) =>
      var o := ListAt(root, p);
      assert o.items[i].subs[s := o.items[i].subs[s]] == o.items[i].subs;
      assert SetSub(o.items[i], s, o.items[i].subs[s]) == o.items[i];
      assert o.items[i := o.items[i]] == o.items;
      SetSame(root, p);
  }

  // ---- empty items and lists print nothing ----

  lemma {:induction false} EmptyNest(cs: seq<Chunk>, k: nat)
    requires k <= 4
    ensures Nest(cs, k) == [] <==> cs == []
    decreases 4 - k, |cs|
  {
    hide AtLevel;
    if cs != [] && cs[0].Run? && k < 4 { EmptyNest(cs[..RunLen(cs, k)], k + 1); }
  }

  lemma {:induction false} EmptyItem(it: Item)
    ensures ItemEmpty(it) <==> Nest(it.inl, 0) == [] && SubTrees(it.subs) == []
    decreases it, 1
  {
    EmptyNest(it.inl, 0);
    EmptySubs(it.subs);
  }

  lemma {:induction false} EmptySubs(subs: seq<List>)
    ensures SubTrees(subs) == [] <==> forall s | s in subs :: ListEmpty(s)
    decreases subs, 0
  {
    if subs != [] {
      EmptyList(subs[0]);
      EmptySubs(subs[1..]);
      assert forall s :: s in subs <==> s == subs[0] || s in subs[1..];
    }
  }

  lemma {:induction false} EmptyList(l: List)
    ensures ListEmpty(l) <==> ItemTrees(l.items) == []
    decreases l, 1
  {
    EmptyItems(l.items);
  }

  lemma {:induction false} EmptyItems(items: seq<Item>)
    ensures ItemTrees(items) == [] <==> forall it | it in items :: ItemEmpty(it)
    decreases items, 0
  {
    if items != [] {
      EmptyItem(items[0]);
      EmptyItems(items[1..]);
      assert forall it :: it in items <==> it == items[0] || it in items[1..];
    }
  }

  /** Lists with the same item trees print the same. */
  lemma {:induction false} SameListTree(ordered: bool, a: seq<Item>, b: seq<Item>)
    requires ItemTrees(a) == ItemTrees(b)
    ensures ListTree(List(ordered, a)) == ListTree(List(ordered, b))
  {
    EmptyList(List(ordered, a));
    EmptyList(List(ordered, b));
  }

  lemma {:induction false} SameItemTree(a: Item, b: Item)
    requires Nest(a.inl, 0) == Nest(b.inl, 0) && SubTrees(a.subs) == SubTrees(b.subs)
    ensures ItemTree(a) == ItemTree(b)
  {
    EmptyItem(a);
    EmptyItem(b);
  }

  // ---- lists ----

  function AddItems(l: List, items: seq<Item>): List {
    l.(items := l.items + items)
  }

  /** Where a printed list may be walked: nothing pending, in its list, and shallow enough for `k` levels. */
  predicate InListAt(st: State, path: ListPath, k: nat, r: Rules) {
    && AtRest(st) && st.stack != [] && TopOf(st).AtList? && TopOf(st).path == path && HasList(st.root, path)
    && "ul" in r.tags && QuoteDepth(st.stack) == 0 && ListDepth(st.stack) + k <= 3
  }

  predicate InItemAt(st: State, path: ListPath, i: nat, k: nat, r: Rules) {
    && AtRest(st) && st.stack != [] && TopOf(st) == AtItem(path, i)
    && HasList(st.root, path) && i < |ListAt(st.root, path).items|
    && "ul" in r.tags && QuoteDepth(st.stack) == 0 && ListDepth(st.stack) + k <= 2
  }

  /** The item that a printed item opens. */
  function WithItem(st: State, path: ListPath): State {
    PushOn(st, SetList(st.root, path, AddItems(ListAt(st.root, path), [Item([], [])])), AtItem(path, |ListAt(st.root, path).items|))
  }

  lemma {:induction false} StackDepths(stack: seq<Container>, c: Container)
    ensures QuoteDepth(stack + [c]) == QuoteDepth(stack) + (if c.AtQuote? then 1 else 0)
    ensures ListDepth(stack + [c]) == ListDepth(stack) + (if c.AtList? && !c.alias then 1 else 0)
  {
    assert (stack + [c])[..|stack|] == stack;
  }

  /** The list at `path` with its last item replaced. */
  lemma {:induction false} LastItemSet(root: Doc, path: ListPath, a: Item, b: Item)
    requires HasList(root, path)
    ensures var l := ListAt(root, path); var root1 := SetList(root, path, AddItems(l, [a]));
            && HasList(root1, path) && ListAt(root1, path) == AddItems(l, [a])
            && SetList(root1, path, SetItem(ListAt(root1, path), |l.items|, b)) == SetList(root, path, AddItems(l, [b]))
  {
    var l := ListAt(root, path);
    SetThenAt(root, path, AddItems(l, [a]));
    SetTwice(root, path, AddItems(l, [a]), AddItems(l, [b]));
    assert (l.items + [a])[|l.items| := b] == l.items + [b];
  }

  /** The state after an item was opened and its own text was put into it. */
  function Filled(st: State, path: ListPath, inl: seq<Chunk>, n: nat): State {
    State(SetList(st.root, path, AddItems(ListAt(st.root, path), [Item(inl, [])])),
          st.stack + [AtItem(path, |ListAt(st.root, path).items|)], [], P, n)
  }

  lemma {:induction false} ItemText(inl: seq<Chunk>, path: ListPath, depth: nat, st: State, r: Rules) returns (inl': seq<Chunk>, n: nat)
    requires AtRest(st) && HasList(st.root, path) && LineInv(inl, r) && FixedLine(inl, r) && depth + 4 <= MAX_DEPTH
    ensures var w := WalkAll(ToDoms(Nest(inl, 0)), NO_MARKS, 0, depth, WithItem(st, path), r);
            w.Some? && Flush(w.value) == Filled(st, path, inl', n)
    ensures Nest(inl', 0) == Nest(inl, 0)
  {
    hide LineInv, FixedLine, WalkAll, ToDoms, Relink, Counted, Flush, SetList, ListAt;
    var st1 := WithItem(st, path);
    if inl == [] {
      inl', n := [], st.nextLink;
      EmptyNest([], 0);
      WalkNothing(NO_MARKS, 0, depth, st1, r);
      FlushAtRest(st1);
    } else {
      inl', n := Relink(inl, st1.nextLink), Counted(inl, st1.nextLink);
      LineFlushed(inl, depth, st1, P, r);
      RelinkFinished(inl, st1.nextLink, r);
      LastItemSet(st.root, path, Item([], []), Item(inl', []));
      assert Join(Item([], []), inl') == Item(inl', []) by { assert [] + inl' == inl'; }
    }
  }

  /** A list element flushes first: what is pending before it may as well be flushed already. */
  lemma {:induction false} FlushFirst(subs: seq<List>, depth: nat, st: State, r: Rules)
    requires SubTrees(subs) != []
    ensures WalkAll(ToDoms(SubTrees(subs)), NO_MARKS, 0, depth, st, r)
         == WalkAll(ToDoms(SubTrees(subs)), NO_MARKS, 0, depth, Flush(st), r)
  {
    var f := SubTrees(subs);
    FirstIsList(subs);
    hide SubTrees, Flush, Walk, ToDom;
    ListFlushes(f[0], depth, st, r);
    assert ToDoms(f) == [ToDom(f[0])] + ToDoms(f[1..]);
  }

  lemma {:induction false} ListFlushes(e: Node, depth: nat, st: State, r: Rules)
    requires e.Elem? && (e.tag == "ul" || e.tag == "ol")
    ensures Walk(ToDom(e), NO_MARKS, 0, depth, st, r) == Walk(ToDom(e), NO_MARKS, 0, depth, Flush(st), r)
  {
    hide Flush, OpenList, Leave, OpenQuote, OpenItem, ToDoms, WalkAll, BOUNDARY_TAGS;
    AfterFlush(st);
    FlushAtRest(Flush(st));
    if depth <= MAX_DEPTH {
      ElementWalk(e, NO_MARKS, 0, depth, st, r);
      ElementWalk(e, NO_MARKS, 0, depth, Flush(st), r);
      hide Walk;
      assert Enter(e.tag, e.href, NO_MARKS, 0, st, r) == Enter(e.tag, e.href, NO_MARKS, 0, Flush(st), r);
    }
  }

  lemma {:induction false} AfterFlush(st: State)
    ensures AtRest(Flush(st))
  {}

  lemma {:induction false} FirstIsList(subs: seq<List>)
    requires SubTrees(subs) != []
    ensures var e := SubTrees(subs)[0]; e.Elem? && (e.tag == "ul" || e.tag == "ol") && e.href == None
    decreases |subs|
  {
    if ListTree(subs[0]) == [] { FirstIsList(subs[1..]); }
  }

  lemma {:induction false} ItemPlan(st: State, path: ListPath, k: nat, r: Rules)
    requires InListAt(st, path, k, r)
    ensures Enter("li", None, NO_MARKS, 0, st, r) == Plan(WithItem(st, path), NO_MARKS, 0, true, true)
  {
    hide OpenQuote, OpenList, ListDepth, QuoteDepth, SetList;
    FlushAtRest(st);
  }

  lemma {:induction false} SubsFlushed(subs: seq<List>, depth: nat, w: State, s: State, end: State, r: Rules)
    requires Flush(w) == s && Flush(end) == end
    requires WalkAll(ToDoms(SubTrees(subs)), NO_MARKS, 0, depth, s, r) == Some(end)
    ensures var v := WalkAll(ToDoms(SubTrees(subs)), NO_MARKS, 0, depth, w, r);
            v.Some? && Flush(v.value) == end
  {
    hide WalkAll, ToDoms, SubTrees, Flush;
    if SubTrees(subs) == [] {
      WalkNothing(NO_MARKS, 0, depth, s, r);
      WalkNothing(NO_MARKS, 0, depth, w, r);
    } else {
      FlushFirst(subs, depth, w, r);
    }
  }

  /** Leaving a printed item: its plan flushes and pops one container. */
  lemma {:induction false} ItemLeft(kids: seq<Node>, k: nat, path: ListPath, depth: nat, st: State, end: State, r: Rules)
    requires InListAt(st, path, k, r) && depth <= MAX_DEPTH && AtRest(end)
    requires |end.stack| == |st.stack| + 1 && end.stack[..|end.stack|-1] == st.stack
    requires var v := WalkAll(ToDoms(kids), NO_MARKS, 0, depth + 1, WithItem(st, path), r); v.Some? && Flush(v.value) == end
    ensures Walk(ToDom(Elem("li", None, kids)), NO_MARKS, 0, depth, st, r) == Some(end.(stack := st.stack))
  {
    hide WalkAll, ToDoms, Enter, Flush, Walk, ToDom, InListAt, WithItem;
    ItemPlan(st, path, k, r);
    ElementWalk(Elem("li", None, kids), NO_MARKS, 0, depth, st, r);
  }

  lemma {:induction false} FilledItem(inl: seq<Chunk>, n: nat, k: nat, path: ListPath, st: State, r: Rules)
    requires InListAt(st, path, k + 1, r)
    ensures var i := |ListAt(st.root, path).items|; var s := Filled(st, path, inl, n);
            && InItemAt(s, path, i, k, r) && ListAt(s.root, path) == AddItems(ListAt(st.root, path), [Item(inl, [])])
            && s.stack[..|s.stack|-1] == st.stack
  {
    hide QuoteDepth, ListDepth, SetList, ListAt, HasList;
    var i := |ListAt(st.root, path).items|;
    LastItemSet(st.root, path, Item(inl, []), Item(inl, []));
    StackDepths(st.stack, AtItem(path, i));
  }

  /** The subs of the item just filled complete it. */
  lemma {:induction false} ItemSubs(it: Item, inl': seq<Chunk>, m: nat, k: nat, path: ListPath, depth: nat, st: State, r: Rules)
    returns (it': Item, n: nat)
    requires InListAt(st, path, k + 1, r) && ItemInv(it, k, r) && FixedSubs(it.subs, r)
    requires depth + 2 * k + 5 <= MAX_DEPTH && !ItemEmpty(it)
    requires Nest(inl', 0) == Nest(it.inl, 0)
    ensures WalkAll(ToDoms(SubTrees(it.subs)), NO_MARKS, 0, depth, Filled(st, path, inl', m), r)
         == Some(Filled(st, path, inl', m).(root := SetList(st.root, path, AddItems(ListAt(st.root, path), [it'])), nextLink := n))
    ensures ItemTree(it') == ItemTree(it)
    decreases it, 1
  {
    hide LineInv, FixedLine, WalkAll, ToDoms, ToDom, SetList, ListAt, SubTrees, ItemEmpty, ItemTree, ListInv, InListAt, InItemAt, Nest;
    var i := |ListAt(st.root, path).items|;
    var s2 := Filled(st, path, inl', m);
    FilledItem(inl', m, k, path, st, r);
    var subs';
    subs', n := SubsWalk(it.subs, k, path, i, depth, s2, r);
    it' := Item(inl', subs');
    HasListAt(st, path, k + 1, r);
    LastItemSet(st.root, path, Item(inl', []), it');
    assert [] + subs' == subs';
    SameItemTree(it', it);
  }

  lemma {:induction false} HasListAt(st: State, path: ListPath, k: nat, r: Rules)
    requires InListAt(st, path, k, r)
    ensures HasList(st.root, path)
  {}

  lemma {:induction false} ItemWalk(it: Item, k: nat, path: ListPath, depth: nat, st: State, r: Rules) returns (it': Item, n: nat)
    requires InListAt(st, path, k + 1, r) && ItemInv(it, k, r) && FixedLine(it.inl, r) && FixedSubs(it.subs, r)
    requires depth + 2 * k + 6 <= MAX_DEPTH && !ItemEmpty(it)
    ensures Walk(ToDom(Elem("li", None, Nest(it.inl, 0) + SubTrees(it.subs))), NO_MARKS, 0, depth, st, r)
         == Some(st.(root := SetList(st.root, path, AddItems(ListAt(st.root, path), [it'])), nextLink := n))
    ensures ItemTree(it') == ItemTree(it)
    decreases it, 2
  {
    hide LineInv, FixedLine, WalkAll, Walk, ToDoms, ToDom, Flush, SetList, ListAt, SubTrees, Nest, ItemEmpty, ItemTree, ListInv, FixedSubs;
    var kids := Nest(it.inl, 0) + SubTrees(it.subs);
    var st1 := WithItem(st, path);
    var inl', m := ItemText(it.inl, path, depth + 1, st, r);
    var w := WalkAll(ToDoms(Nest(it.inl, 0)), NO_MARKS, 0, depth + 1, st1, r).value;
    var s2 := Filled(st, path, inl', m);
    it', n := ItemSubs(it, inl', m, k, path, depth + 1, st, r);
    var s3 := s2.(root := SetList(st.root, path, AddItems(ListAt(st.root, path), [it'])), nextLink := n);
    hide InListAt, WithItem, ItemInv;
    WalkForests(Nest(it.inl, 0), SubTrees(it.subs), NO_MARKS, 0, depth + 1, st1, w, r);
    FlushAtRest(s3);
    SubsFlushed(it.subs, depth + 1, w, s2, s3, r);
    FilledItem(inl', m, k, path, st, r);
    ItemLeft(kids, k + 1, path, depth, st, s3, r);
  }

  lemma {:induction false} ItemAdded(it: Item, n: nat, st: State, path: ListPath, k: nat, r: Rules)
    requires InListAt(st, path, k, r)
    ensures var l := ListAt(st.root, path); var s := st.(root := SetList(st.root, path, AddItems(l, [it])), nextLink := n);
            InListAt(s, path, k, r) && ListAt(s.root, path) == AddItems(l, [it])
  {
    hide QuoteDepth, ListDepth, SetList, ListAt, HasList;
    SetThenAt(st.root, path, AddItems(ListAt(st.root, path), [it]));
  }

  lemma {:induction false} ItemsWalk(items: seq<Item>, k: nat, path: ListPath, depth: nat, st: State, r: Rules) returns (items': seq<Item>, n: nat)
    requires k > 0 && InListAt(st, path, k, r) && FixedItems(items, r) && forall i :: 0 <= i < |items| ==> ItemInv(items[i], k - 1, r)
    requires depth + 2 * k + 4 <= MAX_DEPTH
    ensures WalkAll(ToDoms(ItemTrees(items)), NO_MARKS, 0, depth, st, r)
         == Some(st.(root := SetList(st.root, path, AddItems(ListAt(st.root, path), items')), nextLink := n))
    ensures ItemTrees(items') == ItemTrees(items)
    decreases items, 0
  {
    hide LineInv, FixedLine, WalkAll, Walk, ToDoms, ToDom, SetList, ListAt, InListAt, HasList, ItemInv, ItemTree;
    var l := ListAt(st.root, path);
    if items == [] {
      items', n := [], st.nextLink;
      HasListAt(st, path, k, r);
      WalkNothing(NO_MARKS, 0, depth, st, r);
      assert AddItems(l, []) == l;
      SetSame(st.root, path);
    } else if ItemEmpty(items[0]) {
      items', n := ItemsWalk(items[1..], k, path, depth, st, r);
      EmptyItemTree(items[0]);
      assert [] + ItemTrees(items[1..]) == ItemTrees(items[1..]);
    } else {
      var it', m := ItemWalk(items[0], k - 1, path, depth, st, r);
      var s := st.(root := SetList(st.root, path, AddItems(l, [it'])), nextLink := m);
      ItemAdded(it', m, st, path, k, r);
      HasListAt(st, path, k, r);
      WalkOne(Elem("li", None, Nest(items[0].inl, 0) + SubTrees(items[0].subs)), NO_MARKS, 0, depth, st, r);
      FullItemTree(items[0]);
      var rest;
      rest, n := ItemsWalk(items[1..], k, path, depth, s, r);
      items' := [it'] + rest;
      WalkForests(ItemTree(items[0]), ItemTrees(items[1..]), NO_MARKS, 0, depth, st, s, r);
      assert items'[1..] == rest;
      SeqAssoc(l.items, [it'], rest);
      SetTwice(st.root, path, AddItems(l, [it']), AddItems(l, items'));
    }
  }

  lemma {:induction false} EmptyItemTree(it: Item)
    requires ItemEmpty(it)
    ensures ItemTree(it) == []
  {}

  lemma {:induction false} FullItemTree(it: Item)
    requires !ItemEmpty(it)
    ensures ItemTree(it) == [Elem("li", None, Nest(it.inl, 0) + SubTrees(it.subs))]
  {}

  /** The list that a printed sublist opens. */
  function WithSub(st: State, path: ListPath, i: nat, ordered: bool): State {
    var l := ListAt(st.root, path);
    if i < |l.items| then
      PushOn(st, SetList(st.root, path, SetItem(l, i, AddSub(l.items[i], List(ordered, [])))),
             AtList(Below(path, i, |l.items[i].subs|), false))
    else st
  }

  function AddSub(it: Item, l: List): Item {
    it.(subs := it.subs + [l])
  }

  lemma {:induction false} SubPlan(ordered: bool, path: ListPath, i: nat, k: nat, st: State, r: Rules)
    requires InItemAt(st, path, i, k, r) && k > 0
    ensures Enter(ListTag(ordered), None, NO_MARKS, 0, st, r) == Plan(WithSub(st, path, i, ordered), NO_MARKS, 0, true, true)
  {
    hide OpenQuote, OpenItem, ListDepth, QuoteDepth, SetList, ListAt, BOUNDARY_TAGS;
    FlushAtRest(st);
  }

  /** What the new sublist's path names, and how filling it changes the item. */
  lemma {:induction false} SubSet(st: State, path: ListPath, i: nat, ordered: bool, items: seq<Item>)
    requires HasList(st.root, path) && i < |ListAt(st.root, path).items|
    ensures var l := ListAt(st.root, path); var it := l.items[i]; var st1 := WithSub(st, path, i, ordered);
            var p2 := Below(path, i, |it.subs|);
            && HasList(st1.root, p2) && ListAt(st1.root, p2) == List(ordered, [])
            && SetList(st1.root, p2, List(ordered, items)) == SetList(st.root, path, SetItem(l, i, AddSub(it, List(ordered, items))))
  {
    var l := ListAt(st.root, path);
    var it := l.items[i];
    var a := SetItem(l, i, AddSub(it, List(ordered, [])));
    SetThenAt(st.root, path, a);
    var b := SetItem(l, i, AddSub(it, List(ordered, items)));
    SetTwice(st.root, path, a, b);
    assert SetSub(a.items[i], |it.subs|, List(ordered, items)) == AddSub(it, List(ordered, items)) by {
      assert (it.subs + [List(ordered, [])])[|it.subs| := List(ordered, items)] == it.subs + [List(ordered, items)];
    }
    assert SetItem(a, i, AddSub(it, List(ordered, items))) == b;
  }

  lemma {:induction false} SubWalk(s: List, k: nat, path: ListPath, i: nat, depth: nat, st: State, r: Rules) returns (items: seq<Item>, n: nat)
    requires InItemAt(st, path, i, k, r) && ListInv(s, k, r) && FixedItems(s.items, r) && depth + 2 * k + 5 <= MAX_DEPTH
    ensures Walk(ToDom(Elem(ListTag(s.ordered), None, ItemTrees(s.items))), NO_MARKS, 0, depth, st, r)
         == Some(st.(root := SetList(st.root, path, SetItem(ListAt(st.root, path), i,
                                       AddSub(ListAt(st.root, path).items[i], List(s.ordered, items)))), nextLink := n))
    ensures ItemTrees(items) == ItemTrees(s.items)
    decreases s, 0
  {
    hide FixedItems, WalkAll, Walk, ToDoms, ToDom, Flush, SetList, ListAt, QuoteDepth, ListDepth, ItemTrees, Enter, ItemInv, HasList;
    var l := ListAt(st.root, path);
    var st1 := WithSub(st, path, i, s.ordered);
    var p2 := Below(path, i, |l.items[i].subs|);
    SubPlan(s.ordered, path, i, k, st, r);
    SubSet(st, path, i, s.ordered, []);
    StackDepths(st.stack, AtList(p2, false));
    items, n := ItemsWalk(s.items, k, p2, depth + 1, st1, r);
    SubSet(st, path, i, s.ordered, items);
    assert AddItems(List(s.ordered, []), items) == List(s.ordered, items) by { assert [] + items == items; }
    var s2 := st1.(root := SetList(st.root, path, SetItem(l, i, AddSub(l.items[i], List(s.ordered, items)))), nextLink := n);
    FlushAtRest(s2);
    ListTagFree(s.ordered);
    ElementWalk(Elem(ListTag(s.ordered), None, ItemTrees(s.items)), NO_MARKS, 0, depth, st, r);
    assert s2.stack[..|s2.stack|-1] == st.stack;
  }

  lemma {:induction false} ListTagFree(ordered: bool)
    ensures ListTag(ordered) !in DROP_TAGS && ListTag(ordered) != "br"
  {}

  lemma {:induction false} SubsWalk(subs: seq<List>, k: nat, path: ListPath, i: nat, depth: nat, st: State, r: Rules) returns (subs': seq<List>, n: nat)
    requires InItemAt(st, path, i, k, r) && FixedSubs(subs, r) && (forall j :: 0 <= j < |subs| ==> ListInv(subs[j], k, r))
    requires depth + 2 * k + 5 <= MAX_DEPTH
    ensures WalkAll(ToDoms(SubTrees(subs)), NO_MARKS, 0, depth, st, r)
         == Some(st.(root := SetList(st.root, path, SetItem(ListAt(st.root, path), i, MoreSubs(ListAt(st.root, path).items[i], subs'))),
                     nextLink := n))
    ensures SubTrees(subs') == SubTrees(subs)
    decreases subs, 0
  {
    hide FixedItems, WalkAll, Walk, ToDoms, ToDom, SetList, ListAt, QuoteDepth, ListDepth, ListInv, ListTree, HasList;
    var l := ListAt(st.root, path);
    var it := l.items[i];
    if subs == [] {
      subs', n := [], st.nextLink;
      WalkNothing(NO_MARKS, 0, depth, st, r);
      assert it.subs + [] == it.subs && l.items[i := it] == l.items;
      SetSame(st.root, path);
    } else if ListEmpty(subs[0]) {
      subs', n := SubsWalk(subs[1..], k, path, i, depth, st, r);
      EmptyListTree(subs[0]);
      assert [] + SubTrees(subs[1..]) == SubTrees(subs[1..]);
    } else {
      var items, m := SubWalk(subs[0], k, path, i, depth, st, r);
      var s0 := List(subs[0].ordered, items);
      var s := st.(root := SetList(st.root, path, SetItem(l, i, AddSub(it, s0))), nextLink := m);
      FullListTree(subs[0]);
      WalkOne(Elem(ListTag(subs[0].ordered), None, ItemTrees(subs[0].items)), NO_MARKS, 0, depth, st, r);
      SetThenAt(st.root, path, SetItem(l, i, AddSub(it, s0)));
      var rest;
      rest, n := SubsWalk(subs[1..], k, path, i, depth, s, r);
      subs' := [s0] + rest;
      WalkForests(ListTree(subs[0]), SubTrees(subs[1..]), NO_MARKS, 0, depth, st, s, r);
      assert subs'[1..] == rest;
      SameListTree(subs[0].ordered, items, subs[0].items);
      assert List(subs[0].ordered, subs[0].items) == subs[0];
      MoreSubsTwice(l, i, s0, rest);
      SetTwice(st.root, path, SetItem(l, i, AddSub(it, s0)), SetItem(l, i, MoreSubs(it, subs')));
    }
  }

  function MoreSubs(it: Item, subs: seq<List>): Item {
    it.(subs := it.subs + subs)
  }

  lemma {:induction false} MoreSubsTwice(l: List, i: nat, s: List, rest: seq<List>)
    requires i < |l.items|
    ensures var a := SetItem(l, i, AddSub(l.items[i], s));
            i < |a.items| && SetItem(a, i, MoreSubs(a.items[i], rest)) == SetItem(l, i, MoreSubs(l.items[i], [s] + rest))
  {
    assert (l.items[i].subs + [s]) + rest == l.items[i].subs + ([s] + rest);
    var x := MoreSubs(l.items[i], [s] + rest);
    assert l.items[i := AddSub(l.items[i], s)][i := x] == l.items[i := x];
  }

  lemma {:induction false} EmptyListTree(l: List)
    requires ListEmpty(l)
    ensures ListTree(l) == []
  {}

  lemma {:induction false} FullListTree(l: List)
    requires !ListEmpty(l)
    ensures ListTree(l) == [Elem(ListTag(l.ordered), None, ItemTrees(l.items))]
  {}

  // ---- blocks and documents ----

  /** The state between two blocks of a printed document. */
  predicate BetweenBlocks(st: State) {
    AtRest(st) && st.stack == [AtRoot]
  }

  lemma {:induction false} RootDepths()
    ensures QuoteDepth([AtRoot]) == 0 && ListDepth([AtRoot]) == 0
  {
    assert [AtRoot][..0] == [];
  }

  lemma {:induction false} RootList(root: Doc, ordered: bool, items: seq<Item>)
    ensures var root1 := root + [ListBlock(List(ordered, []))];
            && HasList(root1, InBlock(|root|)) && ListAt(root1, InBlock(|root|)) == List(ordered, [])
            && SetList(root1, InBlock(|root|), AddItems(List(ordered, []), items)) == root + [ListBlock(List(ordered, items))]
  {
    assert [] + items == items;
  }

  lemma {:induction false} RootListPlan(ordered: bool, st: State, r: Rules)
    requires BetweenBlocks(st) && "ul" in r.tags
    ensures Enter(ListTag(ordered), None, NO_MARKS, 0, st, r)
         == Plan(PushOn(st, st.root + [ListBlock(List(ordered, []))], AtList(InBlock(|st.root|), false)), NO_MARKS, 0, true, true)
  {
    hide OpenQuote, OpenItem;
    FlushAtRest(st);
    RootDepths();
  }

  lemma {:induction false} ListBlockWalk(l: List, st: State, r: Rules) returns (l': List, n: nat)
    requires BetweenBlocks(st) && "ul" in r.tags && ListInv(l, 2, r) && FixedItems(l.items, r)
    ensures Walk(ToDom(Elem(ListTag(l.ordered), None, ItemTrees(l.items))), NO_MARKS, 0, 0, st, r)
         == Some(st.(root := st.root + [ListBlock(l')], nextLink := n))
    ensures ListTree(l') == ListTree(l)
  {
    hide FixedItems, WalkAll, Walk, ToDoms, ToDom, Flush, SetList, ListAt, QuoteDepth, ListDepth, ItemTrees, Enter, ItemInv, ListTree, HasList;
    var path := InBlock(|st.root|);
    var st1 := PushOn(st, st.root + [ListBlock(List(l.ordered, []))], AtList(path, false));
    RootListPlan(l.ordered, st, r);
    RootList(st.root, l.ordered, []);
    RootDepths();
    StackDepths([AtRoot], AtList(path, false));
    var items;
    items, n := ItemsWalk(l.items, 2, path, 1, st1, r);
    RootList(st.root, l.ordered, items);
    l' := List(l.ordered, items);
    SameListTree(l.ordered, items, l.items);
    assert List(l.ordered, l.items) == l;
    var s := st1.(root := st.root + [ListBlock(l')], nextLink := n);
    FlushAtRest(s);
    ListTagFree(l.ordered);
    ElementWalk(Elem(ListTag(l.ordered), None, ItemTrees(l.items)), NO_MARKS, 0, 0, st, r);
    assert s.stack[..|s.stack|-1] == st.stack;
  }

  /** One printed block adds one block that prints the same. */
  lemma {:induction false} BlockWalk(b: Block, st: State, r: Rules) returns (b': Block, n: nat)
    requires BetweenBlocks(st) && BlockInv(b, r) && FixedBlock(b, r) && BlockTree(b) != []
    ensures WalkAll(ToDoms(BlockTree(b)), NO_MARKS, 0, 0, st, r) == Some(st.(root := st.root + [b'], nextLink := n))
    ensures BlockTree(b') == BlockTree(b)
  {
    hide LineInv, FixedLine, WalkAll, Walk, ToDoms, ToDom, Flush, ListInv, FixedItems, Nest, ParaTrees, ItemTrees, Relink, Counted, ListEmpty;
    match b
    case TextBlock(kind, inl) =>
      var f := Nest(inl, 0);
      var s0 := st.(curKind := kind);
      LineFlushed(inl, 1, s0, kind, r);
      RelinkFinished(inl, st.nextLink, r);
      var w := WalkAll(ToDoms(f), NO_MARKS, 0, 1, s0, r).value;
      WalkOne(Elem(KindTag(kind), None, f), NO_MARKS, 0, 0, st, r);
      b', n := TextBlock(kind, Relink(inl, st.nextLink)), Counted(inl, st.nextLink);
      if kind == P {
        assert s0 == st;
        ParagraphWalk("p", f, 0, st, w, r);
      } else {
        HeadingWalk(kind, f, 0, st, w, r);
      }
      assert Flush(w) == st.(root := st.root + [b'], nextLink := n);
    case Quote(paras) =>
      var ps;
      ps, n := QuoteWalk(paras, 0, st, r);
      WalkOne(Elem("blockquote", None, ParaTrees(paras)), NO_MARKS, 0, 0, st, r);
      b' := Quote(ps);
    case ListBlock(l) =>
      var l';
      l', n := ListBlockWalk(l, st, r);
      FullListTree(l);
      WalkOne(Elem(ListTag(l.ordered), None, ItemTrees(l.items)), NO_MARKS, 0, 0, st, r);
      b' := ListBlock(l');
  }

  lemma {:induction false} DocWalk(d: Doc, st: State, r: Rules) returns (d': Doc, n: nat)
    requires BetweenBlocks(st) && DocInv(d, r) && FixedDoc(d, r)
    ensures WalkAll(ToDoms(DocTree(d)), NO_MARKS, 0, 0, st, r) == Some(st.(root := st.root + d', nextLink := n))
    ensures DocTree(d') == DocTree(d)
    decreases |d|
  {
    hide WalkAll, Walk, ToDoms, BlockInv, FixedBlock, BlockTree;
    if d == [] {
      d', n := [], st.nextLink;
      WalkNothing(NO_MARKS, 0, 0, st, r);
      assert st.root + [] == st.root;
    } else if BlockTree(d[0]) == [] {
      d', n := DocWalk(d[1..], st, r);
      assert [] + DocTree(d[1..]) == DocTree(d[1..]);
    } else {
      var b, m := BlockWalk(d[0], st, r);
      var s := st.(root := st.root + [b], nextLink := m);
      var rest;
      rest, n := DocWalk(d[1..], s, r);
      d' := [b] + rest;
      WalkForests(BlockTree(d[0]), DocTree(d[1..]), NO_MARKS, 0, 0, st, s, r);
      assert d'[1..] == rest;
      assert (st.root + [b]) + rest == st.root + d';
    }
  }

  /** A good document, printed and sanitized again, has the same tree. */
  lemma {:induction false} GoodDocStays(d: Doc, r: Rules)
    requires DocInv(d, r) && FixedDoc(d, r)
    ensures var again := Sanitized(ToDoms(DocTree(d)), r); again.Some? && DocTree(again.value) == DocTree(d)
  {
    hide WalkAll, ToDoms, DocTree, DocInv, FixedDoc;
    var d', n := DocWalk(d, START, r);
    assert START.root + d' == d';
    FlushAtRest(START.(root := d', nextLink := n));
  }

  /** Sanitizing is a fixpoint: the tree of a sanitized document is sanitized into itself. */
  lemma {:induction false} SanitizedStays(nodes: seq<Dom>, r: Rules)
    requires CleanOk(r) && Sanitized(nodes, r).Some? && FixedDoc(Sanitized(nodes, r).value, r)
    ensures var d := Sanitized(nodes, r).value; var again := Sanitized(ToDoms(DocTree(d)), r);
            again.Some? && DocTree(again.value) == DocTree(d)
  {
    hide Sanitized, CleanOk, DocInv, FixedDoc;
    SanitizedIsGood(nodes, r);
    GoodDocStays(Sanitized(nodes, r).value, r);
  }
}
