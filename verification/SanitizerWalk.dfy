// Every walk keeps the invariant (apps/rich-editor/src/sanitize.ts:151-354, 484-496).

module SanitizerWalk {
  import opened Base
  import opened Chars
  import opened RichModel
  import opened Finish
  import opened LinkLines
  import opened SanitizerModel
  import opened SanitizerLines
  import opened SanitizerInv

  /** No link target is empty. */
  ghost predicate CleanOk(r: Rules) {
    forall raw :: r.clean(raw) != Some("")
  }

  ghost predicate LinkIds(cur: seq<Chunk>, nextLink: nat) {
    forall i :: 0 <= i < |cur| && cur[i].Run? ==> (cur[i].marks.href == "" <==> cur[i].link == 0) && cur[i].link <= nextLink
  }

  /** The pending run: links are numbered, stand together, and everything fits the profile. */
  ghost predicate CurOk(cur: seq<Chunk>, nextLink: nat, r: Rules) {
    RunsFit(cur, r) && LinkIds(cur, nextLink) && RunsTogether(cur)
  }

  /** The open link, if there is one, reaches to the end of the pending run. */
  ghost predicate Continues(cur: seq<Chunk>, href: string, link: nat) {
    link != 0 ==>
      && (forall i :: 0 <= i < |cur| && LinkedRun(cur[i]) && cur[i].link == link ==> cur[i].marks.href == href)
      && (forall i, j :: 0 <= i < j < |cur| && LinkedRun(cur[i]) && cur[i].link == link && cur[j].Run? ==>
            LinkedRun(cur[j]) && cur[j].link == link)
  }

  ghost predicate MarkOk(m: Marks, link: nat, nextLink: nat, r: Rules) {
    MarksFit(m, r) && (m.href == "" <==> link == 0) && link <= nextLink
  }

  ghost predicate StateInv(st: State, r: Rules) {
    && StackOk(st.stack, st.root) && DocInv(st.root, r) && CurOk(st.cur, st.nextLink, r)
    && (st.curKind != P ==> "h3" in r.tags)
  }

  /** How a state may follow another: the stack is the same, objects stay where they are. */
  ghost predicate Follows(a: State, b: State) {
    b.stack == a.stack && DocGrows(a.root, b.root) && a.nextLink <= b.nextLink
  }

  // ---- text and breaks ----

  lemma {:induction false} TogetherSnoc(cur: seq<Chunk>, c: Chunk)
    requires RunsTogether(cur)
    requires LinkedRun(c) ==> Continues(cur, c.marks.href, c.link) && c.link != 0
    ensures RunsTogether(cur + [c])
  {
    var more := cur + [c];
    forall i, j | 0 <= i < j < |more| && LinkedRun(more[i]) && LinkedRun(more[j]) && more[i].link == more[j].link
      ensures more[i].marks.href == more[j].marks.href
    {
      TargetsSnoc(cur, c, i, j);
    }
    forall i, k, j | 0 <= i < k < j < |more| && LinkedRun(more[i]) && LinkedRun(more[j]) && more[i].link == more[j].link && more[k].Run?
      ensures LinkedRun(more[k]) && more[k].link == more[i].link
    {
      BetweenSnoc(cur, c, i, k, j);
    }
  }

  lemma {:induction false} TargetsSnoc(cur: seq<Chunk>, c: Chunk, i: nat, j: nat)
    requires RunsTogether(cur)
    requires LinkedRun(c) ==> Continues(cur, c.marks.href, c.link) && c.link != 0
    requires var more := cur + [c]; i < j < |more| && LinkedRun(more[i]) && LinkedRun(more[j]) && more[i].link == more[j].link
    ensures var more := cur + [c]; more[i].marks.href == more[j].marks.href
  {
    assert (cur + [c])[i] == cur[i];
    if j < |cur| {
      hide RunsTogether, Continues;
      assert (cur + [c])[j] == cur[j];
      RunsAt(cur, i, j);
    } else {
      hide RunsTogether;
    }
  }

  lemma {:induction false} BetweenSnoc(cur: seq<Chunk>, c: Chunk, i: nat, k: nat, j: nat)
    requires RunsTogether(cur)
    requires LinkedRun(c) ==> Continues(cur, c.marks.href, c.link) && c.link != 0
    requires var more := cur + [c];
             i < k < j < |more| && LinkedRun(more[i]) && LinkedRun(more[j]) && more[i].link == more[j].link && more[k].Run?
    ensures var more := cur + [c]; LinkedRun(more[k]) && more[k].link == more[i].link
  {
    assert (cur + [c])[i] == cur[i] && (cur + [c])[k] == cur[k];
    if j < |cur| {
      hide RunsTogether, Continues;
      assert (cur + [c])[j] == cur[j];
      RunsBetween(cur, i, k, j);
    } else {
      hide RunsTogether;
    }
  }

  lemma {:induction false} ContinuesSnoc(cur: seq<Chunk>, c: Chunk, href: string, link: nat)
    requires Continues(cur, href, link)
    requires c.Run? && link != 0 ==> c.marks.href == href && c.link == link && href != ""
    ensures Continues(cur + [c], href, link)
  {}

  lemma {:induction false} FitSnoc(cur: seq<Chunk>, c: Chunk, r: Rules)
    requires RunsFit(cur, r) && RunFit(c, r)
    ensures RunsFit(cur + [c], r)
  {
    hide RunFit;
  }

  lemma {:induction false} PushOk(st: State, c: Chunk, m: Marks, link: nat, r: Rules)
    requires StateInv(st, r) && MarkOk(m, link, st.nextLink, r) && Continues(st.cur, m.href, link)
    requires c.Br? || (AllowedText(c.text) && c.marks == m && c.link == link)
    ensures var s := st.(cur := st.cur + [c]);
            StateInv(s, r) && Follows(st, s) && Continues(s.cur, m.href, link)
  {
    hide StackOk, DocInv, RunsTogether, MarksFit, DocGrows, RunsFit;
    DocGrowsSelf(st.root);
    TogetherSnoc(st.cur, c);
    ContinuesSnoc(st.cur, c, m.href, link);
    FitSnoc(st.cur, c, r);
    assert LinkIds(st.cur + [c], st.nextLink);
  }

  // ---- flush ----

  lemma {:induction false} DepositQuote(root: Doc, b: nat, chunks: seq<Chunk>, r: Rules)
    requires DocInv(root, r) && b < |root| && root[b].Quote? && chunks != [] && LineInv(chunks, r)
    ensures var d := root[b := Quote(root[b].paras + [chunks])]; DocInv(d, r) && DocGrows(root, d)
  {
    hide LineInv;
    var d := root[b := Quote(root[b].paras + [chunks])];
    assert BlockInv(root[b], r);
    forall i | 0 <= i < |root| ensures BlockInv(d[i], r) && BlockGrows(root[i], d[i]) {
      assert BlockInv(root[i], r);
      BlockGrowsSelf(root[i]);
    }
  }

  lemma {:induction false} AddItemOk(root: Doc, path: ListPath, it: Item, r: Rules)
    requires DocInv(root, r) && HasList(root, path) && it.subs == [] && LineInv(it.inl, r)
    ensures var l := ListAt(root, path); var d := SetList(root, path, l.(items := l.items + [it]));
            DocInv(d, r) && DocGrows(root, d)
  {
    hide LineInv, DocInv, DocGrows;
    var l := ListAt(root, path);
    ListOfDoc(root, path, r);
    PlainItemInv(it.inl, 3 - Depth(path) - 1, r);
    AddItemInv(l, it, 3 - Depth(path), r);
    AddItemGrows(l, it);
    SetListInv(root, path, l.(items := l.items + [it]), r);
    SetListGrows(root, path, l.(items := l.items + [it]));
  }

  /** An item object takes new contents of the same depth. */
  lemma {:induction false} ChangeItemOk(root: Doc, path: ListPath, i: nat, it: Item, r: Rules)
    requires DocInv(root, r) && HasList(root, path) && i < |ListAt(root, path).items|
    requires Depth(path) <= 2 ==> ItemInv(it, 2 - Depth(path), r)
    requires ItemGrows(ListAt(root, path).items[i], it)
    ensures var d := SetList(root, path, SetItem(ListAt(root, path), i, it)); DocInv(d, r) && DocGrows(root, d)
  {
    hide ItemInv, DocInv, DocGrows;
    var l := ListAt(root, path);
    ListOfDoc(root, path, r);
    SetItemInv(l, i, it, 3 - Depth(path), r);
    SetItemGrows(l, i, it);
    SetListInv(root, path, SetItem(l, i, it), r);
    SetListGrows(root, path, SetItem(l, i, it));
  }

  lemma {:induction false} ItemOfDoc(root: Doc, path: ListPath, i: nat, r: Rules)
    requires DocInv(root, r) && HasList(root, path) && i < |ListAt(root, path).items|
    ensures Depth(path) <= 2 && ItemInv(ListAt(root, path).items[i], 2 - Depth(path), r)
  {
    hide ItemInv;
    ListOfDoc(root, path, r);
  }

  lemma {:induction false} JoinItemOk(it: Item, chunks: seq<Chunk>, k: nat, r: Rules)
    requires ItemInv(it, k, r) && chunks != [] && LineInv(chunks, r)
    ensures ItemInv(Join(it, chunks), k, r) && ItemGrows(it, Join(it, chunks))
  {
    hide LineInv;
    ItemGrowsSelf(it);
    if it.inl == [] {
      assert [] + chunks == chunks;
    } else {
      JoinLines(it.inl, chunks, r);
    }
  }

  lemma {:induction false} DepositOk(root: Doc, stack: seq<Container>, kind: TextKind, chunks: seq<Chunk>, r: Rules)
    requires DocInv(root, r) && StackOk(stack, root) && chunks != [] && LineInv(chunks, r) && (kind != P ==> "h3" in r.tags)
    ensures var d := Deposit(root, stack[|stack|-1], kind, chunks); DocInv(d, r) && DocGrows(root, d)
  {
    hide DocInv, DocGrows, LineInv, ItemInv, ItemGrows, ListDepth, QuoteDepth;
    TopDepth(stack, root);
    match stack[|stack|-1]
    case AtRoot =>
      AddBlockInv(root, TextBlock(kind, chunks), r);
      AddBlockGrows(root, TextBlock(kind, chunks));
    case AtQuote(b) => DepositQuote(root, b, chunks, r);
    case AtList(path, _) => AddItemOk(root, path, Item(chunks, []), r);
    case AtItem(path, i) =>
      ItemOfDoc(root, path, i, r);
      JoinItemOk(ListAt(root, path).items[i], chunks, 2 - Depth(path), r);
      ChangeItemOk(root, path, i, Join(ListAt(root, path).items[i], chunks), r);
  }

  lemma {:induction false} EmptyCur(nextLink: nat, r: Rules)
    ensures CurOk([], nextLink, r) && forall href, link :: Continues([], href, link)
  {}

  lemma {:induction false} FlushOk(st: State, r: Rules)
    requires StateInv(st, r)
    ensures var s := Flush(st);
            StateInv(s, r) && Follows(st, s) && s.cur == [] && s.nextLink == st.nextLink && s.curKind == P
  {
    hide DocInv, DocGrows, LineInv, RunsTogether, RunsFit, LinkIds;
    EmptyCur(st.nextLink, r);
    FinishedLine(st.cur, r);
    DocGrowsSelf(st.root);
    match Finished(st.cur)
    case None =>
    case Some(chunks) =>
      DepositOk(st.root, st.stack, st.curKind, chunks, r);
      StackGrows(st.stack, st.root, Flush(st).root);
  }

  // ---- opening containers ----

  /** A container was opened: the stack grew by one good container and nothing is pending. */
  ghost predicate Opened(st: State, s: State, r: Rules) {
    && StateInv(s, r) && s.cur == st.cur && s.curKind == st.curKind && s.nextLink == st.nextLink && DocGrows(st.root, s.root)
    && |s.stack| == |st.stack| + 1 && s.stack[..|st.stack|] == st.stack
  }

  lemma {:induction false} PushOnOk(st: State, root: Doc, c: Container, r: Rules)
    requires StateInv(st, r) && DocInv(root, r) && DocGrows(st.root, root) && ContainerOk(st.stack, c, root)
    ensures Opened(st, PushOn(st, root, c), r)
  {
    hide DocInv, DocGrows, ContainerOk, CurOk;
    StackGrows(st.stack, st.root, root);
    StackSnoc(st.stack, c, root);
  }

  lemma {:induction false} OpenQuoteOk(st: State, r: Rules)
    requires StateInv(st, r)
    ensures var p := OpenQuote(st, r); if p.1 then Opened(st, p.0, r) else p.0 == st
  {
    hide DocInv, DocGrows, CurOk, ListDepth, QuoteDepth;
    if "blockquote" in r.tags && TopOf(st) == AtRoot {
      TopDepth(st.stack, st.root);
      AddBlockInv(st.root, Quote([]), r);
      AddBlockGrows(st.root, Quote([]));
      PushOnOk(st, st.root + [Quote([])], AtQuote(|st.root|), r);
    }
  }

  lemma {:induction false} NewSubOk(it: Item, l: List, k: nat, r: Rules)
    requires ItemInv(it, k, r) && k > 0 && l.items == []
    ensures ItemInv(it.(subs := it.subs + [l]), k, r) && ItemGrows(it, it.(subs := it.subs + [l]))
  {
    hide LineInv;
    var more := it.subs + [l];
    forall j | 0 <= j < |more| ensures ListInv(more[j], k, r) { if j < |it.subs| { assert ListInv(it.subs[j], k, r); } }
    ItemGrowsSelf(it);
  }

  lemma {:induction false} OpenBelowOk(st: State, path: ListPath, i: nat, ordered: bool, r: Rules)
    requires StateInv(st, r) && HasList(st.root, path) && i < |ListAt(st.root, path).items|
    requires Depth(path) == ListDepth(st.stack) == 1 && !st.stack[|st.stack|-1].AtQuote?
    ensures Opened(st, OpenBelow(st, path, i, ordered), r)
  {
    hide DocInv, DocGrows, CurOk, ItemInv, ItemGrows, ListDepth, StackOk;
    var l := ListAt(st.root, path);
    var it := l.items[i];
    var it' := it.(subs := it.subs + [List(ordered, [])]);
    ItemOfDoc(st.root, path, i, r);
    NewSubOk(it, List(ordered, []), 1, r);
    ChangeItemOk(st.root, path, i, it', r);
    var root := SetList(st.root, path, SetItem(l, i, it'));
    SetThenAt(st.root, path, SetItem(l, i, it'));
    assert HasList(root, Below(path, i, |it.subs|));
    PushOnOk(st, root, AtList(Below(path, i, |it.subs|), false), r);
  }

  lemma {:induction false} AliasOk(st: State, path: ListPath, r: Rules)
    requires StateInv(st, r) && HasList(st.root, path) && Depth(path) == ListDepth(st.stack)
    requires !st.stack[|st.stack|-1].AtQuote? && !st.stack[|st.stack|-1].AtRoot?
    ensures Opened(st, PushOn(st, st.root, AtList(path, true)), r)
  {
    hide DocInv, DocGrows, CurOk, ListDepth, StackOk;
    DocGrowsSelf(st.root);
    PushOnOk(st, st.root, AtList(path, true), r);
  }

  lemma {:induction false} OpenListOk(st: State, ordered: bool, r: Rules)
    requires StateInv(st, r)
    ensures var p := OpenList(st, ordered, r); if p.1 then Opened(st, p.0, r) else p.0 == st
  {
    hide DocInv, DocGrows, CurOk, ListDepth, QuoteDepth, StackOk;
    if "ul" in r.tags && QuoteDepth(st.stack) == 0 {
      NotEmpty(st, r);
      TopDepth(st.stack, st.root);
      match TopOf(st)
      case AtRoot =>
        var b := ListBlock(List(ordered, []));
        NewListInv(ordered, r);
        AddBlockInv(st.root, b, r);
        AddBlockGrows(st.root, b);
        PushOnOk(st, st.root + [b], AtList(InBlock(|st.root|), false), r);
      case AtItem(path, i) =>
        ItemOfDoc(st.root, path, i, r);
        if ListDepth(st.stack) >= 2 { AliasOk(st, path, r); } else { DepthPositive(path); OpenBelowOk(st, path, i, ordered, r); }
      case AtList(path, _) =>
        var n := |ListAt(st.root, path).items|;
        DepthPositive(path);
        if n > 0 && ListDepth(st.stack) < 2 { OpenBelowOk(st, path, n - 1, ordered, r); } else { AliasOk(st, path, r); }
      case AtQuote(_) =>
    }
  }

  lemma {:induction false} DepthPositive(path: ListPath)
    ensures Depth(path) >= 1
  {}

  lemma {:induction false} NewListInv(ordered: bool, r: Rules)
    requires "ul" in r.tags
    ensures BlockInv(ListBlock(List(ordered, [])), r)
  {}

  lemma {:induction false} NotEmpty(st: State, r: Rules)
    requires StateInv(st, r)
    ensures st.stack != [] && TopOf(st) == st.stack[|st.stack|-1]
  {}

  lemma {:induction false} OpenItemOk(st: State, r: Rules)
    requires StateInv(st, r) && TopOf(st).AtList?
    ensures Opened(st, OpenItem(st), r)
  {
    hide DocInv, DocGrows, CurOk, ListDepth, QuoteDepth, StackOk;
    NotEmpty(st, r);
    TopDepth(st.stack, st.root);
    var path := TopOf(st).path;
    var l := ListAt(st.root, path);
    NoLine(r);
    AddItemOk(st.root, path, Item([], []), r);
    var root := SetList(st.root, path, l.(items := l.items + [Item([], [])]));
    SetThenAt(st.root, path, l.(items := l.items + [Item([], [])]));
    PushOnOk(st, root, AtItem(path, |l.items|), r);
  }

  // ---- elements ----

  /** What an element's plan promises to the walk of its children. */
  ghost predicate PlanOk(st: State, m: Marks, link: nat, p: Plan, r: Rules) {
    && StateInv(p.st, r) && MarkOk(p.m, p.link, p.st.nextLink, r) && Continues(p.st.cur, p.m.href, p.link)
    && DocGrows(st.root, p.st.root) && st.nextLink <= p.st.nextLink
    && (if p.pop then p.flush && |p.st.stack| == |st.stack| + 1 && p.st.stack[..|st.stack|] == st.stack
        else p.st.stack == st.stack)
    && (p.flush || link == 0 || (p.link == link && p.m.href == m.href))
  }

  lemma {:induction false} MarkMore(m: Marks, m': Marks, link: nat, n: nat, n': nat, r: Rules)
    requires MarkOk(m, link, n, r) && n <= n' && m'.href == m.href
    requires (m'.strong ==> m.strong || "strong" in r.tags) && (m'.em ==> m.em || "em" in r.tags) && (m'.u ==> m.u || "u" in r.tags)
    ensures MarkOk(m', link, n', r)
  {}

  lemma {:induction false} LinkPlan(st: State, m: Marks, link: nat, raw: string, h: string, r: Rules)
    requires StateInv(st, r) && MarkOk(m, link, st.nextLink, r) && CleanOk(r)
    requires "a" in r.tags && m.href == "" && r.clean(raw) == Some(h)
    ensures PlanOk(st, m, link, Inline(st.(nextLink := st.nextLink + 1), m.(href := h), st.nextLink + 1), r)
  {
    hide StackOk, DocInv, RunsTogether, DocGrows, RunsFit;
    DocGrowsSelf(st.root);
    assert KeptHref(h, r);
    assert h != "";
    assert LinkIds(st.cur, st.nextLink + 1);
    assert Continues(st.cur, h, st.nextLink + 1);
  }

  lemma {:induction false} InlinePlan(st: State, m: Marks, m': Marks, link: nat, r: Rules)
    requires StateInv(st, r) && MarkOk(m, link, st.nextLink, r) && Continues(st.cur, m.href, link) && m'.href == m.href
    requires (m'.strong ==> m.strong || "strong" in r.tags) && (m'.em ==> m.em || "em" in r.tags) && (m'.u ==> m.u || "u" in r.tags)
    ensures PlanOk(st, m, link, Inline(st, m', link), r)
  {
    hide StateInv, DocGrows, Continues;
    DocGrowsSelf(st.root);
    MarkMore(m, m', link, st.nextLink, st.nextLink, r);
  }

  /** A block element: the pending run was flushed, and maybe a container opened. */
  lemma {:induction false} BlockPlan(st: State, m: Marks, m': Marks, link: nat, s: State, pop: bool, r: Rules)
    requires StateInv(st, r) && MarkOk(m, link, st.nextLink, r) && m'.href == m.href
    requires m'.strong ==> m.strong || "strong" in r.tags
    requires m'.em == m.em && m'.u == m.u
    requires StateInv(s, r) && s.cur == [] && s.nextLink == st.nextLink && DocGrows(st.root, s.root)
    requires if pop then |s.stack| == |st.stack| + 1 && s.stack[..|st.stack|] == st.stack else s.stack == st.stack
    ensures PlanOk(st, m, link, Plan(s, m', link, true, pop), r)
  {
    hide StateInv, DocGrows;
    MarkMore(m, m', link, st.nextLink, s.nextLink, r);
    EmptyCur(0, r);
  }

  lemma {:induction false} OpenedGrows(a: State, b: State, c: State, r: Rules)
    requires Follows(a, b) && Opened(b, c, r)
    ensures DocGrows(a.root, c.root)
  {
    hide StateInv, DocGrows;
    DocGrowsOn(a.root, b.root, c.root);
  }

  lemma {:induction false} EnterOk(tag: string, href: Option<string>, m: Marks, link: nat, st: State, r: Rules)
    requires CleanOk(r) && StateInv(st, r) && MarkOk(m, link, st.nextLink, r) && Continues(st.cur, m.href, link)
    ensures PlanOk(st, m, link, Enter(tag, href, m, link, st, r), r)
  {
    hide StateInv, DocGrows, Continues, Flush, PlanOk, OpenQuote, OpenList, OpenItem, MarkOk, CleanOk, BOUNDARY_TAGS;
    FlushOk(st, r);
    if tag == "b" || tag == "strong" {
      InlinePlan(st, m, if "strong" in r.tags then m.(strong := true) else m, link, r);
    } else if tag == "i" || tag == "em" {
      InlinePlan(st, m, if "em" in r.tags then m.(em := true) else m, link, r);
    } else if tag == "u" {
      InlinePlan(st, m, if "u" in r.tags then m.(u := true) else m, link, r);
    } else if tag == "a" {
      var target := if "a" in r.tags && m.href == "" && href.Some? then r.clean(href.value) else None;
      if target.Some? { LinkPlan(st, m, link, href.value, target.value, r); } else { InlinePlan(st, m, m, link, r); }
    } else if IsHeading(tag) {
      HeadingOk(tag, m, link, st, r);
    } else if tag == "blockquote" {
      var s := Flush(st);
      OpenQuoteOk(s, r);
      if OpenQuote(s, r).1 { OpenedGrows(st, s, OpenQuote(s, r).0, r); }
      BlockPlan(st, m, m, link, OpenQuote(s, r).0, OpenQuote(s, r).1, r);
    } else if tag == "ul" || tag == "ol" {
      var s := Flush(st);
      OpenListOk(s, tag == "ol", r);
      if OpenList(s, tag == "ol", r).1 { OpenedGrows(st, s, OpenList(s, tag == "ol", r).0, r); }
      BlockPlan(st, m, m, link, OpenList(s, tag == "ol", r).0, OpenList(s, tag == "ol", r).1, r);
    } else if tag == "li" {
      var s := Flush(st);
      if TopOf(s).AtList? {
        OpenItemOk(s, r);
        OpenedGrows(st, s, OpenItem(s), r);
        BlockPlan(st, m, m, link, OpenItem(s), true, r);
      } else {
        BlockPlan(st, m, m, link, s, false, r);
      }
    } else if tag in BOUNDARY_TAGS {
      BlockPlan(st, m, m, link, Flush(st), false, r);
    } else {
      InlinePlan(st, m, m, link, r);
    }
  }

  lemma {:induction false} HeadingOk(tag: string, m: Marks, link: nat, st: State, r: Rules)
    requires StateInv(st, r) && MarkOk(m, link, st.nextLink, r)
    ensures var s := Flush(st);
            && ("h3" in r.tags && TopOf(s) == AtRoot ==>
                  PlanOk(st, m, link, Plan(s.(curKind := HeadingKind(tag)), m, link, true, false), r))
            && PlanOk(st, m, link, Plan(s, if "strong" in r.tags then m.(strong := true) else m, link, true, false), r)
  {
    hide StackOk, DocInv, CurOk, DocGrows, Flush, PlanOk, MarkOk;
    FlushOk(st, r);
    var s := Flush(st);
    if "h3" in r.tags {
      BlockPlan(st, m, m, link, s.(curKind := HeadingKind(tag)), false, r);
    }
    BlockPlan(st, m, if "strong" in r.tags then m.(strong := true) else m, link, s, false, r);
  }

  lemma {:induction false} PopOk(s: State, stack: seq<Container>, r: Rules)
    requires StateInv(s, r) && |s.stack| == |stack| + 1 && s.stack[..|stack|] == stack && stack != []
    ensures StateInv(s.(stack := s.stack[..|s.stack|-1]), r)
  {
    hide DocInv, CurOk, ContainerOk;
  }

  lemma {:induction false} LeaveOk(st: State, m: Marks, link: nat, p: Plan, s: State, r: Rules)
    requires StateInv(st, r) && PlanOk(st, m, link, p, r) && StateInv(s, r) && Follows(p.st, s)
    requires Continues(s.cur, p.m.href, p.link)
    ensures var t := Leave(p, s); StateInv(t, r) && Follows(st, t) && Continues(t.cur, m.href, link)
  {
    hide StateInv, DocGrows, Flush;
    DocGrowsOn(st.root, p.st.root, s.root);
    if p.flush {
      FlushOk(s, r);
      DocGrowsOn(st.root, s.root, Flush(s).root);
      if p.pop {
        NotEmpty(st, r);
        PopOk(Flush(s), st.stack, r);
      }
    }
  }

  // ---- the walk ----

  lemma {:induction false} WalkKeeps(n: Dom, m: Marks, link: nat, depth: nat, st: State, r: Rules)
    requires CleanOk(r) && StateInv(st, r) && MarkOk(m, link, st.nextLink, r) && Continues(st.cur, m.href, link)
    ensures var w := Walk(n, m, link, depth, st, r);
            w.Some? ==> StateInv(w.value, r) && Follows(st, w.value) && Continues(w.value.cur, m.href, link)
    decreases n, 1
  {
    hide StateInv, DocGrows, Continues, MarkOk, CleanOk, PlanOk, Enter, Leave;
    DocGrowsSelf(st.root);
    if depth <= MAX_DEPTH {
      match n
      case TextNode(data) =>
        var clean := StripForbidden(data);
        if clean != "" { PushOk(st, Run(clean, m, link), m, link, r); }
      case OtherNode =>
      case Element(tag, href, kids) =>
        if tag in DROP_TAGS {
        } else if tag == "br" {
          PushOk(st, Br, m, link, r);
        } else {
          var p := Enter(tag, href, m, link, st, r);
          EnterOk(tag, href, m, link, st, r);
          PlanParts(st, m, link, p, r);
          WalkAllKeeps(kids, p.m, p.link, depth + 1, p.st, r);
          var w := WalkAll(kids, p.m, p.link, depth + 1, p.st, r);
          if w.Some? { LeaveOk(st, m, link, p, w.value, r); }
        }
    }
  }

  lemma {:induction false} PlanParts(st: State, m: Marks, link: nat, p: Plan, r: Rules)
    requires PlanOk(st, m, link, p, r)
    ensures StateInv(p.st, r) && MarkOk(p.m, p.link, p.st.nextLink, r) && Continues(p.st.cur, p.m.href, p.link)
  {}

  lemma {:induction false} WalkAllKeeps(kids: seq<Dom>, m: Marks, link: nat, depth: nat, st: State, r: Rules)
    requires CleanOk(r) && StateInv(st, r) && MarkOk(m, link, st.nextLink, r) && Continues(st.cur, m.href, link)
    ensures var w := WalkAll(kids, m, link, depth, st, r);
            w.Some? ==> StateInv(w.value, r) && Follows(st, w.value) && Continues(w.value.cur, m.href, link)
    decreases kids, 0
  {
    hide StateInv, DocGrows, Continues, MarkOk, CleanOk, Walk;
    DocGrowsSelf(st.root);
    if kids != [] {
      WalkKeeps(kids[0], m, link, depth, st, r);
      var w := Walk(kids[0], m, link, depth, st, r);
      if w.Some? {
        MarkLater(m, link, st.nextLink, w.value.nextLink, r);
        WalkAllKeeps(kids[1..], m, link, depth, w.value, r);
        var v := WalkAll(kids[1..], m, link, depth, w.value, r);
        if v.Some? { DocGrowsOn(st.root, w.value.root, v.value.root); }
      }
    }
  }

  lemma {:induction false} MarkLater(m: Marks, link: nat, n: nat, n': nat, r: Rules)
    requires MarkOk(m, link, n, r) && n <= n'
    ensures MarkOk(m, link, n', r)
  {}

  lemma {:induction false} StartOk(r: Rules)
    ensures StateInv(START, r) && MarkOk(NO_MARKS, 0, 0, r) && Continues(START.cur, "", 0)
  {}

  /** Whatever tree is walked, the document that comes out is good. */
  lemma {:induction false} SanitizedIsGood(nodes: seq<Dom>, r: Rules)
    requires CleanOk(r)
    ensures Sanitized(nodes, r).Some? ==> DocInv(Sanitized(nodes, r).value, r)
  {
    hide DocInv, DocGrows, Flush, WalkAll, CleanOk;
    StartOk(r);
    WalkAllKeeps(nodes, NO_MARKS, 0, 0, START, r);
    var w := WalkAll(nodes, NO_MARKS, 0, 0, START, r);
    if w.Some? { FlushOk(w.value, r); }
  }
}
