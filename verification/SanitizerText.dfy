// No text is lost, invented or marked differently by the walk: the rows of the foreign tree, read off its elements, are those of the
// document, each as often and with the same marks (apps/rich-editor/src/sanitize.ts:151-184, 251-353). Only the order of rows may
// change, where text follows a flattened list.

module SanitizerText {
  import opened Base
  import opened Chars
  import opened RichModel
  import opened Markup
  import opened Finish
  import opened FinishSpec
  import opened LinkLines
  import opened SanitizerModel
  import opened SanitizerLines
  import opened SanitizerInv
  import opened SanitizerWalk
  import opened MarkedRows
  import opened TreeReading

  type Bag = multiset<Row>

  /** The rows of a line, each as often as it stands there. */
  function LineBag(cs: seq<Chunk>): Bag {
    multiset(LookRows(Cells(cs)))
  }

  function ItemsBag(items: seq<Item>): Bag
    decreases items, 0
  {
    if items == [] then multiset{} else ItemsBag(items[..|items|-1]) + ItemBag(items[|items|-1])
  }

  function ItemBag(it: Item): Bag
    decreases it, 1
  {
    LineBag(it.inl) + SubsBag(it.subs)
  }

  function SubsBag(subs: seq<List>): Bag
    decreases subs, 0
  {
    if subs == [] then multiset{} else SubsBag(subs[..|subs|-1]) + ItemsBag(subs[|subs|-1].items)
  }

  function ParasBag(ps: seq<seq<Chunk>>): Bag {
    if ps == [] then multiset{} else ParasBag(ps[..|ps|-1]) + LineBag(ps[|ps|-1])
  }

  function BlockBag(b: Block): Bag {
    match b
    case TextBlock(_, inl) => LineBag(inl)
    case Quote(paras) => ParasBag(paras)
    case ListBlock(l) => ItemsBag(l.items)
  }

  function DocBag(root: Doc): Bag {
    if root == [] then multiset{} else DocBag(root[..|root|-1]) + BlockBag(root[|root|-1])
  }

  /** The rows of a state, when `y` is still to be read. */
  function Shows(st: State, y: seq<Cell>): Bag {
    DocBag(st.root) + multiset(LookRows(Cells(st.cur) + y))
  }

  // ---- sums ----

  lemma {:induction false} Shift(a': Bag, x: Bag, a: Bag, y: Bag, z: Bag)
    requires a' + x == a + y
    ensures (a' + z) + x == (a + z) + y
  {
    forall c ensures ((a' + z) + x)[c] == ((a + z) + y)[c] { assert (a' + x)[c] == (a + y)[c]; }
  }

  lemma {:induction false} Replace(a: Bag, x: Bag, y: Bag)
    ensures (a + y) + x == (a + x) + y
  {
    forall c ensures ((a + y) + x)[c] == ((a + x) + y)[c] {}
  }

  /** Two exchanges in a row: the inner one cancels. */
  lemma {:induction false} Chain(p': Bag, p: Bag, q': Bag, q: Bag, d: Bag, e: Bag)
    requires p' + q == p + q' && d + p == e + p'
    ensures d + q == e + q'
  {
    forall c ensures (d + q)[c] == (e + q')[c] {
      assert (p' + q)[c] == (p + q')[c] && (d + p)[c] == (e + p')[c];
    }
  }

  lemma {:induction false} Gain(d: Bag, e: Bag, x: Bag, more: Bag)
    requires d + x == e + (x + more)
    ensures d == e + more
  {
    forall c ensures d[c] == (e + more)[c] { assert (d + x)[c] == (e + (x + more))[c]; }
  }

  lemma {:induction false} ItemsAdd(items: seq<Item>, it: Item)
    ensures ItemsBag(items + [it]) == ItemsBag(items) + ItemBag(it)
  {
    assert (items + [it])[..|items|] == items;
  }

  lemma {:induction false} ItemsSet(items: seq<Item>, i: nat, it: Item)
    requires i < |items|
    ensures ItemsBag(items[i := it]) + ItemBag(items[i]) == ItemsBag(items) + ItemBag(it)
    decreases |items|
  {
    hide ItemBag;
    var n := |items| - 1;
    if i < n {
      ItemsSet(items[..n], i, it);
      assert items[i := it][..n] == items[..n][i := it];
      Shift(ItemsBag(items[..n][i := it]), ItemBag(items[i]), ItemsBag(items[..n]), ItemBag(it), ItemBag(items[n]));
    } else {
      assert items[i := it][..n] == items[..n];
      Replace(ItemsBag(items[..n]), ItemBag(items[n]), ItemBag(it));
    }
  }

  lemma {:induction false} SubsAdd(subs: seq<List>, l: List)
    ensures SubsBag(subs + [l]) == SubsBag(subs) + ItemsBag(l.items)
  {
    assert (subs + [l])[..|subs|] == subs;
  }

  lemma {:induction false} SubsSet(subs: seq<List>, i: nat, l: List)
    requires i < |subs|
    ensures SubsBag(subs[i := l]) + ItemsBag(subs[i].items) == SubsBag(subs) + ItemsBag(l.items)
    decreases |subs|
  {
    hide ItemsBag;
    var n := |subs| - 1;
    if i < n {
      SubsSet(subs[..n], i, l);
      assert subs[i := l][..n] == subs[..n][i := l];
      Shift(SubsBag(subs[..n][i := l]), ItemsBag(subs[i].items), SubsBag(subs[..n]), ItemsBag(l.items), ItemsBag(subs[n].items));
    } else {
      assert subs[i := l][..n] == subs[..n];
      Replace(SubsBag(subs[..n]), ItemsBag(subs[n].items), ItemsBag(l.items));
    }
  }

  lemma {:induction false} DocAdd(root: Doc, b: Block)
    ensures DocBag(root + [b]) == DocBag(root) + BlockBag(b)
  {
    assert (root + [b])[..|root|] == root;
  }

  lemma {:induction false} DocSet(root: Doc, i: nat, b: Block)
    requires i < |root|
    ensures DocBag(root[i := b]) + BlockBag(root[i]) == DocBag(root) + BlockBag(b)
    decreases |root|
  {
    hide BlockBag;
    var n := |root| - 1;
    if i < n {
      DocSet(root[..n], i, b);
      assert root[i := b][..n] == root[..n][i := b];
      Shift(DocBag(root[..n][i := b]), BlockBag(root[i]), DocBag(root[..n]), BlockBag(b), BlockBag(root[n]));
    } else {
      assert root[i := b][..n] == root[..n];
      Replace(DocBag(root[..n]), BlockBag(root[n]), BlockBag(b));
    }
  }

  lemma {:induction false} ParasAdd(ps: seq<seq<Chunk>>, p: seq<Chunk>)
    ensures ParasBag(ps + [p]) == ParasBag(ps) + LineBag(p)
  {
    assert (ps + [p])[..|ps|] == ps;
  }

  /** Storing a list object changes the text of the document by the change of that list. */
  lemma {:induction false} SetListBag(root: Doc, path: ListPath, l: List)
    requires HasList(root, path)
    ensures DocBag(SetList(root, path, l)) + ItemsBag(ListAt(root, path).items) == DocBag(root) + ItemsBag(l.items)
  {
    hide DocBag, ItemsBag, SubsBag, LineBag;
    match path
    case InBlock(b) => DocSet(root, b, ListBlock(l));
    case Below(p, i, s) =>
      var o := ListAt(root, p);
      var it := o.items[i];
      var it' := SetSub(it, s, l);
      var q, q' := ItemsBag(it.subs[s].items), ItemsBag(l.items);
      SubsSet(it.subs, s, l);
      Shift(SubsBag(it'.subs), q, SubsBag(it.subs), q', LineBag(it.inl));
      assert ItemBag(it') == SubsBag(it'.subs) + LineBag(it.inl) && ItemBag(it) == SubsBag(it.subs) + LineBag(it.inl);
      ItemsSet(o.items, i, it');
      SetListBag(root, p, SetItem(o, i, it'));
      Chain(ItemBag(it'), ItemBag(it), q', q, ItemsBag(o.items[i := it']), ItemsBag(o.items));
      Chain(ItemsBag(o.items[i := it']), ItemsBag(o.items), q', q, DocBag(SetList(root, path, l)), DocBag(root));
  }

  lemma {:induction false} AddItemBag(root: Doc, path: ListPath, it: Item)
    requires HasList(root, path)
    ensures var l := ListAt(root, path);
            DocBag(SetList(root, path, l.(items := l.items + [it]))) == DocBag(root) + ItemBag(it)
  {
    hide DocBag, ItemsBag, ItemBag;
    var l := ListAt(root, path);
    SetListBag(root, path, l.(items := l.items + [it]));
    ItemsAdd(l.items, it);
    Gain(DocBag(SetList(root, path, l.(items := l.items + [it]))), DocBag(root), ItemsBag(l.items), ItemBag(it));
  }

  lemma {:induction false} ChangeItemBag(root: Doc, path: ListPath, i: nat, it: Item, more: Bag)
    requires HasList(root, path) && i < |ListAt(root, path).items|
    requires ItemBag(it) == ItemBag(ListAt(root, path).items[i]) + more
    ensures DocBag(SetList(root, path, SetItem(ListAt(root, path), i, it))) == DocBag(root) + more
  {
    hide DocBag, ItemsBag, ItemBag;
    var l := ListAt(root, path);
    SetListBag(root, path, SetItem(l, i, it));
    ItemsSet(l.items, i, it);
    var x, y := ItemBag(l.items[i]), ItemBag(it);
    Chain(ItemsBag(l.items[i := it]), ItemsBag(l.items), y, x, DocBag(SetList(root, path, SetItem(l, i, it))), DocBag(root));
    assert DocBag(root) + (x + more) == DocBag(root) + y;
    Gain(DocBag(SetList(root, path, SetItem(l, i, it))), DocBag(root), x, more);
  }

  lemma {:induction false} JoinBag(it: Item, chunks: seq<Chunk>)
    ensures ItemBag(Join(it, chunks)) == ItemBag(it) + LineBag(chunks)
  {
    hide Cells, SubsBag, LookRows;
    if it.inl == [] {
      assert [] + chunks == chunks;
      assert LineBag([]) == multiset{} by { NoLineBag(); }
    } else {
      JoinCells(it.inl, chunks);
      LookRowsJoin(Cells(it.inl), Cells(chunks));
    }
  }

  lemma {:induction false} NoLineBag()
    ensures LineBag([]) == multiset{}
  {}

  lemma {:induction false} PlainItemBag(chunks: seq<Chunk>)
    ensures ItemBag(Item(chunks, [])) == LineBag(chunks)
  {
    hide LineBag;
    assert SubsBag([]) == multiset{};
  }

  lemma {:induction false} QuoteBag(root: Doc, b: nat, chunks: seq<Chunk>)
    requires b < |root| && root[b].Quote?
    ensures DocBag(root[b := Quote(root[b].paras + [chunks])]) == DocBag(root) + LineBag(chunks)
  {
    hide DocBag, LineBag;
    var q := Quote(root[b].paras + [chunks]);
    DocSet(root, b, q);
    ParasAdd(root[b].paras, chunks);
    Gain(DocBag(root[b := q]), DocBag(root), BlockBag(root[b]), LineBag(chunks));
  }

  // ---- the steps of the walk ----

  lemma {:induction false} DepositBag(root: Doc, stack: seq<Container>, kind: TextKind, chunks: seq<Chunk>)
    requires StackOk(stack, root)
    ensures DocBag(Deposit(root, stack[|stack|-1], kind, chunks)) == DocBag(root) + LineBag(chunks)
  {
    hide DocBag, ItemBag, ItemsBag, LineBag, ListDepth, QuoteDepth, Depth;
    TopDepth(stack, root);
    match stack[|stack|-1]
    case AtRoot => DocAdd(root, TextBlock(kind, chunks));
    case AtQuote(b) => QuoteBag(root, b, chunks);
    case AtList(path, _) =>
      AddItemBag(root, path, Item(chunks, []));
      PlainItemBag(chunks);
    case AtItem(path, i) =>
      JoinBag(ListAt(root, path).items[i], chunks);
      ChangeItemBag(root, path, i, Join(ListAt(root, path).items[i], chunks), LineBag(chunks));
  }

  /** A flush ends the row. */
  lemma {:induction false} FlushShows(st: State, y: seq<Cell>, r: Rules)
    requires StateInv(st, r)
    ensures Shows(Flush(st), y) == Shows(st, [Break] + y)
  {
    hide DocBag, DocInv, CurOk, Cells, Finished, Deposit, LookRows;
    FinishKeepsRows(st.cur);
    LookRowsJoin(Cells(st.cur), y);
    SeqAssoc(Cells(st.cur), [Break], y);
    assert Cells([]) + y == y by { NoLineCells(); }
    if Finished(st.cur).Some? {
      DepositBag(st.root, st.stack, st.curKind, Finished(st.cur).value);
    }
  }

  lemma {:induction false} NoLineCells()
    ensures Cells([]) == []
  {}

  /** Opening a container adds no text. */
  lemma {:induction false} OpenQuoteBag(st: State, r: Rules)
    ensures DocBag(OpenQuote(st, r).0.root) == DocBag(st.root) && OpenQuote(st, r).0.cur == st.cur
  {
    hide DocBag, LineBag;
    DocAdd(st.root, Quote([]));
    assert ParasBag([]) == multiset{};
  }

  lemma {:induction false} OpenBelowBag(st: State, path: ListPath, i: nat, ordered: bool)
    requires HasList(st.root, path)
    ensures DocBag(OpenBelow(st, path, i, ordered).root) == DocBag(st.root) && OpenBelow(st, path, i, ordered).cur == st.cur
  {
    hide DocBag, LineBag, ItemsBag;
    var l := ListAt(st.root, path);
    if i < |l.items| {
      var it := l.items[i];
      SubsAdd(it.subs, List(ordered, []));
      assert ItemsBag([]) == multiset{} by { NoItemsBag(); }
      ChangeItemBag(st.root, path, i, it.(subs := it.subs + [List(ordered, [])]), multiset{});
    }
  }

  lemma {:induction false} NoItemsBag()
    ensures ItemsBag([]) == multiset{}
  {}

  lemma {:induction false} OpenListBag(st: State, ordered: bool, r: Rules)
    requires StateInv(st, r)
    ensures DocBag(OpenList(st, ordered, r).0.root) == DocBag(st.root) && OpenList(st, ordered, r).0.cur == st.cur
  {
    hide DocBag, LineBag, ItemsBag, DocInv, CurOk, ListDepth, QuoteDepth, OpenBelow, StackOk;
    NotEmpty(st, r);
    TopDepth(st.stack, st.root);
    match TopOf(st)
    case AtRoot =>
      DocAdd(st.root, ListBlock(List(ordered, [])));
      NoItemsBag();
    case AtItem(path, i) => OpenBelowBag(st, path, i, ordered);
    case AtList(path, _) =>
      if |ListAt(st.root, path).items| > 0 { OpenBelowBag(st, path, |ListAt(st.root, path).items| - 1, ordered); }
    case AtQuote(_) =>
  }

  lemma {:induction false} OpenItemBag(st: State, r: Rules)
    requires StateInv(st, r)
    ensures DocBag(OpenItem(st).root) == DocBag(st.root) && OpenItem(st).cur == st.cur
  {
    hide DocBag, DocInv, CurOk, ListDepth, QuoteDepth, StackOk, LineBag;
    NotEmpty(st, r);
    TopDepth(st.stack, st.root);
    if TopOf(st).AtList? {
      AddItemBag(st.root, TopOf(st).path, Item([], []));
      NoLineBag();
      assert SubsBag([]) == multiset{};
    }
  }

  /** The break an element puts at its ends. */
  function Edge(tag: string): seq<Cell> { if tag in BOUNDARY_TAGS then [Break] else [] }

  lemma {:induction false} EnterShows(tag: string, href: Option<string>, m: Marks, link: nat, st: State, y: seq<Cell>, r: Rules)
    requires StateInv(st, r)
    ensures Shows(Enter(tag, href, m, link, st, r).st, y) == Shows(st, Edge(tag) + y)
    ensures Enter(tag, href, m, link, st, r).flush == (tag in BOUNDARY_TAGS)
  {
    hide DocBag, StateInv, Flush, LookRows, Cells, Enter;
    FlushShows(st, y, r);
    if tag in BOUNDARY_TAGS { EnterBlock(tag, href, m, link, st, r); } else { EnterInline(tag, href, m, link, st, r); }
    assert [] + y == y;
  }

  lemma {:induction false} EnterInline(tag: string, href: Option<string>, m: Marks, link: nat, st: State, r: Rules)
    requires tag !in BOUNDARY_TAGS
    ensures var p := Enter(tag, href, m, link, st, r); p.st.root == st.root && p.st.cur == st.cur && !p.flush
  {
    hide Flush, OpenQuote, OpenList, OpenItem, BOUNDARY_TAGS;
    if IsHeading(tag) || tag in {"li", "ul", "ol", "blockquote"} { NamedBlocks(tag); }
  }

  lemma {:induction false} EnterBlock(tag: string, href: Option<string>, m: Marks, link: nat, st: State, r: Rules)
    requires StateInv(st, r) && tag in BOUNDARY_TAGS
    ensures var p := Enter(tag, href, m, link, st, r);
            DocBag(p.st.root) == DocBag(Flush(st).root) && p.st.cur == Flush(st).cur && p.flush
  {
    hide DocBag, StateInv, Flush, OpenQuote, OpenList, OpenItem, BOUNDARY_TAGS;
    FlushOk(st, r);
    OpenQuoteBag(Flush(st), r);
    OpenListBag(Flush(st), tag == "ol", r);
    OpenItemBag(Flush(st), r);
    NotInline(tag);
  }

  lemma {:induction false} LeaveShows(p: Plan, st: State, y: seq<Cell>, r: Rules)
    requires StateInv(st, r)
    ensures Shows(Leave(p, st), y) == Shows(st, (if p.flush then [Break] else []) + y)
  {
    hide DocBag, LineBag, StateInv, Flush, LookRows, Cells;
    FlushShows(st, y, r);
    assert [] + y == y;
  }

  lemma {:induction false} PushTextShows(st: State, data: string, m: Marks, link: nat, y: seq<Cell>)
    ensures Shows(PushText(st, data, m, link), y) == Shows(st, Glyphs(StripForbidden(data), m, 0) + y)
  {
    hide DocBag, Cells, LookRows, StripForbidden;
    var clean := StripForbidden(data);
    var a, b := Glyphs(clean, m, link), Glyphs(clean, m, 0);
    if clean == "" {
      assert b + y == y;
    } else {
      CellsSnoc(st.cur, Run(clean, m, link));
      SameLink(clean, m, link);
      SameMore(Cells(st.cur), Cells(st.cur), a, b);
      SameMore(Cells(st.cur) + a, Cells(st.cur) + b, y, y);
      SameFolded(Cells(st.cur) + a + y, Cells(st.cur) + b + y);
      SeqAssoc(Cells(st.cur), b, y);
    }
  }

  lemma {:induction false} SameLink(t: string, m: Marks, link: nat)
    ensures SameLooks(Glyphs(t, m, link), Glyphs(t, m, 0)) && forall e :: SameLooks(e, e)
  {}

  lemma {:induction false} PushBrShows(st: State, y: seq<Cell>)
    ensures Shows(st.(cur := st.cur + [Br]), y) == Shows(st, [Break] + y)
  {
    hide DocBag, Cells, LookRows;
    CellsSnoc(st.cur, Br);
    SeqAssoc(Cells(st.cur), [Break], y);
  }

  // ---- marks and containers from the ancestors ----

  /** The walk is where its ancestors say: its marks are theirs, and a container is open exactly below one of them that opens one. */
  ghost predicate Stands(above: seq<Above>, m: Marks, st: State, r: Rules) {
    m == MarksUnder(above, r) && (TopOf(st) == AtRoot <==> !Inside(above, r))
  }

  lemma {:induction false} EnterStands(tag: string, href: Option<string>, above: seq<Above>, m: Marks, link: nat, st: State, r: Rules)
    requires CleanOk(r) && StateInv(st, r) && Stands(above, m, st, r)
    ensures var p := Enter(tag, href, m, link, st, r); Stands(above + [Above(tag, href)], p.m, p.st, r)
  {
    hide MarksUnder, Inside, CleanOk, StateInv, Enter, Holder;
    var a := Above(tag, href);
    InsideSnoc(above, a, r);
    EnterMarks(tag, href, above, m, link, st, r);
    EnterTop(tag, href, m, link, st, r);
  }

  /** The children's marks are those of their ancestors. */
  lemma {:induction false} EnterMarks(tag: string, href: Option<string>, above: seq<Above>, m: Marks, link: nat, st: State, r: Rules)
    requires CleanOk(r) && Stands(above, m, st, r)
    ensures Enter(tag, href, m, link, st, r).m == MarksUnder(above + [Above(tag, href)], r)
  {
    hide Flush, OpenQuote, OpenList, OpenItem, MarksUnder, Inside, CleanOk, BOUNDARY_TAGS, Target;
    MarksSnoc(above, Above(tag, href), r);
    NoTarget(Above(tag, href), r);
    FlushTop(st);
  }

  lemma {:induction false} FlushTop(st: State)
    ensures TopOf(Flush(st)) == TopOf(st)
  {
    hide Finished, Deposit;
  }

  /** A container is open for the children exactly when it was before or the element opens one. */
  lemma {:induction false} EnterTop(tag: string, href: Option<string>, m: Marks, link: nat, st: State, r: Rules)
    requires StateInv(st, r)
    ensures TopOf(Enter(tag, href, m, link, st, r).st) == AtRoot <==> TopOf(st) == AtRoot && !Holder(Above(tag, href), r)
  {
    hide Flush, OpenQuote, OpenList, OpenItem, StateInv, BOUNDARY_TAGS;
    FlushOk(st, r);
    FlushTop(st);
    QuoteTop(Flush(st), r);
    ListTop(Flush(st), tag == "ol", r);
    ItemTop(Flush(st));
    SameTop(st, Enter(tag, href, m, link, st, r).st);
  }

  lemma {:induction false} SameTop(st: State, s: State)
    ensures s.stack == st.stack ==> TopOf(s) == TopOf(st)
  {}

  lemma {:induction false} NoTarget(a: Above, r: Rules)
    requires CleanOk(r)
    ensures Target(a, r) != "" <==> a.tag == "a" && "a" in r.tags && a.href.Some? && r.clean(a.href.value).Some?
    ensures Target(a, r) != "" ==> Some(Target(a, r)) == r.clean(a.href.value)
  {}

  lemma {:induction false} QuoteTop(st: State, r: Rules)
    ensures TopOf(OpenQuote(st, r).0) == AtRoot <==> TopOf(st) == AtRoot && "blockquote" !in r.tags
  {}

  lemma {:induction false} ItemTop(st: State)
    ensures TopOf(OpenItem(st)) == AtRoot <==> TopOf(st) == AtRoot
  {
    hide SetList, ListAt;
  }

  lemma {:induction false} ListTop(st: State, ordered: bool, r: Rules)
    requires StateInv(st, r)
    ensures TopOf(OpenList(st, ordered, r).0) == AtRoot <==> TopOf(st) == AtRoot && "ul" !in r.tags
  {
    hide SetList, ListAt, DocInv, CurOk, QuoteDepth, ListDepth, Enclosing;
    NotEmpty(st, r);
    TopDepth(st.stack, st.root);
  }

  // ---- the walk ----

  lemma {:induction false} WalkShows(n: Dom, above: seq<Above>, m: Marks, link: nat, depth: nat, st: State, y: seq<Cell>, r: Rules)
    requires CleanOk(r) && StateInv(st, r) && MarkOk(m, link, st.nextLink, r) && Continues(st.cur, m.href, link)
    requires Stands(above, m, st, r)
    ensures var w := Walk(n, m, link, depth, st, r); w.Some? ==> Shows(w.value, y) == Shows(st, AllowedOnly(Reading(n, above, r)) + y)
    decreases n, 1
  {
    hide StateInv, Continues, MarkOk, CleanOk, PlanOk, Enter, Leave, Shows, DocGrows, Stands, StripForbidden, BOUNDARY_TAGS, AllowedOnly;
    AllowedOnlyConcat([], []);
    if depth <= MAX_DEPTH {
      match n
      case TextNode(data) =>
        StandsMarks(above, m, st, r);
        AllowedGlyphs(data, m);
        PushTextShows(st, data, m, link, y);
      case OtherNode => assert [] + y == y;
      case Element(tag, href, kids) =>
        if tag in DROP_TAGS {
          assert [] + y == y;
        } else if tag == "br" {
          PushBrShows(st, y);
        } else {
          ElementShows(tag, href, kids, above, m, link, depth, st, y, r);
        }
    }
  }

  lemma {:induction false} StandsMarks(above: seq<Above>, m: Marks, st: State, r: Rules)
    requires Stands(above, m, st, r)
    ensures m == MarksUnder(above, r)
  {}

  lemma {:induction false} ElementShows(tag: string, href: Option<string>, kids: seq<Dom>, above: seq<Above>, m: Marks, link: nat, depth: nat, st: State, y: seq<Cell>, r: Rules)
    requires CleanOk(r) && StateInv(st, r) && MarkOk(m, link, st.nextLink, r) && Continues(st.cur, m.href, link)
    requires Stands(above, m, st, r) && tag !in DROP_TAGS && tag != "br"
    ensures var p := Enter(tag, href, m, link, st, r);
            var w := WalkAll(kids, p.m, p.link, depth + 1, p.st, r);
            w.Some? ==> Shows(Leave(p, w.value), y) == Shows(st, AllowedOnly(Reading(Element(tag, href, kids), above, r)) + y)
    decreases kids, 2
  {
    hide StateInv, Continues, MarkOk, CleanOk, PlanOk, Enter, Leave, Shows, DocGrows, Stands, ReadingAll, WalkAll, BOUNDARY_TAGS, AllowedOnly;
    var p := Enter(tag, href, m, link, st, r);
    var more := above + [Above(tag, href)];
    var raw := ReadingAll(kids, more, r);
    var inner := AllowedOnly(raw);
    EnterOk(tag, href, m, link, st, r);
    EnterStands(tag, href, above, m, link, st, r);
    PlanParts(st, m, link, p, r);
    WalkAllKeeps(kids, p.m, p.link, depth + 1, p.st, r);
    WalkAllShows(kids, more, p.m, p.link, depth + 1, p.st, Edge(tag) + y, r);
    var w := WalkAll(kids, p.m, p.link, depth + 1, p.st, r);
    if w.Some? {
      EnterShows(tag, href, m, link, st, inner + (Edge(tag) + y), r);
      LeaveShows(p, w.value, y, r);
      Edges(tag, inner, y);
      EdgesAllowed(raw);
    }
  }

  lemma {:induction false} Edges(tag: string, inner: seq<Cell>, y: seq<Cell>)
    ensures Edge(tag) + (inner + (Edge(tag) + y)) == (if tag in BOUNDARY_TAGS then [Break] + inner + [Break] else inner) + y
  {
    hide BOUNDARY_TAGS;
  }

  lemma {:induction false} EdgesAllowed(e: seq<Cell>)
    ensures AllowedOnly([Break] + e + [Break]) == [Break] + AllowedOnly(e) + [Break]
  {
    hide AllowedOnly;
    AllowedOnlyConcat([Break], e);
    AllowedOnlyConcat([Break] + e, [Break]);
  }

  lemma {:induction false} WalkAllShows(kids: seq<Dom>, above: seq<Above>, m: Marks, link: nat, depth: nat, st: State, y: seq<Cell>, r: Rules)
    requires CleanOk(r) && StateInv(st, r) && MarkOk(m, link, st.nextLink, r) && Continues(st.cur, m.href, link)
    requires Stands(above, m, st, r)
    ensures var w := WalkAll(kids, m, link, depth, st, r); w.Some? ==> Shows(w.value, y) == Shows(st, AllowedOnly(ReadingAll(kids, above, r)) + y)
    decreases kids, 0
  {
    hide StateInv, Continues, MarkOk, CleanOk, Walk, Shows, DocGrows, Reading, Stands, AllowedOnly;
    AllowedOnlyConcat([], []);
    if kids == [] {
      assert [] + y == y;
    } else {
      var first, rest := AllowedOnly(Reading(kids[0], above, r)), AllowedOnly(ReadingAll(kids[1..], above, r));
      AllowedOnlyConcat(Reading(kids[0], above, r), ReadingAll(kids[1..], above, r));
      WalkShows(kids[0], above, m, link, depth, st, rest + y, r);
      WalkKeeps(kids[0], m, link, depth, st, r);
      var w := Walk(kids[0], m, link, depth, st, r);
      if w.Some? {
        MarkLater(m, link, st.nextLink, w.value.nextLink, r);
        StandsStill(above, m, st, w.value, r);
        WalkAllShows(kids[1..], above, m, link, depth, w.value, y, r);
        SeqAssoc(first, rest, y);
      }
    }
  }

  lemma {:induction false} StandsStill(above: seq<Above>, m: Marks, st: State, s: State, r: Rules)
    requires Stands(above, m, st, r) && s.stack == st.stack
    ensures Stands(above, m, s, r)
  {}

  /**
   * The document holds exactly the rows that the tree shows, each as often: its visible characters in their order, with the marks their
   * ancestors give them.
   */
  lemma {:induction false} SanitizedKeepsRows(nodes: seq<Dom>, r: Rules)
    requires CleanOk(r)
    ensures Sanitized(nodes, r).Some? ==> DocBag(Sanitized(nodes, r).value) == multiset(LookRows(AllowedOnly(ReadingAll(nodes, [], r))))
  {
    hide DocBag, Flush, WalkAll, CleanOk, StateInv, ReadingAll, LookRows, MarksUnder, Inside, AllowedOnly;
    StartOk(r);
    NothingAbove(r);
    assert Stands([], NO_MARKS, START, r);
    WalkAllKeeps(nodes, NO_MARKS, 0, 0, START, r);
    var x := AllowedOnly(ReadingAll(nodes, [], r));
    WalkAllShows(nodes, [], NO_MARKS, 0, 0, START, [Break], r);
    var w := WalkAll(nodes, NO_MARKS, 0, 0, START, r);
    if w.Some? {
      FlushShows(w.value, [], r);
      assert [Break] + [] == [Break];
      NothingShown(Flush(w.value), x);
      FlushEmpties(w.value);
    }
  }

  lemma {:induction false} FlushEmpties(st: State)
    ensures Flush(st).cur == []
  {
    hide Finished, Deposit;
  }

  lemma {:induction false} NothingShown(st: State, x: seq<Cell>)
    ensures st.cur == [] ==> Shows(st, []) == DocBag(st.root)
    ensures Shows(START, x + [Break]) == multiset(LookRows(x))
  {
    hide LookRows;
    NoLooks();
    LookRowsJoin(x, []);
    assert x + [Break] + [] == x + [Break] == Cells([]) + (x + [Break]);
    assert LookRows(x) + [] == LookRows(x);
    assert Cells([]) + [] == [];
    assert DocBag([]) == multiset{};
  }
}
