// The sanitized document has the outline of the foreign tree: every line in order, in the quote, list and item its elements put it, at
// the level they give it, with its marks (apps/rich-editor/src/sanitize.ts:127-354, 484-496).

module OutlineWalk {
  import opened Base
  import opened Chars
  import opened RichModel
  import opened Markup
  import opened Finish
  import FinishSpec
  import opened SanitizerModel
  import opened SanitizerInv
  import opened SanitizerWalk
  import opened SanitizerText
  import opened MarkedRows
  import opened TreeReading
  import opened Outline
  import opened OutlineSpine

  function WhereOf(c: Container): Where {
    match c
    case AtRoot => AtTop
    case AtQuote(_) => InQuote
    case AtList(path, _) => InList(Depth(path))
    case AtItem(path, _) => InItem(Depth(path))
  }

  /** More contents for a container whose own entry, if it is an item, is the one at `k`. */
  function Put(o: seq<Entry>, k: nat, c: Content): seq<Entry> { Extend(o, k, c.rows) + c.entries }

  /** The outline once `y` has been read where the walk is now. */
  function Result(st: State, y: seq<Bit>): seq<Entry>
    requires Placed(TopOf(st), st.root)
  {
    Put(DocOutline(st.root), Index(TopOf(st), st.root), Read(WhereOf(TopOf(st)), st.curKind, Cells(st.cur), y))
  }

  /** The list on top has an item, or text that will be one. */
  predicate Begun(st: State) {
    TopOf(st).AtList? && (ListAt(st.root, TopOf(st).path).items != [] || HasInk(Cells(st.cur)))
  }

  /** The walk stands in the container `w`. */
  predicate Stood(st: State, w: Where, begun: bool) {
    Placed(TopOf(st), st.root) && WhereOf(TopOf(st)) == w && (w == InList(1) ==> (begun <==> Begun(st)))
  }

  // ---- putting ----

  lemma {:induction false} ExtendNone(o: seq<Entry>, k: nat)
    ensures Extend(o, k, []) == o
  {
    if k < |o| && o[k].ItemStarts? { assert o[k].rows + [] == o[k].rows; }
  }

  lemma {:induction false} PutNothing(o: seq<Entry>, k: nat)
    ensures Put(o, k, NOTHING) == o
  {
    hide Extend;
    ExtendNone(o, k);
  }

  predicate Takes(o: seq<Entry>, k: nat, rows: seq<Row>) { (k < |o| && o[k].ItemStarts?) || rows == [] }

  lemma {:induction false} ExtendMore(o: seq<Entry>, k: nat, a: seq<Row>, b: seq<Row>, x: seq<Entry>)
    requires Takes(o, k, a) && Takes(o, k, b)
    ensures Extend(Extend(o, k, a) + x, k, b) == Extend(o, k, a + b) + x
  {
    ExtendNone(o, k);
    ExtendNone(o + x, k);
    if k < |o| && o[k].ItemStarts? {
      SeqAssoc(o[k].rows, a, b);
    } else {
      assert a + b == [];
    }
  }

  /** Contents put one after the other. */
  lemma {:induction false} PutPlus(o: seq<Entry>, k: nat, a: Content, b: Content)
    requires Takes(o, k, a.rows) && Takes(o, k, b.rows)
    ensures Put(Put(o, k, a), k, b) == Put(o, k, Plus(a, b))
  {
    hide Extend, Takes;
    ExtendMore(o, k, a.rows, b.rows, a.entries);
    SeqAssoc(Extend(o, k, a.rows + b.rows), a.entries, b.entries);
  }

  lemma {:induction false} PutEntries(o: seq<Entry>, k: nat, x: seq<Entry>)
    ensures Put(o, k, Content([], x)) == o + x
  {
    hide Extend;
    ExtendNone(o, k);
  }

  /** Rows go only into items, which have an entry. */
  lemma {:induction false} TopTakes(st: State, kind: TextKind, e: seq<Cell>, y: seq<Bit>)
    requires Placed(TopOf(st), st.root)
    ensures Takes(DocOutline(st.root), Index(TopOf(st), st.root), Read(WhereOf(TopOf(st)), kind, e, y).rows)
    ensures Takes(DocOutline(st.root), Index(TopOf(st), st.root), LineIn(WhereOf(TopOf(st)), kind, e).rows)
  {
    hide DocOutline, Index, Placed, Read, LookRows;
    var c := TopOf(st);
    if c.AtItem? { IndexIs(c, st.root); } else { NoRows(WhereOf(c), kind, e, y); }
  }

  // ---- flushing ----

  /** A finished line is put where its container says. */
  lemma {:induction false} DepositOutline(root: Doc, c: Container, kind: TextKind, chunks: seq<Chunk>)
    requires Placed(c, root) && RowsOf(chunks) != []
    ensures var d := Deposit(root, c, kind, chunks);
            && DocOutline(d) == Put(DocOutline(root), Index(c, root), LineIn(WhereOf(c), kind, Cells(chunks)))
            && Stays(c, root, d) && (c.AtList? ==> ListAt(d, c.path).items != [])
  {
    hide DocOutline, OnSpine, ListAt, SetList, HasList, Kept, LookRows, Cells, Extend, Head, ItemsOutline, Depth;
    var k := Index(c, root);
    match c
    case AtRoot =>
      DocSnoc(root, TextBlock(kind, chunks));
      PutEntries(DocOutline(root), k, [TextLine(kind, RowsOf(chunks))]);
    case AtQuote(b) =>
      QuoteGains(root, b, chunks);
      PutEntries(DocOutline(root), k, [QuoteLine(RowsOf(chunks))]);
    case AtList(path, _) =>
      SpineHas(root, path);
      AddItemOutline(root, path, Item(chunks, []));
      PutEntries(DocOutline(root), k, [ItemStarts(Depth(path), RowsOf(chunks))]);
    case AtItem(path, i) =>
      JoinRows(ListAt(root, path).items[i], chunks);
      JoinOutline(root, c, Join(ListAt(root, path).items[i], chunks), RowsOf(chunks));
      assert Extend(DocOutline(root), k, RowsOf(chunks)) + [] == Extend(DocOutline(root), k, RowsOf(chunks));
  }

  lemma {:induction false} FinishedRows(cur: seq<Chunk>)
    ensures match Finished(cur)
            case None => LookRows(Cells(cur)) == []
            case Some(chunks) => RowsOf(chunks) == LookRows(Cells(cur)) != []
  {
    hide LookRows, Cells, Finished, HasInk;
    FinishKeepsRows(cur);
    RowsNeedInk(Cells(cur));
    FinishedInk(cur);
  }

  lemma {:induction false} FinishedInk(cur: seq<Chunk>)
    ensures Finished(cur).Some? <==> HasInk(Cells(cur))
  {
    hide Cells, FinishSpec.Line, Finished, LookRows;
    FinishSpec.FinishContract(cur);
    LineLooks(cur);
    RowsNeedInk(Cells(cur));
    RowsNeedInk(FinishSpec.Line(cur));
  }

  /** A flush ends the line, whatever kind the next one is of. */
  lemma {:induction false} FlushResult(st: State, kind: TextKind, y: seq<Bit>)
    requires Placed(TopOf(st), st.root)
    ensures var s := Flush(st).(curKind := kind);
            && s.stack == st.stack && Stays(TopOf(st), st.root, s.root) && Placed(TopOf(s), s.root)
            && Result(s, y) == Result(st, [Turn(kind)] + y)
  {
    hide DocOutline, Deposit, Finished, Stays, Put, LineIn, Read, Cells, Index, Placed;
    var s := Flush(st).(curKind := kind);
    var c, w, o := TopOf(st), WhereOf(TopOf(st)), DocOutline(st.root);
    FlushDoc(st);
    IndexStays(c, st.root, s.root);
    NoCells();
    ReadTurn(w, st.curKind, Cells(st.cur), kind, y);
    TopTakes(st, kind, [], y);
    TopTakes(st, st.curKind, Cells(st.cur), y);
    PutPlus(o, Index(c, st.root), LineIn(w, st.curKind, Cells(st.cur)), Read(w, kind, [], y));
  }

  lemma {:induction false} NoCells()
    ensures Cells([]) == []
  {}

  lemma {:induction false} FlushDoc(st: State)
    requires Placed(TopOf(st), st.root)
    ensures var s := Flush(st); var c := TopOf(st);
            && s.stack == st.stack && s.cur == [] && s.curKind == P && TopOf(s) == c
            && Stays(c, st.root, s.root) && Placed(c, s.root)
            && DocOutline(s.root) == Put(DocOutline(st.root), Index(c, st.root), LineIn(WhereOf(c), st.curKind, Cells(st.cur)))
  {
    hide DocOutline, Deposit, Finished, Put, Cells, Index, Placed, LookRows;
    var c := TopOf(st);
    FinishedRows(st.cur);
    match Finished(st.cur)
    case None =>
      StaysSelf(c, st.root);
      PutNothing(DocOutline(st.root), Index(c, st.root));
    case Some(chunks) =>
      DepositOutline(st.root, c, st.curKind, chunks);
  }

  /** A flush makes an item of pending text, so a list that has begun still has. */
  lemma {:induction false} FlushBegun(st: State)
    requires Placed(TopOf(st), st.root)
    ensures Begun(Flush(st)) <==> Begun(st)
  {
    hide DocOutline, Deposit, Finished, Put, Index, Placed, LookRows, ListAt, HasInk;
    var c := TopOf(st);
    FinishedRows(st.cur);
    RowsNeedInk(Cells(st.cur));
    NoneHeld();
    assert TopOf(Flush(st)) == c;
    if Finished(st.cur).Some? && c.AtList? { DepositOutline(st.root, c, st.curKind, Finished(st.cur).value); }
  }

  /** At the end of a container its contents are all in the document. */
  lemma {:induction false} FlushEnds(st: State)
    requires Placed(TopOf(st), st.root)
    ensures DocOutline(Flush(st).root) == Result(st, [])
  {
    hide DocOutline, Deposit, Finished, Stays, Put, LookRows, Cells, Index, Placed, Flush;
    FlushDoc(st);
  }

  // ---- opening ----

  /** A container was opened: it stands at the end, and its own entries are `x`. */
  predicate Opened(st: State, s: State, w: Where, x: seq<Entry>) {
    && |s.stack| == |st.stack| + 1 && s.stack[..|st.stack|] == st.stack && s.cur == [] && s.curKind == P
    && Placed(TopOf(s), s.root) && WhereOf(TopOf(s)) == w
    && DocOutline(s.root) == DocOutline(st.root) + x
    && (TopOf(s).AtItem? ==> Index(TopOf(s), s.root) == |DocOutline(st.root)|)
    && (TopOf(s).AtList? && Depth(TopOf(s).path) == 1 ==> ListAt(s.root, TopOf(s).path).items == [])
  }

  /** The container `c` of the document `d` was opened inside `outer`, where the document was `root`. */
  predicate From(outer: Container, root: Doc, c: Container, d: Doc)
    requires Placed(outer, root)
  {
    && Placed(c, d) && Stays(outer, root, d)
    && match outer
       case AtRoot => true
       case AtQuote(_) => false
       case AtList(path, _) =>
         || (c.AtItem? && c.path == path && c.item == |ListAt(root, path).items|
             && ListAt(d, path).items[..c.item] == ListAt(root, path).items)
         || (c.AtList? && c.path == path && d == root)
         || (c.AtList? && Depth(path) == 1 && Under(c.path, path, |ListAt(root, path).items|))
       case AtItem(path, i) =>
         || (c.AtList? && Depth(path) == 2 && c.path == path && d == root)
         || (c.AtList? && Depth(path) == 1 && Under(c.path, path, i + 1))
  }

  predicate Under(q: ListPath, path: ListPath, n: nat) { q.Below? && q.parent == path && q.item + 1 == n }

  /** Walking inside the inner container leaves the outer one as it must be. */
  lemma {:induction false} InnerStays(outer: Container, root: Doc, c: Container, d: Doc, root': Doc)
    requires Placed(outer, root) && From(outer, root, c, d) && Stays(c, d, root')
    ensures Stays(outer, root, root')
  {
    hide ListAt, HasList, DocOutline;
    match outer
    case AtRoot =>
    case AtQuote(_) =>
    case AtList(path, _) => InnerList(outer, root, c, d, root');
    case AtItem(path, i) => InnerItem(outer, root, c, d, root');
  }

  lemma {:induction false} InnerList(outer: Container, root: Doc, c: Container, d: Doc, root': Doc)
    requires outer.AtList? && Placed(outer, root) && From(outer, root, c, d) && Stays(c, d, root')
    ensures Stays(outer, root, root')
  {
    hide ListAt, HasList;
    var path := outer.path;
    SpineHas(root, path);
    SpineHas(d, path);
    SpineHas(d, c.path);
    SpineHas(root', c.path);
    SpineHas(root', path);
    KeptOn(root, d, root', path);
  }

  lemma {:induction false} InnerItem(outer: Container, root: Doc, c: Container, d: Doc, root': Doc)
    requires outer.AtItem? && Placed(outer, root) && From(outer, root, c, d) && Stays(c, d, root')
    ensures Stays(outer, root, root')
  {
    hide ListAt, HasList;
    var path := outer.path;
    SpineHas(root, path);
    SpineHas(d, path);
    SpineHas(d, c.path);
    SpineHas(root', c.path);
    SpineHas(root', path);
    KeptOn(root, d, root', path);
  }

  /** Nothing is pending where a container opens. */
  predicate Ready(st: State) { st.cur == [] && st.curKind == P && Placed(TopOf(st), st.root) }

  lemma {:induction false} QuoteOpened(st: State, r: Rules)
    requires Ready(st)
    ensures var s := OpenQuote(st, r).0;
            if "blockquote" in r.tags && WhereOf(TopOf(st)) == AtTop
            then OpenQuote(st, r).1 && Opened(st, s, InQuote, [QuoteStarts]) && From(TopOf(st), st.root, TopOf(s), s.root)
            else OpenQuote(st, r) == (st, false)
  {
    hide DocOutline, Stays;
    if "blockquote" in r.tags && TopOf(st) == AtRoot {
      DocSnoc(st.root, Quote([]));
      assert BlockOutline(Quote([])) == [QuoteStarts];
      StaysAtRoot(st.root, st.root + [Quote([])]);
    }
  }

  lemma {:induction false} StaysAtRoot(root: Doc, d: Doc)
    ensures Stays(AtRoot, root, d)
  {}

  lemma {:induction false} ItemOpened(st: State)
    requires Ready(st) && TopOf(st).AtList?
    ensures var s := OpenItem(st); var level := Depth(TopOf(st).path);
            && Opened(st, s, InItem(level), [ItemStarts(level, [])])
            && From(TopOf(st), st.root, TopOf(s), s.root)
  {
    hide OnSpine, HasList, ListAt, SetList, DocOutline, Kept, ItemsOutline, Head, RowsOf, Depth;
    var path := TopOf(st).path;
    var l := ListAt(st.root, path);
    SpineHas(st.root, path);
    AddItemOutline(st.root, path, Item([], []));
    NoLine();
    var d := OpenItem(st).root;
    assert (l.items + [Item([], [])])[..|l.items|] == l.items;
    SpineOutline(st.root, path);
    KeptHead(st.root, d, path);
  }

  /** An alias adds nothing. */
  lemma {:induction false} AliasOpened(st: State, path: ListPath)
    requires Ready(st) && OnSpine(st.root, path) && (Depth(path) == 1 ==> ListAt(st.root, path).items == [])
    requires (TopOf(st).AtList? && TopOf(st).path == path) || (TopOf(st).AtItem? && TopOf(st).path == path && Depth(path) == 2)
    ensures var s := PushOn(st, st.root, AtList(path, true));
            Opened(st, s, InList(Depth(path)), []) && From(TopOf(st), st.root, TopOf(s), s.root)
  {
    hide OnSpine, ListAt, DocOutline, Depth, Stays;
    StaysSelf(TopOf(st), st.root);
    assert DocOutline(st.root) + [] == DocOutline(st.root);
  }

  lemma {:induction false} BelowOpened(st: State, path: ListPath, ordered: bool)
    requires Ready(st) && OnSpine(st.root, path) && Depth(path) == 1 && ListAt(st.root, path).items != []
    requires (TopOf(st).AtList? || TopOf(st).AtItem?) && TopOf(st).path == path
    ensures var s := OpenBelow(st, path, |ListAt(st.root, path).items| - 1, ordered);
            Opened(st, s, InList(2), [ListStarts(2, ordered)]) && From(TopOf(st), st.root, TopOf(s), s.root)
  {
    hide OnSpine, ListAt, HasList, SetList, DocOutline, Kept;
    SpineHas(st.root, path);
    AddSubOutline(st.root, path, ordered);
    var l := ListAt(st.root, path);
    assert SubAdded(l, ordered).items[..|l.items|-1] == l.items[..|l.items|-1];
  }

  lemma {:induction false} ListAtTop(st: State, ordered: bool)
    requires Ready(st) && TopOf(st) == AtRoot
    ensures var s := PushOn(st, st.root + [ListBlock(List(ordered, []))], AtList(InBlock(|st.root|), false));
            Opened(st, s, InList(1), [ListStarts(1, ordered)]) && From(TopOf(st), st.root, TopOf(s), s.root)
  {
    hide DocOutline;
    DocSnoc(st.root, ListBlock(List(ordered, [])));
    NoItems(1);
    assert BlockOutline(ListBlock(List(ordered, []))) == [ListStarts(1, ordered)];
  }

  /** Lists open as the rules of levels say. */
  lemma {:induction false} ListOpened(st: State, tag: string, begun: bool, r: Rules)
    requires tag in {"ul", "ol"} && StateInv(st, r) && Ready(st) && Stood(st, WhereOf(TopOf(st)), begun)
    ensures var w := WhereOf(TopOf(st)); var p := OpenList(st, tag == "ol", r);
            match Opens(tag, w, begun, r)
            case None => p == (st, false)
            case Some(w') => p.1 && Opened(st, p.0, w', Start(tag, w, w', [])) && From(TopOf(st), st.root, TopOf(p.0), p.0.root)
  {
    hide DocInv, CurOk, OnSpine, ListAt, HasList, DocOutline, Opened, From, ListDepth, QuoteDepth, OpenBelow, HasInk, Enclosing;
    NotEmpty(st, r);
    TopDepth(st.stack, st.root);
    var c := TopOf(st);
    if c.AtQuote? { QuoteOpen(st); } else { ListsNoQuote(st.stack, st.root); }
    if "ul" in r.tags {
      match c
      case AtRoot => ListAtTop(st, tag == "ol");
      case AtQuote(_) =>
      case AtItem(path, i) =>
        Levels(st.root, path, r);
        if Depth(path) == 2 { AliasOpened(st, path); } else { BelowOpened(st, path, tag == "ol"); }
      case AtList(path, _) =>
        Levels(st.root, path, r);
        NoneHeld();
        NoCells();
        if Depth(path) == 2 || ListAt(st.root, path).items == [] { AliasOpened(st, path); } else { BelowOpened(st, path, tag == "ol"); }
    }
  }

  lemma {:induction false} QuoteOpen(st: State)
    requires TopOf(st).AtQuote?
    ensures QuoteDepth(st.stack) > 0
  {}

  lemma {:induction false} Levels(root: Doc, path: ListPath, r: Rules)
    requires DocInv(root, r) && HasList(root, path)
    ensures Depth(path) == 1 || Depth(path) == 2
  {
    ListOfDoc(root, path, r);
    DepthPositive(path);
  }

  // ---- entering elements ----

  lemma {:induction false} FlushStood(st: State, w: Where, begun: bool)
    requires Stood(st, w, begun)
    ensures Ready(Flush(st)) && Stood(Flush(st), w, begun) && TopOf(Flush(st)) == TopOf(st)
  {
    hide Flush, Placed, Begun, Stays;
    FlushDoc(st);
    FlushBegun(st);
  }

  /** An element that opens nothing: at most it ends the line. */
  lemma {:induction false} PlainEnter(tag: string, href: Option<string>, m: Marks, link: nat, st: State, w: Where, begun: bool, r: Rules)
    requires StateInv(st, r) && Stood(st, w, begun) && Opens(tag, w, begun, r) == None
    ensures var p := Enter(tag, href, m, link, st, r);
            && !p.pop && p.flush == (tag in BOUNDARY_TAGS)
            && if tag in BOUNDARY_TAGS then p.st == Flush(st).(curKind := KindIn(tag, w, r)) else p.st == st.(nextLink := p.st.nextLink)
  {
    hide Flush, OpenQuote, OpenList, OpenItem, StateInv, BOUNDARY_TAGS, Opened, From, Begun, Placed;
    FlushOk(st, r);
    FlushStood(st, w, begun);
    var s := Flush(st);
    if IsHeading(tag) || tag in {"li", "ul", "ol", "blockquote"} { NamedBlocks(tag); }
    if tag in BOUNDARY_TAGS { NotInline(tag); }
    QuoteOpened(s, r);
    if tag in {"ul", "ol"} { ListOpened(s, tag, begun, r); }
    TopWhere(st);
  }

  lemma {:induction false} TopWhere(st: State)
    ensures (TopOf(st) == AtRoot <==> WhereOf(TopOf(st)) == AtTop) && (TopOf(st).AtList? <==> WhereOf(TopOf(st)).InList?)
  {}

  lemma {:induction false} OpenEnter(tag: string, href: Option<string>, m: Marks, link: nat, st: State, w: Where, begun: bool, r: Rules)
    requires StateInv(st, r) && Stood(st, w, begun) && Opens(tag, w, begun, r).Some?
    requires Ready(Flush(st))
    ensures var p := Enter(tag, href, m, link, st, r); var s := Flush(st); var w' := Opens(tag, w, begun, r).value;
            && p.pop && p.flush && Opened(s, p.st, w', Start(tag, w, w', []))
            && From(TopOf(s), s.root, TopOf(p.st), p.st.root)
  {
    hide Flush, OpenQuote, OpenList, OpenItem, StateInv, BOUNDARY_TAGS, Opened, From, Begun, Placed;
    FlushOk(st, r);
    FlushStood(st, w, begun);
    var s := Flush(st);
    TopWhere(s);
    if tag == "blockquote" {
      QuoteOpened(s, r);
    } else if tag == "li" {
      ItemOpened(s);
    } else {
      ListOpened(s, tag, begun, r);
    }
  }

  // ---- closing a container ----

  /** The contents of an opened container follow its own entry; the rows of an item are part of it. */
  lemma {:induction false} Filled(o: seq<Entry>, tag: string, w: Where, w': Where, k: nat, c: Content)
    requires (w'.InItem? ==> k == |o|) && (!w'.InItem? ==> c.rows == [])
    ensures Put(o + Start(tag, w, w', []), k, c) == o + (Start(tag, w, w', c.rows) + c.entries)
  {
    var x := Start(tag, w, w', []);
    if w'.InItem? {
      assert (o + x)[|o|] == x[0] && [] + c.rows == c.rows;
      assert Extend(o + x, k, c.rows) == o + Start(tag, w, w', c.rows);
    } else {
      ExtendNone(o + x, k);
    }
    SeqAssoc(o, Start(tag, w, w', c.rows), c.entries);
  }

  /** The container is closed: `x` came at the end of the outline, and the walk goes on outside. */
  lemma {:induction false} After(st: State, t: State, x: seq<Entry>, y: seq<Bit>)
    requires Placed(TopOf(st), st.root) && t.stack == st.stack && t.cur == [] && t.curKind == P
    requires Placed(TopOf(st), Flush(st).root) && Stays(TopOf(st), Flush(st).root, t.root)
    requires DocOutline(t.root) == DocOutline(Flush(st).root) + x
    ensures TopOf(t) == TopOf(st) && Placed(TopOf(t), t.root)
    ensures Result(t, y) == Result(st, [Turn(P)] + (Nested(x) + ([Turn(P)] + y)))
  {
    hide DocOutline, Flush, Put, Read, Stays, Placed, Index, Cells;
    var s := Flush(st);
    var c, w := TopOf(st), WhereOf(TopOf(st));
    var rest := Nested(x) + ([Turn(P)] + y);
    FlushDoc(st);
    StaysPlaces(c, s.root, t.root);
    FlushResult(st, P, rest);
    assert Flush(st).(curKind := P) == s;
    IndexStays(c, s.root, t.root);
    ReadNested(w, x, y);
    var k := Index(c, s.root);
    NoCells();
    TopTakes(s, P, [], y);
    PutPlus(DocOutline(s.root), k, Content([], x), Read(w, P, [], y));
    PutEntries(DocOutline(s.root), k, x);
    TakesNone(DocOutline(s.root), k);
  }

  lemma {:induction false} TakesNone(o: seq<Entry>, k: nat)
    ensures Takes(o, k, [])
  {}

  lemma {:induction false} StaysPlaces(c: Container, root: Doc, d: Doc)
    requires Placed(c, root) && Stays(c, root, d)
    ensures Placed(c, d)
  {}

  /** The document once an opened container is read to its end. */
  lemma {:induction false} ReadToEnd(f: State, p: State, s: State, tag: string, w: Where, w': Where, bits: seq<Bit>)
    requires Opened(f, p, w', Start(tag, w, w', []))
    requires s.stack == p.stack && Placed(TopOf(s), s.root) && Result(s, []) == Result(p, bits + [])
    ensures var c := Read(w', P, [], bits);
            DocOutline(Flush(s).root) == DocOutline(f.root) + (Start(tag, w, w', c.rows) + c.entries)
  {
    hide DocOutline, Flush, Put, Read, Stays, Placed, Index, Cells, Start;
    FlushEnds(s);
    NoCells();
    assert bits + [] == bits;
    var c := Read(w', P, [], bits);
    assert Result(p, bits) == Put(DocOutline(p.root), Index(TopOf(p), p.root), c);
    if !w'.InItem? { NoRows(w', P, [], bits); }
    TopIs(p, w');
    Filled(DocOutline(f.root), tag, w, w', Index(TopOf(p), p.root), c);
  }

  lemma {:induction false} TopIs(p: State, w: Where)
    requires WhereOf(TopOf(p)) == w
    ensures TopOf(p).AtItem? <==> w.InItem?
  {}

  // ---- the walk ----

  /** From one state to the other exactly these bits were read, in the container `w`. */
  predicate Moves(st: State, s: State, bits: seq<Bit>, w: Where, begun: bool, y: seq<Bit>) {
    && s.stack == st.stack && Placed(TopOf(st), st.root) && Stays(TopOf(st), st.root, s.root) && Placed(TopOf(s), s.root)
    && Result(s, y) == Result(st, bits + y) && Stood(s, w, begun || Holds(bits))
  }

  lemma {:induction false} NothingMoves(st: State, w: Where, begun: bool, y: seq<Bit>)
    requires Stood(st, w, begun)
    ensures Moves(st, st, [], w, begun, y)
  {
    hide Placed, Stays, Begun, Index, Put, Read, DocOutline;
    StaysSelf(TopOf(st), st.root);
    NoneHeld();
    assert [] + y == y;
  }

  /** Pending cells that look alike are the same for the outline. */
  lemma {:induction false} PendingMoves(st: State, c: Chunk, e: seq<Cell>, w: Where, begun: bool, y: seq<Bit>)
    requires Stood(st, w, begun) && SameLooks(ChunkCells(c), e)
    ensures Moves(st, st.(cur := st.cur + [c]), Shown(e), w, begun, y)
  {
    hide Placed, Stays, Index, Put, Read, DocOutline, Holds, HasInk, SameLooks, ChunkCells, ListAt, Cells;
    var s := st.(cur := st.cur + [c]);
    StaysSelf(TopOf(st), st.root);
    CellsSnoc(st.cur, c);
    ReadSame(w, st.curKind, Cells(st.cur) + ChunkCells(c), Cells(st.cur) + e, y) by {
      SameSelf(Cells(st.cur));
      SameMore(Cells(st.cur), Cells(st.cur), ChunkCells(c), e);
    }
    ReadShown(w, st.curKind, Cells(st.cur), e, y);
    InkJoin(Cells(st.cur), ChunkCells(c));
    SameInk(ChunkCells(c), e);
    ShownHolds(e);
  }

  lemma {:induction false} SameSelf(e: seq<Cell>)
    ensures SameLooks(e, e)
  {}

  lemma {:induction false} SameInk(a: seq<Cell>, b: seq<Cell>)
    requires SameLooks(a, b)
    ensures HasInk(a) <==> HasInk(b)
  {
    hide HasInk, SameLooks, LookRows;
    SameFolded(a, b);
    RowsNeedInk(a);
    RowsNeedInk(b);
  }

  lemma {:induction false} TextMoves(st: State, data: string, m: Marks, link: nat, w: Where, begun: bool, y: seq<Bit>)
    requires Stood(st, w, begun)
    ensures Moves(st, PushText(st, data, m, link), Shown(Glyphs(StripForbidden(data), m, 0)), w, begun, y)
  {
    hide Stood, Moves, StripForbidden;
    var clean := StripForbidden(data);
    if clean == "" {
      NothingMoves(st, w, begun, y);
      assert Shown(Glyphs(clean, m, 0)) == [];
    } else {
      SameLink(clean, m, link);
      PendingMoves(st, Run(clean, m, link), Glyphs(clean, m, 0), w, begun, y);
    }
  }

  lemma {:induction false} BreakMoves(st: State, w: Where, begun: bool, y: seq<Bit>)
    requires Stood(st, w, begun)
    ensures Moves(st, st.(cur := st.cur + [Br]), [Show(Break)], w, begun, y)
  {
    hide Stood, Moves;
    OneLook(Break);
    assert Shown([Break]) == [Show(Break)];
    PendingMoves(st, Br, [Break], w, begun, y);
  }

  /** Two pieces read one after the other. */
  lemma {:induction false} MovesOn(a: State, b: State, c: State, x: seq<Bit>, z: seq<Bit>, w: Where, begun: bool, y: seq<Bit>)
    requires Moves(a, b, x, w, begun, z + y) && Moves(b, c, z, w, begun || Holds(x), y)
    ensures Moves(a, c, x + z, w, begun, y)
  {
    hide Placed, Stays, Begun, Index, Put, Read, DocOutline, Holds;
    StaysOn(TopOf(a), a.root, b.root, c.root);
    SeqAssoc(x, z, y);
    HoldsJoin(x, z);
  }

  lemma {:induction false} FlushMoves(st: State, kind: TextKind, w: Where, begun: bool, y: seq<Bit>)
    requires Stood(st, w, begun)
    ensures Moves(st, Flush(st).(curKind := kind), [Turn(kind)], w, begun, y)
  {
    hide Placed, Stays, Begun, Index, Put, Read, DocOutline, Holds, Flush;
    FlushResult(st, kind, y);
    FlushBegun(st);
    BegunKind(Flush(st), kind);
    TurnHolds(kind);
  }

  lemma {:induction false} BegunKind(st: State, kind: TextKind)
    ensures Begun(st.(curKind := kind)) <==> Begun(st)
  {}

  /** Numbers of links do not show. */
  lemma {:induction false} SameMoves(st: State, n: nat, s: State, bits: seq<Bit>, w: Where, begun: bool, y: seq<Bit>)
    requires Moves(st.(nextLink := n), s, bits, w, begun, y)
    ensures Moves(st, s, bits, w, begun, y)
  {
    hide Placed, Stays, Index, Put, Read, DocOutline, Holds;
  }

  lemma {:induction false} WalkMoves(n: Dom, above: seq<Above>, w: Where, begun: bool, m: Marks, link: nat, depth: nat, st: State, y: seq<Bit>, r: Rules)
    requires CleanOk(r) && StateInv(st, r) && MarkOk(m, link, st.nextLink, r) && Continues(st.cur, m.href, link)
    requires Stands(above, m, st, r) && Stood(st, w, begun)
    ensures var s := Walk(n, m, link, depth, st, r); s.Some? ==> Moves(st, s.value, Stream(n, above, w, begun, r), w, begun, y)
    decreases n, 1
  {
    hide StateInv, Continues, MarkOk, CleanOk, Enter, Leave, Stands, Stood, Moves, StripForbidden, BOUNDARY_TAGS, AllowedOnly, WalkAll, StreamAll, Opens, Start;
    if depth <= MAX_DEPTH {
      match n
      case TextNode(data) =>
        StandsMarks(above, m, st, r);
        AllowedGlyphs(data, m);
        TextMoves(st, data, m, link, w, begun, y);
      case OtherNode => NothingMoves(st, w, begun, y);
      case Element(tag, href, kids) =>
        if tag in DROP_TAGS {
          NothingMoves(st, w, begun, y);
        } else if tag == "br" {
          BreakMoves(st, w, begun, y);
        } else if Opens(tag, w, begun, r) == None {
          PlainMoves(tag, href, kids, above, w, begun, m, link, depth, st, y, r);
        } else {
          OpenMoves(tag, href, kids, above, w, begun, m, link, depth, st, y, r);
        }
    }
  }

  lemma {:induction false} PlainMoves(tag: string, href: Option<string>, kids: seq<Dom>, above: seq<Above>, w: Where, begun: bool,
                                      m: Marks, link: nat, depth: nat, st: State, y: seq<Bit>, r: Rules)
    requires CleanOk(r) && StateInv(st, r) && MarkOk(m, link, st.nextLink, r) && Continues(st.cur, m.href, link)
    requires Stands(above, m, st, r) && Stood(st, w, begun) && Opens(tag, w, begun, r) == None && tag !in DROP_TAGS && tag != "br"
    ensures var p := Enter(tag, href, m, link, st, r);
            var s := WalkAll(kids, p.m, p.link, depth + 1, p.st, r);
            s.Some? ==> Moves(st, Leave(p, s.value), Stream(Element(tag, href, kids), above, w, begun, r), w, begun, y)
    decreases kids, 2
  {
    hide StateInv, Continues, MarkOk, CleanOk, PlanOk, Enter, Stands, Stood, Moves, BOUNDARY_TAGS, WalkAll, StreamAll, Opens, Holds, KindIn, Flush;
    var p := Enter(tag, href, m, link, st, r);
    var more := above + [Above(tag, href)];
    var inner := StreamAll(kids, more, w, begun, r);
    var s := WalkAll(kids, p.m, p.link, depth + 1, p.st, r);
    EnterOk(tag, href, m, link, st, r);
    EnterStands(tag, href, above, m, link, st, r);
    PlanParts(st, m, link, p, r);
    PlainEnter(tag, href, m, link, st, w, begun, r);
    if tag in BOUNDARY_TAGS {
      var kind := KindIn(tag, w, r);
      FlushMoves(st, kind, w, begun, inner + [Turn(P)] + y);
      TurnHolds(kind);
      MovesStood(st, p.st, [Turn(kind)], w, begun, inner + [Turn(P)] + y);
      WalkAllMoves(kids, more, w, begun, p.m, p.link, depth + 1, p.st, [Turn(P)] + y, r);
      if s.Some? {
        MovesStood(p.st, s.value, inner, w, begun, [Turn(P)] + y);
        FlushMoves(s.value, P, w, begun || Holds(inner), y);
        FlushKind(s.value);
        MovesOn(p.st, s.value, Flush(s.value), inner, [Turn(P)], w, begun, y);
        MovesOn(st, p.st, Flush(s.value), [Turn(kind)], inner + [Turn(P)], w, begun, y);
      }
    } else {
      StoodLink(st, p.st.nextLink, w, begun);
      WalkAllMoves(kids, more, w, begun, p.m, p.link, depth + 1, p.st, y, r);
      if s.Some? { SameMoves(st, p.st.nextLink, s.value, inner, w, begun, y); }
    }
  }

  lemma {:induction false} MovesStood(st: State, s: State, bits: seq<Bit>, w: Where, begun: bool, y: seq<Bit>)
    requires Moves(st, s, bits, w, begun, y)
    ensures Stood(s, w, begun || Holds(bits))
  {}

  lemma {:induction false} FlushKind(st: State)
    ensures Flush(st).(curKind := P) == Flush(st)
  {
    hide Finished, Deposit;
  }

  lemma {:induction false} StoodLink(st: State, n: nat, w: Where, begun: bool)
    requires Stood(st, w, begun)
    ensures Stood(st.(nextLink := n), w, begun)
  {}

  lemma {:induction false} OpenMoves(tag: string, href: Option<string>, kids: seq<Dom>, above: seq<Above>, w: Where, begun: bool,
                                     m: Marks, link: nat, depth: nat, st: State, y: seq<Bit>, r: Rules)
    requires CleanOk(r) && StateInv(st, r) && MarkOk(m, link, st.nextLink, r) && Continues(st.cur, m.href, link)
    requires Stands(above, m, st, r) && Stood(st, w, begun) && Opens(tag, w, begun, r).Some? && tag !in DROP_TAGS && tag != "br"
    ensures var p := Enter(tag, href, m, link, st, r);
            var s := WalkAll(kids, p.m, p.link, depth + 1, p.st, r);
            s.Some? ==> Moves(st, Leave(p, s.value), Stream(Element(tag, href, kids), above, w, begun, r), w, begun, y)
    decreases kids, 2
  {
    hide StateInv, Continues, MarkOk, CleanOk, PlanOk, Enter, Stands, Stood, Moves, BOUNDARY_TAGS, WalkAll, StreamAll, Opens, Opened, From, Holds, Flush, Ready, Read, Start, Leave;
    var p := Enter(tag, href, m, link, st, r);
    var more := above + [Above(tag, href)];
    var w' := Opens(tag, w, begun, r).value;
    var inner := StreamAll(kids, more, w', false, r);
    var s := WalkAll(kids, p.m, p.link, depth + 1, p.st, r);
    EnterOk(tag, href, m, link, st, r);
    EnterStands(tag, href, above, m, link, st, r);
    PlanParts(st, m, link, p, r);
    NotEmpty(st, r);
    FlushStood(st, w, begun);
    OpenEnter(tag, href, m, link, st, w, begun, r);
    OpenedStood(Flush(st), p.st, w', Start(tag, w, w', []));
    WalkAllMoves(kids, more, w', false, p.m, p.link, depth + 1, p.st, [], r);
    if s.Some? {
      Closed(tag, st, p, s.value, w, w', begun, inner, y, r);
    }
  }

  lemma {:induction false} OpenedStood(f: State, p: State, w: Where, x: seq<Entry>)
    requires Opened(f, p, w, x)
    ensures Stood(p, w, false)
  {
    hide OnSpine, DocOutline, Index;
    NoCells();
    NoneHeld();
  }

  /** A container is closed after its contents. */
  lemma {:induction false} Closed(tag: string, st: State, p: Plan, s: State, w: Where, w': Where, begun: bool, inner: seq<Bit>, y: seq<Bit>, r: Rules)
    requires Stood(st, w, begun) && Ready(Flush(st)) && TopOf(Flush(st)) == TopOf(st) && Opens(tag, w, begun, r) == Some(w') && st.stack != []
    requires p.pop && p.flush && Opened(Flush(st), p.st, w', Start(tag, w, w', []))
    requires From(TopOf(st), Flush(st).root, TopOf(p.st), p.st.root)
    requires Moves(p.st, s, inner, w', false, [])
    ensures var c := Read(w', P, [], inner);
            Moves(st, Leave(p, s), [Turn(P)] + (Nested(Start(tag, w, w', c.rows) + c.entries) + [Turn(P)]), w, begun, y)
  {
    hide Stays, Placed, Index, Put, Read, DocOutline, Holds, Flush, From, Start, Opens, Begun;
    var c := Read(w', P, [], inner);
    var x := Start(tag, w, w', c.rows) + c.entries;
    var t := Leave(p, s);
    FlushDoc(st);
    FlushDoc(s);
    ReadToEnd(Flush(st), p.st, s, tag, w, w', inner);
    StaysOn(TopOf(p.st), p.st.root, s.root, t.root);
    InnerStays(TopOf(st), Flush(st).root, TopOf(p.st), p.st.root, t.root);
    StaysOn(TopOf(st), st.root, Flush(st).root, t.root);
    After(st, t, x, y);
    ClosedBits(x, y);
    if w == InList(1) { ClosedBegun(tag, st, p, s, t, w', begun, inner, r); }
  }

  lemma {:induction false} ClosedBits(x: seq<Entry>, y: seq<Bit>)
    ensures [Turn(P)] + (Nested(x) + [Turn(P)]) + y == [Turn(P)] + (Nested(x) + ([Turn(P)] + y))
    ensures Holds([Turn(P)] + (Nested(x) + [Turn(P)])) <==> x != []
  {
    hide Holds;
    HoldsJoin([Turn(P)], Nested(x) + [Turn(P)]);
    HoldsJoin(Nested(x), [Turn(P)]);
    TurnHolds(P);
    NestedHolds(x);
  }

  /** Whether a list of the first level has begun after an element inside it. */
  lemma {:induction false} ClosedBegun(tag: string, st: State, p: Plan, s: State, t: State, w': Where, begun: bool, inner: seq<Bit>, r: Rules)
    requires Stood(st, InList(1), begun) && Ready(Flush(st)) && TopOf(Flush(st)) == TopOf(st) && Opens(tag, InList(1), begun, r) == Some(w')
    requires Opened(Flush(st), p.st, w', Start(tag, InList(1), w', [])) && From(TopOf(st), Flush(st).root, TopOf(p.st), p.st.root)
    requires Moves(p.st, s, inner, w', false, [])
    requires t.stack == st.stack && t.root == Flush(s).root && t.cur == [] && TopOf(t) == TopOf(st)
    requires Stays(TopOf(st), Flush(st).root, t.root) && Stays(TopOf(s), p.st.root, t.root) && TopOf(s) == TopOf(p.st)
    ensures var c := Read(w', P, [], inner);
            Begun(t) <==> begun || Start(tag, InList(1), w', c.rows) + c.entries != []
  {
    hide DocOutline, Index, Put, Read, Holds, Flush, HasInk, Kept, ListAt;
    NoCells();
    NoneHeld();
    FlushBegun(st);
    FlushBegun(s);
    FlushDoc(s);
    match w'
    case InItem(_) =>
    case InList(level) => if level == 1 { ReadHolds(w', P, [], inner); }
  }

  lemma {:induction false} WalkAllMoves(kids: seq<Dom>, above: seq<Above>, w: Where, begun: bool, m: Marks, link: nat, depth: nat, st: State, y: seq<Bit>, r: Rules)
    requires CleanOk(r) && StateInv(st, r) && MarkOk(m, link, st.nextLink, r) && Continues(st.cur, m.href, link)
    requires Stands(above, m, st, r) && Stood(st, w, begun)
    ensures var s := WalkAll(kids, m, link, depth, st, r); s.Some? ==> Moves(st, s.value, StreamAll(kids, above, w, begun, r), w, begun, y)
    decreases kids, 0
  {
    hide StateInv, Continues, MarkOk, CleanOk, Walk, Stands, Stood, Moves, Stream, Holds;
    if kids == [] {
      NothingMoves(st, w, begun, y);
    } else {
      var first := Stream(kids[0], above, w, begun, r);
      var rest := StreamAll(kids[1..], above, w, begun || Holds(first), r);
      WalkMoves(kids[0], above, w, begun, m, link, depth, st, rest + y, r);
      WalkKeeps(kids[0], m, link, depth, st, r);
      var s := Walk(kids[0], m, link, depth, st, r);
      if s.Some? {
        MovesStood(st, s.value, first, w, begun, rest + y);
        MarkLater(m, link, st.nextLink, s.value.nextLink, r);
        StandsStill(above, m, st, s.value, r);
        WalkAllMoves(kids[1..], above, w, begun || Holds(first), m, link, depth, s.value, y, r);
        var t := WalkAll(kids[1..], m, link, depth, s.value, r);
        if t.Some? { MovesOn(st, s.value, t.value, first, rest, w, begun, y); }
      }
    }
  }

  /** For every tree that is not too deep the document has exactly the outline of the tree. */
  lemma {:induction false} SanitizedOutline(nodes: seq<Dom>, r: Rules)
    requires CleanOk(r)
    ensures Sanitized(nodes, r).Some? ==> DocOutline(Sanitized(nodes, r).value) == TreeOutline(nodes, r)
  {
    hide DocOutline, Flush, WalkAll, CleanOk, StateInv, StreamAll, MarksUnder, Inside, Read, Extend;
    StartOk(r);
    NothingAbove(r);
    assert Stands([], NO_MARKS, START, r);
    WalkAllKeeps(nodes, NO_MARKS, 0, 0, START, r);
    WalkAllMoves(nodes, [], AtTop, false, NO_MARKS, 0, 0, START, [], r);
    var s := WalkAll(nodes, NO_MARKS, 0, 0, START, r);
    if s.Some? {
      var bits := StreamAll(nodes, [], AtTop, false, r);
      FlushEnds(s.value);
      assert bits + [] == bits;
      NoRows(AtTop, P, [], bits);
      NoOutline();
      NoCells();
      ExtendNone([], 0);
    }
  }

  lemma {:induction false} NoOutline()
    ensures DocOutline([]) == []
  {}
}
