// What the operations of the sanitizer do to the outline of its document (apps/rich-editor/src/sanitize.ts:159-239): a container on the
// stack stands at the end of the document, so that new entries come last, and an item that gets another line keeps its place.

module OutlineSpine {
  import opened Base
  import opened Chars
  import opened RichModel
  import opened Finish
  import opened SanitizerModel
  import opened SanitizerInv
  import opened SanitizerLines
  import opened MarkedRows
  import opened Outline

  /** Item `k` of an outline gets more rows. */
  function Extend(o: seq<Entry>, k: nat, rows: seq<Row>): seq<Entry> {
    if k < |o| && o[k].ItemStarts? then o[k := ItemStarts(o[k].level, o[k].rows + rows)] else o
  }

  lemma {:induction false} ExtendInside(a: seq<Entry>, x: seq<Entry>, b: seq<Entry>, k: nat, rows: seq<Row>)
    requires k < |x|
    ensures Extend(a + x + b, |a| + k, rows) == a + Extend(x, k, rows) + b
  {
    assert (a + x + b)[|a|+k] == x[k];
  }

  lemma {:induction false} ItemsSnoc(items: seq<Item>, it: Item, level: nat)
    ensures ItemsOutline(items + [it], level) == ItemsOutline(items, level) + ItemOutline(it, level)
  {
    assert (items + [it])[..|items|] == items;
  }

  lemma {:induction false} SubsSnoc(subs: seq<List>, l: List, level: nat)
    ensures SubsOutline(subs + [l], level) == SubsOutline(subs, level) + ([ListStarts(level, l.ordered)] + ItemsOutline(l.items, level))
  {
    assert (subs + [l])[..|subs|] == subs;
  }

  lemma {:induction false} DocSnoc(d: Doc, b: Block)
    ensures DocOutline(d + [b]) == DocOutline(d) + BlockOutline(b)
  {
    assert (d + [b])[..|d|] == d;
  }

  lemma {:induction false} ItemsJoin(a: seq<Item>, b: seq<Item>, level: nat)
    ensures ItemsOutline(a + b, level) == ItemsOutline(a, level) + ItemsOutline(b, level)
  {
    hide ItemOutline;
    if b == [] {
      assert a + b == a;
    } else {
      var q, it := b[..|b|-1], b[|b|-1];
      assert b == q + [it];
      ItemsJoin(a, q, level);
      SeqAssoc(a, q, [it]);
      ItemsSnoc(a + q, it, level);
      SeqAssoc(ItemsOutline(a, level), ItemsOutline(q, level), ItemOutline(it, level));
    }
  }

  /** An item with more rows. */
  lemma {:induction false} ItemGains(items: seq<Item>, i: nat, it: Item, level: nat, rows: seq<Row>)
    requires i < |items| && it.subs == items[i].subs && RowsOf(it.inl) == RowsOf(items[i].inl) + rows
    ensures |ItemsOutline(items[..i], level)| < |ItemsOutline(items, level)|
    ensures ItemsOutline(items, level)[|ItemsOutline(items[..i], level)|].ItemStarts?
    ensures ItemsOutline(items[i := it], level) == Extend(ItemsOutline(items, level), |ItemsOutline(items[..i], level)|, rows)
  {
    hide ItemsOutline, RowsOf, SubsOutline;
    var a, b := items[..i], items[i+1..];
    assert items == (a + [items[i]]) + b && items[i := it] == (a + [it]) + b;
    ItemsJoin(a + [items[i]], b, level);
    ItemsJoin(a + [it], b, level);
    ItemsSnoc(a, items[i], level);
    ItemsSnoc(a, it, level);
    var x, y, z := ItemsOutline(a, level), ItemOutline(items[i], level), ItemsOutline(b, level);
    ExtendInside(x, y, z, 0, rows);
    assert (x + y + z)[|x|] == y[0];
    assert Extend(y, 0, rows) == ItemOutline(it, level);
  }

  // ---- the end of the document ----

  /** The list a path names is the last thing of the document. */
  predicate OnSpine(root: Doc, path: ListPath) {
    match path
    case InBlock(b) => b + 1 == |root| && root[b].ListBlock?
    case Below(p, i, s) =>
      && OnSpine(root, p) && i + 1 == |ListAt(root, p).items| && s + 1 == |ListAt(root, p).items[i].subs|
  }

  lemma {:induction false} SpineHas(root: Doc, path: ListPath)
    requires OnSpine(root, path)
    ensures HasList(root, path)
  {
    match path
    case InBlock(b) =>
    case Below(p, i, s) => SpineHas(root, p);
  }

  /** The outline up to the items of a list. */
  function Head(root: Doc, path: ListPath): seq<Entry>
    requires HasList(root, path)
  {
    match path
    case InBlock(b) => DocOutline(root[..b]) + [ListStarts(1, root[b].list.ordered)]
    case Below(p, i, s) =>
      var it := ListAt(root, p).items[i];
      Head(root, p) + (ItemsOutline(ListAt(root, p).items[..i], Depth(p))
        + ([ItemStarts(Depth(p), RowsOf(it.inl))] + (SubsOutline(it.subs[..s], Depth(p) + 1) + [ListStarts(Depth(p) + 1, it.subs[s].ordered)])))
  }

  /** The outline ends with the items of a list on the spine. */
  lemma {:induction false} SpineOutline(root: Doc, path: ListPath)
    requires OnSpine(root, path) && HasList(root, path)
    ensures DocOutline(root) == Head(root, path) + ItemsOutline(ListAt(root, path).items, Depth(path))
  {
    hide ItemsOutline, SubsOutline, RowsOf, DocOutline;
    match path
    case InBlock(b) =>
      assert root == root[..b] + [root[b]];
      DocSnoc(root[..b], root[b]);
      SeqAssoc(DocOutline(root[..b]), [ListStarts(1, root[b].list.ordered)], ItemsOutline(root[b].list.items, 1));
    case Below(p, i, s) =>
      SpineOutline(root, p);
      var items := ListAt(root, p).items;
      var it := items[i];
      assert items == items[..i] + [it];
      ItemsSnoc(items[..i], it, Depth(p));
      assert it.subs == it.subs[..s] + [it.subs[s]];
      SubsSnoc(it.subs[..s], it.subs[s], Depth(p) + 1);
      Ranged(Head(root, p), ItemsOutline(items[..i], Depth(p)), [ItemStarts(Depth(p), RowsOf(it.inl))], SubsOutline(it.subs[..s], Depth(p) + 1),
             [ListStarts(Depth(p) + 1, it.subs[s].ordered)], ItemsOutline(it.subs[s].items, Depth(p) + 1));
  }

  lemma {:induction false} Ranged<T>(a: seq<T>, b: seq<T>, c: seq<T>, d: seq<T>, e: seq<T>, f: seq<T>)
    ensures a + (b + (c + (d + (e + f)))) == (a + (b + (c + (d + e)))) + f
  {}

  /** What stands before a list is the same in both documents. */
  predicate Kept(root: Doc, root': Doc, path: ListPath)
    requires HasList(root, path) && HasList(root', path)
  {
    match path
    case InBlock(b) => root'[..b] == root[..b] && root'[b].list.ordered == root[b].list.ordered
    case Below(p, i, s) =>
      var l, l' := ListAt(root, p), ListAt(root', p);
      && Kept(root, root', p) && l'.items[..i] == l.items[..i] && l'.items[i].inl == l.items[i].inl
      && l'.items[i].subs[..s] == l.items[i].subs[..s] && l'.items[i].subs[s].ordered == l.items[i].subs[s].ordered
  }

  lemma {:induction false} KeptHead(root: Doc, root': Doc, path: ListPath)
    requires HasList(root, path) && HasList(root', path) && Kept(root, root', path)
    ensures Head(root', path) == Head(root, path)
  {
    hide ItemsOutline, SubsOutline, RowsOf, DocOutline;
    match path
    case InBlock(b) =>
    case Below(p, i, s) => KeptHead(root, root', p);
  }

  lemma {:induction false} KeptSelf(root: Doc, path: ListPath)
    requires HasList(root, path)
    ensures Kept(root, root, path)
  {
    match path
    case InBlock(b) =>
    case Below(p, i, s) => KeptSelf(root, p);
  }

  lemma {:induction false} KeptOn(a: Doc, b: Doc, c: Doc, path: ListPath)
    requires HasList(a, path) && HasList(b, path) && HasList(c, path) && Kept(a, b, path) && Kept(b, c, path)
    ensures Kept(a, c, path)
  {
    match path
    case InBlock(_) =>
    case Below(p, i, s) => KeptOn(a, b, c, p);
  }

  /** A list on the spine is replaced: nothing before it changes. */
  lemma {:induction false} SetSpine(root: Doc, path: ListPath, l: List)
    requires OnSpine(root, path) && HasList(root, path) && l.ordered == ListAt(root, path).ordered
    ensures var d := SetList(root, path, l);
            OnSpine(d, path) && HasList(d, path) && ListAt(d, path) == l && Kept(root, d, path)
  {
    match path
    case InBlock(b) =>
    case Below(p, i, s) =>
      var o := ListAt(root, p);
      var it := SetSub(o.items[i], s, l);
      SetSpine(root, p, SetItem(o, i, it));
  }

  lemma {:induction false} SetOutline(root: Doc, path: ListPath, l: List)
    requires OnSpine(root, path) && HasList(root, path) && l.ordered == ListAt(root, path).ordered
    ensures DocOutline(SetList(root, path, l)) == Head(root, path) + ItemsOutline(l.items, Depth(path))
  {
    hide OnSpine, HasList, SetList, ListAt, Kept, Head, DocOutline, ItemsOutline;
    SetSpine(root, path, l);
    KeptHead(root, SetList(root, path, l), path);
    SpineOutline(SetList(root, path, l), path);
  }

  // ---- the containers ----

  /** A container of the stack stands at the end; an item of the first level is the last of its list. */
  predicate Placed(c: Container, root: Doc) {
    match c
    case AtRoot => true
    case AtQuote(b) => b + 1 == |root| && root[b].Quote?
    case AtList(path, _) => OnSpine(root, path)
    case AtItem(path, i) => OnSpine(root, path) && i < |ListAt(root, path).items| && (Depth(path) < 2 ==> i + 1 == |ListAt(root, path).items|)
  }

  /** Where the entry of an open item stands. */
  function Index(c: Container, root: Doc): nat
    requires Placed(c, root)
  {
    if c.AtItem? then
      SpineHas(root, c.path);
      |Head(root, c.path)| + |ItemsOutline(ListAt(root, c.path).items[..c.item], Depth(c.path))|
    else 0
  }

  /** What walking inside a container leaves as it was. */
  predicate Stays(c: Container, root: Doc, root': Doc)
    requires Placed(c, root)
  {
    && Placed(c, root')
    && match c
       case AtRoot => true
       case AtQuote(_) => true
       case AtList(path, _) =>
         SpineHas(root, path);
         SpineHas(root', path);
         var l, l' := ListAt(root, path), ListAt(root', path);
         Kept(root, root', path) && |l.items| <= |l'.items| && (Depth(path) == 2 ==> l'.items[..|l.items|] == l.items)
       case AtItem(path, i) =>
         SpineHas(root, path);
         SpineHas(root', path);
         Kept(root, root', path) && ListAt(root', path).items[..i] == ListAt(root, path).items[..i]
  }

  lemma {:induction false} StaysSelf(c: Container, root: Doc)
    requires Placed(c, root)
    ensures Stays(c, root, root)
  {
    hide OnSpine, ListAt, Kept, HasList;
    if c.AtList? || c.AtItem? {
      SpineHas(root, c.path);
      KeptSelf(root, c.path);
    }
  }

  lemma {:induction false} StaysOn(c: Container, a: Doc, b: Doc, d: Doc)
    requires Placed(c, a) && Stays(c, a, b) && Stays(c, b, d)
    ensures Stays(c, a, d)
  {
    hide OnSpine, ListAt, Kept, HasList, Depth;
    if c.AtList? || c.AtItem? {
      SpineHas(a, c.path);
      SpineHas(b, c.path);
      SpineHas(d, c.path);
      KeptOn(a, b, d, c.path);
      if c.AtList? && Depth(c.path) == 2 { Prefixes(ListAt(a, c.path).items, ListAt(b, c.path).items, ListAt(d, c.path).items); }
    }
  }

  lemma {:induction false} Prefixes<T>(a: seq<T>, b: seq<T>, d: seq<T>)
    requires |a| <= |b| <= |d| && b[..|a|] == a && d[..|b|] == b
    ensures d[..|a|] == a
  {
    assert d[..|b|][..|a|] == d[..|a|];
  }

  lemma {:induction false} IndexStays(c: Container, root: Doc, root': Doc)
    requires Placed(c, root) && Stays(c, root, root')
    ensures Index(c, root') == Index(c, root)
  {
    hide OnSpine, ListAt, Kept, HasList, ItemsOutline, Head;
    if c.AtItem? {
      SpineHas(root, c.path);
      SpineHas(root', c.path);
      KeptHead(root, root', c.path);
    }
  }

  /** The entry of an open item is one. */
  lemma {:induction false} IndexIs(c: Container, root: Doc)
    requires Placed(c, root) && c.AtItem?
    ensures Index(c, root) < |DocOutline(root)| && DocOutline(root)[Index(c, root)].ItemStarts?
  {
    hide OnSpine, ListAt, HasList, ItemsOutline, Head, DocOutline, RowsOf;
    SpineHas(root, c.path);
    SpineOutline(root, c.path);
    var l := ListAt(root, c.path);
    assert RowsOf(l.items[c.item].inl) + [] == RowsOf(l.items[c.item].inl);
    ItemGains(l.items, c.item, l.items[c.item], Depth(c.path), []);
  }

  // ---- lines ----

  lemma {:induction false} JoinRows(it: Item, chunks: seq<Chunk>)
    ensures RowsOf(Join(it, chunks).inl) == RowsOf(it.inl) + RowsOf(chunks)
  {
    hide Cells, LookRows;
    if it.inl == [] {
      assert [] + chunks == chunks;
      assert RowsOf([]) == [] by { NoLine(); }
    } else {
      JoinCells(it.inl, chunks);
      LookRowsJoin(Cells(it.inl), Cells(chunks));
    }
  }

  lemma {:induction false} NoLine()
    ensures RowsOf([]) == []
  {}

  /** A new item at the end of a list on the spine. */
  lemma {:induction false} AddItemOutline(root: Doc, path: ListPath, it: Item)
    requires OnSpine(root, path) && HasList(root, path) && it.subs == []
    ensures var l := ListAt(root, path); var d := SetList(root, path, l.(items := l.items + [it]));
            && DocOutline(d) == DocOutline(root) + [ItemStarts(Depth(path), RowsOf(it.inl))]
            && OnSpine(d, path) && HasList(d, path) && ListAt(d, path) == l.(items := l.items + [it]) && Kept(root, d, path)
  {
    hide OnSpine, HasList, SetList, ListAt, Head, DocOutline, ItemsOutline, RowsOf, Kept;
    var l := ListAt(root, path);
    SetSpine(root, path, l.(items := l.items + [it]));
    SetOutline(root, path, l.(items := l.items + [it]));
    SpineOutline(root, path);
    ItemsSnoc(l.items, it, Depth(path));
    PlainOutline(it, Depth(path));
    SeqAssoc(Head(root, path), ItemsOutline(l.items, Depth(path)), ItemOutline(it, Depth(path)));
  }

  lemma {:induction false} PlainOutline(it: Item, level: nat)
    requires it.subs == []
    ensures ItemOutline(it, level) == [ItemStarts(level, RowsOf(it.inl))]
  {}

  /** More rows for an item of a list on the spine. */
  lemma {:induction false} JoinOutline(root: Doc, c: Container, it: Item, rows: seq<Row>)
    requires Placed(c, root) && c.AtItem?
    requires var o := ListAt(root, c.path).items[c.item]; it.subs == o.subs && RowsOf(it.inl) == RowsOf(o.inl) + rows
    ensures var d := SetList(root, c.path, SetItem(ListAt(root, c.path), c.item, it));
            DocOutline(d) == Extend(DocOutline(root), Index(c, root), rows) && Stays(c, root, d)
  {
    hide OnSpine, HasList, SetList, ListAt, Head, DocOutline, ItemsOutline, RowsOf, Kept, Extend;
    var l := ListAt(root, c.path);
    var l' := SetItem(l, c.item, it);
    SpineHas(root, c.path);
    SetSpine(root, c.path, l');
    SetOutline(root, c.path, l');
    SpineOutline(root, c.path);
    ItemGains(l.items, c.item, it, Depth(c.path), rows);
    var a, x := Head(root, c.path), ItemsOutline(l.items, Depth(c.path));
    ExtendInside(a, x, [], |ItemsOutline(l.items[..c.item], Depth(c.path))|, rows);
    assert a + x + [] == a + x;
    assert l'.items[..c.item] == l.items[..c.item];
  }

  /** The list with a new list below its last item. */
  function SubAdded(l: List, ordered: bool): List
    requires l.items != []
  {
    var it := l.items[|l.items|-1];
    SetItem(l, |l.items| - 1, it.(subs := it.subs + [List(ordered, [])]))
  }

  /** The path of the list that is added there. */
  function LastSub(path: ListPath, l: List): ListPath
    requires l.items != []
  {
    Below(path, |l.items| - 1, |l.items[|l.items|-1].subs|)
  }

  /** A new list below the last item of a list on the spine. */
  lemma {:induction false} AddSubOutline(root: Doc, path: ListPath, ordered: bool)
    requires OnSpine(root, path) && HasList(root, path) && ListAt(root, path).items != []
    ensures var l := ListAt(root, path);
            var d := SetList(root, path, SubAdded(l, ordered));
            && DocOutline(d) == DocOutline(root) + [ListStarts(Depth(path) + 1, ordered)]
            && OnSpine(d, path) && HasList(d, path) && Kept(root, d, path) && ListAt(d, path) == SubAdded(l, ordered)
            && OnSpine(d, LastSub(path, l)) && ListAt(d, LastSub(path, l)) == List(ordered, [])
  {
    hide OnSpine, HasList, SetList, ListAt, Head, DocOutline, ItemsOutline, RowsOf, Kept, SubsOutline;
    var l := ListAt(root, path);
    var i := |l.items| - 1;
    var it := l.items[i];
    var l' := SubAdded(l, ordered);
    SetSpine(root, path, l');
    SetOutline(root, path, l');
    SpineOutline(root, path);
    SubGained(l.items, it.(subs := it.subs + [List(ordered, [])]), ordered, Depth(path));
    SeqAssoc(Head(root, path), ItemsOutline(l.items, Depth(path)), [ListStarts(Depth(path) + 1, ordered)]);
    NewPath(SetList(root, path, l'), path, it.subs, ordered);
  }

  lemma {:induction false} NewPath(d: Doc, path: ListPath, subs: seq<List>, ordered: bool)
    requires OnSpine(d, path) && ListAt(d, path).items != []
    requires var l := ListAt(d, path); l.items[|l.items|-1].subs == subs + [List(ordered, [])]
    ensures var q := Below(path, |ListAt(d, path).items| - 1, |subs|); OnSpine(d, q) && ListAt(d, q) == List(ordered, [])
  {}

  lemma {:induction false} SubGained(items: seq<Item>, it: Item, ordered: bool, level: nat)
    requires items != []
    requires var o := items[|items|-1]; it == o.(subs := o.subs + [List(ordered, [])])
    ensures ItemsOutline(items[|items|-1 := it], level) == ItemsOutline(items, level) + [ListStarts(level + 1, ordered)]
  {
    hide RowsOf, SubsOutline, ItemsOutline;
    var n := |items| - 1;
    assert items == items[..n] + [items[n]] && items[n := it] == items[..n] + [it];
    ItemsSnoc(items[..n], items[n], level);
    ItemsSnoc(items[..n], it, level);
    SubsSnoc(items[n].subs, List(ordered, []), level + 1);
    NoItems(level + 1);
    assert [ListStarts(level + 1, ordered)] + [] == [ListStarts(level + 1, ordered)];
    var h := [ItemStarts(level, RowsOf(it.inl))];
    SeqAssoc(h, SubsOutline(items[n].subs, level + 1), [ListStarts(level + 1, ordered)]);
    SeqAssoc(ItemsOutline(items[..n], level), h + SubsOutline(items[n].subs, level + 1), [ListStarts(level + 1, ordered)]);
  }

  lemma {:induction false} NoItems(level: nat)
    ensures ItemsOutline([], level) == []
  {}

  /** A new line of a quote at the end. */
  lemma {:induction false} QuoteGains(root: Doc, b: nat, chunks: seq<Chunk>)
    requires b + 1 == |root| && root[b].Quote?
    ensures DocOutline(root[b := Quote(root[b].paras + [chunks])]) == DocOutline(root) + [QuoteLine(RowsOf(chunks))]
  {
    hide DocOutline, RowsOf;
    var q := Quote(root[b].paras + [chunks]);
    assert root == root[..b] + [root[b]] && root[b := q] == root[..b] + [q];
    DocSnoc(root[..b], root[b]);
    DocSnoc(root[..b], q);
    assert QuoteOutline(root[b].paras + [chunks]) == QuoteOutline(root[b].paras) + [QuoteLine(RowsOf(chunks))];
    SeqAssoc([QuoteStarts], QuoteOutline(root[b].paras), [QuoteLine(RowsOf(chunks))]);
    SeqAssoc(DocOutline(root[..b]), BlockOutline(root[b]), [QuoteLine(RowsOf(chunks))]);
  }
}
