// A printed document reads, element by element, as its own lines: the rows of the tree are the rows of the chunks, in order and with
// their marks (apps/rich-editor/src/model.ts:148-253). The tree is read as a foreign one is, with every element and link accepted.

module PrintedReading {
  import opened Base
  import opened Chars
  import opened RichModel
  import opened Finish
  import opened Markup
  import opened Printer
  import opened NestMarks
  import opened SanitizerModel
  import opened InlineWalk
  import opened Units
  import opened MarkedRows
  import opened TreeReading
  import opened VisibleText
  import opened TagAliases

  function AnyHref(h: string): Option<string> { Some(h) }

  /** A profile that accepts everything a document can hold. */
  const EVERYTHING := Rules({"strong", "em", "u", "a", "h3", "ul", "blockquote"}, AnyHref)

  /** The rows a printed tree shows. */
  function ShownRows(f: seq<Node>): seq<Row> { LookRows(ReadingAll(ToDoms(f), [], EVERYTHING)) }

  // ---- a line ----

  function LeafCells(ls: seq<Leaf>, outer: seq<Above>): seq<Cell> {
    if ls == [] then []
    else
      (match ls[0]
       case BreakLeaf(_) => [Break]
       case TextLeaf(t, under) => Glyphs(t, MarksUnder(outer + under, EVERYTHING), 0)) + LeafCells(ls[1..], outer)
  }

  lemma {:induction false} LeafCellsConcat(a: seq<Leaf>, b: seq<Leaf>, outer: seq<Above>)
    ensures LeafCells(a + b, outer) == LeafCells(a, outer) + LeafCells(b, outer)
  {
    hide MarksUnder;
    if a == [] {
      assert a + b == b;
    } else {
      LeafCellsConcat(a[1..], b, outer);
      assert (a + b)[1..] == a[1..] + b;
      var head := match a[0]
        case BreakLeaf(_) => [Break]
        case TextLeaf(t, under) => Glyphs(t, MarksUnder(outer + under, EVERYTHING), 0);
      SeqAssoc(head, LeafCells(a[1..], outer), LeafCells(b, outer));
    }
  }

  lemma {:induction false} OneLeaf(l: Leaf, outer: seq<Above>)
    ensures LeafCells([l], outer) == match l
                                     case BreakLeaf(_) => [Break]
                                     case TextLeaf(t, under) => Glyphs(t, MarksUnder(outer + under, EVERYTHING), 0)
  {
    hide MarksUnder;
    assert [l][1..] == [];
  }

  predicate InlineName(tag: string) { tag in {"a", "strong", "em", "u", "br"} }

  predicate InlineForest(f: seq<Node>)
    decreases f, 0
  {
    f == [] || (InlineNode(f[0]) && InlineForest(f[1..]))
  }

  predicate InlineNode(n: Node)
    decreases n, 1
  {
    match n
    case Text(_) => true
    case Elem(tag, _, kids) => InlineName(tag) && InlineForest(kids)
  }

  lemma {:induction false} InlineConcat(f: seq<Node>, g: seq<Node>)
    requires InlineForest(f) && InlineForest(g)
    ensures InlineForest(f + g)
    decreases |f|
  {
    hide InlineNode;
    if f == [] {
      assert f + g == g;
    } else {
      InlineConcat(f[1..], g);
      assert (f + g)[1..] == f[1..] + g;
    }
  }

  lemma {:induction false} NoBlock(tag: string)
    requires InlineName(tag)
    ensures tag !in BOUNDARY_TAGS && tag !in DROP_TAGS
  {
    hide BOUNDARY_TAGS;
    if tag in BOUNDARY_TAGS { NotInline(tag); }
  }

  lemma {:induction false} InlineReading(n: Node, outer: seq<Above>, under: seq<Above>)
    requires InlineNode(n)
    ensures Reading(ToDom(n), outer + under, EVERYTHING) == LeafCells(NodeLeaves(n, under), outer)
    decreases n, 1
  {
    hide MarksUnder, BOUNDARY_TAGS, DROP_TAGS, LeafCells, InlineName;
    match n
    case Text(t) => OneLeaf(TextLeaf(t, under), outer);
    case Elem(tag, href, kids) =>
      NoBlock(tag);
      if tag == "br" {
        OneLeaf(BreakLeaf(under), outer);
      } else {
        InlineReadingAll(kids, outer, under + [Above(tag, href)]);
        SeqAssoc(outer, under, [Above(tag, href)]);
      }
  }

  lemma {:induction false} InlineReadingAll(f: seq<Node>, outer: seq<Above>, under: seq<Above>)
    requires InlineForest(f)
    ensures ReadingAll(ToDoms(f), outer + under, EVERYTHING) == LeafCells(Leaves(f, under), outer)
    decreases f, 0
  {
    hide Reading, NodeLeaves, LeafCells, InlineNode;
    if f == [] {
      NoLeafCells(outer);
    } else {
      InlineReading(f[0], outer, under);
      InlineReadingAll(f[1..], outer, under);
      LeafCellsConcat(NodeLeaves(f[0], under), Leaves(f[1..], under), outer);
      assert ToDoms(f)[1..] == ToDoms(f[1..]);
    }
  }

  lemma {:induction false} NoLeafCells(outer: seq<Above>)
    ensures LeafCells([], outer) == []
  {}

  lemma {:induction false} WrapInline(x: seq<Mark>, f: seq<Node>)
    requires InlineForest(f)
    ensures InlineForest(Wrap(x, f))
  {
    if x != [] {
      assert InlineName(TagOf(x[0].kind));
      OneInline(Elem(TagOf(x[0].kind), HrefOf(x[0]), f));
    }
  }

  lemma {:induction false} OneInline(n: Node)
    requires InlineNode(n)
    ensures InlineForest([n])
  {
    hide InlineNode;
    assert [n][1..] == [] && InlineForest([]);
  }

  lemma {:induction false} NestInlineTags(cs: seq<Chunk>, k: nat)
    requires k <= 4
    ensures InlineForest(Nest(cs, k))
    decreases 4 - k, |cs|
  {
    hide AtLevel, Wrap, InlineForest;
    if cs == [] {
      NoneInline();
    } else if cs[0].Br? {
      NestInlineTags(cs[1..], k);
      LeafInline("");
      InlineConcat([Elem("br", None, [])], Nest(cs[1..], k));
    } else if k == 4 {
      NestInlineTags(cs[1..], k);
      LeafInline(cs[0].text);
      InlineConcat([Text(cs[0].text)], Nest(cs[1..], k));
    } else {
      var n := RunLen(cs, k);
      NestInlineTags(cs[..n], k + 1);
      NestInlineTags(cs[n..], k);
      WrapInline(AtLevel(cs[0].marks, k), Nest(cs[..n], k + 1));
      InlineConcat(Wrap(AtLevel(cs[0].marks, k), Nest(cs[..n], k + 1)), Nest(cs[n..], k));
    }
  }

  lemma {:induction false} NoneInline()
    ensures InlineForest([])
  {}

  lemma {:induction false} LeafInline(t: string)
    ensures InlineForest([Text(t)]) && InlineForest([Elem("br", None, [])])
  {
    NoneInline();
    OneInline(Text(t));
    OneInline(Elem("br", None, []));
  }

  // ---- the marks of a chunk ----

  /** Elements that give no mark. */
  predicate Unmarked(outer: seq<Above>) { MarksUnder(outer, EVERYTHING) == NO_MARKS }

  function WithMark(m: Marks, x: Mark): Marks {
    match x.kind
    case A => if m.href != "" then m else m.(href := x.href)
    case S => m.(strong := true)
    case E => m.(em := true)
    case U => m.(u := true)
  }

  lemma {:induction false} MarkAdds(above: seq<Above>, x: Mark)
    ensures MarksUnder(above + [Above(TagOf(x.kind), HrefOf(x))], EVERYTHING) == WithMark(MarksUnder(above, EVERYTHING), x)
  {
    hide MarksUnder, Inside;
    MarksSnoc(above, Above(TagOf(x.kind), HrefOf(x)), EVERYTHING);
  }

  function WithMarks(m: Marks, xs: seq<Mark>): Marks {
    if xs == [] then m else WithMark(WithMarks(m, xs[..|xs|-1]), xs[|xs|-1])
  }

  lemma {:induction false} MarksAdd(outer: seq<Above>, xs: seq<Mark>)
    requires Unmarked(outer)
    ensures MarksUnder(outer + Elements(xs), EVERYTHING) == WithMarks(NO_MARKS, xs)
  {
    hide MarksUnder, WithMark;
    if xs == [] {
      assert outer + Elements(xs) == outer;
    } else {
      var q, x := xs[..|xs|-1], xs[|xs|-1];
      MarksAdd(outer, q);
      MarkAdds(outer + Elements(q), x);
      assert Elements(xs) == Elements(q) + [Above(TagOf(x.kind), HrefOf(x))];
      SeqAssoc(outer, Elements(q), [Above(TagOf(x.kind), HrefOf(x))]);
    }
  }

  lemma {:induction false} WithMarksLevel(m: Marks, xs: seq<Mark>, y: seq<Mark>)
    requires |y| <= 1
    ensures WithMarks(m, xs + y) == if y == [] then WithMarks(m, xs) else WithMark(WithMarks(m, xs), y[0])
  {
    if y == [] {
      assert xs + y == xs;
    } else {
      assert (xs + y)[..|xs|] == xs && (xs + y)[|xs|] == y[0];
    }
  }

  lemma {:induction false} LevelMarks(m: Marks)
    ensures WithMarks(NO_MARKS, MarksOf(m)) == m
  {
    hide WithMarks;
    assert WithMarks(NO_MARKS, []) == NO_MARKS by { NoMarksAdded(); }
    WithMarksLevel(NO_MARKS, Printer.Below(m, 0), AtLevel(m, 0));
    WithMarksLevel(NO_MARKS, Printer.Below(m, 1), AtLevel(m, 1));
    WithMarksLevel(NO_MARKS, Printer.Below(m, 2), AtLevel(m, 2));
    WithMarksLevel(NO_MARKS, Printer.Below(m, 3), AtLevel(m, 3));
  }

  lemma {:induction false} NoMarksAdded()
    ensures WithMarks(NO_MARKS, []) == NO_MARKS
  {}

  // ---- lines ----

  lemma {:induction false} ChunkCellLooks(c: Chunk, outer: seq<Above>)
    requires Unmarked(outer)
    ensures var l := match c case Br => BreakLeaf([]) case Run(t, m, _) => TextLeaf(t, Elements(MarksOf(m)));
            SameLooks(LeafCells([l], outer), ChunkCells(c))
  {
    hide MarksUnder, MarksOf, LeafCells;
    match c
    case Br => OneLeaf(BreakLeaf([]), outer);
    case Run(t, m, link) =>
      OneLeaf(TextLeaf(t, Elements(MarksOf(m))), outer);
      MarksAdd(outer, MarksOf(m));
      LevelMarks(m);
  }

  lemma {:induction false} ChunksRead(cs: seq<Chunk>, outer: seq<Above>)
    requires Unmarked(outer)
    ensures SameLooks(LeafCells(ChunkLeaves(cs), outer), Cells(cs))
  {
    hide MarksUnder, MarksOf, LeafCells, Cells, SameLooks, Unmarked, Elements;
    if cs == [] {
      NoLeafCells(outer);
      NoCells();
      NoChunkLeaves();
    } else {
      var q, c := cs[..|cs|-1], cs[|cs|-1];
      assert cs == q + [c];
      ChunksRead(q, outer);
      ChunkLeavesConcat(q, [c]);
      LeafCellsConcat(ChunkLeaves(q), ChunkLeaves([c]), outer);
      ChunkCellLooks(c, outer);
      OneChunkLeaf(c);
      CellsSnoc(q, c);
      SameMore(LeafCells(ChunkLeaves(q), outer), Cells(q), LeafCells(ChunkLeaves([c]), outer), ChunkCells(c));
    }
  }

  lemma {:induction false} NoChunkLeaves()
    ensures ChunkLeaves([]) == [] && Cells([]) == []
  {}

  lemma {:induction false} OneChunkLeaf(c: Chunk)
    ensures ChunkLeaves([c]) == [match c case Br => BreakLeaf([]) case Run(t, m, _) => TextLeaf(t, Elements(MarksOf(m)))]
  {
    hide Elements, MarksOf;
    assert [c][1..] == [];
  }

  /** A printed line reads as its cells. */
  lemma {:induction false} LineReads(cs: seq<Chunk>, outer: seq<Above>)
    requires Unmarked(outer)
    ensures SameLooks(ReadingAll(ToDoms(Nest(cs, 0)), outer, EVERYTHING), Cells(cs))
  {
    hide Nest, ReadingAll, ToDoms, Leaves, ChunkLeaves, LeafCells, Cells, InlineForest, Unmarked;
    NestInlineTags(cs, 0);
    InlineReadingAll(Nest(cs, 0), outer, []);
    assert outer + [] == outer;
    TextsUnderMarks(cs);
    ChunksRead(cs, outer);
  }

  // ---- blocks ----

  /** Nothing, or a line that begins with a break. */
  predicate Apart(e: seq<Cell>) { e == [] || e[0] == Break }

  lemma {:induction false} ApartRows(a: seq<Cell>, e: seq<Cell>)
    requires Apart(e)
    ensures LookRows(a + e) == LookRows(a) + LookRows(e)
  {
    hide LookRows;
    NoLooks();
    if e == [] {
      assert a + e == a && LookRows(a) + [] == LookRows(a);
    } else {
      var y := e[1..];
      assert e == [Break] + y && [] + [Break] + y == e;
      LookRowsJoin([], y);
      assert [] + LookRows(y) == LookRows(y);
      SeqAssoc(a, [Break], y);
      LookRowsJoin(a, y);
    }
  }

  lemma {:induction false} FramedRows(e: seq<Cell>)
    ensures LookRows([Break] + e + [Break]) == LookRows(e) && Apart([Break] + e + [Break])
  {
    hide LookRows;
    NoLooks();
    SeqAssoc([Break], e, [Break]);
    assert [] + [Break] + (e + [Break]) == [Break] + e + [Break];
    LookRowsJoin([], e + [Break]);
    LookRowsJoin(e, []);
    assert e + [Break] + [] == e + [Break];
    assert [] + (LookRows(e) + []) == LookRows(e);
  }

  lemma {:induction false} ReadingConcat(f: seq<Node>, g: seq<Node>, outer: seq<Above>)
    ensures ReadingAll(ToDoms(f + g), outer, EVERYTHING) == ReadingAll(ToDoms(f), outer, EVERYTHING) + ReadingAll(ToDoms(g), outer, EVERYTHING)
    decreases |f|
  {
    hide Reading, ToDom;
    if f == [] {
      assert f + g == g;
    } else {
      ReadingConcat(f[1..], g, outer);
      assert (f + g)[1..] == f[1..] + g;
      assert ToDoms(f + g)[1..] == ToDoms(f[1..] + g) && ToDoms(f)[1..] == ToDoms(f[1..]);
      SeqAssoc(Reading(ToDom(f[0]), outer, EVERYTHING), ReadingAll(ToDoms(f[1..]), outer, EVERYTHING), ReadingAll(ToDoms(g), outer, EVERYTHING));
    }
  }

  predicate BlockName(tag: string) { tag in {"p", "h3", "h4", "blockquote", "ul", "ol", "li"} }

  lemma {:induction false} BlockNames(tag: string)
    requires BlockName(tag)
    ensures tag in BOUNDARY_TAGS && tag !in DROP_TAGS && tag != "br"
  {
    hide SECTION_TAGS, TABLE_TAGS, FORM_TAGS, DROP_TAGS;
    assert tag in TEXT_TAGS;
    TextDrops(tag);
  }

  /** The rows of a block element are those of its children, apart from what stands around it. */
  lemma {:induction false} BlockReads(tag: string, kids: seq<Node>, outer: seq<Above>)
    requires BlockName(tag)
    ensures var e := ReadingAll(ToDoms([Elem(tag, None, kids)]), outer, EVERYTHING);
            Apart(e) && LookRows(e) == LookRows(ReadingAll(ToDoms(kids), outer + [Above(tag, None)], EVERYTHING))
  {
    hide BOUNDARY_TAGS, DROP_TAGS, LookRows, BlockName;
    BlockNames(tag);
    var n := Elem(tag, None, kids);
    assert [n][1..] == [] && ToDoms([n]) == [ToDom(n)] && [ToDom(n)][1..] == [];
    var inner := ReadingAll(ToDoms(kids), outer + [Above(tag, None)], EVERYTHING);
    assert ReadingAll([], outer, EVERYTHING) == [];
    assert [Break] + inner + [Break] + [] == [Break] + inner + [Break];
    FramedRows(inner);
  }

  /** The same, with more after it. */
  lemma {:induction false} BlockThen(tag: string, kids: seq<Node>, g: seq<Node>, outer: seq<Above>)
    requires BlockName(tag) && Apart(ReadingAll(ToDoms(g), outer, EVERYTHING))
    ensures var e := ReadingAll(ToDoms([Elem(tag, None, kids)] + g), outer, EVERYTHING);
            && Apart(e)
            && LookRows(e) == LookRows(ReadingAll(ToDoms(kids), outer + [Above(tag, None)], EVERYTHING))
                              + LookRows(ReadingAll(ToDoms(g), outer, EVERYTHING))
  {
    hide LookRows, BlockName, ReadingAll, ToDoms;
    BlockReads(tag, kids, outer);
    ReadingConcat([Elem(tag, None, kids)], g, outer);
    ApartRows(ReadingAll(ToDoms([Elem(tag, None, kids)]), outer, EVERYTHING), ReadingAll(ToDoms(g), outer, EVERYTHING));
  }

  lemma {:induction false} UnmarkedMore(outer: seq<Above>, tag: string)
    requires Unmarked(outer) && (tag in {"p", "blockquote", "ul", "ol", "li"} || (tag in {"h3", "h4"} && outer == []))
    ensures Unmarked(outer + [Above(tag, None)])
  {
    hide MarksUnder, Inside;
    MarksSnoc(outer, Above(tag, None), EVERYTHING);
    NothingAbove(EVERYTHING);
  }

  lemma {:induction false} LineRows(cs: seq<Chunk>, outer: seq<Above>)
    requires Unmarked(outer)
    ensures LookRows(ReadingAll(ToDoms(Nest(cs, 0)), outer, EVERYTHING)) == LookRows(Cells(cs))
  {
    hide LookRows, ReadingAll, ToDoms, Nest, Cells, SameLooks, Unmarked;
    LineReads(cs, outer);
    SameFolded(ReadingAll(ToDoms(Nest(cs, 0)), outer, EVERYTHING), Cells(cs));
  }

  lemma {:induction false} NothingRead(outer: seq<Above>)
    ensures ReadingAll(ToDoms([]), outer, EVERYTHING) == [] && LookRows([]) == [] && UnitLooks([]) == []
  {}

  lemma {:induction false} ItemReads(it: Item, outer: seq<Above>)
    requires Unmarked(outer)
    ensures var e := ReadingAll(ToDoms(ItemTree(it)), outer, EVERYTHING);
            Apart(e) && LookRows(e) == UnitLooks(ItemUnits(it))
    decreases it, 1
  {
    hide LookRows, ReadingAll, ToDoms, Nest, UnitLooks, Unmarked, Cells, SubTrees, SubsUnits;
    NothingRead(outer);
    if !ItemEmpty(it) {
      var inner := outer + [Above("li", None)];
      UnmarkedMore(outer, "li");
      BlockReads("li", Nest(it.inl, 0) + SubTrees(it.subs), outer);
      ReadingConcat(Nest(it.inl, 0), SubTrees(it.subs), inner);
      SubsRead(it.subs, inner);
      ApartRows(ReadingAll(ToDoms(Nest(it.inl, 0)), inner, EVERYTHING), ReadingAll(ToDoms(SubTrees(it.subs)), inner, EVERYTHING));
      LineRows(it.inl, inner);
      OneUnit(it.inl);
      UnitLooksConcat(if it.inl == [] then [] else [it.inl], SubsUnits(it.subs));
      NoLine();
    }
  }

  lemma {:induction false} NoLine()
    ensures LookRows(Cells([])) == []
  {}

  lemma {:induction false} ItemsRead(items: seq<Item>, outer: seq<Above>)
    requires Unmarked(outer)
    ensures var e := ReadingAll(ToDoms(ItemTrees(items)), outer, EVERYTHING);
            Apart(e) && LookRows(e) == UnitLooks(ItemsUnits(items))
    decreases items, 0
  {
    hide LookRows, ReadingAll, ToDoms, UnitLooks, Unmarked, ItemTree, ItemUnits;
    NothingRead(outer);
    if items != [] {
      ItemReads(items[0], outer);
      ItemsRead(items[1..], outer);
      ReadingConcat(ItemTree(items[0]), ItemTrees(items[1..]), outer);
      ApartRows(ReadingAll(ToDoms(ItemTree(items[0])), outer, EVERYTHING), ReadingAll(ToDoms(ItemTrees(items[1..])), outer, EVERYTHING));
      UnitLooksConcat(ItemUnits(items[0]), ItemsUnits(items[1..]));
    }
  }

  lemma {:induction false} ListReads(l: List, outer: seq<Above>)
    requires Unmarked(outer)
    ensures var e := ReadingAll(ToDoms(ListTree(l)), outer, EVERYTHING);
            Apart(e) && LookRows(e) == UnitLooks(ListUnits(l))
    decreases l, 2
  {
    hide LookRows, ReadingAll, ToDoms, UnitLooks, Unmarked, ItemTrees, ItemsUnits;
    NothingRead(outer);
    if ListEmpty(l) {
      EmptyItemUnits(l);
    } else {
      UnmarkedMore(outer, ListTag(l.ordered));
      BlockReads(ListTag(l.ordered), ItemTrees(l.items), outer);
      ItemsRead(l.items, outer + [Above(ListTag(l.ordered), None)]);
    }
  }

  lemma {:induction false} SubsRead(subs: seq<List>, outer: seq<Above>)
    requires Unmarked(outer)
    ensures var e := ReadingAll(ToDoms(SubTrees(subs)), outer, EVERYTHING);
            Apart(e) && LookRows(e) == UnitLooks(SubsUnits(subs))
    decreases subs, 0
  {
    hide LookRows, ReadingAll, ToDoms, UnitLooks, Unmarked, ListTree, ListUnits;
    NothingRead(outer);
    if subs != [] {
      ListReads(subs[0], outer);
      SubsRead(subs[1..], outer);
      ReadingConcat(ListTree(subs[0]), SubTrees(subs[1..]), outer);
      ApartRows(ReadingAll(ToDoms(ListTree(subs[0])), outer, EVERYTHING), ReadingAll(ToDoms(SubTrees(subs[1..])), outer, EVERYTHING));
      UnitLooksConcat(ListUnits(subs[0]), SubsUnits(subs[1..]));
    }
  }

  lemma {:induction false} ParasRead(ps: seq<seq<Chunk>>, outer: seq<Above>)
    requires Unmarked(outer)
    ensures var e := ReadingAll(ToDoms(ParaTrees(ps)), outer, EVERYTHING);
            Apart(e) && LookRows(e) == UnitLooks(ps)
  {
    hide LookRows, ReadingAll, ToDoms, UnitLooks, Unmarked, Nest, Cells;
    NothingRead(outer);
    if ps != [] {
      ParasRead(ps[1..], outer);
      UnmarkedMore(outer, "p");
      BlockThen("p", Nest(ps[0], 0), ParaTrees(ps[1..]), outer);
      LineRows(ps[0], outer + [Above("p", None)]);
      OneUnit(ps[0]);
      assert ps == [ps[0]] + ps[1..];
      UnitLooksConcat([ps[0]], ps[1..]);
    }
  }

  lemma {:induction false} BlockRows(b: Block)
    ensures var e := ReadingAll(ToDoms(BlockTree(b)), [], EVERYTHING);
            Apart(e) && LookRows(e) == UnitLooks(BlockUnits(b))
  {
    hide LookRows, ReadingAll, ToDoms, UnitLooks, Unmarked, Nest, Cells, ListTree, ListUnits, ParaTrees;
    NothingRead([]);
    assert Unmarked([]) by { NoneMarked(); }
    match b
    case TextBlock(kind, inl) =>
      if inl != [] {
        UnmarkedMore([], KindTag(kind));
        BlockReads(KindTag(kind), Nest(inl, 0), []);
        LineRows(inl, [] + [Above(KindTag(kind), None)]);
        OneUnit(inl);
      }
    case Quote(paras) =>
      if paras != [] {
        UnmarkedMore([], "blockquote");
        BlockReads("blockquote", ParaTrees(paras), []);
        ParasRead(paras, [] + [Above("blockquote", None)]);
      }
    case ListBlock(l) => ListReads(l, []);
  }

  lemma {:induction false} NoneMarked()
    ensures Unmarked([])
  {
    hide MarksUnder;
    NothingAbove(EVERYTHING);
  }

  /** The printed tree of any document shows the rows of its lines, in order, with their marks. */
  lemma {:induction false} DocReads(d: Doc)
    ensures ShownRows(DocTree(d)) == UnitLooks(DocUnits(d))
    ensures Apart(ReadingAll(ToDoms(DocTree(d)), [], EVERYTHING))
  {
    hide LookRows, ReadingAll, ToDoms, UnitLooks, BlockTree, BlockUnits;
    NothingRead([]);
    if d != [] {
      BlockRows(d[0]);
      DocReads(d[1..]);
      ReadingConcat(BlockTree(d[0]), DocTree(d[1..]), []);
      ApartRows(ReadingAll(ToDoms(BlockTree(d[0])), [], EVERYTHING), ReadingAll(ToDoms(DocTree(d[1..])), [], EVERYTHING));
      UnitLooksConcat(BlockUnits(d[0]), DocUnits(d[1..]));
    }
  }

  // ---- sanitizing ----

  /**
   * The rows of the printed result are those of the foreign tree, each as often: same visible characters, in the same order, with the
   * marks their ancestors give them in the profile.
   */
  lemma {:induction false} PrintKeepsRows(nodes: seq<Dom>, r: Rules)
    requires (forall raw :: r.clean(raw) != Some("")) && Sanitized(nodes, r).Some?
    ensures multiset(ShownRows(DocTree(Sanitized(nodes, r).value))) == multiset(LookRows(AllowedOnly(ReadingAll(nodes, [], r))))
  {
    hide ShownRows, DocTree, DocUnits, Sanitized, UnitLooks, LookRows, AllowedOnly, ReadingAll;
    DocReads(Sanitized(nodes, r).value);
    UnitsKeepRows(nodes, r);
  }
}
