// The visible text keeps the text of the foreign tree: its characters other than white space are exactly the allowed
// ones of the tree, each as often (apps/rich-editor/src/sanitize.ts:151-184, 251-353, model.ts:302-307).

module VisibleText {
  import opened Base
  import opened Chars
  import opened RichModel
  import opened Finish
  import opened FinishSpec
  import opened Markup
  import opened Printer
  import opened SanitizerModel
  import opened MarkedRows
  import opened TreeReading
  import opened SanitizerText
  import opened SanitizerWalk
  import opened Units

  function NonSpace(s: string): string {
    if s == "" then "" else NonSpace(s[..|s|-1]) + (if IsWS(s[|s|-1]) then "" else [s[|s|-1]])
  }

  lemma {:induction false} NonSpaceConcat(a: string, b: string)
    ensures NonSpace(a + b) == NonSpace(a) + NonSpace(b)
  {
    hide IsWS;
    if b == "" {
      assert a + b == a;
    } else {
      var q, c := b[..|b|-1], b[|b|-1];
      NonSpaceConcat(a, q);
      assert (a + b)[..|a+b|-1] == a + q;
      SeqAssoc(NonSpace(a), NonSpace(q), if IsWS(c) then "" else [c]);
    }
  }

  lemma {:induction false} GlyphText(t: string, m: Marks, link: nat)
    ensures InkChars(Glyphs(t, m, link)) == NonSpace(t)
  {
    if t == "" {
      NoInkChars();
      assert Glyphs(t, m, link) == [];
    } else {
      var s, ch := t[..|t|-1], t[|t|-1];
      assert t == s + [ch];
      GlyphText(s, m, link);
      hide InkChars, IsWS, Glyphs;
      GlyphsSnoc(s, ch, m, link);
      InkCharsSnoc(Glyphs(s, m, link), Glyph(ch, m, link));
    }
  }

  lemma {:induction false} ChunkText(c: Chunk)
    ensures LineText([c]) == (match c case Br => "\n" case Run(t, _, _) => t)
    ensures InkChars(ChunkCells(c)) == NonSpace(LineText([c]))
  {
    assert [c][1..] == [];
    match c
    case Br =>
      InkCharsSnoc([], Break);
      NoInkChars();
    case Run(t, m, link) =>
      assert t + "" == t;
      GlyphText(t, m, link);
  }

  lemma {:induction false} CellsText(cs: seq<Chunk>)
    ensures InkChars(Cells(cs)) == NonSpace(LineText(cs))
  {
    hide InkChars, ChunkCells, NonSpace, LineText;
    if cs == [] {
      NoChunkText();
    } else {
      var q, c := cs[..|cs|-1], cs[|cs|-1];
      assert cs == q + [c];
      CellsText(q);
      InkCharsConcat(Cells(q), ChunkCells(c));
      ChunkText(c);
      LineTextConcat(q, [c]);
      NonSpaceConcat(LineText(q), LineText([c]));
    }
  }

  lemma {:induction false} NoChunkText()
    ensures InkChars([]) == NonSpace(LineText([]))
  {}

  // ---- the rows of the units ----

  /** The rows of lines, in order. */
  function UnitLooks(us: seq<seq<Chunk>>): seq<Row> {
    if us == [] then [] else UnitLooks(us[..|us|-1]) + LookRows(Cells(us[|us|-1]))
  }

  function UnitsBag(us: seq<seq<Chunk>>): Bag { multiset(UnitLooks(us)) }

  lemma {:induction false} UnitLooksConcat(a: seq<seq<Chunk>>, b: seq<seq<Chunk>>)
    ensures UnitLooks(a + b) == UnitLooks(a) + UnitLooks(b)
  {
    hide LookRows, Cells;
    if b == [] {
      assert a + b == a;
    } else {
      UnitLooksConcat(a, b[..|b|-1]);
      assert (a + b)[..|a+b|-1] == a + b[..|b|-1];
      SeqAssoc(UnitLooks(a), UnitLooks(b[..|b|-1]), LookRows(Cells(b[|b|-1])));
    }
  }

  lemma {:induction false} UnitsBagConcat(a: seq<seq<Chunk>>, b: seq<seq<Chunk>>)
    ensures UnitsBag(a + b) == UnitsBag(a) + UnitsBag(b)
  {
    hide UnitLooks;
    UnitLooksConcat(a, b);
  }

  lemma {:induction false} OneUnit(cs: seq<Chunk>)
    ensures UnitLooks([cs]) == LookRows(Cells(cs)) && UnitsBag([cs]) == LineBag(cs) && UnitsBag([]) == multiset{}
  {
    hide LookRows, Cells;
    assert [cs][..0] == [];
    assert UnitLooks([cs]) == UnitLooks([cs][..0]) + LookRows(Cells(cs));
    assert [] + LookRows(Cells(cs)) == LookRows(Cells(cs));
  }

  lemma {:induction false} ItemBagUnits(it: Item)
    ensures UnitsBag(ItemUnits(it)) == ItemBag(it)
    decreases it, 1
  {
    hide UnitsBag, LineBag, SubsBag, ListUnits;
    OneUnit(it.inl);
    NoLineBag();
    SubsBagUnits(it.subs);
    if ItemEmpty(it) {
      EmptySubUnits(it.subs);
    } else {
      UnitsBagConcat(if it.inl == [] then [] else [it.inl], SubsUnits(it.subs));
    }
  }

  /** Lists without text have no units. */
  lemma {:induction false} EmptySubUnits(subs: seq<List>)
    requires forall s | s in subs :: ListEmpty(s)
    ensures SubsUnits(subs) == []
    decreases subs
  {
    hide ItemUnits;
    if subs != [] {
      assert subs[0] in subs;
      EmptyItemUnits(subs[0]);
      EmptySubUnits(subs[1..]);
    }
  }

  lemma {:induction false} EmptyItemUnits(l: List)
    requires ListEmpty(l)
    ensures ItemsUnits(l.items) == []
    decreases |l.items|
  {
    if l.items != [] {
      assert l.items[0] in l.items;
      EmptyItemUnits(List(l.ordered, l.items[1..]));
    }
  }

  lemma {:induction false} ItemsBagUnits(items: seq<Item>)
    ensures UnitsBag(ItemsUnits(items)) == ItemsBag(items)
    decreases items, 0
  {
    hide UnitsBag, ItemUnits, ItemBag;
    OneUnit([]);
    if items != [] {
      var n := |items| - 1;
      ItemsBagUnits(items[..n]);
      ItemBagUnits(items[n]);
      assert items[..n+1] == items;
      ItemsUnitsSnoc(items, n);
      UnitsBagConcat(ItemsUnits(items[..n]), ItemUnits(items[n]));
    }
  }

  lemma {:induction false} SubsBagUnits(subs: seq<List>)
    ensures UnitsBag(SubsUnits(subs)) == SubsBag(subs)
    decreases subs, 0
  {
    hide UnitsBag, ItemsUnits, ItemsBag;
    OneUnit([]);
    if subs != [] {
      var n := |subs| - 1;
      SubsBagUnits(subs[..n]);
      ItemsBagUnits(subs[n].items);
      assert subs[..n+1] == subs;
      SubsUnitsSnoc(subs, n);
      UnitsBagConcat(SubsUnits(subs[..n]), ListUnits(subs[n]));
    }
  }

  lemma {:induction false} ParasBagUnits(ps: seq<seq<Chunk>>)
    ensures UnitsBag(ps) == ParasBag(ps)
  {
    hide LookRows, Cells;
    if ps != [] { ParasBagUnits(ps[..|ps|-1]); }
  }

  lemma {:induction false} DocBagUnits(d: Doc)
    ensures UnitsBag(DocUnits(d)) == DocBag(d)
  {
    hide UnitsBag, BlockUnits, BlockBag;
    OneUnit([]);
    if d != [] {
      var n := |d| - 1;
      DocBagUnits(d[..n]);
      BlockBagUnits(d[n]);
      assert d[..n+1] == d;
      DocUnitsSnoc(d, n);
      UnitsBagConcat(DocUnits(d[..n]), BlockUnits(d[n]));
    }
  }

  lemma {:induction false} BlockBagUnits(b: Block)
    ensures UnitsBag(BlockUnits(b)) == BlockBag(b)
  {
    hide UnitsBag, LineBag, ItemsBag, ItemsUnits, ParasBag;
    match b
    case TextBlock(_, inl) =>
      OneUnit(inl);
      NoLineBag();
    case Quote(paras) => ParasBagUnits(paras);
    case ListBlock(l) => ItemsBagUnits(l.items);
  }

  /** The text of lines, without white space, is that of their rows. */
  lemma {:induction false} JoinedText(us: seq<seq<Chunk>>)
    ensures NonSpace(JoinLines(Texts(us))) == RowText(Concat(UnitLooks(us)))
  {
    hide LineText, JoinLines, NonSpace, InkChars, LookRows, Cells;
    if us == [] {
      NothingJoined();
      NoSpaceText();
      ConcatSnoc([], []);
    } else {
      var front, last := us[..|us|-1], us[|us|-1];
      JoinedText(front);
      assert Texts(us) == Texts(front) + [LineText(last)];
      JoinSnoc(Texts(front), LineText(last));
      ConcatJoin(UnitLooks(front), LookRows(Cells(last)));
      RowsAreInk(Cells(last));
      assert RowText(Concat(UnitLooks(front)) + Concat(LookRows(Cells(last))))
          == RowText(Concat(UnitLooks(front))) + RowText(Concat(LookRows(Cells(last))));
      CellsText(last);
      if front == [] {
        NothingJoined();
        NoSpaceText();
        assert "" + NonSpace(LineText(last)) == NonSpace(LineText(last));
      } else {
        NonSpaceConcat(JoinLines(Texts(front)) + "\n", LineText(last));
        NonSpaceConcat(JoinLines(Texts(front)), "\n");
        NoSpaceText();
        assert NonSpace(JoinLines(Texts(front))) + "" == NonSpace(JoinLines(Texts(front)));
      }
    }
  }

  lemma {:induction false} NoSpaceText()
    ensures NonSpace("") == "" && NonSpace("\n") == ""
  {
    assert "\n"[..0] == "";
  }

  // ---- the text of the foreign tree ----

  /** The visible text of a foreign tree: the allowed characters that are not white space, outside dropped elements. */
  function DomInk(n: Dom): string
    decreases n, 1
  {
    match n
    case TextNode(data) => InkOf(data)
    case OtherNode => ""
    case Element(tag, _, kids) => if tag in DROP_TAGS || tag == "br" then "" else DomsInk(kids)
  }

  function DomsInk(ns: seq<Dom>): string
    decreases ns, 0
  {
    if ns == [] then "" else DomInk(ns[0]) + DomsInk(ns[1..])
  }

  lemma {:induction false} GlyphsInk(t: string, m: Marks, link: nat)
    requires AllowedText(t)
    ensures InkChars(Glyphs(t, m, link)) == InkOf(t)
  {
    if t == "" {
      NoInkChars();
      assert Glyphs(t, m, link) == [];
    } else {
      var s, ch := t[..|t|-1], t[|t|-1];
      assert t == s + [ch];
      GlyphsInk(s, m, link);
      hide InkChars, IsWS, Glyphs;
      GlyphsSnoc(s, ch, m, link);
      InkCharsSnoc(Glyphs(s, m, link), Glyph(ch, m, link));
      InkOfConcat(s, [ch]);
      assert [ch][1..] == "";
      assert InkOf([ch]) == if IsWS(ch) then "" else [ch];
    }
  }

  lemma {:induction false} BreaksAround(e: seq<Cell>)
    ensures InkChars([Break] + e + [Break]) == InkChars(e) && InkChars([Break]) == ""
  {
    NoInkChars();
    InkCharsSnoc([], Break);
    assert [] + [Break] == [Break];
    InkCharsConcat([Break], e);
    InkCharsSnoc([Break] + e, Break);
    assert "" + InkChars(e) + "" == InkChars(e);
  }

  lemma {:induction false} ReadingInk(n: Dom, above: seq<Above>, r: Rules)
    ensures InkChars(AllowedOnly(Reading(n, above, r))) == DomInk(n)
    decreases n, 1
  {
    hide InkChars, StripForbidden, InkOf, AllowedOnly;
    NoInkChars();
    AllowedOnlyConcat([], []);
    BreaksAround([]);
    match n
    case TextNode(data) =>
      AllowedGlyphs(data, MarksUnder(above, r));
      GlyphsInk(StripForbidden(data), MarksUnder(above, r), 0);
      InkOfStrip(data);
    case OtherNode =>
    case Element(tag, href, kids) =>
      ReadingAllInk(kids, above + [Above(tag, href)], r);
      EdgesAllowed(ReadingAll(kids, above + [Above(tag, href)], r));
      BreaksAround(AllowedOnly(ReadingAll(kids, above + [Above(tag, href)], r)));
  }

  lemma {:induction false} ReadingAllInk(ns: seq<Dom>, above: seq<Above>, r: Rules)
    ensures InkChars(AllowedOnly(ReadingAll(ns, above, r))) == DomsInk(ns)
    decreases ns, 0
  {
    hide InkChars, DomInk, Reading, AllowedOnly;
    if ns == [] {
      AllowedOnlyConcat([], []);
      NoInkChars();
    } else {
      ReadingInk(ns[0], above, r);
      ReadingAllInk(ns[1..], above, r);
      AllowedOnlyConcat(Reading(ns[0], above, r), ReadingAll(ns[1..], above, r));
      InkCharsConcat(AllowedOnly(Reading(ns[0], above, r)), AllowedOnly(ReadingAll(ns[1..], above, r)));
    }
  }

  // ---- what a reader sees ----

  /** The rows of the document, in order, are those of the foreign tree up to their order. */
  lemma {:induction false} UnitsKeepRows(nodes: seq<Dom>, r: Rules)
    requires CleanOk(r) && Sanitized(nodes, r).Some?
    ensures multiset(UnitLooks(DocUnits(Sanitized(nodes, r).value))) == multiset(LookRows(AllowedOnly(ReadingAll(nodes, [], r))))
  {
    hide DocBag, CleanOk, DocUnits, UnitLooks, LookRows, ReadingAll, Sanitized;
    SanitizedKeepsRows(nodes, r);
    DocBagUnits(Sanitized(nodes, r).value);
  }

  /** Each visible character stays with its marks, as often as the tree holds it. */
  lemma {:induction false} SanitizedKeepsMarks(nodes: seq<Dom>, r: Rules)
    requires CleanOk(r) && Sanitized(nodes, r).Some?
    ensures multiset(Concat(UnitLooks(DocUnits(Sanitized(nodes, r).value)))) == multiset(Concat(LookRows(AllowedOnly(ReadingAll(nodes, [], r)))))
  {
    hide CleanOk, DocUnits, UnitLooks, LookRows, ReadingAll, Sanitized, Concat;
    UnitsKeepRows(nodes, r);
    SameConcat(UnitLooks(DocUnits(Sanitized(nodes, r).value)), LookRows(AllowedOnly(ReadingAll(nodes, [], r))));
  }

  /** The text a reader of the document sees holds the text of the foreign tree, and nothing else but white space. */
  lemma {:induction false} VisibleTextKeepsText(nodes: seq<Dom>, r: Rules)
    requires CleanOk(r)
    ensures match Sanitized(nodes, r)
            case None => true
            case Some(d) => multiset(NonSpace(VisibleTextOf(d))) == multiset(DomsInk(nodes))
  {
    hide DomsInk, CleanOk, NonSpace, DocUnits, Texts, JoinLines, Sanitized, UnitLooks, LookRows, ReadingAll, Concat, InkChars, RowText;
    if Sanitized(nodes, r).Some? {
      var d := Sanitized(nodes, r).value;
      SanitizedKeepsMarks(nodes, r);
      SameLetters(Concat(UnitLooks(DocUnits(d))), Concat(LookRows(AllowedOnly(ReadingAll(nodes, [], r)))));
      JoinedText(DocUnits(d));
      RowsAreInk(AllowedOnly(ReadingAll(nodes, [], r)));
      ReadingAllInk(nodes, [], r);
    }
  }
}
