// Where each line of the old text stands in the printed document, and with which marks (apps/rich-editor/src/legacy.ts:97-203, 241):
// strong inside a matched "**", em inside a matched "_", links only on text that is a link, paragraphs and numbered lists as typed.

module LegacyMarks {
  import opened Base
  import opened Chars
  import opened RichModel
  import opened Finish
  import opened FinishSpec
  import opened Markup
  import opened Printer
  import opened Units
  import opened MarkedRows
  import opened TextRows
  import opened VisibleText
  import opened InlineWalk
  import opened TreeReading
  import opened PrintedReading
  import opened LegacyModel
  import opened LegacyRules
  import opened LegacyLines
  import R = Reader
  import Writer

  // ---- what the notation says of a line ----

  /** The visible characters of a text, all marked alike. */
  function Alike(t: string, strong: bool, em: bool): Row {
    if t == "" then []
    else
      Alike(t[..|t|-1], strong, em)
      + (if IsWS(t[|t|-1]) then [] else [Look(t[|t|-1], Marks(strong, em, false, ""))])
  }

  /** Italic exactly inside the parts between matched "_". */
  function ItalicLooks(parts: seq<Part>, strong: bool): Row {
    if parts == [] then [] else Alike(parts[0].text, strong, parts[0].marked) + ItalicLooks(parts[1..], strong)
  }

  /** Bold exactly inside the parts between matched "**". */
  function BoldLooks(parts: seq<Part>): Row {
    if parts == [] then [] else ItalicLooks(Italics(parts[0].text, 0, 0), parts[0].marked) + BoldLooks(parts[1..])
  }

  /** How a line shows, apart from links. */
  function LineLooks(s: string): Row { BoldLooks(Bolds(s, 0, 0)) }

  function Unhref(row: Row): Row {
    seq(|row|, i requires 0 <= i < |row| => Look(row[i].ch, row[i].marks.(href := "")))
  }

  function UnhrefAll(rows: seq<Row>): seq<Row> {
    seq(|rows|, i requires 0 <= i < |rows| => Unhref(rows[i]))
  }

  /** A target is the checked form of a bare link. */
  ghost predicate Leads(h: string, clean: Clean) {
    exists t :: LeadsFrom(t, h, clean)
  }

  predicate LeadsFrom(t: string, h: string, clean: Clean) { HttpsAt(t, 0) && clean(t) == Some(h) }

  ghost predicate RowLeads(row: Row, clean: Clean) {
    forall k :: 0 <= k < |row| && row[k].marks.href != "" ==> Leads(row[k].marks.href, clean)
  }

  ghost predicate AllLead(rows: seq<Row>, clean: Clean) {
    forall k :: 0 <= k < |rows| ==> RowLeads(rows[k], clean)
  }

  // ---- one stretch ----

  /** The cells are the text, under these marks and maybe a link. */
  ghost predicate Styled(e: seq<Cell>, t: string, strong: bool, em: bool, clean: Clean) {
    && |e| == |t|
    && forall k :: 0 <= k < |e| ==>
         && e[k].Glyph? && e[k].ch == t[k] && e[k].marks.(href := "") == Marks(strong, em, false, "")
         && (e[k].marks.href != "" ==> Leads(e[k].marks.href, clean))
  }

  lemma {:induction false} StyledConcat(a: seq<Cell>, s: string, b: seq<Cell>, t: string, strong: bool, em: bool, clean: Clean)
    requires Styled(a, s, strong, em, clean) && Styled(b, t, strong, em, clean)
    ensures Styled(a + b, s + t, strong, em, clean)
  {
    hide Leads;
  }

  lemma {:induction false} StyledRun(t: string, strong: bool, em: bool, href: string, link: nat, clean: Clean)
    requires href != "" ==> Leads(href, clean)
    ensures Styled(Cells([Run(t, Marks(strong, em, false, href), link)]), t, strong, em, clean)
    ensures Styled(Cells([]), "", strong, em, clean)
  {
    hide Leads;
    var c := Run(t, Marks(strong, em, false, href), link);
    assert [c][..0] == [];
    assert Cells([c]) == Cells([c][..0]) + ChunkCells(c);
  }

  lemma {:induction false} LinkLeads(s: string, i: nat, end: nat, h: string, clean: Clean)
    requires i + 8 <= end <= |s| && HttpsAt(s, i) && clean(s[i..end]) == Some(h)
    ensures Leads(h, clean)
  {
    hide R.Lower;
    var t := s[i..end];
    assert t[0..8] == s[i..i+8];
    assert LeadsFrom(t, h, clean);
  }

  lemma {:induction false} PieceStyled(s: string, strong: bool, em: bool, last: nat, i: nat, end: nat, href: string, n: nat, clean: Clean)
    requires last <= i && i + 8 <= end <= |s| && HttpsAt(s, i) && clean(s[i..end]) == Some(href)
    ensures Styled(Cells(LinkPiece(s, strong, em, last, i, end, href, n)), s[last..end], strong, em, clean)
  {
    hide Styled, Cells, HttpsAt, Leads;
    LinkLeads(s, i, end, href, clean);
    StyledRun(s[i..end], strong, em, href, n, clean);
    var l := [Run(s[i..end], Marks(strong, em, false, href), n)];
    if i > last {
      StyledRun(s[last..i], strong, em, "", 0, clean);
      var p := [PlainRun(s[last..i], strong, em)];
      CellsMore(p, l);
      StyledConcat(Cells(p), s[last..i], Cells(l), s[i..end], strong, em, clean);
      assert s[last..i] + s[i..end] == s[last..end];
    } else {
      assert [] + l == l;
    }
  }

  lemma {:induction false} ScanStyled(s: string, strong: bool, em: bool, i: nat, last: nat, st: Links, clean: Clean)
    requires last <= i <= |s|
    ensures Styled(Cells(LinkScan(s, strong, em, i, last, st, clean).0), s[last..], strong, em, clean)
    decreases |s| - i
  {
    hide LinkScan, HttpsAt, RunEnd, CutPunct, Styled, Cells, LinkPiece;
    if i + 8 > |s| || st.budget == 0 {
      ScanEnds(s, strong, em, i, last, st, clean);
      StyledRun(s[last..], strong, em, "", 0, clean);
      assert last == |s| ==> s[last..] == "";
    } else if LinkFound(s, i, clean) {
      var end := ScanLinks(s, strong, em, i, last, st, clean);
      var h := clean(s[i..end]).value;
      var next := Links(st.budget - 1, st.last + 1);
      ScanStyled(s, strong, em, end, end, next, clean);
      LongEnough(s, i);
      PieceStyled(s, strong, em, last, i, end, h, st.last + 1, clean);
      var piece, rest := LinkPiece(s, strong, em, last, i, end, h, st.last + 1), LinkScan(s, strong, em, end, end, next, clean).0;
      CellsMore(piece, rest);
      StyledConcat(Cells(piece), s[last..end], Cells(rest), s[end..], strong, em, clean);
      assert s[last..end] + s[end..] == s[last..];
    } else {
      var k := ScanGoesOn(s, strong, em, i, last, st, clean);
      ScanStyled(s, strong, em, k, last, st, clean);
    }
  }

  lemma {:induction false} LongEnough(s: string, i: nat)
    requires i + 8 <= |s| && HttpsAt(s, i)
    ensures i + 8 <= CutPunct(s, i, RunEnd(s, i + 8))
  {
    CutKeepsScheme(s, i, RunEnd(s, i + 8));
  }

  // ---- one line ----

  /** One row without breaks that shows as `row`, apart from links. */
  ghost predicate OneShows(e: seq<Cell>, row: Row, clean: Clean) {
    NoBreak(e) && Folded(e).0 == [] && Unhref(Folded(e).1) == row && RowLeads(Folded(e).1, clean)
  }

  lemma {:induction false} FoldedGlyphs(a: seq<Cell>, b: seq<Cell>)
    requires NoBreak(b)
    ensures Folded(b).0 == [] && Folded(a + b) == (Folded(a).0, Folded(a).1 + Folded(b).1)
  {
    hide Ink;
    if b == [] {
      assert a + b == a && Folded(a).1 + [] == Folded(a).1;
    } else {
      var q, c := b[..|b|-1], b[|b|-1];
      FoldedGlyphs(a, q);
      assert b == q + [c];
      SeqAssoc(a, q, [c]);
      FoldedSnoc(a + q, c);
      FoldedSnoc(q, c);
      SeqAssoc(Folded(a).1, Folded(q).1, [Look(c.ch, c.marks)]);
    }
  }

  lemma {:induction false} OneConcat(a: seq<Cell>, x: Row, b: seq<Cell>, y: Row, clean: Clean)
    requires OneShows(a, x, clean) && OneShows(b, y, clean)
    ensures OneShows(a + b, x + y, clean)
  {
    hide Leads, Folded;
    FoldedGlyphs(a, b);
    assert Unhref(Folded(a).1 + Folded(b).1) == Unhref(Folded(a).1) + Unhref(Folded(b).1);
  }

  lemma {:induction false} StyledShows(e: seq<Cell>, t: string, strong: bool, em: bool, clean: Clean)
    requires Styled(e, t, strong, em, clean)
    ensures OneShows(e, Alike(t, strong, em), clean)
  {
    hide Leads, IsWS;
    if e != [] {
      var q, c, s := e[..|e|-1], e[|e|-1], t[..|t|-1];
      StyledShows(q, s, strong, em, clean);
      assert e == q + [c];
      FoldedSnoc(q, c);
      assert Unhref(Folded(q).1 + [Look(c.ch, c.marks)]) == Unhref(Folded(q).1) + [Look(c.ch, c.marks.(href := ""))];
    }
  }

  function SpansRow(spans: seq<Span>): Row {
    if spans == [] then [] else Alike(spans[0].text, spans[0].strong, spans[0].em) + SpansRow(spans[1..])
  }

  lemma {:induction false} SpansRowConcat(a: seq<Span>, b: seq<Span>)
    ensures SpansRow(a + b) == SpansRow(a) + SpansRow(b)
  {
    hide Alike;
    if a == [] {
      assert a + b == b;
    } else {
      SpansRowConcat(a[1..], b);
      assert (a + b)[1..] == a[1..] + b;
      SeqAssoc(Alike(a[0].text, a[0].strong, a[0].em), SpansRow(a[1..]), SpansRow(b));
    }
  }

  lemma {:induction false} SpansShow(spans: seq<Span>, st: Links, clean: Clean)
    ensures OneShows(Cells(SpanChunks(spans, st, clean).0), SpansRow(spans), clean)
  {
    hide LinkScan, OneShows, Alike, Styled, Cells;
    if spans == [] {
      NothingShows(clean);
    } else {
      var sp := spans[0];
      var (cs, a) := LinkScan(sp.text, sp.strong, sp.em, 0, 0, st, clean);
      ScanStyled(sp.text, sp.strong, sp.em, 0, 0, st, clean);
      assert sp.text[0..] == sp.text;
      StyledShows(Cells(cs), sp.text, sp.strong, sp.em, clean);
      SpansShow(spans[1..], a, clean);
      var rest := SpanChunks(spans[1..], a, clean).0;
      CellsMore(cs, rest);
      OneConcat(Cells(cs), Alike(sp.text, sp.strong, sp.em), Cells(rest), SpansRow(spans[1..]), clean);
    }
  }

  lemma {:induction false} NothingShows(clean: Clean)
    ensures OneShows(Cells([]), [], clean)
  {
    hide Leads;
  }

  lemma {:induction false} ItalicRow(parts: seq<Part>, strong: bool)
    ensures SpansRow(ItalicSpans(parts, strong)) == ItalicLooks(parts, strong)
  {
    hide Alike;
    if parts != [] {
      ItalicRow(parts[1..], strong);
      assert ItalicSpans(parts, strong)[1..] == ItalicSpans(parts[1..], strong);
    }
  }

  lemma {:induction false} BoldRow(parts: seq<Part>)
    ensures SpansRow(BoldSpans(parts)) == BoldLooks(parts)
  {
    hide Italics, ItalicSpans;
    if parts != [] {
      BoldRow(parts[1..]);
      ItalicRow(Italics(parts[0].text, 0, 0), parts[0].marked);
      SpansRowConcat(ItalicSpans(Italics(parts[0].text, 0, 0), parts[0].marked), BoldSpans(parts[1..]));
    }
  }

  /** The chunks of a line show it as the notation says. */
  lemma {:induction false} InlineLooks(s: string, st: Links, clean: Clean)
    ensures OneShows(Cells(InlineChunks(s, st, clean).0), LineLooks(s), clean)
  {
    hide OneShows, SpanChunks, SpansRow, BoldSpans, Bolds, BoldLooks, Cells;
    SpansShow(Spans(s), st, clean);
    BoldRow(Bolds(s, 0, 0));
  }

  // ---- lines with ink show ink ----

  lemma {:induction false} AlikeText(t: string, strong: bool, em: bool)
    ensures RowText(Alike(t, strong, em)) == NonSpace(t)
  {
    hide IsWS;
    if t != "" {
      AlikeText(t[..|t|-1], strong, em);
      var tail := if IsWS(t[|t|-1]) then [] else [Look(t[|t|-1], Marks(strong, em, false, ""))];
      RowTextConcat(Alike(t[..|t|-1], strong, em), tail);
    }
  }

  lemma {:induction false} RowTextConcat(a: Row, b: Row)
    ensures RowText(a + b) == RowText(a) + RowText(b)
  {}

  lemma {:induction false} ItalicText(parts: seq<Part>, strong: bool)
    ensures RowText(ItalicLooks(parts, strong)) == NonSpace(PartsText(parts))
  {
    hide NonSpace, Alike, RowText;
    if parts == [] {
      NoText();
    } else {
      ItalicText(parts[1..], strong);
      AlikeText(parts[0].text, strong, parts[0].marked);
      RowTextConcat(Alike(parts[0].text, strong, parts[0].marked), ItalicLooks(parts[1..], strong));
      NonSpaceConcat(parts[0].text, PartsText(parts[1..]));
    }
  }

  lemma {:induction false} NoText()
    ensures RowText([]) == "" && NonSpace("") == ""
  {}

  lemma {:induction false} BoldText(parts: seq<Part>)
    ensures RowText(BoldLooks(parts)) == NonSpace(MarkedText(parts))
  {
    hide NonSpace, Italics, ItalicLooks, RowText, PartsText;
    if parts == [] {
      NoText();
    } else {
      BoldText(parts[1..]);
      ItalicText(Italics(parts[0].text, 0, 0), parts[0].marked);
      RowTextConcat(ItalicLooks(Italics(parts[0].text, 0, 0), parts[0].marked), BoldLooks(parts[1..]));
      NonSpaceConcat(PartsText(Italics(parts[0].text, 0, 0)), MarkedText(parts[1..]));
    }
  }

  lemma {:induction false} LineLooksShown(s: string)
    ensures RowText(LineLooks(s)) == Shown(s)
    ensures HasInk(s) ==> LineLooks(s) != []
  {
    hide NonSpace, BoldLooks, Bolds, MarkedText, HasInk;
    BoldText(Bolds(s, 0, 0));
    if HasInk(s) { LineShows(s); }
  }

  // ---- rows of a document, with links aside ----

  /** The rows show as `rows`, apart from links, and every link leads where a bare link of the text does. */
  ghost predicate RowsShow(x: seq<Row>, rows: seq<Row>, clean: Clean) {
    UnhrefAll(x) == rows && AllLead(x, clean)
  }

  lemma {:induction false} RowsShowConcat(a: seq<Row>, x: seq<Row>, b: seq<Row>, y: seq<Row>, clean: Clean)
    requires RowsShow(a, x, clean) && RowsShow(b, y, clean)
    ensures RowsShow(a + b, x + y, clean) && RowsShow([], [], clean)
  {
    hide RowLeads, Unhref;
    assert UnhrefAll(a + b) == UnhrefAll(a) + UnhrefAll(b);
  }

  lemma {:induction false} InlineRows(s: string, st: Links, clean: Clean)
    requires HasInk(s)
    ensures RowsShow(LookRows(Cells(InlineChunks(s, st, clean).0)), [LineLooks(s)], clean) && InlineChunks(s, st, clean).0 != []
  {
    hide HasInk, InlineChunks, Cells, LineLooks, Folded, RowLeads;
    InlineLooks(s, st, clean);
    LineLooksShown(s);
    var e := Cells(InlineChunks(s, st, clean).0);
    assert LookRows(e) == [Folded(e).1];
    NoCellsShow();
  }

  lemma {:induction false} NoCellsShow()
    ensures Folded(Cells([])) == ([], [])
  {}

  /** The paragraph being filled, and its rows. */
  ghost predicate ParaShows(para: seq<Chunk>, rows: seq<Row>, clean: Clean) {
    if para == [] then rows == [] else rows != [] && RowsShow(LookRows(Cells(para)), rows, clean)
  }

  lemma {:induction false} ParaMore(para: seq<Chunk>, rows: seq<Row>, s: string, st: Links, clean: Clean)
    requires ParaShows(para, rows, clean) && HasInk(s)
    ensures ParaShows(WithLine(para, InlineChunks(s, st, clean).0), rows + [LineLooks(s)], clean)
  {
    hide HasInk, Cells, LookRows, LineLooks, InlineChunks, RowsShow;
    var cs := InlineChunks(s, st, clean).0;
    InlineRows(s, st, clean);
    if para == [] {
      assert [] + cs == cs && [] + [LineLooks(s)] == [LineLooks(s)];
    } else {
      BreakCells(para, cs);
      LookRowsJoin(Cells(para), Cells(cs));
      RowsShowConcat(LookRows(Cells(para)), rows, LookRows(Cells(cs)), [LineLooks(s)], clean);
    }
  }

  /** Normalised, a line with rows is not empty and still shows them. */
  lemma {:induction false} FinishedShows(cs: seq<Chunk>, rows: seq<Row>, clean: Clean)
    requires rows != [] && RowsShow(LookRows(Cells(cs)), rows, clean)
    ensures FinishedOr(cs) != [] && RowsShow(LookRows(Cells(FinishedOr(cs))), rows, clean)
  {
    hide Cells, LookRows, Finished, AllLead, Unhref;
    FinishKeepsRows(cs);
    NoLooks();
    NoCellsShow();
    NoLineShows();
  }

  lemma {:induction false} NoLineShows()
    ensures LookRows(Cells([])) == [] && UnhrefAll([]) == []
  {}

  // ---- where a row stands ----

  /** A row of a text block, counted within it, or of an item, counted within its list. */
  datatype Place = InBlock(tag: string, row: nat) | InItem(ordered: bool, item: nat)

  datatype Placed = Placed(place: Place, row: Row)

  function BlockPlaces(tag: string, rows: seq<Row>): seq<Placed> {
    seq(|rows|, i requires 0 <= i < |rows| => Placed(Place.InBlock(tag, i), rows[i]))
  }

  function ItemPlaces(ordered: bool, item: nat, rows: seq<Row>): seq<Placed> {
    seq(|rows|, i requires 0 <= i < |rows| => Placed(InItem(ordered, item), rows[i]))
  }

  /** The rows of a printed tree whose lists are not nested, with their places. */
  function PlacedRows(f: seq<Node>): seq<Placed> {
    if f == [] then [] else NodePlaced(f[0]) + PlacedRows(f[1..])
  }

  function NodePlaced(n: Node): seq<Placed> {
    match n
    case Text(_) => []
    case Elem(tag, _, kids) => if tag == "ul" || tag == "ol" then ItemsPlaced(kids, tag == "ol", 0) else BlockPlaces(tag, ShownRows([n]))
  }

  function ItemsPlaced(kids: seq<Node>, ordered: bool, item: nat): seq<Placed> {
    if kids == [] then [] else ItemPlaces(ordered, item, ShownRows([kids[0]])) + ItemsPlaced(kids[1..], ordered, item + 1)
  }

  function UnhrefPlaced(ps: seq<Placed>): seq<Placed> {
    seq(|ps|, i requires 0 <= i < |ps| => Placed(ps[i].place, Unhref(ps[i].row)))
  }

  ghost predicate PlacesShow(x: seq<Placed>, y: seq<Placed>, clean: Clean) {
    UnhrefPlaced(x) == y && forall k :: 0 <= k < |x| ==> RowLeads(x[k].row, clean)
  }

  lemma {:induction false} PlacesConcat(a: seq<Placed>, x: seq<Placed>, b: seq<Placed>, y: seq<Placed>, clean: Clean)
    requires PlacesShow(a, x, clean) && PlacesShow(b, y, clean)
    ensures PlacesShow(a + b, x + y, clean) && PlacesShow([], [], clean)
  {
    hide RowLeads, Unhref;
    assert UnhrefPlaced(a + b) == UnhrefPlaced(a) + UnhrefPlaced(b);
  }

  lemma {:induction false} PlacedConcat(f: seq<Node>, g: seq<Node>)
    ensures PlacedRows(f + g) == PlacedRows(f) + PlacedRows(g)
  {
    hide NodePlaced;
    if f == [] {
      assert f + g == g;
    } else {
      PlacedConcat(f[1..], g);
      assert (f + g)[1..] == f[1..] + g;
      SeqAssoc(NodePlaced(f[0]), PlacedRows(f[1..]), PlacedRows(g));
    }
  }

  /** A paragraph stands as a paragraph, row by row. */
  lemma {:induction false} ParaPlaced(para: seq<Chunk>, rows: seq<Row>, clean: Clean)
    requires ParaShows(para, rows, clean)
    ensures PlacesShow(PlacedRows(DocTree(FlushedPara(para))), BlockPlaces("p", rows), clean)
  {
    hide Cells, LookRows, Finished, RowLeads, Unhref, Nest, ShownRows;
    if para == [] {
      NothingFinished();
      NothingPlaced(clean);
    } else {
      FinishedShows(para, rows, clean);
      var f := FinishedOr(para);
      OneParaPlaced(f);
      OneParaRows(f);
    }
  }

  lemma {:induction false} NothingPlaced(clean: Clean)
    ensures PlacedRows(DocTree([])) == [] && BlockPlaces("p", []) == [] && PlacesShow([], [], clean)
  {}

  lemma {:induction false} OneParaPlaced(f: seq<Chunk>)
    requires f != []
    ensures PlacedRows(DocTree([TextBlock(P, f)])) == BlockPlaces("p", ShownRows([Elem("p", None, Nest(f, 0))]))
    ensures DocTree([TextBlock(P, f)]) == [Elem("p", None, Nest(f, 0))]
  {
    hide Nest, ShownRows, BlockPlaces;
    var n := Elem("p", None, Nest(f, 0));
    var b := TextBlock(P, f);
    assert [b][1..] == [] && DocTree([b][1..]) == [] && [n] + [] == [n];
    assert DocTree([b]) == [n];
    assert [n][1..] == [] && PlacedRows([n][1..]) == [];
    assert NodePlaced(n) + [] == NodePlaced(n);
  }

  lemma {:induction false} OneParaRows(f: seq<Chunk>)
    requires f != []
    ensures ShownRows([Elem("p", None, Nest(f, 0))]) == LookRows(Cells(f))
  {
    hide Nest, ShownRows, LookRows, Cells, DocTree, DocUnits, UnitLooks;
    OneParaPlaced(f);
    DocReads([TextBlock(P, f)]);
    OneTextUnit(f);
    OneUnit(f);
  }

  // ---- what the text says ----

  /** The items of a list, one row each. */
  function BodyPlaces(lines: seq<string>, i: nat, j: nat, ordered: bool, item: nat): seq<Placed>
    requires i <= j <= |lines|
    decreases j - i
  {
    if i == j then []
    else [Placed(InItem(ordered, item), LineLooks(Classify(lines[i]).body))] + BodyPlaces(lines, i + 1, j, ordered, item + 1)
  }

  /** The lines of a block where its segments put them; `rows` are those of the paragraph they go on with. */
  function SegmentPlaces(lines: seq<string>, segs: seq<Segment>, rows: seq<Row>): seq<Placed>
    requires forall k :: 0 <= k < |segs| ==> SegmentIn(segs[k], lines)
  {
    if segs == [] then BlockPlaces("p", rows)
    else
      assert SegmentIn(segs[0], lines);
      match segs[0]
      case TextAt(i) => SegmentPlaces(lines, segs[1..], rows + [LineLooks(lines[i])])
      case ListAt(i, j, ordered) =>
        BlockPlaces("p", rows) + BodyPlaces(lines, i, j, ordered, 0) + SegmentPlaces(lines, segs[1..], [])
  }

  function LinesPlaced(lines: seq<string>): seq<Placed> {
    SegmentsIn(lines, 0);
    SegmentPlaces(lines, Segments(lines, 0), [])
  }

  /** Blank lines part the blocks. */
  function TextPlaced(raws: seq<string>, block: seq<string>): seq<Placed> {
    if raws == [] then LinesPlaced(block)
    else if Trim(raws[0]) == "" then LinesPlaced(block) + TextPlaced(raws[1..], [])
    else TextPlaced(raws[1..], block + [Trim(raws[0])])
  }

  // ---- lists ----

  lemma {:induction false} OneItemPlaced(f: seq<Chunk>)
    requires f != []
    ensures ItemTree(Item(f, [])) == [Elem("li", None, Nest(f, 0))]
    ensures ShownRows([Elem("li", None, Nest(f, 0))]) == LookRows(Cells(f))
  {
    hide Nest, LookRows, Cells, ReadingAll, ToDoms, UnitLooks, Unmarked;
    var it := Item(f, []);
    assert !ItemEmpty(it) && SubTrees([]) == [] && Nest(f, 0) + [] == Nest(f, 0);
    NoneMarked();
    ItemReads(it, []);
    assert SubsUnits([]) == [] && ItemUnits(it) == [f];
    OneUnit(f);
  }

  lemma {:induction false} ItemsPlace(lines: seq<string>, i: nat, j: nat, ordered: bool, item: nat, st: Links, clean: Clean)
    requires i <= j <= |lines| && AllInk(lines)
    ensures PlacesShow(ItemsPlaced(ItemTrees(ListItems(lines, i, j, st, clean).0), ordered, item), BodyPlaces(lines, i, j, ordered, item), clean)
    ensures i < j ==> !ListEmpty(List(ordered, ListItems(lines, i, j, st, clean).0))
    decreases j - i
  {
    hide HasInk, InlineChunks, Classify, LineLooks, FinishedOr, Nest, Cells, LookRows, ShownRows, RowLeads, Unhref, PlacesShow, ItemPlaces;
    NothingPlaced(clean);
    if i < j {
      var body := Classify(lines[i]).body;
      var (cs, a) := InlineChunks(body, st, clean);
      BodyInk(lines[i]);
      InlineRows(body, st, clean);
      FinishedShows(cs, [LineLooks(body)], clean);
      var f := FinishedOr(cs);
      ItemsPlace(lines, i + 1, j, ordered, item + 1, a, clean);
      var (rest, b) := ListItems(lines, i + 1, j, a, clean);
      FirstItem(f, rest, ordered, item);
      OneItemPlaced(f);
      ItemShows(LookRows(Cells(f)), LineLooks(body), ordered, item, clean);
      PlacesConcat(ItemPlaces(ordered, item, LookRows(Cells(f))), [Placed(InItem(ordered, item), LineLooks(body))],
                   ItemsPlaced(ItemTrees(rest), ordered, item + 1), BodyPlaces(lines, i + 1, j, ordered, item + 1), clean);
    }
  }

  lemma {:induction false} FirstItem(f: seq<Chunk>, rest: seq<Item>, ordered: bool, item: nat)
    requires f != []
    ensures var items := [Item(f, [])] + rest;
            && ItemsPlaced(ItemTrees(items), ordered, item)
               == ItemPlaces(ordered, item, ShownRows([Elem("li", None, Nest(f, 0))])) + ItemsPlaced(ItemTrees(rest), ordered, item + 1)
            && !ListEmpty(List(ordered, items))
  {
    hide Nest, ShownRows, ItemPlaces;
    var items := [Item(f, [])] + rest;
    assert items[1..] == rest && items[0] == Item(f, []);
    OneItemPlaced(f);
    var n := Elem("li", None, Nest(f, 0));
    assert ItemTrees(items) == [n] + ItemTrees(rest);
    assert ([n] + ItemTrees(rest))[1..] == ItemTrees(rest);
    assert items[0] in items && !ItemEmpty(items[0]);
  }

  lemma {:induction false} ItemShows(x: seq<Row>, row: Row, ordered: bool, item: nat, clean: Clean)
    requires RowsShow(x, [row], clean)
    ensures PlacesShow(ItemPlaces(ordered, item, x), [Placed(InItem(ordered, item), row)], clean)
  {
    hide RowLeads, Unhref;
    assert |x| == |UnhrefAll(x)| == 1;
    assert UnhrefAll(x)[0] == row && RowLeads(x[0], clean);
    assert ItemPlaces(ordered, item, x) == [Placed(InItem(ordered, item), x[0])];
  }

  lemma {:induction false} ListPlaced(ordered: bool, items: seq<Item>)
    requires !ListEmpty(List(ordered, items))
    ensures PlacedRows(DocTree([ListBlock(List(ordered, items))])) == ItemsPlaced(ItemTrees(items), ordered, 0)
  {
    hide ShownRows, ItemTrees, ItemsPlaced;
    var b := ListBlock(List(ordered, items));
    var n := Elem(ListTag(ordered), None, ItemTrees(items));
    assert [b][1..] == [] && DocTree([b][1..]) == [] && [n] + [] == [n];
    assert DocTree([b]) == [n];
    assert [n][1..] == [] && PlacedRows([n][1..]) == [];
    assert NodePlaced(n) + [] == NodePlaced(n);
  }

  // ---- blocks ----

  lemma {:induction false} TreePlacedConcat(a: Doc, b: Doc)
    ensures PlacedRows(DocTree(a + b)) == PlacedRows(DocTree(a)) + PlacedRows(DocTree(b))
  {
    hide PlacedRows, DocTree;
    Writer.DocTreeConcat(a, b);
    PlacedConcat(DocTree(a), DocTree(b));
  }

  lemma {:induction false} SegmentsPlace(lines: seq<string>, segs: seq<Segment>, para: seq<Chunk>, rows: seq<Row>, st: Links, clean: Clean)
    requires (forall k :: 0 <= k < |segs| ==> SegmentIn(segs[k], lines)) && AllInk(lines) && ParaShows(para, rows, clean)
    ensures PlacesShow(PlacedRows(DocTree(SegmentBlocks(lines, segs, para, st, clean).0)), SegmentPlaces(lines, segs, rows), clean)
    decreases |segs|
  {
    hide HasInk, ParaShows, InlineChunks, ListItems, FlushedPara, DocTree, PlacedRows, LineLooks, WithLine, PlacesShow, BlockPlaces, BodyPlaces, ItemsPlaced, ItemTrees, ListEmpty;
    if segs == [] {
      ParaPlaced(para, rows, clean);
    } else {
      assert SegmentIn(segs[0], lines);
      match segs[0]
      case TextAt(i) =>
        var (cs, a) := InlineChunks(lines[i], st, clean);
        ParaMore(para, rows, lines[i], st, clean);
        SegmentsPlace(lines, segs[1..], WithLine(para, cs), rows + [LineLooks(lines[i])], a, clean);
      case ListAt(i, j, ordered) =>
        var (items, a) := ListItems(lines, i, j, st, clean);
        NothingFilled(clean);
        SegmentsPlace(lines, segs[1..], [], [], a, clean);
        var rest := SegmentBlocks(lines, segs[1..], [], a, clean).0;
        var l := [ListBlock(List(ordered, items))];
        ParaPlaced(para, rows, clean);
        ItemsPlace(lines, i, j, ordered, 0, st, clean);
        ListPlaced(ordered, items);
        TreePlacedConcat(FlushedPara(para), l);
        TreePlacedConcat(FlushedPara(para) + l, rest);
        PlacesConcat(PlacedRows(DocTree(FlushedPara(para))), BlockPlaces("p", rows), PlacedRows(DocTree(l)), BodyPlaces(lines, i, j, ordered, 0), clean);
        PlacesConcat(PlacedRows(DocTree(FlushedPara(para) + l)), BlockPlaces("p", rows) + BodyPlaces(lines, i, j, ordered, 0),
                     PlacedRows(DocTree(rest)), SegmentPlaces(lines, segs[1..], []), clean);
    }
  }

  lemma {:induction false} NothingFilled(clean: Clean)
    ensures ParaShows([], [], clean)
  {}

  lemma {:induction false} BlockPlaced(block: seq<string>, st: Links, clean: Clean)
    requires AllInk(block)
    ensures PlacesShow(PlacedRows(DocTree(FlushedBlock(block, st, clean).0)), LinesPlaced(block), clean)
  {
    hide Segments, SegmentBlocks, SegmentPlaces, ParaShows, AllInk, PlacedRows, DocTree, PlacesShow;
    SegmentsIn(block, 0);
    NothingFilled(clean);
    if block == [] {
      NoLines(clean);
    } else {
      SegmentsPlace(block, Segments(block, 0), [], [], st, clean);
    }
  }

  lemma {:induction false} NoLines(clean: Clean)
    ensures LinesPlaced([]) == [] && PlacedRows(DocTree([])) == [] && PlacesShow([], [], clean)
  {}

  lemma {:induction false} RawPlaced(raws: seq<string>, block: seq<string>, st: Links, clean: Clean)
    requires AllInk(block)
    ensures PlacesShow(PlacedRows(DocTree(RawDoc(raws, block, st, clean).0)), TextPlaced(raws, block), clean)
    decreases |raws|
  {
    hide FlushedBlock, LinesPlaced, Trim, HasInk, PlacedRows, DocTree, PlacesShow;
    BlockPlaced(block, st, clean);
    if raws != [] {
      if Trim(raws[0]) == "" {
        var (d, a) := FlushedBlock(block, st, clean);
        RawPlaced(raws[1..], [], a, clean);
        var rest := RawDoc(raws[1..], [], a, clean).0;
        TreePlacedConcat(d, rest);
        PlacesConcat(PlacedRows(DocTree(d)), LinesPlaced(block), PlacedRows(DocTree(rest)), TextPlaced(raws[1..], []), clean);
      } else {
        TrimInk(raws[0]);
        RawPlaced(raws[1..], block + [Trim(raws[0])], st, clean);
      }
    }
  }

  /**
   * Row by row, the printed document places and marks the lines of the text as the notation says: each in a paragraph, or as a numbered
   * item of an ordered or unordered list; strong exactly inside a matched "**", em exactly inside a matched "_", never underlined, and
   * linked only to the checked form of a bare link.
   */
  lemma {:induction false} LegacyPlacesLines(text: string, maxLinks: nat, clean: Clean)
    ensures var x := PlacedRows(DocTree(LegacyDoc(text, maxLinks, clean).0));
            && UnhrefPlaced(x) == TextPlaced(RawLines(text), [])
            && forall k :: 0 <= k < |x| ==> RowLeads(x[k].row, clean)
  {
    hide RawDoc, TextPlaced, PlacedRows, DocTree, UnhrefPlaced, RowLeads, Lines, Newlines, LegacyChars;
    LegacyLines.NoInk();
    RawPlaced(RawLines(text), [], Links(maxLinks, 0), clean);
  }
}
