// No line of the old text is lost, doubled or moved (apps/rich-editor/src/legacy.ts:97-147, 245-266): row by row, the document shows
// the nonblank lines, each without its matched delimiters and, in a list, without its marker.

module LegacyLines {
  import opened Base
  import opened Chars
  import opened RichModel
  import opened Finish
  import opened FinishSpec
  import opened Units
  import opened VisibleText
  import opened TextRows
  import opened LegacyModel
  import opened LegacyRules
  import opened Markup
  import Printer

  /** What a compiled line shows: its characters without matched delimiters and without white space. */
  function Shown(s: string): string { NonSpace(MarkedText(Bolds(s, 0, 0))) }

  function AllShown(lines: seq<string>): seq<string> {
    seq(|lines|, i requires 0 <= i < |lines| => Shown(lines[i]))
  }

  // ---- a line with ink shows ink ----

  predicate HasInk(s: string) { exists i :: 0 <= i < |s| && !IsWS(s[i]) }

  lemma {:induction false} InkShows(s: string)
    ensures NonSpace(s) != "" <==> HasInk(s)
  {
    hide IsWS;
    if s != "" {
      var q := s[..|s|-1];
      InkShows(q);
      assert HasInk(s) <==> HasInk(q) || !IsWS(s[|s|-1]) by {
        if HasInk(q) {
          var i :| 0 <= i < |q| && !IsWS(q[i]);
          assert !IsWS(s[i]);
        }
        if HasInk(s) {
          var i :| 0 <= i < |s| && !IsWS(s[i]);
          if i < |q| { assert !IsWS(q[i]); }
        }
      }
    }
  }

  lemma {:induction false} UnicodeInk(c: char)
    requires !IsUnicodeSpace(c)
    ensures !IsWS(c)
  {}

  /** Marked parts begin with a character that is no space. */
  predicate PartsBegin(parts: seq<Part>) {
    forall k :: 0 <= k < |parts| && parts[k].marked ==> parts[k].text != "" && !IsUnicodeSpace(parts[k].text[0])
  }

  lemma {:induction false} BeginMore(a: Part, b: Part, rest: seq<Part>)
    requires !a.marked && b.marked && b.text != "" && !IsUnicodeSpace(b.text[0]) && PartsBegin(rest)
    ensures PartsBegin([a, b] + rest)
  {
    hide IsUnicodeSpace;
  }

  lemma {:induction false} ItalicsBegin(s: string, i: nat, last: nat)
    requires last <= i && last <= |s|
    ensures PartsBegin(Italics(s, i, last)) && Italics(s, i, last) != []
    decreases |s| - i
  {
    hide IsUnicodeSpace, PartsBegin, NextScore, ItalicAt;
    if i >= |s| {
      PlainBegins(s[last..]);
    } else if ItalicAt(s, i) {
      var j := NextScore(s, i + 1);
      ItalicText(s, i);
      ItalicsBegin(s, j + 1, j + 1);
      BeginMore(Part(s[last..i], false), Part(s[i+1..j], true), Italics(s, j + 1, j + 1));
    } else {
      ItalicsBegin(s, i + 1, last);
    }
  }

  lemma {:induction false} PlainBegins(s: string)
    ensures PartsBegin([Part(s, false)])
  {}

  lemma {:induction false} ItalicText(s: string, i: nat)
    requires i < |s| && ItalicAt(s, i)
    ensures var j := NextScore(s, i + 1); i + 1 < j < |s| && s[i+1..j] != "" && !IsUnicodeSpace(s[i+1..j][0])
  {
    hide IsUnicodeSpace;
  }

  lemma {:induction false} BoldsBegin(s: string, i: nat, last: nat)
    requires last <= i && last <= |s|
    ensures PartsBegin(Bolds(s, i, last)) && Bolds(s, i, last) != []
    decreases |s| - i
  {
    hide IsUnicodeSpace, PartsBegin, Stars, CloserAt, BoldEnd;
    if i >= |s| {
      PlainBegins(s[last..]);
    } else if Stars(s, i) && BoldEnd(s, i).Some? {
      var j := BoldEnd(s, i).value;
      BoldText(s, i);
      BoldsBegin(s, j + 2, j + 2);
      BeginMore(Part(s[last..i], false), Part(s[i+2..j], true), Bolds(s, j + 2, j + 2));
    } else {
      BoldsBegin(s, i + 1, last);
    }
  }

  lemma {:induction false} BoldText(s: string, i: nat)
    requires BoldEnd(s, i).Some?
    ensures var j := BoldEnd(s, i).value; i + 3 <= j && j + 2 <= |s| && !IsUnicodeSpace(s[i+2..j][0])
  {
    hide IsUnicodeSpace, LeastCloser;
  }

  predicate AnyMarked(parts: seq<Part>) { exists k :: 0 <= k < |parts| && parts[k].marked }

  lemma {:induction false} PlainDelimited(parts: seq<Part>, mark: string)
    requires !AnyMarked(parts)
    ensures Delimited(parts, mark) == PartsText(parts)
  {
    if parts != [] {
      assert !parts[0].marked;
      forall k | 0 <= k < |parts[1..]| ensures !parts[1..][k].marked { assert parts[1..][k] == parts[k+1]; }
      PlainDelimited(parts[1..], mark);
    }
  }

  /** Ink in one part is ink in the text. */
  lemma {:induction false} PartInk(parts: seq<Part>, k: nat)
    requires k < |parts| && HasInk(parts[k].text)
    ensures NonSpace(PartsText(parts)) != ""
    decreases k
  {
    hide NonSpace, HasInk;
    NonSpaceConcat(parts[0].text, PartsText(parts[1..]));
    if k == 0 { InkShows(parts[0].text); } else { PartInk(parts[1..], k - 1); }
  }

  lemma {:induction false} FirstInk(s: string)
    requires s != "" && !IsUnicodeSpace(s[0])
    ensures HasInk(s)
  {
    UnicodeInk(s[0]);
  }

  lemma {:induction false} MarkedHasInk(parts: seq<Part>) returns (k: nat)
    requires PartsBegin(parts) && AnyMarked(parts)
    ensures k < |parts| && HasInk(parts[k].text)
  {
    hide IsUnicodeSpace, HasInk;
    k :| 0 <= k < |parts| && parts[k].marked;
    FirstInk(parts[k].text);
  }

  lemma {:induction false} ItalicsShow(s: string)
    requires HasInk(s)
    ensures NonSpace(PartsText(Italics(s, 0, 0))) != ""
  {
    hide Italics, HasInk, NonSpace, PartsBegin;
    var parts := Italics(s, 0, 0);
    ItalicsBegin(s, 0, 0);
    if AnyMarked(parts) {
      var k := MarkedHasInk(parts);
      PartInk(parts, k);
    } else {
      ItalicsKeep(s, 0, 0);
      assert s[0..] == s;
      PlainDelimited(parts, "_");
      InkShows(s);
    }
  }

  lemma {:induction false} MarkedInk(parts: seq<Part>, k: nat)
    requires k < |parts| && HasInk(parts[k].text)
    ensures NonSpace(MarkedText(parts)) != ""
    decreases k
  {
    hide NonSpace, HasInk, Italics;
    NonSpaceConcat(PartsText(Italics(parts[0].text, 0, 0)), MarkedText(parts[1..]));
    if k == 0 { ItalicsShow(parts[0].text); } else { MarkedInk(parts[1..], k - 1); }
  }

  /** Without marked parts, ink of the text is ink of a part. */
  lemma {:induction false} InkInPart(parts: seq<Part>) returns (k: nat)
    requires NonSpace(PartsText(parts)) != ""
    ensures k < |parts| && HasInk(parts[k].text)
  {
    hide HasInk;
    k := 0;
    if parts != [] {
      NonSpaceConcat(parts[0].text, PartsText(parts[1..]));
      InkShows(parts[0].text);
      if !HasInk(parts[0].text) {
        var j := InkInPart(parts[1..]);
        k := j + 1;
      }
    }
  }

  /** A line with ink shows ink: delimiters alone never make up a matched pair. */
  lemma {:induction false} LineShows(s: string)
    requires HasInk(s)
    ensures Shown(s) != ""
  {
    hide Bolds, HasInk, NonSpace, PartsBegin, PartsText, MarkedText, Delimited;
    var parts := Bolds(s, 0, 0);
    BoldsBegin(s, 0, 0);
    if AnyMarked(parts) {
      var k := MarkedHasInk(parts);
      MarkedInk(parts, k);
    } else {
      BoldsKeep(s, 0, 0);
      assert s[0..] == s;
      PlainDelimited(parts, "**");
      InkShows(s);
      var k := InkInPart(parts);
      MarkedInk(parts, k);
    }
  }

  // ---- which text a line enters with ----

  /** The lines of a segment: the line itself, or the bodies of the items. */
  function SegmentTexts(lines: seq<string>, g: Segment): seq<string>
    requires SegmentIn(g, lines)
  {
    match g
    case TextAt(i) => [lines[i]]
    case ListAt(i, j, _) => seq(j - i, k requires 0 <= k < j - i => Classify(lines[i + k]).body)
  }

  function SegmentsTexts(lines: seq<string>, segs: seq<Segment>): seq<string>
    requires forall k :: 0 <= k < |segs| ==> SegmentIn(segs[k], lines)
  {
    if segs == [] then []
    else
      assert SegmentIn(segs[0], lines);
      SegmentTexts(lines, segs[0]) + SegmentsTexts(lines, segs[1..])
  }

  function BlockTexts(lines: seq<string>): seq<string> {
    SegmentsIn(lines, 0);
    SegmentsTexts(lines, Segments(lines, 0))
  }

  function RawTexts(raws: seq<string>, block: seq<string>): seq<string> {
    if raws == [] then BlockTexts(block)
    else if Trim(raws[0]) == "" then BlockTexts(block) + RawTexts(raws[1..], [])
    else RawTexts(raws[1..], block + [Trim(raws[0])])
  }

  /** The nonblank lines, without the white space around them. */
  function NonBlank(raws: seq<string>): seq<string> {
    if raws == [] then []
    else (if Trim(raws[0]) == "" then [] else [Trim(raws[0])]) + NonBlank(raws[1..])
  }

  /** A line enters as it is, or as the body of a list item. */
  predicate EntersAs(line: string, text: string) {
    text == line || (Classify(line).kind != TextLine && text == Classify(line).body)
  }

  predicate AllEnter(lines: seq<string>, texts: seq<string>) {
    |texts| == |lines| && forall k :: 0 <= k < |lines| ==> EntersAs(lines[k], texts[k])
  }

  lemma {:induction false} AllEnterConcat(a: seq<string>, x: seq<string>, b: seq<string>, y: seq<string>)
    requires AllEnter(a, x) && AllEnter(b, y)
    ensures AllEnter(a + b, x + y)
  {
    hide EntersAs;
  }

  /** The texts of a block, line by line: an item's body where a list stands, the whole line elsewhere. */
  lemma {:induction false} SegmentEnters(lines: seq<string>, g: Segment)
    requires SegmentOk(lines, g)
    ensures match g
            case TextAt(i) => AllEnter(lines[i..i+1], SegmentTexts(lines, g))
            case ListAt(i, j, _) => AllEnter(lines[i..j], SegmentTexts(lines, g))
  {
    hide StartsList, Classify;
    match g
    case TextAt(i) =>
    case ListAt(i, j, ordered) =>
      forall k | 0 <= k < j - i ensures EntersAs(lines[i..j][k], SegmentTexts(lines, g)[k]) {
        assert ItemAt(lines, i, i + k, ordered);
      }
  }

  lemma {:induction false} SegmentsEnter(lines: seq<string>, i: nat)
    requires i <= |lines|
    ensures (forall k :: 0 <= k < |Segments(lines, i)| ==> SegmentIn(Segments(lines, i)[k], lines))
         && AllEnter(lines[i..], SegmentsTexts(lines, Segments(lines, i)))
    decreases |lines| - i
  {
    hide StartsList, ListEnd, EntersAs, SegmentOk, SegmentTexts;
    SegmentsIn(lines, i);
    if i < |lines| {
      var j := if StartsList(lines, i) then ListEnd(lines, i, i + 1) else i + 1;
      var segs := Segments(lines, i);
      SegmentsAreRuns(lines, i);
      SegmentsEnter(lines, j);
      assert segs[1..] == Segments(lines, j);
      assert SegmentOk(lines, segs[0]);
      SegmentEnters(lines, segs[0]);
      AllEnterConcat(lines[i..j], SegmentTexts(lines, segs[0]), lines[j..], SegmentsTexts(lines, segs[1..]));
      assert lines[i..] == lines[i..j] + lines[j..];
    }
  }

  lemma {:induction false} BlockEnters(lines: seq<string>)
    ensures AllEnter(lines, BlockTexts(lines))
  {
    hide Segments, AllEnter;
    SegmentsEnter(lines, 0);
    assert lines[0..] == lines;
  }

  lemma {:induction false} RawEnters(raws: seq<string>, block: seq<string>)
    ensures AllEnter(block + NonBlank(raws), RawTexts(raws, block))
    decreases |raws|
  {
    hide BlockTexts, AllEnter, Trim;
    if raws == [] {
      BlockEnters(block);
      assert block + [] == block;
    } else if Trim(raws[0]) == "" {
      BlockEnters(block);
      RawEnters(raws[1..], []);
      assert [] + NonBlank(raws[1..]) == NonBlank(raws[1..]) == NonBlank(raws);
      AllEnterConcat(block, BlockTexts(block), NonBlank(raws), RawTexts(raws[1..], []));
    } else {
      RawEnters(raws[1..], block + [Trim(raws[0])]);
      SeqAssoc(block, [Trim(raws[0])], NonBlank(raws[1..]));
    }
  }

  // ---- texts with ink ----

  predicate AllInk(texts: seq<string>) { forall k :: 0 <= k < |texts| ==> HasInk(texts[k]) }

  lemma {:induction false} LeftInk(s: string)
    requires TrimLeft(s, IsWS) != ""
    ensures HasInk(TrimLeft(s, IsWS)) && !IsWS(TrimLeft(s, IsWS)[0])
  {
    hide IsWS;
    if IsWS(s[0]) { LeftInk(s[1..]); }
  }

  lemma {:induction false} RightInk(s: string)
    requires s != "" && !IsWS(s[0])
    ensures TrimRight(s, IsWS) != "" && TrimRight(s, IsWS)[0] == s[0]
  {
    hide IsWS;
    if IsWS(s[|s|-1]) { RightInk(s[..|s|-1]); }
  }

  lemma {:induction false} TrimInk(s: string)
    requires Trim(s) != ""
    ensures HasInk(Trim(s))
  {
    hide HasInk, IsWS;
    var t := TrimLeft(s, IsWS);
    if t != "" {
      LeftInk(s);
      RightInk(t);
      BeginsInk(Trim(s));
    }
  }

  lemma {:induction false} BeginsInk(s: string)
    requires s != "" && !IsWS(s[0])
    ensures HasInk(s)
  {}

  lemma {:induction false} BodyInk(line: string)
    requires HasInk(line)
    ensures HasInk(Classify(line).body)
  {
    hide HasInk, Value, Digits, StartsWithWS;
    var n := Digits(line, 0);
    if BulletBody(line).Some? {
      LeftInk(line[1..]);
    } else if NumberBody(line).Some? {
      LeftInk(line[n+1..]);
    }
  }

  lemma {:induction false} NonBlankInk(raws: seq<string>)
    ensures AllInk(NonBlank(raws))
  {
    hide HasInk, Trim;
    if raws != [] {
      NonBlankInk(raws[1..]);
      if Trim(raws[0]) != "" { TrimInk(raws[0]); }
    }
  }

  lemma {:induction false} EnteredInk(lines: seq<string>, texts: seq<string>)
    requires AllEnter(lines, texts) && AllInk(lines)
    ensures AllInk(texts)
  {
    hide HasInk, Classify;
    forall k | 0 <= k < |texts| ensures HasInk(texts[k]) {
      assert EntersAs(lines[k], texts[k]);
      BodyInk(lines[k]);
    }
  }

  // ---- the rows of the document ----

  /** A compiled line has no break. */
  predicate NoBr(cs: seq<Chunk>) { forall i :: 0 <= i < |cs| ==> cs[i].Run? }

  lemma {:induction false} ScanNoBr(s: string, strong: bool, em: bool, i: nat, last: nat, st: Links, clean: Clean)
    requires last <= i <= |s|
    ensures NoBr(LinkScan(s, strong, em, i, last, st, clean).0)
    decreases |s| - i
  {
    hide LinkScan, HttpsAt, RunEnd, CutPunct;
    if i + 8 > |s| || st.budget == 0 {
      ScanEnds(s, strong, em, i, last, st, clean);
    } else if LinkFound(s, i, clean) {
      var end := ScanLinks(s, strong, em, i, last, st, clean);
      ScanNoBr(s, strong, em, end, end, Links(st.budget - 1, st.last + 1), clean);
    } else {
      var k := ScanGoesOn(s, strong, em, i, last, st, clean);
      ScanNoBr(s, strong, em, k, last, st, clean);
    }
  }

  lemma {:induction false} SpansNoBr(spans: seq<Span>, st: Links, clean: Clean)
    ensures NoBr(SpanChunks(spans, st, clean).0)
  {
    hide LinkScan;
    if spans != [] {
      var sp := spans[0];
      ScanNoBr(sp.text, sp.strong, sp.em, 0, 0, st, clean);
      SpansNoBr(spans[1..], LinkScan(sp.text, sp.strong, sp.em, 0, 0, st, clean).1, clean);
    }
  }

  lemma {:induction false} NoBrCells(cs: seq<Chunk>)
    requires NoBr(cs)
    ensures NoBreak(Cells(cs))
  {
    if cs != [] { NoBrCells(cs[..|cs|-1]); }
  }

  /** One compiled line is one row, and shows what is left of it. */
  lemma {:induction false} InlineRow(s: string, st: Links, clean: Clean)
    requires HasInk(s)
    ensures CellRows(Cells(InlineChunks(s, st, clean).0)) == [Shown(s)] && Shown(s) != "" && InlineChunks(s, st, clean).0 != []
  {
    hide HasInk, Cells, CellRows, NonSpace, MarkedText, Bolds, LineText, SpanChunks, InkChars, Delimited, ItalicsRestored;
    var cs := InlineChunks(s, st, clean).0;
    LineShows(s);
    SpansNoBr(Spans(s), st, clean);
    NoBrCells(cs);
    OneRow(Cells(cs));
    CellsText(cs);
    InlineKeepsText(s, st, clean);
    NoTextNoShow();
  }

  lemma {:induction false} NoTextNoShow()
    ensures NonSpace(LineText([])) == ""
  {}

  lemma {:induction false} BreakCells(para: seq<Chunk>, cs: seq<Chunk>)
    ensures Cells(para + [Br] + cs) == Cells(para) + [Break] + Cells(cs)
  {
    hide Cells;
    CellsMore(para + [Br], cs);
    CellsSnoc(para, Br);
  }

  lemma {:induction false} CellsMore(a: seq<Chunk>, b: seq<Chunk>)
    ensures Cells(a + b) == Cells(a) + Cells(b)
  {
    hide ChunkCells;
    if b == [] {
      assert a + b == a;
    } else {
      var q, c := b[..|b|-1], b[|b|-1];
      assert b == q + [c];
      CellsMore(a, q);
      SeqAssoc(a, q, [c]);
      CellsSnoc(q, c);
      CellsSnoc(a + q, c);
      SeqAssoc(Cells(a), Cells(q), ChunkCells(c));
    }
  }

  /** The paragraph being filled: nothing, or rows with ink. */
  predicate Filling(para: seq<Chunk>, rows: seq<string>) {
    if para == [] then rows == [] else rows == CellRows(Cells(para)) && Rowful(rows)
  }

  lemma {:induction false} FillMore(para: seq<Chunk>, rows: seq<string>, s: string, st: Links, clean: Clean)
    requires Filling(para, rows) && HasInk(s)
    ensures Filling(WithLine(para, InlineChunks(s, st, clean).0), rows + [Shown(s)])
  {
    hide HasInk, Cells, CellRows, Shown, InlineChunks;
    var cs := InlineChunks(s, st, clean).0;
    InlineRow(s, st, clean);
    if para == [] {
      assert WithLine(para, cs) == cs && rows + [Shown(s)] == [Shown(s)];
    } else {
      BreakCells(para, cs);
      CellRowsJoin(Cells(para), Cells(cs));
    }
  }

  lemma {:induction false} ParaRows(para: seq<Chunk>, rows: seq<string>)
    requires Filling(para, rows)
    ensures UnitRows(DocUnits(FlushedPara(para))) == rows
  {
    hide Cells, CellRows, Finished, Rows, LineText, UnitRows;
    if para == [] {
      NothingFinished();
      OneUnitRows([]);
    } else {
      FinishRows(para);
      var f := Finished(para).value;
      OneTextUnit(f);
      OneUnitRows(f);
    }
  }

  lemma {:induction false} NothingFinished()
    ensures FinishedOr([]) == []
  {
    assert Cells(Unlinked([], InkedLinks([]))) == [];
  }

  lemma {:induction false} OneTextUnit(f: seq<Chunk>)
    requires f != []
    ensures DocUnits([TextBlock(P, f)]) == [f]
  {
    var b := TextBlock(P, f);
    assert [b][1..] == [];
  }

  lemma {:induction false} ItemRows(lines: seq<string>, i: nat, j: nat, st: Links, clean: Clean)
    requires i <= j <= |lines| && AllInk(lines)
    ensures UnitRows(ItemsUnits(ListItems(lines, i, j, st, clean).0)) == AllShown(SegmentBodies(lines, i, j))
    decreases j - i
  {
    hide HasInk, InlineChunks, Classify, Shown, UnitRows, ItemsUnits, FinishedOr;
    if i == j {
      NoUnits();
    } else {
      var body := Classify(lines[i]).body;
      var (cs, a) := InlineChunks(body, st, clean);
      BodyInk(lines[i]);
      OneItemRow(body, st, clean);
      ItemRows(lines, i + 1, j, a, clean);
      var (rest, b) := ListItems(lines, i + 1, j, a, clean);
      ItemFirst(FinishedOr(cs), rest);
      UnitRowsConcat([FinishedOr(cs)], ItemsUnits(rest));
      assert AllShown(SegmentBodies(lines, i, j)) == [Shown(body)] + AllShown(SegmentBodies(lines, i + 1, j));
    }
  }

  function SegmentBodies(lines: seq<string>, i: nat, j: nat): seq<string>
    requires i <= j <= |lines|
  {
    seq(j - i, k requires 0 <= k < j - i => Classify(lines[i + k]).body)
  }

  lemma {:induction false} NoUnits()
    ensures UnitRows(ItemsUnits([])) == []
  {}

  lemma {:induction false} OneItemRow(s: string, st: Links, clean: Clean)
    requires HasInk(s)
    ensures var f := FinishedOr(InlineChunks(s, st, clean).0); f != [] && UnitRows([f]) == [Shown(s)]
  {
    hide HasInk, Cells, CellRows, Finished, Rows, LineText, UnitRows, Shown, InlineChunks;
    InlineRow(s, st, clean);
    var cs := InlineChunks(s, st, clean).0;
    FinishRows(cs);
    OneUnitRows(Finished(cs).value);
  }

  lemma {:induction false} ItemFirst(f: seq<Chunk>, rest: seq<Item>)
    requires f != []
    ensures ItemsUnits([Item(f, [])] + rest) == [f] + ItemsUnits(rest)
  {
    var items := [Item(f, [])] + rest;
    assert items[1..] == rest && items[0] == Item(f, []);
    assert !Printer.ItemEmpty(items[0]);
    assert SubsUnits([]) == [];
    assert ItemUnits(items[0]) == [f];
  }

  lemma {:induction false} ListUnitsOf(ordered: bool, items: seq<Item>)
    ensures DocUnits([ListBlock(List(ordered, items))]) == ItemsUnits(items)
  {
    var b := ListBlock(List(ordered, items));
    assert [b][1..] == [];
    hide ItemsUnits;
    assert DocUnits([b]) == BlockUnits(b) + DocUnits([]);
    assert DocUnits([]) == [];
  }

  lemma {:induction false} DocUnitsConcat(a: Doc, b: Doc)
    ensures DocUnits(a + b) == DocUnits(a) + DocUnits(b)
  {
    hide BlockUnits;
    if a == [] {
      assert a + b == b;
    } else {
      DocUnitsConcat(a[1..], b);
      assert (a + b)[1..] == a[1..] + b;
      SeqAssoc(BlockUnits(a[0]), DocUnits(a[1..]), DocUnits(b));
    }
  }

  function DocRows(d: Doc): seq<string> { UnitRows(DocUnits(d)) }

  lemma {:induction false} DocRowsConcat(a: Doc, b: Doc)
    ensures DocRows(a + b) == DocRows(a) + DocRows(b)
  {
    hide DocUnits, UnitRows;
    DocUnitsConcat(a, b);
    UnitRowsConcat(DocUnits(a), DocUnits(b));
  }

  lemma {:induction false} ShownConcat(a: seq<string>, b: seq<string>)
    ensures AllShown(a + b) == AllShown(a) + AllShown(b)
  {
    hide Shown;
  }

  lemma {:induction false} SegmentRows(lines: seq<string>, segs: seq<Segment>, para: seq<Chunk>, rows: seq<string>, st: Links, clean: Clean)
    requires (forall k :: 0 <= k < |segs| ==> SegmentIn(segs[k], lines)) && AllInk(lines) && Filling(para, rows)
    ensures DocRows(SegmentBlocks(lines, segs, para, st, clean).0) == rows + AllShown(SegmentsTexts(lines, segs))
    decreases |segs|
  {
    hide HasInk, Filling, InlineChunks, ListItems, FlushedPara, DocUnits, UnitRows, Shown, AllShown, WithLine, SegmentTexts;
    if segs == [] {
      ParaRows(para, rows);
      NothingShown();
      assert rows + [] == rows;
    } else {
      assert SegmentIn(segs[0], lines);
      ShownConcat(SegmentTexts(lines, segs[0]), SegmentsTexts(lines, segs[1..]));
      match segs[0]
      case TextAt(i) =>
        var (cs, a) := InlineChunks(lines[i], st, clean);
        FillMore(para, rows, lines[i], st, clean);
        SegmentRows(lines, segs[1..], WithLine(para, cs), rows + [Shown(lines[i])], a, clean);
        TextShown(lines, i);
        SeqAssoc(rows, [Shown(lines[i])], AllShown(SegmentsTexts(lines, segs[1..])));
      case ListAt(i, j, ordered) =>
        var (items, a) := ListItems(lines, i, j, st, clean);
        FillNothing();
        SegmentRows(lines, segs[1..], [], [], a, clean);
        var rest := SegmentBlocks(lines, segs[1..], [], a, clean).0;
        var l := [ListBlock(List(ordered, items))];
        ParaRows(para, rows);
        ItemRows(lines, i, j, st, clean);
        ListUnitsOf(ordered, items);
        BodiesAre(lines, i, j, ordered);
        DocRowsConcat(FlushedPara(para) + l, rest);
        DocRowsConcat(FlushedPara(para), l);
        SeqAssoc(rows, AllShown(SegmentBodies(lines, i, j)), AllShown(SegmentsTexts(lines, segs[1..])));
        assert [] + AllShown(SegmentsTexts(lines, segs[1..])) == AllShown(SegmentsTexts(lines, segs[1..]));
    }
  }

  lemma {:induction false} NothingShown()
    ensures AllShown([]) == []
  {}

  lemma {:induction false} FillNothing()
    ensures Filling([], [])
  {}

  lemma {:induction false} TextShown(lines: seq<string>, i: nat)
    requires i < |lines|
    ensures AllShown(SegmentTexts(lines, TextAt(i))) == [Shown(lines[i])]
  {
    hide Shown;
  }

  lemma {:induction false} BodiesAre(lines: seq<string>, i: nat, j: nat, ordered: bool)
    requires i < j <= |lines|
    ensures SegmentTexts(lines, ListAt(i, j, ordered)) == SegmentBodies(lines, i, j)
  {}

  lemma {:induction false} BlockRows(block: seq<string>, st: Links, clean: Clean)
    requires AllInk(block)
    ensures DocRows(FlushedBlock(block, st, clean).0) == AllShown(BlockTexts(block))
  {
    hide Segments, SegmentBlocks, SegmentsTexts, Filling, AllInk, AllShown, UnitRows, DocUnits;
    SegmentsIn(block, 0);
    if block == [] {
      NoBlock();
    } else {
      FillNothing();
      SegmentRows(block, Segments(block, 0), [], [], st, clean);
      assert [] + AllShown(BlockTexts(block)) == AllShown(BlockTexts(block));
    }
  }

  lemma {:induction false} NoBlock()
    ensures DocRows([]) == [] && AllShown(BlockTexts([])) == []
  {}

  lemma {:induction false} RawRows(raws: seq<string>, block: seq<string>, st: Links, clean: Clean)
    requires AllInk(block)
    ensures DocRows(RawDoc(raws, block, st, clean).0) == AllShown(RawTexts(raws, block))
    decreases |raws|
  {
    hide FlushedBlock, BlockTexts, Trim, HasInk, DocRows, AllShown;
    BlockRows(block, st, clean);
    if raws != [] {
      if Trim(raws[0]) == "" {
        var (d, a) := FlushedBlock(block, st, clean);
        RawRows(raws[1..], [], a, clean);
        DocRowsConcat(d, RawDoc(raws[1..], [], a, clean).0);
        ShownConcat(BlockTexts(block), RawTexts(raws[1..], []));
      } else {
        TrimInk(raws[0]);
        RawRows(raws[1..], block + [Trim(raws[0])], st, clean);
      }
    }
  }

  // ---- the whole text ----

  function RawLines(text: string): seq<string> { Lines(Newlines(LegacyChars(text))) }

  /** The rows a reader of the element tree sees; none when nothing is visible. */
  function VisibleRows(f: seq<Node>): seq<string> {
    var s := JoinLines(ForestLines(f));
    if s == "" then [] else Rows(s)
  }

  lemma {:induction false} RowsVisible(us: seq<seq<Chunk>>)
    requires us == [] || UnitRows(us)[0] != ""
    ensures var s := JoinLines(Texts(us)); (if s == "" then [] else Rows(s)) == UnitRows(us)
  {
    hide Rows, LineText, JoinLines, UnitRows;
    OneUnitRows([]);
    if us == [] {
      assert Texts(us) == [];
      NothingJoined();
    } else {
      JoinedRows(us);
      NoRowsAtAll();
    }
  }

  /** The rows of the units as they stand in the tree. */
  lemma {:induction false} TreeRows(d: Doc)
    requires Rowful(DocRows(d)) && (DocUnits(d) != [] ==> DocRows(d) != [])
    ensures VisibleRows(Printer.DocTree(d)) == DocRows(d)
  {
    hide Printer.DocTree, ForestLines, UnitRows, Rows, JoinLines, DocUnits, Texts;
    UnitsAreLines(d);
    RowsVisible(DocUnits(d));
  }

  lemma {:induction false} UnitsHaveRows(us: seq<seq<Chunk>>)
    ensures us != [] ==> UnitRows(us) != []
  {
    hide Rows, LineText;
  }

  lemma {:induction false} ShownRowful(texts: seq<string>)
    requires AllInk(texts)
    ensures Rowful(AllShown(texts))
  {
    hide HasInk, Shown;
    forall k | 0 <= k < |texts| ensures AllShown(texts)[k] != "" { LineShows(texts[k]); }
  }

  /**
   * The rows of the printed document are the nonblank lines of the text, one for one and in order. Each shows its line, or its
   * body where it is a list item, without the matched delimiters; none is empty.
   */
  lemma {:induction false} LegacyKeepsLines(text: string, maxLinks: nat, clean: Clean)
    ensures var texts := RawTexts(RawLines(text), []);
            && AllEnter(NonBlank(RawLines(text)), texts)
            && VisibleRows(Printer.DocTree(LegacyDoc(text, maxLinks, clean).0)) == AllShown(texts)
            && Rowful(AllShown(texts))
  {
    hide RawDoc, RawTexts, NonBlank, AllEnter, AllInk, AllShown, DocUnits, UnitRows, VisibleRows, Printer.DocTree, Lines, Newlines, LegacyChars, Rowful;
    var raws := RawLines(text);
    var texts := RawTexts(raws, []);
    var d := LegacyDoc(text, maxLinks, clean).0;
    NonBlankInk(raws);
    NoInk();
    RawEnters(raws, []);
    assert [] + NonBlank(raws) == NonBlank(raws);
    EnteredInk(NonBlank(raws), texts);
    RawRows(raws, [], Links(maxLinks, 0), clean);
    ShownRowful(texts);
    UnitsHaveRows(DocUnits(d));
    TreeRows(d);
  }

  lemma {:induction false} NoInk()
    ensures AllInk([])
  {}
}
