// The rows of a text: what stands between its line breaks, without white space. Normalising a line keeps its rows when none
// of them is blank (apps/rich-editor/src/model.ts:71-136).

module TextRows {
  import opened Base
  import opened Chars
  import opened RichModel
  import opened Finish
  import opened FinishSpec
  import opened Units
  import opened VisibleText

  // ---- rows ----

  function Rows(s: string): (r: seq<string>)
    ensures r != []
  {
    if s == "" then [""]
    else
      var r, c := Rows(s[..|s|-1]), s[|s|-1];
      if c == '\n' then r + [""] else if IsWS(c) then r else r[..|r|-1] + [r[|r|-1] + [c]]
  }

  function CellRows(e: seq<Cell>): (r: seq<string>)
    ensures r != []
  {
    if e == [] then [""]
    else
      var r, c := CellRows(e[..|e|-1]), e[|e|-1];
      if c.Break? then r + [""] else if Ink(c) then r[..|r|-1] + [r[|r|-1] + [c.ch]] else r
  }

  lemma {:induction false} RowsSnoc(s: string, c: char)
    ensures Rows(s + [c]) ==
      var r := Rows(s); if c == '\n' then r + [""] else if IsWS(c) then r else r[..|r|-1] + [r[|r|-1] + [c]]
  {
    assert (s + [c])[..|s|] == s;
  }

  lemma {:induction false} CellRowsSnoc(e: seq<Cell>, c: Cell)
    ensures CellRows(e + [c]) ==
      var r := CellRows(e); if c.Break? then r + [""] else if Ink(c) then r[..|r|-1] + [r[|r|-1] + [c.ch]] else r
  {
    assert (e + [c])[..|e|] == e;
  }

  /** A break between two texts parts their rows. */
  lemma {:induction false} RowsJoin(a: string, b: string)
    ensures Rows(a + "\n" + b) == Rows(a) + Rows(b)
  {
    hide IsWS, Rows;
    if b == "" {
      assert a + "\n" + b == a + ['\n'];
      RowsSnoc(a, '\n');
      NoRows();
    } else {
      var q, c := b[..|b|-1], b[|b|-1];
      RowsJoin(a, q);
      SeqAssoc(a + "\n", q, [c]);
      assert b == q + [c];
      RowsSnoc(a + "\n" + q, c);
      RowsSnoc(q, c);
      LastRow(Rows(a), Rows(q));
    }
  }

  lemma {:induction false} NoRows()
    ensures Rows("") == [""]
  {}

  lemma {:induction false} LastRow(a: seq<string>, b: seq<string>)
    requires b != []
    ensures (a + b)[|a + b|-1] == b[|b|-1] && (a + b)[..|a + b|-1] == a + b[..|b|-1]
  {}

  lemma {:induction false} CellRowsJoin(a: seq<Cell>, b: seq<Cell>)
    ensures CellRows(a + [Break] + b) == CellRows(a) + CellRows(b)
  {
    hide Ink;
    if b == [] {
      assert a + [Break] + b == a + [Break];
      CellRowsSnoc(a, Break);
    } else {
      var q, c := b[..|b|-1], b[|b|-1];
      CellRowsJoin(a, q);
      assert b == q + [c];
      SeqAssoc(a + [Break], q, [c]);
      CellRowsSnoc(a + [Break] + q, c);
      CellRowsSnoc(q, c);
      LastRow(CellRows(a), CellRows(q));
    }
  }

  predicate NoBreak(e: seq<Cell>) { forall i :: 0 <= i < |e| ==> e[i].Glyph? }

  lemma {:induction false} OneRow(e: seq<Cell>)
    requires NoBreak(e)
    ensures CellRows(e) == [InkChars(e)]
  {
    if e != [] {
      var q, c := e[..|e|-1], e[|e|-1];
      assert q + [c] == e;
      OneRow(q);
      CellRowsSnoc(q, c);
      InkCharsSnoc(q, c);
      assert InkChars(q) + "" == InkChars(q);
    }
  }

  // ---- text and cells ----

  function CellText(e: seq<Cell>): string {
    if e == [] then "" else CellText(e[..|e|-1]) + [if e[|e|-1].Break? then '\n' else e[|e|-1].ch]
  }

  lemma {:induction false} CellTextConcat(a: seq<Cell>, b: seq<Cell>)
    ensures CellText(a + b) == CellText(a) + CellText(b)
  {
    if b == [] {
      assert a + b == a;
    } else {
      var q, c := b[..|b|-1], b[|b|-1];
      CellTextConcat(a, q);
      assert (a + b)[..|a + b|-1] == a + q;
      SeqAssoc(CellText(a), CellText(q), [if c.Break? then '\n' else c.ch]);
    }
  }

  lemma {:induction false} GlyphsText(t: string, m: Marks, link: nat)
    ensures CellText(Glyphs(t, m, link)) == t
  {
    if t != "" {
      var s, ch := t[..|t|-1], t[|t|-1];
      GlyphsText(s, m, link);
      assert t == s + [ch];
      GlyphsSnoc(s, ch, m, link);
      assert (Glyphs(s, m, link) + [Glyph(ch, m, link)])[..|s|] == Glyphs(s, m, link);
    }
  }

  lemma {:induction false} ChunkCellText(c: Chunk)
    ensures CellText(ChunkCells(c)) == LineText([c])
  {
    ChunkText(c);
    match c
    case Br => assert [Break][..0] == [];
    case Run(t, m, link) => GlyphsText(t, m, link);
  }

  lemma {:induction false} CellsAreText(cs: seq<Chunk>)
    ensures CellText(Cells(cs)) == LineText(cs)
  {
    hide ChunkCells, CellText, LineText;
    if cs == [] {
      NoCellText();
    } else {
      var q, c := cs[..|cs|-1], cs[|cs|-1];
      assert cs == q + [c];
      CellsAreText(q);
      CellTextConcat(Cells(q), ChunkCells(c));
      ChunkCellText(c);
      LineTextConcat(q, [c]);
    }
  }

  lemma {:induction false} NoCellText()
    ensures CellText([]) == LineText([])
  {}

  /** White space is written as the plain space only. */
  predicate PlainBlanks(e: seq<Cell>) { forall i :: 0 <= i < |e| && Blank(e[i]) ==> e[i].ch == ' ' }

  lemma {:induction false} PlainFront(e: seq<Cell>)
    requires PlainBlanks(e) && e != []
    ensures PlainBlanks(e[..|e|-1]) && (Blank(e[|e|-1]) ==> e[|e|-1].ch == ' ')
  {
    hide Blank;
  }

  lemma {:induction false} RowsOfCells(e: seq<Cell>)
    requires PlainBlanks(e)
    ensures Rows(CellText(e)) == CellRows(e)
  {
    hide PlainBlanks, Rows, IsWS;
    if e == [] {
      NoRowsAtAll();
    } else {
      var q, c := e[..|e|-1], e[|e|-1];
      PlainFront(e);
      RowsOfCells(q);
      RowsSnoc(CellText(q), if c.Break? then '\n' else c.ch);
      NewlineIsSpace();
    }
  }

  lemma {:induction false} NoRowsAtAll()
    ensures Rows("") == [""] && CellRows([]) == [""]
  {}

  lemma {:induction false} NewlineIsSpace()
    ensures IsWS('\n') && IsWS(' ')
  {}

  // ---- normalising keeps rows with ink ----

  predicate Rowful(rows: seq<string>) { forall k :: 0 <= k < |rows| ==> rows[k] != "" }

  lemma {:induction false} RowHasInk(e: seq<Cell>)
    requires CellRows(e)[|CellRows(e)|-1] != "" || exists k :: 0 <= k < |CellRows(e)| && CellRows(e)[k] != ""
    ensures InkBefore(e, |e|)
  {
    if e != [] {
      var q, c := e[..|e|-1], e[|e|-1];
      if !Ink(c) {
        assert forall k :: 0 <= k < |CellRows(e)| && CellRows(e)[k] != "" ==> k < |CellRows(q)| && CellRows(q)[k] != "";
        RowHasInk(q);
        var j :| 0 <= j < |q| && Ink(q[j]);
        assert Ink(e[j]);
      }
    }
  }

  /** Every break of a line without blank rows stands between ink. */
  lemma {:induction false} BreakKept(e: seq<Cell>, i: nat)
    requires Rowful(CellRows(e)) && i < |e| && e[i].Break?
    ensures InkBefore(e, i) && InkFrom(e, i + 1)
  {
    var a, b := e[..i], e[i+1..];
    assert e == a + [Break] + b;
    CellRowsJoin(a, b);
    var rows := CellRows(e);
    assert CellRows(a)[0] == rows[0] && CellRows(b)[0] == rows[|CellRows(a)|];
    hide CellRows;
    RowHasInk(a);
    RowHasInk(b);
    var j :| 0 <= j < |a| && Ink(a[j]);
    assert Ink(e[j]);
    var k :| 0 <= k < |b| && Ink(b[k]);
    assert Ink(e[i + 1 + k]);
  }

  lemma {:induction false} RowfulMask(e: seq<Cell>)
    requires Rowful(CellRows(e))
    ensures |KeptMask(e)| == |e| && forall i :: 0 <= i < |e| && !Blank(e[i]) ==> KeptMask(e)[i]
  {
    hide CellRows, InkBefore, InkFrom, LeadsToInk;
    forall i | 0 <= i < |e| && !Blank(e[i]) ensures KeptMask(e)[i] {
      if e[i].Break? { BreakKept(e, i); }
    }
  }

  lemma {:induction false} PickRows(e: seq<Cell>, mask: seq<bool>)
    requires |mask| == |e| && forall i :: 0 <= i < |e| && !Blank(e[i]) ==> mask[i]
    ensures CellRows(Pick(e, mask)) == CellRows(e)
  {
    if e != [] {
      var n := |e| - 1;
      PickRows(e[..n], mask[..n]);
      CellRowsSnoc(Pick(e[..n], mask[..n]), PlainCell(e[n]));
      assert Pick(e[..n], mask[..n]) + [] == Pick(e[..n], mask[..n]);
    }
  }

  /** Rows do not depend on marks and links. */
  predicate SameInk(a: Cell, b: Cell) {
    a.Break? == b.Break? && Ink(a) == Ink(b) && (Ink(a) ==> a.ch == b.ch)
  }

  lemma {:induction false} SameRows(a: seq<Cell>, b: seq<Cell>)
    requires |a| == |b| && forall k :: 0 <= k < |a| ==> SameInk(a[k], b[k])
    ensures CellRows(a) == CellRows(b)
  {
    hide Ink;
    if a != [] {
      assert SameInk(a[|a|-1], b[|b|-1]);
      SameRows(a[..|a|-1], b[..|b|-1]);
    }
  }

  lemma {:induction false} BareRows(a: seq<Cell>, b: seq<Cell>)
    requires Bares(a) == Bares(b)
    ensures CellRows(a) == CellRows(b)
  {
    assert |a| == |Bares(a)| == |b|;
    forall k | 0 <= k < |a| ensures SameInk(a[k], b[k]) { assert Bares(a)[k] == Bares(b)[k]; }
    SameRows(a, b);
  }

  lemma {:induction false} LineRows(x: seq<Chunk>)
    ensures CellRows(Line(x)) == CellRows(Cells(x))
  {
    hide Cells, Unlinked;
    UnlinkCells(x, InkedLinks(x));
    forall k | 0 <= k < |Cells(x)| ensures SameInk(Cells(x)[k], Line(x)[k]) {}
    SameRows(Cells(x), Line(x));
  }

  lemma {:induction false} TidyPlain(e: seq<Cell>)
    requires Tidy(e)
    ensures PlainBlanks(e)
  {}

  /** Normalised, the line still has its rows, and its text shows them. */
  lemma {:induction false} FinishRows(x: seq<Chunk>)
    requires Rowful(CellRows(Cells(x)))
    ensures Finished(x).Some? && Finished(x).value != [] && Rows(LineText(Finished(x).value)) == CellRows(Cells(x))
  {
    hide CellRows, Cells, Finished, Canonical, Tidy, Pick, Kept, KeptMask, Line, Bares, Rows, LineText, InkBefore;
    var line := Line(x);
    LineRows(x);
    RowfulInk(line);
    FinishContract(x);
    var out := Finished(x).value;
    RowfulMask(line);
    PickRows(line, KeptMask(line));
    BareRows(Cells(out), Pick(line, KeptMask(line)));
    TidyPlain(Cells(out));
    RowsOfCells(Cells(out));
    CellsAreText(out);
  }

  lemma {:induction false} RowfulInk(e: seq<Cell>)
    requires Rowful(CellRows(e))
    ensures InkBefore(e, |e|)
  {
    hide CellRows, InkBefore;
    assert CellRows(e)[|CellRows(e)|-1] != "";
    RowHasInk(e);
  }

  // ---- the rows of a document ----

  function UnitRows(us: seq<seq<Chunk>>): seq<string> {
    if us == [] then [] else Rows(LineText(us[0])) + UnitRows(us[1..])
  }

  lemma {:induction false} UnitRowsConcat(a: seq<seq<Chunk>>, b: seq<seq<Chunk>>)
    ensures UnitRows(a + b) == UnitRows(a) + UnitRows(b)
  {
    hide Rows, LineText;
    if a == [] {
      assert a + b == b;
    } else {
      UnitRowsConcat(a[1..], b);
      assert (a + b)[1..] == a[1..] + b;
      SeqAssoc(Rows(LineText(a[0])), UnitRows(a[1..]), UnitRows(b));
    }
  }

  lemma {:induction false} OneUnitRows(u: seq<Chunk>)
    ensures UnitRows([u]) == Rows(LineText(u)) && UnitRows([]) == []
  {
    hide Rows, LineText;
    assert [u][1..] == [];
    assert Rows(LineText(u)) + [] == Rows(LineText(u));
  }

  /** The visible text of units, row by row. */
  lemma {:induction false} JoinedRows(us: seq<seq<Chunk>>)
    requires us != []
    ensures Rows(JoinLines(Texts(us))) == UnitRows(us)
  {
    hide Rows, LineText, JoinLines;
    var front, last := us[..|us|-1], us[|us|-1];
    assert us == front + [last];
    UnitRowsConcat(front, [last]);
    OneUnitRows(last);
    assert Texts(us) == Texts(front) + [LineText(last)];
    JoinSnoc(Texts(front), LineText(last));
    if front != [] {
      JoinedRows(front);
      RowsJoin(JoinLines(Texts(front)), LineText(last));
    } else {
      assert [] + Rows(LineText(last)) == Rows(LineText(last));
    }
  }
}
