// The rows of a line with the marks of their characters: what stands between breaks, without white space and without blank rows.
// `finish` keeps them, whatever else it drops (apps/rich-editor/src/model.ts:71-136).

module MarkedRows {
  import opened Base
  import opened Chars
  import opened RichModel
  import opened Finish
  import opened FinishSpec

  /** A visible character as it shows. */
  datatype Look = Look(ch: char, marks: Marks)

  type Row = seq<Look>

  function RowEnd(o: Row): seq<Row> { if o == [] then [] else [o] }

  /** The rows a line of cells has closed, and the one still open. */
  function Folded(e: seq<Cell>): (seq<Row>, Row) {
    if e == [] then ([], [])
    else
      var f, c := Folded(e[..|e|-1]), e[|e|-1];
      if c.Break? then (f.0 + RowEnd(f.1), []) else if Ink(c) then (f.0, f.1 + [Look(c.ch, c.marks)]) else f
  }

  function LookRows(e: seq<Cell>): seq<Row> { Folded(e).0 + RowEnd(Folded(e).1) }

  lemma {:induction false} FoldedSnoc(e: seq<Cell>, c: Cell)
    ensures var f := Folded(e);
            Folded(e + [c]) ==
              if c.Break? then (f.0 + RowEnd(f.1), []) else if Ink(c) then (f.0, f.1 + [Look(c.ch, c.marks)]) else f
  {
    assert (e + [c])[..|e|] == e;
  }

  lemma {:induction false} NoLooks()
    ensures Folded([]) == ([], []) && LookRows([]) == []
  {}

  lemma {:induction false} FoldedAfterBreak(a: seq<Cell>, b: seq<Cell>)
    ensures Folded(a + [Break] + b) == (LookRows(a) + Folded(b).0, Folded(b).1)
  {
    hide Ink;
    if b == [] {
      assert a + [Break] + b == a + [Break] && LookRows(a) + [] == LookRows(a);
      FoldedSnoc(a, Break);
    } else {
      var q, c := b[..|b|-1], b[|b|-1];
      FoldedAfterBreak(a, q);
      assert b == q + [c];
      SeqAssoc(a + [Break], q, [c]);
      FoldedSnoc(a + [Break] + q, c);
      FoldedSnoc(q, c);
      if c.Break? { SeqAssoc(LookRows(a), Folded(q).0, RowEnd(Folded(q).1)); }
    }
  }

  /** A break parts the rows. */
  lemma {:induction false} LookRowsJoin(a: seq<Cell>, b: seq<Cell>)
    ensures LookRows(a + [Break] + b) == LookRows(a) + LookRows(b)
  {
    hide Folded;
    FoldedAfterBreak(a, b);
    SeqAssoc(LookRows(a), Folded(b).0, RowEnd(Folded(b).1));
  }

  // ---- what rows do not depend on ----

  predicate SameLook(a: Cell, b: Cell) {
    a.Break? == b.Break? && Ink(a) == Ink(b) && (Ink(a) ==> a.ch == b.ch && a.marks == b.marks)
  }

  predicate SameLooks(a: seq<Cell>, b: seq<Cell>) {
    |a| == |b| && forall k :: 0 <= k < |a| ==> SameLook(a[k], b[k])
  }

  lemma {:induction false} SameFolded(a: seq<Cell>, b: seq<Cell>)
    requires SameLooks(a, b)
    ensures Folded(a) == Folded(b) && LookRows(a) == LookRows(b)
  {
    hide Ink;
    if a != [] {
      assert SameLook(a[|a|-1], b[|b|-1]);
      SameFolded(a[..|a|-1], b[..|b|-1]);
    }
  }

  lemma {:induction false} SameBares(a: seq<Cell>, b: seq<Cell>)
    requires Bares(a) == Bares(b)
    ensures SameLooks(a, b)
  {
    assert |a| == |Bares(a)| == |b|;
    forall k | 0 <= k < |a| ensures SameLook(a[k], b[k]) { assert Bares(a)[k] == Bares(b)[k]; }
  }

  lemma {:induction false} SameMore(a: seq<Cell>, b: seq<Cell>, c: seq<Cell>, d: seq<Cell>)
    requires SameLooks(a, b) && SameLooks(c, d)
    ensures SameLooks(a + c, b + d)
  {
    hide SameLook;
  }

  /** A chunk is unlinked only when it shows nothing. */
  lemma {:induction false} UnlinkLooks(c: Chunk, inked: set<nat>)
    requires HoldsInk(c) ==> c.link in inked
    ensures SameLooks(ChunkCells(c), ChunkCells(Unlink(c, inked)))
  {
    hide IsWS;
    if c.Run? && Unlink(c, inked) != c {
      forall k | 0 <= k < |c.text| ensures !Ink(ChunkCells(c)[k]) && !Ink(ChunkCells(Unlink(c, inked))[k]) {
        assert IsWS(c.text[k]);
      }
    }
  }

  lemma {:induction false} UnlinkedLooks(cs: seq<Chunk>, inked: set<nat>)
    requires forall i :: 0 <= i < |cs| && HoldsInk(cs[i]) ==> cs[i].link in inked
    ensures SameLooks(Cells(cs), Cells(Unlinked(cs, inked)))
  {
    hide HoldsInk, SameLooks, Unlink, ChunkCells;
    if cs == [] {
      NoCells();
    } else {
      var n := |cs| - 1;
      UnlinkedLooks(cs[..n], inked);
      assert Unlinked(cs, inked)[..n] == Unlinked(cs[..n], inked);
      UnlinkLooks(cs[n], inked);
      SameMore(Cells(cs[..n]), Cells(Unlinked(cs[..n], inked)), ChunkCells(cs[n]), ChunkCells(Unlink(cs[n], inked)));
    }
  }

  lemma {:induction false} NoCells()
    ensures SameLooks(Cells([]), Cells([])) && forall inked :: Unlinked([], inked) == []
  {}

  lemma {:induction false} LineLooks(x: seq<Chunk>)
    ensures LookRows(Cells(x)) == LookRows(Line(x))
  {
    hide Cells, Unlinked, LookRows, SameLooks;
    UnlinkedLooks(x, InkedLinks(x));
    SameFolded(Cells(x), Line(x));
  }

  // ---- the scan keeps the rows ----

  lemma {:induction false} TrimFolded(e: seq<Cell>)
    ensures Folded(TrimEnd(e)) == Folded(e)
  {
    if e != [] && SpaceCell(e[|e|-1]) { TrimFolded(e[..|e|-1]); }
  }

  lemma {:induction false} StepFolded(e: seq<Cell>, c: Cell)
    ensures Folded(Step(e, c)) == Folded(e + [c])
  {
    hide Folded, TrimEnd;
    NoLooks();
    FoldedSnoc(e, c);
    match c
    case Break =>
      TrimFolded(e);
      FoldedSnoc(TrimEnd(e), Break);
    case Glyph(ch, m, link) => FoldedSnoc(e, Glyph(' ', m, link));
  }

  lemma {:induction false} ScanFolded(e: seq<Cell>)
    ensures Folded(Scan(e)) == Folded(e)
  {
    hide Step, Folded;
    if e != [] {
      var q, c := e[..|e|-1], e[|e|-1];
      assert e == q + [c];
      ScanFolded(q);
      StepFolded(Scan(q), c);
      FoldedSnoc(Scan(q), c);
      FoldedSnoc(q, c);
    }
  }

  lemma {:induction false} DropLooks(e: seq<Cell>)
    ensures LookRows(DropBreaks(e)) == LookRows(e)
  {
    if e != [] && e[|e|-1].Break? {
      var q := e[..|e|-1];
      DropLooks(q);
      assert LookRows(e) == LookRows(q) + [] == LookRows(q);
    }
  }

  /** Normalising keeps every row that shows something, with its characters, their order and their marks. */
  lemma {:induction false} FinishKeepsRows(x: seq<Chunk>)
    ensures LookRows(Cells(x)) == match Finished(x) case None => [] case Some(out) => LookRows(Cells(out))
  {
    hide Cells, Scan, TrimEnd, DropBreaks, Group, Unlinked, Folded;
    var line := Line(x);
    LineLooks(x);
    ScanFolded(line);
    TrimFolded(Scan(line));
    DropLooks(TrimEnd(Scan(line)));
    NoLooks();
    var kept := Normal(line);
    GroupKeepsCells(kept);
    SameBares(kept, Cells(Group(kept)));
    SameFolded(kept, Cells(Group(kept)));
  }

  // ---- rows taken apart ----

  function RowText(row: Row): string { seq(|row|, i requires 0 <= i < |row| => row[i].ch) }

  function Concat(rows: seq<Row>): Row {
    if rows == [] then [] else Concat(rows[..|rows|-1]) + rows[|rows|-1]
  }

  lemma {:induction false} ConcatSnoc(rows: seq<Row>, row: Row)
    ensures Concat(rows + [row]) == Concat(rows) + row && Concat([]) == []
  {
    assert (rows + [row])[..|rows|] == rows;
  }

  lemma {:induction false} ConcatJoin(a: seq<Row>, b: seq<Row>)
    ensures Concat(a + b) == Concat(a) + Concat(b)
  {
    if b == [] {
      assert a + b == a;
    } else {
      var q, row := b[..|b|-1], b[|b|-1];
      assert b == q + [row];
      ConcatJoin(a, q);
      SeqAssoc(a, q, [row]);
      ConcatSnoc(a + q, row);
      SeqAssoc(Concat(a), Concat(q), row);
    }
  }

  lemma {:induction false} ConcatEnd(d: seq<Row>, o: Row)
    ensures Concat(d + RowEnd(o)) == Concat(d) + o
  {
    ConcatSnoc(d, o);
    if o == [] { assert d + [] == d && Concat(d) + [] == Concat(d); }
  }

  /** Without their borders, the rows of a line are its visible characters. */
  lemma {:induction false} RowsHoldInk(e: seq<Cell>)
    ensures RowText(Concat(Folded(e).0) + Folded(e).1) == InkChars(e)
  {
    hide IsWS;
    if e == [] {
      ConcatSnoc([], []);
    } else {
      var q, c := e[..|e|-1], e[|e|-1];
      RowsHoldInk(q);
      var f := Folded(q);
      if c.Break? {
        ConcatEnd(f.0, f.1);
        assert Folded(e) == (f.0 + RowEnd(f.1), []);
        assert Concat(f.0) + f.1 + [] == Concat(f.0) + f.1;
        assert InkChars(q) + "" == InkChars(q);
      } else if Ink(c) {
        SeqAssoc(Concat(f.0), f.1, [Look(c.ch, c.marks)]);
      } else {
        assert InkChars(q) + "" == InkChars(q);
      }
    }
  }

  lemma {:induction false} RowsAreInk(e: seq<Cell>)
    ensures RowText(Concat(LookRows(e))) == InkChars(e)
  {
    hide Folded, InkChars;
    RowsHoldInk(e);
    ConcatEnd(Folded(e).0, Folded(e).1);
  }

  // ---- bags of rows ----

  lemma {:induction false} OneLess<T>(a: multiset<T>, b: multiset<T>, x: T)
    requires a + multiset{x} == b + multiset{x}
    ensures a == b
  {
    assert a == (a + multiset{x}) - multiset{x} && b == (b + multiset{x}) - multiset{x};
  }

  /** Of two lists with the same elements, the last one of `a` is found in `b`; without it they still have the same. */
  lemma {:induction false} TakeOut<T>(a: seq<T>, b: seq<T>) returns (j: nat)
    requires a != [] && multiset(a) == multiset(b)
    ensures j < |b| && b[j] == a[|a|-1] && b == b[..j] + [b[j]] + b[j+1..]
    ensures multiset(a[..|a|-1]) == multiset(b[..j] + b[j+1..])
  {
    var q, x := a[..|a|-1], a[|a|-1];
    assert a == q + [x];
    assert x in multiset(b);
    j :| 0 <= j < |b| && b[j] == x;
    assert b == b[..j] + [b[j]] + b[j+1..];
    assert multiset(b) == multiset(b[..j] + b[j+1..]) + multiset{x};
    OneLess(multiset(q), multiset(b[..j] + b[j+1..]), x);
  }

  lemma {:induction false} NothingLeft<T>(b: seq<T>)
    requires |multiset(b)| == 0
    ensures b == []
  {}

  /** The same rows in another order hold the same characters. */
  lemma {:induction false} SameConcat(a: seq<Row>, b: seq<Row>)
    requires multiset(a) == multiset(b)
    ensures multiset(Concat(a)) == multiset(Concat(b))
    decreases |a|
  {
    if a == [] {
      NothingLeft(b);
    } else {
      var j := TakeOut(a, b);
      SameConcat(a[..|a|-1], b[..j] + b[j+1..]);
      ConcatJoin(b[..j], b[j+1..]);
      ConcatSnoc(b[..j], b[j]);
      ConcatJoin(b[..j] + [b[j]], b[j+1..]);
    }
  }

  lemma {:induction false} SameLetters(a: Row, b: Row)
    requires multiset(a) == multiset(b)
    ensures multiset(RowText(a)) == multiset(RowText(b))
    decreases |a|
  {
    if a == [] {
      NothingLeft(b);
    } else {
      var n := |a| - 1;
      var j := TakeOut(a, b);
      var rest := b[..j] + b[j+1..];
      SameLetters(a[..n], rest);
      assert RowText(a) == RowText(a[..n]) + [a[n].ch];
      assert RowText(rest) == RowText(b[..j]) + RowText(b[j+1..]);
      assert RowText(b) == RowText(b[..j]) + [b[j].ch] + RowText(b[j+1..]);
    }
  }
}
