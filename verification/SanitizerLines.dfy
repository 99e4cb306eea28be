// What every line of a sanitized document is: normalised, its links checked and holding text, its marks
// allowed by the profile, its characters allowed by the policy (apps/rich-editor/src/sanitize.ts:151-184).

module SanitizerLines {
  import opened Base
  import opened Chars
  import opened RichModel
  import opened Finish
  import opened FinishSpec
  import opened LinkLines
  import opened SanitizerModel

  ghost predicate KeptHref(h: string, r: Rules) {
    exists raw :: r.clean(raw) == Some(h)
  }

  /** The profile allows the marks, and the link target came out of the link check. */
  ghost predicate MarksFit(m: Marks, r: Rules) {
    && (m.strong ==> "strong" in r.tags) && (m.em ==> "em" in r.tags) && (m.u ==> "u" in r.tags)
    && (m.href != "" ==> "a" in r.tags && KeptHref(m.href, r))
  }

  ghost predicate RunFit(c: Chunk, r: Rules) {
    c.Run? ==> AllowedText(c.text) && MarksFit(c.marks, r)
  }

  ghost predicate RunsFit(cs: seq<Chunk>, r: Rules) {
    forall i :: 0 <= i < |cs| ==> RunFit(cs[i], r)
  }

  ghost predicate LineInv(cs: seq<Chunk>, r: Rules) {
    Canonical(cs) && Tidy(Cells(cs)) && BesideLink(Cells(cs)) && RunsFit(cs, r)
  }

  // ---- cells of fitting runs ----

  ghost predicate CellFit(c: Cell, r: Rules) {
    c.Glyph? ==> Allowed(c.ch) && MarksFit(c.marks, r)
  }

  ghost predicate CellsFit(cs: seq<Cell>, r: Rules) {
    forall i :: 0 <= i < |cs| ==> CellFit(cs[i], r)
  }

  lemma {:induction false} CellsOfRuns(cs: seq<Chunk>, r: Rules)
    requires RunsFit(cs, r)
    ensures CellsFit(Cells(cs), r)
  {
    hide MarksFit, Allowed;
    if cs != [] {
      var n := |cs| - 1;
      CellsOfRuns(cs[..n], r);
      assert RunFit(cs[n], r);
      assert forall i :: 0 <= i < |ChunkCells(cs[n])| ==> CellFit(ChunkCells(cs[n])[i], r);
    }
  }

  lemma {:induction false} RunsOfCells(cs: seq<Chunk>, r: Rules)
    requires Canonical(cs) && CellsFit(Cells(cs), r)
    ensures RunsFit(cs, r)
  {
    hide MarksFit, Allowed, Cells, Canonical;
    forall i | 0 <= i < |cs| ensures RunFit(cs[i], r) {
      if cs[i].Run? {
        CanonicalRun(cs, i);
        CellAt(cs, i, 0);
        assert CellFit(Cells(cs)[|Cells(cs[..i])| + 0], r);
        forall t | 0 <= t < |cs[i].text| ensures Allowed(cs[i].text[t]) {
          CellAt(cs, i, t);
          assert CellFit(Cells(cs)[|Cells(cs[..i])| + t], r);
        }
      }
    }
  }

  lemma {:induction false} CanonicalRun(cs: seq<Chunk>, i: nat)
    requires Canonical(cs) && i < |cs| && cs[i].Run?
    ensures cs[i].text != ""
  {}

  lemma {:induction false} PickFits(cs: seq<Cell>, mask: seq<bool>, r: Rules)
    requires |mask| == |cs| && CellsFit(cs, r)
    ensures CellsFit(Pick(cs, mask), r)
  {
    hide MarksFit;
    if cs != [] {
      var n := |cs| - 1;
      PickFits(cs[..n], mask[..n], r);
      assert CellFit(cs[n], r);
      assert Allowed(' ');
    }
  }

  lemma {:induction false} BareFits(a: seq<Cell>, b: seq<Cell>, r: Rules)
    requires Bares(a) == Bares(b) && CellsFit(a, r)
    ensures CellsFit(b, r)
  {
    hide MarksFit, Allowed;
    assert |a| == |Bares(a)| == |b|;
    forall i | 0 <= i < |b| ensures CellFit(b[i], r) {
      assert Bares(a)[i] == Bares(b)[i];
      assert CellFit(a[i], r);
    }
  }

  lemma {:induction false} UnlinkedFits(cs: seq<Chunk>, inked: set<nat>, r: Rules)
    requires RunsFit(cs, r)
    ensures RunsFit(Unlinked(cs, inked), r)
  {
    forall i | 0 <= i < |cs| ensures RunFit(Unlinked(cs, inked)[i], r) {
      assert RunFit(cs[i], r);
    }
  }

  /** A pending run whose links stand together is finished into a good line. */
  lemma {:induction false} FinishedLine(cur: seq<Chunk>, r: Rules)
    requires RunsTogether(cur) && RunsFit(cur, r)
    ensures Finished(cur).Some? ==> LineInv(Finished(cur).value, r) && Finished(cur).value != []
  {
    hide RunsTogether, RunsFit, CellsFit, Cells, BesideLink, Tidy, Canonical, LinksHoldText, Pick, Kept;
    var line := Line(cur);
    FinishContract(cur);
    FinishKeepsLinkText(cur);
    UnlinkedFits(cur, InkedLinks(cur), r);
    CellsOfRuns(Unlinked(cur, InkedLinks(cur)), r);
    LineIs(cur);
    PickFits(line, KeptMask(line), r);
    if Finished(cur).Some? {
      BareFits(Pick(line, KeptMask(line)), Cells(Finished(cur).value), r);
      RunsOfCells(Finished(cur).value, r);
    }
  }

  // ---- joining lines ----

  lemma {:induction false} CellsConcat(a: seq<Chunk>, b: seq<Chunk>)
    ensures Cells(a + b) == Cells(a) + Cells(b)
  {
    hide *;
    if b == [] {
      NoCells();
      assert a + b == a;
    } else {
      var q, c := b[..|b|-1], b[|b|-1];
      assert b == q + [c];
      CellsConcat(a, q);
      SeqAssoc(a, q, [c]);
      CellsSnoc(q, c);
      CellsSnoc(a + q, c);
      SeqAssoc(Cells(a), Cells(q), ChunkCells(c));
    }
  }

  lemma {:induction false} NoCells()
    ensures Cells([]) == []
  {}

  lemma {:induction false} JoinCells(a: seq<Chunk>, b: seq<Chunk>)
    ensures Cells(a + [Br] + b) == Cells(a) + [Break] + Cells(b)
  {
    CellsConcat(a + [Br], b);
    CellsSnoc(a, Br);
  }

  lemma {:induction false} JoinTidy(x: seq<Cell>, y: seq<Cell>)
    requires x != [] && y != [] && Tidy(x) && Tidy(y)
    ensures Tidy(x + [Break] + y)
  {
    var z := x + [Break] + y;
    forall i | 0 <= i < |z| && Blank(z[i])
      ensures z[i].ch == ' ' && 0 < i < |z|-1 && Ink(z[i-1]) && Ink(z[i+1])
    {
      if i < |x| {
        assert z[i] == x[i];
      } else {
        assert z[i] == y[i - |x| - 1];
      }
    }
  }

  lemma {:induction false} JoinBeside(x: seq<Cell>, y: seq<Cell>)
    requires BesideLink(x) && BesideLink(y)
    ensures BesideLink(x + [Break] + y)
  {
    var z := x + [Break] + y;
    forall i | 0 <= i < |z| && Blank(z[i]) && Linked(z[i]) ensures Beside(z, i) {
      if i < |x| {
        assert Beside(x, i);
        assert z[i] == x[i] && (i > 0 ==> z[i-1] == x[i-1]) && (i + 1 < |x| ==> z[i+1] == x[i+1]);
      } else {
        var j := i - |x| - 1;
        assert Beside(y, j);
        assert z[i] == y[j] && (j > 0 ==> z[i-1] == y[j-1]) && (j + 1 < |y| ==> z[i+1] == y[j+1]);
      }
    }
  }

  lemma {:induction false} JoinCanonical(a: seq<Chunk>, b: seq<Chunk>)
    requires Canonical(a) && Canonical(b)
    ensures Canonical(a + [Br] + b)
  {
    var c := a + [Br] + b;
    forall i | 0 <= i < |c| && c[i].Run? ensures c[i].text != "" {
      if i < |a| { assert c[i] == a[i]; } else { assert c[i] == b[i - |a| - 1]; }
    }
    forall i | 0 < i < |c| && c[i].Run? && c[i-1].Run? ensures c[i-1].marks != c[i].marks {
      if i < |a| { assert c[i] == a[i] && c[i-1] == a[i-1]; }
      else { assert c[i] == b[i - |a| - 1] && c[i-1] == b[i - |a| - 2]; }
    }
  }

  lemma {:induction false} JoinRunsFit(a: seq<Chunk>, b: seq<Chunk>, r: Rules)
    requires RunsFit(a, r) && RunsFit(b, r)
    ensures RunsFit(a + [Br] + b, r)
  {
    hide RunFit;
    var c := a + [Br] + b;
    forall i | 0 <= i < |c| ensures RunFit(c[i], r) {
      if i < |a| { assert c[i] == a[i]; }
      else if i == |a| { BreakFits(r); }
      else { assert c[i] == b[i - |a| - 1]; }
    }
  }

  lemma {:induction false} BreakFits(r: Rules)
    ensures RunFit(Br, r)
  {}

  lemma {:induction false} SomeCells(cs: seq<Chunk>)
    requires cs != [] && Canonical(cs)
    ensures Cells(cs) != []
  {
    NextCell(cs, 0);
  }

  /** Two good lines with a break between them are a good line. */
  lemma {:induction false} JoinLines(a: seq<Chunk>, b: seq<Chunk>, r: Rules)
    requires a != [] && b != [] && LineInv(a, r) && LineInv(b, r)
    ensures LineInv(a + [Br] + b, r)
  {
    hide Cells, Tidy, Canonical, BesideLink, RunsFit;
    SomeCells(a);
    SomeCells(b);
    JoinCells(a, b);
    JoinTidy(Cells(a), Cells(b));
    JoinBeside(Cells(a), Cells(b));
    JoinCanonical(a, b);
    JoinRunsFit(a, b, r);
  }

  lemma {:induction false} NoLine(r: Rules)
    ensures LineInv([], r)
  {}
}
