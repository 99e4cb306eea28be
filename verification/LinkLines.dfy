// Links through `finish`: when the runs of each link stand together on the line, a space of a link that
// survives stands beside ink of the same target, so no link of the result holds only spaces
// (apps/rich-editor/src/model.ts:71-136; the walk keeps links together, apps/rich-editor/src/sanitize.ts:281-292).

module LinkLines {
  import opened Base
  import opened Chars
  import opened RichModel
  import opened Finish
  import opened FinishSpec
  import opened Printer

  predicate Linked(c: Cell) { c.Glyph? && c.marks.href != "" }

  /** Cells of one link have one target, and only breaks stand between them. */
  ghost predicate LinksTogether(cs: seq<Cell>) {
    && (forall i, j :: 0 <= i < j < |cs| && Linked(cs[i]) && Linked(cs[j]) && cs[i].link == cs[j].link ==>
          cs[i].marks.href == cs[j].marks.href)
    && (forall i, k, j :: 0 <= i < k < j < |cs| && Linked(cs[i]) && Linked(cs[j]) && cs[i].link == cs[j].link && cs[k].Glyph? ==>
          Linked(cs[k]) && cs[k].link == cs[i].link)
  }

  /** Every link holds ink. */
  ghost predicate LinksInked(cs: seq<Cell>) {
    forall i :: 0 <= i < |cs| && Linked(cs[i]) ==> HasInk(cs, cs[i].link)
  }

  ghost predicate HasInk(cs: seq<Cell>, link: nat) {
    exists j :: 0 <= j < |cs| && Linked(cs[j]) && Ink(cs[j]) && cs[j].link == link
  }

  function NextInk(cs: seq<Cell>, i: nat): (j: nat)
    requires LeadsToInk(cs, i)
    ensures i <= j < |cs| && Ink(cs[j]) && forall k :: i <= k < j ==> Blank(cs[k])
    decreases |cs| - i
  {
    if Ink(cs[i]) then i else NextInk(cs, i + 1)
  }

  /** A linked space stands beside a cell with the same target. */
  predicate BesideLink(cs: seq<Cell>) {
    forall i :: 0 <= i < |cs| && Blank(cs[i]) && Linked(cs[i]) ==> Beside(cs, i)
  }

  predicate Beside(cs: seq<Cell>, i: nat)
    requires i < |cs| && Linked(cs[i])
  {
    || (i > 0 && Linked(cs[i-1]) && cs[i-1].marks.href == cs[i].marks.href)
    || (i + 1 < |cs| && Linked(cs[i+1]) && cs[i+1].marks.href == cs[i].marks.href)
  }

  /** The ink that a kept linked space follows or leads to has its target. */
  lemma {:induction false} SpaceBesideInk(cs: seq<Cell>, x: nat)
    requires LinksTogether(cs) && LinksInked(cs) && 0 < x < |cs|
    requires Blank(cs[x]) && Linked(cs[x]) && Ink(cs[x-1]) && LeadsToInk(cs, x + 1)
    ensures || (Linked(cs[x-1]) && cs[x-1].marks.href == cs[x].marks.href)
            || (Linked(cs[NextInk(cs, x + 1)]) && cs[NextInk(cs, x + 1)].marks.href == cs[x].marks.href)
  {
    hide LinksTogether, LinksInked;
    var y := InkOfLink(cs, x);
    var z := NextInk(cs, x + 1);
    if y < x - 1 {
      Between(cs, y, x - 1, x);
    } else if y < x {
      SameTarget(cs, y, x);
    } else if y == z {
      SameTarget(cs, x, y);
    } else {
      Between(cs, x, z, y);
    }
  }

  lemma {:induction false} InkOfLink(cs: seq<Cell>, x: nat) returns (y: nat)
    requires LinksInked(cs) && x < |cs| && Linked(cs[x])
    ensures y < |cs| && Linked(cs[y]) && Ink(cs[y]) && cs[y].link == cs[x].link
  {
    assert HasInk(cs, cs[x].link);
    y :| 0 <= y < |cs| && Linked(cs[y]) && Ink(cs[y]) && cs[y].link == cs[x].link;
  }

  lemma {:induction false} SameTarget(cs: seq<Cell>, i: nat, j: nat)
    requires LinksTogether(cs) && i < j < |cs| && Linked(cs[i]) && Linked(cs[j]) && cs[i].link == cs[j].link
    ensures cs[i].marks.href == cs[j].marks.href
  {}

  /** What stands between two cells of a link belongs to the link. */
  lemma {:induction false} Between(cs: seq<Cell>, i: nat, k: nat, j: nat)
    requires LinksTogether(cs) && i < k < j < |cs| && Linked(cs[i]) && Linked(cs[j]) && cs[i].link == cs[j].link && cs[k].Glyph?
    ensures Linked(cs[k]) && cs[k].marks.href == cs[i].marks.href == cs[j].marks.href
  {}

  // ---- what the mask keeps ----

  /** A prefix of the kept cells: a trailing space still waits for the ink it leads to. */
  ghost predicate Waiting(cs: seq<Cell>, n: nat, kept: seq<Cell>) {
    && (forall i :: 0 <= i < |kept| - 1 && Blank(kept[i]) && Linked(kept[i]) ==> Beside(kept, i))
    && (kept != [] && Blank(kept[|kept|-1]) ==>
          && LeadsToInk(cs, n)
          && (Linked(kept[|kept|-1]) && !Beside(kept, |kept|-1) ==>
                Linked(cs[NextInk(cs, n)]) && cs[NextInk(cs, n)].marks.href == kept[|kept|-1].marks.href))
    && (n > 0 && n <= |cs| && Ink(cs[n-1]) ==> kept != [] && kept[|kept|-1] == cs[n-1])
  }

  lemma {:induction false} WaitInk(cs: seq<Cell>, n: nat, kept: seq<Cell>)
    requires n < |cs| && Waiting(cs, n, kept) && Ink(cs[n])
    ensures Waiting(cs, n + 1, kept + [cs[n]])
  {
    var more := kept + [cs[n]];
    forall i | 0 <= i < |more| - 1 && Blank(more[i]) && Linked(more[i]) ensures Beside(more, i) {
      assert more[i] == kept[i];
      if i < |kept| - 1 { assert Beside(kept, i); }
      else {
        assert NextInk(cs, n) == n;
        if Beside(kept, i) { assert more[i-1] == kept[i-1]; }
      }
    }
  }

  lemma {:induction false} WaitBreak(cs: seq<Cell>, n: nat, kept: seq<Cell>, add: bool)
    requires n < |cs| && Waiting(cs, n, kept) && cs[n].Break?
    ensures Waiting(cs, n + 1, if add then kept + [Break] else kept)
  {
    assert !LeadsToInk(cs, n);
    if add {
      var more := kept + [Break];
      forall i | 0 <= i < |more| - 1 && Blank(more[i]) && Linked(more[i]) ensures Beside(more, i) {
        assert more[i] == kept[i];
        assert i < |kept| - 1;
        assert Beside(kept, i);
      }
    }
  }

  lemma {:induction false} WaitDropped(cs: seq<Cell>, n: nat, kept: seq<Cell>)
    requires n < |cs| && Waiting(cs, n, kept) && Blank(cs[n])
    ensures Waiting(cs, n + 1, kept)
  {}

  lemma {:induction false} WaitSpace(cs: seq<Cell>, n: nat, kept: seq<Cell>)
    requires LinksTogether(cs) && LinksInked(cs)
    requires n < |cs| && Waiting(cs, n, kept) && Blank(cs[n]) && n > 0 && Ink(cs[n-1]) && LeadsToInk(cs, n + 1)
    ensures Waiting(cs, n + 1, kept + [PlainCell(cs[n])])
  {
    hide LinksTogether, LinksInked;
    var more := kept + [PlainCell(cs[n])];
    assert more[|kept|-1] == cs[n-1];
    if Linked(cs[n]) { SpaceBesideInk(cs, n); }
    forall i | 0 <= i < |more| - 1 && Blank(more[i]) && Linked(more[i]) ensures Beside(more, i) {
      assert more[i] == kept[i];
      assert i < |kept| - 1;
      assert Beside(kept, i);
    }
  }

  lemma {:induction false} PickWaits(cs: seq<Cell>, n: nat)
    requires n <= |cs| && LinksTogether(cs) && LinksInked(cs)
    ensures Waiting(cs, n, Pick(cs[..n], KeptMask(cs)[..n]))
  {
    hide LinksTogether, LinksInked, Waiting;
    if n == 0 {
      WaitNothing(cs);
    } else {
      var mask := KeptMask(cs);
      var kept := Pick(cs[..n-1], mask[..n-1]);
      PickWaits(cs, n - 1);
      assert cs[..n] == cs[..n-1] + [cs[n-1]];
      PickSnoc(cs[..n-1], cs[n-1], mask[..n]);
      assert mask[..n][..n-1] == mask[..n-1];
      assert kept + [] == kept;
      if Ink(cs[n-1]) {
        WaitInk(cs, n - 1, kept);
      } else if cs[n-1].Break? {
        WaitBreak(cs, n - 1, kept, mask[n-1]);
      } else if mask[n-1] {
        WaitSpace(cs, n - 1, kept);
      } else {
        WaitDropped(cs, n - 1, kept);
      }
    }
  }

  lemma {:induction false} WaitNothing(cs: seq<Cell>)
    ensures Waiting(cs, 0, Pick(cs[..0], KeptMask(cs)[..0]))
  {}

  /** A normal line keeps linked spaces beside ink of the same link. */
  lemma {:induction false} NormalBeside(cs: seq<Cell>)
    requires LinksTogether(cs) && LinksInked(cs)
    ensures BesideLink(Normal(cs))
  {
    hide LinksTogether, LinksInked, Pick, Kept;
    PickWaits(cs, |cs|);
    assert cs[..|cs|] == cs && KeptMask(cs)[..|cs|] == KeptMask(cs);
    NormalKeeps(cs);
    NormalTidy(cs);
  }

  // ---- from cells to chunks ----

  lemma {:induction false} BareBeside(a: seq<Cell>, b: seq<Cell>)
    requires Bares(a) == Bares(b) && BesideLink(a)
    ensures BesideLink(b)
  {
    assert |a| == |Bares(a)| == |b|;
    forall i | 0 <= i < |b| ensures Blank(b[i]) == Blank(a[i]) && Linked(b[i]) == Linked(a[i]) && (Linked(b[i]) ==> a[i].marks == b[i].marks) {
      assert Bares(a)[i] == Bares(b)[i];
    }
    forall i | 0 <= i < |b| && Blank(b[i]) && Linked(b[i]) ensures Beside(b, i) {
      assert Beside(a, i);
    }
  }

  /** The result of `finish` on a line whose links stand together. */
  lemma {:induction false} FinishBeside(input: seq<Chunk>)
    requires LinksTogether(Line(input)) && LinksInked(Line(input))
    ensures Finished(input).Some? ==> BesideLink(Cells(Finished(input).value))
  {
    hide LinksTogether, LinksInked, BesideLink, Normal;
    NormalBeside(Line(input));
    GroupKeepsCells(Normal(Line(input)));
    if Finished(input).Some? {
      BareBeside(Normal(Line(input)), Cells(Finished(input).value));
    }
  }

  /** From chunk `i` on, runs of the target `h` stand up to one that holds ink. */
  predicate InkAhead(cs: seq<Chunk>, i: nat, h: string)
    decreases |cs| - i
  {
    && i < |cs| && cs[i].Run? && cs[i].marks.href == h
    && (!IsSpaceText(cs[i].text) || InkAhead(cs, i + 1, h))
  }

  /** No link element of the line holds only spaces. */
  predicate LinksHoldText(cs: seq<Chunk>) {
    forall i :: 0 <= i < |cs| && LinkStart(cs, i) ==> InkAhead(cs, i, cs[i].marks.href)
  }

  lemma {:induction false} LastCellOf(cs: seq<Chunk>, i: nat)
    requires i < |cs| && (cs[i].Run? ==> cs[i].text != "")
    ensures 0 < |Cells(cs[..i+1])| <= |Cells(cs)|
    ensures var c := Cells(cs)[|Cells(cs[..i+1])|-1];
            if cs[i].Br? then c == Break else c == Glyph(cs[i].text[|cs[i].text|-1], cs[i].marks, cs[i].link)
  {
    hide Cells;
    CellsPrefix(cs, i);
    assert cs[..i+1] == cs[..i] + [cs[i]];
    CellsSnoc(cs[..i], cs[i]);
    var p := Cells(cs[..i+1]);
    assert p[|p|-1] == ChunkCells(cs[i])[|ChunkCells(cs[i])|-1];
  }

  lemma {:induction false} CellAt(cs: seq<Chunk>, i: nat, j: nat)
    requires i < |cs| && cs[i].Run? && j < |cs[i].text|
    ensures |Cells(cs[..i])| + j < |Cells(cs)|
    ensures Cells(cs)[|Cells(cs[..i])| + j] == Glyph(cs[i].text[j], cs[i].marks, cs[i].link)
  {
    CellsPrefix(cs, i);
    var p := Cells(cs[..i]) + ChunkCells(cs[i]);
    assert p[|Cells(cs[..i])| + j] == ChunkCells(cs[i])[j];
  }

  /** Where a space chunk stands among the cells. */
  lemma {:induction false} SpaceChunkAlone(cs: seq<Chunk>, i: nat)
    requires Canonical(cs) && Tidy(Cells(cs)) && i < |cs| && cs[i].Run? && IsSpaceText(cs[i].text)
    ensures var o := |Cells(cs[..i])|; var all := Cells(cs);
            && 0 < o && o + 1 < |all| && Blank(all[o]) && all[o].marks == cs[i].marks
            && Ink(all[o-1]) && Ink(all[o+1]) && |Cells(cs[..i+1])| == o + 1
  {
    hide Cells;
    var o := |Cells(cs[..i])|;
    CellAt(cs, i, 0);
    assert Blank(Cells(cs)[o]);
    if |cs[i].text| > 1 {
      CellAt(cs, i, 1);
      assert false;
    }
    assert cs[..i+1] == cs[..i] + [cs[i]];
    CellsSnoc(cs[..i], cs[i]);
  }

  lemma {:induction false} CellsAll(cs: seq<Chunk>)
    ensures Cells(cs[..|cs|]) == Cells(cs) && Cells(cs[..0]) == []
  {
    assert cs[..|cs|] == cs;
  }

  /** A run of spaces in a normal line is one space, and both its neighbours are runs. */
  lemma {:induction false} SpaceChunk(cs: seq<Chunk>, i: nat)
    requires Canonical(cs) && Tidy(Cells(cs)) && i < |cs| && cs[i].Run? && IsSpaceText(cs[i].text)
    ensures 0 < i && i + 1 < |cs| && cs[i-1].Run? && cs[i+1].Run? && !IsSpaceText(cs[i+1].text)
    ensures BesideLink(Cells(cs)) && cs[i].marks.href != "" ==>
              cs[i-1].marks.href == cs[i].marks.href || cs[i+1].marks.href == cs[i].marks.href
  {
    hide Cells, Tidy, IsSpaceText;
    SpaceChunkAlone(cs, i);
    CellsAll(cs);
    LastCellOf(cs, i - 1);
    NextCell(cs, i + 1);
    InkText(cs[i+1].text);
  }

  lemma {:induction false} InkText(s: string)
    requires s != "" && !IsWS(s[0])
    ensures !IsSpaceText(s)
  {}

  lemma {:induction false} NextCell(cs: seq<Chunk>, i: nat)
    requires i < |cs| && (cs[i].Run? ==> cs[i].text != "")
    ensures |Cells(cs[..i])| < |Cells(cs)|
    ensures var c := Cells(cs)[|Cells(cs[..i])|];
            if cs[i].Br? then c == Break else c == Glyph(cs[i].text[0], cs[i].marks, cs[i].link)
  {
    CellsPrefix(cs, i);
    var p := Cells(cs[..i]) + ChunkCells(cs[i]);
    assert p[|Cells(cs[..i])|] == ChunkCells(cs[i])[0];
  }

  lemma {:induction false} BesideHoldsText(cs: seq<Chunk>)
    requires Canonical(cs) && Tidy(Cells(cs)) && BesideLink(Cells(cs))
    ensures LinksHoldText(cs)
  {
    hide Canonical, Tidy, BesideLink, Cells;
    forall i | 0 <= i < |cs| && LinkStart(cs, i) ensures InkAhead(cs, i, cs[i].marks.href) {
      if IsSpaceText(cs[i].text) {
        SpaceChunk(cs, i);
        assert InkAhead(cs, i + 1, cs[i].marks.href);
      }
    }
  }

  // ---- from chunks to the line ----

  predicate LinkedRun(c: Chunk) { c.Run? && c.marks.href != "" }

  /** Runs of one link have one target, and only breaks stand between them. */
  ghost predicate RunsTogether(cs: seq<Chunk>) {
    && (forall i, j :: 0 <= i < j < |cs| && LinkedRun(cs[i]) && LinkedRun(cs[j]) && cs[i].link == cs[j].link ==>
          cs[i].marks.href == cs[j].marks.href)
    && (forall i, k, j :: 0 <= i < k < j < |cs| && LinkedRun(cs[i]) && LinkedRun(cs[j]) && cs[i].link == cs[j].link && cs[k].Run? ==>
          LinkedRun(cs[k]) && cs[k].link == cs[i].link)
  }

  lemma {:induction false} SameTakes(cs: seq<Chunk>, n: nat, i: nat)
    requires i < n <= |cs|
    ensures cs[..n][..i] == cs[..i] && cs[..n][..i+1] == cs[..i+1]
  {}

  /** The chunk a cell comes from. */
  function Owner(cs: seq<Chunk>, p: nat): (i: nat)
    requires p < |Cells(cs)|
    ensures i < |cs|
    ensures |Cells(cs[..i])| <= p < |Cells(cs[..i+1])|
  {
    var n := |cs| - 1;
    assert cs[..n+1] == cs;
    if p >= |Cells(cs[..n])| then n
    else
      var i := Owner(cs[..n], p);
      SameTakes(cs, n, i);
      i
  }

  lemma {:induction false} OwnerCell(cs: seq<Chunk>, p: nat)
    requires p < |Cells(cs)|
    ensures var c, x := Cells(cs)[p], cs[Owner(cs, p)];
            c.Break? == x.Br? && (c.Glyph? ==> c.marks == x.marks && c.link == x.link)
    ensures Linked(Cells(cs)[p]) == LinkedRun(cs[Owner(cs, p)])
    decreases |cs|
  {
    var n := |cs| - 1;
    assert Cells(cs) == Cells(cs[..n]) + ChunkCells(cs[n]);
    if p < |Cells(cs[..n])| { OwnerCell(cs[..n], p); }
  }

  lemma {:induction false} OwnerMono(cs: seq<Chunk>, p: nat, q: nat)
    requires p <= q < |Cells(cs)|
    ensures Owner(cs, p) <= Owner(cs, q)
    decreases |cs|
  {
    var n := |cs| - 1;
    if q < |Cells(cs[..n])| { OwnerMono(cs[..n], p, q); }
  }

  lemma {:induction false} TogetherCells(cs: seq<Chunk>)
    requires RunsTogether(cs)
    ensures LinksTogether(Cells(cs))
  {
    hide Cells, Owner, RunsTogether;
    var all := Cells(cs);
    forall i, j | 0 <= i < j < |all| && Linked(all[i]) && Linked(all[j]) && all[i].link == all[j].link
      ensures all[i].marks.href == all[j].marks.href
    {
      OwnerCell(cs, i);
      OwnerCell(cs, j);
      OwnerMono(cs, i, j);
      if Owner(cs, i) < Owner(cs, j) { RunsAt(cs, Owner(cs, i), Owner(cs, j)); }
    }
    forall i, k, j | 0 <= i < k < j < |all| && Linked(all[i]) && Linked(all[j]) && all[i].link == all[j].link && all[k].Glyph?
      ensures Linked(all[k]) && all[k].link == all[i].link
    {
      OwnerCell(cs, i);
      OwnerCell(cs, k);
      OwnerCell(cs, j);
      OwnerMono(cs, i, k);
      OwnerMono(cs, k, j);
      if Owner(cs, i) < Owner(cs, k) < Owner(cs, j) { RunsBetween(cs, Owner(cs, i), Owner(cs, k), Owner(cs, j)); }
    }
  }

  lemma {:induction false} RunsAt(cs: seq<Chunk>, i: nat, j: nat)
    requires RunsTogether(cs) && i < j < |cs| && LinkedRun(cs[i]) && LinkedRun(cs[j]) && cs[i].link == cs[j].link
    ensures cs[i].marks.href == cs[j].marks.href
  {}

  lemma {:induction false} RunsBetween(cs: seq<Chunk>, i: nat, k: nat, j: nat)
    requires RunsTogether(cs) && i < k < j < |cs| && LinkedRun(cs[i]) && LinkedRun(cs[j]) && cs[i].link == cs[j].link && cs[k].Run?
    ensures LinkedRun(cs[k]) && cs[k].link == cs[i].link
  {}

  /** Unwrapping the links that hold only spaces keeps the others together and leaves each with ink. */
  lemma {:induction false} UnlinkedTogether(cs: seq<Chunk>)
    requires RunsTogether(cs)
    ensures RunsTogether(Unlinked(cs, InkedLinks(cs)))
  {
    hide InkedLinks;
    var inked := InkedLinks(cs);
    var un := Unlinked(cs, inked);
    assert forall i :: 0 <= i < |cs| && LinkedRun(un[i]) ==> un[i] == cs[i] && cs[i].link in inked;
    forall i, k, j | 0 <= i < k < j < |un| && LinkedRun(un[i]) && LinkedRun(un[j]) && un[i].link == un[j].link && un[k].Run?
      ensures LinkedRun(un[k]) && un[k].link == un[i].link
    {
      RunsBetween(cs, i, k, j);
    }
  }

  lemma {:induction false} InkIndex(s: string) returns (t: nat)
    requires !IsSpaceText(s)
    ensures t < |s| && !IsWS(s[t])
  {
    t :| 0 <= t < |s| && !IsWS(s[t]);
  }

  lemma {:induction false} LineInked(cs: seq<Chunk>)
    ensures LinksInked(Line(cs))
  {
    var inked := InkedLinks(cs);
    var un := Unlinked(cs, inked);
    hide Cells, Owner, Line;
    assert Line(cs) == Cells(un) by { LineIs(cs); }
    forall p | 0 <= p < |Cells(un)| && Linked(Cells(un)[p]) ensures HasInk(Cells(un), Cells(un)[p].link) {
      OwnerCell(un, p);
      var i := Owner(un, p);
      assert un[i] == cs[i] && cs[i].link in inked;
      var j :| 0 <= j < |cs| && HoldsInk(cs[j]) && cs[j].link == cs[i].link;
      assert un[j] == cs[j];
      var t := InkIndex(cs[j].text);
      CellAt(un, j, t);
    }
  }

  lemma {:induction false} LineIs(cs: seq<Chunk>)
    ensures Line(cs) == Cells(Unlinked(cs, InkedLinks(cs)))
  {}

  /** A line whose links stand together has no link of only spaces after `finish`. */
  lemma {:induction false} FinishKeepsLinkText(cs: seq<Chunk>)
    requires RunsTogether(cs)
    ensures Finished(cs).Some? ==> BesideLink(Cells(Finished(cs).value)) && LinksHoldText(Finished(cs).value)
  {
    hide RunsTogether, LinksTogether, LinksInked, Cells, BesideLink, LinksHoldText;
    UnlinkedTogether(cs);
    TogetherCells(Unlinked(cs, InkedLinks(cs)));
    LineIs(cs);
    LineInked(cs);
    FinishBeside(cs);
    FinishContract(cs);
    if Finished(cs).Some? { BesideHoldsText(Finished(cs).value); }
  }
}
