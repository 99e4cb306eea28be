// Normalising twice (`finish`, apps/rich-editor/src/model.ts:71-136). Merged neighbours keep the first link number, so a later
// space of the merged link can be left alone under its number; the exact condition on the chunks that come in.

module FinishTwice {
  import opened Base
  import opened Chars
  import opened RichModel
  import opened Finish
  import opened FinishSpec
  import opened LinkLines

  /** A second pass changes nothing exactly when every link of the result still holds ink. */
  lemma {:induction false} SecondFinish(x: seq<Chunk>)
    requires Finished(x).Some?
    ensures Finished(Finished(x).value) == Finished(x) <==> LinksHoldInk(Finished(x).value)
  {
    hide Finished, LinksHoldInk, Canonical, Tidy, Pick, Kept, Line;
    FinishContract(x);
    FinishFixes(Finished(x).value);
  }

  // ---- the links of merged cells ----

  /** The cell continues the run of the one before it. */
  predicate Continues(e: seq<Cell>, p: nat)
    requires p < |e|
  {
    p > 0 && e[p].Glyph? && e[p-1].Glyph? && e[p-1].marks == e[p].marks
  }

  /** The link of a merged run is that of its first cell. */
  function Owner(e: seq<Cell>, p: nat): nat
    requires p < |e| && e[p].Glyph?
  {
    if Continues(e, p) then Owner(e, p - 1) else e[p].link
  }

  predicate InkedOwner(e: seq<Cell>, n: nat) {
    exists q :: 0 <= q < |e| && Ink(e[q]) && e[q].marks.href != "" && Owner(e, q) == n
  }

  /** Each merged linked run is numbered like one that holds ink. */
  predicate OwnersInked(e: seq<Cell>) {
    forall p :: 0 <= p < |e| && e[p].Glyph? && e[p].marks.href != "" ==> InkedOwner(e, Owner(e, p))
  }

  /** Chunk `c` is what cell `p` was merged into. */
  predicate Holds(c: Chunk, e: seq<Cell>, p: nat)
    requires p < |e| && e[p].Glyph?
  {
    c.Run? && c.marks == e[p].marks && c.link == Owner(e, p) && e[p].ch in c.text
  }

  ghost predicate CellsHeld(e: seq<Cell>, g: seq<Chunk>) {
    forall p :: 0 <= p < |e| && e[p].Glyph? ==> exists i :: 0 <= i < |g| && Holds(g[i], e, p)
  }

  predicate CharFrom(c: Chunk, t: nat, e: seq<Cell>, p: nat)
    requires c.Run? && t < |c.text| && p < |e|
  {
    e[p].Glyph? && e[p].ch == c.text[t] && e[p].marks == c.marks && Owner(e, p) == c.link
  }

  predicate CharHeld(c: Chunk, t: nat, e: seq<Cell>)
    requires c.Run? && t < |c.text|
  {
    exists p :: 0 <= p < |e| && CharFrom(c, t, e, p)
  }

  ghost predicate ChunkFrom(c: Chunk, e: seq<Cell>) {
    c.Run? ==> c.text != "" && forall t :: 0 <= t < |c.text| ==> CharHeld(c, t, e)
  }

  ghost predicate ChunksFrom(g: seq<Chunk>, e: seq<Cell>) {
    forall i :: 0 <= i < |g| ==> ChunkFrom(g[i], e)
  }

  /** The last chunk is the one the last cell was merged into. */
  predicate LastOf(e: seq<Cell>, g: seq<Chunk>) {
    if e == [] then g == []
    else
      && g != []
      && (e[|e|-1].Break? ==> g[|g|-1].Br?)
      && (e[|e|-1].Glyph? ==> Holds(g[|g|-1], e, |e| - 1))
  }

  lemma {:induction false} OwnerSnoc(e: seq<Cell>, c: Cell, p: nat)
    requires p < |e| && e[p].Glyph?
    ensures Owner(e + [c], p) == Owner(e, p)
  {
    if Continues(e, p) { OwnerSnoc(e, c, p - 1); }
  }

  lemma {:induction false} HoldsSnoc(d: Chunk, e: seq<Cell>, c: Cell, p: nat)
    requires p < |e| && e[p].Glyph? && Holds(d, e, p)
    ensures Holds(d, e + [c], p)
  {
    hide Owner;
    OwnerSnoc(e, c, p);
  }

  lemma {:induction false} FromSnoc(d: Chunk, e: seq<Cell>, c: Cell)
    requires ChunkFrom(d, e)
    ensures ChunkFrom(d, e + [c])
  {
    hide Owner;
    if d.Run? {
      forall t | 0 <= t < |d.text| ensures CharHeld(d, t, e + [c]) {
        assert CharHeld(d, t, e);
        var p :| 0 <= p < |e| && CharFrom(d, t, e, p);
        OwnerSnoc(e, c, p);
        assert CharFrom(d, t, e + [c], p);
      }
    }
  }

  /** Adding a cell to a run that ends in one with its marks. */
  lemma {:induction false} Merged(e: seq<Cell>, g: seq<Chunk>, c: Cell)
    requires CellsHeld(e, g) && ChunksFrom(g, e) && LastOf(e, g) && c.Glyph?
    requires e != [] && e[|e|-1].Glyph? && e[|e|-1].marks == c.marks
    ensures var h := AddCell(g, c); CellsHeld(e + [c], h) && ChunksFrom(h, e + [c]) && LastOf(e + [c], h)
  {
    hide Owner;
    var n := |g| - 1;
    var last := Run(g[n].text + [c.ch], c.marks, g[n].link);
    var h := AddCell(g, c);
    assert h == g[..n] + [last];
    OwnerSnoc(e, c, |e| - 1);
    OwnerNext(e, c);
    forall p | 0 <= p < |e + [c]| && (e + [c])[p].Glyph? ensures exists i :: 0 <= i < |h| && Holds(h[i], e + [c], p) {
      if p < |e| {
        var i :| 0 <= i < |g| && Holds(g[i], e, p);
        HoldsSnoc(g[i], e, c, p);
        assert Holds(h[i], e + [c], p);
      } else {
        assert Holds(h[n], e + [c], p);
      }
    }
    forall i | 0 <= i < |h| ensures ChunkFrom(h[i], e + [c]) {
      FromSnoc(g[i], e, c);
      if i == n { LongerFrom(g[n], e + [c], c, |e|); }
    }
  }

  lemma {:induction false} OwnerNext(e: seq<Cell>, c: Cell)
    requires c.Glyph?
    ensures var q := e + [c];
            Owner(q, |e|) == if e != [] && e[|e|-1].Glyph? && e[|e|-1].marks == c.marks then Owner(e, |e| - 1) else c.link
  {
    if e != [] && e[|e|-1].Glyph? { OwnerSnoc(e, c, |e| - 1); }
  }

  lemma {:induction false} LongerFrom(d: Chunk, e: seq<Cell>, c: Cell, p: nat)
    requires d.Run? && ChunkFrom(d, e) && p < |e| && e[p] == c && c.Glyph? && c.marks == d.marks && Owner(e, p) == d.link
    ensures ChunkFrom(Run(d.text + [c.ch], d.marks, d.link), e)
  {
    hide Owner;
    var more := Run(d.text + [c.ch], d.marks, d.link);
    forall t | 0 <= t < |more.text| ensures CharHeld(more, t, e) {
      if t < |d.text| {
        assert CharHeld(d, t, e);
        var q :| 0 <= q < |e| && CharFrom(d, t, e, q);
        assert CharFrom(more, t, e, q);
      } else {
        assert CharFrom(more, t, e, p);
      }
    }
  }

  /** Adding a cell that starts a chunk of its own. */
  lemma {:induction false} Started(e: seq<Cell>, g: seq<Chunk>, c: Cell)
    requires CellsHeld(e, g) && ChunksFrom(g, e) && LastOf(e, g)
    requires c.Glyph? ==> e == [] || e[|e|-1].Break? || e[|e|-1].marks != c.marks
    ensures var h := AddCell(g, c); CellsHeld(e + [c], h) && ChunksFrom(h, e + [c]) && LastOf(e + [c], h)
  {
    hide Owner;
    var d := if c.Glyph? then Run([c.ch], c.marks, c.link) else Br;
    var h := AddCell(g, c);
    assert h == g + [d];
    if c.Glyph? {
      OwnerNext(e, c);
      assert CharFrom(d, 0, e + [c], |e|);
    }
    forall p | 0 <= p < |e + [c]| && (e + [c])[p].Glyph? ensures exists i :: 0 <= i < |h| && Holds(h[i], e + [c], p) {
      if p < |e| {
        var i :| 0 <= i < |g| && Holds(g[i], e, p);
        HoldsSnoc(g[i], e, c, p);
        assert Holds(h[i], e + [c], p);
      } else {
        assert Holds(h[|g|], e + [c], p);
      }
    }
    forall i | 0 <= i < |h| ensures ChunkFrom(h[i], e + [c]) {
      if i < |g| { FromSnoc(g[i], e, c); }
    }
  }

  lemma {:induction false} GroupHolds(e: seq<Cell>)
    ensures CellsHeld(e, Group(e)) && ChunksFrom(Group(e), e) && LastOf(e, Group(e))
  {
    hide CellsHeld, ChunksFrom, LastOf, AddCell, Owner;
    if e == [] {
      NothingHeld();
    } else {
      var q, c := e[..|e|-1], e[|e|-1];
      GroupHolds(q);
      assert q + [c] == e;
      if c.Glyph? && q != [] && q[|q|-1].Glyph? && q[|q|-1].marks == c.marks { Merged(q, Group(q), c); } else { Started(q, Group(q), c); }
    }
  }

  lemma {:induction false} NothingHeld()
    ensures CellsHeld([], []) && ChunksFrom([], []) && LastOf([], [])
  {}

  // ---- ink under a link number ----

  lemma {:induction false} InkedInGroup(e: seq<Cell>, n: nat)
    ensures n in InkedLinks(Group(e)) <==> InkedOwner(e, n)
  {
    hide Group, Owner, IsWS;
    GroupHolds(e);
    var g := Group(e);
    if n in InkedLinks(g) {
      var i :| 0 <= i < |g| && HoldsInk(g[i]) && g[i].link == n;
      InkIn(g[i], e);
    }
    if InkedOwner(e, n) {
      var q :| 0 <= q < |e| && Ink(e[q]) && e[q].marks.href != "" && Owner(e, q) == n;
      var i :| 0 <= i < |g| && Holds(g[i], e, q);
      InkOut(g[i], e[q].ch);
    }
  }

  lemma {:induction false} InkIn(c: Chunk, e: seq<Cell>)
    requires HoldsInk(c) && ChunkFrom(c, e)
    ensures InkedOwner(e, c.link)
  {
    hide Owner, IsWS;
    var t :| 0 <= t < |c.text| && !IsWS(c.text[t]);
    assert CharHeld(c, t, e);
    var p :| 0 <= p < |e| && CharFrom(c, t, e, p);
  }

  lemma {:induction false} InkOut(c: Chunk, ch: char)
    requires c.Run? && c.marks.href != "" && ch in c.text && !IsWS(ch)
    ensures HoldsInk(c)
  {
    hide IsWS;
    var t :| 0 <= t < |c.text| && c.text[t] == ch;
  }

  lemma {:induction false} GroupInked(e: seq<Cell>)
    ensures LinksHoldInk(Group(e)) <==> OwnersInked(e)
  {
    hide Group, Owner, InkedOwner, InkedLinks;
    GroupHolds(e);
    var g := Group(e);
    if LinksHoldInk(g) {
      forall p | 0 <= p < |e| && e[p].Glyph? && e[p].marks.href != "" ensures InkedOwner(e, Owner(e, p)) {
        var i :| 0 <= i < |g| && Holds(g[i], e, p);
        InkedInGroup(e, g[i].link);
      }
    }
    if OwnersInked(e) {
      forall i | 0 <= i < |g| && g[i].Run? && g[i].marks.href != "" ensures g[i].link in InkedLinks(g) {
        assert ChunkFrom(g[i], e) && CharHeld(g[i], 0, e);
        var p :| 0 <= p < |e| && CharFrom(g[i], 0, e, p);
        InkedInGroup(e, g[i].link);
      }
    }
  }

  /** The cells of the input that survive, in order, with the links they came with. */
  ghost function KeptLine(x: seq<Chunk>): seq<Cell> {
    Pick(Line(x), KeptMask(Line(x)))
  }

  /**
   * On any chunk list with a result: a second pass keeps the result exactly when, among the kept cells, each linked run of
   * equal marks begins under the number of one that holds ink.
   */
  lemma {:induction false} FinishTwiceExactly(x: seq<Chunk>)
    requires Finished(x).Some?
    ensures Finished(Finished(x).value) == Finished(x) <==> OwnersInked(KeptLine(x))
  {
    hide Group, LinksHoldInk, OwnersInked, Pick, Kept, KeptMask, Unlinked, Normal;
    SecondFinish(x);
    NormalKeeps(Line(x));
    GroupInked(KeptLine(x));
  }

  // ---- an input on which the second pass differs ----

  function LinkTo(strong: bool): Marks { Marks(strong, false, false, "https://a/") }

  const PLAIN := Marks(false, false, false, "")

  /** Two links to one address, merged, and a bold space of the second. */
  function Raw(): seq<Chunk> {
    [Run("a", LinkTo(false), 1), Run("b", LinkTo(false), 2), Run(" ", LinkTo(true), 2), Run("c", PLAIN, 0)]
  }

  function RawCells(): seq<Cell> {
    [Glyph('a', LinkTo(false), 1), Glyph('b', LinkTo(false), 2), Glyph(' ', LinkTo(true), 2), Glyph('c', PLAIN, 0)]
  }

  lemma {:induction false} OneGlyph(ch: char, m: Marks, link: nat)
    ensures ChunkCells(Run([ch], m, link)) == [Glyph(ch, m, link)]
  {}

  lemma {:induction false} FourCells(a: Chunk, b: Chunk, c: Chunk, d: Chunk)
    ensures Cells([a, b, c, d]) == ChunkCells(a) + ChunkCells(b) + ChunkCells(c) + ChunkCells(d)
  {
    hide ChunkCells;
    assert [a, b, c, d] == [] + [a] + [b] + [c] + [d];
    CellsSnoc([] + [a] + [b] + [c], d);
    CellsSnoc([] + [a] + [b], c);
    CellsSnoc([] + [a], b);
    CellsSnoc([], a);
    assert [] + ChunkCells(a) == ChunkCells(a);
    assert Cells([]) == [];
  }

  lemma {:induction false} RawLine()
    ensures Line(Raw()) == RawCells()
  {
    var x := Raw();
    OneLetterInk();
    assert x[0].link in InkedLinks(x) && x[1].link in InkedLinks(x);
    assert Unlinked(x, InkedLinks(x)) == x;
    FourCells(x[0], x[1], x[2], x[3]);
    OneGlyph('a', LinkTo(false), 1);
    OneGlyph('b', LinkTo(false), 2);
    OneGlyph(' ', LinkTo(true), 2);
    OneGlyph('c', PLAIN, 0);
  }

  lemma {:induction false} OneLetterInk()
    ensures HoldsInk(Raw()[0]) && HoldsInk(Raw()[1])
  {
    assert "a"[0] == 'a' && "b"[0] == 'b';
  }

  lemma {:induction false} RawOwners()
    ensures Normal(RawCells()) == RawCells() && RawCells() != [] && !OwnersInked(RawCells())
  {
    var e := RawCells();
    assert Tidy(e);
    TidyFixed(e);
    hide Normal;
    assert Owner(e, 0) == 1 && Owner(e, 1) == 1 && Owner(e, 2) == 2;
    assert !InkedOwner(e, 2);
    assert !OwnersInked(e);
  }

  lemma {:induction false} RawFinished()
    ensures Finished(Raw()).Some? && KeptLine(Raw()) == RawCells()
  {
    hide Normal, OwnersInked, Pick, Kept, KeptMask, Group;
    RawLine();
    RawOwners();
    LineIs(Raw());
    NormalKeeps(RawCells());
  }

  /** Only the second and third chunk share a link. */
  lemma {:induction false} RawPairs(i: nat, j: nat)
    requires i < j < |Raw()| && LinkedRun(Raw()[i]) && LinkedRun(Raw()[j]) && Raw()[i].link == Raw()[j].link
    ensures i == 1 && j == 2 && Raw()[i].marks.href == Raw()[j].marks.href
  {}

  lemma {:induction false} RawTogether()
    ensures RunsTogether(Raw())
  {
    hide Raw;
    var x := Raw();
    forall i, j | 0 <= i < j < |x| && LinkedRun(x[i]) && LinkedRun(x[j]) && x[i].link == x[j].link
      ensures i == 1 && j == 2 && x[i].marks.href == x[j].marks.href
    {
      RawPairs(i, j);
    }
    TogetherByPairs(x);
  }

  /** Where linked runs of one number are neighbours, nothing stands between them. */
  lemma {:induction false} TogetherByPairs(x: seq<Chunk>)
    requires forall i, j :: 0 <= i < j < |x| && LinkedRun(x[i]) && LinkedRun(x[j]) && x[i].link == x[j].link ==>
               i == 1 && j == 2 && x[i].marks.href == x[j].marks.href
    ensures RunsTogether(x)
  {}

  /** Normalising is not idempotent on raw lists, even where the runs of each link stand together. */
  lemma {:induction false} FinishChangesTwice()
    ensures RunsTogether(Raw()) && Finished(Raw()).Some?
    ensures Finished(Finished(Raw()).value) != Finished(Raw())
  {
    hide Raw, RawCells, Finished, OwnersInked, KeptLine, RunsTogether, Normal;
    RawTogether();
    RawFinished();
    RawOwners();
    FinishTwiceExactly(Raw());
  }
}
