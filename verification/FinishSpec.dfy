// What `finish` promises, stated without the scan: which cells of the line survive, in what grouping,
// and when a second pass changes nothing (apps/rich-editor/src/model.ts:65-136).

module FinishSpec {
  import opened Base
  import opened Chars
  import opened RichModel
  import opened Finish

  ghost predicate InkBefore(cs: seq<Cell>, i: nat) {
    exists j :: 0 <= j < i && j < |cs| && Ink(cs[j])
  }

  ghost predicate InkFrom(cs: seq<Cell>, i: nat) {
    exists j :: i <= j < |cs| && Ink(cs[j])
  }

  /** Only white space stands between position `i` and the next ink of the line, which exists. */
  predicate LeadsToInk(cs: seq<Cell>, i: nat)
    decreases |cs| - i
  {
    i < |cs| && (Ink(cs[i]) || (Blank(cs[i]) && LeadsToInk(cs, i + 1)))
  }

  /** The cells that survive: all ink, the breaks between ink, and one space where white space parts two inks. */
  ghost predicate Kept(cs: seq<Cell>, i: nat)
    requires i < |cs|
  {
    match cs[i]
    case Break => InkBefore(cs, i) && InkFrom(cs, i + 1)
    case Glyph(ch, _, _) => IsWS(ch) ==> i > 0 && Ink(cs[i-1]) && LeadsToInk(cs, i + 1)
  }

  /** White space is written as the plain space. */
  function PlainCell(c: Cell): Cell {
    if Blank(c) then c.(ch := ' ') else c
  }

  ghost function KeptMask(cs: seq<Cell>): seq<bool> {
    seq(|cs|, i requires 0 <= i < |cs| => Kept(cs, i))
  }

  /** The cells the mask selects, in their order. */
  function Pick(cs: seq<Cell>, mask: seq<bool>): seq<Cell>
    requires |mask| == |cs|
  {
    if cs == [] then []
    else var n := |cs| - 1; Pick(cs[..n], mask[..n]) + (if mask[n] then [PlainCell(cs[n])] else [])
  }

  // ---- the scan against the masks ----

  /** Like `LeadsToInk`, or the line ends in white space: a space the scan has not dropped yet. */
  predicate Pending(cs: seq<Cell>, i: nat)
    decreases |cs| - i
  {
    i >= |cs| || Ink(cs[i]) || (Blank(cs[i]) && Pending(cs, i + 1))
  }

  ghost predicate Soft(cs: seq<Cell>, i: nat)
    requires i < |cs|
  {
    match cs[i]
    case Break => InkBefore(cs, i)
    case Glyph(ch, _, _) => IsWS(ch) ==> i > 0 && Ink(cs[i-1]) && Pending(cs, i + 1)
  }

  ghost predicate Firm(cs: seq<Cell>, i: nat)
    requires i < |cs|
  {
    match cs[i]
    case Break => InkBefore(cs, i)
    case Glyph(ch, _, _) => IsWS(ch) ==> i > 0 && Ink(cs[i-1]) && LeadsToInk(cs, i + 1)
  }

  ghost function SoftMask(cs: seq<Cell>): seq<bool> {
    seq(|cs|, i requires 0 <= i < |cs| => Soft(cs, i))
  }

  ghost function FirmMask(cs: seq<Cell>): seq<bool> {
    seq(|cs|, i requires 0 <= i < |cs| => Firm(cs, i))
  }

  lemma {:induction false} LookAhead(q: seq<Cell>, d: Cell, i: nat)
    requires i <= |q|
    ensures !Ink(d) ==> LeadsToInk(q + [d], i) == LeadsToInk(q, i)
    ensures Ink(d) ==> LeadsToInk(q + [d], i) == Pending(q, i)
    ensures d.Glyph? ==> Pending(q + [d], i) == Pending(q, i)
    ensures d.Break? ==> Pending(q + [d], i) == LeadsToInk(q, i)
    decreases |q| - i
  {
    if i < |q| {
      LookAhead(q, d, i + 1);
      assert (q + [d])[i] == q[i];
    } else {
      assert !LeadsToInk(q, i);
      assert !LeadsToInk(q + [d], i + 1);
      assert Pending(q + [d], i + 1);
    }
  }

  lemma {:induction false} InkBeforeSnoc(q: seq<Cell>, d: Cell, i: nat)
    requires i <= |q|
    ensures InkBefore(q + [d], i) == InkBefore(q, i)
    ensures Ink(d) ==> InkFrom(q + [d], i)
    ensures !Ink(d) ==> InkFrom(q + [d], i) == InkFrom(q, i)
    ensures InkBefore(q + [d], |q| + 1) == (Ink(d) || InkBefore(q, |q|))
  {
    if Ink(d) { assert Ink((q + [d])[|q|]); }
    if InkBefore(q, i) { var j :| 0 <= j < i && j < |q| && Ink(q[j]); assert Ink((q + [d])[j]); }
    if InkFrom(q, i) { var j :| i <= j < |q| && Ink(q[j]); assert Ink((q + [d])[j]); }
    if InkBefore(q, |q|) { var j :| 0 <= j < |q| && Ink(q[j]); assert Ink((q + [d])[j]); }
  }

  /** How each mask of a longer line extends a mask of the line. */
  lemma {:induction false} MaskSnoc(q: seq<Cell>, d: Cell)
    ensures d.Glyph? ==> SoftMask(q + [d])[..|q|] == SoftMask(q)
    ensures d.Break? ==> SoftMask(q + [d])[..|q|] == FirmMask(q)
    ensures Ink(d) ==> FirmMask(q + [d])[..|q|] == SoftMask(q) && KeptMask(q + [d])[..|q|] == FirmMask(q + [d])[..|q|]
    ensures !Ink(d) ==> FirmMask(q + [d])[..|q|] == FirmMask(q) && KeptMask(q + [d])[..|q|] == KeptMask(q)
  {
    forall i | 0 <= i < |q|
      ensures d.Glyph? ==> Soft(q + [d], i) == Soft(q, i)
      ensures d.Break? ==> Soft(q + [d], i) == Firm(q, i)
      ensures Ink(d) ==> Firm(q + [d], i) == Soft(q, i) && Kept(q + [d], i) == Firm(q + [d], i)
      ensures !Ink(d) ==> Firm(q + [d], i) == Firm(q, i) && Kept(q + [d], i) == Kept(q, i)
    {
      LookAhead(q, d, i + 1);
      InkBeforeSnoc(q, d, i);
      InkBeforeSnoc(q, d, i + 1);
      assert (q + [d])[i] == q[i];
      if i > 0 { assert (q + [d])[i-1] == q[i-1]; }
    }
  }

  lemma {:induction false} PickSnoc(q: seq<Cell>, d: Cell, mask: seq<bool>)
    requires |mask| == |q| + 1
    ensures Pick(q + [d], mask) == Pick(q, mask[..|q|]) + (if mask[|q|] then [PlainCell(d)] else [])
  {
    assert (q + [d])[..|q|] == q;
  }

  lemma {:induction false} EdgeAfterScan(cs: seq<Cell>)
    ensures AtEdge(Scan(cs)) <==> cs == [] || !Ink(cs[|cs|-1])
  {}

  lemma {:induction false} ScanPicksSoft(cs: seq<Cell>)
    ensures Scan(cs) == Pick(cs, SoftMask(cs))
    decreases |cs|, 0
  {
    if cs != [] {
      var q, d := cs[..|cs|-1], cs[|cs|-1];
      assert cs == q + [d];
      ScanSnoc(q, d);
      MaskSnoc(q, d);
      PickSnoc(q, d, SoftMask(cs));
      EdgeAfterScan(q);
      InkBeforeSnoc(q, d, |q|);
      if d.Break? { TrimPicksFirm(q); } else { ScanPicksSoft(q); }
    }
  }

  /** A break, or the end, settles the pending space. */
  lemma {:induction false} TrimPicksFirm(cs: seq<Cell>)
    ensures TrimEnd(Scan(cs)) == Pick(cs, FirmMask(cs))
    ensures TrimEnd(Scan(cs)) != [] <==> InkBefore(cs, |cs|)
    decreases |cs|, 1
  {
    if cs != [] {
      var q, d := cs[..|cs|-1], cs[|cs|-1];
      assert cs == q + [d];
      ScanSnoc(q, d);
      MaskSnoc(q, d);
      PickSnoc(q, d, FirmMask(cs));
      InkBeforeSnoc(q, d, |q|);
      ScanPicksSoft(cs);
      PickSnoc(q, d, SoftMask(cs));
      TrimPicksFirm(q);
      if Blank(d) {
        assert !FirmMask(cs)[|q|];
        assert (Scan(q) + [Glyph(' ', d.marks, d.link)])[..|Scan(q)|] == Scan(q);
      }
    }
  }

  lemma {:induction false} DropPicksKept(cs: seq<Cell>)
    ensures DropBreaks(Pick(cs, FirmMask(cs))) == Pick(cs, KeptMask(cs))
  {
    if cs != [] {
      hide SoftMask, FirmMask, KeptMask, Pick, InkBefore, InkFrom;
      var q, d := cs[..|cs|-1], cs[|cs|-1];
      assert cs == q + [d];
      MaskSnoc(q, d);
      MaskEnd(q, d);
      PickSnoc(q, d, FirmMask(cs));
      PickSnoc(q, d, KeptMask(cs));
      DropPicksKept(q);
      var f := Pick(q, FirmMask(q));
      if !Ink(d) {
        assert (f + [Break])[..|f|] == f && f + [] == f;
        assert Pick(q, KeptMask(q)) + [] == Pick(q, KeptMask(q));
      }
    }
  }

  /** What the masks say of the last cell. */
  lemma {:induction false} MaskEnd(q: seq<Cell>, d: Cell)
    ensures var cs := q + [d];
            && |FirmMask(cs)| == |KeptMask(cs)| == |cs| && |FirmMask(q)| == |KeptMask(q)| == |q|
            && KeptMask(cs)[|q|] == Ink(d) && (Ink(d) ==> FirmMask(cs) == KeptMask(cs))
            && (Blank(d) ==> !FirmMask(cs)[|q|])
  {
    hide SoftMask;
    var cs := q + [d];
    MaskSnoc(q, d);
    assert !InkFrom(cs, |q| + 1) && !LeadsToInk(cs, |q| + 1);
    if Ink(d) {
      assert KeptMask(cs) == KeptMask(cs)[..|q|] + [true] == FirmMask(cs)[..|q|] + [true] == FirmMask(cs);
    }
  }

  /** The scan keeps exactly the cells `Kept` names, in their order. */
  lemma {:induction false} NormalKeeps(cs: seq<Cell>)
    ensures Normal(cs) == Pick(cs, KeptMask(cs))
  {
    TrimPicksFirm(cs);
    DropPicksKept(cs);
  }

  // ---- the shape of a normal line ----

  /** No border is a space or a break, and every space is plain and stands between two inks. */
  predicate Tidy(cs: seq<Cell>) {
    && (cs != [] ==> Ink(cs[0]) && Ink(cs[|cs|-1]))
    && forall i :: 0 <= i < |cs| && Blank(cs[i]) ==> cs[i].ch == ' ' && 0 < i < |cs|-1 && Ink(cs[i-1]) && Ink(cs[i+1])
  }

  /** The same, but the line may still end in a space or in breaks. */
  predicate Loose(cs: seq<Cell>) {
    && (cs != [] ==> Ink(cs[0]))
    && forall i :: 0 <= i < |cs| && Blank(cs[i]) ==> cs[i].ch == ' ' && 0 < i && Ink(cs[i-1]) && (i < |cs|-1 ==> Ink(cs[i+1]))
  }

  lemma {:induction false} LooseTrim(e: seq<Cell>)
    requires Loose(e)
    ensures TrimEnd(e) == (if e != [] && Blank(e[|e|-1]) then e[..|e|-1] else e)
    ensures Loose(TrimEnd(e)) && (TrimEnd(e) != [] ==> !Blank(TrimEnd(e)[|TrimEnd(e)|-1]))
  {}

  lemma {:induction false} StepLoose(e: seq<Cell>, c: Cell)
    requires Loose(e)
    ensures Loose(Step(e, c))
  {
    hide TrimEnd;
    LooseTrim(e);
  }

  lemma {:induction false} ScanLoose(cs: seq<Cell>)
    ensures Loose(Scan(cs))
  {
    hide Step, Loose;
    if cs != [] {
      ScanLoose(cs[..|cs|-1]);
      StepLoose(Scan(cs[..|cs|-1]), cs[|cs|-1]);
    } else {
      assert Loose([]) by { LooseEmpty(); }
    }
  }

  lemma {:induction false} LooseEmpty()
    ensures Loose([])
  {}

  lemma {:induction false} DropTidy(e: seq<Cell>)
    requires Loose(e) && (e != [] ==> !Blank(e[|e|-1]))
    ensures Tidy(DropBreaks(e))
  {
    if e != [] && e[|e|-1].Break? {
      DropTidy(e[..|e|-1]);
    }
  }

  lemma {:induction false} NormalTidy(cs: seq<Cell>)
    ensures Tidy(Normal(cs))
  {
    ScanLoose(cs);
    LooseTrim(Scan(cs));
    DropTidy(TrimEnd(Scan(cs)));
  }

  lemma {:induction false} StepFixesLoose(q: seq<Cell>, d: Cell)
    requires Loose(q + [d])
    ensures Loose(q) && Step(q, d) == q + [d]
  {
    hide TrimEnd;
    var cs := q + [d];
    assert forall i :: 0 <= i < |q| ==> q[i] == cs[i];
    assert cs[|q|] == d;
    LooseTrim(q);
    if q != [] && Blank(q[|q|-1]) { assert Blank(cs[|q|-1]); }
  }

  lemma {:induction false} ScanFixesLoose(cs: seq<Cell>)
    requires Loose(cs)
    ensures Scan(cs) == cs
  {
    hide Step, Loose;
    if cs != [] {
      assert cs == cs[..|cs|-1] + [cs[|cs|-1]];
      StepFixesLoose(cs[..|cs|-1], cs[|cs|-1]);
      ScanFixesLoose(cs[..|cs|-1]);
    }
  }

  lemma {:induction false} TidyFixed(cs: seq<Cell>)
    requires Tidy(cs)
    ensures Normal(cs) == cs
  {
    hide Scan;
    ScanFixesLoose(cs);
  }

  // ---- grouping ----

  /** A cell without the identity of its link. */
  function Bare(c: Cell): Cell {
    if c.Glyph? then c.(link := 0) else c
  }

  function Bares(cs: seq<Cell>): seq<Cell> {
    seq(|cs|, i requires 0 <= i < |cs| => Bare(cs[i]))
  }

  lemma {:induction false} BaresConcat(a: seq<Cell>, b: seq<Cell>)
    ensures Bares(a + b) == Bares(a) + Bares(b)
  {}

  lemma {:induction false} ExtendKeepsCells(rest: seq<Chunk>, r: Chunk, c: Cell)
    requires r.Run? && c.Glyph? && c.marks == r.marks
    ensures Bares(Cells(rest + [Run(r.text + [c.ch], r.marks, r.link)])) == Bares(Cells(rest + [r])) + Bares([c])
  {
    hide Cells, Bares;
    CellsSnoc(rest, r);
    CellsSnoc(rest, Run(r.text + [c.ch], r.marks, r.link));
    GlyphsSnoc(r.text, c.ch, r.marks, r.link);
    var d := Glyph(c.ch, r.marks, r.link);
    SeqAssoc(Cells(rest), ChunkCells(r), [d]);
    BaresConcat(Cells(rest + [r]), [d]);
    SameBare(d, c);
  }

  lemma {:induction false} SameBare(d: Cell, c: Cell)
    requires Bare(d) == Bare(c)
    ensures Bares([d]) == Bares([c])
  {}

  lemma {:induction false} AddCellKeeps(g: seq<Chunk>, c: Cell)
    ensures Bares(Cells(AddCell(g, c))) == Bares(Cells(g)) + Bares([c])
  {
    if c.Glyph? && g != [] && g[|g|-1].Run? && g[|g|-1].marks == c.marks {
      ExtendKeepsCells(g[..|g|-1], g[|g|-1], c);
      assert g == g[..|g|-1] + [g[|g|-1]];
    } else {
      var x := if c.Break? then Br else Run([c.ch], c.marks, c.link);
      CellsSnoc(g, x);
      assert ChunkCells(x) == [c];
      BaresConcat(Cells(g), [c]);
    }
  }

  lemma {:induction false} AddCellCanonical(g: seq<Chunk>, c: Cell)
    requires Canonical(g)
    ensures Canonical(AddCell(g, c))
  {}

  /** Grouping keeps every cell but the identity of merged links, and its result is canonical. */
  lemma {:induction false} GroupKeepsCells(cells: seq<Cell>)
    ensures Bares(Cells(Group(cells))) == Bares(cells)
    ensures Canonical(Group(cells))
  {
    hide AddCell, Canonical, Bares, Cells;
    if cells != [] {
      var q, c := cells[..|cells|-1], cells[|cells|-1];
      GroupKeepsCells(q);
      AddCellKeeps(Group(q), c);
      AddCellCanonical(Group(q), c);
      assert cells == q + [c];
      BaresConcat(q, [c]);
    } else {
      EmptyLine();
    }
  }

  lemma {:induction false} EmptyLine()
    ensures Cells([]) == [] && Bares([]) == [] && Canonical([])
  {}

  /** A canonical chunk list is the grouping of its own cells. */
  lemma {:induction false} GroupFixesCanonical(cs: seq<Chunk>)
    requires Canonical(cs)
    ensures Group(Cells(cs)) == cs
  {
    if cs != [] {
      var q, c := cs[..|cs|-1], cs[|cs|-1];
      assert cs == q + [c];
      GroupFixesCanonical(q);
      CellsSnoc(q, c);
      match c
      case Br => GroupSnoc(Cells(q), Break);
      case Run(text, m, link) => GroupGlyphs(Cells(q), text, m, link);
    }
  }

  // ---- the contract of `finish` ----

  /** The line `finish` works on: the cells of the chunks, without the links that hold no ink. */
  function Line(input: seq<Chunk>): seq<Cell> {
    Cells(Unlinked(input, InkedLinks(input)))
  }

  lemma {:induction false} PickInk(cs: seq<Cell>, mask: seq<bool>)
    requires |mask| == |cs| && forall i :: 0 <= i < |cs| && Ink(cs[i]) ==> mask[i]
    ensures InkBefore(cs, |cs|) ==> Pick(cs, mask) != []
  {
    if cs != [] {
      var n := |cs| - 1;
      assert cs == cs[..n] + [cs[n]];
      InkBeforeSnoc(cs[..n], cs[n], n);
      PickInk(cs[..n], mask[..n]);
    }
  }

  /** There is a result iff the line holds ink; it is canonical, and its cells are exactly the kept cells in order. */
  lemma {:induction false} FinishContract(input: seq<Chunk>)
    ensures var line := Line(input);
            match Finished(input)
            case None => !InkBefore(line, |line|)
            case Some(out) =>
              && InkBefore(line, |line|) && out != [] && Canonical(out) && Tidy(Cells(out))
              && Bares(Cells(out)) == Bares(Pick(line, KeptMask(line)))
  {
    var line := Line(input);
    NormalKeeps(line);
    NormalTidy(line);
    PickInk(line, KeptMask(line));
    GroupKeepsCells(Normal(line));
    GroupNonempty(Normal(line));
    if Normal(line) != [] {
      BareTidy(Normal(line), Cells(Group(Normal(line))));
      KeptNeedsInk(line);
    }
  }

  lemma {:induction false} KeptNeedsInk(cs: seq<Cell>)
    requires Normal(cs) != []
    ensures InkBefore(cs, |cs|)
  {
    TrimPicksFirm(cs);
    if TrimEnd(Scan(cs)) == [] { assert false; }
  }

  lemma {:induction false} BareTidy(a: seq<Cell>, b: seq<Cell>)
    requires Bares(a) == Bares(b) && Tidy(a)
    ensures Tidy(b)
  {
    forall i | 0 <= i < |b|
      ensures Ink(a[i]) == Ink(b[i]) && Blank(a[i]) == Blank(b[i]) && (Blank(b[i]) ==> a[i].ch == b[i].ch)
    {
      assert Bares(a)[i] == Bares(b)[i];
    }
  }

  /** Every linked run shares its link with a run that holds ink. */
  predicate LinksHoldInk(cs: seq<Chunk>) {
    forall i :: 0 <= i < |cs| && cs[i].Run? && cs[i].marks.href != "" ==> cs[i].link in InkedLinks(cs)
  }

  /** Which chunk lists `finish` leaves alone. */
  lemma {:induction false} FinishFixes(cs: seq<Chunk>)
    requires cs != [] && Canonical(cs) && Tidy(Cells(cs))
    ensures Finished(cs) == Some(cs) <==> LinksHoldInk(cs)
  {
    if LinksHoldInk(cs) {
      assert Unlinked(cs, InkedLinks(cs)) == cs;
      TidyFixed(Cells(cs));
      GroupFixesCanonical(cs);
      GroupNonempty(Cells(cs));
    } else {
      var i :| 0 <= i < |cs| && cs[i].Run? && cs[i].marks.href != "" && cs[i].link !in InkedLinks(cs);
      if Finished(cs) == Some(cs) {
        UnlinkedLosesLink(cs, i);
      }
    }
  }

  lemma {:induction false} CellsPrefix(cs: seq<Chunk>, i: nat)
    requires i < |cs|
    ensures Cells(cs[..i]) + ChunkCells(cs[i]) <= Cells(cs)
  {
    var n := |cs| - 1;
    if i < n {
      CellsPrefix(cs[..n], i);
      assert cs[..n][..i] == cs[..i];
    }
  }

  /** Unwrapping a link changes marks only. */
  lemma {:induction false} UnlinkCells(cs: seq<Chunk>, inked: set<nat>)
    ensures var a, b := Cells(cs), Cells(Unlinked(cs, inked));
            |a| == |b| && forall k :: 0 <= k < |a| ==> SameGlyph(a[k], b[k])
  {
    if cs != [] {
      var n := |cs| - 1;
      UnlinkCells(cs[..n], inked);
      assert Unlinked(cs, inked)[..n] == Unlinked(cs[..n], inked);
      assert Cells(cs) == Cells(cs[..n]) + ChunkCells(cs[n]);
      assert Cells(Unlinked(cs, inked)) == Cells(Unlinked(cs[..n], inked)) + ChunkCells(Unlink(cs[n], inked));
    }
  }

  predicate SameGlyph(a: Cell, b: Cell) {
    a.Break? == b.Break? && (a.Glyph? ==> a.ch == b.ch)
  }

  lemma {:induction false} SameGlyphsTidy(a: seq<Cell>, b: seq<Cell>)
    requires |a| == |b| && forall k :: 0 <= k < |a| ==> SameGlyph(a[k], b[k])
    requires Tidy(a)
    ensures Tidy(b)
  {}

  /** The first cell of chunk `i` stands after the cells of the chunks before it. */
  lemma {:induction false} FirstCellOf(cs: seq<Chunk>, i: nat)
    requires i < |cs| && cs[i].Run? && cs[i].text != ""
    ensures |Cells(cs[..i])| < |Cells(cs)|
    ensures Cells(cs)[|Cells(cs[..i])|] == Glyph(cs[i].text[0], cs[i].marks, cs[i].link)
  {
    CellsPrefix(cs, i);
    var p := Cells(cs[..i]) + ChunkCells(cs[i]);
    assert p[|Cells(cs[..i])|] == ChunkCells(cs[i])[0];
  }

  lemma {:induction false} UnlinkedLosesLink(cs: seq<Chunk>, i: nat)
    requires Canonical(cs) && Tidy(Cells(cs)) && i < |cs|
    requires cs[i].Run? && cs[i].marks.href != "" && cs[i].link !in InkedLinks(cs)
    ensures Finished(cs) != Some(cs)
  {
    var inked := InkedLinks(cs);
    var bare := Unlinked(cs, inked);
    UnlinkCells(cs[..i], inked);
    assert bare[..i] == Unlinked(cs[..i], inked);
    FirstCellOf(cs, i);
    FirstCellOf(bare, i);
    var k := |Cells(cs[..i])|;
    assert Bares(Cells(cs))[k].marks.href != "";
    assert Bares(Cells(bare))[k].marks.href == "";
    BareTextStays(cs);
  }

  lemma {:induction false} BareTextStays(cs: seq<Chunk>)
    requires Tidy(Cells(cs))
    ensures Finished(cs).Some? ==> Bares(Cells(Finished(cs).value)) == Bares(Line(cs))
  {
    UnlinkCells(cs, InkedLinks(cs));
    SameGlyphsTidy(Cells(cs), Line(cs));
    TidyFixed(Line(cs));
    GroupKeepsCells(Line(cs));
  }

  // ---- no text is lost ----

  /** The characters of a line that are not white space, in order. */
  function InkChars(cs: seq<Cell>): string {
    if cs == [] then ""
    else InkChars(cs[..|cs|-1]) + (if Ink(cs[|cs|-1]) then [cs[|cs|-1].ch] else "")
  }

  lemma {:induction false} InkCharsSnoc(cs: seq<Cell>, c: Cell)
    ensures InkChars(cs + [c]) == InkChars(cs) + (if Ink(c) then [c.ch] else "")
  {
    assert (cs + [c])[..|cs|] == cs;
  }

  lemma {:induction false} InkCharsConcat(a: seq<Cell>, b: seq<Cell>)
    ensures InkChars(a + b) == InkChars(a) + InkChars(b)
  {
    if b == [] {
      assert a + b == a;
    } else {
      var q, c := b[..|b|-1], b[|b|-1];
      InkCharsConcat(a, q);
      assert a + b == (a + q) + [c];
      InkCharsSnoc(a + q, c);
    }
  }

  lemma {:induction false} SameInkChars(a: seq<Cell>, b: seq<Cell>)
    requires |a| == |b| && forall k :: 0 <= k < |a| ==> SameGlyph(a[k], b[k])
    ensures InkChars(a) == InkChars(b)
  {
    if a != [] { SameInkChars(a[..|a|-1], b[..|b|-1]); }
  }

  lemma {:induction false} PickKeepsInk(cs: seq<Cell>, mask: seq<bool>)
    requires |mask| == |cs| && forall i :: 0 <= i < |cs| && Ink(cs[i]) ==> mask[i]
    ensures InkChars(Pick(cs, mask)) == InkChars(cs)
  {
    if cs != [] {
      var n := |cs| - 1;
      PickKeepsInk(cs[..n], mask[..n]);
      InkCharsSnoc(Pick(cs[..n], mask[..n]), PlainCell(cs[n]));
      assert Pick(cs[..n], mask[..n]) + [] == Pick(cs[..n], mask[..n]);
    }
  }

  lemma {:induction false} BareInkChars(a: seq<Cell>, b: seq<Cell>)
    requires Bares(a) == Bares(b)
    ensures InkChars(a) == InkChars(b)
  {
    assert |a| == |Bares(a)| == |b|;
    forall k | 0 <= k < |a| ensures SameGlyph(a[k], b[k]) {
      assert Bares(a)[k] == Bares(b)[k];
    }
    SameInkChars(a, b);
  }

  /** Every character that is not white space survives, in order, and no other one appears. */
  lemma {:induction false} FinishKeepsText(input: seq<Chunk>)
    ensures match Finished(input)
            case None => InkChars(Cells(input)) == ""
            case Some(out) => InkChars(Cells(out)) == InkChars(Cells(input))
  {
    hide Pick, Kept, InkChars, Scan;
    var line := Line(input);
    UnlinkCells(input, InkedLinks(input));
    SameInkChars(Cells(input), line);
    NormalKeeps(line);
    MaskHasInk(line);
    PickKeepsInk(line, KeptMask(line));
    NoInkChars();
    if Finished(input).Some? {
      GroupKeepsCells(Normal(line));
      BareInkChars(Normal(line), Cells(Finished(input).value));
    }
  }

  lemma {:induction false} MaskHasInk(cs: seq<Cell>)
    ensures forall i :: 0 <= i < |cs| && Ink(cs[i]) ==> KeptMask(cs)[i]
  {}

  lemma {:induction false} NoInkChars()
    ensures InkChars([]) == ""
  {}
}
