// Which cells of a worksheet become seats, of which section and row (apps/venue-svg-generator/xlsx_seating_adapter/core.py:69-188),
// said of the cells themselves: without the list of sections, its ranges, or the marker search.

module SeatingExact {
  import opened Base
  import opened Seating

  // ---- headers ----

  predicate OnSheet(sheet: Sheet, c: Cell) {
    1 <= c.row <= |sheet| && 1 <= c.col <= |sheet[c.row-1]| && sheet[c.row-1][c.col-1] == c
  }

  predicate HeaderOf(sheet: Sheet, p: Profile, h: Cell) { OnSheet(sheet, h) && IsHeader(h, p) }

  /** `h` is the last header, in reading order, that stands above row `r`. */
  ghost predicate Governs(sheet: Sheet, p: Profile, r: int, h: Cell) {
    && HeaderOf(sheet, p, h) && h.row < r
    && forall g :: HeaderOf(sheet, p, g) && g.row < r && g != h ==> CellBefore(g, h)
  }

  ghost predicate AnyHeader(sheet: Sheet, p: Profile) { exists h :: HeaderOf(sheet, p, h) }

  ghost predicate HeaderAbove(sheet: Sheet, p: Profile, r: int) { exists h :: HeaderOf(sheet, p, h) && h.row < r }

  ghost predicate HeaderRow(sheet: Sheet, p: Profile, r: int) { exists h :: HeaderOf(sheet, p, h) && h.row == r }

  /** The row is read: it holds no header, and a header stands above it where the sheet has any. */
  ghost predicate Read(sheet: Sheet, p: Profile, r: int) {
    1 <= r <= |sheet| && !HeaderRow(sheet, p, r) && (AnyHeader(sheet, p) ==> HeaderAbove(sheet, p, r))
  }

  /** The section of a row that is read. */
  ghost predicate LabelOf(sheet: Sheet, p: Profile, r: int, name: Option<string>) {
    if AnyHeader(sheet, p) then exists h :: Governs(sheet, p, r, h) && h.value.Words? && name == Some(p.strip(h.value.s)) else name == None
  }

  predicate Reading(hs: seq<Cell>) { forall i, j :: 0 <= i < j < |hs| ==> CellBefore(hs[i], hs[j]) }

  lemma {:induction false} HeadersMore(cells: seq<Cell>, p: Profile)
    ensures HeadersIn(cells, p) ==
      if cells == [] then []
      else HeadersIn(cells[..|cells|-1], p) + if IsHeader(cells[|cells|-1], p) then [cells[|cells|-1]] else []
  {}

  /** These are headers of the row, and all of them. */
  predicate AreHeaders(hs: seq<Cell>, cells: seq<Cell>, p: Profile) {
    && (forall i :: 0 <= i < |hs| ==> IsHeader(hs[i], p) && 1 <= hs[i].col <= |cells| && cells[hs[i].col-1] == hs[i])
    && (forall k :: 0 <= k < |cells| && IsHeader(cells[k], p) ==> cells[k] in hs)
  }

  lemma {:induction false} OneMoreCell(hs: seq<Cell>, front: seq<Cell>, c: Cell, p: Profile)
    requires AreHeaders(hs, front, p) && c.col == |front| + 1
    ensures AreHeaders(if IsHeader(c, p) then hs + [c] else hs, front + [c], p)
  {
    hide IsHeader;
    var cells := front + [c];
    var all := if IsHeader(c, p) then hs + [c] else hs;
    forall i | 0 <= i < |all| ensures IsHeader(all[i], p) && 1 <= all[i].col <= |cells| && cells[all[i].col-1] == all[i] {
      if i < |hs| { assert all[i] == hs[i]; }
    }
    forall k | 0 <= k < |cells| && IsHeader(cells[k], p) ensures cells[k] in all {
      if k < |front| { assert front[k] in hs; }
    }
  }

  lemma {:induction false} RowHeaders(cells: seq<Cell>, p: Profile, row: nat)
    requires IsRow(cells, row)
    ensures var hs := HeadersIn(cells, p); Rising(hs, row, |cells|) && AreHeaders(hs, cells, p)
  {
    hide IsHeader, Rising, IsRow, HeadersIn, AreHeaders;
    HeadersMore(cells, p);
    if cells == [] {
      NothingRises(row);
      NoneListed(p);
    } else {
      var front, c := cells[..|cells|-1], cells[|cells|-1];
      assert cells == front + [c];
      RowFront(cells, row);
      RowHeaders(front, p, row);
      RisingSnoc(HeadersIn(front, p), row, |front|, c);
      assert HeadersIn(front, p) + [] == HeadersIn(front, p);
      OneMoreCell(HeadersIn(front, p), front, c, p);
    }
  }

  lemma {:induction false} NoneListed(p: Profile)
    ensures AreHeaders([], [], p)
  {}

  /** The headers are listed once each, in reading order, none left out. */
  lemma {:induction false} HeadersListed(sheet: Sheet, p: Profile)
    requires Grid(sheet)
    ensures var hs := Headers(sheet, p);
            && Reading(hs) && (forall i :: 0 <= i < |hs| ==> HeaderOf(sheet, p, hs[i]))
            && (forall h :: HeaderOf(sheet, p, h) ==> h in hs)
  {
    hide IsHeader, HeadersIn, Rising, IsRow;
    if sheet != [] {
      var n := |sheet| - 1;
      var front, last := sheet[..n], HeadersIn(sheet[n], p);
      HeadersListed(front, p);
      GridRow(sheet, n + 1);
      RowHeaders(sheet[n], p, n + 1);
      RisingOrder(last, n + 1, |sheet[n]|);
      var hs := Headers(front, p) + last;
      forall i | 0 <= i < |hs| ensures HeaderOf(sheet, p, hs[i]) && (i < |Headers(front, p)| ==> hs[i].row <= n) {
        if i < |Headers(front, p)| { assert HeaderOf(front, p, hs[i]); } else { assert hs[i] == last[i - |Headers(front, p)|]; }
      }
      ReadingConcat(Headers(front, p), last, n);
      forall h | HeaderOf(sheet, p, h) ensures h in hs {
        if h.row <= n { assert HeaderOf(front, p, h); } else { assert sheet[n][h.col-1] == h; }
      }
    }
  }

  lemma {:induction false} RisingOrder(cs: seq<Cell>, row: nat, n: nat)
    requires Rising(cs, row, n)
    ensures Reading(cs) && forall i :: 0 <= i < |cs| ==> cs[i].row == row
  {}

  lemma {:induction false} ReadingConcat(a: seq<Cell>, b: seq<Cell>, n: int)
    requires Reading(a) && Reading(b) && (forall i :: 0 <= i < |a| ==> a[i].row <= n) && (forall i :: 0 <= i < |b| ==> b[i].row > n)
    ensures Reading(a + b)
  {}

  // ---- sections ----

  predicate Covers(ss: seq<Section>, i: int, r: int) {
    0 <= i < |ss| && ss[i].headerRow < r < ss[i].end
  }

  /** The place of the last header above row `r` in the list. */
  lemma {:induction false} LastAbove(hs: seq<Cell>, r: int) returns (i: int)
    requires Reading(hs)
    ensures -1 <= i < |hs| && (i >= 0 ==> hs[i].row < r) && forall j :: i < j < |hs| ==> hs[j].row >= r
  {
    i := |hs| - 1;
    while i >= 0 && hs[i].row >= r
      invariant -1 <= i < |hs| && forall j :: i < j < |hs| ==> hs[j].row >= r
    {
      i := i - 1;
    }
  }

  lemma {:induction false} NoHeaders(sheet: Sheet, p: Profile)
    requires Grid(sheet)
    ensures AnyHeader(sheet, p) <==> Headers(sheet, p) != []
  {
    HeadersListed(sheet, p);
    hide Headers, IsHeader;
    if Headers(sheet, p) != [] { assert HeaderOf(sheet, p, Headers(sheet, p)[0]); }
  }

  /** A row is in exactly one section when it is read, and in none otherwise. */
  lemma {:induction false} SectionsCover(sheet: Sheet, p: Profile, r: int)
    requires Grid(sheet) && 1 <= r <= |sheet|
    ensures (exists i :: Covers(Sections(sheet, p), i, r)) <==> Read(sheet, p, r)
    ensures forall i, j :: Covers(Sections(sheet, p), i, r) && Covers(Sections(sheet, p), j, r) ==> i == j
    ensures forall i :: Covers(Sections(sheet, p), i, r) ==> LabelOf(sheet, p, r, Sections(sheet, p)[i].name)
  {
    hide Headers, IsHeader, LabelOf, Read;
    SectionsApart(sheet, p);
    NoHeaders(sheet, p);
    if Headers(sheet, p) == [] {
      WithoutHeaders(sheet, p, r);
    } else {
      WithHeaders(sheet, p, r);
    }
  }

  lemma {:induction false} WithoutHeaders(sheet: Sheet, p: Profile, r: int)
    requires Grid(sheet) && 1 <= r <= |sheet| && !AnyHeader(sheet, p) && Headers(sheet, p) == []
    ensures Read(sheet, p, r) && LabelOf(sheet, p, r, None) && Covers(Sections(sheet, p), 0, r)
  {
    hide IsHeader, Headers;
  }

  /** The range of the section of the last header above: it ends at the next header row. */
  lemma {:induction false} WithHeaders(sheet: Sheet, p: Profile, r: int)
    requires Grid(sheet) && 1 <= r <= |sheet| && Headers(sheet, p) != []
    ensures (exists i :: Covers(Sections(sheet, p), i, r)) <==> Read(sheet, p, r)
    ensures forall i :: Covers(Sections(sheet, p), i, r) ==> LabelOf(sheet, p, r, Sections(sheet, p)[i].name)
  {
    hide Headers, IsHeader;
    HeadersListed(sheet, p);
    NoHeaders(sheet, p);
    var hs, ss := Headers(sheet, p), Sections(sheet, p);
    var i := LastAbove(hs, r);
    if i >= 0 {
      assert HeaderAbove(sheet, p, r) by { assert HeaderOf(sheet, p, hs[i]); }
      Governing(sheet, p, hs, r, i);
    }
    assert HeaderRow(sheet, p, r) <==> i + 1 < |hs| && hs[i+1].row == r by { NextHeader(sheet, p, hs, r, i); }
    forall k | Covers(ss, k, r) ensures k == i && !HeaderRow(sheet, p, r) && LabelOf(sheet, p, r, ss[k].name) {
      assert HeaderOf(sheet, p, hs[k]);
      HeaderWords(hs[k], p);
    }
    if Read(sheet, p, r) { assert Covers(ss, i, r); }
  }

  lemma {:induction false} HeaderWords(h: Cell, p: Profile)
    requires IsHeader(h, p)
    ensures h.value.Words?
  {}

  lemma {:induction false} Governing(sheet: Sheet, p: Profile, hs: seq<Cell>, r: int, i: int)
    requires Reading(hs) && (forall h :: HeaderOf(sheet, p, h) ==> h in hs) && 0 <= i < |hs| && HeaderOf(sheet, p, hs[i]) && hs[i].row < r
    requires forall j :: i < j < |hs| ==> hs[j].row >= r
    ensures Governs(sheet, p, r, hs[i])
  {
    hide IsHeader;
    forall g | HeaderOf(sheet, p, g) && g.row < r && g != hs[i] ensures CellBefore(g, hs[i]) {
      var k :| 0 <= k < |hs| && hs[k] == g;
    }
  }

  lemma {:induction false} NextHeader(sheet: Sheet, p: Profile, hs: seq<Cell>, r: int, i: int)
    requires Reading(hs) && (forall h :: HeaderOf(sheet, p, h) ==> h in hs) && (forall k :: 0 <= k < |hs| ==> HeaderOf(sheet, p, hs[k]))
    requires -1 <= i < |hs| && (i >= 0 ==> hs[i].row < r) && forall j :: i < j < |hs| ==> hs[j].row >= r
    ensures HeaderRow(sheet, p, r) <==> i + 1 < |hs| && hs[i+1].row == r
  {
    hide IsHeader;
    if HeaderRow(sheet, p, r) {
      var h :| HeaderOf(sheet, p, h) && h.row == r;
      var k :| 0 <= k < |hs| && hs[k] == h;
      assert k > i;
      if k > i + 1 { assert CellBefore(hs[i+1], hs[k]); }
    }
    if i + 1 < |hs| && hs[i+1].row == r { assert HeaderOf(sheet, p, hs[i+1]); }
  }

  // ---- every number of the sheet ----

  lemma {:induction false} ReadIsCovered(sheet: Sheet, p: Profile, c: Cell) returns (i: nat)
    requires Grid(sheet) && Read(sheet, p, c.row)
    ensures Covered(Sections(sheet, p), i, c)
  {
    hide Sections, Read;
    ReadInside(sheet, p, c.row);
    SectionsCover(sheet, p, c.row);
    var k :| Covers(Sections(sheet, p), k, c.row);
    i := k;
  }

  lemma {:induction false} ReadInside(sheet: Sheet, p: Profile, r: int)
    requires Read(sheet, p, r)
    ensures 1 <= r <= |sheet|
  {}

  lemma {:induction false} UnreadElsewhere(sheet: Sheet, ss: seq<Section>, p: Profile, c: Cell)
    requires Grid(sheet) && Apart(ss, |sheet|) && WordHeaders(ss) && IsNumber(c)
    requires forall i :: 0 <= i < |ss| ==> !Covers(ss, i, c.row)
    ensures Counts(SectionsModel(sheet, ss, p), c, 0, 0)
    decreases |ss|
  {
    hide RowsModel, SectionModel, Counts, Grid, IsNumber;
    if ss == [] {
      NoCounts(c);
    } else {
      var n := |ss| - 1;
      assert !Covers(ss, n, c.row);
      forall i | 0 <= i < n ensures !Covers(ss[..n], i, c.row) { assert !Covers(ss, i, c.row); }
      RowsElsewhere(sheet, ss[n].headerRow + 1, ss[n].end, ss[n].name, p, c);
      SectionCounts(sheet, ss[n], p, c, 0, 0);
      UnreadElsewhere(sheet, ss[..n], p, c);
      CountsPlus(SectionsModel(sheet, ss[..n], p), SectionModel(sheet, ss[n], p), c, 0, 0, 0, 0);
    }
  }

  lemma {:induction false} WordSections(sheet: Sheet, p: Profile)
    ensures WordHeaders(Sections(sheet, p))
  {
    hide Headers, IsNumber;
    HeadersAreWords(sheet, p);
  }

  /** For the shipped rules, every number on the sheet: of a row that is read as the row says, of any other row not at all. */
  lemma {:induction false} EveryNumber(sheet: Sheet, p: Profile, c: Cell)
    requires Grid(sheet) && Shipped(p) && OnSheet(sheet, c) && IsNumber(c)
    ensures var cells := sheet[c.row-1];
            if Read(sheet, p, c.row) then Counts(WholeModel(sheet, p), c, SeatedTimes(cells, p, c), Aside(cells, p, c))
            else Counts(WholeModel(sheet, p), c, 0, 0)
  {
    hide SectionsModel, SeatedTimes, Aside, Counts, Sections, IsNumber, Read;
    SectionsApart(sheet, p);
    if Read(sheet, p, c.row) {
      var i := ReadIsCovered(sheet, p, c);
      EachNumberOnce(sheet, p, i, c);
    } else {
      WordSections(sheet, p);
      SectionsCover(sheet, p, c.row);
      UnreadElsewhere(sheet, Sections(sheet, p), p, c);
    }
  }

  /** In a passing model every number of a row that is read is exactly one seat, with a whole number, or exactly one entry put aside. */
  lemma {:induction false} EveryNumberPlaced(sheet: Sheet, p: Profile, c: Cell)
    requires Grid(sheet) && Shipped(p) && OnSheet(sheet, c) && IsNumber(c) && Passes(WholeModel(sheet, p)) && Read(sheet, p, c.row)
    ensures var m := WholeModel(sheet, p);
            SeatCount(m.seats, c) + RejectCount(m.rejected, c) == 1 && (SeatCount(m.seats, c) == 1 ==> Whole(c))
  {
    hide WholeModel, Sections, IsNumber, Read, Whole, SeatCount, RejectCount, Passes;
    var i := ReadIsCovered(sheet, p, c);
    PassingPartition(sheet, p, i, c);
  }

  // ---- the seats of a row ----

  /** The letter that names a row: the first single letter of the profile in it. */
  predicate LetterNames(cells: seq<Cell>, p: Profile, name: string, k: int) {
    && 0 <= k < |cells| && IsLetter(cells[k], p) && (forall j :: 0 <= j < k ==> !IsLetter(cells[j], p))
    && cells[k].value.Words? && name == p.upper(p.strip(cells[k].value.s))
  }

  /** The equal numbers at its two ends that name a row; they are the first and the last number in it. */
  predicate EdgesName(cells: seq<Cell>, p: Profile, name: string, k: int, l: int) {
    && 0 <= k < l < |cells| && IsNumber(cells[k]) && IsNumber(cells[l])
    && (forall j :: 0 <= j < |cells| && (j < k || l < j) ==> !IsNumber(cells[j]))
    && cells[k].value == cells[l].value && name == p.str(cells[k].value.v)
  }

  /** The cell is a seat of a row called `name`: a number of the profile's styles, or one strictly between the edges. */
  ghost predicate SeatOfRow(cells: seq<Cell>, p: Profile, name: string, c: Cell) {
    && c in cells && IsNumber(c)
    && match (p.rows, p.seats)
       case (Letters(_), Styles(ids)) => c.style in ids && exists k :: LetterNames(cells, p, name, k)
       case (Edges, Between) => exists k, l :: EdgesName(cells, p, name, k, l) && cells[k].col < c.col < cells[l].col
       case _ => false
  }

  ghost predicate SeatUnder(cells: seq<Cell>, p: Profile, c: Cell) { exists name :: SeatOfRow(cells, p, name, c) }

  lemma {:induction false} FirstLetter(cells: seq<Cell>, p: Profile)
    ensures var ls := LettersIn(cells, p);
            && (ls == [] <==> forall j :: 0 <= j < |cells| ==> !IsLetter(cells[j], p))
            && (ls != [] ==> ls[0].value.Words? && exists k :: LetterNames(cells, p, p.upper(p.strip(ls[0].value.s)), k))
  {
    hide IsLetter;
    if cells != [] {
      var front, c := cells[..|cells|-1], cells[|cells|-1];
      FirstLetter(front, p);
      var ls := LettersIn(front, p);
      if ls != [] {
        var name := p.upper(p.strip(ls[0].value.s));
        var k :| LetterNames(front, p, name, k);
        assert LetterNames(cells, p, name, k);
      } else if IsLetter(c, p) {
        LetterWords(c, p);
        assert LetterNames(cells, p, p.upper(p.strip(c.value.s)), |front|);
      }
    }
  }

  lemma {:induction false} LetterWords(c: Cell, p: Profile)
    requires IsLetter(c, p)
    ensures c.value.Words?
  {}

  lemma {:induction false} LettersOnce(cells: seq<Cell>, p: Profile, a: string, k: int, b: string, l: int)
    requires LetterNames(cells, p, a, k) && LetterNames(cells, p, b, l)
    ensures k == l && a == b
  {
    hide IsLetter;
  }

  /** The first and the last number of a row. */
  /** The first and the last number of a row stand at `k` and `l`. */
  predicate Ends(cells: seq<Cell>, ns: seq<Cell>, k: nat, l: nat) {
    && ns != [] && k <= l < |cells| && cells[k] == ns[0] && cells[l] == ns[|ns|-1] && IsNumber(cells[k]) && IsNumber(cells[l])
    && (k == l <==> |ns| == 1) && forall j :: 0 <= j < |cells| && (j < k || l < j) ==> !IsNumber(cells[j])
  }

  lemma {:induction false} EndsMore(front: seq<Cell>, ns: seq<Cell>, c: Cell, k: nat, l: nat)
    requires Ends(front, ns, k, l)
    ensures if IsNumber(c) then Ends(front + [c], ns + [c], k, |front|) else Ends(front + [c], ns, k, l)
  {
    hide IsNumber;
    var cells := front + [c];
    forall j | 0 <= j < |cells| && (j < k || (if IsNumber(c) then |front| else l) < j) ensures !IsNumber(cells[j]) {
      if j < |front| { assert cells[j] == front[j]; }
    }
  }

  predicate NoNumber(cells: seq<Cell>) { forall j :: 0 <= j < |cells| ==> !IsNumber(cells[j]) }

  lemma {:induction false} FirstEnd(front: seq<Cell>, c: Cell)
    requires NoNumber(front)
    ensures if IsNumber(c) then Ends(front + [c], [c], |front|, |front|) else NoNumber(front + [c])
  {
    hide IsNumber;
    var cells := front + [c];
    forall j | 0 <= j < |front| ensures !IsNumber(cells[j]) { assert cells[j] == front[j]; }
  }

  lemma {:induction false} NumericMore(front: seq<Cell>, c: Cell)
    ensures Numeric(front + [c]) == Numeric(front) + (if IsNumber(c) then [c] else [])
  {
    assert (front + [c])[..|front|] == front;
  }

  lemma {:induction false} NoneCounted()
    ensures Numeric([]) == [] && NoNumber([])
  {}

  lemma {:induction false} NumberEnds(cells: seq<Cell>)
    ensures if Numeric(cells) == [] then NoNumber(cells) else exists k: nat, l: nat :: Ends(cells, Numeric(cells), k, l)
  {
    hide IsNumber, Numeric, Ends, NoNumber;
    if cells == [] {
      NoneCounted();
    } else {
      var front, c := cells[..|cells|-1], cells[|cells|-1];
      assert cells == front + [c];
      NumberEnds(front);
      NumericMore(front, c);
      var ns := Numeric(front);
      if ns != [] {
        var k: nat, l: nat :| Ends(front, ns, k, l);
        EndsMore(front, ns, c, k, l);
        assert ns + [] == ns;
      } else {
        FirstEnd(front, c);
        assert ns + [c] == [c];
      }
    }
  }

  lemma {:induction false} LetterRow(cells: seq<Cell>, p: Profile, name: string, c: Cell)
    requires p.rows.Letters? && p.seats.Styles? && c in cells
    ensures SeatOfRow(cells, p, name, c) <==>
      var d := Detect(cells, p); d.Found? && d.name == name && IsCandidate(c, d.cells, p)
  {
    hide IsLetter, IsNumber, LettersIn, LetterNames;
    FirstLetter(cells, p);
    var ls := LettersIn(cells, p);
    if ls != [] {
      var n := p.upper(p.strip(ls[0].value.s));
      var k :| LetterNames(cells, p, n, k);
      forall b, l | LetterNames(cells, p, b, l) ensures b == n { LettersOnce(cells, p, n, k, b, l); }
    } else {
      NoLetterNames(cells, p, name);
    }
  }

  lemma {:induction false} NoLetterNames(cells: seq<Cell>, p: Profile, name: string)
    requires forall j :: 0 <= j < |cells| ==> !IsLetter(cells[j], p)
    ensures forall k :: !LetterNames(cells, p, name, k)
  {
    hide IsLetter;
  }

  lemma {:induction false} EdgesOnce(cells: seq<Cell>, p: Profile, a: string, k: int, l: int, b: string, k': int, l': int)
    requires EdgesName(cells, p, a, k, l) && EdgesName(cells, p, b, k', l')
    ensures k == k' && l == l' && a == b
  {}

  lemma {:induction false} EdgeRow(cells: seq<Cell>, p: Profile, name: string, c: Cell)
    requires p.rows.Edges? && p.seats.Between? && c in cells
    ensures SeatOfRow(cells, p, name, c) <==>
      var d := Detect(cells, p); d.Found? && d.name == name && IsCandidate(c, d.cells, p)
  {
    hide Numeric, EdgesName;
    NumberEnds(cells);
    var ns := Numeric(cells);
    if ns == [] {
      NoEdges(cells, p, name);
    } else {
      var k: nat, l: nat :| Ends(cells, ns, k, l);
      EdgesFound(cells, p, name, k, l);
      if k < l && cells[k].value == cells[l].value {
        var n := p.str(cells[k].value.v);
        EdgesFound(cells, p, n, k, l);
        forall b, k', l' | EdgesName(cells, p, b, k', l') ensures b == n && k' == k && l' == l { EdgesOnce(cells, p, n, k, l, b, k', l'); }
      }
    }
  }

  lemma {:induction false} NoEdges(cells: seq<Cell>, p: Profile, name: string)
    requires forall j :: 0 <= j < |cells| ==> !IsNumber(cells[j])
    ensures forall k, l :: !EdgesName(cells, p, name, k, l)
  {}

  /** The ends decide. */
  lemma {:induction false} EdgesFound(cells: seq<Cell>, p: Profile, name: string, k: int, l: int)
    requires 0 <= k <= l < |cells| && IsNumber(cells[k]) && IsNumber(cells[l])
    requires forall j :: 0 <= j < |cells| && (j < k || l < j) ==> !IsNumber(cells[j])
    ensures k < l && cells[k].value == cells[l].value && name == p.str(cells[k].value.v) ==> EdgesName(cells, p, name, k, l)
    ensures !(k < l && cells[k].value == cells[l].value) ==> forall k', l' :: !EdgesName(cells, p, name, k', l')
  {
    forall k', l' | EdgesName(cells, p, name, k', l') ensures k' == k && l' == l {
      assert !(k' < k) && !(k < k') && !(l < l') && !(l' < l);
    }
  }

  /** The seats of a row, by its own cells: for the shipped rules these and no others, under the name its markers give. */
  lemma {:induction false} SeatedExactly(cells: seq<Cell>, p: Profile, name: string, c: Cell)
    requires Shipped(p) && c in cells
    ensures SeatOfRow(cells, p, name, c) <==> Seated(cells, p, c) && Detect(cells, p).name == name
  {
    hide Detect, IsCandidate, SeatOfRow;
    if p.rows.Letters? { LetterRow(cells, p, name, c); } else { EdgeRow(cells, p, name, c); }
  }

  // ---- what a seat says ----

  /** The seat is made from a cell of the sheet, with the section and the row name its cell is under, and its whole number. */
  ghost predicate SeatOk(sheet: Sheet, p: Profile, s: Seat) {
    && OnSheet(sheet, s.cell) && Read(sheet, p, s.cell.row) && LabelOf(sheet, p, s.cell.row, s.section)
    && SeatOfRow(sheet[s.cell.row-1], p, s.row, s.cell)
    && s.number == if Whole(s.cell) then Some(s.cell.value.v.Floor) else None
  }

  /** The cells of a row that become seats, with one name. */
  ghost predicate RowSeatsOk(cells: seq<Cell>, p: Profile, section: Option<string>, seats: seq<Seat>) {
    forall i :: 0 <= i < |seats| ==>
      && seats[i].cell in cells && seats[i].section == section && SeatOfRow(cells, p, seats[i].row, seats[i].cell)
      && seats[i].number == if Whole(seats[i].cell) then Some(seats[i].cell.value.v.Floor) else None
  }

  lemma {:induction false} CandidatesAre(cells: seq<Cell>, m: seq<Cell>, p: Profile)
    ensures forall i :: 0 <= i < |Candidates(cells, m, p)| ==> Candidates(cells, m, p)[i] in cells && IsCandidate(Candidates(cells, m, p)[i], m, p)
  {
    hide IsCandidate;
    if cells != [] { CandidatesAre(cells[..|cells|-1], m, p); }
  }

  lemma {:induction false} RowSeats(cells: seq<Cell>, section: Option<string>, p: Profile)
    requires Shipped(p)
    ensures RowSeatsOk(cells, p, section, RowModel(cells, section, p).seats)
  {
    hide Candidates, Away, Unknown, Numeric, Detect, IsCandidate, SeatOfRow, Whole;
    var d := Detect(cells, p);
    if d.Found? {
      CandidatesAre(cells, d.cells, p);
      var cs := Candidates(cells, d.cells, p);
      forall i | 0 <= i < |cs| ensures SeatOfRow(cells, p, d.name, cs[i]) { SeatedExactly(cells, p, d.name, cs[i]); }
    }
  }

  /** All seats are of this section and of rows in this range. */
  ghost predicate RangeOk(sheet: Sheet, p: Profile, section: Option<string>, from: int, end: int, seats: seq<Seat>) {
    forall i :: 0 <= i < |seats| ==>
      && OnSheet(sheet, seats[i].cell) && from <= seats[i].cell.row < end && seats[i].section == section
      && SeatOfRow(sheet[seats[i].cell.row-1], p, seats[i].row, seats[i].cell)
      && seats[i].number == if Whole(seats[i].cell) then Some(seats[i].cell.value.v.Floor) else None
  }

  lemma {:induction false} RowRange(sheet: Sheet, p: Profile, section: Option<string>, r: int, seats: seq<Seat>)
    requires Grid(sheet) && 1 <= r <= |sheet| && RowSeatsOk(sheet[r-1], p, section, seats)
    ensures RangeOk(sheet, p, section, r, r + 1, seats)
  {
    hide SeatOfRow, Whole;
    forall i | 0 <= i < |seats| ensures OnSheet(sheet, seats[i].cell) && seats[i].cell.row == r {
      var k :| 0 <= k < |sheet[r-1]| && sheet[r-1][k] == seats[i].cell;
    }
  }

  lemma {:induction false} RangeConcat(sheet: Sheet, p: Profile, section: Option<string>, from: int, mid: int, end: int, a: seq<Seat>, b: seq<Seat>)
    requires RangeOk(sheet, p, section, from, mid, a) && RangeOk(sheet, p, section, mid, end, b) && from <= mid <= end
    ensures RangeOk(sheet, p, section, from, end, a + b)
  {
    hide SeatOfRow, Whole, OnSheet;
  }

  lemma {:induction false} RangeSeats(sheet: Sheet, from: int, end: int, section: Option<string>, p: Profile)
    requires Grid(sheet) && Shipped(p) && 1 <= from && end <= |sheet| + 1
    ensures RangeOk(sheet, p, section, from, end, RowsModel(sheet, from, end, section, p).seats)
    decreases end - from
  {
    hide RowModel, RangeOk, Grid;
    if end <= from {
      NoRange(sheet, p, section, from, end);
    } else {
      RangeSeats(sheet, from, end - 1, section, p);
      RowSeats(sheet[end-2], section, p);
      RowRange(sheet, p, section, end - 1, RowModel(sheet[end-2], section, p).seats);
      RangeConcat(sheet, p, section, from, end - 1, end, RowsModel(sheet, from, end - 1, section, p).seats, RowModel(sheet[end-2], section, p).seats);
    }
  }

  lemma {:induction false} NoRange(sheet: Sheet, p: Profile, section: Option<string>, from: int, end: int)
    ensures RangeOk(sheet, p, section, from, end, [])
  {}

  ghost predicate AllOk(sheet: Sheet, p: Profile, seats: seq<Seat>) {
    forall i :: 0 <= i < |seats| ==> SeatOk(sheet, p, seats[i])
  }

  /** A section's rows are read, under its name. */
  lemma {:induction false} SectionSeatsOk(sheet: Sheet, p: Profile, i: int, seats: seq<Seat>)
    requires Grid(sheet) && 0 <= i < |Sections(sheet, p)|
    requires var g := Sections(sheet, p)[i]; RangeOk(sheet, p, g.name, g.headerRow + 1, g.end, seats)
    ensures AllOk(sheet, p, seats)
  {
    hide SeatOfRow, Whole, Sections, Read, LabelOf;
    var ss := Sections(sheet, p);
    forall k | 0 <= k < |seats| ensures SeatOk(sheet, p, seats[k]) {
      var r := seats[k].cell.row;
      SectionsCover(sheet, p, r);
      assert Covers(ss, i, r);
    }
  }

  lemma {:induction false} FirstSections(sheet: Sheet, p: Profile, n: nat)
    requires Grid(sheet) && Shipped(p) && n <= |Sections(sheet, p)| && Apart(Sections(sheet, p)[..n], |sheet|) && Apart(Sections(sheet, p), |sheet|)
    ensures AllOk(sheet, p, SectionsModel(sheet, Sections(sheet, p)[..n], p).seats)
  {
    hide RowsModel, AllOk, Sections, Grid, RangeOk, SectionModel;
    var ss := Sections(sheet, p)[..n];
    if n == 0 {
      NoneOk(sheet, p);
    } else {
      var l := Sections(sheet, p)[n-1];
      assert ss[..n-1] == Sections(sheet, p)[..n-1];
      FirstSections(sheet, p, n - 1);
      RangeSeats(sheet, l.headerRow + 1, l.end, l.name, p);
      SectionSeats(sheet, l, p);
      SectionSeatsOk(sheet, p, n - 1, RowsModel(sheet, l.headerRow + 1, l.end, l.name, p).seats);
      OkConcat(sheet, p, SectionsModel(sheet, ss[..n-1], p).seats, SectionModel(sheet, l, p).seats);
    }
  }

  lemma {:induction false} NoneOk(sheet: Sheet, p: Profile)
    ensures AllOk(sheet, p, [])
  {}

  lemma {:induction false} OkConcat(sheet: Sheet, p: Profile, a: seq<Seat>, b: seq<Seat>)
    requires AllOk(sheet, p, a) && AllOk(sheet, p, b)
    ensures AllOk(sheet, p, a + b)
  {
    hide SeatOk;
  }

  /** Every seat of the model is right: its section is that of the last header above, its row that of its markers, its number that of its cell. */
  lemma {:induction false} SeatsAreRight(sheet: Sheet, p: Profile)
    requires Grid(sheet) && Shipped(p)
    ensures AllOk(sheet, p, WholeModel(sheet, p).seats)
  {
    hide SectionsModel, AllOk, Sections, Grid;
    SectionsApart(sheet, p);
    var ss := Sections(sheet, p);
    assert ss[..|ss|] == ss;
    FirstSections(sheet, p, |ss|);
  }

  /** And no seat is missing: a cell is a seat, once, if and only if its row is read and has it as a seat under some name. */
  lemma {:induction false} SeatsAreAll(sheet: Sheet, p: Profile, c: Cell)
    requires Grid(sheet) && Shipped(p) && OnSheet(sheet, c) && IsNumber(c)
    ensures SeatCount(WholeModel(sheet, p).seats, c) ==
            if Read(sheet, p, c.row) && SeatUnder(sheet[c.row-1], p, c) then 1 else 0
  {
    hide WholeModel, SeatOfRow, Read, Detect, IsCandidate, IsNumber, SeatCount, RejectCount;
    EveryNumber(sheet, p, c);
    var cells := sheet[c.row-1];
    assert c in cells;
    forall name ensures SeatOfRow(cells, p, name, c) <==> Seated(cells, p, c) && Detect(cells, p).name == name { SeatedExactly(cells, p, name, c); }
    if Seated(cells, p, c) { assert SeatOfRow(cells, p, Detect(cells, p).name, c); }
  }
}
