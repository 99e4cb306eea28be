// Seats out of a worksheet (apps/venue-svg-generator/xlsx_seating_adapter/core.py:69-188): sections by their header cells, rows by
// their markers, and every numeric cell of a covered row accounted for once.

module Seating {
  import opened Base

  datatype Value = Empty | Words(s: string) | Number(v: real) | Other

  datatype Cell = Cell(row: nat, col: nat, value: Value, style: int)

  /** The rows of the sheet; `sheet[r]` is worksheet row `r + 1`. */
  type Sheet = seq<seq<Cell>>

  predicate Grid(sheet: Sheet) {
    forall r, c :: 0 <= r < |sheet| && 0 <= c < |sheet[r]| ==> sheet[r][c].row == r + 1 && sheet[r][c].col == c + 1
  }

  datatype RowRule = Letters(allowed: set<string>) | Edges
  datatype SeatRule = Styles(ids: set<int>) | Between

  /** `strip` and `upper` are Python's own; `str` writes a number. */
  datatype Profile = Profile(labels: set<string>, rows: RowRule, seats: SeatRule,
                             strip: string -> string, upper: string -> string, str: real -> string)

  /** The two pairs of rules the shipped profiles use. */
  predicate Shipped(p: Profile) {
    (p.rows.Letters? && p.seats.Styles?) || (p.rows.Edges? && p.seats.Between?)
  }

  datatype Reason = ServiceOrMarker | RowLabel | SectionHeader | NoLetter | TooFewEdges | EdgesDisagree | NonNumericInside | UnknownNumber

  predicate Classified(r: Reason) { r == ServiceOrMarker || r == RowLabel || r == SectionHeader }

  datatype Rejected = Rejected(cell: Cell, reason: Reason)

  datatype Section = Section(name: Option<string>, header: Option<Cell>, headerRow: int, end: int)

  datatype Seat = Seat(cell: Cell, section: Option<string>, row: string, number: Option<int>)

  predicate IsNumber(c: Cell) { c.value.Number? }

  // ---- sections ----

  predicate IsHeader(c: Cell, p: Profile) {
    c.value.Words? && p.upper(p.strip(c.value.s)) in p.labels
  }

  function HeadersIn(cells: seq<Cell>, p: Profile): seq<Cell> {
    if cells == [] then []
    else HeadersIn(cells[..|cells|-1], p) + (if IsHeader(cells[|cells|-1], p) then [cells[|cells|-1]] else [])
  }

  function Headers(sheet: Sheet, p: Profile): seq<Cell> {
    if sheet == [] then [] else Headers(sheet[..|sheet|-1], p) + HeadersIn(sheet[|sheet|-1], p)
  }

  /** A section reaches from its header to the next one, or to the end of the sheet. */
  function SectionAt(hs: seq<Cell>, i: nat, rows: nat, p: Profile): Section
    requires i < |hs|
  {
    Section(if hs[i].value.Words? then Some(p.strip(hs[i].value.s)) else None, Some(hs[i]), hs[i].row,
            if i + 1 < |hs| then hs[i+1].row else rows + 1)
  }

  function Sections(sheet: Sheet, p: Profile): seq<Section> {
    var hs := Headers(sheet, p);
    if hs == [] then [Section(None, None, 0, |sheet| + 1)]
    else seq(|hs|, i requires 0 <= i < |hs| => SectionAt(hs, i, |sheet|, p))
  }

  // ---- one row ----

  function Numeric(cells: seq<Cell>): seq<Cell> {
    if cells == [] then [] else Numeric(cells[..|cells|-1]) + (if IsNumber(cells[|cells|-1]) then [cells[|cells|-1]] else [])
  }

  predicate IsLetter(c: Cell, p: Profile) {
    && p.rows.Letters? && c.value.Words? && |p.strip(c.value.s)| == 1 && p.upper(p.strip(c.value.s)) in p.rows.allowed
  }

  function LettersIn(cells: seq<Cell>, p: Profile): seq<Cell> {
    if cells == [] then [] else LettersIn(cells[..|cells|-1], p) + (if IsLetter(cells[|cells|-1], p) then [cells[|cells|-1]] else [])
  }

  datatype Markers = Found(name: string, cells: seq<Cell>) | Missing(reason: Reason)

  function Detect(cells: seq<Cell>, p: Profile): Markers {
    match p.rows
    case Letters(_) =>
      var ls := LettersIn(cells, p);
      if ls == [] then Missing(NoLetter)
      else Found(if ls[0].value.Words? then p.upper(p.strip(ls[0].value.s)) else "", ls)
    case Edges =>
      var ns := Numeric(cells);
      if |ns| < 2 then Missing(TooFewEdges)
      else if ns[0].value != ns[|ns|-1].value then Missing(EdgesDisagree)
      else Found(if ns[0].value.Number? then p.str(ns[0].value.v) else "", [ns[0], ns[|ns|-1]])
  }

  predicate Inside(c: Cell, m: seq<Cell>) {
    m != [] && m[0].col < c.col < m[|m|-1].col
  }

  /** The cells of the row that become seats. */
  predicate IsCandidate(c: Cell, m: seq<Cell>, p: Profile) {
    IsNumber(c) && match p.seats case Styles(ids) => c.style in ids case Between => Inside(c, m)
  }

  function Candidates(cells: seq<Cell>, m: seq<Cell>, p: Profile): seq<Cell> {
    if cells == [] then []
    else Candidates(cells[..|cells|-1], m, p) + (if IsCandidate(cells[|cells|-1], m, p) then [cells[|cells|-1]] else [])
  }

  /** The cells the seat rule turns away, with its reason. */
  function TurnedAway(c: Cell, m: seq<Cell>, p: Profile): Option<Reason> {
    match p.seats
    case Styles(ids) => if IsNumber(c) && c.style !in ids then Some(ServiceOrMarker) else None
    case Between => if Inside(c, m) && !c.value.Empty? && !IsNumber(c) then Some(NonNumericInside) else None
  }

  function Away(cells: seq<Cell>, m: seq<Cell>, p: Profile): seq<Rejected> {
    if cells == [] then []
    else
      var c := cells[|cells|-1];
      Away(cells[..|cells|-1], m, p) + (if TurnedAway(c, m, p).Some? then [Rejected(c, TurnedAway(c, m, p).value)] else [])
  }

  function Marked(cells: seq<Cell>, reason: Reason): seq<Rejected> {
    seq(|cells|, i requires 0 <= i < |cells| => Rejected(cells[i], reason))
  }

  predicate Whole(c: Cell) { c.value.Number? && c.value.v == c.value.v.Floor as real }

  function SeatOf(c: Cell, section: Option<string>, name: string): Seat {
    Seat(c, section, name, if Whole(c) then Some(c.value.v.Floor) else None)
  }

  function Seats(cells: seq<Cell>, section: Option<string>, name: string): seq<Seat> {
    seq(|cells|, i requires 0 <= i < |cells| => SeatOf(cells[i], section, name))
  }

  function Unknown(cells: seq<Cell>): seq<Rejected> {
    if cells == [] then []
    else Unknown(cells[..|cells|-1]) + (if Whole(cells[|cells|-1]) then [] else [Rejected(cells[|cells|-1], UnknownNumber)])
  }

  datatype Model = Model(seats: seq<Seat>, rejected: seq<Rejected>)

  function Plus(a: Model, b: Model): Model { Model(a.seats + b.seats, a.rejected + b.rejected) }

  const NOTHING := Model([], [])

  function RowModel(cells: seq<Cell>, section: Option<string>, p: Profile): Model {
    match Detect(cells, p)
    case Missing(reason) => Model([], Marked(Numeric(cells), reason))
    case Found(name, m) =>
      var cs := Candidates(cells, m, p);
      Model(Seats(cs, section, name), Away(cells, m, p) + Marked(m, RowLabel) + Unknown(cs))
  }

  // ---- the sheet ----

  /** Rows `from` up to `end` (worksheet numbers), as one section. */
  function RowsModel(sheet: Sheet, from: int, end: int, section: Option<string>, p: Profile): Model
    requires 1 <= from && end <= |sheet| + 1
    decreases end - from
  {
    if end <= from then NOTHING
    else Plus(RowsModel(sheet, from, end - 1, section, p), RowModel(sheet[end-2], section, p))
  }

  function SectionModel(sheet: Sheet, s: Section, p: Profile): Model
    requires 0 <= s.headerRow && s.end <= |sheet| + 1
  {
    Plus(Model([], if s.header.Some? then [Rejected(s.header.value, SectionHeader)] else []),
         RowsModel(sheet, s.headerRow + 1, s.end, s.name, p))
  }

  function SectionsModel(sheet: Sheet, ss: seq<Section>, p: Profile): Model
    requires forall i :: 0 <= i < |ss| ==> 0 <= ss[i].headerRow && ss[i].end <= |sheet| + 1
  {
    if ss == [] then NOTHING
    else Plus(SectionsModel(sheet, ss[..|ss|-1], p), SectionModel(sheet, ss[|ss|-1], p))
  }

  // ---- sections lie one after the other ----

  predicate Ascending(hs: seq<Cell>) {
    forall i, j :: 0 <= i < j < |hs| ==> hs[i].row <= hs[j].row
  }

  predicate RowsIn(hs: seq<Cell>, lo: int, hi: int) {
    forall i :: 0 <= i < |hs| ==> lo <= hs[i].row <= hi
  }

  lemma {:induction false} HeadersOfRow(cells: seq<Cell>, p: Profile, row: nat)
    requires forall c :: 0 <= c < |cells| ==> cells[c].row == row
    ensures RowsIn(HeadersIn(cells, p), row, row) && Ascending(HeadersIn(cells, p))
  {
    hide IsHeader;
    if cells != [] { HeadersOfRow(cells[..|cells|-1], p, row); }
  }

  lemma {:induction false} HeadersAscend(sheet: Sheet, p: Profile)
    requires Grid(sheet)
    ensures Ascending(Headers(sheet, p)) && RowsIn(Headers(sheet, p), 1, |sheet|)
  {
    hide HeadersIn;
    if sheet != [] {
      var n := |sheet| - 1;
      HeadersAscend(sheet[..n], p);
      HeadersOfRow(sheet[n], p, n + 1);
    }
  }

  /** The ranges of rows are within the sheet and follow one another: no row belongs to two sections. */
  predicate Apart(ss: seq<Section>, rows: nat) {
    && (forall i :: 0 <= i < |ss| ==> 0 <= ss[i].headerRow && ss[i].end <= rows + 1)
    && forall i, j :: 0 <= i < j < |ss| ==> ss[i].headerRow <= ss[j].headerRow && ss[i].end <= ss[j].headerRow
  }

  lemma {:induction false} SectionsApart(sheet: Sheet, p: Profile)
    requires Grid(sheet)
    ensures Apart(Sections(sheet, p), |sheet|)
  {
    hide Headers;
    HeadersAscend(sheet, p);
  }

  // ---- seats in reading order ----

  predicate CellBefore(a: Cell, b: Cell) { a.row < b.row || (a.row == b.row && a.col < b.col) }

  /** Each seat stands after the one before it: so no cell, and no key made from it, comes twice. */
  predicate InOrder(seats: seq<Seat>) {
    forall i, j :: 0 <= i < j < |seats| ==> CellBefore(seats[i].cell, seats[j].cell)
  }

  predicate SeatRows(seats: seq<Seat>, lo: int, hi: int) {
    forall i :: 0 <= i < |seats| ==> lo <= seats[i].cell.row < hi
  }

  /** A row of the sheet: its cells stand in one row, in the order of their columns. */
  predicate IsRow(cells: seq<Cell>, row: nat) {
    forall c :: 0 <= c < |cells| ==> cells[c].row == row && cells[c].col == c + 1
  }

  /** Cells of one row up to a column, in the order of their columns. */
  predicate Rising(cs: seq<Cell>, row: nat, n: nat) {
    && (forall i :: 0 <= i < |cs| ==> cs[i].row == row && cs[i].col <= n)
    && forall i, j :: 0 <= i < j < |cs| ==> cs[i].col < cs[j].col
  }

  lemma {:induction false} RisingSnoc(cs: seq<Cell>, row: nat, n: nat, c: Cell)
    requires Rising(cs, row, n) && c.row == row && c.col == n + 1
    ensures Rising(cs + [c], row, n + 1) && Rising(cs, row, n + 1)
  {}

  lemma {:induction false} RowFront(cells: seq<Cell>, row: nat)
    requires IsRow(cells, row) && cells != []
    ensures IsRow(cells[..|cells|-1], row) && cells[|cells|-1].row == row && cells[|cells|-1].col == |cells|
  {}

  lemma {:induction false} CandidatesInOrder(cells: seq<Cell>, m: seq<Cell>, p: Profile, row: nat)
    requires IsRow(cells, row)
    ensures Rising(Candidates(cells, m, p), row, |cells|)
  {
    hide IsCandidate, Rising, IsRow;
    if cells == [] {
      NothingRises(row);
    } else {
      var front := cells[..|cells|-1];
      RowFront(cells, row);
      CandidatesInOrder(front, m, p, row);
      RisingSnoc(Candidates(front, m, p), row, |front|, cells[|cells|-1]);
      assert Candidates(front, m, p) + [] == Candidates(front, m, p);
    }
  }

  lemma {:induction false} NothingRises(row: nat)
    ensures Rising([], row, 0)
  {}

  lemma {:induction false} RisingSeats(cs: seq<Cell>, row: nat, n: nat, section: Option<string>, name: string)
    requires Rising(cs, row, n)
    ensures InOrder(Seats(cs, section, name)) && SeatRows(Seats(cs, section, name), row, row + 1)
  {
    hide Whole;
  }

  lemma {:induction false} RowInOrder(cells: seq<Cell>, section: Option<string>, p: Profile, row: nat)
    requires IsRow(cells, row)
    ensures var s := RowModel(cells, section, p).seats; InOrder(s) && SeatRows(s, row, row + 1)
  {
    hide Candidates, Away, Unknown, Numeric, LettersIn, Detect, InOrder, SeatRows, Seats, Rising;
    var d := Detect(cells, p);
    if d.Found? {
      CandidatesInOrder(cells, d.cells, p, row);
      RisingSeats(Candidates(cells, d.cells, p), row, |cells|, section, d.name);
    } else {
      NoSeats(row, row + 1);
    }
  }

  lemma {:induction false} OrderConcat(a: seq<Seat>, b: seq<Seat>, lo: int, mid: int, hi: int)
    requires InOrder(a) && InOrder(b) && SeatRows(a, lo, mid) && SeatRows(b, mid, hi) && lo <= mid <= hi
    ensures InOrder(a + b) && SeatRows(a + b, lo, hi)
  {}

  lemma {:induction false} RowsInOrder(sheet: Sheet, from: int, end: int, section: Option<string>, p: Profile)
    requires Grid(sheet) && 1 <= from && end <= |sheet| + 1
    ensures var s := RowsModel(sheet, from, end, section, p).seats; InOrder(s) && (from <= end ==> SeatRows(s, from, end))
    ensures end <= from ==> RowsModel(sheet, from, end, section, p).seats == []
    decreases end - from
  {
    hide RowModel, InOrder, SeatRows;
    if end <= from {
      NoSeats(from, end);
    } else {
      RowsInOrder(sheet, from, end - 1, section, p);
      RowInOrder(sheet[end-2], section, p, end - 1);
      OrderConcat(RowsModel(sheet, from, end - 1, section, p).seats, RowModel(sheet[end-2], section, p).seats, from, end - 1, end);
    }
  }

  lemma {:induction false} NoSeats(lo: int, hi: int)
    ensures InOrder([]) && SeatRows([], lo, hi)
  {}

  /** The seats of the sections read before row `hi`. */
  lemma {:induction false} SectionsInOrder(sheet: Sheet, ss: seq<Section>, p: Profile, hi: int)
    requires Grid(sheet) && Apart(ss, |sheet|) && 0 <= hi && (ss != [] ==> ss[|ss|-1].end <= hi && ss[|ss|-1].headerRow < hi)
    ensures var s := SectionsModel(sheet, ss, p).seats; InOrder(s) && SeatRows(s, 0, hi)
    decreases |ss|
  {
    hide RowsModel, InOrder, SeatRows, SectionModel, Grid;
    if ss == [] {
      NoSeats(0, hi);
    } else {
      var front, l := ss[..|ss|-1], ss[|ss|-1];
      LastBefore(ss, |sheet|);
      SectionsInOrder(sheet, front, p, l.headerRow + 1);
      RowsInOrder(sheet, l.headerRow + 1, l.end, l.name, p);
      NoSeats(l.headerRow + 1, hi);
      SeatsUpTo(RowsModel(sheet, l.headerRow + 1, l.end, l.name, p).seats, l.headerRow + 1, l.end, hi);
      SectionSeats(sheet, l, p);
      OrderConcat(SectionsModel(sheet, front, p).seats, SectionModel(sheet, l, p).seats, 0, l.headerRow + 1, hi);
    }
  }

  lemma {:induction false} LastBefore(ss: seq<Section>, rows: nat)
    requires Apart(ss, rows) && ss != []
    ensures var front, l := ss[..|ss|-1], ss[|ss|-1];
            Apart(front, rows) && 0 <= l.headerRow && (front != [] ==> front[|front|-1].end <= l.headerRow && front[|front|-1].headerRow <= l.headerRow)
  {}

  lemma {:induction false} SeatsUpTo(s: seq<Seat>, lo: int, mid: int, hi: int)
    requires mid <= hi && (if lo <= mid then SeatRows(s, lo, mid) else s == [])
    ensures SeatRows(s, lo, hi)
  {}

  lemma {:induction false} SectionSeats(sheet: Sheet, s: Section, p: Profile)
    requires 0 <= s.headerRow && s.end <= |sheet| + 1
    ensures SectionModel(sheet, s, p).seats == RowsModel(sheet, s.headerRow + 1, s.end, s.name, p).seats
  {
    assert [] + RowsModel(sheet, s.headerRow + 1, s.end, s.name, p).seats == RowsModel(sheet, s.headerRow + 1, s.end, s.name, p).seats;
  }

  function WholeModel(sheet: Sheet, p: Profile): Model
    requires Grid(sheet)
  {
    SectionsApart(sheet, p);
    SectionsModel(sheet, Sections(sheet, p), p)
  }

  /** No cell gives two seats, whatever the sections: their keys never repeat. */
  lemma {:induction false} SeatsInOrder(sheet: Sheet, p: Profile)
    requires Grid(sheet)
    ensures InOrder(WholeModel(sheet, p).seats)
  {
    hide SectionsModel, InOrder, Headers;
    SectionsApart(sheet, p);
    HeadersAscend(sheet, p);
    SectionsInOrder(sheet, Sections(sheet, p), p, |sheet| + 1);
  }

  // ---- every numeric cell once ----

  /** How often a cell was made a seat, and how often it was put aside. */
  function SeatCount(seats: seq<Seat>, c: Cell): nat {
    if seats == [] then 0 else SeatCount(seats[..|seats|-1], c) + (if seats[|seats|-1].cell == c then 1 else 0)
  }

  function RejectCount(rs: seq<Rejected>, c: Cell): nat {
    if rs == [] then 0 else RejectCount(rs[..|rs|-1], c) + (if rs[|rs|-1].cell == c then 1 else 0)
  }

  /** The cell is `s` times a seat and `r` times put aside. */
  predicate Counts(m: Model, c: Cell, s: nat, r: nat) { SeatCount(m.seats, c) == s && RejectCount(m.rejected, c) == r }

  lemma {:induction false} SeatCountConcat(a: seq<Seat>, b: seq<Seat>, c: Cell)
    ensures SeatCount(a + b, c) == SeatCount(a, c) + SeatCount(b, c)
  {
    if b == [] {
      assert a + b == a;
    } else {
      SeatCountConcat(a, b[..|b|-1], c);
      assert (a + b)[..|a + b|-1] == a + b[..|b|-1];
    }
  }

  lemma {:induction false} RejectCountConcat(a: seq<Rejected>, b: seq<Rejected>, c: Cell)
    ensures RejectCount(a + b, c) == RejectCount(a, c) + RejectCount(b, c)
  {
    if b == [] {
      assert a + b == a;
    } else {
      RejectCountConcat(a, b[..|b|-1], c);
      assert (a + b)[..|a + b|-1] == a + b[..|b|-1];
    }
  }

  lemma {:induction false} CountsPlus(a: Model, b: Model, c: Cell, s: nat, r: nat, t: nat, q: nat)
    requires Counts(a, c, s, r) && Counts(b, c, t, q)
    ensures Counts(Plus(a, b), c, s + t, r + q)
  {
    SeatCountConcat(a.seats, b.seats, c);
    RejectCountConcat(a.rejected, b.rejected, c);
  }

  function CellCount(cells: seq<Cell>, c: Cell): nat {
    if cells == [] then 0 else CellCount(cells[..|cells|-1], c) + (if cells[|cells|-1] == c then 1 else 0)
  }

  lemma {:induction false} MarkedCount(cells: seq<Cell>, reason: Reason, c: Cell)
    ensures RejectCount(Marked(cells, reason), c) == CellCount(cells, c)
  {
    if cells != [] {
      MarkedCount(cells[..|cells|-1], reason, c);
      assert Marked(cells, reason)[..|cells|-1] == Marked(cells[..|cells|-1], reason);
    }
  }

  lemma {:induction false} SeatsCount(cells: seq<Cell>, section: Option<string>, name: string, c: Cell)
    ensures SeatCount(Seats(cells, section, name), c) == CellCount(cells, c)
  {
    if cells != [] {
      SeatsCount(cells[..|cells|-1], section, name, c);
      assert Seats(cells, section, name)[..|cells|-1] == Seats(cells[..|cells|-1], section, name);
    }
  }

  lemma {:induction false} NumericCount(cells: seq<Cell>, c: Cell)
    ensures CellCount(Numeric(cells), c) == if IsNumber(c) then CellCount(cells, c) else 0
  {
    if cells != [] {
      NumericCount(cells[..|cells|-1], c);
      CellCountConcat(Numeric(cells[..|cells|-1]), if IsNumber(cells[|cells|-1]) then [cells[|cells|-1]] else [], c);
      OneCell(cells[|cells|-1], c);
    }
  }

  lemma {:induction false} CellCountConcat(a: seq<Cell>, b: seq<Cell>, c: Cell)
    ensures CellCount(a + b, c) == CellCount(a, c) + CellCount(b, c)
  {
    if b == [] {
      assert a + b == a;
    } else {
      CellCountConcat(a, b[..|b|-1], c);
      assert (a + b)[..|a + b|-1] == a + b[..|b|-1];
    }
  }

  lemma {:induction false} OneCell(d: Cell, c: Cell)
    ensures CellCount([d], c) == (if d == c then 1 else 0) && CellCount([], c) == 0
  {
    assert [d][..0] == [];
  }

  lemma {:induction false} CandidatesCount(cells: seq<Cell>, m: seq<Cell>, p: Profile, c: Cell)
    ensures CellCount(Candidates(cells, m, p), c) == if IsCandidate(c, m, p) then CellCount(cells, c) else 0
  {
    hide IsCandidate;
    if cells != [] {
      var d := cells[|cells|-1];
      CandidatesCount(cells[..|cells|-1], m, p, c);
      CellCountConcat(Candidates(cells[..|cells|-1], m, p), if IsCandidate(d, m, p) then [d] else [], c);
      OneCell(d, c);
    }
  }

  lemma {:induction false} AwayCount(cells: seq<Cell>, m: seq<Cell>, p: Profile, c: Cell)
    ensures RejectCount(Away(cells, m, p), c) == if TurnedAway(c, m, p).Some? then CellCount(cells, c) else 0
  {
    hide TurnedAway;
    if cells != [] {
      var d := cells[|cells|-1];
      AwayCount(cells[..|cells|-1], m, p, c);
      var one := if TurnedAway(d, m, p).Some? then [Rejected(d, TurnedAway(d, m, p).value)] else [];
      RejectCountConcat(Away(cells[..|cells|-1], m, p), one, c);
      OneReject(one, c);
    }
  }

  lemma {:induction false} OneReject(one: seq<Rejected>, c: Cell)
    requires |one| <= 1
    ensures RejectCount(one, c) == if one != [] && one[0].cell == c then 1 else 0
  {
    if one != [] { assert one[..0] == []; }
  }

  lemma {:induction false} UnknownCount(cells: seq<Cell>, c: Cell)
    ensures RejectCount(Unknown(cells), c) == if Whole(c) then 0 else CellCount(cells, c)
  {
    hide Whole;
    if cells != [] {
      var d := cells[|cells|-1];
      UnknownCount(cells[..|cells|-1], c);
      var one := if Whole(d) then [] else [Rejected(d, UnknownNumber)];
      RejectCountConcat(Unknown(cells[..|cells|-1]), one, c);
      OneReject(one, c);
    }
  }

  // ---- the markers of a row ----

  /** The numeric cells of a row are in the order of its columns. */
  lemma {:induction false} NumericInOrder(cells: seq<Cell>, row: nat)
    requires IsRow(cells, row)
    ensures Rising(Numeric(cells), row, |cells|)
  {
    hide IsNumber, Rising, IsRow;
    if cells == [] {
      NothingRises(row);
    } else {
      var front := cells[..|cells|-1];
      RowFront(cells, row);
      NumericInOrder(front, row);
      RisingSnoc(Numeric(front), row, |front|, cells[|cells|-1]);
      assert Numeric(front) + [] == Numeric(front);
    }
  }

  lemma {:induction false} NumericHas(cells: seq<Cell>, c: Cell)
    requires c in cells && IsNumber(c)
    ensures c in Numeric(cells)
  {
    if c != cells[|cells|-1] { NumericHas(cells[..|cells|-1], c); }
  }

  lemma {:induction false} LettersAreWords(cells: seq<Cell>, p: Profile, c: Cell)
    requires IsNumber(c)
    ensures CellCount(LettersIn(cells, p), c) == 0
  {
    if cells != [] {
      LettersAreWords(cells[..|cells|-1], p, c);
      CellCountConcat(LettersIn(cells[..|cells|-1], p), if IsLetter(cells[|cells|-1], p) then [cells[|cells|-1]] else [], c);
      OneCell(cells[|cells|-1], c);
    }
  }

  lemma {:induction false} RowCells(cells: seq<Cell>, row: nat, c: Cell)
    requires IsRow(cells, row) && c in cells
    ensures CellCount(cells, c) == 1
  {
    var k :| 0 <= k < |cells| && cells[k] == c;
    CountsOnce(cells, row, k);
  }

  lemma {:induction false} CountsOnce(cells: seq<Cell>, row: nat, k: nat)
    requires IsRow(cells, row) && k < |cells|
    ensures CellCount(cells, cells[k]) == 1
    decreases |cells|
  {
    var n := |cells| - 1;
    if k < n {
      CountsOnce(cells[..n], row, k);
    } else {
      CountsNone(cells[..n], cells[n]);
    }
  }

  lemma {:induction false} CountsNone(cells: seq<Cell>, c: Cell)
    requires forall i :: 0 <= i < |cells| ==> cells[i] != c
    ensures CellCount(cells, c) == 0
  {
    if cells != [] { CountsNone(cells[..|cells|-1], c); }
  }

  /** With edge markers, a numeric cell of the row is an edge or lies between the edges, never both. */
  lemma {:induction false} EdgeOrInside(cells: seq<Cell>, row: nat, c: Cell)
    requires IsRow(cells, row) && c in cells && IsNumber(c) && |Numeric(cells)| >= 2
    ensures var ns := Numeric(cells); var m := [ns[0], ns[|ns|-1]];
            CellCount(m, c) == if Inside(c, m) then 0 else 1
  {
    hide IsNumber;
    var ns := Numeric(cells);
    NumericInOrder(cells, row);
    NumericHas(cells, c);
    var k :| 0 <= k < |ns| && ns[k] == c;
    var m := [ns[0], ns[|ns|-1]];
    assert m == [ns[0]] + [ns[|ns|-1]];
    CellCountConcat([ns[0]], [ns[|ns|-1]], c);
    OneCell(ns[0], c);
    OneCell(ns[|ns|-1], c);
  }

  // ---- one row accounts for its numeric cells ----

  lemma {:induction false} FoundCounts(cells: seq<Cell>, section: Option<string>, p: Profile, c: Cell)
    requires Detect(cells, p).Found?
    ensures var m := Detect(cells, p).cells; var n := CellCount(Candidates(cells, m, p), c);
            Counts(RowModel(cells, section, p), c, n, RejectCount(Away(cells, m, p), c) + CellCount(m, c) + (if Whole(c) then 0 else n))
  {
    hide Candidates, Away, Unknown, Numeric, LettersIn, Detect, Seats, Marked, SeatCount, RejectCount, CellCount, Whole;
    var d := Detect(cells, p);
    var m := d.cells;
    var cs := Candidates(cells, m, p);
    SeatsCount(cs, section, d.name, c);
    RejectCountConcat(Away(cells, m, p) + Marked(m, RowLabel), Unknown(cs), c);
    RejectCountConcat(Away(cells, m, p), Marked(m, RowLabel), c);
    MarkedCount(m, RowLabel, c);
    UnknownCount(cs, c);
  }

  /** The cell becomes a seat. */
  predicate Seated(cells: seq<Cell>, p: Profile, c: Cell) {
    Detect(cells, p).Found? && IsCandidate(c, Detect(cells, p).cells, p)
  }

  /** How often the cell is put aside: once, or not at all when it is a seat with a whole number. */
  function Aside(cells: seq<Cell>, p: Profile, c: Cell): nat {
    if Seated(cells, p, c) && Whole(c) then 0 else 1
  }

  function SeatedTimes(cells: seq<Cell>, p: Profile, c: Cell): nat { if Seated(cells, p, c) then 1 else 0 }

  lemma {:induction false} RowAccounts(cells: seq<Cell>, section: Option<string>, p: Profile, row: nat, c: Cell)
    requires IsRow(cells, row) && c in cells && IsNumber(c) && Shipped(p)
    ensures Counts(RowModel(cells, section, p), c, SeatedTimes(cells, p, c), Aside(cells, p, c))
  {
    hide Candidates, Away, Unknown, Numeric, LettersIn, Seats, Marked, SeatCount, RejectCount, CellCount, Whole, IsRow;
    RowCells(cells, row, c);
    match Detect(cells, p)
    case Missing(reason) =>
      MissingCounts(cells, section, p, c);
      NumericCount(cells, c);
    case Found(_, m) =>
      FoundCounts(cells, section, p, c);
      CandidatesCount(cells, m, p, c);
      AwayCount(cells, m, p, c);
      if p.rows.Letters? { LettersAreWords(cells, p, c); } else { EdgeOrInside(cells, row, c); }
  }

  lemma {:induction false} MissingCounts(cells: seq<Cell>, section: Option<string>, p: Profile, c: Cell)
    requires Detect(cells, p).Missing?
    ensures Counts(RowModel(cells, section, p), c, 0, CellCount(Numeric(cells), c))
  {
    hide Numeric, Marked, Detect, CellCount;
    MarkedCount(Numeric(cells), Detect(cells, p).reason, c);
    assert SeatCount([], c) == 0;
  }

  /** A row says nothing of the cells of other rows. */
  lemma {:induction false} RowElsewhere(cells: seq<Cell>, section: Option<string>, p: Profile, row: nat, c: Cell)
    requires IsRow(cells, row) && c.row != row
    ensures Counts(RowModel(cells, section, p), c, 0, 0)
  {
    hide Candidates, Away, Unknown, Numeric, Seats, Marked, SeatCount, RejectCount, Whole, LettersIn;
    CountsNone(cells, c);
    match Detect(cells, p)
    case Missing(_) =>
      MissingCounts(cells, section, p, c);
      NumericCount(cells, c);
    case Found(_, m) =>
      FoundCounts(cells, section, p, c);
      CandidatesCount(cells, m, p, c);
      AwayCount(cells, m, p, c);
      MarkersCount(cells, p, c);
  }

  /** The markers are cells of the row. */
  lemma {:induction false} MarkersCount(cells: seq<Cell>, p: Profile, c: Cell)
    requires Detect(cells, p).Found? && CellCount(cells, c) == 0
    ensures CellCount(Detect(cells, p).cells, c) == 0
  {
    hide CellCount, Numeric, LettersIn;
    if p.rows.Letters? {
      LettersFrom(cells, p, c);
    } else {
      var ns := Numeric(cells);
      NumericCount(cells, c);
      NotAmong(ns, 0, c);
      NotAmong(ns, |ns| - 1, c);
      assert [ns[0], ns[|ns|-1]] == [ns[0]] + [ns[|ns|-1]];
      CellCountConcat([ns[0]], [ns[|ns|-1]], c);
      OneCell(ns[0], c);
      OneCell(ns[|ns|-1], c);
    }
  }

  lemma {:induction false} NotAmong(cells: seq<Cell>, i: nat, c: Cell)
    requires i < |cells| && CellCount(cells, c) == 0
    ensures cells[i] != c
    decreases |cells|
  {
    if i < |cells| - 1 { NotAmong(cells[..|cells|-1], i, c); }
  }

  lemma {:induction false} LettersFrom(cells: seq<Cell>, p: Profile, c: Cell)
    ensures CellCount(LettersIn(cells, p), c) <= CellCount(cells, c)
  {
    hide IsLetter;
    if cells != [] {
      LettersFrom(cells[..|cells|-1], p, c);
      CellCountConcat(LettersIn(cells[..|cells|-1], p), if IsLetter(cells[|cells|-1], p) then [cells[|cells|-1]] else [], c);
      OneCell(cells[|cells|-1], c);
    }
  }

  // ---- the whole sheet accounts for them ----

  lemma {:induction false} GridRow(sheet: Sheet, r: int)
    requires Grid(sheet) && 1 <= r <= |sheet|
    ensures IsRow(sheet[r-1], r)
  {}

  lemma {:induction false} RowsElsewhere(sheet: Sheet, from: int, end: int, section: Option<string>, p: Profile, c: Cell)
    requires Grid(sheet) && 1 <= from && end <= |sheet| + 1 && !(from <= c.row < end)
    ensures Counts(RowsModel(sheet, from, end, section, p), c, 0, 0)
    decreases end - from
  {
    hide RowModel, Counts, IsRow;
    if end <= from {
      NoCounts(c);
    } else {
      RowsElsewhere(sheet, from, end - 1, section, p, c);
      GridRow(sheet, end - 1);
      RowElsewhere(sheet[end-2], section, p, end - 1, c);
      CountsPlus(RowsModel(sheet, from, end - 1, section, p), RowModel(sheet[end-2], section, p), c, 0, 0, 0, 0);
    }
  }

  lemma {:induction false} NoCounts(c: Cell)
    ensures Counts(NOTHING, c, 0, 0)
  {}

  lemma {:induction false} RowsAccount(sheet: Sheet, from: int, end: int, section: Option<string>, p: Profile, c: Cell)
    requires Grid(sheet) && 1 <= from <= c.row < end <= |sheet| + 1 && c in sheet[c.row-1] && IsNumber(c) && Shipped(p)
    ensures Counts(RowsModel(sheet, from, end, section, p), c, SeatedTimes(sheet[c.row-1], p, c), Aside(sheet[c.row-1], p, c))
    decreases end - from
  {
    hide RowModel, Counts, SeatedTimes, Aside, IsRow, Grid;
    var s, r := SeatedTimes(sheet[c.row-1], p, c), Aside(sheet[c.row-1], p, c);
    GridRow(sheet, end - 1);
    if c.row == end - 1 {
      RowsElsewhere(sheet, from, end - 1, section, p, c);
      RowAccounts(sheet[end-2], section, p, end - 1, c);
      CountsPlus(RowsModel(sheet, from, end - 1, section, p), RowModel(sheet[end-2], section, p), c, 0, 0, s, r);
    } else {
      RowsAccount(sheet, from, end - 1, section, p, c);
      RowElsewhere(sheet[end-2], section, p, end - 1, c);
      CountsPlus(RowsModel(sheet, from, end - 1, section, p), RowModel(sheet[end-2], section, p), c, s, r, 0, 0);
    }
  }

  /** The row of `c` belongs to section `i`. */
  predicate Covered(ss: seq<Section>, i: nat, c: Cell) {
    i < |ss| && ss[i].headerRow < c.row < ss[i].end
  }

  lemma {:induction false} SectionCounts(sheet: Sheet, g: Section, p: Profile, c: Cell, s: nat, r: nat)
    requires 0 <= g.headerRow && g.end <= |sheet| + 1 && IsNumber(c) && (g.header.Some? ==> !IsNumber(g.header.value))
    requires Counts(RowsModel(sheet, g.headerRow + 1, g.end, g.name, p), c, s, r)
    ensures Counts(SectionModel(sheet, g, p), c, s, r)
  {
    hide RowsModel, IsNumber;
    var head := if g.header.Some? then [Rejected(g.header.value, SectionHeader)] else [];
    OneReject(head, c);
    NoCounts(c);
    CountsPlus(Model([], head), RowsModel(sheet, g.headerRow + 1, g.end, g.name, p), c, 0, 0, s, r);
  }

  /** Header cells hold words. */
  predicate WordHeaders(ss: seq<Section>) {
    forall i :: 0 <= i < |ss| ==> ss[i].header.Some? ==> !IsNumber(ss[i].header.value)
  }

  lemma {:induction false} SectionsAccount(sheet: Sheet, ss: seq<Section>, p: Profile, i: nat, c: Cell)
    requires Grid(sheet) && Apart(ss, |sheet|) && WordHeaders(ss) && Covered(ss, i, c) && 1 <= c.row <= |sheet|
    requires c in sheet[c.row-1] && IsNumber(c) && Shipped(p)
    ensures Counts(SectionsModel(sheet, ss, p), c, SeatedTimes(sheet[c.row-1], p, c), Aside(sheet[c.row-1], p, c))
    decreases |ss|
  {
    hide RowsModel, SectionModel, SeatedTimes, Aside, Counts, Grid, IsNumber;
    var n, s, r := |ss| - 1, SeatedTimes(sheet[c.row-1], p, c), Aside(sheet[c.row-1], p, c);
    var l := ss[n];
    if i == n {
      RowsAccount(sheet, l.headerRow + 1, l.end, l.name, p, c);
      SectionCounts(sheet, l, p, c, s, r);
      SectionsElsewhere(sheet, ss[..n], p, c);
      CountsPlus(SectionsModel(sheet, ss[..n], p), SectionModel(sheet, l, p), c, 0, 0, s, r);
    } else {
      SectionsAccount(sheet, ss[..n], p, i, c);
      RowsElsewhere(sheet, l.headerRow + 1, l.end, l.name, p, c);
      SectionCounts(sheet, l, p, c, 0, 0);
      CountsPlus(SectionsModel(sheet, ss[..n], p), SectionModel(sheet, l, p), c, s, r, 0, 0);
    }
  }

  lemma {:induction false} SectionsElsewhere(sheet: Sheet, ss: seq<Section>, p: Profile, c: Cell)
    requires Grid(sheet) && Apart(ss, |sheet|) && WordHeaders(ss) && IsNumber(c)
    requires forall i :: 0 <= i < |ss| ==> ss[i].end <= c.row
    ensures Counts(SectionsModel(sheet, ss, p), c, 0, 0)
    decreases |ss|
  {
    hide RowsModel, SectionModel, Counts, Grid, IsNumber;
    if ss == [] {
      NoCounts(c);
    } else {
      var n := |ss| - 1;
      RowsElsewhere(sheet, ss[n].headerRow + 1, ss[n].end, ss[n].name, p, c);
      SectionCounts(sheet, ss[n], p, c, 0, 0);
      SectionsElsewhere(sheet, ss[..n], p, c);
      CountsPlus(SectionsModel(sheet, ss[..n], p), SectionModel(sheet, ss[n], p), c, 0, 0, 0, 0);
    }
  }

  lemma {:induction false} HeadersAreWords(sheet: Sheet, p: Profile)
    ensures forall i :: 0 <= i < |Headers(sheet, p)| ==> !IsNumber(Headers(sheet, p)[i])
  {
    if sheet != [] {
      HeadersAreWords(sheet[..|sheet|-1], p);
      RowHeadersAreWords(sheet[|sheet|-1], p);
    }
  }

  lemma {:induction false} RowHeadersAreWords(cells: seq<Cell>, p: Profile)
    ensures forall i :: 0 <= i < |HeadersIn(cells, p)| ==> !IsNumber(HeadersIn(cells, p)[i])
  {
    if cells != [] { RowHeadersAreWords(cells[..|cells|-1], p); }
  }

  /**
   * For the shipped rules, each numeric cell of a covered row is one seat or one entry put aside; only a seat whose number
   * is not whole is both.
   */
  lemma {:induction false} EachNumberOnce(sheet: Sheet, p: Profile, i: nat, c: Cell)
    requires Grid(sheet) && Shipped(p) && Covered(Sections(sheet, p), i, c) && 1 <= c.row <= |sheet|
    requires c in sheet[c.row-1] && IsNumber(c)
    ensures Counts(WholeModel(sheet, p), c, SeatedTimes(sheet[c.row-1], p, c), Aside(sheet[c.row-1], p, c))
  {
    hide SectionsModel, SeatedTimes, Aside, Counts, Headers, Grid, IsNumber;
    SectionsApart(sheet, p);
    HeadersAreWords(sheet, p);
    SectionsAccount(sheet, Sections(sheet, p), p, i, c);
  }

  // ---- what passing means ----

  predicate SameIdentity(a: Seat, b: Seat) {
    a.number.Some? && b.number.Some? && a.section == b.section && a.row == b.row && a.number == b.number
  }

  predicate Identities(seats: seq<Seat>) {
    forall i, j :: 0 <= i < j < |seats| ==> !SameIdentity(seats[i], seats[j])
  }

  /** The model passes: identities are unique, every seat has its number, and every entry put aside is of an expected kind. */
  predicate Passes(m: Model) {
    && Identities(m.seats) && (forall i :: 0 <= i < |m.seats| ==> m.seats[i].number.Some?)
    && forall i :: 0 <= i < |m.rejected| ==> Classified(m.rejected[i].reason)
  }

  /** A seat has a number exactly when its cell holds a whole one, and it is that one. */
  predicate NumbersRead(seats: seq<Seat>) {
    forall i :: 0 <= i < |seats| ==> seats[i].number == if Whole(seats[i].cell) then Some(seats[i].cell.value.v.Floor) else None
  }

  lemma {:induction false} RowNumbers(cells: seq<Cell>, section: Option<string>, p: Profile)
    ensures NumbersRead(RowModel(cells, section, p).seats)
  {
    hide Candidates, Away, Unknown, Detect, Whole;
  }

  lemma {:induction false} RowsNumbers(sheet: Sheet, from: int, end: int, section: Option<string>, p: Profile)
    requires 1 <= from && end <= |sheet| + 1
    ensures NumbersRead(RowsModel(sheet, from, end, section, p).seats)
    decreases end - from
  {
    hide RowModel, Whole;
    if end > from {
      RowsNumbers(sheet, from, end - 1, section, p);
      RowNumbers(sheet[end-2], section, p);
    }
  }

  lemma {:induction false} SectionsNumbers(sheet: Sheet, ss: seq<Section>, p: Profile)
    requires forall i :: 0 <= i < |ss| ==> 0 <= ss[i].headerRow && ss[i].end <= |sheet| + 1
    ensures NumbersRead(SectionsModel(sheet, ss, p).seats)
  {
    hide RowsModel, Whole;
    if ss != [] {
      var l := ss[|ss|-1];
      SectionsNumbers(sheet, ss[..|ss|-1], p);
      RowsNumbers(sheet, l.headerRow + 1, l.end, l.name, p);
      SectionSeats(sheet, l, p);
    }
  }

  lemma {:induction false} SeatFor(seats: seq<Seat>, c: Cell) returns (i: nat)
    requires SeatCount(seats, c) > 0
    ensures i < |seats| && seats[i].cell == c
  {
    if seats[|seats|-1].cell == c { i := |seats| - 1; } else { i := SeatFor(seats[..|seats|-1], c); }
  }

  /** A passing model assigns each numeric cell of a covered row to exactly one seat or exactly one entry put aside. */
  lemma {:induction false} PassingPartition(sheet: Sheet, p: Profile, i: nat, c: Cell)
    requires Grid(sheet) && Shipped(p) && Covered(Sections(sheet, p), i, c) && 1 <= c.row <= |sheet|
    requires c in sheet[c.row-1] && IsNumber(c) && Passes(WholeModel(sheet, p))
    ensures var m := WholeModel(sheet, p); SeatCount(m.seats, c) + RejectCount(m.rejected, c) == 1
    ensures SeatCount(WholeModel(sheet, p).seats, c) == 1 ==> Whole(c)
  {
    hide SectionsModel, Seated, Headers, Grid, IsNumber, Identities, Whole, RejectCount, SeatCount;
    SectionsApart(sheet, p);
    var m := WholeModel(sheet, p);
    EachNumberOnce(sheet, p, i, c);
    SectionsNumbers(sheet, Sections(sheet, p), p);
    if SeatCount(m.seats, c) > 0 {
      var k := SeatFor(m.seats, c);
      assert m.seats[k].number.Some?;
    }
  }
}
