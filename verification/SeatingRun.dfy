// The loops of the worksheet reader (`_section_ranges`, `extract_workbook`,
// apps/venue-svg-generator/xlsx_seating_adapter/core.py:69-79, 127-188), computing the model of Seating.dfy.

module SeatingRun {
  import opened Base
  import opened Seating

  lemma {:induction false} HeadersNext(cells: seq<Cell>, k: nat, p: Profile)
    requires k < |cells|
    ensures HeadersIn(cells[..k+1], p) == HeadersIn(cells[..k], p) + (if IsHeader(cells[k], p) then [cells[k]] else [])
  {
    assert cells[..k+1][..k] == cells[..k];
  }

  lemma {:induction false} SheetNext(sheet: Sheet, k: nat, p: Profile)
    requires k < |sheet|
    ensures Headers(sheet[..k+1], p) == Headers(sheet[..k], p) + HeadersIn(sheet[k], p)
  {
    assert sheet[..k+1][..k] == sheet[..k];
  }

  method SectionRanges(sheet: Sheet, p: Profile) returns (ss: seq<Section>)
    ensures ss == Sections(sheet, p)
  {
    hide IsHeader, HeadersIn, Headers;
    var headers: seq<Cell> := [];
    NoHeaders(p);
    for r := 0 to |sheet|
      invariant headers == Headers(sheet[..r], p)
    {
      ghost var was := headers;
      assert was + [] == was;
      for c := 0 to |sheet[r]|
        invariant headers == was + HeadersIn(sheet[r][..c], p)
      {
        HeadersNext(sheet[r], c, p);
        SeqAssoc(was, HeadersIn(sheet[r][..c], p), [sheet[r][c]]);
        if IsHeader(sheet[r][c], p) { headers := headers + [sheet[r][c]]; }
      }
      assert sheet[r][..|sheet[r]|] == sheet[r];
      SheetNext(sheet, r, p);
    }
    assert sheet[..|sheet|] == sheet;
    if headers == [] { return [Section(None, None, 0, |sheet| + 1)]; }
    ss := seq(|headers|, i requires 0 <= i < |headers| => SectionAt(headers, i, |sheet|, p));
  }

  lemma {:induction false} NoHeaders(p: Profile)
    ensures HeadersIn([], p) == [] && Headers([], p) == []
  {}

  /** One row: its seats and the entries it puts aside, added to the lists. */
  method ReadRow(cells: seq<Cell>, section: Option<string>, p: Profile, m0: Model) returns (m: Model)
    ensures m == Plus(m0, RowModel(cells, section, p))
  {
    hide Numeric, LettersIn, Candidates, Away, Unknown, Whole, IsCandidate;
    match Detect(cells, p)
    case Missing(reason) =>
      m := Model(m0.seats, m0.rejected + Marked(Numeric(cells), reason));
      assert m0.seats + [] == m0.seats;
    case Found(name, marks) =>
      var cs := Candidates(cells, marks, p);
      var away := Away(cells, marks, p) + Marked(marks, RowLabel);
      var seats: seq<Seat> := [];
      ghost var base := away;
      assert base + [] == base;
      NoneUnknown();
      for k := 0 to |cs|
        invariant seats == Seats(cs[..k], section, name) && away == base + Unknown(cs[..k])
      {
        UnknownNext(cs, k);
        SeqAssoc(base, Unknown(cs[..k]), [Rejected(cs[k], UnknownNumber)]);
        seats := seats + [SeatOf(cs[k], section, name)];
        if !Whole(cs[k]) { away := away + [Rejected(cs[k], UnknownNumber)]; }
      }
      assert cs[..|cs|] == cs;
      m := Model(m0.seats + seats, m0.rejected + away);
  }

  lemma {:induction false} NoneUnknown()
    ensures Unknown([]) == []
  {}

  lemma {:induction false} UnknownNext(cs: seq<Cell>, k: nat)
    requires k < |cs|
    ensures Unknown(cs[..k+1]) == Unknown(cs[..k]) + (if Whole(cs[k]) then [] else [Rejected(cs[k], UnknownNumber)])
  {
    hide Whole;
    assert cs[..k+1][..k] == cs[..k];
  }

  lemma {:induction false} PlusAssoc(a: Model, b: Model, c: Model)
    ensures Plus(Plus(a, b), c) == Plus(a, Plus(b, c))
  {
    SeqAssoc(a.seats, b.seats, c.seats);
    SeqAssoc(a.rejected, b.rejected, c.rejected);
  }

  lemma {:induction false} PlusNothing(a: Model)
    ensures Plus(a, NOTHING) == a && Plus(NOTHING, a) == a
  {}

  method ReadSection(sheet: Sheet, g: Section, p: Profile, m0: Model) returns (m: Model)
    requires 0 <= g.headerRow && g.end <= |sheet| + 1
    ensures m == Plus(m0, SectionModel(sheet, g, p))
  {
    hide RowModel, Plus, RowsModel;
    ghost var head := Model([], if g.header.Some? then [Rejected(g.header.value, SectionHeader)] else []);
    m := m0;
    HeadAdded(m0, g);
    if g.header.Some? { m := Model(m.seats, m.rejected + [Rejected(g.header.value, SectionHeader)]); }
    ghost var base := m;
    var r := g.headerRow + 1;
    PlusNothing(base);
    NoRows(sheet, r, g.name, p);
    while r < g.end
      invariant g.headerRow < r && (r <= g.end || r == g.headerRow + 1)
      invariant r <= |sheet| + 1 || r == g.headerRow + 1
      invariant m == Plus(base, if r <= g.end then RowsModel(sheet, g.headerRow + 1, r, g.name, p) else NOTHING)
    {
      NextRow(sheet, g.headerRow + 1, r, g.name, p);
      PlusAssoc(base, RowsModel(sheet, g.headerRow + 1, r, g.name, p), RowModel(sheet[r-1], g.name, p));
      m := ReadRow(sheet[r-1], g.name, p, m);
      r := r + 1;
    }
    if g.end < g.headerRow + 1 { FewRows(sheet, g.headerRow + 1, g.end, g.name, p); }
    PlusAssoc(m0, head, RowsModel(sheet, g.headerRow + 1, g.end, g.name, p));
  }

  lemma {:induction false} HeadAdded(m: Model, g: Section)
    ensures Plus(m, Model([], if g.header.Some? then [Rejected(g.header.value, SectionHeader)] else []))
         == if g.header.Some? then Model(m.seats, m.rejected + [Rejected(g.header.value, SectionHeader)]) else m
  {}

  lemma {:induction false} NoRows(sheet: Sheet, from: int, section: Option<string>, p: Profile)
    requires 1 <= from
    ensures from <= |sheet| + 1 ==> RowsModel(sheet, from, from, section, p) == NOTHING
  {}

  lemma {:induction false} FewRows(sheet: Sheet, from: int, end: int, section: Option<string>, p: Profile)
    requires 1 <= from && end <= |sheet| + 1 && end < from
    ensures RowsModel(sheet, from, end, section, p) == NOTHING
  {}

  lemma {:induction false} NextRow(sheet: Sheet, from: int, r: int, section: Option<string>, p: Profile)
    requires 1 <= from <= r <= |sheet|
    ensures RowsModel(sheet, from, r + 1, section, p) == Plus(RowsModel(sheet, from, r, section, p), RowModel(sheet[r-1], section, p))
  {
    hide RowModel, Plus;
  }

  /** `extract_workbook`, from the sheet on: the model, and whether it passes. */
  method Extract(sheet: Sheet, p: Profile) returns (m: Model, pass: bool)
    requires Grid(sheet)
    ensures m == WholeModel(sheet, p) && pass == Passes(m)
  {
    hide SectionModel, Plus, Sections, Passes, Apart, Grid;
    SectionsApart(sheet, p);
    var ss := SectionRanges(sheet, p);
    m := NOTHING;
    ReadNone(sheet, p);
    assert ss[..0] == [];
    for k := 0 to |ss|
      invariant Apart(ss, |sheet|) && Apart(ss[..k], |sheet|) && m == Read(sheet, ss[..k], p)
    {
      ApartFront(ss, k, |sheet|);
      ReadNext(sheet, ss, k, p);
      m := ReadSection(sheet, ss[k], p, m);
    }
    assert ss[..|ss|] == ss;
    pass := Check(m);
  }

  function Read(sheet: Sheet, ss: seq<Section>, p: Profile): Model
    requires Apart(ss, |sheet|)
  {
    SectionsModel(sheet, ss, p)
  }

  lemma {:induction false} ReadNone(sheet: Sheet, p: Profile)
    ensures Apart([], |sheet|) && Read(sheet, [], p) == NOTHING
  {}

  lemma {:induction false} ApartFront(ss: seq<Section>, k: nat, rows: nat)
    requires Apart(ss, rows) && k < |ss|
    ensures Apart(ss[..k+1], rows) && Apart(ss[..k], rows) && 0 <= ss[k].headerRow && ss[k].end <= rows + 1
  {}

  lemma {:induction false} ReadNext(sheet: Sheet, ss: seq<Section>, k: nat, p: Profile)
    requires k < |ss| && Apart(ss[..k+1], |sheet|) && Apart(ss[..k], |sheet|) && 0 <= ss[k].headerRow && ss[k].end <= |sheet| + 1
    ensures Read(sheet, ss[..k+1], p) == Plus(Read(sheet, ss[..k], p), SectionModel(sheet, ss[k], p))
  {
    hide SectionModel, Plus;
    assert ss[..k+1][..k] == ss[..k];
  }

  /** The checks at the end: any repeated identity, missing number or unexpected entry keeps the model back. */
  method Check(m: Model) returns (pass: bool)
    ensures pass == Passes(m)
  {
    pass := true;
    for j := 0 to |m.seats|
      invariant pass == (Identities(m.seats[..j]) && forall i :: 0 <= i < j ==> m.seats[i].number.Some?)
    {
      if m.seats[j].number == None { pass := false; }
      for i := 0 to j
        invariant pass == (Identities(m.seats[..j]) && (forall x :: 0 <= x < j + 1 ==> m.seats[x].number.Some?)
                           && forall x :: 0 <= x < i ==> !SameIdentity(m.seats[x], m.seats[j]))
      {
        if SameIdentity(m.seats[i], m.seats[j]) { pass := false; }
      }
      IdentitiesNext(m.seats, j);
    }
    assert m.seats[..|m.seats|] == m.seats;
    ghost var first := pass;
    for i := 0 to |m.rejected|
      invariant pass == (first && forall x :: 0 <= x < i ==> Classified(m.rejected[x].reason))
    {
      if !Classified(m.rejected[i].reason) { pass := false; }
    }
  }

  lemma {:induction false} IdentitiesNext(seats: seq<Seat>, j: nat)
    requires j < |seats|
    ensures Identities(seats[..j+1]) <==> Identities(seats[..j]) && forall x :: 0 <= x < j ==> !SameIdentity(seats[x], seats[j])
  {
    hide SameIdentity;
    assert forall x :: 0 <= x < j ==> seats[..j+1][x] == seats[..j][x];
    if Identities(seats[..j+1]) {
      forall x | 0 <= x < j ensures !SameIdentity(seats[x], seats[j]) {
        assert !SameIdentity(seats[..j+1][x], seats[..j+1][j]);
      }
    }
  }
}
