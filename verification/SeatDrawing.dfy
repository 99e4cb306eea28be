// From the worksheet to the drawing: which cell each circle stands for (apps/venue-svg-generator/xlsx_seating_adapter/core.py:127-188,
// arena_export/exporter.py:102-129, 206-230).

module SeatDrawing {
  import opened Base
  import opened Seating
  import opened SeatingExact
  import opened Exporter

  /** The circle stands at the column and row of the seat's cell, with its number, in the group of its section and row. */
  predicate Shows(s: Seat, title: string, g: Group, c: Circle) {
    && c.x == s.cell.col && c.y == s.cell.row && s.number == Some(c.number)
    && c.id == "seat-" + SafeId(SeatKey(title, s.cell))
    && g.section == (if s.section == None then "Main" else s.section.value) && g.row == s.row
  }

  predicate Numbered(seats: seq<Seat>) { forall i :: 0 <= i < |seats| ==> seats[i].number.Some? }

  lemma {:induction false} RecordShows(s: Seat, title: string, g: Group)
    requires s.number.Some?
    ensures SameKey(RecordOf(s, title), g) <==> g.section == (if s.section == None then "Main" else s.section.value) && g.row == s.row
    ensures SameKey(RecordOf(s, title), g) ==> Shows(s, title, g, CircleOf(RecordOf(s, title)))
  {
    hide SafeId, SeatKey;
  }

  predicate CircleFrom(records: seq<Record>, section: string, row: string, c: Circle) {
    exists k :: 0 <= k < |records| && c == CircleOf(records[k]) && records[k].section == section && records[k].row == row
  }

  lemma {:induction false} FromMore(records: seq<Record>, r: Record, section: string, row: string, c: Circle)
    ensures CircleFrom(records + [r], section, row, c) <==>
      CircleFrom(records, section, row, c) || (c == CircleOf(r) && r.section == section && r.row == row)
  {
    hide CircleOf;
    var more := records + [r];
    if CircleFrom(records, section, row, c) {
      var k :| 0 <= k < |records| && c == CircleOf(records[k]) && records[k].section == section && records[k].row == row;
      assert more[k] == records[k];
    }
    assert more[|records|] == r;
  }

  /** A group's circles are those of its records. */
  lemma {:induction false} CircleRecords(records: seq<Record>, section: string, row: string, c: Circle)
    ensures c in CirclesFor(records, section, row) <==> CircleFrom(records, section, row, c)
  {
    hide CircleOf, CircleFrom;
    if records == [] {
      NoCircle(section, row, c);
    } else {
      var n := |records| - 1;
      CircleRecords(records[..n], section, row, c);
      assert records == records[..n] + [records[n]];
      FromMore(records[..n], records[n], section, row, c);
    }
  }

  lemma {:induction false} NoCircle(section: string, row: string, c: Circle)
    ensures !CircleFrom([], section, row, c)
  {}

  /** The seat has its circle. */
  ghost predicate SeatShown(s: Seat, title: string, groups: seq<Group>) {
    exists i, c :: 0 <= i < |groups| && c in groups[i].circles && Shows(s, title, groups[i], c)
  }

  /** The circle is a seat's. */
  predicate CircleShows(seats: seq<Seat>, title: string, g: Group, c: Circle) {
    exists k :: 0 <= k < |seats| && Shows(seats[k], title, g, c)
  }

  /** Every seat is drawn as what it is, and nothing else is drawn. */
  lemma {:induction false} SeatsAreDrawn(seats: seq<Seat>, title: string, groups: seq<Group>)
    requires Numbered(seats) && Drawn(Records(seats, title), groups)
    ensures forall k :: 0 <= k < |seats| ==> SeatShown(seats[k], title, groups)
    ensures forall i, c :: 0 <= i < |groups| && c in groups[i].circles ==> CircleShows(seats, title, groups[i], c)
  {
    hide Records, RecordOf, CircleOf, CirclesFor, Shows, SameKey;
    RecordsAre(seats, title);
    var rs := Records(seats, title);
    forall k | 0 <= k < |seats| ensures SeatShown(seats[k], title, groups) {
      assert rs[k] == RecordOf(seats[k], title) && HasGroup(rs[k], groups);
      var i :| 0 <= i < |groups| && SameKey(rs[k], groups[i]);
      assert HasRecords(groups[i], rs);
      KeyIs(rs[k], groups[i]);
      assert CircleFrom(rs, groups[i].section, groups[i].row, CircleOf(rs[k]));
      CircleRecords(rs, groups[i].section, groups[i].row, CircleOf(rs[k]));
      RecordShows(seats[k], title, groups[i]);
      assert CircleOf(rs[k]) in groups[i].circles;
    }
    forall i, c | 0 <= i < |groups| && c in groups[i].circles ensures CircleShows(seats, title, groups[i], c) {
      assert HasRecords(groups[i], rs);
      CircleRecords(rs, groups[i].section, groups[i].row, c);
      var k :| 0 <= k < |rs| && c == CircleOf(rs[k]) && rs[k].section == groups[i].section && rs[k].row == groups[i].row;
      assert rs[k] == RecordOf(seats[k], title);
      KeyIs(rs[k], groups[i]);
      RecordShows(seats[k], title, groups[i]);
    }
  }

  lemma {:induction false} KeyIs(r: Record, g: Group)
    ensures SameKey(r, g) <==> r.section == g.section && r.row == g.row
  {}

  /** In the drawing of a passing worksheet each circle stands where its cell does, in the group of the cell's own section and row. */
  lemma {:induction false} CirclesAreCells(sheet: Sheet, p: Profile, title: string, groups: seq<Group>, i: nat, c: Circle)
    requires Grid(sheet) && Shipped(p) && Passes(WholeModel(sheet, p)) && Drawn(Records(WholeModel(sheet, p).seats, title), groups)
    requires i < |groups| && c in groups[i].circles
    ensures exists s :: SeatOk(sheet, p, s) && Shows(s, title, groups[i], c)
  {
    hide WholeModel, Drawn, Records, SeatOk, Shows, Identities, Classified;
    var seats := WholeModel(sheet, p).seats;
    SeatsAreRight(sheet, p);
    SeatsAreDrawn(seats, title, groups);
    assert CircleShows(seats, title, groups[i], c);
    var k :| 0 <= k < |seats| && Shows(seats[k], title, groups[i], c);
    assert SeatOk(sheet, p, seats[k]);
  }
}
