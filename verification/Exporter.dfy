// The authoring drawing of a seating model (apps/venue-svg-generator/arena_export/exporter.py:47-48, 94-129, 148-230): one circle a
// seat, in one group a (section, row), under ids that never repeat, on a canvas that encloses them.

module Exporter {
  import opened Base
  import opened Seating

  datatype Record = Record(key: string, section: string, row: string, number: int, x: int, y: int)

  datatype Circle = Circle(id: string, number: int, x: int, y: int)

  datatype Group = Group(id: string, section: string, row: string, circles: seq<Circle>)

  datatype Error = NotPassed | NothingToDraw | BadRadius | BadCanvas | DuplicateId(id: string)
  datatype Result<T> = Ok(value: T) | Err(error: Error)

  // ---- ids ----

  predicate SafeChar(c: char) {
    'A' <= c <= 'Z' || 'a' <= c <= 'z' || '0' <= c <= '9' || c == '_' || c == '.' || c == '-'
  }

  function Safe(s: string): string {
    seq(|s|, i requires 0 <= i < |s| => if SafeChar(s[i]) then s[i] else '_')
  }

  function SafeId(s: string): string { if s == "" then "unnamed" else Safe(s) }

  function Digits(n: nat): string {
    if n < 10 then [('0' as int + n) as char] else Digits(n / 10) + [('0' as int + n % 10) as char]
  }

  function BaseId(section: string, row: string): string { "row-" + SafeId(section) + "-" + SafeId(row) }

  /** The `n`-th name tried: the base itself, then the base with 2, 3, ... */
  function Tried(base: string, n: nat): string { if n <= 1 then base else base + "-" + Digits(n) }

  lemma {:induction false} DigitsDiffer(a: nat, b: nat)
    requires Digits(a) == Digits(b)
    ensures a == b
  {
    if a >= 10 && b >= 10 {
      var x, y := Digits(a), Digits(b);
      assert x[..|x|-1] == Digits(a / 10) && y[..|y|-1] == Digits(b / 10);
      assert x[|x|-1] == y[|y|-1];
      DigitsDiffer(a / 10, b / 10);
    } else if a >= 10 {
      LongDigits(a);
    } else if b >= 10 {
      LongDigits(b);
    } else {
      assert Digits(a)[0] == Digits(b)[0];
    }
  }

  lemma {:induction false} LongDigits(n: nat)
    requires n >= 10
    ensures |Digits(n)| >= 2
  {
    assert |Digits(n / 10)| >= 1;
  }

  /** No name is tried twice. */
  lemma {:induction false} TriedDiffer(base: string, a: nat, b: nat)
    requires 1 <= a < b
    ensures Tried(base, a) != Tried(base, b)
  {
    hide Digits;
    var y := Tried(base, b);
    assert y == base + ("-" + Digits(b));
    if a > 1 && Tried(base, a) == y {
      assert Tried(base, a) == base + ("-" + Digits(a));
      Prefix(base, "-" + Digits(a), "-" + Digits(b));
      Prefix("-", Digits(a), Digits(b));
      DigitsDiffer(a, b);
    }
  }

  lemma {:induction false} Prefix(p: string, a: string, b: string)
    requires p + a == p + b
    ensures a == b
  {
    assert (p + a)[|p|..] == a && (p + b)[|p|..] == b;
  }

  /** The search for a free name ends: each name tried takes another of the finitely many ids in use. */
  method FreshId(base: string, used: set<string>) returns (id: string, ghost n: nat)
    ensures id !in used && n >= 1 && id == Tried(base, n)
    ensures forall k :: 1 <= k < n ==> Tried(base, k) in used
  {
    hide Digits;
    id := base;
    var k := 1;
    ghost var met: set<string> := {};
    while id in used
      invariant k >= 1 && id == Tried(base, k) && met <= used
      invariant forall j :: 1 <= j < k ==> Tried(base, j) in met && Tried(base, j) in used
      invariant forall s :: s in met ==> exists j :: 1 <= j < k && s == Tried(base, j)
      decreases |used| - |met|
    {
      NewName(base, k, met);
      SubsetSize(met + {id}, used);
      met := met + {id};
      k := k + 1;
      id := base + "-" + Digits(k);
    }
    n := k;
  }

  lemma {:induction false} NewName(base: string, k: nat, met: set<string>)
    requires k >= 1 && forall s :: s in met ==> exists j :: 1 <= j < k && s == Tried(base, j)
    ensures Tried(base, k) !in met
  {
    hide Tried;
    if Tried(base, k) in met {
      var j :| 1 <= j < k && Tried(base, k) == Tried(base, j);
      TriedDiffer(base, j, k);
    }
  }

  // ---- the drawing ----

  predicate SameKey(r: Record, g: Group) { r.section == g.section && r.row == g.row }

  function CircleOf(r: Record): Circle { Circle("seat-" + SafeId(r.key), r.number, r.x, r.y) }

  /** The circles a group must hold: those of its own records, in their order. */
  function CirclesFor(records: seq<Record>, section: string, row: string): seq<Circle> {
    if records == [] then []
    else
      var n := |records| - 1;
      CirclesFor(records[..n], section, row)
      + (if records[n].section == section && records[n].row == row then [CircleOf(records[n])] else [])
  }

  /** The groups of the drawing: all ids differ, no key comes twice, and each group holds exactly its records. */
  ghost predicate Drawn(records: seq<Record>, groups: seq<Group>) {
    && (forall i, j :: 0 <= i < j < |groups| ==> groups[i].id != groups[j].id)
    && (forall i, j :: 0 <= i < j < |groups| ==> groups[i].section != groups[j].section || groups[i].row != groups[j].row)
    && (forall i :: 0 <= i < |groups| ==> HasRecords(groups[i], records))
    && AllGrouped(records, groups)
  }

  ghost predicate AllGrouped(records: seq<Record>, groups: seq<Group>) {
    forall k :: 0 <= k < |records| ==> HasGroup(records[k], groups)
  }

  predicate HasRecords(g: Group, records: seq<Record>) {
    g.circles != [] && g.circles == CirclesFor(records, g.section, g.row)
  }

  ghost predicate HasGroup(r: Record, groups: seq<Group>) {
    exists i :: 0 <= i < |groups| && SameKey(r, groups[i])
  }

  function SeatIds(records: seq<Record>): set<string> { set k | 0 <= k < |records| :: CircleOf(records[k]).id }

  predicate IdsDiffer(records: seq<Record>) {
    forall i, j :: 0 <= i < j < |records| ==> CircleOf(records[i]).id != CircleOf(records[j]).id
  }

  function GroupIds(groups: seq<Group>): set<string> { set i | 0 <= i < |groups| :: groups[i].id }

  lemma {:induction false} CirclesNext(records: seq<Record>, k: nat, section: string, row: string)
    requires k < |records|
    ensures CirclesFor(records[..k+1], section, row) == CirclesFor(records[..k], section, row)
         + (if records[k].section == section && records[k].row == row then [CircleOf(records[k])] else [])
  {
    assert records[..k+1][..k] == records[..k];
  }

  lemma {:induction false} NoGroupNoCircles(records: seq<Record>, groups: seq<Group>, section: string, row: string)
    requires (forall k :: 0 <= k < |records| ==> HasGroup(records[k], groups))
    requires forall i :: 0 <= i < |groups| ==> groups[i].section != section || groups[i].row != row
    ensures CirclesFor(records, section, row) == []
  {
    if records != [] {
      NoGroupNoCircles(records[..|records|-1], groups, section, row);
      assert HasGroup(records[|records|-1], groups);
    }
  }

  /** A new group for a record whose key has none yet. */
  lemma {:induction false} GroupAdded(records: seq<Record>, k: nat, groups: seq<Group>, g: Group)
    requires k < |records| && Drawn(records[..k], groups)
    requires g.id !in GroupIds(groups) && SameKey(records[k], g) && g.circles == [CircleOf(records[k])]
    requires forall i :: 0 <= i < |groups| ==> !SameKey(records[k], groups[i])
    ensures Drawn(records[..k+1], groups + [g])
  {
    hide CirclesFor, CircleOf;
    NoGroupNoCircles(records[..k], groups, g.section, g.row);
    CirclesNext(records, k, g.section, g.row);
    var more := groups + [g];
    forall i | 0 <= i < |more| ensures HasRecords(more[i], records[..k+1]) {
      if i < |groups| {
        assert HasRecords(groups[i], records[..k]);
        CirclesNext(records, k, groups[i].section, groups[i].row);
        assert CirclesFor(records[..k], groups[i].section, groups[i].row) + [] == CirclesFor(records[..k], groups[i].section, groups[i].row);
      } else {
        assert [] + g.circles == g.circles;
      }
    }
    GroupsKeep(records, k, groups, more, |groups|);
  }

  /** The records keep their groups, and the new one has its own. */
  lemma {:induction false} GroupsKeep(records: seq<Record>, k: nat, groups: seq<Group>, more: seq<Group>, at: nat)
    requires k < |records| && (forall j :: 0 <= j < k ==> HasGroup(records[j], groups))
    requires |groups| <= |more| && (forall i :: 0 <= i < |groups| ==> more[i].section == groups[i].section && more[i].row == groups[i].row)
    requires at < |more| && SameKey(records[k], more[at])
    ensures AllGrouped(records[..k+1], more)
  {
    var upTo := records[..k+1];
    forall j | 0 <= j < |upTo| ensures HasGroup(upTo[j], more) {
      if j < k {
        assert HasGroup(records[j], groups);
        var i :| 0 <= i < |groups| && SameKey(records[j], groups[i]);
        assert SameKey(records[j], more[i]);
      } else {
        assert SameKey(records[k], more[at]);
      }
    }
  }

  /** A further circle in the group of its key. */
  lemma {:induction false} CircleAdded(records: seq<Record>, k: nat, groups: seq<Group>, at: nat)
    requires k < |records| && Drawn(records[..k], groups) && at < |groups| && SameKey(records[k], groups[at])
    ensures Drawn(records[..k+1], groups[at := groups[at].(circles := groups[at].circles + [CircleOf(records[k])])])
  {
    hide CirclesFor, CircleOf;
    var more := groups[at := groups[at].(circles := groups[at].circles + [CircleOf(records[k])])];
    forall i | 0 <= i < |more| ensures HasRecords(more[i], records[..k+1]) {
      assert HasRecords(groups[i], records[..k]);
      CirclesNext(records, k, groups[i].section, groups[i].row);
      assert CirclesFor(records[..k], groups[i].section, groups[i].row) + [] == CirclesFor(records[..k], groups[i].section, groups[i].row);
      if i != at {
        var a, b := if i < at then i else at, if i < at then at else i;
        assert groups[a].section != groups[b].section || groups[a].row != groups[b].row;
      }
    }
    GroupsKeep(records, k, groups, more, at);
  }

  /** Where the key of a record has its group. */
  method FindGroup(r: Record, groups: seq<Group>) returns (i: nat)
    ensures i <= |groups| && (i < |groups| ==> SameKey(r, groups[i]))
    ensures forall j :: 0 <= j < i ==> !SameKey(r, groups[j])
  {
    i := 0;
    while i < |groups| && !SameKey(r, groups[i])
      invariant i <= |groups| && forall j :: 0 <= j < i ==> !SameKey(r, groups[j])
    {
      i := i + 1;
    }
  }

  /** The loop over the records. It fails exactly when two seats would get one id. */
  method Draw(records: seq<Record>) returns (r: Result<seq<Group>>)
    ensures r.Ok? <==> IdsDiffer(records)
    ensures r.Ok? ==> Drawn(records, r.value)
  {
    hide Drawn, CircleOf, SeatIds, IdsDiffer, GroupIds;
    var groups: seq<Group>, groupIds: set<string>, seatIds: set<string> := [], {}, {};
    NothingDrawn();
    assert records[..0] == [];
    for k := 0 to |records|
      invariant Drawn(records[..k], groups) && groupIds == GroupIds(groups)
      invariant seatIds == SeatIds(records[..k]) && IdsDiffer(records[..k])
    {
      var rec := records[k];
      var c := CircleOf(rec);
      IdsNext(records, k);
      if c.id in seatIds { return Err(DuplicateId(c.id)); }
      seatIds := seatIds + {c.id};
      var at := FindGroup(rec, groups);
      if at == |groups| {
        var id, n := FreshId(BaseId(rec.section, rec.row), groupIds);
        var g := Group(id, rec.section, rec.row, [c]);
        GroupAdded(records, k, groups, g);
        IdsOfMore(groups, g);
        groups := groups + [g];
        groupIds := groupIds + {id};
      } else {
        CircleAdded(records, k, groups, at);
        SameIds(groups, at, groups[at].(circles := groups[at].circles + [c]));
        groups := groups[at := groups[at].(circles := groups[at].circles + [c])];
      }
    }
    assert records[..|records|] == records;
    r := Ok(groups);
  }

  lemma {:induction false} NothingDrawn()
    ensures Drawn([], []) && GroupIds([]) == {} && SeatIds([]) == {} && IdsDiffer([])
  {}

  lemma {:induction false} IdsOfMore(groups: seq<Group>, g: Group)
    ensures GroupIds(groups + [g]) == GroupIds(groups) + {g.id}
  {
    var more := groups + [g];
    assert more[|groups|] == g;
    assert forall i :: 0 <= i < |groups| ==> more[i] == groups[i];
  }

  lemma {:induction false} SameIds(groups: seq<Group>, at: nat, g: Group)
    requires at < |groups| && g.id == groups[at].id
    ensures GroupIds(groups[at := g]) == GroupIds(groups)
  {
    var more := groups[at := g];
    assert forall i :: 0 <= i < |groups| ==> more[i].id == groups[i].id;
  }

  lemma {:induction false} IdsNext(records: seq<Record>, k: nat)
    requires k < |records| && IdsDiffer(records[..k])
    ensures SeatIds(records[..k+1]) == SeatIds(records[..k]) + {CircleOf(records[k]).id}
    ensures IdsDiffer(records[..k+1]) <==> CircleOf(records[k]).id !in SeatIds(records[..k])
    ensures IdsDiffer(records) ==> IdsDiffer(records[..k+1])
  {
    hide CircleOf;
    var a, b := records[..k], records[..k+1];
    assert forall i :: 0 <= i < k ==> a[i] == b[i] == records[i];
    assert b[k] == records[k];
  }

  // ---- what the drawing means ----

  function AllCircles(groups: seq<Group>): nat {
    if groups == [] then 0 else AllCircles(groups[..|groups|-1]) + |groups[|groups|-1].circles|
  }

  /** The records of the keys of `groups`. */
  function InGroups(records: seq<Record>, groups: seq<Group>): nat {
    if groups == [] then 0
    else InGroups(records, groups[..|groups|-1]) + |CirclesFor(records, groups[|groups|-1].section, groups[|groups|-1].row)|
  }

  lemma {:induction false} CirclesAreIn(records: seq<Record>, groups: seq<Group>)
    requires forall i :: 0 <= i < |groups| ==> HasRecords(groups[i], records)
    ensures AllCircles(groups) == InGroups(records, groups)
  {
    hide CirclesFor;
    if groups != [] { CirclesAreIn(records, groups[..|groups|-1]); }
  }

  /** One more record is one more circle in exactly one group. */
  lemma {:induction false} OneMore(records: seq<Record>, r: Record, groups: seq<Group>)
    requires forall i, j :: 0 <= i < j < |groups| ==> groups[i].section != groups[j].section || groups[i].row != groups[j].row
    ensures InGroups(records + [r], groups) == InGroups(records, groups) + (if exists i :: 0 <= i < |groups| && SameKey(r, groups[i]) then 1 else 0)
  {
    hide CirclesFor;
    if groups != [] {
      var front, g := groups[..|groups|-1], groups[|groups|-1];
      OneMore(records, r, front);
      CirclesNext(records + [r], |records|, g.section, g.row);
      assert (records + [r])[..|records|+1] == records + [r] && (records + [r])[..|records|] == records;
      if SameKey(r, g) {
        assert forall i :: 0 <= i < |front| ==> !SameKey(r, groups[i]);
        assert SameKey(r, groups[|groups|-1]);
      } else if exists i :: 0 <= i < |groups| && SameKey(r, groups[i]) {
        var i :| 0 <= i < |groups| && SameKey(r, groups[i]);
        assert SameKey(r, front[i]);
      } else {
        assert forall i :: 0 <= i < |front| ==> !SameKey(r, groups[i]);
      }
    }
  }

  lemma {:induction false} AllIn(records: seq<Record>, groups: seq<Group>)
    requires forall i, j :: 0 <= i < j < |groups| ==> groups[i].section != groups[j].section || groups[i].row != groups[j].row
    requires forall k :: 0 <= k < |records| ==> HasGroup(records[k], groups)
    ensures InGroups(records, groups) == |records|
  {
    hide CirclesFor;
    if records == [] {
      NoneIn(groups);
    } else {
      var front, r := records[..|records|-1], records[|records|-1];
      AllIn(front, groups);
      OneMore(front, r, groups);
      assert front + [r] == records;
      assert HasGroup(r, groups);
    }
  }

  lemma {:induction false} NoneIn(groups: seq<Group>)
    ensures InGroups([], groups) == 0
  {
    if groups != [] { NoneIn(groups[..|groups|-1]); }
  }

  /** As many circles as seats: none is lost and none drawn twice. */
  lemma {:induction false} OneCircleEach(records: seq<Record>, groups: seq<Group>)
    requires Drawn(records, groups)
    ensures AllCircles(groups) == |records|
  {
    hide HasRecords, HasGroup;
    CirclesAreIn(records, groups);
    AllIn(records, groups);
  }

  /** Groups and seats never share an id: their names begin differently. */
  lemma {:induction false} GroupsAreNoSeats(section: string, row: string, n: nat, r: Record)
    ensures Tried(BaseId(section, row), n) != CircleOf(r).id
  {
    hide SafeId, Digits;
    var b := BaseId(section, row);
    assert b[0] == 'r';
    assert Tried(b, n)[0] == 'r';
    assert CircleOf(r).id[0] == 's';
  }

  // ---- the keys of seats ----

  /** The letters of a column: A to Z, then AA, AB, ... */
  function Letters(col: nat): string {
    if col == 0 then "" else Letters((col - 1) / 26) + [('A' as int + (col - 1) % 26) as char]
  }

  /** The name of a cell, such as "B7". */
  function Coordinate(c: Cell): string { Letters(c.col) + Digits(c.row) }

  /** The key the reader gives the seat of a cell (core.py:145). */
  function SeatKey(title: string, c: Cell): string { ("xlsx-seat-" + title + "-") + Coordinate(c) }

  predicate IsUpper(c: char) { 'A' <= c <= 'Z' }

  lemma {:induction false} LettersAre(col: nat)
    ensures forall i :: 0 <= i < |Letters(col)| ==> IsUpper(Letters(col)[i])
    ensures Letters(col) == "" <==> col == 0
  {
    if col > 0 { LettersAre((col - 1) / 26); }
  }

  lemma {:induction false} DigitsAre(n: nat)
    ensures Digits(n) != "" && forall i :: 0 <= i < |Digits(n)| ==> IsDigit(Digits(n)[i])
  {
    if n >= 10 { DigitsAre(n / 10); }
  }

  lemma {:induction false} LettersDiffer(a: nat, b: nat)
    requires Letters(a) == Letters(b)
    ensures a == b
    decreases a
  {
    LettersAre(a);
    LettersAre(b);
    if a > 0 && b > 0 {
      var x, y := Letters(a), Letters(b);
      assert x[..|x|-1] == Letters((a - 1) / 26) && y[..|y|-1] == Letters((b - 1) / 26);
      assert x[|x|-1] == y[|y|-1];
      LettersDiffer((a - 1) / 26, (b - 1) / 26);
    }
  }

  /** Letters before figures can be told apart. */
  lemma {:induction false} SplitAtFigures(a: string, x: string, b: string, y: string)
    requires a + x == b + y && x != "" && y != ""
    requires (forall i :: 0 <= i < |a| ==> IsUpper(a[i])) && (forall i :: 0 <= i < |b| ==> IsUpper(b[i]))
    requires (forall i :: 0 <= i < |x| ==> IsDigit(x[i])) && (forall i :: 0 <= i < |y| ==> IsDigit(y[i]))
    ensures a == b && x == y
  {
    assert (a + x)[|a|] == x[0] && (b + y)[|b|] == y[0];
    assert (a + x)[..|a|] == a && (b + y)[..|b|] == b;
    if |a| == |b| { Prefix(a, x, y); }
  }

  lemma {:induction false} CoordinatesDiffer(a: Cell, b: Cell)
    requires Coordinate(a) == Coordinate(b)
    ensures a.row == b.row && a.col == b.col
  {
    hide Letters, Digits;
    LettersAre(a.col);
    LettersAre(b.col);
    DigitsAre(a.row);
    DigitsAre(b.row);
    SplitAtFigures(Letters(a.col), Digits(a.row), Letters(b.col), Digits(b.row));
    LettersDiffer(a.col, b.col);
    DigitsDiffer(a.row, b.row);
  }

  lemma {:induction false} CoordinateSafe(c: Cell)
    ensures Safe(Coordinate(c)) == Coordinate(c)
  {
    hide Letters, Digits;
    LettersAre(c.col);
    DigitsAre(c.row);
  }

  lemma {:induction false} SafeConcat(a: string, b: string)
    ensures Safe(a + b) == Safe(a) + Safe(b)
  {}

  /** Keys of different cells stay different after unsafe characters are replaced, whatever the title of the sheet. */
  lemma {:induction false} KeysDiffer(title: string, a: Cell, b: Cell)
    requires CellBefore(a, b)
    ensures SafeId(SeatKey(title, a)) != SafeId(SeatKey(title, b))
  {
    hide Safe, Coordinate;
    var p := "xlsx-seat-" + title + "-";
    SafeConcat(p, Coordinate(a));
    SafeConcat(p, Coordinate(b));
    CoordinateSafe(a);
    CoordinateSafe(b);
    if Safe(p) + Coordinate(a) == Safe(p) + Coordinate(b) {
      Prefix(Safe(p), Coordinate(a), Coordinate(b));
      CoordinatesDiffer(a, b);
    }
  }

  // ---- from a model ----

  /** A numbered seat of the sheet called `title`. */
  function RecordOf(s: Seat, title: string): Record
    requires s.number.Some?
  {
    Record(SeatKey(title, s.cell), match s.section case None => "Main" case Some(x) => x, s.row, s.number.value, s.cell.col, s.cell.row)
  }

  function Records(seats: seq<Seat>, title: string): seq<Record> {
    if seats == [] then []
    else
      var s := seats[|seats|-1];
      Records(seats[..|seats|-1], title) + (if s.number.Some? then [RecordOf(s, title)] else [])
  }

  /** A passing model gives one record a seat. */
  lemma {:induction false} RecordsAre(seats: seq<Seat>, title: string)
    requires forall i :: 0 <= i < |seats| ==> seats[i].number.Some?
    ensures |Records(seats, title)| == |seats|
    ensures forall i :: 0 <= i < |seats| ==> Records(seats, title)[i] == RecordOf(seats[i], title)
  {
    hide RecordOf;
    if seats != [] {
      var front := seats[..|seats|-1];
      RecordsAre(front, title);
      assert forall i :: 0 <= i < |front| ==> front[i] == seats[i];
    }
  }

  /** The seats of a worksheet never clash: drawing a passing model cannot fail over an id. */
  lemma {:induction false} PassingDraws(sheet: Sheet, p: Profile, title: string)
    requires Grid(sheet) && Passes(WholeModel(sheet, p))
    ensures IdsDiffer(Records(WholeModel(sheet, p).seats, title))
  {
    hide Grid, WholeModel, SafeId, Identities, SeatKey, CellBefore;
    var seats := WholeModel(sheet, p).seats;
    SeatsInOrder(sheet, p);
    RecordsAre(seats, title);
    var rs := Records(seats, title);
    forall i, j | 0 <= i < j < |rs| ensures CircleOf(rs[i]).id != CircleOf(rs[j]).id {
      assert CellBefore(seats[i].cell, seats[j].cell);
      assert rs[i] == RecordOf(seats[i], title) && rs[j] == RecordOf(seats[j], title);
      KeysDiffer(title, seats[i].cell, seats[j].cell);
      SeatIdsDiffer(SafeId(rs[i].key), SafeId(rs[j].key));
    }
  }

  lemma {:induction false} SeatIdsDiffer(a: string, b: string)
    requires a != b
    ensures "seat-" + a != "seat-" + b
  {
    if "seat-" + a == "seat-" + b { Prefix("seat-", a, b); }
  }

  // ---- the canvas ----

  const MAX_CANVAS := 2000.0
  const CANVAS_MARGIN := 2.0

  datatype Size = Size(w: real, h: real)

  /** What a canvas was asked to be: by the caller, else by the profile. */
  datatype Canvas = Canvas(asked: Option<Size>, profile: Option<Size>)

  function Along(r: Record, down: bool): int { if down then r.y else r.x }

  function Farthest(records: seq<Record>, down: bool): int
    requires records != []
  {
    var v := Along(records[|records|-1], down);
    if |records| == 1 then v
    else
      var m := Farthest(records[..|records|-1], down);
      if m < v then v else m
  }

  function AtLeast(v: real): real { if v < 2.0 then 2.0 else v }

  function Wanted(records: seq<Record>, c: Canvas): Size
    requires records != []
  {
    match c.asked
    case Some(size) => size
    case None =>
      match c.profile
      case Some(size) => size
      case None =>
        Size(AtLeast(Farthest(records, false) as real + CANVAS_MARGIN), AtLeast(Farthest(records, true) as real + CANVAS_MARGIN))
  }

  predicate Importable(c: Size) { 0.0 < c.w <= MAX_CANVAS && 0.0 < c.h <= MAX_CANVAS }

  /** Every circle lies within the right and lower borders. */
  predicate Encloses(records: seq<Record>, radius: real, c: Size) {
    forall i :: 0 <= i < |records| ==> records[i].x as real + radius <= c.w && records[i].y as real + radius <= c.h
  }

  lemma {:induction false} FarthestIs(records: seq<Record>, down: bool)
    requires records != []
    ensures forall i :: 0 <= i < |records| ==> Along(records[i], down) <= Farthest(records, down)
    ensures exists i :: 0 <= i < |records| && Along(records[i], down) == Farthest(records, down)
  {
    hide Along;
    var n := |records| - 1;
    if n > 0 {
      var front := records[..n];
      FarthestIs(front, down);
      var i :| 0 <= i < |front| && Along(front[i], down) == Farthest(front, down);
      assert records[i] == front[i];
      assert forall k :: 0 <= k < |front| ==> Along(records[k], down) == Along(front[k], down);
    }
    assert Along(records[n], down) <= Farthest(records, down);
  }

  /** It is enough to look at the farthest column and row. */
  lemma {:induction false} EnclosesFarthest(records: seq<Record>, radius: real, c: Size)
    requires records != []
    ensures Encloses(records, radius, c)
       <==> Farthest(records, false) as real + radius <= c.w && Farthest(records, true) as real + radius <= c.h
  {
    hide Farthest;
    FarthestIs(records, false);
    FarthestIs(records, true);
    var x, y := Farthest(records, false), Farthest(records, true);
    var i :| 0 <= i < |records| && Along(records[i], false) == x;
    var j :| 0 <= j < |records| && Along(records[j], true) == y;
    forall k | 0 <= k < |records| ensures records[k].x <= x && records[k].y <= y {
      assert Along(records[k], false) <= x && Along(records[k], true) <= y;
    }
  }

  datatype Drawing = Drawing(groups: seq<Group>, size: Size, radius: real)

  /** When a model is drawn at all. */
  ghost predicate Drawable(m: Model, title: string, radius: real, c: Canvas) {
    && Passes(m) && m.seats != [] && radius > 0.0
    && var rs := Records(m.seats, title);
       rs != [] && Importable(Wanted(rs, c)) && Encloses(rs, radius, Wanted(rs, c)) && IdsDiffer(rs)
  }

  method FarthestOf(records: seq<Record>, down: bool) returns (m: int)
    requires records != []
    ensures m == Farthest(records, down)
  {
    m := Along(records[0], down);
    assert records[..1] == [records[0]];
    for k := 1 to |records|
      invariant m == Farthest(records[..k], down)
    {
      assert records[..k+1][..k] == records[..k];
      var v := Along(records[k], down);
      if m < v { m := v; }
    }
    assert records[..|records|] == records;
  }

  /** The size of the canvas, unless it is refused or does not enclose the seats. */
  method FitCanvas(records: seq<Record>, radius: real, c: Canvas) returns (size: Option<Size>)
    requires records != []
    ensures size == if Importable(Wanted(records, c)) && Encloses(records, radius, Wanted(records, c)) then Some(Wanted(records, c)) else None
  {
    hide Farthest, Encloses;
    var x := FarthestOf(records, false);
    var y := FarthestOf(records, true);
    var s := Size(AtLeast(x as real + CANVAS_MARGIN), AtLeast(y as real + CANVAS_MARGIN));
    if c.asked != None { s := c.asked.value; } else if c.profile != None { s := c.profile.value; }
    EnclosesFarthest(records, radius, s);
    if !Importable(s) { return None; }
    size := if x as real + radius > s.w || y as real + radius > s.h then None else Some(s);
  }

  /** The records of the numbered seats. */
  method SeatRecords(seats: seq<Seat>, title: string) returns (records: seq<Record>)
    ensures records == Records(seats, title)
  {
    records := [];
    for k := 0 to |seats|
      invariant records == Records(seats[..k], title)
    {
      assert seats[..k+1][..k] == seats[..k];
      if seats[k].number != None { records := records + [RecordOf(seats[k], title)]; }
    }
    assert seats[..|seats|] == seats;
  }

  /** `build_authoring_svg`: a model is drawn exactly when it may be, one circle a seat, on a canvas that encloses them. */
  method Export(m: Model, pass: bool, title: string, radius: real, c: Canvas) returns (r: Result<Drawing>)
    requires pass == Passes(m)
    ensures r.Ok? <==> Drawable(m, title, radius, c)
    ensures r.Ok? ==> Drawn(Records(m.seats, title), r.value.groups) && AllCircles(r.value.groups) == |m.seats|
    ensures r.Ok? ==> Importable(r.value.size) && Encloses(Records(m.seats, title), radius, r.value.size) && r.value.radius == radius
  {
    hide Drawn, IdsDiffer, AllCircles, Identities, Encloses, Wanted, RecordOf;
    if !pass { return Err(NotPassed); }
    RecordsAre(m.seats, title);
    var records := SeatRecords(m.seats, title);
    if records == [] { return Err(NothingToDraw); }
    if radius <= 0.0 { return Err(BadRadius); }
    var size := FitCanvas(records, radius, c);
    if size == None { return Err(BadCanvas); }
    var groups := Draw(records);
    match groups {
      case Err(e) => r := Err(e);
      case Ok(gs) =>
        OneCircleEach(records, gs);
        r := Ok(Drawing(gs, size.value, radius));
    }
  }
}
