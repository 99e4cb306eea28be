// Detected disks grouped into rows (`group_rows`, apps/venue-svg-generator/benchmark_v1/phase5a_ladvi.py:73-80): in the order of their
// heights, a disk joins the current row while it is within 5 pixels of that row's mean.

module RowGrouping {
  import opened Base
  import opened FloodFill

  type Row = seq<Found>

  const REACH := 5.0

  // ---- stable sorting, as `sorted` does ----

  function Key(f: Found, byX: bool): real { if byX then f.cx else f.cy }

  function Insert(s: seq<Found>, f: Found, byX: bool): seq<Found> {
    if s == [] || Key(s[|s|-1], byX) <= Key(f, byX) then s + [f] else Insert(s[..|s|-1], f, byX) + [s[|s|-1]]
  }

  function Sorted(s: seq<Found>, byX: bool): seq<Found> {
    if s == [] then [] else Insert(Sorted(s[..|s|-1], byX), s[|s|-1], byX)
  }

  predicate Ordered(s: seq<Found>, byX: bool) {
    forall i, j :: 0 <= i < j < |s| ==> Key(s[i], byX) <= Key(s[j], byX)
  }

  lemma {:induction false} InsertKeeps(s: seq<Found>, f: Found, byX: bool)
    ensures multiset(Insert(s, f, byX)) == multiset(s) + multiset{f}
    ensures forall x :: x in Insert(s, f, byX) ==> x in s || x == f
  {
    hide Key;
    if s != [] && Key(s[|s|-1], byX) > Key(f, byX) {
      var n := |s| - 1;
      InsertKeeps(s[..n], f, byX);
      assert s == s[..n] + [s[n]];
    }
  }

  /** Nothing in `s` has a larger key than `f`. */
  predicate UpTo(s: seq<Found>, f: Found, byX: bool) {
    forall i :: 0 <= i < |s| ==> Key(s[i], byX) <= Key(f, byX)
  }

  lemma {:induction false} OrderedSnoc(s: seq<Found>, f: Found, byX: bool)
    requires Ordered(s, byX) && UpTo(s, f, byX)
    ensures Ordered(s + [f], byX)
  {
    hide Key;
  }

  lemma {:induction false} LastUpTo(s: seq<Found>, f: Found, byX: bool)
    requires Ordered(s, byX) && (s != [] ==> Key(s[|s|-1], byX) <= Key(f, byX))
    ensures UpTo(s, f, byX)
  {
    hide Key;
  }

  lemma {:induction false} InsertUpTo(s: seq<Found>, f: Found, last: Found, byX: bool)
    requires UpTo(s, last, byX) && Key(f, byX) <= Key(last, byX)
    ensures UpTo(Insert(s, f, byX), last, byX)
  {
    hide Key, Insert;
    var t := Insert(s, f, byX);
    InsertKeeps(s, f, byX);
    forall i | 0 <= i < |t| ensures Key(t[i], byX) <= Key(last, byX) {
      assert t[i] in t;
    }
  }

  lemma {:induction false} InsertSorts(s: seq<Found>, f: Found, byX: bool)
    requires Ordered(s, byX)
    ensures Ordered(Insert(s, f, byX), byX)
  {
    hide Key, Ordered, UpTo;
    if s == [] || Key(s[|s|-1], byX) <= Key(f, byX) {
      LastUpTo(s, f, byX);
      OrderedSnoc(s, f, byX);
    } else {
      var n := |s| - 1;
      OrderedFront(s, byX);
      InsertSorts(s[..n], f, byX);
      InsertUpTo(s[..n], f, s[n], byX);
      OrderedSnoc(Insert(s[..n], f, byX), s[n], byX);
    }
  }

  lemma {:induction false} OrderedFront(s: seq<Found>, byX: bool)
    requires Ordered(s, byX) && s != []
    ensures Ordered(s[..|s|-1], byX) && UpTo(s[..|s|-1], s[|s|-1], byX)
  {
    hide Key;
  }

  lemma {:induction false} SortedSorts(s: seq<Found>, byX: bool)
    ensures Ordered(Sorted(s, byX), byX) && multiset(Sorted(s, byX)) == multiset(s)
  {
    hide Ordered, Insert;
    if s == [] {
      NothingOrdered(byX);
    } else {
      var n := |s| - 1;
      SortedSorts(s[..n], byX);
      InsertSorts(Sorted(s[..n], byX), s[n], byX);
      InsertKeeps(Sorted(s[..n], byX), s[n], byX);
      assert s == s[..n] + [s[n]];
    }
  }

  /** The disks of one key, in their order. */
  function WithKey(s: seq<Found>, k: real, byX: bool): seq<Found> {
    if s == [] then []
    else WithKey(s[..|s|-1], k, byX) + (if Key(s[|s|-1], byX) == k then [s[|s|-1]] else [])
  }

  lemma {:induction false} WithKeySnoc(s: seq<Found>, f: Found, k: real, byX: bool)
    ensures WithKey(s + [f], k, byX) == WithKey(s, k, byX) + (if Key(f, byX) == k then [f] else [])
  {
    assert (s + [f])[..|s|] == s;
  }

  lemma {:induction false} InsertStable(s: seq<Found>, f: Found, k: real, byX: bool)
    ensures WithKey(Insert(s, f, byX), k, byX) == WithKey(s, k, byX) + (if Key(f, byX) == k then [f] else [])
  {
    hide Key, WithKey;
    if s == [] || Key(s[|s|-1], byX) <= Key(f, byX) {
      WithKeySnoc(s, f, k, byX);
    } else {
      var n := |s| - 1;
      InsertStable(s[..n], f, k, byX);
      WithKeySnoc(Insert(s[..n], f, byX), s[n], k, byX);
      WithKeySnoc(s[..n], s[n], k, byX);
      assert s[..n] + [s[n]] == s;
    }
  }

  /** Sorting is stable: disks of equal key keep their order. */
  lemma {:induction false} SortedStable(s: seq<Found>, k: real, byX: bool)
    ensures WithKey(Sorted(s, byX), k, byX) == WithKey(s, k, byX)
  {
    hide Key, Insert;
    if s != [] {
      SortedStable(s[..|s|-1], k, byX);
      InsertStable(Sorted(s[..|s|-1], byX), s[|s|-1], k, byX);
    }
  }

  lemma {:induction false} NothingOrdered(byX: bool)
    ensures Ordered([], byX)
  {}

  // ---- the rows ----

  function SumY(row: Row): real {
    if row == [] then 0.0 else SumY(row[..|row|-1]) + row[|row|-1].cy
  }

  function Mean(row: Row): real
    requires row != []
  { SumY(row) / |row| as real }

  /** The disk is within reach of the row. */
  predicate Near(row: Row, f: Found)
    requires row != []
  {
    -REACH <= f.cy - Mean(row) <= REACH
  }

  /** The rows in which the disks lie one after the other. */
  function Flat(rows: seq<Row>): seq<Found> {
    if rows == [] then [] else Flat(rows[..|rows|-1]) + rows[|rows|-1]
  }

  /** Each disk of the row, after the first, was near those before it. */
  predicate Grown(row: Row) {
    row != [] && forall k :: 0 < k < |row| ==> Near(row[..k], row[k])
  }

  /** The next row began because its first disk was not near the whole row before. */
  predicate Broken(a: Row, b: Row) {
    a != [] && b != [] && !Near(a, b[0])
  }

  predicate AreRows(rows: seq<Row>, disks: seq<Found>) {
    && Flat(rows) == disks && (forall i :: 0 <= i < |rows| ==> Grown(rows[i]))
    && forall i :: 0 < i < |rows| ==> Broken(rows[i-1], rows[i])
  }

  lemma {:induction false} NewRow(rows: seq<Row>, disks: seq<Found>, f: Found)
    requires AreRows(rows, disks) && (rows != [] ==> !Near(rows[|rows|-1], f))
    ensures AreRows(rows + [[f]], disks + [f])
  {
    hide Near;
    var more := rows + [[f]];
    assert more[..|rows|] == rows;
    if rows != [] { assert Grown(rows[|rows|-1]); }
  }

  lemma {:induction false} GrownMore(row: Row, f: Found)
    requires Grown(row) && Near(row, f)
    ensures Grown(row + [f])
  {
    hide Near;
    var more := row + [f];
    forall k | 0 < k < |more| ensures Near(more[..k], more[k]) {
      if k < |row| { assert more[..k] == row[..k]; } else { assert more[..k] == row; }
    }
  }

  lemma {:induction false} JoinRow(rows: seq<Row>, disks: seq<Found>, f: Found)
    requires AreRows(rows, disks) && rows != [] && rows[|rows|-1] != [] && Near(rows[|rows|-1], f)
    ensures AreRows(rows[..|rows|-1] + [rows[|rows|-1] + [f]], disks + [f])
  {
    hide Near, Grown;
    var n := |rows| - 1;
    var more := rows[..n] + [rows[n] + [f]];
    assert Grown(rows[n]);
    GrownMore(rows[n], f);
    assert more[..n] == rows[..n];
    SeqAssoc(Flat(rows[..n]), rows[n], [f]);
    if n > 0 { assert Broken(rows[n-1], rows[n]); }
  }

  lemma {:induction false} MiddleRows(rows: seq<Row>)
    requires |rows| > 1
    ensures var n := |rows| - 1; rows[..n][1..] == rows[1..][..n-1] && rows[1..][n-1] == rows[n]
  {}

  lemma {:induction false} FlatHead(rows: seq<Row>)
    requires rows != []
    ensures Flat(rows) == rows[0] + Flat(rows[1..])
  {
    if |rows| == 1 {
      assert rows[..0] == [] && rows[1..] == [];
    } else {
      var n := |rows| - 1;
      FlatHead(rows[..n]);
      MiddleRows(rows);
      SeqAssoc(rows[0], Flat(rows[1..][..n-1]), rows[n]);
    }
  }

  lemma {:induction false} RowsTail(rows: seq<Row>, disks: seq<Found>)
    requires AreRows(rows, disks) && rows != []
    ensures rows[0] != [] && |rows[0]| <= |disks| && rows[0] == disks[..|rows[0]|] && AreRows(rows[1..], disks[|rows[0]|..])
    ensures |rows[0]| < |disks| <==> |rows| > 1
    ensures |rows| > 1 ==> disks[|rows[0]|] == rows[1][0] && !Near(rows[0], disks[|rows[0]|])
  {
    hide Near;
    FlatHead(rows);
    assert Grown(rows[0]);
    if |rows| > 1 {
      FlatHead(rows[1..]);
      assert Broken(rows[0], rows[1]) && rows[1..][0] == rows[1];
    } else {
      assert rows[1..] == [];
    }
  }

  /** The same disks fall into rows in one way only. */
  lemma {:induction false} RowsOnly(a: seq<Row>, b: seq<Row>, disks: seq<Found>)
    requires AreRows(a, disks) && AreRows(b, disks)
    ensures a == b
    decreases |a|
  {
    hide AreRows, Near;
    if a == [] || b == [] {
      NoRows(a, disks);
      NoRows(b, disks);
    } else {
      RowsTail(a, disks);
      RowsTail(b, disks);
      FirstRow(a, b, disks);
      FirstRow(b, a, disks);
      RowsOnly(a[1..], b[1..], disks[|a[0]|..]);
      assert a == [a[0]] + a[1..] && b == [b[0]] + b[1..];
    }
  }

  lemma {:induction false} NoRows(a: seq<Row>, disks: seq<Found>)
    requires AreRows(a, disks)
    ensures a == [] <==> disks == []
  {
    if a != [] { FlatHead(a); assert Grown(a[0]); }
  }

  lemma {:induction false} FirstRow(a: seq<Row>, b: seq<Row>, disks: seq<Found>)
    requires AreRows(a, disks) && AreRows(b, disks) && a != [] && b != []
    ensures |a[0]| >= |b[0]|
  {
    hide Near, AreRows;
    RowsTail(a, disks);
    RowsTail(b, disks);
    var n := |a[0]|;
    if n < |b[0]| {
      assert b[0][..n] == a[0] && b[0][n] == disks[n];
      FirstGrown(b, disks, n);
    }
  }

  lemma {:induction false} FirstGrown(rows: seq<Row>, disks: seq<Found>, k: nat)
    requires AreRows(rows, disks) && rows != [] && 0 < k < |rows[0]|
    ensures Near(rows[0][..k], rows[0][k])
  {
    hide Near;
    assert Grown(rows[0]);
  }

  // ---- the loops ----

  method SortedBy(s: seq<Found>, byX: bool) returns (r: seq<Found>)
    ensures r == Sorted(s, byX)
  {
    r := [];
    for k := 0 to |s|
      invariant r == Sorted(s[..k], byX)
    {
      assert s[..k+1][..k] == s[..k];
      r := Insert(r, s[k], byX);
    }
    assert s[..|s|] == s;
  }

  method MeanY(row: Row) returns (m: real)
    requires row != []
    ensures m == Mean(row)
  {
    var sum := 0.0;
    for k := 0 to |row|
      invariant sum == SumY(row[..k])
    {
      assert row[..k+1][..k] == row[..k];
      sum := sum + row[k].cy;
    }
    assert row[..|row|] == row;
    m := sum / |row| as real;
  }

  lemma {:induction false} LastGrown(rows: seq<Row>, disks: seq<Found>)
    requires AreRows(rows, disks) && rows != []
    ensures rows[|rows|-1] != []
  {
    assert Grown(rows[|rows|-1]);
  }

  /** Each row is a row of the cut, sorted from left to right. */
  predicate RowsSorted(rows: seq<Row>, cut: seq<Row>) {
    |rows| == |cut| && forall i :: 0 <= i < |rows| ==> rows[i] == Sorted(cut[i], true)
  }

  /** The rows from top to bottom, each from left to right; before that last sorting they are the rows of the sorted disks. */
  ghost predicate Grouped(seats: seq<Found>, rows: seq<Row>) {
    exists cut :: AreRows(cut, Sorted(seats, false)) && RowsSorted(rows, cut)
  }

  method GroupRows(seats: seq<Found>) returns (rows: seq<Row>)
    ensures Grouped(seats, rows)
  {
    hide AreRows, Near, Sorted;
    var disks := SortedBy(seats, false);
    var open: seq<Row> := [];
    NothingCut();
    assert disks[..0] == [];
    for k := 0 to |disks|
      invariant AreRows(open, disks[..k])
    {
      var f := disks[k];
      assert disks[..k+1] == disks[..k] + [f];
      if open == [] {
        NewRow(open, disks[..k], f);
        open := open + [[f]];
      } else {
        LastGrown(open, disks[..k]);
        var m := MeanY(open[|open|-1]);
        NearIs(open[|open|-1], f, m);
        if f.cy - m > REACH || f.cy - m < -REACH {
          NewRow(open, disks[..k], f);
          open := open + [[f]];
        } else {
          JoinRow(open, disks[..k], f);
          open := open[..|open|-1] + [open[|open|-1] + [f]];
        }
      }
    }
    assert disks[..|disks|] == disks;
    rows := [];
    for k := 0 to |open|
      invariant |rows| == k && forall i :: 0 <= i < k ==> rows[i] == Sorted(open[i], true)
    {
      var row := SortedBy(open[k], true);
      rows := rows + [row];
    }
    assert RowsSorted(rows, open);
  }

  /** There is one way to group the disks. */
  lemma {:induction false} GroupedOnce(seats: seq<Found>, rows: seq<Row>, again: seq<Row>)
    requires Grouped(seats, rows) && Grouped(seats, again)
    ensures rows == again
  {
    hide AreRows, Sorted;
    var a :| AreRows(a, Sorted(seats, false)) && RowsSorted(rows, a);
    var b :| AreRows(b, Sorted(seats, false)) && RowsSorted(again, b);
    RowsOnly(a, b, Sorted(seats, false));
  }

  lemma {:induction false} NearIs(row: Row, f: Found, m: real)
    requires row != [] && m == Mean(row)
    ensures Near(row, f) <==> !(f.cy - m > REACH || f.cy - m < -REACH)
  {}

  lemma {:induction false} NothingCut()
    ensures AreRows([], [])
  {}

  function All(rows: seq<Row>): multiset<Found> {
    if rows == [] then multiset{} else All(rows[..|rows|-1]) + multiset(rows[|rows|-1])
  }

  /** Every disk is in exactly one row. */
  lemma {:induction false} EachDiskOnce(seats: seq<Found>, rows: seq<Row>)
    requires Grouped(seats, rows)
    ensures All(rows) == multiset(seats)
  {
    hide Grown, Broken, Sorted;
    var cut :| AreRows(cut, Sorted(seats, false)) && RowsSorted(rows, cut);
    SortedSorts(seats, false);
    SameDisks(rows, cut);
    FlatDisks(cut);
  }

  lemma {:induction false} SameDisks(rows: seq<Row>, cut: seq<Row>)
    requires RowsSorted(rows, cut)
    ensures All(rows) == All(cut)
  {
    hide Sorted;
    if rows != [] {
      SameDisks(rows[..|rows|-1], cut[..|cut|-1]);
      SortedSorts(cut[|cut|-1], true);
    }
  }

  lemma {:induction false} FlatDisks(rows: seq<Row>)
    ensures All(rows) == multiset(Flat(rows))
  {
    if rows != [] { FlatDisks(rows[..|rows|-1]); }
  }
}
