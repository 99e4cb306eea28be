// The flood fill over a boolean grid (`components`, apps/venue-svg-generator/benchmark_v1/phase5a_ladvi.py:39-70):
// an explicit stack and a `visited` array, shown to find exactly the maximal 4-connected sets of Grid.dfy.

module FloodFill {
  import opened Base
  import opened Grid

  const MIN_PIXELS := 30
  const MIN_SIDE := 10
  const MAX_SIDE := 24

  /** Tight bounds, both ends included. */
  datatype Box = Box(x0: int, x1: int, y0: int, y1: int)

  datatype Found = Found(cx: real, cy: real, box: Box, count: nat)

  ghost predicate Tight(b: Box, c: set<Pixel>) {
    && (forall p | p in c :: b.x0 <= p.x <= b.x1 && b.y0 <= p.y <= b.y1)
    && Hits(c, b.x0, false) && Hits(c, b.x1, false) && Hits(c, b.y0, true) && Hits(c, b.y1, true)
  }

  ghost predicate Hits(c: set<Pixel>, v: int, row: bool) {
    exists p :: p in c && Along(p, row) == v
  }

  predicate SeatSized(b: Box) {
    MIN_SIDE <= b.x1 - b.x0 + 1 <= MAX_SIDE && MIN_SIDE <= b.y1 - b.y0 + 1 <= MAX_SIDE
  }

  /** A component that may be a seat disk. */
  ghost predicate Kept(c: set<Pixel>) {
    |c| >= MIN_PIXELS && exists b :: Tight(b, c) && SeatSized(b)
  }

  ghost function KeptOf(cs: seq<set<Pixel>>): seq<set<Pixel>> {
    if cs == [] then [] else KeptOf(cs[..|cs|-1]) + (if Kept(cs[|cs|-1]) then [cs[|cs|-1]] else [])
  }

  function Along(p: Pixel, row: bool): int { if row then p.y else p.x }

  ghost function Total(c: set<Pixel>, row: bool): int {
    if c == {} then 0 else var p :| p in c; Along(p, row) + Total(c - {p}, row)
  }

  /** The entry of a component: its size, its bounds and the mean of its pixels. */
  ghost predicate Describes(f: Found, c: set<Pixel>) {
    && c != {} && f.count == |c| && Tight(f.box, c)
    && f.cx == Total(c, false) as real / |c| as real
    && f.cy == Total(c, true) as real / |c| as real
  }

  /** The set pixels of an array. */
  ghost function Lit(a: array2<bool>): set<Pixel>
    reads a
  {
    set y, x | 0 <= y < a.Length0 && 0 <= x < a.Length1 && a[y, x] :: Pixel(y, x)
  }

  // ---- bounds, sums, and the filter ----

  lemma {:induction false} TightOnly(a: Box, b: Box, c: set<Pixel>)
    requires Tight(a, c) && Tight(b, c)
    ensures a == b
  {}

  lemma {:induction false} TotalWith(c: set<Pixel>, p: Pixel, row: bool)
    requires p !in c
    ensures Total(c + {p}, row) == Total(c, row) + Along(p, row)
    decreases |c|
  {
    var d := c + {p};
    var q :| q in d && Total(d, row) == Along(q, row) + Total(d - {q}, row);
    if q == p {
      assert d - {q} == c;
    } else {
      assert d - {q} == (c - {q}) + {p};
      TotalWith(c - {q}, p, row);
      assert (c - {q}) + {q} == c;
      TotalWith(c - {q}, q, row);
    }
  }

  lemma {:induction false} KeptOfSnoc(cs: seq<set<Pixel>>, c: set<Pixel>)
    ensures KeptOf(cs + [c]) == KeptOf(cs) + (if Kept(c) then [c] else [])
  {
    assert (cs + [c])[..|cs|] == cs;
  }

  /** The filter keeps the order: each kept entry has an earlier or equal place among all. */
  lemma {:induction false} KeptFrom(cs: seq<set<Pixel>>, i: nat) returns (k: nat)
    requires i < |KeptOf(cs)|
    ensures k < |cs| && KeptOf(cs)[i] == cs[k] && Kept(cs[k]) && i == |KeptOf(cs[..k])|
  {
    hide Kept;
    var n := |cs| - 1;
    if i < |KeptOf(cs[..n])| {
      k := KeptFrom(cs[..n], i);
      assert cs[..n][..k] == cs[..k];
    } else {
      k := n;
    }
  }

  lemma {:induction false} KeptGrow(cs: seq<set<Pixel>>, k: nat)
    requires k <= |cs|
    ensures |KeptOf(cs[..k])| <= |KeptOf(cs)|
    decreases |cs|
  {
    hide Kept;
    if k < |cs| {
      KeptGrow(cs[..|cs|-1], k);
      assert cs[..|cs|-1][..k] == cs[..k];
    } else {
      assert cs[..k] == cs;
    }
  }

  lemma {:induction false} KeptMonotone(cs: seq<set<Pixel>>, l: nat, k: nat)
    requires l <= k <= |cs|
    ensures |KeptOf(cs[..l])| <= |KeptOf(cs[..k])|
  {
    KeptGrow(cs[..k], l);
    assert cs[..k][..l] == cs[..l];
  }

  lemma {:induction false} KeptAll(cs: seq<set<Pixel>>, c: set<Pixel>)
    ensures c in KeptOf(cs) <==> c in cs && Kept(c)
  {
    hide Kept;
    if cs != [] { KeptAll(cs[..|cs|-1], c); }
  }

  // ---- what the result is ----

  /** The components that are kept, in the order of their first pixels. */
  ghost function Expected(ink: set<Pixel>, order: seq<Pixel>): seq<set<Pixel>> {
    KeptOf(Firsts(ink, order))
  }

  lemma {:induction false} KeptFroms(cs: seq<set<Pixel>>, i: nat, j: nat) returns (k: nat, l: nat)
    requires i < j < |KeptOf(cs)|
    ensures k < l < |cs| && KeptOf(cs)[i] == cs[k] && KeptOf(cs)[j] == cs[l]
  {
    hide KeptOf, Kept;
    k := KeptFrom(cs, i);
    l := KeptFrom(cs, j);
    if l <= k { KeptMonotone(cs, l, k); }
  }

  /** Exactly the maximal 4-connected sets that pass the filter, each once, in the reading order of their first pixels. */
  lemma {:induction false} ExpectedExact(ink: set<Pixel>, order: seq<Pixel>)
    requires Reading(ink, order)
    ensures forall c :: c in Expected(ink, order) <==> Maximal(ink, c) && Kept(c)
    ensures forall i, j :: 0 <= i < j < |Expected(ink, order)| ==>
              Expected(ink, order)[i] !! Expected(ink, order)[j] && Earlier(Expected(ink, order)[i], Expected(ink, order)[j])
  {
    hide Kept, KeptOf, Maximal, Firsts, Earlier;
    forall c ensures c in Expected(ink, order) <==> Maximal(ink, c) && Kept(c) {
      KeptAll(Firsts(ink, order), c);
      FirstsExact(ink, order, c);
    }
    forall i, j | 0 <= i < j < |Expected(ink, order)|
      ensures Expected(ink, order)[i] !! Expected(ink, order)[j] && Earlier(Expected(ink, order)[i], Expected(ink, order)[j])
    {
      var k, l := KeptFroms(Firsts(ink, order), i, j);
      FirstsApart(ink, order, k, l);
      var p, q := FirstsOrdered(ink, order, k, l);
      Earliest(p, q, Firsts(ink, order)[k], Firsts(ink, order)[l]);
    }
  }

  /** The first pixel of `c` comes before the first of `d`. */
  ghost predicate Earlier(c: set<Pixel>, d: set<Pixel>) {
    exists p, q :: Leads(p, c) && Leads(q, d) && Before(p, q)
  }

  lemma {:induction false} Earliest(p: Pixel, q: Pixel, c: set<Pixel>, d: set<Pixel>)
    requires Leads(p, c) && Leads(q, d) && Before(p, q)
    ensures Earlier(c, d)
  {}

  /** One list of entries describes one list of components at most: nothing in an entry is free. */
  lemma {:induction false} DescribedOnce(f: Found, g: Found, c: set<Pixel>)
    requires Describes(f, c) && Describes(g, c)
    ensures f == g
  {
    TightOnly(f.box, g.box, c);
  }

  // ---- the search from one pixel ----

  ghost function Range(s: seq<Pixel>): set<Pixel> { set p | p in s }

  /** What the search keeps: what it has seen is what was seen before, what it took and what it still holds. */
  ghost predicate Flooding(ink: set<Pixel>, before: set<Pixel>, start: Pixel, points: seq<Pixel>, stack: seq<Pixel>, seen: set<Pixel>) {
    && seen == before + Range(points + stack)
    && Distinct(points + stack)
    && Range(points + stack) !! before
    && start in Range(points + stack) && Range(points + stack) <= ComponentOf(ink, start)
  }

  lemma {:induction false} RangeSnoc(s: seq<Pixel>, p: Pixel)
    ensures Range(s + [p]) == Range(s) + {p}
  {}

  lemma {:induction false} DistinctSnoc(s: seq<Pixel>, p: Pixel)
    requires Distinct(s) && p !in Range(s)
    ensures Distinct(s + [p])
  {}

  lemma {:induction false} DistinctSize(s: seq<Pixel>)
    requires Distinct(s)
    ensures |Range(s)| == |s|
  {
    if s != [] {
      var q, p := s[..|s|-1], s[|s|-1];
      assert s == q + [p];
      DistinctSize(q);
      RangeSnoc(q, p);
    }
  }

  /** A neighbour not seen yet is pushed. */
  lemma {:induction false} FloodPush(ink: set<Pixel>, before: set<Pixel>, start: Pixel, points: seq<Pixel>, stack: seq<Pixel>, seen: set<Pixel>, q: Pixel, r: Pixel)
    requires Flooding(ink, before, start, points, stack, seen) && q in points
    requires r in ink && r !in seen && Adjacent(q, r)
    ensures Flooding(ink, before, start, points, stack + [r], seen + {r})
  {
    hide ComponentOf, Range, Distinct, Closed;
    RangeIn(points + stack, q);
    ComponentClosed(ink, start);
    NextIn(ink, ComponentOf(ink, start), q, r);
    assert points + (stack + [r]) == (points + stack) + [r];
    RangeSnoc(points + stack, r);
    DistinctSnoc(points + stack, r);
  }

  lemma {:induction false} RangeIn(s: seq<Pixel>, q: Pixel)
    requires q in s
    ensures q in Range(s)
  {}

  lemma {:induction false} NextIn(ink: set<Pixel>, c: set<Pixel>, q: Pixel, r: Pixel)
    requires Closed(ink, c, c) && q in c && r in ink && Adjacent(q, r)
    ensures r in c
  {}

  /** The top of the stack is taken. */
  lemma {:induction false} FloodPop(ink: set<Pixel>, before: set<Pixel>, start: Pixel, points: seq<Pixel>, stack: seq<Pixel>, seen: set<Pixel>)
    requires Flooding(ink, before, start, points, stack, seen) && stack != []
    ensures Flooding(ink, before, start, points + [stack[|stack|-1]], stack[..|stack|-1], seen)
  {
    hide ComponentOf;
    var n := |stack| - 1;
    SwapRange(points, stack[..n], stack[n]);
    assert points + (stack[..n] + [stack[n]]) == points + stack by { assert stack[..n] + [stack[n]] == stack; }
  }

  lemma {:induction false} SwapRange(a: seq<Pixel>, b: seq<Pixel>, p: Pixel)
    ensures Range((a + [p]) + b) == Range(a + (b + [p]))
    ensures Distinct(a + (b + [p])) ==> Distinct((a + [p]) + b)
  {
    var s, t := a + (b + [p]), (a + [p]) + b;
    forall q ensures q in s <==> q in t {
      assert q in s <==> q in a || q in b || q == p;
      assert q in t <==> q in a || q in b || q == p;
    }
    if Distinct(s) { SwapDistinct(a, b, p); }
  }

  lemma {:induction false} SwapDistinct(a: seq<Pixel>, b: seq<Pixel>, p: Pixel)
    requires Distinct(a + (b + [p]))
    ensures Distinct((a + [p]) + b)
  {
    var s, t, n := a + (b + [p]), (a + [p]) + b, |a|;
    forall i, j | 0 <= i < j < |t| ensures t[i] != t[j] {
      var k := if i < n then i else if i == n then |s| - 1 else i - 1;
      var l := if j < n then j else if j == n then |s| - 1 else j - 1;
      assert t[i] == s[k] && t[j] == s[l];
    }
  }

  /** When nothing is left to take, the points are the component. */
  lemma {:induction false} FloodDone(ink: set<Pixel>, before: set<Pixel>, start: Pixel, points: seq<Pixel>, seen: set<Pixel>)
    requires Flooding(ink, before, start, points, [], seen)
    requires Closed(ink, Range(points), seen) && Closed(ink, before, before) && before <= ink
    ensures Range(points) == ComponentOf(ink, start) && Distinct(points) && seen == before + ComponentOf(ink, start)
    ensures Closed(ink, seen, seen) && seen <= ink
  {
    hide ComponentOf, Adjacent;
    assert points + [] == points;
    var c := Range(points);
    ComponentInk(ink, start);
    forall p, q | p in c && q in ink && Adjacent(p, q) ensures q in c {
      if q in before {
        NextTo(p, q);
        NextIn(ink, before, q, p);
      }
    }
    hide Range;
    ClosedComponent(ink, c, start);
  }

  lemma {:induction false} NextTo(p: Pixel, q: Pixel)
    requires Adjacent(p, q)
    ensures Adjacent(q, p)
  {}

  lemma {:induction false} ClosedComponent(ink: set<Pixel>, c: set<Pixel>, start: Pixel)
    requires start in c && Closed(ink, c, c)
    ensures ComponentOf(ink, start) <= c
  {
    hide Closed, Linked;
    forall q | q in ComponentOf(ink, start) ensures q in c { ClosedHolds(ink, c, start, q); }
  }

  // ---- the array ----

  method Mark(visited: array2<bool>, p: Pixel)
    requires 0 <= p.y < visited.Length0 && 0 <= p.x < visited.Length1
    modifies visited
    ensures Lit(visited) == old(Lit(visited)) + {p}
  {
    visited[p.y, p.x] := true;
  }

  /** The step to the `d`-th neighbour: below, above, right, left. */
  function Neighbour(p: Pixel, d: nat): Pixel
    requires d < 4
  {
    if d == 0 then Pixel(p.y + 1, p.x) else if d == 1 then Pixel(p.y - 1, p.x)
    else if d == 2 then Pixel(p.y, p.x + 1) else Pixel(p.y, p.x - 1)
  }

  lemma {:induction false} NeighboursAre(p: Pixel, q: Pixel)
    ensures Adjacent(p, q) <==> q in {Neighbour(p, 0), Neighbour(p, 1), Neighbour(p, 2), Neighbour(p, 3)}
  {}

  /** The neighbours of `p` up to the `d`-th that are in the mask have been seen. */
  ghost predicate Looked(ink: set<Pixel>, p: Pixel, d: nat, seen: set<Pixel>)
    requires d <= 4
  {
    forall i :: 0 <= i < d ==> Neighbour(p, i) in ink ==> Neighbour(p, i) in seen
  }

  lemma {:induction false} LookedAll(ink: set<Pixel>, points: seq<Pixel>, p: Pixel, seen: set<Pixel>)
    requires Closed(ink, Range(points), seen) && Looked(ink, p, 4, seen)
    ensures Closed(ink, Range(points + [p]), seen)
  {
    RangeSnoc(points, p);
    forall q | q in ink && Adjacent(p, q) ensures q in seen { NeighboursAre(p, q); }
  }

  lemma {:induction false} ClosedMore(ink: set<Pixel>, c: set<Pixel>, seen: set<Pixel>, more: set<Pixel>)
    requires Closed(ink, c, seen) && seen <= more
    ensures Closed(ink, c, more)
  {}

  predicate InGrid(a: array2<bool>, p: Pixel) {
    0 <= p.y < a.Length0 && 0 <= p.x < a.Length1
  }

  /** The four neighbours of a taken pixel: those in the mask and not seen are marked and pushed. */
  method Spread(mask: array2<bool>, visited: array2<bool>, p: Pixel, held: seq<Pixel>, ghost before: set<Pixel>, ghost start: Pixel, ghost points: seq<Pixel>)
    returns (stack: seq<Pixel>)
    requires mask != visited && mask.Length0 == visited.Length0 && mask.Length1 == visited.Length1
    requires Flooding(Lit(mask), before, start, points, held, Lit(visited)) && p in points
    modifies visited
    ensures Flooding(Lit(mask), before, start, points, stack, Lit(visited))
    ensures old(Lit(visited)) <= Lit(visited) && Looked(Lit(mask), p, 4, Lit(visited))
  {
    hide Flooding, Lit;
    ghost var ink := Lit(mask);
    stack := held;
    for d := 0 to 4
      invariant Flooding(ink, before, start, points, stack, Lit(visited))
      invariant old(Lit(visited)) <= Lit(visited) && Looked(ink, p, d, Lit(visited))
    {
      var q := Neighbour(p, d);
      NeighboursAre(p, q);
      LitAt(mask, q);
      LitAt(visited, q);
      if InGrid(mask, q) && mask[q.y, q.x] && !visited[q.y, q.x] {
        FloodPush(ink, before, start, points, stack, Lit(visited), p, q);
        Mark(visited, q);
        stack := stack + [q];
      }
    }
  }

  lemma {:induction false} LitAt(a: array2<bool>, p: Pixel)
    ensures p in Lit(a) <==> InGrid(a, p) && a[p.y, p.x]
  {}

  /** The search from a pixel not seen yet: it takes each pixel of its component once. */
  method Fill(mask: array2<bool>, visited: array2<bool>, start: Pixel) returns (points: seq<Pixel>)
    requires mask != visited && mask.Length0 == visited.Length0 && mask.Length1 == visited.Length1
    requires Lit(visited) <= Lit(mask) && Closed(Lit(mask), Lit(visited), Lit(visited))
    requires start in Lit(mask) && start !in Lit(visited)
    modifies visited
    ensures Range(points) == ComponentOf(Lit(mask), start) && Distinct(points)
    ensures Lit(visited) == old(Lit(visited)) + ComponentOf(Lit(mask), start)
    ensures Lit(visited) <= Lit(mask) && Closed(Lit(mask), Lit(visited), Lit(visited))
  {
    hide Flooding, Lit, ComponentOf, Closed, Range, Distinct;
    ghost var ink, before := Lit(mask), Lit(visited);
    LitAt(mask, start);
    var stack := [start];
    Mark(visited, start);
    points := [];
    FloodStart(ink, before, start);
    while stack != []
      invariant Flooding(ink, before, start, points, stack, Lit(visited))
      invariant Closed(ink, Range(points), Lit(visited))
      decreases |ink| - |points|
    {
      var p := stack[|stack|-1];
      FloodPop(ink, before, start, points, stack, Lit(visited));
      stack := stack[..|stack|-1];
      FloodRoom(ink, before, start, points + [p], stack, Lit(visited));
      ghost var seen := Lit(visited);
      stack := Spread(mask, visited, p, stack, before, start, points + [p]);
      ClosedMore(ink, Range(points), seen, Lit(visited));
      LookedAll(ink, points, p, Lit(visited));
      points := points + [p];
    }
    FloodDone(ink, before, start, points, Lit(visited));
  }

  lemma {:induction false} FloodStart(ink: set<Pixel>, before: set<Pixel>, start: Pixel)
    requires start in ink && start !in before
    ensures Flooding(ink, before, start, [], [start], before + {start}) && Closed(ink, Range([]), before + {start})
  {
    hide ComponentOf;
    SelfIn(ink, start);
    assert [] + [start] == [start];
    assert Range([start]) == {start};
  }

  lemma {:induction false} FloodRoom(ink: set<Pixel>, before: set<Pixel>, start: Pixel, points: seq<Pixel>, stack: seq<Pixel>, seen: set<Pixel>)
    requires Flooding(ink, before, start, points, stack, seen)
    ensures |points| <= |ink|
  {
    hide ComponentOf;
    DistinctSize(points + stack);
    ComponentInk(ink, start);
    SubsetSize(Range(points + stack), ink);
  }

  // ---- one entry ----

  /** The entry of a component found, unless the filter drops it. */
  method Measure(points: seq<Pixel>) returns (f: Found, kept: bool)
    requires points != [] && Distinct(points)
    ensures kept <==> Kept(Range(points))
    ensures kept ==> Describes(f, Range(points))
  {
    hide Total, Kept, Tight, Range;
    ghost var c := Range(points);
    DistinctSize(points);
    kept := false;
    f := Found(0.0, 0.0, Box(0, 0, 0, 0), 0);
    if |points| < MIN_PIXELS {
      NotKept(c);
      return;
    }
    var b, sx, sy := Box(points[0].x, points[0].x, points[0].y, points[0].y), points[0].x, points[0].y;
    FirstPoint(points);
    for k := 1 to |points|
      invariant Tight(b, Range(points[..k])) && sx == Total(Range(points[..k]), false) && sy == Total(Range(points[..k]), true)
    {
      var p := points[k];
      NextPoint(points, k);
      Wider(b, Range(points[..k]), p);
      b := Widen(b, p);
      sx, sy := sx + p.x, sy + p.y;
    }
    assert points[..|points|] == points;
    KeptExactly(b, c);
    if SeatSized(b) {
      f := Found(sx as real / |points| as real, sy as real / |points| as real, b, |points|);
      kept := true;
    }
  }

  function Widen(b: Box, p: Pixel): Box {
    Box(if p.x < b.x0 then p.x else b.x0, if p.x > b.x1 then p.x else b.x1,
        if p.y < b.y0 then p.y else b.y0, if p.y > b.y1 then p.y else b.y1)
  }

  lemma {:induction false} Wider(b: Box, c: set<Pixel>, p: Pixel)
    requires Tight(b, c)
    ensures Tight(Widen(b, p), c + {p})
  {
    hide Hits;
    HitsMore(c, b.x0, false, p);
    HitsMore(c, b.x1, false, p);
    HitsMore(c, b.y0, true, p);
    HitsMore(c, b.y1, true, p);
  }

  lemma {:induction false} HitsMore(c: set<Pixel>, v: int, row: bool, p: Pixel)
    requires Hits(c, v, row)
    ensures Hits(c + {p}, v, row) && Hits(c + {p}, Along(p, row), row)
  {
    var q :| q in c && Along(q, row) == v;
    assert q in c + {p} && p in c + {p};
  }

  lemma {:induction false} FirstPoint(points: seq<Pixel>)
    requires points != []
    ensures var p := points[0];
            Tight(Box(p.x, p.x, p.y, p.y), Range(points[..1])) && Total(Range(points[..1]), false) == p.x && Total(Range(points[..1]), true) == p.y
  {
    var p := points[0];
    assert points[..1] == [p] && Range([p]) == {p} && {} + {p} == {p};
    TotalWith({}, p, false);
    TotalWith({}, p, true);
    assert p in {p};
  }

  lemma {:induction false} NextPoint(points: seq<Pixel>, k: nat)
    requires k < |points| && Distinct(points)
    ensures Range(points[..k+1]) == Range(points[..k]) + {points[k]}
    ensures Total(Range(points[..k+1]), false) == Total(Range(points[..k]), false) + points[k].x
    ensures Total(Range(points[..k+1]), true) == Total(Range(points[..k]), true) + points[k].y
  {
    hide Total;
    assert points[..k+1] == points[..k] + [points[k]];
    RangeSnoc(points[..k], points[k]);
    TotalWith(Range(points[..k]), points[k], false);
    TotalWith(Range(points[..k]), points[k], true);
  }

  lemma {:induction false} NotKept(c: set<Pixel>)
    requires |c| < MIN_PIXELS
    ensures !Kept(c)
  {}

  lemma {:induction false} KeptExactly(b: Box, c: set<Pixel>)
    requires |c| >= MIN_PIXELS && Tight(b, c)
    ensures Kept(c) <==> SeatSized(b)
  {
    hide Tight;
    if Kept(c) {
      var d :| Tight(d, c) && SeatSized(d);
      TightOnly(b, d, c);
    }
  }

  // ---- the whole grid ----

  /** The set pixels, row by row. */
  method Where(mask: array2<bool>) returns (order: seq<Pixel>)
    ensures Reading(Lit(mask), order)
  {
    order := [];
    for y := 0 to mask.Length0
      invariant Listed(mask, order, Pixel(y, 0))
    {
      for x := 0 to mask.Length1
        invariant Listed(mask, order, Pixel(y, x))
      {
        if mask[y, x] { order := order + [Pixel(y, x)]; }
      }
    }
  }

  /** `order` lists the set pixels that come before `end`. */
  ghost predicate Listed(mask: array2<bool>, order: seq<Pixel>, end: Pixel)
    reads mask
  {
    && (forall p :: p in order <==> p in Lit(mask) && Before(p, end))
    && forall i, j :: 0 <= i < j < |order| ==> Before(order[i], order[j])
  }

  /** The entries found so far describe the components kept so far. */
  ghost predicate AllDescribed(found: seq<Found>, cs: seq<set<Pixel>>) {
    |found| == |cs| && forall i :: 0 <= i < |found| ==> Describes(found[i], cs[i])
  }

  /** `visits` holds each pixel of `seen` once. */
  ghost predicate VisitedOnce(visits: seq<Pixel>, seen: set<Pixel>) {
    Distinct(visits) && Range(visits) == seen
  }

  lemma {:induction false} VisitedMore(visits: seq<Pixel>, seen: set<Pixel>, points: seq<Pixel>)
    requires VisitedOnce(visits, seen) && Distinct(points) && Range(points) !! seen
    ensures VisitedOnce(visits + points, seen + Range(points))
  {
    var s := visits + points;
    forall i, j | 0 <= i < j < |s| ensures s[i] != s[j] {
      if i < |visits| && j >= |visits| { assert s[i] in Range(visits) && s[j] in Range(points); }
    }
    assert forall p :: p in s <==> p in visits || p in points;
  }

  /** The seen pixels are those of the components of the listed ones. */
  ghost predicate Reached(ink: set<Pixel>, order: seq<Pixel>, k: nat, seen: set<Pixel>)
    requires k <= |order|
  {
    forall p :: p in seen <==> exists j :: 0 <= j < k && p in ComponentOf(ink, order[j])
  }

  lemma {:induction false} ReachedNew(ink: set<Pixel>, order: seq<Pixel>, k: nat, seen: set<Pixel>)
    requires k < |order| && Reached(ink, order, k, seen) && order[k] in ink
    ensures order[k] !in seen <==> NewAt(ink, order[..k+1], k)
    ensures order[k] in seen ==> Reached(ink, order, k + 1, seen)
    ensures order[k] !in seen ==> Reached(ink, order, k + 1, seen + ComponentOf(ink, order[k])) && ComponentOf(ink, order[k]) !! seen
  {
    hide ComponentOf;
    var c := ComponentOf(ink, order[k]);
    if order[k] in seen {
      var j :| 0 <= j < k && order[k] in ComponentOf(ink, order[j]);
      SameComponent(ink, order[j], order[k]);
    } else {
      forall p | p in c ensures p !in seen {
        if p in seen {
          var j :| 0 <= j < k && p in ComponentOf(ink, order[j]);
          SameComponent(ink, order[j], p);
          SameComponent(ink, order[k], p);
          SelfIn(ink, order[k]);
        }
      }
    }
  }

  lemma {:induction false} FirstsNext(ink: set<Pixel>, order: seq<Pixel>, k: nat)
    requires k < |order|
    ensures Firsts(ink, order[..k+1])
         == Firsts(ink, order[..k]) + (if NewAt(ink, order[..k+1], k) then [ComponentOf(ink, order[k])] else [])
  {
    assert order[..k+1][..k] == order[..k];
  }

  /** One pixel of the list is done: its component was measured if it was new. */
  lemma {:induction false} ExpectedNext(ink: set<Pixel>, order: seq<Pixel>, k: nat)
    requires k < |order|
    ensures Expected(ink, order[..k+1]) == Expected(ink, order[..k])
         + (if NewAt(ink, order[..k+1], k) && Kept(ComponentOf(ink, order[k])) then [ComponentOf(ink, order[k])] else [])
  {
    hide ComponentOf, Firsts, NewAt, Kept, KeptOf;
    FirstsNext(ink, order, k);
    KeptOfSnoc(Firsts(ink, order[..k]), ComponentOf(ink, order[k]));
    assert Firsts(ink, order[..k]) + [] == Firsts(ink, order[..k]);
    assert KeptOf(Firsts(ink, order[..k])) + [] == KeptOf(Firsts(ink, order[..k]));
  }

  /** The entries describe, one by one, the kept components in reading order. */
  ghost predicate Correct(ink: set<Pixel>, found: seq<Found>) {
    exists order :: Reading(ink, order) && AllDescribed(found, Expected(ink, order))
  }

  lemma {:induction false} IsCorrect(ink: set<Pixel>, order: seq<Pixel>, found: seq<Found>)
    requires Reading(ink, order) && AllDescribed(found, Expected(ink, order))
    ensures Correct(ink, found)
  {}

  /** Two lists in reading order of the same pixels are one list. */
  lemma {:induction false} OneReading(ink: set<Pixel>, a: seq<Pixel>, b: seq<Pixel>)
    requires Reading(ink, a) && Reading(ink, b)
    ensures a == b
    decreases |a|
  {
    if a == [] || b == [] {
      EmptyReading(ink, a);
      EmptyReading(ink, b);
    } else {
      var m, n := |a| - 1, |b| - 1;
      LastReading(ink, a, b);
      ReadingFront(ink, a);
      ReadingFront(ink, b);
      OneReading(ink - {a[m]}, a[..m], b[..n]);
      assert a == a[..m] + [a[m]] && b == b[..n] + [b[n]];
    }
  }

  lemma {:induction false} EmptyReading(ink: set<Pixel>, a: seq<Pixel>)
    requires Reading(ink, a)
    ensures a == [] <==> ink == {}
  {
    if a != [] { assert a[0] in a; }
  }

  lemma {:induction false} LastReading(ink: set<Pixel>, a: seq<Pixel>, b: seq<Pixel>)
    requires Reading(ink, a) && Reading(ink, b) && a != [] && b != []
    ensures a[|a|-1] == b[|b|-1]
  {
    var p, q := a[|a|-1], b[|b|-1];
    assert p in a && q in b;
    assert p in b && q in a;
    var i :| 0 <= i < |b| && b[i] == p;
    var j :| 0 <= j < |a| && a[j] == q;
  }

  lemma {:induction false} ReadingFront(ink: set<Pixel>, a: seq<Pixel>)
    requires Reading(ink, a) && a != []
    ensures Reading(ink - {a[|a|-1]}, a[..|a|-1])
  {
    var n := |a| - 1;
    assert forall p :: p in a <==> p in a[..n] || p == a[n];
  }

  lemma {:induction false} SameEntries(found: seq<Found>, again: seq<Found>, cs: seq<set<Pixel>>)
    requires AllDescribed(found, cs) && AllDescribed(again, cs)
    ensures found == again
  {
    hide Describes;
    forall i | 0 <= i < |found| ensures found[i] == again[i] { DescribedOnce(found[i], again[i], cs[i]); }
  }

  /** A mask has one correct result: order and entries are determined, nothing is free. */
  lemma {:induction false} CorrectOnce(ink: set<Pixel>, found: seq<Found>, again: seq<Found>)
    requires Correct(ink, found) && Correct(ink, again)
    ensures found == again
  {
    hide Reading, AllDescribed, Expected;
    var a :| Reading(ink, a) && AllDescribed(found, Expected(ink, a));
    var b :| Reading(ink, b) && AllDescribed(again, Expected(ink, b));
    OneReading(ink, a, b);
    SameEntries(found, again, Expected(ink, a));
  }

  /** `components`: the correct result, and every pixel of the mask is taken exactly once. */
  method Components(mask: array2<bool>) returns (found: seq<Found>, ghost visits: seq<Pixel>)
    ensures Correct(Lit(mask), found)
    ensures VisitedOnce(visits, Lit(mask))
  {
    hide Correct, Lit, Reading, Expected, Reached, ComponentOf, Closed, VisitedOnce, AllDescribed, Range, NewAt;
    var visited := new bool[mask.Length0, mask.Length1]((y, x) => false);
    ghost var ink := Lit(mask);
    var starts := Where(mask);
    ghost var order := starts;
    found, visits := [], [];
    Unvisited(visited, ink, order);
    for k := 0 to |starts|
      invariant mask.Length0 == visited.Length0 && mask.Length1 == visited.Length1 && mask != visited && fresh(visited)
      invariant Lit(visited) <= ink && Closed(ink, Lit(visited), Lit(visited)) && Reached(ink, order, k, Lit(visited))
      invariant VisitedOnce(visits, Lit(visited)) && AllDescribed(found, Expected(ink, order[..k]))
    {
      var start := starts[k];
      InReading(ink, order, k);
      LitAt(visited, start);
      LitAt(mask, start);
      ReachedNew(ink, order, k, Lit(visited));
      ExpectedNext(ink, order, k);
      assert Expected(ink, order[..k]) + [] == Expected(ink, order[..k]);
      if visited[start.y, start.x] {
        continue;
      }
      ghost var seen := Lit(visited);
      var points := Fill(mask, visited, start);
      VisitedMore(visits, seen, points);
      visits := visits + points;
      SelfIn(ink, start);
      Nonempty(points, start);
      var f, kept := Measure(points);
      if kept {
        DescribedMore(found, Expected(ink, order[..k]), f, Range(points));
        found := found + [f];
      }
    }
    assert order[..|order|] == order;
    AllReached(ink, order, Lit(visited));
    IsCorrect(ink, order, found);
  }

  lemma {:induction false} Unvisited(visited: array2<bool>, ink: set<Pixel>, order: seq<Pixel>)
    requires forall y, x :: 0 <= y < visited.Length0 && 0 <= x < visited.Length1 ==> !visited[y, x]
    ensures Lit(visited) == {} && Closed(ink, {}, {}) && Reached(ink, order, 0, {})
    ensures VisitedOnce([], {}) && AllDescribed([], Expected(ink, order[..0]))
  {}

  lemma {:induction false} InReading(ink: set<Pixel>, order: seq<Pixel>, k: nat)
    requires Reading(ink, order) && k < |order|
    ensures order[k] in ink
  {
    assert order[k] in order;
  }

  lemma {:induction false} Nonempty(points: seq<Pixel>, p: Pixel)
    requires p in Range(points)
    ensures points != []
  {}

  lemma {:induction false} DescribedMore(found: seq<Found>, cs: seq<set<Pixel>>, f: Found, c: set<Pixel>)
    requires AllDescribed(found, cs) && Describes(f, c)
    ensures AllDescribed(found + [f], cs + [c])
  {
    hide Describes;
  }

  lemma {:induction false} AllReached(ink: set<Pixel>, order: seq<Pixel>, seen: set<Pixel>)
    requires Reading(ink, order) && Reached(ink, order, |order|, seen) && seen <= ink
    ensures seen == ink
  {
    hide ComponentOf, Before;
    forall p | p in ink ensures p in seen {
      assert p in order;
      var j :| 0 <= j < |order| && order[j] == p;
      SelfIn(ink, p);
    }
  }
}
