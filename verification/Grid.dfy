// 4-connected components of a set of pixels, stated without any search
// (the meaning of `components`, apps/venue-svg-generator/benchmark_v1/phase5a_ladvi.py:39-70).

module Grid {
  datatype Pixel = Pixel(y: int, x: int)

  predicate Adjacent(p: Pixel, q: Pixel) {
    (q.x == p.x && (q.y == p.y + 1 || q.y == p.y - 1)) || (q.y == p.y && (q.x == p.x + 1 || q.x == p.x - 1))
  }

  /** Row by row, and from left to right in a row. */
  predicate Before(p: Pixel, q: Pixel) {
    p.y < q.y || (p.y == q.y && p.x < q.x)
  }

  ghost predicate Path(ink: set<Pixel>, w: seq<Pixel>) {
    && w != [] && (forall i :: 0 <= i < |w| ==> w[i] in ink)
    && forall i :: 0 < i < |w| ==> Adjacent(w[i-1], w[i])
  }

  ghost predicate Linked(ink: set<Pixel>, p: Pixel, q: Pixel) {
    exists w :: Path(ink, w) && w[0] == p && w[|w|-1] == q
  }

  ghost function ComponentOf(ink: set<Pixel>, p: Pixel): set<Pixel> {
    set q | q in ink && Linked(ink, p, q)
  }

  /** A nonempty set of pixels of `ink`, connected within itself, that no further pixel of `ink` touches. */
  ghost predicate Maximal(ink: set<Pixel>, c: set<Pixel>) {
    && c != {} && c <= ink
    && (forall p, q | p in c && q in c :: Linked(c, p, q))
    && Closed(ink, c, c)
  }

  /** Every pixel of `ink` next to one of `c` is in `seen`. */
  ghost predicate Closed(ink: set<Pixel>, c: set<Pixel>, seen: set<Pixel>) {
    forall p, q | p in c && q in ink && Adjacent(p, q) :: q in seen
  }

  // ---- paths ----

  lemma {:induction false} LinkedSelf(ink: set<Pixel>, p: Pixel)
    requires p in ink
    ensures Linked(ink, p, p)
  {
    assert Path(ink, [p]) && [p][0] == p;
  }

  lemma {:induction false} LinkedStep(ink: set<Pixel>, p: Pixel, q: Pixel, r: Pixel)
    requires Linked(ink, p, q) && r in ink && Adjacent(q, r)
    ensures Linked(ink, p, r)
  {
    var w :| Path(ink, w) && w[0] == p && w[|w|-1] == q;
    var v := w + [r];
    assert Path(ink, v) && v[0] == p && v[|v|-1] == r;
  }

  lemma {:induction false} LinkedBack(ink: set<Pixel>, p: Pixel, q: Pixel)
    requires Linked(ink, p, q)
    ensures Linked(ink, q, p)
  {
    var w :| Path(ink, w) && w[0] == p && w[|w|-1] == q;
    var v := seq(|w|, i requires 0 <= i < |w| => w[|w|-1-i]);
    forall i | 0 < i < |v| ensures Adjacent(v[i-1], v[i]) {
      assert Adjacent(w[|w|-1-i], w[|w|-i]);
    }
    assert Path(ink, v) && v[0] == q && v[|v|-1] == p;
  }

  lemma {:induction false} LinkedOn(ink: set<Pixel>, p: Pixel, q: Pixel, r: Pixel)
    requires Linked(ink, p, q) && Linked(ink, q, r)
    ensures Linked(ink, p, r)
  {
    var w :| Path(ink, w) && w[0] == p && w[|w|-1] == q;
    var v :| Path(ink, v) && v[0] == q && v[|v|-1] == r;
    var u := w + v[1..];
    forall i | 0 < i < |u| ensures Adjacent(u[i-1], u[i]) {
      if i > |w| { assert Adjacent(v[i-|w|], v[i-|w|+1]); }
    }
    assert Path(ink, u) && u[0] == p && u[|u|-1] == r;
  }

  /** A path that starts in a closed set stays in it. */
  lemma {:induction false} PathStays(ink: set<Pixel>, c: set<Pixel>, w: seq<Pixel>, n: nat)
    requires Path(ink, w) && n < |w| && w[0] in c && Closed(ink, c, c)
    ensures w[n] in c
  {
    if n > 0 { PathStays(ink, c, w, n - 1); }
  }

  lemma {:induction false} ClosedHolds(ink: set<Pixel>, c: set<Pixel>, p: Pixel, q: Pixel)
    requires p in c && Closed(ink, c, c) && Linked(ink, p, q)
    ensures q in c
  {
    var w :| Path(ink, w) && w[0] == p && w[|w|-1] == q;
    PathStays(ink, c, w, |w| - 1);
  }

  lemma {:induction false} PathAlong(ink: set<Pixel>, w: seq<Pixel>, n: nat)
    requires Path(ink, w) && n < |w|
    ensures Linked(ink, w[0], w[n])
  {
    var v := w[..n+1];
    assert Path(ink, v) && v[0] == w[0] && v[|v|-1] == w[n];
  }

  lemma {:induction false} LinkedInside(ink: set<Pixel>, c: set<Pixel>, p: Pixel, q: Pixel)
    requires c <= ink && Linked(c, p, q)
    ensures Linked(ink, p, q)
  {
    var w :| Path(c, w) && w[0] == p && w[|w|-1] == q;
    assert Path(ink, w);
  }

  // ---- components ----

  lemma {:induction false} SelfIn(ink: set<Pixel>, p: Pixel)
    requires p in ink
    ensures p in ComponentOf(ink, p)
  {
    LinkedSelf(ink, p);
  }

  lemma {:induction false} SameComponent(ink: set<Pixel>, p: Pixel, q: Pixel)
    requires q in ComponentOf(ink, p)
    ensures ComponentOf(ink, q) == ComponentOf(ink, p)
  {
    hide Linked;
    LinkedBack(ink, p, q);
    forall r | r in ink ensures Linked(ink, p, r) <==> Linked(ink, q, r) {
      if Linked(ink, p, r) { LinkedOn(ink, q, p, r); }
      if Linked(ink, q, r) { LinkedOn(ink, p, q, r); }
    }
  }

  lemma {:induction false} ComponentClosed(ink: set<Pixel>, p: Pixel)
    ensures Closed(ink, ComponentOf(ink, p), ComponentOf(ink, p))
  {
    hide Linked;
    forall q, r | q in ComponentOf(ink, p) && r in ink && Adjacent(q, r) ensures r in ComponentOf(ink, p) {
      LinkedStep(ink, p, q, r);
    }
  }

  /** A pixel of a component is linked to its start without leaving it. */
  lemma {:induction false} LinkedWithin(ink: set<Pixel>, p: Pixel, q: Pixel)
    requires q in ComponentOf(ink, p)
    ensures Linked(ComponentOf(ink, p), p, q)
  {
    var c := ComponentOf(ink, p);
    var w :| Path(ink, w) && w[0] == p && w[|w|-1] == q;
    forall i | 0 <= i < |w| ensures w[i] in c {
      PathAlong(ink, w, i);
    }
    assert Path(c, w);
  }

  /** A component is a maximal connected set. */
  lemma {:induction false} ComponentMaximal(ink: set<Pixel>, p: Pixel)
    requires p in ink
    ensures Maximal(ink, ComponentOf(ink, p))
  {
    hide Linked;
    var c := ComponentOf(ink, p);
    SelfIn(ink, p);
    ComponentClosed(ink, p);
    hide ComponentOf, Closed;
    forall q, r | q in c && r in c ensures Linked(c, q, r) {
      LinkedWithin(ink, p, q);
      LinkedWithin(ink, p, r);
      LinkedBack(c, p, q);
      LinkedOn(c, q, p, r);
    }
    ComponentInk(ink, p);
  }

  lemma {:induction false} ComponentInk(ink: set<Pixel>, p: Pixel)
    ensures ComponentOf(ink, p) <= ink
  {}

  /** And a maximal connected set is the component of each of its pixels. */
  lemma {:induction false} MaximalIsComponent(ink: set<Pixel>, c: set<Pixel>, p: Pixel)
    requires Maximal(ink, c) && p in c
    ensures c == ComponentOf(ink, p)
  {
    hide Linked;
    forall q | q in ink ensures q in c <==> Linked(ink, p, q) {
      if q in c {
        assert Linked(c, p, q);
        LinkedInside(ink, c, p, q);
      }
      if Linked(ink, p, q) { ClosedHolds(ink, c, p, q); }
    }
  }

  // ---- the components in the order their first pixels are listed ----

  ghost predicate NewAt(ink: set<Pixel>, order: seq<Pixel>, k: nat)
    requires k < |order|
  {
    forall j :: 0 <= j < k ==> order[k] !in ComponentOf(ink, order[j])
  }

  ghost function Firsts(ink: set<Pixel>, order: seq<Pixel>): seq<set<Pixel>> {
    if order == [] then []
    else
      var n := |order| - 1;
      Firsts(ink, order[..n]) + (if NewAt(ink, order, n) then [ComponentOf(ink, order[n])] else [])
  }

  lemma {:induction false} FirstsAre(ink: set<Pixel>, order: seq<Pixel>, i: nat) returns (k: nat)
    requires i < |Firsts(ink, order)|
    ensures k < |order| && NewAt(ink, order, k) && Firsts(ink, order)[i] == ComponentOf(ink, order[k])
    ensures i == |Firsts(ink, order[..k])|
  {
    hide ComponentOf;
    var n := |order| - 1;
    if i < |Firsts(ink, order[..n])| {
      k := FirstsAre(ink, order[..n], i);
      assert order[..n][..k] == order[..k];
    } else {
      k := n;
    }
  }

  lemma {:induction false} FirstsGrow(ink: set<Pixel>, order: seq<Pixel>, k: nat)
    requires k <= |order|
    ensures Firsts(ink, order[..k]) <= Firsts(ink, order)
    decreases |order|
  {
    hide ComponentOf;
    if k < |order| {
      FirstsGrow(ink, order[..|order|-1], k);
      assert order[..|order|-1][..k] == order[..k];
    } else {
      assert order[..k] == order;
    }
  }

  /** Different entries are different components, the first pixel of the earlier one listed before all of the later one. */
  lemma {:induction false} FirstsApart(ink: set<Pixel>, order: seq<Pixel>, i: nat, j: nat)
    requires i < j < |Firsts(ink, order)| && (forall p | p in order :: p in ink)
    ensures Firsts(ink, order)[i] !! Firsts(ink, order)[j]
  {
    hide NewAt, ComponentOf, Firsts;
    var k := FirstsAre(ink, order, i);
    var l := FirstsAre(ink, order, j);
    if l <= k { FirstsLength(ink, order, l, k); }
    assert order[k] in order && order[l] in order;
    if p :| p in Firsts(ink, order)[i] && p in Firsts(ink, order)[j] {
      SameComponent(ink, order[k], p);
      SameComponent(ink, order[l], p);
      SelfIn(ink, order[l]);
      NewMeans(ink, order, l, k);
    }
  }

  lemma {:induction false} NewMeans(ink: set<Pixel>, order: seq<Pixel>, l: nat, k: nat)
    requires k < l < |order| && NewAt(ink, order, l)
    ensures order[l] !in ComponentOf(ink, order[k])
  {}

  lemma {:induction false} FirstsLength(ink: set<Pixel>, order: seq<Pixel>, l: nat, k: nat)
    requires l <= k <= |order|
    ensures |Firsts(ink, order[..l])| <= |Firsts(ink, order[..k])|
  {
    FirstsGrow(ink, order[..k], l);
    assert order[..k][..l] == order[..l];
  }

  /** Every listed pixel lies in one of the entries. */
  lemma {:induction false} FirstsCover(ink: set<Pixel>, order: seq<Pixel>, k: nat)
    requires k < |order| && (forall p | p in order :: p in ink)
    ensures ComponentOf(ink, order[k]) in Firsts(ink, order)
    decreases |order|, k
  {
    hide ComponentOf;
    var n := |order| - 1;
    if k < n {
      FirstsCover(ink, order[..n], k);
    } else if !NewAt(ink, order, n) {
      var j :| 0 <= j < n && order[n] in ComponentOf(ink, order[j]);
      SameComponent(ink, order[j], order[n]);
      FirstsCover(ink, order[..n], j);
    }
  }

  /** `order` lists each pixel of `ink` once, in reading order. */
  ghost predicate Reading(ink: set<Pixel>, order: seq<Pixel>) {
    && (forall p :: p in ink <==> p in order)
    && forall i, j :: 0 <= i < j < |order| ==> Before(order[i], order[j])
  }

  /** The entries are exactly the maximal connected sets. */
  lemma {:induction false} FirstsExact(ink: set<Pixel>, order: seq<Pixel>, c: set<Pixel>)
    requires Reading(ink, order)
    ensures c in Firsts(ink, order) <==> Maximal(ink, c)
  {
    hide Maximal, ComponentOf, Firsts, NewAt, Before;
    if c in Firsts(ink, order) {
      var i :| 0 <= i < |Firsts(ink, order)| && Firsts(ink, order)[i] == c;
      var k := FirstsAre(ink, order, i);
      assert order[k] in order;
      ComponentMaximal(ink, order[k]);
    }
    if Maximal(ink, c) {
      var p := SomePixel(ink, c);
      var k :| 0 <= k < |order| && order[k] == p;
      MaximalIsComponent(ink, c, p);
      FirstsCover(ink, order, k);
    }
  }

  lemma {:induction false} SomePixel(ink: set<Pixel>, c: set<Pixel>) returns (p: Pixel)
    requires Maximal(ink, c)
    ensures p in c && p in ink
  {
    p :| p in c;
  }

  /** The first pixel of a component, in reading order. */
  ghost predicate Leads(p: Pixel, c: set<Pixel>) {
    p in c && forall q | q in c :: q == p || Before(p, q)
  }

  lemma {:induction false} NewLeads(ink: set<Pixel>, order: seq<Pixel>, k: nat)
    requires Reading(ink, order) && k < |order| && NewAt(ink, order, k)
    ensures Leads(order[k], ComponentOf(ink, order[k]))
  {
    hide Before, Linked;
    assert order[k] in order;
    SelfIn(ink, order[k]);
    forall q | q in ComponentOf(ink, order[k]) ensures q == order[k] || Before(order[k], q) {
      assert q in order;
      var j :| 0 <= j < |order| && order[j] == q;
      if j < k {
        SameComponent(ink, order[k], q);
      }
    }
  }

  /** The entries stand in the reading order of their first pixels. */
  lemma {:induction false} FirstsOrdered(ink: set<Pixel>, order: seq<Pixel>, i: nat, j: nat) returns (p: Pixel, q: Pixel)
    requires Reading(ink, order) && i < j < |Firsts(ink, order)|
    ensures Leads(p, Firsts(ink, order)[i]) && Leads(q, Firsts(ink, order)[j]) && Before(p, q)
  {
    hide NewAt, ComponentOf, Firsts, Leads;
    var k := FirstsAre(ink, order, i);
    var l := FirstsAre(ink, order, j);
    if l <= k { FirstsLength(ink, order, l, k); }
    NewLeads(ink, order, k);
    NewLeads(ink, order, l);
    p, q := order[k], order[l];
  }
}
