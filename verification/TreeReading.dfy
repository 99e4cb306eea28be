// How a foreign element tree reads, from the ancestors of each text alone: where rows end, and with which marks a character shows.
// Nothing here mentions the walk of the sanitizer (apps/rich-editor/src/sanitize.ts:44-89, 251-353).

module TreeReading {
  import opened Base
  import opened Chars
  import opened RichModel
  import opened Finish
  import opened Markup
  import opened SanitizerModel

  const STRONG_TAGS: set<string> := {"b", "strong"}
  const EM_TAGS: set<string> := {"i", "em"}
  const HEADINGS: set<string> := {"h1", "h2", "h3", "h4", "h5", "h6"}

  /** The element becomes a quote or a list where the profile has them. */
  predicate Holder(a: Above, r: Rules) {
    || (a.tag in {"ul", "ol"} && "ul" in r.tags)
    || (a.tag == "blockquote" && "blockquote" in r.tags)
  }

  predicate Inside(above: seq<Above>, r: Rules) {
    exists k :: 0 <= k < |above| && Holder(above[k], r)
  }

  /** Bold by its name; a heading also where it cannot stay a heading. */
  predicate BoldAt(above: seq<Above>, k: nat, r: Rules)
    requires k < |above|
  {
    || above[k].tag in STRONG_TAGS
    || (above[k].tag in HEADINGS && ("h3" !in r.tags || Inside(above[..k], r)))
  }

  predicate AnyBold(above: seq<Above>, r: Rules) {
    exists k :: 0 <= k < |above| && BoldAt(above, k, r)
  }

  predicate AnyOf(above: seq<Above>, tags: set<string>) {
    exists k :: 0 <= k < |above| && above[k].tag in tags
  }

  /** The target of a link element, "" when the profile or its link check refuses it. */
  function Target(a: Above, r: Rules): string {
    if a.tag == "a" && "a" in r.tags && a.href.Some? && r.clean(a.href.value).Some? then r.clean(a.href.value).value else ""
  }

  /** Of several links around a text the outermost accepted one counts. */
  function Outermost(above: seq<Above>, r: Rules): string {
    if above == [] then ""
    else
      var outer := Outermost(above[..|above|-1], r);
      if outer != "" then outer else Target(above[|above|-1], r)
  }

  /** The marks of a text below these elements. */
  function MarksUnder(above: seq<Above>, r: Rules): Marks {
    Marks("strong" in r.tags && AnyBold(above, r), "em" in r.tags && AnyOf(above, EM_TAGS), "u" in r.tags && AnyOf(above, {"u"}), Outermost(above, r))
  }

  /** A forest as one line of cells: breaks at line breaks and at both ends of every block. */
  function Reading(n: Dom, above: seq<Above>, r: Rules): seq<Cell>
    decreases n, 1
  {
    match n
    case TextNode(data) => Glyphs(data, MarksUnder(above, r), 0)
    case OtherNode => []
    case Element(tag, href, kids) =>
      if tag in DROP_TAGS then []
      else if tag == "br" then [Break]
      else if tag in BOUNDARY_TAGS then [Break] + ReadingAll(kids, above + [Above(tag, href)], r) + [Break]
      else ReadingAll(kids, above + [Above(tag, href)], r)
  }

  function ReadingAll(ns: seq<Dom>, above: seq<Above>, r: Rules): seq<Cell>
    decreases ns, 0
  {
    if ns == [] then [] else Reading(ns[0], above, r) + ReadingAll(ns[1..], above, r)
  }

  /** What is left of a line when the characters the policy takes out are gone. */
  function AllowedOnly(e: seq<Cell>): seq<Cell> {
    if e == [] then [] else AllowedOnly(e[..|e|-1]) + (if e[|e|-1].Break? || Allowed(e[|e|-1].ch) then [e[|e|-1]] else [])
  }

  lemma {:induction false} AllowedOnlyConcat(a: seq<Cell>, b: seq<Cell>)
    ensures AllowedOnly(a + b) == AllowedOnly(a) + AllowedOnly(b)
    ensures AllowedOnly([]) == [] && AllowedOnly([Break]) == [Break]
  {
    hide Allowed;
    assert [Break][..0] == [] && AllowedOnly([Break][..0]) == [];
    if b == [] {
      assert a + b == a;
    } else {
      var q, c := b[..|b|-1], b[|b|-1];
      AllowedOnlyConcat(a, q);
      assert (a + b)[..|a + b|-1] == a + q;
      SeqAssoc(AllowedOnly(a), AllowedOnly(q), if c.Break? || Allowed(c.ch) then [c] else []);
    }
  }

  lemma {:induction false} AllowedGlyphs(t: string, m: Marks)
    ensures AllowedOnly(Glyphs(t, m, 0)) == Glyphs(StripForbidden(t), m, 0)
  {
    hide Allowed;
    if t == "" {
      assert Glyphs(t, m, 0) == [];
    } else {
      AllowedGlyphs(t[1..], m);
      var c := Glyph(t[0], m, 0);
      assert Glyphs(t, m, 0) == [c] + Glyphs(t[1..], m, 0);
      AllowedOnlyConcat([c], Glyphs(t[1..], m, 0));
      assert [c][..0] == [];
      assert AllowedOnly([c]) == AllowedOnly([c][..0]) + if Allowed(t[0]) then [c] else [];
      assert Glyphs([t[0]] + StripForbidden(t[1..]), m, 0) == [c] + Glyphs(StripForbidden(t[1..]), m, 0);
    }
  }

  // ---- one element further in ----

  lemma {:induction false} InsideSnoc(above: seq<Above>, a: Above, r: Rules)
    ensures Inside(above + [a], r) <==> Inside(above, r) || Holder(a, r)
    ensures !Inside([], r)
  {
    hide Holder;
    var more := above + [a];
    if Inside(above, r) {
      var k :| 0 <= k < |above| && Holder(above[k], r);
      assert Holder(more[k], r);
    }
    if Holder(a, r) { assert Holder(more[|above|], r); }
  }

  lemma {:induction false} AnyOfSnoc(above: seq<Above>, a: Above, tags: set<string>)
    ensures AnyOf(above + [a], tags) <==> AnyOf(above, tags) || a.tag in tags
  {
    var more := above + [a];
    if AnyOf(above, tags) {
      var k :| 0 <= k < |above| && above[k].tag in tags;
      assert more[k].tag in tags;
    }
    if a.tag in tags { assert more[|above|].tag in tags; }
  }

  lemma {:induction false} AnyBoldSnoc(above: seq<Above>, a: Above, r: Rules)
    ensures AnyBold(above + [a], r) <==>
      AnyBold(above, r) || a.tag in STRONG_TAGS || (a.tag in HEADINGS && ("h3" !in r.tags || Inside(above, r)))
  {
    hide Inside;
    var more := above + [a];
    assert forall k :: 0 <= k < |above| ==> more[..k] == above[..k] && more[k] == above[k];
    assert more[..|above|] == above && more[|above|] == a;
    if AnyBold(above, r) {
      var k :| 0 <= k < |above| && BoldAt(above, k, r);
      assert BoldAt(more, k, r);
    }
    if BoldAt(more, |above|, r) { assert AnyBold(more, r); }
    if AnyBold(more, r) {
      var k :| 0 <= k < |more| && BoldAt(more, k, r);
      if k < |above| { assert BoldAt(above, k, r); }
    }
  }

  /** The marks inside one more element. */
  lemma {:induction false} MarksSnoc(above: seq<Above>, a: Above, r: Rules)
    ensures MarksUnder(above + [a], r) ==
      var m := MarksUnder(above, r);
      Marks(
        m.strong || ("strong" in r.tags && (a.tag in STRONG_TAGS || (a.tag in HEADINGS && ("h3" !in r.tags || Inside(above, r))))),
        m.em || ("em" in r.tags && a.tag in EM_TAGS),
        m.u || ("u" in r.tags && a.tag == "u"),
        if m.href != "" then m.href else Target(a, r))
  {
    hide AnyOf, AnyBold, Target, Inside;
    AnyBoldSnoc(above, a, r);
    AnyOfSnoc(above, a, EM_TAGS);
    AnyOfSnoc(above, a, {"u"});
    assert (above + [a])[..|above|] == above;
  }

  lemma {:induction false} NothingAbove(r: Rules)
    ensures MarksUnder([], r) == NO_MARKS && !Inside([], r)
  {}
}
