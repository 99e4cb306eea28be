// Sanitizing what was sanitized (`sanitize`, apps/rich-editor/src/sanitize.ts:498-501): exactly when the second pass keeps the
// document, and an input on which it does not.

module SanitizeTwice {
  import opened Base
  import opened Chars
  import opened RichModel
  import opened Markup
  import opened Printer
  import opened LinkLines
  import opened SanitizerModel
  import opened SanitizerLines
  import opened SanitizerInv
  import opened SanitizerWalk
  import opened SanitizerFix
  import opened InlineWalk
  import opened Fixpoint
  import opened FixpointExact
  import Finish
  import FinishSpec
  import Href

  /** The printed tree of `d`, sanitized again, is the same tree. */
  predicate KeptAgain(d: Doc, r: Rules) {
    var again := Sanitized(ToDoms(DocTree(d)), r);
    again.Some? && DocTree(again.value) == DocTree(d)
  }

  /** For any good document: the second pass keeps it exactly when the link check keeps each of its links. */
  lemma {:induction false} KeptAgainExactly(d: Doc, r: Rules)
    requires CleanOk(r) && CheckedTwice(r) && DocInv(d, r)
    ensures KeptAgain(d, r) <==> AllFixed(Targets(d), r)
  {
    hide Sanitized, CleanOk, CheckedTwice, DocInv, Targets, DocTree, ToDoms, KeptHref, FixedDoc;
    if AllFixed(Targets(d), r) {
      FixedOfTargets(d, r);
      GoodDocStays(d, r);
    }
    if KeptAgain(d, r) {
      var d2 := Sanitized(ToDoms(DocTree(d)), r).value;
      SanitizedIsGood(ToDoms(DocTree(d)), r);
      ToDomsTargets(DocTree(d));
      DocTreeTargets(d);
      DocTreeTargets(d2);
      forall h | h in Targets(d) ensures r.clean(h) == Some(h) {
        var raw := TargetsComeFrom(ToDoms(DocTree(d)), r, h);
        TargetsKept(d, raw, r);
        RawFixed(raw, h, r);
      }
    }
  }

  /** `sanitize` is idempotent on an input exactly when the link check keeps every link of the result. */
  lemma {:induction false} SanitizeTwiceExactly(nodes: seq<Dom>, r: Rules)
    requires CleanOk(r) && CheckedTwice(r) && Sanitized(nodes, r).Some?
    ensures var d := Sanitized(nodes, r).value; KeptAgain(d, r) <==> AllFixed(Targets(d), r)
  {
    hide Sanitized, CleanOk, CheckedTwice, DocInv, KeptAgain, AllFixed;
    SanitizedIsGood(nodes, r);
    KeptAgainExactly(Sanitized(nodes, r).value, r);
  }

  /** For a profile: exactly when no link of the result is longer than 500 bytes. */
  lemma {:induction false} ProfileTwiceExactly(nodes: seq<Dom>, tags: set<string>, schemes: set<string>, idna: string -> Option<string>)
    requires Href.IdnaStable(idna) && Sanitized(nodes, ProfileRules(tags, schemes, idna)).Some?
    ensures var r := ProfileRules(tags, schemes, idna); var d := Sanitized(nodes, r).value;
            KeptAgain(d, r) <==> forall h | h in Targets(d) :: Href.ByteLength(h) <= Href.MAX_LINK_LENGTH
  {
    hide Href.IdnaStable, Sanitized, CleanOk, CheckedTwice, DocInv, ProfileRules, Href.ByteLength, KeptHref, KeptAgain, Targets;
    var r := ProfileRules(tags, schemes, idna);
    var d := Sanitized(nodes, r).value;
    ProfileRulesOk(tags, schemes, idna);
    ProfileChecksTwice(tags, schemes, idna);
    SanitizedIsGood(nodes, r);
    forall h | h in Targets(d) ensures r.clean(h) == Some(h) <==> Href.ByteLength(h) <= Href.MAX_LINK_LENGTH {
      TargetsKept(d, h, r);
      KeptTarget(h, tags, schemes, idna, _ => true);
    }
    SanitizeTwiceExactly(nodes, r);
  }

  // ---- an input on which the second pass differs ----

  function LinkMarks(h: string): Marks { Marks(false, false, false, h) }

  /** A link of 500 bytes on one letter. */
  function Grows(): string { "https://\U{e9}/" + Href.Repeat('x', 489) }

  function Linked(raw: string): seq<Dom> {
    [Element("p", None, [Element("a", Some(raw), [TextNode("t")])])]
  }

  /** What becomes of the letter: it keeps the link when the check lets the target pass. */
  function Letter(raw: string, r: Rules, n: nat): Chunk {
    match r.clean(raw) case None => Run("t", NO_MARKS, 0) case Some(h) => Run("t", LinkMarks(h), n + 1)
  }

  function LetterState(raw: string, r: Rules, st: State): State {
    st.(cur := st.cur + [Letter(raw, r, st.nextLink)], nextLink := if r.clean(raw) == None then st.nextLink else st.nextLink + 1)
  }

  lemma {:induction false} LinkChild(raw: string, r: Rules, st: State)
    requires "a" in r.tags
    ensures Walk(Element("a", Some(raw), [TextNode("t")]), NO_MARKS, 0, 1, st, r) == Some(LetterState(raw, r, st))
  {
    hide Flush, OpenList, OpenQuote, OpenItem, BOUNDARY_TAGS;
    var p := Enter("a", Some(raw), NO_MARKS, 0, st, r);
    OneLetter();
    LetterOnly(p.m, p.link, p.st, r);
  }

  lemma {:induction false} LetterOnly(m: Marks, link: nat, st: State, r: Rules)
    ensures WalkAll([TextNode("t")], m, link, 2, st, r) == Some(st.(cur := st.cur + [Run("t", m, link)]))
  {
    OneLetter();
    var kids := [TextNode("t")];
    assert kids[1..] == [];
    assert Walk(kids[0], m, link, 2, st, r) == Some(PushText(st, "t", m, link));
  }

  lemma {:induction false} OneLetter()
    ensures StripForbidden("t") == "t" && AllowedText("t") && !IsWS('t')
  {
    assert Allowed('t');
  }

  /** A line of one letter is normalised. */
  lemma {:induction false} LetterLine(m: Marks, link: nat)
    ensures Finish.Finished([Run("t", m, link)]) == Some([Run("t", m, link)])
  {
    hide Finish.Finished, FinishSpec.LinksHoldInk, Finish.Cells, Canonical, FinishSpec.Tidy;
    var cs := [Run("t", m, link)];
    LetterCells(m, link);
    LetterHoldsInk(m, link);
    FinishSpec.FinishFixes(cs);
  }

  lemma {:induction false} LetterCells(m: Marks, link: nat)
    ensures var cs := [Run("t", m, link)];
            Finish.Cells(cs) == [Finish.Glyph('t', m, link)] && Canonical(cs) && FinishSpec.Tidy(Finish.Cells(cs))
  {
    var cs := [Run("t", m, link)];
    OneLetter();
    assert cs[..0] == [] && Finish.Cells(cs[..0]) == [];
  }

  lemma {:induction false} LetterHoldsInk(m: Marks, link: nat)
    ensures FinishSpec.LinksHoldInk([Run("t", m, link)])
  {
    var cs := [Run("t", m, link)];
    OneLetter();
    assert !IsSpaceText("t") by { assert "t"[0] == 't'; }
    if m.href != "" {
      assert Finish.HoldsInk(cs[0]);
      assert cs[0].link in Finish.InkedLinks(cs);
    }
  }

  lemma {:induction false} LetterFlushed(raw: string, r: Rules)
    ensures Flush(LetterState(raw, r, START)).root == [TextBlock(P, [Letter(raw, r, 0)])]
  {
    hide Finish.Finished;
    var c := Letter(raw, r, 0);
    assert START.cur + [c] == [c];
    LetterLine(c.marks, c.link);
  }

  lemma {:induction false} OneChild(n: Dom, m: Marks, link: nat, depth: nat, st: State, r: Rules)
    ensures WalkAll([n], m, link, depth, st, r) == Walk(n, m, link, depth, st, r)
  {
    hide Walk;
    assert [n][1..] == [];
  }

  lemma {:induction false} LinkDoc(raw: string, r: Rules)
    requires "a" in r.tags
    ensures Sanitized(Linked(raw), r) == Some([TextBlock(P, [Letter(raw, r, 0)])])
  {
    hide Walk, WalkAll, Flush, LetterState, Letter;
    var a := Element("a", Some(raw), [TextNode("t")]);
    var p := Element("p", None, [a]);
    var s := LetterState(raw, r, START);
    LinkChild(raw, r, START);
    OneChild(a, NO_MARKS, 0, 1, START, r);
    WalkParagraph(a, s, r);
    OneChild(p, NO_MARKS, 0, 0, START, r);
    LetterFlushed(raw, r);
    FlushedTwice(s);
  }

  lemma {:induction false} FlushedTwice(st: State)
    ensures Flush(Flush(st)) == Flush(st)
  {
    hide Finish.Finished, Deposit;
    FlushAtRest(Flush(st));
  }

  lemma {:induction false} ParagraphPlan(r: Rules)
    ensures Enter("p", None, NO_MARKS, 0, START, r) == Plan(START, NO_MARKS, 0, true, false)
  {
    hide BOUNDARY_TAGS, Flush, OpenQuote, OpenList, OpenItem;
    PIsBlock();
    FlushAtRest(START);
  }

  lemma {:induction false} WalkParagraph(a: Dom, s: State, r: Rules)
    requires WalkAll([a], NO_MARKS, 0, 1, START, r) == Some(s)
    ensures Walk(Element("p", None, [a]), NO_MARKS, 0, 0, START, r) == Some(Flush(s))
  {
    hide Enter, Flush, WalkAll;
    ParagraphPlan(r);
  }

  /** The printed tree of the one-letter document. */
  lemma {:induction false} LetterTree(h: string, n: nat)
    requires h != ""
    ensures ToDoms(DocTree([TextBlock(P, [Run("t", LinkMarks(h), n)])])) == Linked(h)
    ensures Targets([TextBlock(P, [Run("t", LinkMarks(h), n)])]) == {h}
  {
    var c := Run("t", LinkMarks(h), n);
    var cs, b := [c], TextBlock(P, [c]);
    assert [b][1..] == [];
    assert RunLen(cs, 0) == 1 && RunLen(cs, 1) == 1 && RunLen(cs, 2) == 1 && RunLen(cs, 3) == 1 by { assert cs[1..] == []; }
    assert cs[..1] == cs && cs[1..] == [];
    assert Nest(cs, 4) == [Text("t")];
    assert Nest(cs, 3) == Nest(cs, 4) && Nest(cs, 2) == Nest(cs, 3) && Nest(cs, 1) == Nest(cs, 2);
    assert Nest(cs, 0) == [Elem("a", Some(h), [Text("t")])];
    assert LineTargets(cs) == {h} by { assert LinkedRun(cs[0]); }
    assert DocTree([b]) == [Elem("p", None, Nest(cs, 0))];
    hide Nest, DocTree, AtLevel;
    OneDom(Text("t"));
    OneDom(Elem("a", Some(h), [Text("t")]));
    OneDom(Elem("p", None, [Elem("a", Some(h), [Text("t")])]));
  }

  lemma {:induction false} OneDom(n: Node)
    ensures ToDoms([n]) == [ToDom(n)]
  {
    hide ToDom;
    assert [n][1..] == [];
  }

  /**
   * An input on which the second pass differs: its one link grows to 505 bytes when its host is converted, and the next
   * pass drops it. The letter stays.
   */
  lemma {:induction false} SecondPassDropsLink()
    ensures var r := ProfileRules({"a"}, {"https"}, Href.OneName);
            var d := Sanitized(Linked(Grows()), r);
            && d.Some? && |Targets(d.value)| == 1 && !KeptAgain(d.value, r)
            && Sanitized(ToDoms(DocTree(d.value)), r) == Some([TextBlock(P, [Run("t", NO_MARKS, 0)])])
  {
    hide Sanitized, ProfileRules, Href.CleanHref, Href.IdnaStable, DocTree, ToDoms, Targets, Linked, LinkMarks, Grows, Href.ByteLength, Href.Repeat;
    var r := ProfileRules({"a"}, {"https"}, Href.OneName);
    GrowsLong();
    RulesAre();
    var h := r.clean(Grows()).value;
    var c := Letter(Grows(), r, 0);
    LinkDoc(Grows(), r);
    LetterTree(h, 1);
    LinkDoc(h, r);
    NoLinkLeft(h, r);
  }

  lemma {:induction false} RulesAre()
    ensures var r := ProfileRules({"a"}, {"https"}, Href.OneName);
            "a" in r.tags && r.clean(Grows()) == Href.CleanHref(Grows(), {"https"}, Href.OneName)
    ensures forall h :: ProfileRules({"a"}, {"https"}, Href.OneName).clean(h) == Href.CleanHref(h, {"https"}, Href.OneName)
  {}

  lemma {:induction false} GrowsLong()
    ensures var h := Href.CleanHref(Grows(), {"https"}, Href.OneName);
            h.Some? && h.value != "" && Href.CleanHref(h.value, {"https"}, Href.OneName) == None
  {
    hide Href.CleanHref, Href.Repeat;
    Href.CleanHrefNotAlwaysFixed();
    Href.CleanHrefFixed(Grows(), {"https"}, Href.OneName);
  }

  lemma {:induction false} NoLinkLeft(h: string, r: Rules)
    requires h != "" && Sanitized(Linked(h), r) == Some([TextBlock(P, [Run("t", NO_MARKS, 0)])])
    ensures !KeptAgain([TextBlock(P, [Run("t", LinkMarks(h), 1)])], r)
  {
    hide Sanitized, LinkMarks;
    var d, again := [TextBlock(P, [Run("t", LinkMarks(h), 1)])], [TextBlock(P, [Run("t", NO_MARKS, 0)])];
    LetterTree(h, 1);
    DocTreeTargets(d);
    DocTreeTargets(again);
    NoLineTargets();
    hide DocTree, ToDoms, Targets;
  }

  lemma {:induction false} NoLineTargets()
    ensures Targets([TextBlock(P, [Run("t", NO_MARKS, 0)])]) == {}
  {
    var b := TextBlock(P, [Run("t", NO_MARKS, 0)]);
    assert [b][1..] == [];
    assert LineTargets(b.inl) == {};
  }
}
