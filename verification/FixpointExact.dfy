// When sanitized HTML is a fixpoint: exactly when the second link check returns every kept target unchanged and
// the console keeps it (apps/rich-editor/src/sanitize.ts:484-501, apps/admin-web/src/lib/richtext.ts:47-62).

module FixpointExact {
  import opened Base
  import opened RichModel
  import opened Markup
  import opened Printer
  import opened LinkLines
  import opened SanitizerModel
  import opened SanitizerLines
  import opened SanitizerInv
  import opened SanitizerWalk
  import opened SanitizerFix
  import opened InlineWalk
  import opened Fixpoint
  import Finish
  import FinishSpec
  import Reader
  import RoundTrip
  import ReaderSafety
  import DocRoundTrip
  import Href

  // ---- the targets in a tree ----

  function TreeTargets(f: seq<Node>): set<string>
    decreases f, 0
  {
    if f == [] then {} else NodeTargets(f[0]) + TreeTargets(f[1..])
  }

  function NodeTargets(n: Node): set<string>
    decreases n, 1
  {
    match n
    case Text(_) => {}
    case Elem(_, href, kids) => (match href case None => {} case Some(h) => {h}) + TreeTargets(kids)
  }

  lemma {:induction false} TargetsConcat(f: seq<Node>, g: seq<Node>)
    ensures TreeTargets(f + g) == TreeTargets(f) + TreeTargets(g)
    decreases |f|
  {
    hide NodeTargets;
    if f == [] {
      assert f + g == g;
    } else {
      TargetsConcat(f[1..], g);
      assert (f + g)[1..] == f[1..] + g;
    }
  }

  lemma {:induction false} OneTarget(n: Node)
    ensures TreeTargets([n]) == NodeTargets(n)
  {
    hide NodeTargets;
    assert [n][1..] == [];
  }

  /** In a forest the reader returns, every target passes its check. */
  lemma {:induction false} GoodTargets(f: seq<Node>, parent: string, inLink: bool, depth: nat, url: string -> bool)
    requires RoundTrip.GoodAll(f, parent, inLink, depth, url)
    ensures AllSafe(TreeTargets(f), url)
    decreases f, 0
  {
    hide RoundTrip.Good, NodeTargets;
    if f != [] {
      GoodTargets(f[1..], parent, inLink, depth, url);
      GoodNodeTargets(f[0], parent, inLink, depth, url);
    }
  }

  lemma {:induction false} GoodNodeTargets(n: Node, parent: string, inLink: bool, depth: nat, url: string -> bool)
    requires RoundTrip.Good(n, parent, inLink, depth, url)
    ensures AllSafe(NodeTargets(n), url)
    decreases n, 1
  {
    hide Reader.SafeHref, RoundTrip.GoodAll, RoundTrip.Fits;
    match n
    case Text(_) =>
    case Elem(tag, href, kids) =>
      if tag != "br" {
        GoodTargets(kids, tag, inLink || tag == "a", depth + 1, url);
        assert href.Some? ==> Reader.SafeHref(href, url) == href;
      } else {
        assert NodeTargets(n) == {};
      }
  }

  // ---- the targets of a printed document are the document's ----

  lemma {:induction false} InnerTargets(cs: seq<Chunk>, k: nat)
    requires 0 < k <= 4
    ensures TreeTargets(Nest(cs, k)) == {}
    decreases 4 - k, |cs|
  {
    if cs != [] {
      if cs[0].Br? || k == 4 {
        InnerTargets(cs[1..], k);
      } else {
        var n := RunLen(cs, k);
        InnerTargets(cs[..n], k + 1);
        InnerTargets(cs[n..], k);
        InnerWrap(AtLevel(cs[0].marks, k), Nest(cs[..n], k + 1), cs[0].marks, k);
        TargetsConcat(Wrap(AtLevel(cs[0].marks, k), Nest(cs[..n], k + 1)), Nest(cs[n..], k));
      }
    }
  }

  lemma {:induction false} InnerWrap(x: seq<Mark>, f: seq<Node>, m: Marks, k: nat)
    requires x == AtLevel(m, k) && k > 0 && TreeTargets(f) == {}
    ensures TreeTargets(Wrap(x, f)) == {}
  {
    if x != [] { OneTarget(Elem(TagOf(x[0].kind), HrefOf(x[0]), f)); }
  }

  lemma {:induction false} LineTargetsConcat(a: seq<Chunk>, b: seq<Chunk>)
    ensures LineTargets(a + b) == LineTargets(a) + LineTargets(b)
  {
    var c := a + b;
    forall h | h in LineTargets(a) ensures h in LineTargets(c) {
      var i :| 0 <= i < |a| && LinkedRun(a[i]) && a[i].marks.href == h;
      assert c[i] == a[i];
    }
    forall h | h in LineTargets(b) ensures h in LineTargets(c) {
      var i :| 0 <= i < |b| && LinkedRun(b[i]) && b[i].marks.href == h;
      assert c[|a| + i] == b[i];
    }
  }

  /** The first run of one target. */
  lemma {:induction false} RunTargets(cs: seq<Chunk>)
    requires cs != [] && cs[0].Run?
    ensures TreeTargets(Wrap(AtLevel(cs[0].marks, 0), Nest(cs[..RunLen(cs, 0)], 1))) == LineTargets(cs[..RunLen(cs, 0)])
  {
    var n := RunLen(cs, 0);
    hide Nest, TreeTargets, LineTargets, LinkedRun;
    var x, f := AtLevel(cs[0].marks, 0), Nest(cs[..n], 1);
    InnerTargets(cs[..n], 1);
    SameLineTargets(cs);
    if x != [] { OneTarget(Elem(TagOf(x[0].kind), HrefOf(x[0]), f)); }
  }

  /** All runs of one link element lead to the same place. */
  lemma {:induction false} SameLineTargets(cs: seq<Chunk>)
    requires cs != [] && cs[0].Run?
    ensures LineTargets(cs[..RunLen(cs, 0)]) == if cs[0].marks.href == "" then {} else {cs[0].marks.href}
  {
    hide RunLen;
    var run := cs[..RunLen(cs, 0)];
    RunStops(cs);
    if cs[0].marks.href != "" { assert LinkedRun(run[0]); }
  }

  lemma {:induction false} NestTargets(cs: seq<Chunk>)
    ensures TreeTargets(Nest(cs, 0)) == LineTargets(cs)
    decreases |cs|
  {
    hide AtLevel, Wrap, TreeTargets, LineTargets, LinkedRun;
    if cs == [] {
      NoLineTargets();
    } else {
      var n := if cs[0].Br? then 1 else RunLen(cs, 0);
      NestTargets(cs[n..]);
      assert cs == cs[..n] + cs[n..];
      LineTargetsConcat(cs[..n], cs[n..]);
      if cs[0].Br? {
        BreakTargets(cs);
        TargetsConcat([Elem("br", None, [])], Nest(cs[1..], 0));
      } else {
        RunTargets(cs);
        TargetsConcat(Wrap(AtLevel(cs[0].marks, 0), Nest(cs[..n], 1)), Nest(cs[n..], 0));
      }
    }
  }

  lemma {:induction false} NoLineTargets()
    ensures TreeTargets([]) == {} == LineTargets([])
  {}

  lemma {:induction false} BreakTargets(cs: seq<Chunk>)
    requires cs != [] && cs[0].Br?
    ensures TreeTargets([Elem("br", None, [])]) == {} == LineTargets(cs[..1])
  {
    OneTarget(Elem("br", None, []));
  }

  lemma {:induction false} ItemsTreeTargets(items: seq<Item>)
    ensures TreeTargets(ItemTrees(items)) == ItemsTargets(items)
    decreases items, 0
  {
    hide LineTargets, ItemEmpty, Nest;
    if items != [] {
      var it := items[0];
      SubsTreeTargets(it.subs);
      ItemsTreeTargets(items[1..]);
      NestTargets(it.inl);
      TargetsConcat(Nest(it.inl, 0), SubTrees(it.subs));
      EmptyItem(it);
      if ItemEmpty(it) {
        EmptyItemTree(it);
        TargetsConcat([], ItemTrees(items[1..]));
        NoTargets();
        assert ItemTree(it) == [];
      } else {
        FullItemTree(it);
        OneTarget(Elem("li", None, Nest(it.inl, 0) + SubTrees(it.subs)));
        TargetsConcat(ItemTree(it), ItemTrees(items[1..]));
      }
    }
  }

  lemma {:induction false} NoTargets()
    ensures TreeTargets([]) == {}
  {}

  lemma {:induction false} SubsTreeTargets(subs: seq<List>)
    ensures TreeTargets(SubTrees(subs)) == SubsTargets(subs)
    decreases subs, 0
  {
    hide ListEmpty, ItemTrees;
    if subs != [] {
      ItemsTreeTargets(subs[0].items);
      ListTreeTargets(subs[0]);
      SubsTreeTargets(subs[1..]);
      TargetsConcat(ListTree(subs[0]), SubTrees(subs[1..]));
    }
  }

  lemma {:induction false} ListTreeTargets(l: List)
    requires TreeTargets(ItemTrees(l.items)) == ItemsTargets(l.items)
    ensures TreeTargets(ListTree(l)) == ItemsTargets(l.items)
  {
    hide ItemTrees, ItemsTargets, ListEmpty;
    EmptyList(l);
    if ListEmpty(l) { EmptyListTree(l); } else { FullListTree(l); OneTarget(Elem(ListTag(l.ordered), None, ItemTrees(l.items))); }
  }

  lemma {:induction false} ParasTreeTargets(ps: seq<seq<Chunk>>)
    ensures TreeTargets(ParaTrees(ps)) == ParasTargets(ps)
    decreases |ps|
  {
    hide LineTargets, Nest;
    if ps != [] {
      NestTargets(ps[0]);
      ParasTreeTargets(ps[1..]);
      OneTarget(Elem("p", None, Nest(ps[0], 0)));
      TargetsConcat([Elem("p", None, Nest(ps[0], 0))], ParaTrees(ps[1..]));
    }
  }

  lemma {:induction false} BlockTreeTargets(b: Block)
    ensures TreeTargets(BlockTree(b)) == BlockTargets(b)
  {
    hide Nest, ItemTrees, ParaTrees, ListTree, ItemsTargets;
    match b
    case TextBlock(kind, inl) =>
      NestTargets(inl);
      OneTarget(Elem(KindTag(kind), None, Nest(inl, 0)));
    case Quote(paras) =>
      ParasTreeTargets(paras);
      OneTarget(Elem("blockquote", None, ParaTrees(paras)));
    case ListBlock(l) =>
      ItemsTreeTargets(l.items);
      ListTreeTargets(l);
  }

  /** The link elements of the printed document are the links of the document. */
  lemma {:induction false} DocTreeTargets(d: Doc)
    ensures TreeTargets(DocTree(d)) == Targets(d)
    decreases |d|
  {
    hide BlockTree, BlockTargets;
    if d != [] {
      BlockTreeTargets(d[0]);
      DocTreeTargets(d[1..]);
      TargetsConcat(BlockTree(d[0]), DocTree(d[1..]));
    }
  }

  // ---- the walk asks only for the targets of its tree ----

  function DomTargets(n: Dom): set<string>
    decreases n, 1
  {
    match n
    case Element(_, href, kids) => (match href case None => {} case Some(h) => {h}) + DomsTargets(kids)
    case _ => {}
  }

  function DomsTargets(ns: seq<Dom>): set<string>
    decreases ns, 0
  {
    if ns == [] then {} else DomTargets(ns[0]) + DomsTargets(ns[1..])
  }

  lemma {:induction false} ToDomTargets(n: Node)
    ensures DomTargets(ToDom(n)) == NodeTargets(n)
    decreases n, 1
  {
    if n.Elem? { ToDomsTargets(n.kids); }
  }

  lemma {:induction false} ToDomsTargets(f: seq<Node>)
    ensures DomsTargets(ToDoms(f)) == TreeTargets(f)
    decreases f, 0
  {
    if f != [] {
      ToDomTargets(f[0]);
      ToDomsTargets(f[1..]);
      assert ToDoms(f)[1..] == ToDoms(f[1..]);
    }
  }

  /** The rules with a link check that knows only the targets in `hs`. */
  function Only(r: Rules, hs: set<string>): Rules {
    Rules(r.tags, raw => if raw in hs then r.clean(raw) else None)
  }

  lemma {:induction false} EnterOnly(tag: string, href: Option<string>, m: Marks, link: nat, st: State, r: Rules, hs: set<string>)
    requires href.Some? ==> href.value in hs
    ensures Enter(tag, href, m, link, st, r) == Enter(tag, href, m, link, st, Only(r, hs))
  {
    hide Flush, OpenItem, ListDepth, QuoteDepth, OpenBelow, BOUNDARY_TAGS, IsHeading, HeadingKind;
  }

  lemma {:induction false} WalkOnly(n: Dom, m: Marks, link: nat, depth: nat, st: State, r: Rules, hs: set<string>)
    requires DomTargets(n) <= hs
    ensures Walk(n, m, link, depth, st, r) == Walk(n, m, link, depth, st, Only(r, hs))
    decreases n, 1
  {
    hide Enter, Only, Leave;
    if n.Element? {
      var p := Enter(n.tag, n.href, m, link, st, r);
      EnterOnly(n.tag, n.href, m, link, st, r, hs);
      WalkAllOnly(n.kids, p.m, p.link, depth + 1, p.st, r, hs);
    }
  }

  lemma {:induction false} WalkAllOnly(ns: seq<Dom>, m: Marks, link: nat, depth: nat, st: State, r: Rules, hs: set<string>)
    requires DomsTargets(ns) <= hs
    ensures WalkAll(ns, m, link, depth, st, r) == WalkAll(ns, m, link, depth, st, Only(r, hs))
    decreases ns, 0
  {
    hide Only, Walk;
    if ns != [] {
      WalkOnly(ns[0], m, link, depth, st, r, hs);
      var w := Walk(ns[0], m, link, depth, st, r);
      if w.Some? { WalkAllOnly(ns[1..], m, link, depth, w.value, r, hs); }
    }
  }

  /** Every target of a sanitized document is the checked form of a target of its tree. */
  lemma {:induction false} TargetsComeFrom(nodes: seq<Dom>, r: Rules, h: string) returns (raw: string)
    requires CleanOk(r) && Sanitized(nodes, r).Some? && h in Targets(Sanitized(nodes, r).value)
    ensures raw in DomsTargets(nodes) && r.clean(raw) == Some(h)
  {
    hide WalkAll, DocInv, Targets, Flush, DomsTargets, CleanOk;
    var only := Only(r, DomsTargets(nodes));
    WalkAllOnly(nodes, NO_MARKS, 0, 0, START, r, DomsTargets(nodes));
    OnlyOk(r, DomsTargets(nodes));
    SanitizedIsGood(nodes, only);
    TargetsKept(Sanitized(nodes, only).value, h, only);
    raw :| only.clean(raw) == Some(h);
  }

  lemma {:induction false} OnlyOk(r: Rules, hs: set<string>)
    requires CleanOk(r)
    ensures CleanOk(Only(r, hs))
  {
    var o := Only(r, hs);
    forall raw ensures o.clean(raw) != Some("") { assert r.clean(raw) != Some(""); }
  }

  // ---- exactly when ----

  /** The HTML of `d` is read back as its own tree, and that tree is sanitized into the same HTML. */
  predicate Stays(d: Doc, r: Rules, url: string -> bool) {
    var read := Reader.Parsed(Html(d), url);
    read == DocTree(d) && Sanitized(ToDoms(read), r).Some? && Html(Sanitized(ToDoms(read), r).value) == Html(d)
  }

  /** Checking a target twice changes it at most by refusing it. */
  ghost predicate CheckedTwice(r: Rules) {
    forall raw :: r.clean(raw).Some? ==> var h := r.clean(raw).value; r.clean(h) == Some(h) || r.clean(h) == None
  }

  lemma {:induction false} StaysSafe(d: Doc, r: Rules, url: string -> bool)
    requires Stays(d, r, url)
    ensures AllSafe(Targets(d), url)
  {
    hide DocTree, Reader.Parsed, Html, Sanitized;
    ReaderSafety.ParsedIsGood(Html(d), url);
    GoodTargets(DocTree(d), "", false, 0, url);
    DocTreeTargets(d);
  }

  lemma {:induction false} StaysFixed(d: Doc, r: Rules, url: string -> bool)
    requires CleanOk(r) && CheckedTwice(r) && DocInv(d, r) && Stays(d, r, url)
    ensures AllFixed(Targets(d), r)
  {
    StaysSafe(d, r, url);
    hide DocTree, Reader.Parsed, PrintAll, Sanitized, Targets, DocInv, CleanOk, ToDoms, KeptHref, Reader.SafeHref;
    var d2 := Sanitized(ToDoms(DocTree(d)), r).value;
    SanitizedIsGood(ToDoms(DocTree(d)), r);
    ToDomsTargets(DocTree(d));
    DocTreeTargets(d);
    forall h | h in Targets(d2) ensures h in Targets(d) && r.clean(h) == Some(h) {
      var raw := TargetsComeFrom(ToDoms(DocTree(d)), r, h);
      TargetsKept(d, raw, r);
      RawFixed(raw, h, r);
    }
    Readable(d2, r, url);
    DocRoundTrip.PrintedDocReadsBack(d2, url);
    assert DocTree(d2) == DocTree(d);
    DocTreeTargets(d2);
  }

  lemma {:induction false} RawFixed(raw: string, h: string, r: Rules)
    requires CheckedTwice(r) && KeptHref(raw, r) && r.clean(raw) == Some(h)
    ensures raw == h
  {
    var first :| r.clean(first) == Some(raw);
    assert r.clean(first).Some?;
  }

  /** For any good document: reading and sanitizing its HTML keeps it exactly when both checks keep each of its links. */
  lemma {:induction false} GoodStaysExactly(d: Doc, r: Rules, url: string -> bool)
    requires CleanOk(r) && CheckedTwice(r) && DocInv(d, r)
    ensures Stays(d, r, url) <==> AllFixed(Targets(d), r) && AllSafe(Targets(d), url)
  {
    hide Sanitized, CleanOk, CheckedTwice, DocInv, AllFixed, AllSafe, Targets, DocTree, PrintAll, Reader.Parsed, FixedDoc, ToDoms;
    if Stays(d, r, url) {
      StaysSafe(d, r, url);
      StaysFixed(d, r, url);
    }
    if AllFixed(Targets(d), r) && AllSafe(Targets(d), url) {
      Readable(d, r, url);
      DocRoundTrip.PrintedDocReadsBack(d, url);
      FixedOfTargets(d, r);
      GoodDocStays(d, r);
    }
  }

  /** Sanitized HTML is a fixpoint of reading and sanitizing exactly when both checks keep every link of it. */
  lemma {:induction false} StaysExactly(nodes: seq<Dom>, r: Rules, url: string -> bool)
    requires CleanOk(r) && CheckedTwice(r) && Sanitized(nodes, r).Some?
    ensures var d := Sanitized(nodes, r).value;
            Stays(d, r, url) <==> AllFixed(Targets(d), r) && AllSafe(Targets(d), url)
  {
    hide Sanitized, CleanOk, CheckedTwice, DocInv, AllFixed, AllSafe, Targets, Stays;
    SanitizedIsGood(nodes, r);
    GoodStaysExactly(Sanitized(nodes, r).value, r, url);
  }

  lemma {:induction false} ProfileChecksTwice(tags: set<string>, schemes: set<string>, idna: string -> Option<string>)
    requires Href.IdnaStable(idna)
    ensures CheckedTwice(ProfileRules(tags, schemes, idna))
  {
    hide Href.IdnaStable, Href.CleanHref, Href.ByteLength;
    var r := ProfileRules(tags, schemes, idna);
    forall raw | r.clean(raw).Some? ensures var h := r.clean(raw).value; r.clean(h) == Some(h) || r.clean(h) == None {
      Href.CleanHrefFixed(raw, schemes, idna);
      var h := r.clean(raw).value;
      if Href.ByteLength(h) > Href.MAX_LINK_LENGTH { Href.TooLong(h, schemes, idna); }
    }
  }

  /** For a profile: exactly when no kept link is over the length limit, holds what the console refuses, or is unreadable as a URL. */
  lemma {:induction false} ProfileStaysExactly(nodes: seq<Dom>, tags: set<string>, schemes: set<string>, idna: string -> Option<string>, url: string -> bool)
    requires Href.IdnaStable(idna) && Sanitized(nodes, ProfileRules(tags, schemes, idna)).Some?
    ensures var r := ProfileRules(tags, schemes, idna);
            var d := Sanitized(nodes, r).value;
            Stays(d, r, url) <==> forall h | h in Targets(d) ::
              Href.ByteLength(h) <= Href.MAX_LINK_LENGTH && !Href.Has(h, Href.ConsoleRefuses) && url(h)
  {
    hide Href.IdnaStable, Sanitized, CleanOk, CheckedTwice, DocInv, ProfileRules, Reader.SafeHref, Href.ByteLength, KeptHref, Stays, Href.Has, Targets;
    var r := ProfileRules(tags, schemes, idna);
    var d := Sanitized(nodes, r).value;
    ProfileRulesOk(tags, schemes, idna);
    ProfileChecksTwice(tags, schemes, idna);
    SanitizedIsGood(nodes, r);
    forall h | h in Targets(d)
      ensures r.clean(h) == Some(h) <==> Href.ByteLength(h) <= Href.MAX_LINK_LENGTH
      ensures Reader.SafeHref(Some(h), url) == Some(h) <==> !Href.Has(h, Href.ConsoleRefuses) && url(h)
    {
      TargetsKept(d, h, r);
      KeptTarget(h, tags, schemes, idna, url);
    }
    StaysExactly(nodes, r, url);
  }
}
