// A normalised document, printed and read back, is its own element tree
// (apps/rich-editor/src/model.ts:140-253, apps/admin-web/src/lib/richtext.ts:74-220).

module DocRoundTrip {
  import opened Base
  import opened RichModel
  import opened Markup
  import opened Printer
  import opened Reader
  import opened RoundTrip
  import opened ReaderSafety

  /** The link targets of a line pass the console's check. */
  predicate SafeLinks(cs: seq<Chunk>, url: string -> bool) {
    forall i :: 0 <= i < |cs| && cs[i].Run? && cs[i].marks.href != "" ==>
      SafeHref(Some(cs[i].marks.href), url) == Some(cs[i].marks.href)
  }

  predicate LineOk(cs: seq<Chunk>, url: string -> bool) {
    Canonical(cs) && SafeLinks(cs, url)
  }

  /** A list element at nesting `depth`: the reader keeps what stands up to 32 deep. */
  predicate ListOk(l: List, depth: nat, url: string -> bool)
    decreases l, 1
  {
    depth + 6 <= MAX_DEPTH && ItemsOk(l.items, depth + 1, url)
  }

  predicate ItemsOk(items: seq<Item>, depth: nat, url: string -> bool)
    decreases items, 0
  {
    items != [] ==>
      LineOk(items[0].inl, url) && SubsOk(items[0].subs, depth + 1, url) && ItemsOk(items[1..], depth, url)
  }

  predicate SubsOk(subs: seq<List>, depth: nat, url: string -> bool)
    decreases subs, 0
  {
    subs != [] ==> (ListEmpty(subs[0]) || ListOk(subs[0], depth, url)) && SubsOk(subs[1..], depth, url)
  }

  predicate BlockOk(b: Block, url: string -> bool) {
    match b
    case TextBlock(_, inl) => LineOk(inl, url)
    case Quote(paras) => forall i :: 0 <= i < |paras| ==> LineOk(paras[i], url)
    case ListBlock(l) => ListOk(l, 0, url)
  }

  predicate DocOk(d: Doc, url: string -> bool) {
    forall i :: 0 <= i < |d| ==> BlockOk(d[i], url)
  }

  // ---- inline forests ----

  lemma {:induction false} GoodConcat(f: seq<Node>, g: seq<Node>, parent: string, inLink: bool, depth: nat, url: string -> bool)
    requires GoodAll(f, parent, inLink, depth, url) && GoodAll(g, parent, inLink, depth, url)
    requires EndsInText(f) && g != [] ==> !g[0].Text?
    ensures GoodAll(f + g, parent, inLink, depth, url)
  {
    hide Good;
    if f == [] {
      assert f + g == g;
    } else {
      GoodConcat(f[1..], g, parent, inLink, depth, url);
      assert (f + g)[1..] == f[1..] + g;
      assert |f| > 1 ==> (f + g)[1] == f[1];
    }
  }

  lemma {:induction false} GoodOne(n: Node, parent: string, inLink: bool, depth: nat, url: string -> bool)
    requires Good(n, parent, inLink, depth, url)
    ensures GoodAll([n], parent, inLink, depth, url)
  {
    hide Good;
    assert [n][1..] == [];
  }

  /** The marks of a run can be read off the list of marks. */
  lemma {:induction false} MarksHold(m: Marks)
    ensures m.strong <==> Mark(S, "") in MarksOf(m)
    ensures m.em <==> Mark(E, "") in MarksOf(m)
    ensures m.u <==> Mark(U, "") in MarksOf(m)
  {
    hide MarksOf;
    MarksSum(m);
  }

  lemma {:induction false} MarksSum(m: Marks)
    ensures MarksOf(m) == AtLevel(m, 0) + AtLevel(m, 1) + AtLevel(m, 2) + AtLevel(m, 3)
  {
    hide AtLevel;
    assert Below(m, 0) == [];
    assert Below(m, 1) == Below(m, 0) + AtLevel(m, 0) == AtLevel(m, 0);
    assert Below(m, 2) == Below(m, 1) + AtLevel(m, 1);
    assert Below(m, 3) == Below(m, 2) + AtLevel(m, 2);
    assert Below(m, 4) == Below(m, 3) + AtLevel(m, 3);
  }

  lemma {:induction false} HrefHolds(m: Marks)
    ensures MarksOf(m) != [] && MarksOf(m)[0].kind.A? <==> m.href != ""
    ensures m.href != "" ==> MarksOf(m)[0] == Mark(A, m.href)
  {
    hide AtLevel, From;
    BelowFrom(m, 0);
    assert Below(m, 0) + From(m, 0) == From(m, 0);
    FromFirst(m);
  }

  lemma {:induction false} FromFirst(m: Marks)
    ensures From(m, 0) == AtLevel(m, 0) + From(m, 1)
    ensures From(m, 1) != [] ==> !From(m, 1)[0].kind.A?
    ensures AtLevel(m, 0) == if m.href != "" then [Mark(A, m.href)] else []
  {
    FromRank(m, 1);
  }

  lemma {:induction false} SameMarks(m: Marks, m': Marks)
    requires MarksOf(m) == MarksOf(m')
    ensures m == m'
  {
    hide MarksOf;
    MarksHold(m);
    MarksHold(m');
    HrefHolds(m);
    HrefHolds(m');
  }

  /** An inner level holds one chunk, because equal neighbours were merged. */
  lemma {:induction false} LeafAlone(cs: seq<Chunk>, pre: seq<Mark>)
    requires Canonical(cs) && Uniform(cs, 4, pre)
    ensures |cs| <= 1
  {
    hide Below;
    if |cs| > 1 {
      assert cs[0].Run? && cs[1].Run?;
      SameMarks(cs[0].marks, cs[1].marks);
    }
  }

  lemma {:induction false} CanonicalSlice(cs: seq<Chunk>, n: nat, url: string -> bool)
    requires n <= |cs| && Canonical(cs) && SafeLinks(cs, url)
    ensures Canonical(cs[..n]) && SafeLinks(cs[..n], url) && Canonical(cs[n..]) && SafeLinks(cs[n..], url)
  {
    hide SafeHref;
    assert forall i :: 0 <= i < |cs| - n ==> cs[n..][i] == cs[n + i];
  }

  predicate InlineTag(tag: string) {
    tag == "a" || tag == "strong" || tag == "em" || tag == "u"
  }

  lemma {:induction false} InlineFits(tag: string, parent: string, depth: nat)
    requires InlineTag(tag) && depth < MAX_DEPTH
    ensures Fits(tag, parent, depth) && tag != "br"
  {}

  /** The first tree of a line that starts with a break or with a mark of the level is an element. */
  lemma {:induction false} NestHead(cs: seq<Chunk>, k: nat)
    requires k < 4 && cs != [] && (cs[0].Br? || AtLevel(cs[0].marks, k) != [])
    ensures Nest(cs, k) != [] && Nest(cs, k)[0].Elem?
  {
    hide AtLevel;
  }

  /** The element of a shared mark, around a good forest. */
  lemma {:induction false} WrapGood(m: Marks, k: nat, kids: seq<Node>, parent: string, inLink: bool, depth: nat, url: string -> bool)
    requires k < 4 && depth < MAX_DEPTH && (k == 0 ==> !inLink)
    requires m.href != "" ==> SafeHref(Some(m.href), url) == Some(m.href)
    requires var x := AtLevel(m, k);
             if x == [] then GoodAll(kids, parent, inLink, depth, url)
             else GoodAll(kids, TagOf(x[0].kind), inLink || TagOf(x[0].kind) == "a", depth + 1, url)
    ensures GoodAll(Wrap(AtLevel(m, k), kids), parent, inLink, depth, url)
    ensures AtLevel(m, k) != [] ==> !EndsInText(Wrap(AtLevel(m, k), kids))
  {
    hide GoodAll, SafeHref;
    var x := AtLevel(m, k);
    if x != [] {
      assert InlineTag(TagOf(x[0].kind));
      InlineFits(TagOf(x[0].kind), parent, depth);
      GoodOne(Elem(TagOf(x[0].kind), HrefOf(x[0]), kids), parent, inLink, depth, url);
    }
  }

  lemma {:induction false} NestGood(cs: seq<Chunk>, k: nat, pre: seq<Mark>, parent: string, inLink: bool, depth: nat, url: string -> bool)
    requires k <= 4 && Canonical(cs) && SafeLinks(cs, url) && Uniform(cs, k, pre)
    requires depth + 4 - k <= MAX_DEPTH && (k == 0 ==> !inLink)
    ensures GoodAll(Nest(cs, k), parent, inLink, depth, url)
    decreases 4 - k, |cs|
  {
    hide SafeLinks, Canonical, Uniform, GoodAll, AtLevel, Wrap, Good, Nest, SafeHref;
    if cs == [] {
      NestNone(cs, k);
      GoodNone(parent, inLink, depth, url);
    } else {
      UniformTail(cs, k, pre);
      CanonicalSlice(cs, 1, url);
      if cs[0].Br? {
        NestGood(cs[1..], k, pre, parent, inLink, depth, url);
        GoodBreak(parent, inLink, depth, url);
        NestBreak(cs, k);
        GoodConcat([Elem("br", None, [])], Nest(cs[1..], k), parent, inLink, depth, url);
      } else if k == 4 {
        LeafAlone(cs, pre);
        NestLeaf(cs);
        GoodText(cs, parent, inLink, depth, url);
      } else {
        var n := RunLen(cs, k);
        var x := AtLevel(cs[0].marks, k);
        RunUniform(cs, k, pre);
        CanonicalSlice(cs, n, url);
        var p, l, d := if x == [] then parent else TagOf(x[0].kind), inLink || (x != [] && x[0].kind.A?), if x == [] then depth else depth + 1;
        NestGood(cs[..n], k + 1, pre + x, p, l, d, url);
        NestGood(cs[n..], k, pre, parent, inLink, depth, url);
        HeadSafe(cs, url);
        WrapGood(cs[0].marks, k, Nest(cs[..n], k + 1), parent, inLink, depth, url);
        if n < |cs| && x == [] { NestHead(cs[n..], k); }
        if n == |cs| { NestNone(cs[n..], k); }
        RunGood(cs, k, x, parent, inLink, depth, url);
      }
    }
  }

  lemma {:induction false} NestLeaf(cs: seq<Chunk>)
    requires cs != [] && cs[0].Run?
    ensures Nest(cs, 4) == [Text(cs[0].text)] + Nest(cs[1..], 4)
    ensures |cs| == 1 ==> Nest(cs, 4) == [Text(cs[0].text)]
  {
    if |cs| == 1 { assert cs[1..] == []; }
  }

  lemma {:induction false} NestNone(cs: seq<Chunk>, k: nat)
    requires k <= 4 && cs == []
    ensures Nest(cs, k) == []
  {}

  lemma {:induction false} RunGood(cs: seq<Chunk>, k: nat, x: seq<Mark>, parent: string, inLink: bool, depth: nat, url: string -> bool)
    requires k < 4 && cs != [] && cs[0].Run? && x == AtLevel(cs[0].marks, k)
    requires var n := RunLen(cs, k);
             && GoodAll(Wrap(x, Nest(cs[..n], k + 1)), parent, inLink, depth, url)
             && GoodAll(Nest(cs[n..], k), parent, inLink, depth, url)
             && (Nest(cs[n..], k) != [] ==> !EndsInText(Wrap(x, Nest(cs[..n], k + 1))) || !Nest(cs[n..], k)[0].Text?)
    ensures GoodAll(Nest(cs, k), parent, inLink, depth, url)
  {
    hide GoodAll, Wrap, AtLevel, EndsInText;
    hide Nest;
    var n := RunLen(cs, k);
    NestRun(cs, k);
    GoodConcat(Wrap(x, Nest(cs[..n], k + 1)), Nest(cs[n..], k), parent, inLink, depth, url);
  }

  lemma {:induction false} HeadSafe(cs: seq<Chunk>, url: string -> bool)
    requires cs != [] && cs[0].Run? && SafeLinks(cs, url)
    ensures cs[0].marks.href != "" ==> SafeHref(Some(cs[0].marks.href), url) == Some(cs[0].marks.href)
  {}

  lemma {:induction false} GoodNone(parent: string, inLink: bool, depth: nat, url: string -> bool)
    ensures GoodAll([], parent, inLink, depth, url)
  {}

  lemma {:induction false} GoodBreak(parent: string, inLink: bool, depth: nat, url: string -> bool)
    ensures GoodAll([Elem("br", None, [])], parent, inLink, depth, url)
    ensures !EndsInText([Elem("br", None, [])])
  {
    GoodOne(Elem("br", None, []), parent, inLink, depth, url);
  }

  lemma {:induction false} GoodText(cs: seq<Chunk>, parent: string, inLink: bool, depth: nat, url: string -> bool)
    requires cs != [] && cs[0].Run? && Canonical(cs)
    ensures GoodAll([Text(cs[0].text)], parent, inLink, depth, url)
  {
    GoodOne(Text(cs[0].text), parent, inLink, depth, url);
  }

  /** The forest of a normalised line may stand in any paragraph, heading or item. */
  lemma {:induction false} LineGood(cs: seq<Chunk>, parent: string, depth: nat, url: string -> bool)
    requires LineOk(cs, url) && depth + 4 <= MAX_DEPTH
    ensures GoodAll(Nest(cs, 0), parent, false, depth, url)
  {
    NestGood(cs, 0, [], parent, false, depth, url);
  }

  // ---- blocks ----

  lemma {:induction false} ElemGood(tag: string, kids: seq<Node>, parent: string, depth: nat, url: string -> bool)
    requires tag != "br" && tag != "a" && Fits(tag, parent, depth) && GoodAll(kids, tag, false, depth + 1, url)
    ensures GoodAll([Elem(tag, None, kids)], parent, false, depth, url)
  {
    hide GoodAll, Fits;
    GoodOne(Elem(tag, None, kids), parent, false, depth, url);
  }

  lemma {:induction false} BlockFits()
    ensures forall d: nat :: d < MAX_DEPTH ==> Fits("li", "ul", d) && Fits("li", "ol", d) && Fits("ul", "li", d) && Fits("ol", "li", d)
    ensures Fits("p", "", 0) && Fits("h3", "", 0) && Fits("h4", "", 0) && Fits("blockquote", "", 0) && Fits("p", "blockquote", 1)
    ensures Fits("ul", "", 0) && Fits("ol", "", 0)
  {}

  lemma {:induction false} ListGood(l: List, parent: string, depth: nat, url: string -> bool)
    requires ListEmpty(l) || ListOk(l, depth, url)
    requires parent == "li" || (parent == "" && depth == 0)
    ensures GoodAll(ListTree(l), parent, false, depth, url)
    decreases l, 1
  {
    hide GoodAll, Fits, ItemsOk, ListEmpty;
    GoodNone(parent, false, depth, url);
    if !ListEmpty(l) {
      ItemsGood(l.items, ListTag(l.ordered), depth + 1, url);
      BlockFits();
      ElemGood(ListTag(l.ordered), ItemTrees(l.items), parent, depth, url);
    }
  }

  lemma {:induction false} ItemsGood(items: seq<Item>, parent: string, depth: nat, url: string -> bool)
    requires ItemsOk(items, depth, url) && depth + 5 <= MAX_DEPTH && (parent == "ul" || parent == "ol")
    ensures GoodAll(ItemTrees(items), parent, false, depth, url)
    decreases items, 0
  {
    hide GoodAll, Fits, LineOk, SubsOk, ItemTree;
    GoodNone(parent, false, depth, url);
    if items != [] {
      SubsGood(items[0].subs, depth + 1, url);
      ItemGood(items[0], parent, depth, url);
      ItemsGood(items[1..], parent, depth, url);
      GoodConcat(ItemTree(items[0]), ItemTrees(items[1..]), parent, false, depth, url);
    }
  }

  lemma {:induction false} ItemGood(it: Item, parent: string, depth: nat, url: string -> bool)
    requires LineOk(it.inl, url) && depth + 5 <= MAX_DEPTH && (parent == "ul" || parent == "ol")
    requires GoodAll(SubTrees(it.subs), "li", false, depth + 1, url)
    ensures GoodAll(ItemTree(it), parent, false, depth, url) && !EndsInText(ItemTree(it))
  {
    hide GoodAll, Fits, LineOk, ItemEmpty, Nest, SubTrees;
    GoodNone(parent, false, depth, url);
    LineGood(it.inl, "li", depth + 1, url);
    SubHeads(it.subs);
    GoodConcat(Nest(it.inl, 0), SubTrees(it.subs), "li", false, depth + 1, url);
    BlockFits();
    ElemGood("li", Nest(it.inl, 0) + SubTrees(it.subs), parent, depth, url);
  }

  lemma {:induction false} SubsGood(subs: seq<List>, depth: nat, url: string -> bool)
    requires SubsOk(subs, depth, url)
    ensures GoodAll(SubTrees(subs), "li", false, depth, url)
    decreases subs, 0
  {
    hide GoodAll, Fits, ListEmpty, ListOk;
    GoodNone("li", false, depth, url);
    if subs != [] {
      ListGood(subs[0], "li", depth, url);
      SubsGood(subs[1..], depth, url);
      ListHead(subs[0]);
      GoodConcat(ListTree(subs[0]), SubTrees(subs[1..]), "li", false, depth, url);
    }
  }

  lemma {:induction false} ListHead(l: List)
    ensures !EndsInText(ListTree(l)) && (ListTree(l) != [] ==> ListTree(l)[0].Elem?)
  {}

  lemma {:induction false} SubHeads(subs: seq<List>)
    ensures SubTrees(subs) != [] ==> SubTrees(subs)[0].Elem?
    decreases |subs|
  {
    hide ListTree;
    if subs != [] {
      ListHead(subs[0]);
      SubHeads(subs[1..]);
    }
  }

  lemma {:induction false} ParasGood(ps: seq<seq<Chunk>>, url: string -> bool)
    requires forall i :: 0 <= i < |ps| ==> LineOk(ps[i], url)
    ensures GoodAll(ParaTrees(ps), "blockquote", false, 1, url)
    decreases |ps|
  {
    hide GoodAll, Fits, LineOk;
    GoodNone("blockquote", false, 1, url);
    if ps != [] {
      LineGood(ps[0], "p", 2, url);
      ParasGood(ps[1..], url);
      BlockFits();
      ElemGood("p", Nest(ps[0], 0), "blockquote", 1, url);
      GoodConcat([Elem("p", None, Nest(ps[0], 0))], ParaTrees(ps[1..]), "blockquote", false, 1, url);
    }
  }

  lemma {:induction false} BlockGood(b: Block, url: string -> bool)
    requires BlockOk(b, url)
    ensures GoodAll(BlockTree(b), "", false, 0, url) && !EndsInText(BlockTree(b))
  {
    hide GoodAll, Fits, LineOk, ListOk, Nest, ListTree;
    GoodNone("", false, 0, url);
    BlockFits();
    match b
    case TextBlock(kind, inl) =>
      LineGood(inl, KindTag(kind), 1, url);
      ElemGood(KindTag(kind), Nest(inl, 0), "", 0, url);
    case Quote(paras) =>
      ParasGood(paras, url);
      ElemGood("blockquote", ParaTrees(paras), "", 0, url);
    case ListBlock(l) =>
      ListGood(l, "", 0, url);
      ListHead(l);
  }

  lemma {:induction false} DocGood(d: Doc, url: string -> bool)
    requires DocOk(d, url)
    ensures GoodAll(DocTree(d), "", false, 0, url)
    decreases |d|
  {
    hide GoodAll, BlockOk, BlockTree;
    GoodNone("", false, 0, url);
    if d != [] {
      BlockGood(d[0], url);
      DocGood(d[1..], url);
      GoodConcat(BlockTree(d[0]), DocTree(d[1..]), "", false, 0, url);
    }
  }

  /** The console reads the HTML of a normalised document back as exactly the document's tree. */
  lemma {:induction false} PrintedDocReadsBack(d: Doc, url: string -> bool)
    requires DocOk(d, url)
    ensures Parsed(PrintAll(DocTree(d)), url) == DocTree(d)
  {
    DocGood(d, url);
    ParsePrint(DocTree(d), url);
  }
}
