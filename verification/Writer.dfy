// `writeInline`, `writeList` and `docHtml` (apps/rich-editor/src/model.ts:162-253) as the source runs them:
// one output list and one link counter, both updated in place.

module Writer {
  import opened Base
  import opened RichModel
  import opened Markup
  import opened Printer

  function Join(parts: seq<string>): string {
    if parts == [] then "" else Join(parts[..|parts|-1]) + parts[|parts|-1]
  }

  function CountLinks(marks: seq<Mark>): nat {
    if marks == [] then 0 else (if marks[0].kind.A? then 1 else 0) + CountLinks(marks[1..])
  }

  lemma {:induction false} CountConcat(a: seq<Mark>, b: seq<Mark>)
    ensures CountLinks(a + b) == CountLinks(a) + CountLinks(b)
  {
    if a == [] {
      assert a + b == b;
    } else {
      CountConcat(a[1..], b);
      assert (a + b)[1..] == a[1..] + b;
    }
  }

  lemma {:induction false} NoLinksInward(m: Marks, k: nat)
    requires 1 <= k <= 4
    ensures forall i :: 0 <= i < |From(m, k)| ==> !From(m, k)[i].kind.A?
    decreases 4 - k
  {
    if k < 4 {
      AtLevelRank(m, k);
      NoLinksInward(m, k + 1);
    }
  }

  lemma {:induction false} CountNone(marks: seq<Mark>)
    requires forall i :: 0 <= i < |marks| ==> !marks[i].kind.A?
    ensures CountLinks(marks) == 0
  {
    if marks != [] { CountNone(marks[1..]); }
  }

  /** The marks that are open after the chunk before position `k`. */
  function OpenBefore(cs: seq<Chunk>, k: nat): seq<Mark>
    requires k <= |cs|
  {
    if k == 0 || cs[k-1].Br? then [] else MarksOf(cs[k-1].marks)
  }

  lemma {:induction false} MarksHead(m: Marks)
    ensures MarksOf(m) == AtLevel(m, 0) + From(m, 1)
    ensures MarksOf(m) != [] ==> (MarksOf(m)[0].kind.A? <==> m.href != "") && (m.href != "" ==> MarksOf(m)[0] == Mark(A, m.href))
    ensures m.href != "" ==> MarksOf(m) != []
  {
    BelowFrom(m, 0);
    NoLinksInward(m, 1);
    assert Below(m, 0) + From(m, 0) == From(m, 0);
  }

  /** A chunk opens a link element exactly where a link starts. */
  lemma {:induction false} LinkOpened(cs: seq<Chunk>, k: nat)
    requires k < |cs| && cs[k].Run?
    ensures var want := MarksOf(cs[k].marks);
            CountLinks(want[Common(OpenBefore(cs, k), want)..]) == (if LinkStart(cs, k) then 1 else 0)
  {
    hide From, AtLevel, MarksOf;
    var m := cs[k].marks;
    var want, open := MarksOf(m), OpenBefore(cs, k);
    var n := Common(open, want);
    MarksHead(m);
    NoLinksInward(m, 1);
    if k > 0 && cs[k-1].Run? { MarksHead(cs[k-1].marks); }
    if m.href == "" || n > 0 {
      assert AtLevel(m, 0) == (if m.href == "" then [] else [Mark(A, m.href)]) by { Level0(m); }
      assert forall i :: 0 <= i < |want[n..]| ==> !want[n..][i].kind.A?;
      CountNone(want[n..]);
    } else {
      Level0(m);
      assert want[1..] == From(m, 1) && want[0..] == want;
      CountNone(want[1..]);
    }
    assert n > 0 ==> open[0] == want[0] by { if n > 0 { assert open[..n][0] == want[..n][0]; } }
  }

  lemma {:induction false} Level0(m: Marks)
    ensures AtLevel(m, 0) == if m.href == "" then [] else [Mark(A, m.href)]
  {}

  lemma {:induction false} RunsSnoc(cs: seq<Chunk>, k: nat)
    requires k < |cs|
    ensures LinkRuns(cs[..k+1]) == LinkRuns(cs[..k]) + (if LinkStart(cs, k) then 1 else 0)
  {
    assert cs[..k+1][..k] == cs[..k];
  }

  lemma {:induction false} RestStep(cs: seq<Chunk>, k: nat)
    requires k < |cs|
    ensures var open := OpenBefore(cs, k);
            && (cs[k].Br? ==> Rest(cs[k..], open) == CloseAll(open) + ("<br>" + Rest(cs[k+1..], [])))
            && (cs[k].Run? ==> var want := MarksOf(cs[k].marks);
                  Rest(cs[k..], open) == Switch(open, want) + (EscapeText(cs[k].text) + Rest(cs[k+1..], want)))
  {
    hide MarksOf, CloseAll, Switch, EscapeText;
    assert cs[k..][1..] == cs[k+1..];
  }

  // ---- text glue ----

  lemma {:induction false} OpenNothing()
    ensures OpenAll([]) == ""
  {}

  lemma {:induction false} PrintNothing()
    ensures PrintAll([]) == ""
  {}

  lemma {:induction false} OpenSingle(m: Mark)
    ensures OpenAll([m]) == StartTag(TagOf(m.kind), HrefOf(m)) && CountLinks([m]) == (if m.kind.A? then 1 else 0)
  {
    hide StartTag;
    assert OpenAll([m]) == StartTag(TagOf(m.kind), HrefOf(m)) + OpenAll([m][1..]);
    assert CountLinks([m][1..]) == 0;
  }

  lemma {:induction false} RestEnd(open: seq<Mark>)
    ensures Rest([], open) == CloseAll(open)
  {}

  lemma {:induction false} CloseOne(open: seq<Mark>, k: nat)
    requires k < |open|
    ensures CloseAll(open[k..]) == CloseAll(open[k+1..]) + EndTag(TagOf(open[k].kind))
  {
    hide EndTag;
    assert open[k..] == [open[k]] + open[k+1..];
    CloseConcat([open[k]], open[k+1..]);
    assert CloseAll([open[k]]) == EndTag(TagOf(open[k].kind)) + CloseAll([]);
  }

  lemma {:induction false} Glue3(h: string, a: string, b: string, c: string)
    ensures h + a + b + c == h + (a + b + c)
    ensures h + a + b + c == h + (a + (b + c))
  {}

  lemma {:induction false} Glue4(h: string, a: string, b: string, c: string, d: string)
    ensures h + a + b + c + d == h + (a + (b + c) + d)
    ensures h + a + b + c + d == h + ((a + b) + (c + d))
  {}

  lemma {:induction false} ElemPrint(tag: string, kids: seq<Node>)
    requires tag != "br"
    ensures PrintAll([Elem(tag, None, kids)]) == StartTag(tag, None) + PrintAll(kids) + EndTag(tag)
  {
    hide StartTag, EndTag;
    PrintCons(Elem(tag, None, kids), []);
    assert [Elem(tag, None, kids)] + [] == [Elem(tag, None, kids)];
    PrintNothing();
  }

  lemma {:induction false} ItemPrint(it: Item)
    requires !ItemEmpty(it)
    ensures PrintAll(ItemTree(it)) == StartTag("li", None) + (PrintAll(Nest(it.inl, 0)) + PrintAll(SubTrees(it.subs))) + EndTag("li")
  {
    hide StartTag, EndTag, PrintAll;
    PrintConcat(Nest(it.inl, 0), SubTrees(it.subs));
    ElemPrint("li", Nest(it.inl, 0) + SubTrees(it.subs));
  }

  lemma {:induction false} ItemTreesConcat(a: seq<Item>, b: seq<Item>)
    ensures ItemTrees(a + b) == ItemTrees(a) + ItemTrees(b)
    ensures LinksOfItems(a + b) == LinksOfItems(a) + LinksOfItems(b)
  {
    hide ItemTree, LinkRuns, LinksOfSubs;
    if a == [] {
      assert a + b == b;
    } else {
      ItemTreesConcat(a[1..], b);
      assert (a + b)[1..] == a[1..] + b;
      SeqAssoc(ItemTree(a[0]), ItemTrees(a[1..]), ItemTrees(b));
    }
  }

  lemma {:induction false} ItemsSnoc(items: seq<Item>, k: nat)
    requires k < |items|
    ensures PrintAll(ItemTrees(items[..k+1])) == PrintAll(ItemTrees(items[..k])) + PrintAll(ItemTree(items[k]))
    ensures LinksOfItems(items[..k+1]) == LinksOfItems(items[..k]) + (LinkRuns(items[k].inl) + LinksOfSubs(items[k].subs))
  {
    hide PrintAll, ItemTree;
    var one := [items[k]];
    assert items[..k+1] == items[..k] + one;
    ItemTreesConcat(items[..k], one);
    assert one[1..] == [];
    assert ItemTrees(one) == ItemTree(items[k]) + ItemTrees([]) == ItemTree(items[k]);
    assert LinksOfItems(one) == LinkRuns(items[k].inl) + LinksOfSubs(items[k].subs) + LinksOfItems([]);
    PrintConcat(ItemTrees(items[..k]), ItemTree(items[k]));
  }

  lemma {:induction false} SubTreesConcat(a: seq<List>, b: seq<List>)
    ensures SubTrees(a + b) == SubTrees(a) + SubTrees(b)
    ensures LinksOfSubs(a + b) == LinksOfSubs(a) + LinksOfSubs(b)
  {
    hide ListTree, LinksOfList;
    if a == [] {
      assert a + b == b;
    } else {
      SubTreesConcat(a[1..], b);
      assert (a + b)[1..] == a[1..] + b;
      SeqAssoc(ListTree(a[0]), SubTrees(a[1..]), SubTrees(b));
    }
  }

  lemma {:induction false} SubsSnoc(subs: seq<List>, k: nat)
    requires k < |subs|
    ensures PrintAll(SubTrees(subs[..k+1])) == PrintAll(SubTrees(subs[..k])) + PrintAll(ListTree(subs[k]))
    ensures LinksOfSubs(subs[..k+1]) == LinksOfSubs(subs[..k]) + LinksOfList(subs[k])
  {
    hide PrintAll, ListTree;
    var one := [subs[k]];
    assert subs[..k+1] == subs[..k] + one;
    SubTreesConcat(subs[..k], one);
    assert one[1..] == [];
    assert SubTrees(one) == ListTree(subs[k]) + SubTrees([]) == ListTree(subs[k]);
    assert LinksOfSubs(one) == LinksOfList(subs[k]) + LinksOfSubs([]);
    PrintConcat(SubTrees(subs[..k]), ListTree(subs[k]));
  }

  lemma {:induction false} EmptyItemLinks(it: Item)
    requires ItemEmpty(it)
    ensures LinkRuns(it.inl) + LinksOfSubs(it.subs) == 0
    decreases it
  {
    EmptySubsLinks(it.subs);
  }

  lemma {:induction false} EmptySubsLinks(subs: seq<List>)
    requires forall s | s in subs :: ListEmpty(s)
    ensures LinksOfSubs(subs) == 0
    decreases subs
  {
    if subs != [] {
      EmptyListLinks(subs[0]);
      EmptySubsLinks(subs[1..]);
    }
  }

  lemma {:induction false} EmptyListLinks(l: List)
    requires ListEmpty(l)
    ensures LinksOfList(l) == 0
    decreases l
  {
    EmptyItemsLinks(l.items);
  }

  lemma {:induction false} EmptyItemsLinks(items: seq<Item>)
    requires forall it | it in items :: ItemEmpty(it)
    ensures LinksOfItems(items) == 0
    decreases items
  {
    if items != [] {
      EmptyItemLinks(items[0]);
      EmptyItemsLinks(items[1..]);
    }
  }

  lemma {:induction false} ParaTreesConcat(a: seq<seq<Chunk>>, b: seq<seq<Chunk>>)
    ensures ParaTrees(a + b) == ParaTrees(a) + ParaTrees(b)
    ensures LinksOfParas(a + b) == LinksOfParas(a) + LinksOfParas(b)
  {
    hide Nest;
    if a == [] {
      assert a + b == b;
    } else {
      ParaTreesConcat(a[1..], b);
      assert (a + b)[1..] == a[1..] + b;
      assert (a + b)[0] == a[0];
    }
  }

  lemma {:induction false} ParasSnoc(ps: seq<seq<Chunk>>, k: nat)
    requires k < |ps|
    ensures PrintAll(ParaTrees(ps[..k+1])) == PrintAll(ParaTrees(ps[..k])) + (StartTag("p", None) + PrintAll(Nest(ps[k], 0)) + EndTag("p"))
    ensures LinksOfParas(ps[..k+1]) == LinksOfParas(ps[..k]) + LinkRuns(ps[k])
  {
    hide PrintAll, Nest, StartTag, EndTag;
    var one := [ps[k]];
    assert ps[..k+1] == ps[..k] + one;
    ParaTreesConcat(ps[..k], one);
    assert one[1..] == [];
    assert ParaTrees(one) == [Elem("p", None, Nest(ps[k], 0))] + ParaTrees([]);
    assert ParaTrees(one) == [Elem("p", None, Nest(ps[k], 0))];
    assert LinksOfParas(one) == LinkRuns(ps[k]) + LinksOfParas([]);
    PrintConcat(ParaTrees(ps[..k]), ParaTrees(one));
    ElemPrint("p", Nest(ps[k], 0));
  }

  lemma {:induction false} DocTreeConcat(a: Doc, b: Doc)
    ensures DocTree(a + b) == DocTree(a) + DocTree(b)
    ensures DocLinks(a + b) == DocLinks(a) + DocLinks(b)
  {
    hide BlockTree, LinksOfBlock;
    if a == [] {
      assert a + b == b;
    } else {
      DocTreeConcat(a[1..], b);
      assert (a + b)[1..] == a[1..] + b;
      SeqAssoc(BlockTree(a[0]), DocTree(a[1..]), DocTree(b));
    }
  }

  lemma {:induction false} DocSnoc(d: Doc, k: nat)
    requires k < |d|
    ensures DocTree(d[..k+1]) == DocTree(d[..k]) + BlockTree(d[k])
    ensures PrintAll(DocTree(d[..k+1])) == PrintAll(DocTree(d[..k])) + PrintAll(BlockTree(d[k]))
    ensures DocLinks(d[..k+1]) == DocLinks(d[..k]) + LinksOfBlock(d[k])
  {
    hide PrintAll, BlockTree, LinksOfBlock;
    var one := [d[k]];
    assert d[..k+1] == d[..k] + one;
    DocTreeConcat(d[..k], one);
    assert one[1..] == [];
    assert DocTree(one) == BlockTree(d[k]) + DocTree([]) == BlockTree(d[k]);
    assert DocLinks(one) == LinksOfBlock(d[k]) + DocLinks([]);
    PrintConcat(DocTree(d[..k]), BlockTree(d[k]));
  }

  class Output {
    var out: seq<string>
    var links: nat

    constructor ()
      ensures Html() == "" && links == 0
    {
      out, links := [], 0;
    }

    ghost function Html(): string
      reads this
    {
      Join(out)
    }

    method Push(s: string)
      modifies this
      ensures Html() == old(Html()) + s && links == old(links)
    {
      out := out + [s];
    }

    /** The closure `closeTo` of the writer. */
    method CloseTo(open0: seq<Mark>, n: nat) returns (open: seq<Mark>)
      requires n <= |open0|
      modifies this
      ensures open == open0[..n]
      ensures Html() == old(Html()) + CloseAll(open0[n..]) && links == old(links)
    {
      hide Join;
      open := open0;
      assert open0[|open0|..] == [];
      while |open| > n
        invariant n <= |open| <= |open0| && open == open0[..|open|] && links == old(links)
        invariant Html() == old(Html()) + CloseAll(open0[|open|..])
      {
        var m := open[|open|-1];
        CloseOne(open0, |open| - 1);
        SeqAssoc(old(Html()), CloseAll(open0[|open|..]), EndTag(TagOf(m.kind)));
        open := open[..|open|-1];
        Push(EndTag(TagOf(m.kind)));
      }
    }

    /** Opens the wanted marks from position `n` on. */
    method OpenFrom(want: seq<Mark>, n: nat)
      requires n <= |want|
      modifies this
      ensures Html() == old(Html()) + OpenAll(want[n..])
      ensures links == old(links) + CountLinks(want[n..])
    {
      hide Join, StartTag, OpenAll;
      assert want[n..n] == [];
      assert OpenAll([]) == "" by { OpenNothing(); }
      for k := n to |want|
        invariant Html() == old(Html()) + OpenAll(want[n..k])
        invariant links == old(links) + CountLinks(want[n..k])
      {
        var m := want[k];
        assert want[n..k+1] == want[n..k] + [m];
        OpenConcat(want[n..k], [m]);
        OpenSingle(m);
        CountConcat(want[n..k], [m]);
        SeqAssoc(old(Html()), OpenAll(want[n..k]), StartTag(TagOf(m.kind), HrefOf(m)));
        if m.kind.A? {
          Push(StartTag("a", Some(m.href)));
          links := links + 1;
        } else {
          Push(StartTag(TagOf(m.kind), None));
        }
      }
      assert want[n..|want|] == want[n..];
    }

    /** One line: its tree is printed, and the counter grows by the links that start on it. */
    method WriteInline(chunks: seq<Chunk>)
      modifies this
      ensures Html() == old(Html()) + PrintAll(Nest(chunks, 0))
      ensures links == old(links) + LinkRuns(chunks)
    {
      hide Rest, CloseAll, OpenAll, MarksOf, EscapeText, PrintAll, Join, Common, CountLinks;
      var open: seq<Mark> := [];
      assert chunks[0..] == chunks;
      for k := 0 to |chunks|
        invariant open == OpenBefore(chunks, k)
        invariant Html() + Rest(chunks[k..], open) == old(Html()) + Rest(chunks, [])
        invariant links == old(links) + LinkRuns(chunks[..k])
      {
        var c := chunks[k];
        RestStep(chunks, k);
        RunsSnoc(chunks, k);
        ghost var h := Html();
        if c.Br? {
          ghost var was := open;
          open := CloseTo(open, 0);
          Push("<br>");
          assert was[0..] == was;
          Glue3(h, CloseAll(was), "<br>", Rest(chunks[k+1..], []));
        } else {
          var want := MarksOf(c.marks);
          var n := 0;
          while n < |open| && n < |want| && open[n] == want[n]
            invariant n <= |open| && n <= |want| && open[..n] == want[..n]
          {
            n := n + 1;
          }
          CommonIs(open, want, n);
          LinkOpened(chunks, k);
          ghost var was := open;
          open := CloseTo(open, n);
          OpenFrom(want, n);
          open := want;
          Push(EscapeText(c.text));
          Glue4(h, CloseAll(was[n..]), OpenAll(want[n..]), EscapeText(c.text), Rest(chunks[k+1..], want));
        }
      }
      assert chunks[..|chunks|] == chunks;
      assert chunks[|chunks|..] == [];
      RestEnd(open);
      assert open[0..] == open;
      open := CloseTo(open, 0);
      LineIsNest(chunks);
    }

    method WriteList(l: List)
      modifies this
      ensures Html() == old(Html()) + PrintAll(ListTree(l))
      ensures links == old(links) + LinksOfList(l)
      decreases l
    {
      hide Join, PrintAll, StartTag, EndTag, Nest, ItemEmpty;
      if ListEmpty(l) {
        EmptyListLinks(l);
        PrintNothing();
        return;
      }
      ghost var h := Html();
      var tag := ListTag(l.ordered);
      Push(StartTag(tag, None));
      PrintNothing();
      for k := 0 to |l.items|
        invariant Html() == h + StartTag(tag, None) + PrintAll(ItemTrees(l.items[..k]))
        invariant links == old(links) + LinksOfItems(l.items[..k])
      {
        var it := l.items[k];
        ItemsSnoc(l.items, k);
        ghost var h1 := Html();
        if ItemEmpty(it) {
          EmptyItemLinks(it);
          PrintNothing();
          continue;
        }
        Push(StartTag("li", None));
        WriteInline(it.inl);
        ghost var h2 := Html();
        PrintNothing();
        for j := 0 to |it.subs|
          invariant Html() == h2 + PrintAll(SubTrees(it.subs[..j]))
          invariant links == old(links) + LinksOfItems(l.items[..k]) + LinkRuns(it.inl) + LinksOfSubs(it.subs[..j])
        {
          WriteList(it.subs[j]);
          SubsSnoc(it.subs, j);
          SeqAssoc(h2, PrintAll(SubTrees(it.subs[..j])), PrintAll(ListTree(it.subs[j])));
        }
        assert it.subs[..|it.subs|] == it.subs;
        Push(EndTag("li"));
        ItemPrint(it);
        Glue4(h1, StartTag("li", None), PrintAll(Nest(it.inl, 0)), PrintAll(SubTrees(it.subs)), EndTag("li"));
        SeqAssoc(h + StartTag(tag, None), PrintAll(ItemTrees(l.items[..k])), PrintAll(ItemTree(it)));
      }
      assert l.items[..|l.items|] == l.items;
      Push(EndTag(tag));
      ElemPrint(tag, ItemTrees(l.items));
      Glue3(h, StartTag(tag, None), PrintAll(ItemTrees(l.items)), EndTag(tag));
    }

    /** One block of the document. */
    method WriteBlock(b: Block)
      modifies this
      ensures Html() == old(Html()) + PrintAll(BlockTree(b))
      ensures links == old(links) + LinksOfBlock(b)
    {
      hide Join, PrintAll, StartTag, EndTag, Nest, ListTree;
      ghost var h := Html();
      PrintNothing();
      match b {
        case TextBlock(kind, inl) =>
          if |inl| == 0 { return; }
          var tag := KindTag(kind);
          Push(StartTag(tag, None));
          WriteInline(inl);
          Push(EndTag(tag));
          ElemPrint(tag, Nest(inl, 0));
          Glue3(h, StartTag(tag, None), PrintAll(Nest(inl, 0)), EndTag(tag));
        case Quote(paras) =>
          if |paras| == 0 { return; }
          Push(StartTag("blockquote", None));
          ghost var h1 := Html();
          for k := 0 to |paras|
            invariant Html() == h1 + PrintAll(ParaTrees(paras[..k]))
            invariant links == old(links) + LinksOfParas(paras[..k])
          {
            ghost var h2 := Html();
            Push(StartTag("p", None));
            WriteInline(paras[k]);
            Push(EndTag("p"));
            ParasSnoc(paras, k);
            Glue3(h2, StartTag("p", None), PrintAll(Nest(paras[k], 0)), EndTag("p"));
            SeqAssoc(h1, PrintAll(ParaTrees(paras[..k])), StartTag("p", None) + PrintAll(Nest(paras[k], 0)) + EndTag("p"));
          }
          assert paras[..|paras|] == paras;
          Push(EndTag("blockquote"));
          ElemPrint("blockquote", ParaTrees(paras));
          Glue3(h, StartTag("blockquote", None), PrintAll(ParaTrees(paras)), EndTag("blockquote"));
        case ListBlock(l) =>
          WriteList(l);
      }
    }
  }

  /** The loop over the blocks, with the links counted as they are opened. */
  method DocHtml(d: Doc) returns (html: string, n: nat)
    ensures html == PrintAll(DocTree(d))
    ensures n == DocLinks(d)
  {
    hide PrintAll, BlockTree, LinksOfBlock;
    var o := new Output();
    PrintNothing();
    for k := 0 to |d|
      invariant o.Html() == PrintAll(DocTree(d[..k])) && o.links == DocLinks(d[..k])
    {
      o.WriteBlock(d[k]);
      DocSnoc(d, k);
    }
    assert d[..|d|] == d;
    html := JoinParts(o.out);
    n := o.links;
  }

  method JoinParts(parts: seq<string>) returns (r: string)
    ensures r == Join(parts)
  {
    r := "";
    for k := 0 to |parts|
      invariant r == Join(parts[..k])
    {
      assert parts[..k+1][..k] == parts[..k];
      r := r + parts[k];
    }
    assert parts[..|parts|] == parts;
  }
}
