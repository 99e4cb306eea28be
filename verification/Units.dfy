// The lines of a document as a reader meets them (apps/rich-editor/src/model.ts:255-310): `units`, `visibleLen`,
// `visibleText`. They are tied to the element tree: what the source reads off its model is what anybody reads
// off the printed paragraphs, headings and list items.

module Units {
  import opened Base
  import opened Chars
  import opened RichModel
  import opened Finish
  import opened FinishSpec
  import opened Markup
  import opened Printer
  import Reader
  import DocRoundTrip
  import SanitizerFix

  // ---- the units of the model ----

  function LineText(cs: seq<Chunk>): string {
    if cs == [] then "" else (match cs[0] case Br => "\n" case Run(t, _, _) => t) + LineText(cs[1..])
  }

  function ListUnits(l: List): seq<seq<Chunk>>
    decreases l, 1
  { ItemsUnits(l.items) }

  function ItemsUnits(items: seq<Item>): seq<seq<Chunk>>
    decreases items, 0
  {
    if items == [] then [] else ItemUnits(items[0]) + ItemsUnits(items[1..])
  }

  function ItemUnits(it: Item): seq<seq<Chunk>>
    decreases it, 1
  {
    if ItemEmpty(it) then [] else (if it.inl == [] then [] else [it.inl]) + SubsUnits(it.subs)
  }

  function SubsUnits(subs: seq<List>): seq<seq<Chunk>>
    decreases subs, 0
  {
    if subs == [] then [] else ListUnits(subs[0]) + SubsUnits(subs[1..])
  }

  function BlockUnits(b: Block): seq<seq<Chunk>> {
    match b
    case TextBlock(_, inl) => if inl == [] then [] else [inl]
    case Quote(paras) => paras
    case ListBlock(l) => ListUnits(l)
  }

  function DocUnits(d: Doc): seq<seq<Chunk>> {
    if d == [] then [] else BlockUnits(d[0]) + DocUnits(d[1..])
  }

  function Texts(us: seq<seq<Chunk>>): seq<string> {
    seq(|us|, i requires 0 <= i < |us| => LineText(us[i]))
  }

  function JoinLines(parts: seq<string>): string {
    if parts == [] then "" else if |parts| == 1 then parts[0] else parts[0] + "\n" + JoinLines(parts[1..])
  }

  function VisibleTextOf(d: Doc): string { JoinLines(Texts(DocUnits(d))) }

  // ---- the lines of an element tree ----

  function NodeText(n: Node): string {
    match n
    case Text(t) => t
    case Elem(tag, _, kids) => if tag == "br" then "\n" else ForestText(kids)
  }

  function ForestText(f: seq<Node>): string {
    if f == [] then "" else NodeText(f[0]) + ForestText(f[1..])
  }

  predicate ListNode(n: Node) { n.Elem? && n.tag in {"ul", "ol"} }

  /** The nodes of an item before its first nested list. */
  function ItemHead(kids: seq<Node>): seq<Node> {
    if kids == [] || ListNode(kids[0]) then [] else [kids[0]] + ItemHead(kids[1..])
  }

  function NodeLines(n: Node): seq<string> {
    match n
    case Text(_) => []
    case Elem(tag, _, kids) =>
      if tag in {"p", "h3", "h4"} then [ForestText(kids)]
      else if tag == "li" then (if ItemHead(kids) == [] then [] else [ForestText(ItemHead(kids))]) + ForestLines(kids)
      else if tag in {"blockquote", "ul", "ol"} then ForestLines(kids)
      else []
  }

  function ForestLines(f: seq<Node>): seq<string> {
    if f == [] then [] else NodeLines(f[0]) + ForestLines(f[1..])
  }

  // ---- a line of the tree ----

  lemma {:induction false} ForestTextConcat(f: seq<Node>, g: seq<Node>)
    ensures ForestText(f + g) == ForestText(f) + ForestText(g)
  {
    hide NodeText;
    if f == [] {
      assert f + g == g;
    } else {
      ForestTextConcat(f[1..], g);
      SeqAssoc(NodeText(f[0]), ForestText(f[1..]), ForestText(g));
      assert (f + g)[1..] == f[1..] + g;
    }
  }

  lemma {:induction false} ForestLinesConcat(f: seq<Node>, g: seq<Node>)
    ensures ForestLines(f + g) == ForestLines(f) + ForestLines(g)
  {
    hide NodeLines;
    if f == [] {
      assert f + g == g;
    } else {
      ForestLinesConcat(f[1..], g);
      SeqAssoc(NodeLines(f[0]), ForestLines(f[1..]), ForestLines(g));
      assert (f + g)[1..] == f[1..] + g;
    }
  }

  lemma {:induction false} LineTextConcat(a: seq<Chunk>, b: seq<Chunk>)
    ensures LineText(a + b) == LineText(a) + LineText(b)
  {
    if a == [] {
      assert a + b == b;
    } else {
      LineTextConcat(a[1..], b);
      SeqAssoc((match a[0] case Br => "\n" case Run(t, _, _) => t), LineText(a[1..]), LineText(b));
      assert (a + b)[1..] == a[1..] + b;
    }
  }

  lemma {:induction false} OneText(n: Node)
    ensures ForestText([n]) == NodeText(n) && ForestLines([n]) == NodeLines(n)
  {
    assert [n][1..] == [];
    hide NodeText, NodeLines;
    assert NodeText(n) + "" == NodeText(n) && NodeLines(n) + [] == NodeLines(n);
  }

  lemma {:induction false} WrapText(x: seq<Mark>, f: seq<Node>)
    requires |x| <= 1
    ensures ForestText(Wrap(x, f)) == ForestText(f)
  {
    if x != [] { OneText(Elem(TagOf(x[0].kind), HrefOf(x[0]), f)); }
  }

  /** The marks of a line change no character of it. */
  lemma {:induction false} NestText(cs: seq<Chunk>, k: nat)
    requires k <= 4
    ensures ForestText(Nest(cs, k)) == LineText(cs)
    decreases 4 - k, |cs|
  {
    hide AtLevel, Wrap, Nest, NodeText, ForestText, LineText;
    if cs == [] {
      NoText(k);
    } else if cs[0].Br? || k == 4 {
      NestText(cs[1..], k);
      LeafText(cs, k);
    } else {
      var n := RunLen(cs, k);
      var x := AtLevel(cs[0].marks, k);
      NestText(cs[..n], k + 1);
      NestText(cs[n..], k);
      NestRun(cs, k);
      OneLevel(cs[0].marks, k);
      WrapText(x, Nest(cs[..n], k + 1));
      ForestTextConcat(Wrap(x, Nest(cs[..n], k + 1)), Nest(cs[n..], k));
      assert cs == cs[..n] + cs[n..];
      LineTextConcat(cs[..n], cs[n..]);
    }
  }

  lemma {:induction false} OneLevel(m: Marks, k: nat)
    requires k < 4
    ensures |AtLevel(m, k)| <= 1
  {}

  lemma {:induction false} NoText(k: nat)
    requires k <= 4
    ensures ForestText(Nest([], k)) == LineText([])
  {}

  lemma {:induction false} LeafText(cs: seq<Chunk>, k: nat)
    requires k <= 4 && cs != [] && (cs[0].Br? || k == 4)
    requires ForestText(Nest(cs[1..], k)) == LineText(cs[1..])
    ensures ForestText(Nest(cs, k)) == LineText(cs)
  {
    var n := if cs[0].Br? then Elem("br", None, []) else Text(cs[0].text);
    assert Nest(cs, k) == [n] + Nest(cs[1..], k);
    hide Nest;
    OneText(n);
    ForestTextConcat([n], Nest(cs[1..], k));
  }

  /** Inline nodes hold no block and are no list. */
  predicate Inline(f: seq<Node>) {
    forall i :: 0 <= i < |f| ==> f[i].Text? || f[i].tag in {"br", "a", "strong", "em", "u"}
  }

  lemma {:induction false} NestInline(cs: seq<Chunk>, k: nat)
    requires k <= 4
    ensures Inline(Nest(cs, k))
    decreases 4 - k, |cs|
  {
    hide AtLevel;
    if cs != [] && cs[0].Run? && k < 4 {
      OneLevel(cs[0].marks, k);
      NestInline(cs[..RunLen(cs, k)], k + 1);
      NestInline(cs[RunLen(cs, k)..], k);
    } else if cs != [] {
      NestInline(cs[1..], k);
    }
  }

  lemma {:induction false} InlineLines(f: seq<Node>, g: seq<Node>)
    requires Inline(f) && (g != [] ==> ListNode(g[0]))
    ensures ForestLines(f) == [] && ItemHead(f + g) == f
  {
    if f == [] {
      assert f + g == g;
    } else {
      InlineLines(f[1..], g);
      assert (f + g)[1..] == f[1..] + g;
    }
  }

  // ---- the lines of a document tree are the units ----

  lemma {:induction false} TextsConcat(a: seq<seq<Chunk>>, b: seq<seq<Chunk>>)
    ensures Texts(a + b) == Texts(a) + Texts(b)
  {
    hide LineText;
  }

  lemma {:induction false} ParaLines(ps: seq<seq<Chunk>>)
    ensures ForestLines(ParaTrees(ps)) == Texts(ps)
  {
    hide Nest, LineText, ForestText;
    if ps != [] {
      var n := Elem("p", None, Nest(ps[0], 0));
      ParaLines(ps[1..]);
      NestText(ps[0], 0);
      OneText(n);
      ForestLinesConcat([n], ParaTrees(ps[1..]));
      TextsConcat([ps[0]], ps[1..]);
      assert ps == [ps[0]] + ps[1..];
    }
  }

  lemma {:induction false} ItemLines(it: Item)
    ensures ForestLines(ItemTree(it)) == Texts(ItemUnits(it))
    decreases it, 1
  {
    hide Nest, LineText, ForestText, SubTrees, SubsUnits, ForestLines, ItemHead, Inline, Texts;
    if !ItemEmpty(it) {
      var f, g := Nest(it.inl, 0), SubTrees(it.subs);
      SubsLines(it.subs);
      if g != [] { SanitizerFix.FirstIsList(it.subs); }
      NestInline(it.inl, 0);
      InlineLines(f, g);
      ForestLinesConcat(f, g);
      assert [] + ForestLines(g) == ForestLines(g);
      SanitizerFix.EmptyNest(it.inl, 0);
      NestText(it.inl, 0);
      OneText(Elem("li", None, f + g));
      HeadTexts(it.inl);
      TextsConcat(if it.inl == [] then [] else [it.inl], SubsUnits(it.subs));
    } else {
      NoLines();
    }
  }

  lemma {:induction false} NoLines()
    ensures ForestLines([]) == [] && Texts([]) == []
  {}

  lemma {:induction false} HeadTexts(cs: seq<Chunk>)
    ensures Texts([cs]) == [LineText(cs)] && Texts([]) == []
  {}

  lemma {:induction false} ItemsLines(items: seq<Item>)
    ensures ForestLines(ItemTrees(items)) == Texts(ItemsUnits(items))
    decreases items, 0
  {
    hide ItemTree, ItemUnits, ForestLines, Texts;
    NoLines();
    if items != [] {
      ItemLines(items[0]);
      ItemsLines(items[1..]);
      ForestLinesConcat(ItemTree(items[0]), ItemTrees(items[1..]));
      TextsConcat(ItemUnits(items[0]), ItemsUnits(items[1..]));
    }
  }

  lemma {:induction false} ListLines(l: List)
    ensures ForestLines(ListTree(l)) == Texts(ListUnits(l))
    decreases l, 1
  {
    hide ItemTrees, ItemsUnits, ForestLines, Texts;
    ItemsLines(l.items);
    if ListEmpty(l) {
      SanitizerFix.EmptyList(l);
      NoLines();
    } else {
      OneText(Elem(ListTag(l.ordered), None, ItemTrees(l.items)));
    }
  }

  lemma {:induction false} SubsLines(subs: seq<List>)
    ensures ForestLines(SubTrees(subs)) == Texts(SubsUnits(subs))
    decreases subs, 0
  {
    hide ListTree, ListUnits, ForestLines, Texts;
    NoLines();
    if subs != [] {
      ListLines(subs[0]);
      SubsLines(subs[1..]);
      ForestLinesConcat(ListTree(subs[0]), SubTrees(subs[1..]));
      TextsConcat(ListUnits(subs[0]), SubsUnits(subs[1..]));
    }
  }

  lemma {:induction false} BlockLines(b: Block)
    ensures ForestLines(BlockTree(b)) == Texts(BlockUnits(b))
  {
    hide ListTree, ListUnits, ForestLines, Texts, Nest, ForestText, LineText, ParaTrees;
    NoLines();
    match b
    case TextBlock(kind, inl) =>
      if inl != [] {
        NestText(inl, 0);
        OneText(Elem(KindTag(kind), None, Nest(inl, 0)));
        HeadTexts(inl);
      }
    case Quote(paras) =>
      if paras != [] {
        ParaLines(paras);
        OneText(Elem("blockquote", None, ParaTrees(paras)));
      }
    case ListBlock(l) => ListLines(l);
  }

  /** The units are the lines of the printed tree, in its order: each with its whole text, none left out, none twice. */
  lemma {:induction false} UnitsAreLines(d: Doc)
    ensures ForestLines(DocTree(d)) == Texts(DocUnits(d))
  {
    hide BlockTree, BlockUnits, ForestLines, Texts;
    NoLines();
    if d != [] {
      BlockLines(d[0]);
      UnitsAreLines(d[1..]);
      ForestLinesConcat(BlockTree(d[0]), DocTree(d[1..]));
      TextsConcat(BlockUnits(d[0]), DocUnits(d[1..]));
    }
  }

  /** What the console reads from the printed string are the lines the editor counts. */
  lemma {:induction false} ConsoleShowsVisibleText(d: Doc, url: string -> bool)
    requires DocRoundTrip.DocOk(d, url)
    ensures JoinLines(ForestLines(Reader.Parsed(PrintAll(DocTree(d)), url))) == VisibleTextOf(d)
  {
    hide *;
    hide ForestLines;
    DocRoundTrip.PrintedDocReadsBack(d, url);
    UnitsAreLines(d);
    VisibleTextIs(d);
  }

  lemma {:induction false} VisibleTextIs(d: Doc)
    ensures VisibleTextOf(d) == JoinLines(Texts(DocUnits(d)))
  {}

  // ---- the loops of the source ----

  /** `walkList`: the calls of the callback for one list. */
  method WalkList(l: List, calls: seq<seq<Chunk>>) returns (r: seq<seq<Chunk>>)
    ensures r == calls + ListUnits(l)
    decreases l, 1
  {
    hide ItemEmpty, ItemUnits;
    r := calls;
    for k := 0 to |l.items|
      invariant r == calls + ItemsUnits(l.items[..k])
    {
      ghost var was := r;
      var it := l.items[k];
      r := WalkItem(it, r);
      ItemsUnitsSnoc(l.items, k);
      SeqAssoc(calls, ItemsUnits(l.items[..k]), ItemUnits(it));
    }
    assert l.items[..|l.items|] == l.items;
  }

  method WalkItem(it: Item, calls: seq<seq<Chunk>>) returns (r: seq<seq<Chunk>>)
    ensures r == calls + ItemUnits(it)
    decreases it, 0
  {
    hide ItemEmpty, ListUnits;
    r := calls;
    if ItemEmpty(it) { return; }
    if |it.inl| > 0 { r := r + [it.inl]; }
    ghost var own := r;
    for k := 0 to |it.subs|
      invariant r == own + SubsUnits(it.subs[..k])
    {
      r := WalkList(it.subs[k], r);
      SubsUnitsSnoc(it.subs, k);
      SeqAssoc(own, SubsUnits(it.subs[..k]), ListUnits(it.subs[k]));
    }
    assert it.subs[..|it.subs|] == it.subs;
  }

  lemma {:induction false} ItemsUnitsSnoc(items: seq<Item>, k: nat)
    requires k < |items|
    ensures ItemsUnits(items[..k+1]) == ItemsUnits(items[..k]) + ItemUnits(items[k])
  {
    hide ItemUnits;
    if k > 0 {
      ItemsUnitsSnoc(items[1..], k - 1);
      assert items[..k+1][1..] == items[1..][..k] && items[..k][1..] == items[1..][..k-1];
      SeqAssoc(ItemUnits(items[0]), ItemsUnits(items[1..][..k-1]), ItemUnits(items[k]));
    } else {
      assert items[..1][1..] == [];
    }
  }

  lemma {:induction false} SubsUnitsSnoc(subs: seq<List>, k: nat)
    requires k < |subs|
    ensures SubsUnits(subs[..k+1]) == SubsUnits(subs[..k]) + ListUnits(subs[k])
  {
    hide ListUnits;
    if k > 0 {
      SubsUnitsSnoc(subs[1..], k - 1);
      assert subs[..k+1][1..] == subs[1..][..k] && subs[..k][1..] == subs[1..][..k-1];
      SeqAssoc(ListUnits(subs[0]), SubsUnits(subs[1..][..k-1]), ListUnits(subs[k]));
    } else {
      assert subs[..1][1..] == [];
    }
  }

  lemma {:induction false} DocUnitsSnoc(d: Doc, k: nat)
    requires k < |d|
    ensures DocUnits(d[..k+1]) == DocUnits(d[..k]) + BlockUnits(d[k])
  {
    hide BlockUnits;
    if k > 0 {
      DocUnitsSnoc(d[1..], k - 1);
      assert d[..k+1][1..] == d[1..][..k] && d[..k][1..] == d[1..][..k-1];
      SeqAssoc(BlockUnits(d[0]), DocUnits(d[1..][..k-1]), BlockUnits(d[k]));
    } else {
      assert d[..1][1..] == [];
    }
  }

  /** `units`, with the chunk lists its callback receives, in order. */
  method Units(d: Doc) returns (calls: seq<seq<Chunk>>)
    ensures calls == DocUnits(d)
  {
    hide ListUnits, ForestLines;
    calls := [];
    for k := 0 to |d|
      invariant calls == DocUnits(d[..k])
    {
      ghost var was := calls;
      match d[k] {
        case TextBlock(_, inl) => if |inl| > 0 { calls := calls + [inl]; }
        case Quote(paras) =>
          for j := 0 to |paras|
            invariant calls == was + paras[..j]
          {
            calls := calls + [paras[j]];
          }
          assert paras[..|paras|] == paras;
        case ListBlock(l) => calls := WalkList(l, calls);
      }
      DocUnitsSnoc(d, k);
    }
    assert d[..|d|] == d;
  }

  function TotalLength(us: seq<seq<Chunk>>): nat {
    if us == [] then 0 else TotalLength(us[..|us|-1]) + |LineText(us[|us|-1])|
  }

  lemma {:induction false} JoinSnoc(parts: seq<string>, s: string)
    ensures JoinLines(parts + [s]) == if parts == [] then s else JoinLines(parts) + "\n" + s
  {
    if |parts| == 1 {
      assert (parts + [s])[1..] == [s];
    } else if |parts| > 1 {
      JoinSnoc(parts[1..], s);
      assert (parts + [s])[1..] == parts[1..] + [s];
      SeqAssoc(parts[0] + "\n", JoinLines(parts[1..]), "\n");
      SeqAssoc(parts[0] + "\n", JoinLines(parts[1..]) + "\n", s);
    }
  }

  lemma {:induction false} JoinedLength(us: seq<seq<Chunk>>)
    ensures |JoinLines(Texts(us))| == TotalLength(us) + if |us| > 1 then |us| - 1 else 0
  {
    hide LineText, JoinLines;
    if us == [] {
      NothingJoined();
    } else {
      var front, last := us[..|us|-1], us[|us|-1];
      JoinedLength(front);
      assert Texts(us) == Texts(front) + [LineText(last)];
      JoinSnoc(Texts(front), LineText(last));
      if front == [] { NothingJoined(); }
    }
  }

  lemma {:induction false} NothingJoined()
    ensures JoinLines([]) == ""
  {}

  /** `visibleLen`: the two counters add up to the length of the visible text. */
  method VisibleLen(d: Doc) returns (n: nat)
    ensures n == |VisibleTextOf(d)|
  {
    hide LineText, DocUnits, Texts;
    n := 0;
    var count := 0;
    var calls := Units(d);
    for k := 0 to |calls|
      invariant count == k && n == TotalLength(calls[..k])
    {
      count := count + 1;
      n := n + |LineText(calls[k])|;
      assert calls[..k+1][..k] == calls[..k];
    }
    assert calls[..|calls|] == calls;
    JoinedLength(calls);
    if count > 1 { n := n + count - 1; }
  }
}
