// The canonical serialisation (apps/rich-editor/src/model.ts:140-253): the writer with its stack of open
// marks, shown to print the element tree that `Nest` defines by grouping, outermost mark first.

module Printer {
  import opened Base
  import opened RichModel
  import opened Markup

  datatype MarkKind = A | S | E | U
  datatype Mark = Mark(kind: MarkKind, href: string)

  function TagOf(k: MarkKind): string {
    match k case A => "a" case S => "strong" case E => "em" case U => "u"
  }

  function HrefOf(m: Mark): Option<string> {
    if m.kind.A? then Some(m.href) else None
  }

  /** The mark at a nesting level, outermost first: link, strong, em, underline. */
  function AtLevel(m: Marks, k: nat): seq<Mark> {
    if k == 0 then (if m.href != "" then [Mark(A, m.href)] else [])
    else if k == 1 then (if m.strong then [Mark(S, "")] else [])
    else if k == 2 then (if m.em then [Mark(E, "")] else [])
    else if k == 3 then (if m.u then [Mark(U, "")] else [])
    else []
  }

  function Below(m: Marks, k: nat): seq<Mark> {
    if k == 0 then [] else Below(m, k - 1) + AtLevel(m, k - 1)
  }

  function MarksOf(m: Marks): seq<Mark> {
    Below(m, 4)
  }

  // ---- the element tree of an inline line ----

  /** How many leading runs agree with the first one at level `k`. */
  function RunLen(cs: seq<Chunk>, k: nat): (n: nat)
    requires cs != [] && cs[0].Run?
    ensures 1 <= n <= |cs|
    ensures forall i :: 0 <= i < n ==> cs[i].Run? && AtLevel(cs[i].marks, k) == AtLevel(cs[0].marks, k)
    ensures n < |cs| && cs[n].Run? ==> AtLevel(cs[n].marks, k) != AtLevel(cs[0].marks, k)
  {
    if |cs| == 1 || cs[1].Br? || AtLevel(cs[1].marks, k) != AtLevel(cs[0].marks, k) then 1
    else 1 + RunLen(cs[1..], k)
  }

  function Wrap(marks: seq<Mark>, kids: seq<Node>): seq<Node> {
    if marks == [] then kids else [Elem(TagOf(marks[0].kind), HrefOf(marks[0]), kids)]
  }

  /** The forest of a line: maximal runs with the same mark at level `k` share one element, recursively inward. */
  function Nest(cs: seq<Chunk>, k: nat): seq<Node>
    requires k <= 4
    decreases 4 - k, |cs|
  {
    if cs == [] then []
    else if cs[0].Br? then [Elem("br", None, [])] + Nest(cs[1..], k)
    else if k == 4 then [Text(cs[0].text)] + Nest(cs[1..], k)
    else
      var n := RunLen(cs, k);
      Wrap(AtLevel(cs[0].marks, k), Nest(cs[..n], k + 1)) + Nest(cs[n..], k)
  }

  // ---- the document tree ----

  predicate ItemEmpty(it: Item) {
    it.inl == [] && forall s | s in it.subs :: ListEmpty(s)
  }

  predicate ListEmpty(l: List) {
    forall it | it in l.items :: ItemEmpty(it)
  }

  function KindTag(k: TextKind): string {
    match k case P => "p" case H3 => "h3" case H4 => "h4"
  }

  function ListTag(ordered: bool): string {
    if ordered then "ol" else "ul"
  }

  function ParaTrees(ps: seq<seq<Chunk>>): seq<Node> {
    if ps == [] then [] else [Elem("p", None, Nest(ps[0], 0))] + ParaTrees(ps[1..])
  }

  function ListTree(l: List): seq<Node>
    decreases l, 1
  {
    if ListEmpty(l) then [] else [Elem(ListTag(l.ordered), None, ItemTrees(l.items))]
  }

  function ItemTrees(items: seq<Item>): seq<Node>
    decreases items, 0
  {
    if items == [] then []
    else ItemTree(items[0]) + ItemTrees(items[1..])
  }

  function ItemTree(it: Item): seq<Node>
    decreases it, 1
  {
    if ItemEmpty(it) then [] else [Elem("li", None, Nest(it.inl, 0) + SubTrees(it.subs))]
  }

  function SubTrees(subs: seq<List>): seq<Node>
    decreases subs, 0
  {
    if subs == [] then [] else ListTree(subs[0]) + SubTrees(subs[1..])
  }

  function BlockTree(b: Block): seq<Node> {
    match b
    case TextBlock(kind, inl) => if inl == [] then [] else [Elem(KindTag(kind), None, Nest(inl, 0))]
    case Quote(paras) => if paras == [] then [] else [Elem("blockquote", None, ParaTrees(paras))]
    case ListBlock(l) => ListTree(l)
  }

  function DocTree(d: Doc): seq<Node> {
    if d == [] then [] else BlockTree(d[0]) + DocTree(d[1..])
  }

  // ---- the links of a line and of a document ----

  /** A link starts at `i`: no run with the same target stands just before it on the line. */
  predicate LinkStart(cs: seq<Chunk>, i: nat)
    requires i < |cs|
  {
    && cs[i].Run? && cs[i].marks.href != ""
    && (i == 0 || cs[i-1].Br? || cs[i-1].marks.href != cs[i].marks.href)
  }

  function LinkRuns(cs: seq<Chunk>): nat {
    if cs == [] then 0 else LinkRuns(cs[..|cs|-1]) + (if LinkStart(cs, |cs|-1) then 1 else 0)
  }

  function LinksOfParas(ps: seq<seq<Chunk>>): nat {
    if ps == [] then 0 else LinkRuns(ps[0]) + LinksOfParas(ps[1..])
  }

  function LinksOfList(l: List): nat
    decreases l, 1
  { LinksOfItems(l.items) }

  function LinksOfItems(items: seq<Item>): nat
    decreases items, 0
  {
    if items == [] then 0 else LinkRuns(items[0].inl) + LinksOfSubs(items[0].subs) + LinksOfItems(items[1..])
  }

  function LinksOfSubs(subs: seq<List>): nat
    decreases subs, 0
  {
    if subs == [] then 0 else LinksOfList(subs[0]) + LinksOfSubs(subs[1..])
  }

  function LinksOfBlock(b: Block): nat {
    match b
    case TextBlock(_, inl) => LinkRuns(inl)
    case Quote(paras) => LinksOfParas(paras)
    case ListBlock(l) => LinksOfList(l)
  }

  function DocLinks(d: Doc): nat {
    if d == [] then 0 else LinksOfBlock(d[0]) + DocLinks(d[1..])
  }

  // ---- what the writer emits, by its open marks ----

  function Common(a: seq<Mark>, b: seq<Mark>): (n: nat)
    ensures n <= |a| && n <= |b| && a[..n] == b[..n]
    ensures n < |a| && n < |b| ==> a[n] != b[n]
  {
    if a == [] || b == [] || a[0] != b[0] then 0 else 1 + Common(a[1..], b[1..])
  }

  function CloseAll(open: seq<Mark>): string {
    if open == [] then "" else EndTag(TagOf(open[|open|-1].kind)) + CloseAll(open[..|open|-1])
  }

  function OpenAll(marks: seq<Mark>): string {
    if marks == [] then "" else StartTag(TagOf(marks[0].kind), HrefOf(marks[0])) + OpenAll(marks[1..])
  }

  /** Closes and opens what stands between the open marks and the wanted ones. */
  function Switch(open: seq<Mark>, want: seq<Mark>): string {
    CloseAll(open[Common(open, want)..]) + OpenAll(want[Common(open, want)..])
  }

  /** The text still to be written for `cs` when the marks `open` are open. */
  function Rest(cs: seq<Chunk>, open: seq<Mark>): string {
    if cs == [] then CloseAll(open)
    else if cs[0].Br? then CloseAll(open) + ("<br>" + Rest(cs[1..], []))
    else Switch(open, MarksOf(cs[0].marks)) + (EscapeText(cs[0].text) + Rest(cs[1..], MarksOf(cs[0].marks)))
  }

  // ---- the writer prints the nested forest ----

  lemma {:induction false} CloseConcat(a: seq<Mark>, b: seq<Mark>)
    ensures CloseAll(a + b) == CloseAll(b) + CloseAll(a)
  {
    if b == [] {
      assert a + b == a;
    } else {
      CloseConcat(a, b[..|b|-1]);
      assert (a + b)[..|a + b|-1] == a + b[..|b|-1];
      assert (a + b)[|a + b|-1] == b[|b|-1];
      SeqAssoc(EndTag(TagOf(b[|b|-1].kind)), CloseAll(b[..|b|-1]), CloseAll(a));
    }
  }

  lemma {:induction false} OpenConcat(a: seq<Mark>, b: seq<Mark>)
    ensures OpenAll(a + b) == OpenAll(a) + OpenAll(b)
  {
    hide StartTag;
    if a == [] {
      assert a + b == b;
    } else {
      OpenConcat(a[1..], b);
      assert (a + b)[1..] == a[1..] + b;
      SeqAssoc(StartTag(TagOf(a[0].kind), HrefOf(a[0])), OpenAll(a[1..]), OpenAll(b));
    }
  }

  lemma {:induction false} CommonIs(a: seq<Mark>, b: seq<Mark>, n: nat)
    requires n <= |a| && n <= |b| && a[..n] == b[..n]
    requires n == |a| || n == |b| || a[n] != b[n]
    ensures Common(a, b) == n
  {
    if n > 0 {
      assert a[0] == a[..n][0] == b[..n][0] == b[0];
      assert a[1..][..n-1] == a[..n][1..] && b[1..][..n-1] == b[..n][1..];
      CommonIs(a[1..], b[1..], n - 1);
    }
  }

  lemma {:induction false} CommonPrefix(pre: seq<Mark>, a: seq<Mark>, b: seq<Mark>)
    ensures Common(pre + a, pre + b) == |pre| + Common(a, b)
  {
    if pre == [] {
      assert pre + a == a && pre + b == b;
    } else {
      CommonPrefix(pre[1..], a, b);
      assert (pre + a)[1..] == pre[1..] + a && (pre + b)[1..] == pre[1..] + b;
    }
  }

  /** The marks from level `k` inward. */
  function From(m: Marks, k: nat): seq<Mark>
    requires k <= 4
    decreases 4 - k
  {
    if k == 4 then [] else AtLevel(m, k) + From(m, k + 1)
  }

  lemma {:induction false} BelowFrom(m: Marks, k: nat)
    requires k <= 4
    ensures MarksOf(m) == Below(m, k) + From(m, k)
    decreases 4 - k
  {
    hide AtLevel;
    if k < 4 {
      BelowFrom(m, k + 1);
      var a, b, c := Below(m, k), AtLevel(m, k), From(m, k + 1);
      assert (a + b) + c == a + (b + c);
    } else {
      assert From(m, 4) == [];
      assert Below(m, 4) + [] == Below(m, 4);
    }
  }

  function Rank(m: Mark): nat {
    match m.kind case A => 0 case S => 1 case E => 2 case U => 3
  }

  lemma {:induction false} FromRank(m: Marks, k: nat)
    requires k <= 4
    ensures From(m, k) != [] ==> Rank(From(m, k)[0]) >= k
    decreases 4 - k
  {
    if k < 4 { FromRank(m, k + 1); }
  }

  lemma {:induction false} AtLevelRank(m: Marks, k: nat)
    ensures |AtLevel(m, k)| <= 1
    ensures AtLevel(m, k) != [] ==> Rank(AtLevel(m, k)[0]) == k
  {}

  lemma {:induction false} FromHeads(m: Marks, m': Marks, k: nat)
    requires k < 4 && AtLevel(m, k) != AtLevel(m', k)
    ensures Common(From(m, k), From(m', k)) == 0
  {
    hide AtLevel, Rank;
    AtLevelRank(m, k);
    AtLevelRank(m', k);
    FromRank(m, k + 1);
    FromRank(m', k + 1);
    HeadsDiffer(AtLevel(m, k), From(m, k + 1), AtLevel(m', k), From(m', k + 1), k);
  }

  lemma {:induction false} HeadsDiffer(x: seq<Mark>, u: seq<Mark>, y: seq<Mark>, v: seq<Mark>, k: nat)
    requires |x| <= 1 && |y| <= 1 && x != y
    requires (x != [] ==> Rank(x[0]) == k) && (y != [] ==> Rank(y[0]) == k)
    requires (u != [] ==> Rank(u[0]) > k) && (v != [] ==> Rank(v[0]) > k)
    ensures Common(x + u, y + v) == 0
  {
    hide Rank;
    if x == [] { assert x + u == u; }
    if y == [] { assert y + v == v; }
  }

  /** Two marked runs that agree below level `k` and differ at it share exactly the marks below. */
  lemma {:induction false} CommonAtLevel(m: Marks, m': Marks, k: nat)
    requires k < 4 && Below(m, k) == Below(m', k) && AtLevel(m, k) != AtLevel(m', k)
    ensures Common(MarksOf(m), MarksOf(m')) == |Below(m, k)|
  {
    hide *;
    BelowFrom(m, k);
    BelowFrom(m', k);
    CommonPrefix(Below(m, k), From(m, k), From(m', k));
    FromHeads(m, m', k);
  }

  /** At most `n` marks stay open between a run marked `m` and what follows it. */
  predicate Breaks(m: Marks, s: seq<Chunk>, n: nat) {
    s == [] || s[0].Br? || Common(MarksOf(m), MarksOf(s[0].marks)) <= n
  }

  lemma {:induction false} SwitchFrom(pre: seq<Mark>, y: seq<Mark>)
    ensures Switch(pre, pre + y) == OpenAll(y)
  {
    CommonIs(pre, pre + y, |pre|);
    assert pre[|pre|..] == [] && (pre + y)[|pre|..] == y;
  }

  lemma {:induction false} OpenStep(cs: seq<Chunk>, k: nat)
    requires k < 4 && cs != [] && cs[0].Run?
    ensures Rest(cs, Below(cs[0].marks, k)) == OpenAll(AtLevel(cs[0].marks, k)) + Rest(cs, Below(cs[0].marks, k + 1))
  {
    var m := cs[0].marks;
    BelowFrom(m, k);
    BelowFrom(m, k + 1);
    SwitchFrom(Below(m, k), From(m, k));
    SwitchFrom(Below(m, k + 1), From(m, k + 1));
    OpenConcat(AtLevel(m, k), From(m, k + 1));
    SeqAssoc(OpenAll(AtLevel(m, k)), OpenAll(From(m, k + 1)), EscapeText(cs[0].text) + Rest(cs[1..], MarksOf(m)));
  }

  lemma {:induction false} SwitchClose(pre: seq<Mark>, x: seq<Mark>, a: seq<Mark>, want: seq<Mark>)
    requires pre + x <= a && Common(a, want) <= |pre|
    ensures Switch(pre + x, want) == CloseAll(x) + Switch(pre, want)
  {
    var n := Common(a, want);
    assert (pre + x)[..n] == a[..n] == want[..n] == pre[..n];
    assert n < |pre + x| ==> (pre + x)[n] == a[n];
    assert n < |pre| ==> pre[n] == a[n];
    CommonIs(pre + x, want, n);
    CommonIs(pre, want, n);
    assert (pre + x)[n..] == pre[n..] + x;
    hide Common;
    CloseConcat(pre[n..], x);
    SeqAssoc(CloseAll(x), CloseAll(pre[n..]), OpenAll(want[n..]));
  }

  lemma {:induction false} CloseStep(pre: seq<Mark>, x: seq<Mark>, m: Marks, s: seq<Chunk>)
    requires pre + x <= MarksOf(m) && Breaks(m, s, |pre|)
    ensures Rest(s, pre + x) == CloseAll(x) + Rest(s, pre)
  {
    CloseConcat(pre, x);
    if s != [] {
      if s[0].Br? {
        SeqAssoc(CloseAll(x), CloseAll(pre), "<br>" + Rest(s[1..], []));
      } else {
        var want := MarksOf(s[0].marks);
        SwitchClose(pre, x, MarksOf(m), want);
        SeqAssoc(CloseAll(x), Switch(pre, want), EscapeText(s[0].text) + Rest(s[1..], want));
      }
    }
  }

  lemma {:induction false} WrapPrint(x: seq<Mark>, kids: seq<Node>)
    requires |x| <= 1
    ensures PrintAll(Wrap(x, kids)) == OpenAll(x) + PrintAll(kids) + CloseAll(x)
  {
    if x != [] {
      var e := Elem(TagOf(x[0].kind), HrefOf(x[0]), kids);
      assert PrintAll([e]) == Print(e) + PrintAll([]);
      assert OpenAll(x) == StartTag(e.tag, e.href) + OpenAll([]);
      assert CloseAll(x) == EndTag(e.tag) + CloseAll([]);
    }
  }

  lemma {:induction false} Assoc4(a: string, b: string, c: string, d: string, e: string)
    ensures a + (b + (c + (d + e))) == ((a + b) + c) + d + e
  {}

  /** All runs have the marks `pre` below level `k`, and only a whole line holds breaks. */
  predicate Uniform(cs: seq<Chunk>, k: nat, pre: seq<Mark>) {
    && (k == 0 ==> pre == [])
    && forall i :: 0 <= i < |cs| ==> if cs[i].Br? then k == 0 else Below(cs[i].marks, k) == pre
  }

  lemma {:induction false} UniformTail(cs: seq<Chunk>, k: nat, pre: seq<Mark>)
    requires cs != [] && Uniform(cs, k, pre)
    ensures Uniform(cs[1..], k, pre)
    ensures if cs[0].Br? then k == 0 && pre == [] else Below(cs[0].marks, k) == pre
  {}

  /** The writer, started with the marks of all of `cs` below level `k` open, prints the nested forest of `cs`. */
  lemma {:induction false} RestIsNest(cs: seq<Chunk>, k: nat, pre: seq<Mark>, s: seq<Chunk>)
    requires k <= 4 && Uniform(cs, k, pre)
    requires cs != [] && cs[|cs|-1].Run? ==> Breaks(cs[|cs|-1].marks, s, |pre|)
    ensures Rest(cs + s, pre) == PrintAll(Nest(cs, k)) + Rest(s, pre)
    decreases 4 - k, |cs|
  {
    hide AtLevel, MarksOf, Rest, CloseAll, OpenAll, PrintAll, Wrap, Below, Breaks, Uniform;
    if cs == [] {
      assert cs + s == s;
      assert PrintAll(Nest(cs, k)) == "" by { EmptyPrint(); }
    } else if cs[0].Br? || k == 4 {
      UniformTail(cs, k, pre);
      RestIsNest(cs[1..], k, pre, s);
      RestHead(cs, k, pre, s);
    } else {
      var n := RunLen(cs, k);
      var x := AtLevel(cs[0].marks, k);
      RunUniform(cs, k, pre);
      RunBreaks(cs, k, pre, s);
      BreaksMore(cs[n-1].marks, cs[n..] + s, |pre|, |pre + x|);
      BelowFrom(cs[n-1].marks, k + 1);
      CloseStep(pre, x, cs[n-1].marks, cs[n..] + s);
      RestIsNest(cs[..n], k + 1, pre + x, cs[n..] + s);
      RestIsNest(cs[n..], k, pre, s);
      UniformTail(cs, k, pre);
      RestGlue(cs, k, pre, s);
    }
  }

  lemma {:induction false} NestRun(cs: seq<Chunk>, k: nat)
    requires k < 4 && cs != [] && cs[0].Run?
    ensures var n := RunLen(cs, k); Nest(cs, k) == Wrap(AtLevel(cs[0].marks, k), Nest(cs[..n], k + 1)) + Nest(cs[n..], k)
  {}

  lemma {:induction false} NestBreak(cs: seq<Chunk>, k: nat)
    requires k <= 4 && cs != [] && cs[0].Br?
    ensures Nest(cs, k) == [Elem("br", None, [])] + Nest(cs[1..], k)
  {}

  /** Opening the shared mark, printing the run inside it and closing it again is printing its element. */
  lemma {:induction false} RestGlue(cs: seq<Chunk>, k: nat, pre: seq<Mark>, s: seq<Chunk>)
    requires k < 4 && cs != [] && cs[0].Run? && Below(cs[0].marks, k) == pre
    requires var n := RunLen(cs, k); var x := AtLevel(cs[0].marks, k);
             && Rest(cs[n..] + s, pre + x) == CloseAll(x) + Rest(cs[n..] + s, pre)
             && Rest(cs[..n] + (cs[n..] + s), pre + x) == PrintAll(Nest(cs[..n], k + 1)) + Rest(cs[n..] + s, pre + x)
             && Rest(cs[n..] + s, pre) == PrintAll(Nest(cs[n..], k)) + Rest(s, pre)
    ensures Rest(cs + s, pre) == PrintAll(Nest(cs, k)) + Rest(s, pre)
  {
    hide AtLevel, Rest, CloseAll, OpenAll, PrintAll, Wrap, Nest, RunLen;
    var n := RunLen(cs, k);
    var x := AtLevel(cs[0].marks, k);
    assert cs + s == cs[..n] + (cs[n..] + s);
    OpenStep(cs + s, k);
    assert Below(cs[0].marks, k + 1) == pre + x;
    AtLevelRank(cs[0].marks, k);
    WrapPrint(x, Nest(cs[..n], k + 1));
    NestRun(cs, k);
    PrintConcat(Wrap(x, Nest(cs[..n], k + 1)), Nest(cs[n..], k));
    Assoc4(OpenAll(x), PrintAll(Nest(cs[..n], k + 1)), CloseAll(x), PrintAll(Nest(cs[n..], k)), Rest(s, pre));
  }

  /** The first run of `cs` shares its mark at level `k`; what follows may not continue it. */
  lemma {:induction false} RunUniform(cs: seq<Chunk>, k: nat, pre: seq<Mark>)
    requires k < 4 && cs != [] && cs[0].Run? && Uniform(cs, k, pre)
    ensures Uniform(cs[..RunLen(cs, k)], k + 1, pre + AtLevel(cs[0].marks, k))
    ensures Uniform(cs[RunLen(cs, k)..], k, pre)
    ensures Below(cs[RunLen(cs, k)-1].marks, k + 1) == pre + AtLevel(cs[0].marks, k)
  {
    hide AtLevel;
    var n := RunLen(cs, k);
    forall i | 0 <= i < n ensures Below(cs[i].marks, k + 1) == pre + AtLevel(cs[0].marks, k) {}
    forall i | 0 <= i < |cs| - n ensures cs[n..][i] == cs[n + i] {}
  }

  lemma {:induction false} RunBreaks(cs: seq<Chunk>, k: nat, pre: seq<Mark>, s: seq<Chunk>)
    requires k < 4 && cs != [] && cs[0].Run? && Uniform(cs, k, pre)
    requires cs[|cs|-1].Run? ==> Breaks(cs[|cs|-1].marks, s, |pre|)
    ensures Breaks(cs[RunLen(cs, k)-1].marks, cs[RunLen(cs, k)..] + s, |pre|)
  {
    hide AtLevel, MarksOf, Common, Below;
    var n := RunLen(cs, k);
    var last, t := cs[n-1], cs[n..];
    if n == |cs| {
      assert t + s == s;
    } else {
      assert (t + s)[0] == cs[n];
      if cs[n].Run? { CommonAtLevel(last.marks, cs[n].marks, k); }
    }
  }

  lemma {:induction false} BreaksMore(m: Marks, s: seq<Chunk>, n: nat, n': nat)
    requires Breaks(m, s, n) && n <= n'
    ensures Breaks(m, s, n')
  {}

  lemma {:induction false} EmptyPrint()
    ensures PrintAll([]) == ""
  {}

  lemma {:induction false} RestHead(cs: seq<Chunk>, k: nat, pre: seq<Mark>, s: seq<Chunk>)
    requires k <= 4 && cs != []
    requires if cs[0].Br? then pre == [] else k == 4 && Below(cs[0].marks, k) == pre
    requires Rest(cs[1..] + s, pre) == PrintAll(Nest(cs[1..], k)) + Rest(s, pre)
    ensures Rest(cs + s, pre) == PrintAll(Nest(cs, k)) + Rest(s, pre)
  {
    hide EscapeText, MarksOf, Below, CloseAll, Switch, PrintAll;
    var e := if cs[0].Br? then Elem("br", None, []) else Text(cs[0].text);
    assert (cs + s)[1..] == cs[1..] + s;
    assert Nest(cs, k) == [e] + Nest(cs[1..], k);
    PrintCons(e, Nest(cs[1..], k));
    SeqAssoc(Print(e), PrintAll(Nest(cs[1..], k)), Rest(s, pre));
    SwitchSame(pre);
    if cs[0].Run? { MarksIsBelow4(cs[0].marks); }
  }

  lemma {:induction false} PrintCons(e: Node, f: seq<Node>)
    ensures PrintAll([e] + f) == Print(e) + PrintAll(f)
  {
    assert ([e] + f)[1..] == f;
  }

  lemma {:induction false} SwitchSame(pre: seq<Mark>)
    ensures Switch(pre, pre) == "" && CloseAll([]) == ""
  {
    SwitchFrom(pre, []);
    assert pre + [] == pre;
  }

  lemma {:induction false} MarksIsBelow4(m: Marks)
    ensures MarksOf(m) == Below(m, 4)
  {}

  /** A whole line: the writer prints its forest. */
  lemma {:induction false} LineIsNest(cs: seq<Chunk>)
    ensures Rest(cs, []) == PrintAll(Nest(cs, 0))
  {
    RestIsNest(cs, 0, [], []);
    assert cs + [] == cs;
    assert Rest([], []) == "";
  }
}
