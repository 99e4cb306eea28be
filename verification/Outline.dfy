// The outline of a document: its lines, quotes, lists and items in order, each with its rows; and the outline a foreign element tree
// has by itself (apps/rich-editor/src/sanitize.ts:151-239, 251-353). The second is read off the elements: no stack, no references.

module Outline {
  import opened Base
  import opened Chars
  import opened RichModel
  import opened Markup
  import opened Finish
  import opened SanitizerModel
  import opened MarkedRows
  import opened TreeReading

  datatype Entry =
    | TextLine(kind: TextKind, rows: seq<Row>)
    | QuoteStarts
    | QuoteLine(rows: seq<Row>)
    | ListStarts(level: nat, ordered: bool)
    | ItemStarts(level: nat, rows: seq<Row>)

  // ---- of a document ----

  function RowsOf(cs: seq<Chunk>): seq<Row> { LookRows(Cells(cs)) }

  function ItemsOutline(items: seq<Item>, level: nat): seq<Entry>
    decreases items, 0
  {
    if items == [] then [] else ItemsOutline(items[..|items|-1], level) + ItemOutline(items[|items|-1], level)
  }

  function ItemOutline(it: Item, level: nat): seq<Entry>
    decreases it, 1
  {
    [ItemStarts(level, RowsOf(it.inl))] + SubsOutline(it.subs, level + 1)
  }

  function SubsOutline(subs: seq<List>, level: nat): seq<Entry>
    decreases subs, 0
  {
    if subs == [] then []
    else
      var l := subs[|subs|-1];
      SubsOutline(subs[..|subs|-1], level) + ([ListStarts(level, l.ordered)] + ItemsOutline(l.items, level))
  }

  function QuoteOutline(paras: seq<seq<Chunk>>): seq<Entry> {
    seq(|paras|, i requires 0 <= i < |paras| => QuoteLine(RowsOf(paras[i])))
  }

  function BlockOutline(b: Block): seq<Entry> {
    match b
    case TextBlock(kind, inl) => [TextLine(kind, RowsOf(inl))]
    case Quote(paras) => [QuoteStarts] + QuoteOutline(paras)
    case ListBlock(l) => [ListStarts(1, l.ordered)] + ItemsOutline(l.items, 1)
  }

  function DocOutline(d: Doc): seq<Entry> {
    if d == [] then [] else DocOutline(d[..|d|-1]) + BlockOutline(d[|d|-1])
  }

  // ---- of a tree ----

  /** The container a text stands in; lists nest two levels deep. */
  datatype Where = AtTop | InQuote | InList(level: nat) | InItem(level: nat)

  /** What a container holds directly: characters and breaks, ends of lines with the kind of the next one, and what is nested in it. */
  datatype Bit = Show(cell: Cell) | Turn(kind: TextKind) | Inner(entry: Entry)

  /** The rows an item shows itself, and the entries that follow. */
  datatype Content = Content(rows: seq<Row>, entries: seq<Entry>)

  const NOTHING := Content([], [])

  function Plus(a: Content, b: Content): Content { Content(a.rows + b.rows, a.entries + b.entries) }

  /** One line of a container: in an item more rows of it, in a list a new item; a line without a visible character is nothing. */
  function LineIn(w: Where, kind: TextKind, e: seq<Cell>): Content {
    var rows := LookRows(e);
    if rows == [] then NOTHING
    else
      match w
      case AtTop => Content([], [TextLine(kind, rows)])
      case InQuote => Content([], [QuoteLine(rows)])
      case InList(level) => Content([], [ItemStarts(level, rows)])
      case InItem(_) => Content(rows, [])
  }

  /** The contents of a container whose line so far is `e`. */
  function Read(w: Where, kind: TextKind, e: seq<Cell>, bits: seq<Bit>): Content
    decreases |bits|
  {
    if bits == [] then LineIn(w, kind, e)
    else
      match bits[0]
      case Show(c) => Read(w, kind, e + [c], bits[1..])
      case Turn(k) => Plus(LineIn(w, kind, e), Read(w, k, [], bits[1..]))
      case Inner(x) => Plus(Plus(LineIn(w, kind, e), Content([], [x])), Read(w, P, [], bits[1..]))
  }

  /** Something has come that makes an item of a list. */
  predicate Holds(bits: seq<Bit>) {
    exists k :: 0 <= k < |bits| && (bits[k].Inner? || (bits[k].Show? && Ink(bits[k].cell)))
  }

  function Shown(e: seq<Cell>): seq<Bit> { seq(|e|, i requires 0 <= i < |e| => Show(e[i])) }

  function Nested(x: seq<Entry>): seq<Bit> { seq(|x|, i requires 0 <= i < |x| => Inner(x[i])) }

  function LevelOf(w: Where): nat { match w case InList(k) => k case InItem(k) => k case _ => 0 }

  /** The level of a list that starts here: one more, but never a third; in a list that has no item yet it is that list again. */
  function NewLevel(w: Where, begun: bool): nat {
    if LevelOf(w) == 2 || (w.InList? && !begun) then LevelOf(w) else LevelOf(w) + 1
  }

  /** The container an element opens: quotes at the top only, lists outside quotes, items in lists. */
  function Opens(tag: string, w: Where, begun: bool, r: Rules): Option<Where> {
    if tag == "blockquote" && "blockquote" in r.tags && w == AtTop then Some(InQuote)
    else if tag in {"ul", "ol"} && "ul" in r.tags && w != InQuote then Some(InList(NewLevel(w, begun)))
    else if tag == "li" && w.InList? then Some(InItem(w.level))
    else None
  }

  /** The entry of an opened container itself; a list that joins the one around it has none. */
  function Start(tag: string, w: Where, w': Where, rows: seq<Row>): seq<Entry> {
    match w'
    case InQuote => [QuoteStarts]
    case InItem(level) => [ItemStarts(level, rows)]
    case InList(level) => if level > LevelOf(w) then [ListStarts(level, tag == "ol")] else []
    case AtTop => []
  }

  /** A heading keeps its level at the top: the first three become the third, the others the fourth. */
  function KindIn(tag: string, w: Where, r: Rules): TextKind {
    if w != AtTop || "h3" !in r.tags then P
    else if tag in {"h1", "h2", "h3"} then H3
    else if tag in {"h4", "h5", "h6"} then H4
    else P
  }

  /** What a node puts into its container; `begun` says whether a list around it has an item already. */
  function Stream(n: Dom, above: seq<Above>, w: Where, begun: bool, r: Rules): seq<Bit>
    decreases n, 1
  {
    match n
    case TextNode(data) => Shown(AllowedOnly(Glyphs(data, MarksUnder(above, r), 0)))
    case OtherNode => []
    case Element(tag, href, kids) =>
      if tag in DROP_TAGS then []
      else if tag == "br" then [Show(Break)]
      else
        var more := above + [Above(tag, href)];
        match Opens(tag, w, begun, r)
        case Some(w') =>
          var c := Read(w', P, [], StreamAll(kids, more, w', false, r));
          [Turn(P)] + (Nested(Start(tag, w, w', c.rows) + c.entries) + [Turn(P)])
        case None =>
          var inner := StreamAll(kids, more, w, begun, r);
          if tag in BOUNDARY_TAGS then [Turn(KindIn(tag, w, r))] + (inner + [Turn(P)]) else inner
  }

  function StreamAll(ns: seq<Dom>, above: seq<Above>, w: Where, begun: bool, r: Rules): seq<Bit>
    decreases ns, 0
  {
    if ns == [] then []
    else
      var first := Stream(ns[0], above, w, begun, r);
      first + StreamAll(ns[1..], above, w, begun || Holds(first), r)
  }

  function TreeOutline(ns: seq<Dom>, r: Rules): seq<Entry> { Read(AtTop, P, [], StreamAll(ns, [], AtTop, false, r)).entries }

  // ---- contents ----

  lemma {:induction false} PlusSums(a: Content, b: Content, c: Content)
    ensures Plus(Plus(a, b), c) == Plus(a, Plus(b, c)) && Plus(NOTHING, a) == a == Plus(a, NOTHING)
  {
    SeqAssoc(a.rows, b.rows, c.rows);
    SeqAssoc(a.entries, b.entries, c.entries);
  }

  lemma {:induction false} ReadShown(w: Where, kind: TextKind, e: seq<Cell>, more: seq<Cell>, y: seq<Bit>)
    ensures Read(w, kind, e, Shown(more) + y) == Read(w, kind, e + more, y)
    decreases |more|
  {
    hide LineIn;
    if more == [] {
      assert Shown(more) + y == y && e + more == e;
    } else {
      var bits := Shown(more) + y;
      assert bits[0] == Show(more[0]) && bits[1..] == Shown(more[1..]) + y;
      ReadShown(w, kind, e + [more[0]], more[1..], y);
      assert e + [more[0]] + more[1..] == e + more;
    }
  }

  lemma {:induction false} ReadTurn(w: Where, kind: TextKind, e: seq<Cell>, k: TextKind, y: seq<Bit>)
    ensures Read(w, kind, e, [Turn(k)] + y) == Plus(LineIn(w, kind, e), Read(w, k, [], y))
  {
    hide LineIn;
    assert ([Turn(k)] + y)[0] == Turn(k) && ([Turn(k)] + y)[1..] == y;
  }

  lemma {:induction false} EmptyLine(w: Where, kind: TextKind)
    ensures LineIn(w, kind, []) == NOTHING
  {
    NoLooks();
  }

  lemma {:induction false} ReadNested(w: Where, x: seq<Entry>, y: seq<Bit>)
    ensures Read(w, P, [], Nested(x) + ([Turn(P)] + y)) == Plus(Content([], x), Read(w, P, [], y))
    decreases |x|
  {
    hide LineIn;
    EmptyLine(w, P);
    var rest := [Turn(P)] + y;
    if x == [] {
      assert Nested(x) + rest == rest;
      ReadTurn(w, P, [], P, y);
    } else {
      var bits := Nested(x) + rest;
      assert bits[0] == Inner(x[0]) && bits[1..] == Nested(x[1..]) + rest;
      ReadNested(w, x[1..], y);
      assert [] + [x[0]] == [x[0]];
      OneMore(x, Read(w, P, [], y));
    }
  }

  lemma {:induction false} OneMore(x: seq<Entry>, c: Content)
    requires x != []
    ensures Plus(Plus(NOTHING, Content([], [x[0]])), Plus(Content([], x[1..]), c)) == Plus(Content([], x), c)
  {
    PlusSums(Content([], [x[0]]), Content([], x[1..]), c);
    assert [x[0]] + x[1..] == x;
  }

  /** The rows alone count, not link numbers or kinds of white space. */
  lemma {:induction false} ReadSame(w: Where, kind: TextKind, a: seq<Cell>, b: seq<Cell>, bits: seq<Bit>)
    requires SameLooks(a, b)
    ensures Read(w, kind, a, bits) == Read(w, kind, b, bits)
    decreases |bits|
  {
    hide SameLooks, Plus, LookRows;
    SameFolded(a, b);
    if bits != [] && bits[0].Show? {
      OneLook(bits[0].cell);
      SameMore(a, b, [bits[0].cell], [bits[0].cell]);
      ReadSame(w, kind, a + [bits[0].cell], b + [bits[0].cell], bits[1..]);
    }
  }

  lemma {:induction false} OneLook(c: Cell)
    ensures SameLooks([c], [c])
  {}

  /** Outside items nothing counts as rows. */
  lemma {:induction false} NoRows(w: Where, kind: TextKind, e: seq<Cell>, bits: seq<Bit>)
    requires !w.InItem?
    ensures Read(w, kind, e, bits).rows == []
    decreases |bits|
  {
    hide LookRows;
    if bits != [] {
      match bits[0]
      case Show(c) => NoRows(w, kind, e + [c], bits[1..]);
      case Turn(k) => NoRows(w, k, [], bits[1..]);
      case Inner(x) => NoRows(w, P, [], bits[1..]);
    }
  }

  // ---- what a list holds ----

  predicate HasInk(e: seq<Cell>) { exists k :: 0 <= k < |e| && Ink(e[k]) }

  lemma {:induction false} InkSnoc(e: seq<Cell>, c: Cell)
    ensures HasInk(e + [c]) <==> HasInk(e) || Ink(c)
  {
    hide Ink;
    var more := e + [c];
    if HasInk(e) {
      var k :| 0 <= k < |e| && Ink(e[k]);
      assert Ink(more[k]);
    }
    if Ink(c) { assert Ink(more[|e|]); }
  }

  lemma {:induction false} RowsNeedInk(e: seq<Cell>)
    ensures LookRows(e) == [] <==> !HasInk(e)
  {
    if e != [] {
      var q, c := e[..|e|-1], e[|e|-1];
      assert e == q + [c];
      RowsNeedInk(q);
      hide Ink, HasInk;
      InkSnoc(q, c);
      FoldedSnoc(q, c);
    }
  }

  lemma {:induction false} HoldsFirst(bits: seq<Bit>)
    requires bits != []
    ensures Holds(bits) <==> bits[0].Inner? || (bits[0].Show? && Ink(bits[0].cell)) || Holds(bits[1..])
  {
    hide Ink;
    var rest := bits[1..];
    if Holds(rest) {
      var k :| 0 <= k < |rest| && (rest[k].Inner? || (rest[k].Show? && Ink(rest[k].cell)));
      assert bits[k+1] == rest[k];
    }
    if Holds(bits) {
      var k :| 0 <= k < |bits| && (bits[k].Inner? || (bits[k].Show? && Ink(bits[k].cell)));
      if k > 0 { assert rest[k-1] == bits[k]; }
    }
  }

  /** A list gets an item exactly when there is something to hold. */
  lemma {:induction false} ReadHolds(w: Where, kind: TextKind, e: seq<Cell>, bits: seq<Bit>)
    requires w.InList?
    ensures Read(w, kind, e, bits).entries != [] <==> HasInk(e) || Holds(bits)
    decreases |bits|
  {
    hide LookRows, HasInk, Holds, Ink;
    RowsNeedInk(e);
    if bits == [] {
      NoneHeld();
    } else {
      HoldsFirst(bits);
      match bits[0]
      case Show(c) =>
        InkSnoc(e, c);
        ReadHolds(w, kind, e + [c], bits[1..]);
      case Turn(k) =>
        NoneHeld();
        ReadHolds(w, k, [], bits[1..]);
      case Inner(x) =>
    }
  }

  lemma {:induction false} NoneHeld()
    ensures !Holds([]) && !HasInk([]) && LookRows([]) == []
  {}

  lemma {:induction false} HoldsJoin(a: seq<Bit>, b: seq<Bit>)
    ensures Holds(a + b) <==> Holds(a) || Holds(b)
    decreases |a|
  {
    if a == [] {
      assert a + b == b;
    } else {
      hide Holds, Ink;
      assert (a + b)[0] == a[0] && (a + b)[1..] == a[1..] + b;
      HoldsFirst(a);
      HoldsFirst(a + b);
      HoldsJoin(a[1..], b);
    }
  }

  lemma {:induction false} ShownHolds(e: seq<Cell>)
    ensures Holds(Shown(e)) <==> HasInk(e)
  {
    hide Ink;
    if HasInk(e) {
      var k :| 0 <= k < |e| && Ink(e[k]);
      assert Shown(e)[k] == Show(e[k]);
    }
    if Holds(Shown(e)) {
      var k :| 0 <= k < |e| && (Shown(e)[k].Inner? || (Shown(e)[k].Show? && Ink(Shown(e)[k].cell)));
      assert Ink(e[k]);
    }
  }

  lemma {:induction false} InkJoin(a: seq<Cell>, b: seq<Cell>)
    ensures HasInk(a + b) <==> HasInk(a) || HasInk(b)
  {
    if b == [] {
      assert a + b == a;
    } else {
      hide HasInk, Ink;
      var q, c := b[..|b|-1], b[|b|-1];
      assert b == q + [c];
      InkJoin(a, q);
      SeqAssoc(a, q, [c]);
      InkSnoc(a + q, c);
      InkSnoc(q, c);
    }
  }

  lemma {:induction false} NestedHolds(x: seq<Entry>)
    ensures Holds(Nested(x)) <==> x != []
  {
    if x != [] { assert Nested(x)[0] == Inner(x[0]); }
  }

  lemma {:induction false} TurnHolds(k: TextKind)
    ensures !Holds([Turn(k)])
  {}
}
