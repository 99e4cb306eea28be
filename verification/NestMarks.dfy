// The tree of a line, read with a stack of marks (apps/rich-editor/src/model.ts:148-193): for every chunk list, each text stands
// under exactly the marks of its chunk, and no element is empty.

module NestMarks {
  import opened Base
  import opened RichModel
  import opened Markup
  import opened Printer

  /** A break or a text of a tree, with the elements it stands in, outermost first. */
  datatype Leaf = BreakLeaf(under: seq<Above>) | TextLeaf(text: string, under: seq<Above>)

  function Leaves(f: seq<Node>, under: seq<Above>): seq<Leaf>
    decreases f, 0
  {
    if f == [] then [] else NodeLeaves(f[0], under) + Leaves(f[1..], under)
  }

  function NodeLeaves(n: Node, under: seq<Above>): seq<Leaf>
    decreases n, 1
  {
    match n
    case Text(t) => [TextLeaf(t, under)]
    case Elem(tag, href, kids) => if tag == "br" then [BreakLeaf(under)] else Leaves(kids, under + [Above(tag, href)])
  }

  /** The elements of a run of marks. */
  function Elements(marks: seq<Mark>): seq<Above> {
    seq(|marks|, i requires 0 <= i < |marks| => Above(TagOf(marks[i].kind), HrefOf(marks[i])))
  }

  /** What a chunk list must read as: each text under its own marks, each break under none. */
  function ChunkLeaves(cs: seq<Chunk>): seq<Leaf> {
    if cs == [] then []
    else
      (match cs[0] case Br => [BreakLeaf([])] case Run(t, m, _) => [TextLeaf(t, Elements(MarksOf(m)))]) + ChunkLeaves(cs[1..])
  }

  lemma {:induction false} LeavesConcat(f: seq<Node>, g: seq<Node>, under: seq<Above>)
    ensures Leaves(f + g, under) == Leaves(f, under) + Leaves(g, under)
    decreases |f|
  {
    hide NodeLeaves;
    if f == [] {
      assert f + g == g;
    } else {
      LeavesConcat(f[1..], g, under);
      SeqAssoc(NodeLeaves(f[0], under), Leaves(f[1..], under), Leaves(g, under));
      assert (f + g)[1..] == f[1..] + g;
    }
  }

  lemma {:induction false} ChunkLeavesConcat(a: seq<Chunk>, b: seq<Chunk>)
    ensures ChunkLeaves(a + b) == ChunkLeaves(a) + ChunkLeaves(b)
  {
    hide Elements, MarksOf;
    if a == [] {
      assert a + b == b;
    } else {
      ChunkLeavesConcat(a[1..], b);
      SeqAssoc((match a[0] case Br => [BreakLeaf([])] case Run(t, m, _) => [TextLeaf(t, Elements(MarksOf(m)))]), ChunkLeaves(a[1..]), ChunkLeaves(b));
      assert (a + b)[1..] == a[1..] + b;
    }
  }

  lemma {:induction false} OneLeaf(n: Node, under: seq<Above>)
    ensures Leaves([n], under) == NodeLeaves(n, under)
  {
    hide NodeLeaves;
    assert [n][1..] == [];
    assert NodeLeaves(n, under) + [] == NodeLeaves(n, under);
  }

  lemma {:induction false} WrapLeaves(x: seq<Mark>, f: seq<Node>, pre: seq<Mark>)
    requires |x| <= 1
    ensures Leaves(Wrap(x, f), Elements(pre)) == Leaves(f, Elements(pre + x))
  {
    if x == [] {
      assert pre + x == pre;
    } else {
      var n := Elem(TagOf(x[0].kind), HrefOf(x[0]), f);
      OneLeaf(n, Elements(pre));
      assert Elements(pre) + [Above(n.tag, n.href)] == Elements(pre + x);
    }
  }

  lemma {:induction false} FirstLeaf(cs: seq<Chunk>, k: nat, pre: seq<Mark>)
    requires k <= 4 && cs != [] && (if cs[0].Br? then pre == [] else k == 4 && Below(cs[0].marks, k) == pre)
    requires Leaves(Nest(cs[1..], k), Elements(pre)) == ChunkLeaves(cs[1..])
    ensures Leaves(Nest(cs, k), Elements(pre)) == ChunkLeaves(cs)
  {
    hide Below, Nest;
    var n := if cs[0].Br? then Elem("br", None, []) else Text(cs[0].text);
    FirstNode(cs, k);
    OneLeaf(n, Elements(pre));
    LeavesConcat([n], Nest(cs[1..], k), Elements(pre));
    if cs[0].Run? { assert MarksOf(cs[0].marks) == pre; }
    assert Elements([]) == [];
  }

  lemma {:induction false} FirstNode(cs: seq<Chunk>, k: nat)
    requires k <= 4 && cs != [] && (cs[0].Br? || k == 4)
    ensures Nest(cs, k) == [if cs[0].Br? then Elem("br", None, []) else Text(cs[0].text)] + Nest(cs[1..], k)
  {}

  lemma {:induction false} NestLeaves(cs: seq<Chunk>, k: nat, pre: seq<Mark>)
    requires k <= 4 && Uniform(cs, k, pre)
    ensures Leaves(Nest(cs, k), Elements(pre)) == ChunkLeaves(cs)
    decreases 4 - k, |cs|
  {
    hide AtLevel, Nest, Wrap, Leaves, ChunkLeaves, Elements, Uniform, Below;
    if cs == [] {
      NoLeaves(k, pre);
    } else if cs[0].Br? || k == 4 {
      UniformTail(cs, k, pre);
      NestLeaves(cs[1..], k, pre);
      FirstLeaf(cs, k, pre);
    } else {
      var n := RunLen(cs, k);
      var x := AtLevel(cs[0].marks, k);
      RunUniform(cs, k, pre);
      NestLeaves(cs[..n], k + 1, pre + x);
      NestLeaves(cs[n..], k, pre);
      NestRun(cs, k);
      OneMark(cs[0].marks, k);
      WrapLeaves(x, Nest(cs[..n], k + 1), pre);
      LeavesConcat(Wrap(x, Nest(cs[..n], k + 1)), Nest(cs[n..], k), Elements(pre));
      ChunkLeavesConcat(cs[..n], cs[n..]);
      assert cs == cs[..n] + cs[n..];
    }
  }

  lemma {:induction false} NoLeaves(k: nat, pre: seq<Mark>)
    requires k <= 4
    ensures Leaves(Nest([], k), Elements(pre)) == ChunkLeaves([])
  {}

  lemma {:induction false} OneMark(m: Marks, k: nat)
    requires k < 4
    ensures |AtLevel(m, k)| <= 1
  {}

  lemma {:induction false} AnyLine(cs: seq<Chunk>)
    ensures Uniform(cs, 0, [])
  {}

  /** On every chunk list: the texts of the printed tree are those of the chunks, each under exactly its marks in their order. */
  lemma {:induction false} TextsUnderMarks(cs: seq<Chunk>)
    ensures Leaves(Nest(cs, 0), []) == ChunkLeaves(cs)
  {
    hide Nest, Leaves, ChunkLeaves, Uniform;
    AnyLine(cs);
    assert Elements([]) == [];
    NestLeaves(cs, 0, []);
  }

  // ---- no empty element ----

  predicate Full(n: Node)
    decreases n, 1
  {
    match n
    case Text(t) => t != ""
    case Elem(tag, _, kids) => tag == "br" || (kids != [] && AllFull(kids))
  }

  predicate AllFull(f: seq<Node>)
    decreases f, 0
  {
    f == [] || (Full(f[0]) && AllFull(f[1..]))
  }

  lemma {:induction false} FullConcat(f: seq<Node>, g: seq<Node>)
    requires AllFull(f) && AllFull(g)
    ensures AllFull(f + g)
    decreases |f|
  {
    hide Full;
    if f == [] {
      assert f + g == g;
    } else {
      FullConcat(f[1..], g);
      assert (f + g)[1..] == f[1..] + g;
    }
  }

  lemma {:induction false} OneFull(n: Node)
    requires Full(n)
    ensures AllFull([n])
  {
    hide Full;
    assert [n][1..] == [];
  }

  lemma {:induction false} WrapFull(x: seq<Mark>, f: seq<Node>)
    requires |x| <= 1 && f != [] && AllFull(f)
    ensures AllFull(Wrap(x, f)) && Wrap(x, f) != []
  {
    if x != [] { OneFull(Elem(TagOf(x[0].kind), HrefOf(x[0]), f)); }
  }

  predicate TextsFull(cs: seq<Chunk>) { forall i :: 0 <= i < |cs| && cs[i].Run? ==> cs[i].text != "" }

  /** When no chunk text is empty, no element and no text of the tree is. */
  lemma {:induction false} NothingEmpty(cs: seq<Chunk>, k: nat)
    requires k <= 4 && TextsFull(cs)
    ensures AllFull(Nest(cs, k)) && (Nest(cs, k) == [] <==> cs == [])
    decreases 4 - k, |cs|
  {
    hide AtLevel, Nest, Wrap, AllFull;
    if cs == [] {
      NoneEmpty(k);
    } else if cs[0].Br? || k == 4 {
      NothingEmpty(cs[1..], k);
      FirstNode(cs, k);
      var n := if cs[0].Br? then Elem("br", None, []) else Text(cs[0].text);
      OneFull(n);
      FullConcat([n], Nest(cs[1..], k));
    } else {
      var n := RunLen(cs, k);
      var x := AtLevel(cs[0].marks, k);
      NothingEmpty(cs[..n], k + 1);
      NothingEmpty(cs[n..], k);
      NestRun(cs, k);
      OneMark(cs[0].marks, k);
      WrapFull(x, Nest(cs[..n], k + 1));
      FullConcat(Wrap(x, Nest(cs[..n], k + 1)), Nest(cs[n..], k));
    }
  }

  lemma {:induction false} NoneEmpty(k: nat)
    requires k <= 4
    ensures AllFull(Nest([], k)) && Nest([], k) == []
  {}
}
