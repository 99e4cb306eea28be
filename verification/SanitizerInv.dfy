// The invariant of the walk (apps/rich-editor/src/sanitize.ts:127-354): the container stack is left as it was
// found and names objects of the document, lists nest at most two deep although flattened lists are shared,
// headings and quotes stand only at the root, and every line is good.

module SanitizerInv {
  import opened Base
  import opened Chars
  import opened RichModel
  import opened Finish
  import opened FinishSpec
  import opened LinkLines
  import opened SanitizerModel
  import opened SanitizerLines

  // ---- the document ----

  /** A list nested at most `k` deep whose lines are good. */
  ghost predicate ListInv(l: List, k: nat, r: Rules)
    decreases k, 0
  {
    k > 0 && forall i :: 0 <= i < |l.items| ==> ItemInv(l.items[i], k - 1, r)
  }

  /** An item whose sublists nest at most `k` deep: none when `k` is 0. */
  ghost predicate ItemInv(it: Item, k: nat, r: Rules)
    decreases k, 1
  {
    LineInv(it.inl, r) && forall j :: 0 <= j < |it.subs| ==> ListInv(it.subs[j], k, r)
  }

  ghost predicate BlockInv(b: Block, r: Rules) {
    match b
    case TextBlock(kind, inl) => inl != [] && LineInv(inl, r) && (kind != P ==> "h3" in r.tags)
    case Quote(paras) => "blockquote" in r.tags && forall i :: 0 <= i < |paras| ==> paras[i] != [] && LineInv(paras[i], r)
    case ListBlock(l) => "ul" in r.tags && ListInv(l, 2, r)
  }

  ghost predicate DocInv(root: Doc, r: Rules) {
    forall i :: 0 <= i < |root| ==> BlockInv(root[i], r)
  }

  function Depth(path: ListPath): nat {
    match path case InBlock(_) => 1 case Below(p, _, _) => Depth(p) + 1
  }

  lemma {:induction false} ListOfDoc(root: Doc, path: ListPath, r: Rules)
    requires DocInv(root, r) && HasList(root, path)
    ensures Depth(path) <= 2 && ListInv(ListAt(root, path), 3 - Depth(path), r)
  {
    hide LineInv;
    match path
    case InBlock(b) => assert BlockInv(root[b], r);
    case Below(p, i, s) =>
      ListOfDoc(root, p, r);
      var l := ListAt(root, p);
      assert ItemInv(l.items[i], 3 - Depth(p) - 1, r);
      assert ListInv(l.items[i].subs[s], 3 - Depth(p) - 1, r);
  }

  /** Replacing a list object by a good list of the same depth keeps the document good. */
  lemma {:induction false} SetListInv(root: Doc, path: ListPath, l: List, r: Rules)
    requires DocInv(root, r) && HasList(root, path) && Depth(path) <= 2 && ListInv(l, 3 - Depth(path), r)
    ensures DocInv(SetList(root, path, l), r)
  {
    hide LineInv;
    match path
    case InBlock(b) =>
      assert BlockInv(root[b], r);
      forall i | 0 <= i < |root| ensures BlockInv(SetList(root, path, l)[i], r) { assert BlockInv(root[i], r); }
    case Below(p, i, s) =>
      ListOfDoc(root, p, r);
      var o := ListAt(root, p);
      var it := SetSub(o.items[i], s, l);
      assert ItemInv(o.items[i], 1, r);
      forall j | 0 <= j < |it.subs| ensures ListInv(it.subs[j], 1, r) { assert j != s ==> ListInv(o.items[i].subs[j], 1, r); }
      SetItemInv(o, i, it, 2, r);
      SetListInv(root, p, SetItem(o, i, it), r);
  }

  lemma {:induction false} SetItemInv(l: List, i: nat, it: Item, k: nat, r: Rules)
    requires ListInv(l, k, r) && k > 0 && ItemInv(it, k - 1, r)
    ensures ListInv(SetItem(l, i, it), k, r)
  {
    hide ItemInv;
  }

  lemma {:induction false} AddItemInv(l: List, it: Item, k: nat, r: Rules)
    requires ListInv(l, k, r) && k > 0 && ItemInv(it, k - 1, r)
    ensures ListInv(l.(items := l.items + [it]), k, r)
  {
    hide ItemInv;
  }

  lemma {:induction false} AddBlockInv(root: Doc, b: Block, r: Rules)
    requires DocInv(root, r) && BlockInv(b, r)
    ensures DocInv(root + [b], r)
  {
    hide BlockInv;
  }

  lemma {:induction false} PlainItemInv(inl: seq<Chunk>, k: nat, r: Rules)
    requires LineInv(inl, r)
    ensures ItemInv(Item(inl, []), k, r)
  {}

  // ---- growth: objects stay where they are ----

  predicate ListGrows(l: List, l': List)
    decreases l
  {
    |l.items| <= |l'.items| && forall i :: 0 <= i < |l.items| ==> ItemGrows(l.items[i], l'.items[i])
  }

  predicate ItemGrows(it: Item, it': Item)
    decreases it
  {
    |it.subs| <= |it'.subs| && forall j :: 0 <= j < |it.subs| ==> ListGrows(it.subs[j], it'.subs[j])
  }

  predicate BlockGrows(b: Block, b': Block) {
    match b
    case TextBlock(_, _) => true
    case Quote(_) => b'.Quote?
    case ListBlock(l) => b'.ListBlock? && ListGrows(l, b'.list)
  }

  predicate DocGrows(root: Doc, root': Doc) {
    |root| <= |root'| && forall b :: 0 <= b < |root| ==> BlockGrows(root[b], root'[b])
  }

  lemma {:induction false} ListGrowsSelf(l: List)
    ensures ListGrows(l, l)
    decreases l
  {
    forall i | 0 <= i < |l.items| ensures ItemGrows(l.items[i], l.items[i]) { ItemGrowsSelf(l.items[i]); }
  }

  lemma {:induction false} ItemGrowsSelf(it: Item)
    ensures ItemGrows(it, it)
    decreases it
  {
    forall j | 0 <= j < |it.subs| ensures ListGrows(it.subs[j], it.subs[j]) { ListGrowsSelf(it.subs[j]); }
  }

  lemma {:induction false} BlockGrowsSelf(b: Block)
    ensures BlockGrows(b, b)
  {
    if b.ListBlock? { ListGrowsSelf(b.list); }
  }

  lemma {:induction false} ListGrowsOn(a: List, b: List, c: List)
    requires ListGrows(a, b) && ListGrows(b, c)
    ensures ListGrows(a, c)
    decreases a
  {
    forall i | 0 <= i < |a.items| ensures ItemGrows(a.items[i], c.items[i]) {
      assert ItemGrows(a.items[i], b.items[i]) && ItemGrows(b.items[i], c.items[i]);
      ItemGrowsOn(a.items[i], b.items[i], c.items[i]);
    }
  }

  lemma {:induction false} ItemGrowsOn(a: Item, b: Item, c: Item)
    requires ItemGrows(a, b) && ItemGrows(b, c)
    ensures ItemGrows(a, c)
    decreases a
  {
    forall j | 0 <= j < |a.subs| ensures ListGrows(a.subs[j], c.subs[j]) {
      assert ListGrows(a.subs[j], b.subs[j]) && ListGrows(b.subs[j], c.subs[j]);
      ListGrowsOn(a.subs[j], b.subs[j], c.subs[j]);
    }
  }

  lemma {:induction false} DocGrowsOn(a: Doc, b: Doc, c: Doc)
    requires DocGrows(a, b) && DocGrows(b, c)
    ensures DocGrows(a, c)
  {
    forall i | 0 <= i < |a| ensures BlockGrows(a[i], c[i]) {
      assert BlockGrows(a[i], b[i]) && BlockGrows(b[i], c[i]);
      if a[i].ListBlock? { ListGrowsOn(a[i].list, b[i].list, c[i].list); }
    }
  }

  lemma {:induction false} DocGrowsSelf(root: Doc)
    ensures DocGrows(root, root)
  {
    forall i | 0 <= i < |root| ensures BlockGrows(root[i], root[i]) { BlockGrowsSelf(root[i]); }
  }

  /** A path stays a path, and its list only grows. */
  lemma {:induction false} PathGrows(root: Doc, root': Doc, path: ListPath)
    requires DocGrows(root, root') && HasList(root, path)
    ensures HasList(root', path) && ListGrows(ListAt(root, path), ListAt(root', path))
  {
    match path
    case InBlock(b) => assert BlockGrows(root[b], root'[b]);
    case Below(p, i, s) =>
      PathGrows(root, root', p);
      assert ItemGrows(ListAt(root, p).items[i], ListAt(root', p).items[i]);
      assert ListGrows(ListAt(root, p).items[i].subs[s], ListAt(root', p).items[i].subs[s]);
  }

  lemma {:induction false} SetItemGrows(l: List, i: nat, it: Item)
    requires i < |l.items| && ItemGrows(l.items[i], it)
    ensures ListGrows(l, SetItem(l, i, it))
  {
    forall j | 0 <= j < |l.items| ensures ItemGrows(l.items[j], SetItem(l, i, it).items[j]) { ItemGrowsSelf(l.items[j]); }
  }

  lemma {:induction false} SetListGrows(root: Doc, path: ListPath, l: List)
    requires HasList(root, path) && ListGrows(ListAt(root, path), l)
    ensures DocGrows(root, SetList(root, path, l))
  {
    match path
    case InBlock(b) =>
      forall i | 0 <= i < |root| ensures BlockGrows(root[i], SetList(root, path, l)[i]) { BlockGrowsSelf(root[i]); }
    case Below(p, i, s) =>
      var o := ListAt(root, p);
      var it := SetSub(o.items[i], s, l);
      forall j | 0 <= j < |o.items[i].subs| ensures ListGrows(o.items[i].subs[j], it.subs[j]) {
        ListGrowsSelf(o.items[i].subs[j]);
      }
      SetItemGrows(o, i, it);
      SetListGrows(root, p, SetItem(o, i, it));
  }

  /** What is stored at a path is read back. */
  lemma {:induction false} SetThenAt(root: Doc, path: ListPath, l: List)
    requires HasList(root, path)
    ensures HasList(SetList(root, path, l), path) && ListAt(SetList(root, path, l), path) == l
  {
    match path
    case InBlock(b) =>
    case Below(p, i, s) =>
      var o := ListAt(root, p);
      SetThenAt(root, p, SetItem(o, i, SetSub(o.items[i], s, l)));
  }

  lemma {:induction false} AddItemGrows(l: List, it: Item)
    ensures ListGrows(l, l.(items := l.items + [it]))
  {
    forall i | 0 <= i < |l.items| ensures ItemGrows(l.items[i], (l.items + [it])[i]) { ItemGrowsSelf(l.items[i]); }
  }

  lemma {:induction false} AddBlockGrows(root: Doc, b: Block)
    ensures DocGrows(root, root + [b])
  {
    forall i | 0 <= i < |root| ensures BlockGrows(root[i], (root + [b])[i]) { BlockGrowsSelf(root[i]); }
  }

  // ---- the stack ----

  /** The containers name objects of the document; a list is as deep as the lists that are not flattened. */
  predicate StackOk(stack: seq<Container>, root: Doc)
    decreases |stack|
  {
    && stack != []
    && (if |stack| == 1 then stack[0] == AtRoot
        else
          var lower, top := stack[..|stack|-1], stack[|stack|-1];
          && StackOk(lower, root)
          && ContainerOk(lower, top, root))
  }

  predicate ContainerOk(lower: seq<Container>, c: Container, root: Doc)
    requires lower != []
  {
    var below := lower[|lower|-1];
    match c
    case AtRoot => false
    case AtQuote(b) => |lower| == 1 && b < |root| && root[b].Quote?
    case AtList(path, alias) =>
      && HasList(root, path) && !below.AtQuote?
      && Depth(path) == ListDepth(lower) + (if alias then 0 else 1)
      && (alias ==> !below.AtRoot?)
    case AtItem(path, i) =>
      below.AtList? && below.path == path && HasList(root, path) && i < |ListAt(root, path).items|
  }

  lemma {:induction false} StackGrows(stack: seq<Container>, root: Doc, root': Doc)
    requires StackOk(stack, root) && DocGrows(root, root')
    ensures StackOk(stack, root')
    decreases |stack|
  {
    hide ListDepth, Depth;
    if |stack| > 1 {
      var lower, top := stack[..|stack|-1], stack[|stack|-1];
      StackGrows(lower, root, root');
      match top
      case AtRoot =>
      case AtQuote(b) => assert BlockGrows(root[b], root'[b]);
      case AtList(path, _) => PathGrows(root, root', path);
      case AtItem(path, _) => PathGrows(root, root', path);
    }
  }

  lemma {:induction false} StackSnoc(stack: seq<Container>, c: Container, root: Doc)
    requires StackOk(stack, root) && ContainerOk(stack, c, root)
    ensures StackOk(stack + [c], root)
    ensures ListDepth(stack + [c]) == ListDepth(stack) + (if c.AtList? && !c.alias then 1 else 0)
  {
    assert (stack + [c])[..|stack|] == stack;
  }

  /** The innermost list container of a stack. */
  lemma {:induction false} TopDepth(stack: seq<Container>, root: Doc)
    requires StackOk(stack, root)
    ensures var top := stack[|stack|-1];
            && (top.AtRoot? ==> |stack| == 1 && ListDepth(stack) == 0 && QuoteDepth(stack) == 0)
            && (top.AtList? ==> HasList(root, top.path) && Depth(top.path) == ListDepth(stack))
            && (top.AtItem? ==> (
                  && HasList(root, top.path) && Depth(top.path) == ListDepth(stack)
                  && top.item < |ListAt(root, top.path).items| && Enclosing(stack) == Some(top.path)))
  {
    hide Depth;
    if |stack| > 1 {
      var lower := stack[..|stack|-1];
      var top := stack[|stack|-1];
      assert StackOk(lower, root);
      if top.AtItem? && |lower| > 1 {
        assert ContainerOk(lower[..|lower|-1], lower[|lower|-1], root);
      }
    } else {
      assert stack[..0] == [];
    }
  }

  /** No quote is open inside a list. */
  lemma {:induction false} ListsNoQuote(stack: seq<Container>, root: Doc)
    requires StackOk(stack, root) && !stack[|stack|-1].AtQuote?
    ensures QuoteDepth(stack) == 0
    decreases |stack|
  {
    hide Depth, ListDepth;
    if |stack| > 1 {
      var lower := stack[..|stack|-1];
      ListsNoQuote(lower, root);
    } else {
      assert stack[..0] == [];
    }
  }
}
