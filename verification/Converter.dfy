// The sanitizer's converter object as the source runs it (apps/rich-editor/src/sanitize.ts:127-354, 484-496): its
// fields change in place, step by step as `SanitizerModel` says, so what is proved there holds of this object.

module Converter {
  import opened Base
  import opened Chars
  import opened RichModel
  import opened SanitizerModel
  import Finish

  class Converter {
    const rules: Rules
    var root: Doc
    var stack: seq<Container>
    var cur: seq<Chunk>
    var curKind: TextKind
    var nextLink: nat

    constructor (rules: Rules)
      ensures Now() == START && this.rules == rules
    {
      this.rules := rules;
      root, stack, cur, curKind, nextLink := [], [AtRoot], [], P, 0;
    }

    function Now(): State
      reads this
    {
      State(root, stack, cur, curKind, nextLink)
    }

    method Top() returns (c: Container)
      ensures c == TopOf(Now())
    {
      c := if |stack| == 0 then AtRoot else stack[|stack|-1];
    }

    method QuotesOpen() returns (n: nat)
      ensures n == QuoteDepth(stack)
    {
      n := 0;
      for k := 0 to |stack|
        invariant n == QuoteDepth(stack[..k])
      {
        assert stack[..k+1][..k] == stack[..k];
        if stack[k].AtQuote? { n := n + 1; }
      }
      assert stack[..|stack|] == stack;
    }

    method ListsOpen() returns (n: nat)
      ensures n == ListDepth(stack)
    {
      n := 0;
      for k := 0 to |stack|
        invariant n == ListDepth(stack[..k])
      {
        assert stack[..k+1][..k] == stack[..k];
        if stack[k].AtList? && !stack[k].alias { n := n + 1; }
      }
      assert stack[..|stack|] == stack;
    }

    method Text(s: string, m: Marks, link: nat)
      modifies this`cur
      ensures Now() == PushText(old(Now()), s, m, link)
    {
      if s == "" { return; }
      var clean := StripForbidden(s);
      if clean == "" { return; }
      cur := cur + [Run(clean, m, link)];
    }

    /** What is pending is finished and deposited by the kind of the innermost container. */
    method FlushRun()
      modifies this
      ensures Now() == Flush(old(Now()))
    {
      hide Finish.Finished, SetList, ListAt;
      var chunks := Finish.Finish(cur);
      var kind := curKind;
      cur := [];
      curKind := P;
      if chunks.None? { return; }
      var top := Top();
      match top {
        case AtRoot =>
          root := root + [TextBlock(kind, chunks.value)];
        case AtQuote(b) =>
          if b < |root| && root[b].Quote? { root := root[b := Quote(root[b].paras + [chunks.value])]; }
        case AtList(path, _) =>
          var l := ListAt(root, path);
          root := SetList(root, path, l.(items := l.items + [Item(chunks.value, [])]));
        case AtItem(path, i) =>
          var l := ListAt(root, path);
          if i < |l.items| {
            var item := l.items[i];
            if |item.inl| > 0 {
              item := item.(inl := item.inl + [Br]);
            }
            item := item.(inl := item.inl + chunks.value);
            root := SetList(root, path, SetItem(l, i, item));
          }
      }
    }

    method OpenQuoteBlock() returns (pushed: bool)
      modifies this`root, this`stack
      ensures (Now(), pushed) == OpenQuote(old(Now()), rules)
    {
      var top := Top();
      if "blockquote" !in rules.tags || top != AtRoot { return false; }
      stack := stack + [AtQuote(|root|)];
      root := root + [Quote([])];
      return true;
    }

    method EnclosingList() returns (path: Option<ListPath>)
      ensures path == Enclosing(stack)
    {
      var i := |stack|;
      assert stack[..|stack|] == stack;
      while i > 0
        invariant 0 <= i <= |stack| && Enclosing(stack[..i]) == Enclosing(stack)
      {
        assert stack[..i][..i-1] == stack[..i-1];
        if stack[i-1].AtList? { return Some(stack[i-1].path); }
        i := i - 1;
      }
      assert stack[..0] == [];
      return None;
    }

    /** A new list below item `i` of the list at `path`. */
    method OpenSublist(path: ListPath, i: nat, ordered: bool)
      modifies this`root, this`stack
      ensures Now() == OpenBelow(old(Now()), path, i, ordered)
    {
      hide SetList, ListAt;
      var l := ListAt(root, path);
      if i < |l.items| {
        var it := l.items[i];
        root := SetList(root, path, SetItem(l, i, it.(subs := it.subs + [List(ordered, [])])));
        stack := stack + [AtList(Below(path, i, |it.subs|), false)];
      }
    }

    method OpenListBlock(ordered: bool) returns (pushed: bool)
      modifies this`root, this`stack
      ensures (Now(), pushed) == OpenList(old(Now()), ordered, rules)
    {
      hide QuoteDepth, ListDepth, Enclosing, OpenBelow;
      var quotes := QuotesOpen();
      if "ul" !in rules.tags || quotes > 0 { return false; }
      var top := Top();
      var depth := ListsOpen();
      match top {
        case AtRoot =>
          stack := stack + [AtList(InBlock(|root|), false)];
          root := root + [ListBlock(List(ordered, []))];
        case AtItem(path, i) =>
          if depth >= 2 {
            // A third level is not opened: the container aliases the list around the item.
            var p := EnclosingList();
            if p.Some? { stack := stack + [AtList(p.value, true)]; }
            return true;
          }
          OpenSublist(path, i, ordered);
        case AtList(path, _) =>
          // No item was opened: the last item of the list takes the sublist, or the list is aliased.
          var n := |ListAt(root, path).items|;
          if n > 0 && depth < 2 {
            OpenSublist(path, n - 1, ordered);
            return true;
          }
          stack := stack + [AtList(path, true)];
        case AtQuote(_) =>
          return false;
      }
      return true;
    }

    /** An item opens only directly in a list. */
    method OpenItemBlock() returns (pushed: bool)
      modifies this`root, this`stack
      ensures pushed == TopOf(old(Now())).AtList?
      ensures Now() == if pushed then OpenItem(old(Now())) else old(Now())
    {
      hide SetList, ListAt;
      var top := Top();
      if top.AtList? {
        var l := ListAt(root, top.path);
        root := SetList(root, top.path, l.(items := l.items + [Item([], [])]));
        stack := stack + [AtItem(top.path, |l.items|)];
      }
      return top.AtList?;
    }

    /** The closure `children`: walks the child nodes in turn. */
    method Children(kids: seq<Dom>, m: Marks, link: nat, depth: nat) returns (ok: bool)
      modifies this
      ensures ok == WalkAll(kids, m, link, depth, old(Now()), rules).Some?
      ensures ok ==> Some(Now()) == WalkAll(kids, m, link, depth, old(Now()), rules)
      decreases kids, 0
    {
      hide Walk;
      assert kids[0..] == kids;
      for k := 0 to |kids|
        invariant WalkAll(kids[k..], m, link, depth, Now(), rules) == WalkAll(kids, m, link, depth, old(Now()), rules)
      {
        assert kids[k..][1..] == kids[k+1..];
        var more := WalkNode(kids[k], m, link, depth);
        if !more { return false; }
      }
      return true;
    }

    /** Walks one node; false when the markup is nested too deeply, which the source throws. */
    method WalkNode(n: Dom, m: Marks, link: nat, depth: nat) returns (ok: bool)
      modifies this
      ensures ok == Walk(n, m, link, depth, old(Now()), rules).Some?
      ensures ok ==> Some(Now()) == Walk(n, m, link, depth, old(Now()), rules)
      decreases n, 1
    {
      if depth > MAX_DEPTH { return false; }
      match n {
        case TextNode(data) =>
          Text(data, m, link);
          return true;
        case OtherNode =>
          return true;
        case Element(tag, href, kids) =>
          if tag in DROP_TAGS { return true; }
          if tag == "br" {
            cur := cur + [Br];
            return true;
          }
          hide Flush, OpenQuote, OpenList, OpenItem, WalkAll;
          ok := WalkElement(tag, href, kids, m, link, depth);
      }
    }

    /** The cases of `walk` for an element with children. */
    method WalkElement(tag: string, href: Option<string>, kids: seq<Dom>, m: Marks, link: nat, depth: nat) returns (ok: bool)
      modifies this
      ensures var p := Enter(tag, href, m, link, old(Now()), rules);
              var w := WalkAll(kids, p.m, p.link, depth + 1, p.st, rules);
              ok == w.Some? && (ok ==> Now() == Leave(p, w.value))
      decreases kids, 2
    {
      hide Flush, OpenQuote, OpenList, OpenItem, WalkAll, IsHeading, HeadingKind, BOUNDARY_TAGS;
      if tag == "b" || tag == "strong" {
        ok := Children(kids, if "strong" in rules.tags then m.(strong := true) else m, link, depth + 1);
      } else if tag == "i" || tag == "em" {
        ok := Children(kids, if "em" in rules.tags then m.(em := true) else m, link, depth + 1);
      } else if tag == "u" {
        ok := Children(kids, if "u" in rules.tags then m.(u := true) else m, link, depth + 1);
      } else if tag == "a" {
        var mm, id := m, link;
        if "a" in rules.tags && m.href == "" && href.Some? {
          var target := rules.clean(href.value);
          if target.Some? {
            nextLink := nextLink + 1;
            mm, id := m.(href := target.value), nextLink;
          }
        }
        ok := Children(kids, mm, id, depth + 1);
      } else if IsHeading(tag) {
        FlushRun();
        var mm := m;
        var top := Top();
        if "h3" in rules.tags && top == AtRoot {
          curKind := HeadingKind(tag);
        } else if "strong" in rules.tags {
          mm := m.(strong := true);
        }
        ok := WalkBlock(kids, mm, link, depth, false);
      } else if tag == "blockquote" {
        FlushRun();
        var pushed := OpenQuoteBlock();
        ok := WalkBlock(kids, m, link, depth, pushed);
      } else if tag == "ul" || tag == "ol" {
        FlushRun();
        var pushed := OpenListBlock(tag == "ol");
        ok := WalkBlock(kids, m, link, depth, pushed);
      } else if tag == "li" {
        FlushRun();
        var pushed := OpenItemBlock();
        ok := WalkBlock(kids, m, link, depth, pushed);
      } else if tag in BOUNDARY_TAGS {
        FlushRun();
        ok := WalkBlock(kids, m, link, depth, false);
      } else {
        ok := Children(kids, m, link, depth + 1);
      }
    }

    /** The children of a block, then the flush and the pop of its container. */
    method WalkBlock(kids: seq<Dom>, m: Marks, link: nat, depth: nat, pushed: bool) returns (ok: bool)
      modifies this
      ensures var w := WalkAll(kids, m, link, depth + 1, old(Now()), rules);
              ok == w.Some? && (ok ==> Now() == Leave(Plan(old(Now()), m, link, true, pushed), w.value))
      decreases kids, 1
    {
      hide Flush, WalkAll;
      ok := Children(kids, m, link, depth + 1);
      if ok {
        FlushRun();
        if pushed && |stack| > 0 { stack := stack[..|stack|-1]; }
      }
    }
  }

  /** `parseHtml` on the nodes of the inert fragment; None when the markup is nested too deeply. */
  method ParseNodes(nodes: seq<Dom>, rules: Rules) returns (d: Option<Doc>)
    ensures d == Sanitized(nodes, rules)
  {
    hide WalkAll, Flush;
    var c := new Converter(rules);
    var ok := c.Children(nodes, NO_MARKS, 0, 0);
    if !ok { return None; }
    c.FlushRun();
    return Some(c.root);
  }
}
