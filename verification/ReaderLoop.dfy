// `readTag` and `parse` as the source runs them (apps/admin-web/src/lib/richtext.ts:102-220): an index that
// advances, element objects whose child lists grow in place, and a stack of references to the open ones.

module ReaderLoop {
  import opened Base
  import opened Markup
  import opened Reader

  method ReadTag(src: string, at: nat) returns (r: Option<Tag>)
    requires at < |src|
    ensures r == TagAt(src, at)
  {
    hide AttrsAt, ValueAt, DecodeEntities;
    var i := at + 1;
    var closing := false;
    if i < |src| && src[i] == '/' {
      closing := true;
      i := i + 1;
    }
    if i >= |src| || !IsLetter(src[i]) { return None; }
    var nameStart := i;
    while i < |src| && IsNameChar(src[i])
      invariant nameStart <= i <= |src| && Skip(src, i, IsNameChar) == Skip(src, nameStart, IsNameChar)
    {
      i := i + 1;
    }
    var a := ReadAttrs(src, i);
    match a {
      case None => return None;
      case Some(p) => return Some(Tag(Lower(src[nameStart..i]), closing, p.0, p.1));
    }
  }

  /** The attribute loop of `readTag`. */
  method ReadAttrs(src: string, i0: nat) returns (r: Option<(map<string, string>, nat)>)
    requires i0 <= |src|
    ensures r == AttrsAt(src, i0, map[])
  {
    hide DecodeEntities, Lower;
    var i := i0;
    var attrs: map<string, string> := map[];
    while true
      invariant i <= |src| && AttrsAt(src, i, attrs) == AttrsAt(src, i0, map[])
      decreases |src| - i
    {
      ghost var start := i;
      while i < |src| && IsSpaceOrSlash(src[i])
        invariant start <= i <= |src| && Skip(src, i, IsSpaceOrSlash) == Skip(src, start, IsSpaceOrSlash)
      {
        i := i + 1;
      }
      if i >= |src| { return None; }
      if src[i] == '>' { return Some((attrs, i + 1)); }
      var aStart := i;
      while i < |src| && IsAttrChar(src[i])
        invariant aStart <= i <= |src| && Skip(src, i, IsAttrChar) == Skip(src, aStart, IsAttrChar)
      {
        i := i + 1;
      }
      var attr := Lower(src[aStart..i]);
      var v := ReadValue(src, i);
      match v {
        case Unterminated => return None;
        case Value(value, next) =>
          i := next;
          if attr != "" && attr !in attrs { attrs := attrs[attr := DecodeEntities(value)]; }
      }
    }
  }

  method ReadValue(src: string, i0: nat) returns (r: Value)
    requires i0 <= |src|
    ensures r == ValueAt(src, i0)
  {
    hide Find, IsSpace, IsBareValueChar;
    var i := i0;
    while i < |src| && IsSpace(src[i])
      invariant i0 <= i <= |src| && Skip(src, i, IsSpace) == Skip(src, i0, IsSpace)
    {
      i := i + 1;
    }
    if i >= |src| || src[i] != '=' { return Value("", i); }
    i := i + 1;
    ghost var start := i;
    while i < |src| && IsSpace(src[i])
      invariant start <= i <= |src| && Skip(src, i, IsSpace) == Skip(src, start, IsSpace)
    {
      i := i + 1;
    }
    if i < |src| && (src[i] == '"' || src[i] == '\'') {
      var close := Find(src, src[i], i + 1);
      if close == |src| { return Unterminated; }
      return Value(src[i+1..close], close + 1);
    }
    var vStart := i;
    while i < |src| && IsBareValueChar(src[i])
      invariant vStart <= i <= |src| && Skip(src, i, IsBareValueChar) == Skip(src, vStart, IsBareValueChar)
    {
      i := i + 1;
    }
    return Value(src[vStart..i], i);
  }

  // ---- the element objects ----

  datatype ArtChild = TextChild(text: string) | ElementChild(e: ArtElement)

  class ArtElement {
    const tag: string
    const href: Option<string>
    var children: seq<ArtChild>

    constructor (tag: string, href: Option<string>)
      ensures this.tag == tag && this.href == href && children == []
    {
      this.tag, this.href, children := tag, href, [];
    }
  }

  /** The children are the forest `f`, given the trees of the finished elements. */
  ghost predicate Denotes(children: seq<ArtChild>, f: seq<Node>, done: map<ArtElement, Node>) {
    |children| == |f| && forall i :: 0 <= i < |f| ==> ChildIs(children[i], f[i], done)
  }

  ghost predicate ChildIs(c: ArtChild, n: Node, done: map<ArtElement, Node>) {
    match c
    case TextChild(t) => n == Text(t)
    case ElementChild(e) => e in done && done[e] == n
  }

  /** An element whose last child `next` is still open: the others are its finished children. */
  ghost predicate Waits(e: ArtElement, next: ArtElement, kids: seq<Node>, done: map<ArtElement, Node>)
    reads e
  {
    var c := e.children;
    c != [] && c[|c|-1] == ElementChild(next) && Denotes(c[..|c|-1], kids, done)
  }

  /** The open elements against their values: all but the innermost wait for the next one. */
  ghost predicate OnStack(stack: seq<ArtElement>, st: Stack, done: map<ArtElement, Node>)
    reads stack
  {
    && |stack| == |st|
    && (forall k :: 0 <= k < |stack| ==> stack[k] !in done && stack[k].tag == st[k].tag && stack[k].href == st[k].href)
    && (forall j, k :: 0 <= j < k < |stack| ==> stack[j] != stack[k])
    && (forall k :: 0 <= k < |stack| - 1 ==> Waits(stack[k], stack[k+1], st[k].kids, done))
    && Denotes(stack[|stack|-1].children, st[|st|-1].kids, done)
  }

  /** Every finished element object is the tree recorded for it. */
  ghost predicate Finished(done: map<ArtElement, Node>)
    reads done.Keys
  {
    forall e :: e in done ==>
      done[e].Elem? && e.tag == done[e].tag && e.href == done[e].href && Denotes(e.children, done[e].kids, done)
  }

  lemma {:induction false} DenotesMore(c: seq<ArtChild>, f: seq<Node>, done: map<ArtElement, Node>, e: ArtElement, n: Node)
    requires Denotes(c, f, done) && e !in done
    ensures Denotes(c, f, done[e := n])
  {
    forall i | 0 <= i < |f| ensures ChildIs(c[i], f[i], done[e := n]) {
      assert ChildIs(c[i], f[i], done);
    }
  }

  lemma {:induction false} FinishedMore(done: map<ArtElement, Node>, e: ArtElement, kids: seq<Node>)
    requires Finished(done) && e !in done && Denotes(e.children, kids, done)
    ensures Finished(done[e := Elem(e.tag, e.href, kids)])
  {
    hide Denotes;
    var more := done[e := Elem(e.tag, e.href, kids)];
    forall x | x in more
      ensures more[x].Elem? && x.tag == more[x].tag && x.href == more[x].href && Denotes(x.children, more[x].kids, more)
    {
      if x == e {
        DenotesMore(e.children, kids, done, e, more[e]);
      } else {
        DenotesMore(x.children, done[x].kids, done, e, more[e]);
      }
    }
  }

  lemma {:induction false} DenotesSnoc(c: seq<ArtChild>, f: seq<Node>, x: ArtChild, n: Node, done: map<ArtElement, Node>)
    requires Denotes(c, f, done) && ChildIs(x, n, done)
    ensures Denotes(c + [x], f + [n], done)
  {
    forall i | 0 <= i < |f| + 1 ensures ChildIs((c + [x])[i], (f + [n])[i], done) {
      if i < |f| { assert ChildIs(c[i], f[i], done); }
    }
  }

  lemma {:induction false} DenotesLast(c: seq<ArtChild>, f: seq<Node>, done: map<ArtElement, Node>)
    requires Denotes(c, f, done) && c != []
    ensures Denotes(c[..|c|-1], f[..|f|-1], done) && ChildIs(c[|c|-1], f[|f|-1], done)
  {
    forall i | 0 <= i < |f| - 1 ensures ChildIs(c[i], f[i], done) {}
  }

  /** What `addText` does to the children of the open element. */
  lemma {:induction false} TextDenotes(c: seq<ArtChild>, f: seq<Node>, t: string, done: map<ArtElement, Node>)
    requires Denotes(c, f, done) && forall e :: e in done ==> done[e].Elem?
    ensures c == [] <==> f == []
    ensures c != [] ==> c[|c|-1].TextChild? == f[|f|-1].Text?
    ensures if c != [] && c[|c|-1].TextChild?
            then f[|f|-1].text == c[|c|-1].text
                 && Denotes(c[|c|-1 := TextChild(c[|c|-1].text + t)], f[|f|-1 := Text(f[|f|-1].text + t)], done)
            else Denotes(c + [TextChild(t)], f + [Text(t)], done)
  {
    if c != [] && c[|c|-1].TextChild? {
      DenotesLast(c, f, done);
      var x := TextChild(c[|c|-1].text + t);
      var n := Text(f[|f|-1].text + t);
      DenotesSnoc(c[..|c|-1], f[..|f|-1], x, n, done);
      assert c[..|c|-1] + [x] == c[|c|-1 := x] && f[..|f|-1] + [n] == f[|f|-1 := n];
    } else {
      if c != [] { DenotesLast(c, f, done); }
      DenotesSnoc(c, f, TextChild(t), Text(t), done);
    }
  }

  lemma {:induction false} StartsWaiting(e: ArtElement, c: seq<ArtChild>, next: ArtElement, kids: seq<Node>, done: map<ArtElement, Node>)
    requires e.children == c + [ElementChild(next)] && Denotes(c, kids, done)
    ensures Waits(e, next, kids, done)
  {
    hide Denotes;
    assert (c + [ElementChild(next)])[..|c|] == c;
  }

  lemma {:induction false} DoneElems(done: map<ArtElement, Node>)
    requires Finished(done)
    ensures forall e :: e in done ==> done[e].Elem?
  {}

  class TreeBuilder {
    var stack: seq<ArtElement>
    /** The stack as values: the open elements and the finished children each has so far. */
    ghost var st: Stack
    ghost var done: map<ArtElement, Node>

    ghost predicate Valid()
      reads this, stack, done.Keys
    {
      Finished(done) && OnStack(stack, st, done)
    }

    constructor ()
      ensures Valid() && fresh(stack) && done == map[] && st == [Frame("", None, [])]
    {
      var root := new ArtElement("", None);
      stack, st, done := [root], [Frame("", None, [])], map[];
    }

    /** New children for the innermost open element. */
    method SetChildren(children: seq<ArtChild>, ghost kids: seq<Node>)
      requires Valid() && Denotes(children, kids, done)
      modifies this`st, stack[|stack|-1]
      ensures Valid() && st == SetTop(old(st), kids)
    {
      hide Denotes, Finished, Waits;
      var top := stack[|stack|-1];
      top.children := children;
      forall k | 0 <= k < |stack| - 1 ensures Waits(stack[k], stack[k+1], st[k].kids, done) {
        assert stack[k] != top;
        assert old(Waits(stack[k], stack[k+1], st[k].kids, done));
      }
      st := SetTop(st, kids);
    }

    method AppendText(t: string)
      requires Valid()
      modifies this`st, stack[|stack|-1]
      ensures Valid() && st == AddText(old(st), t)
    {
      if t == "" { return; }
      hide Denotes, Finished, Waits;
      DoneElems(done);
      var kids := stack[|stack|-1].children;
      ghost var f := Top(st).kids;
      TextDenotes(kids, f, t, done);
      if |kids| > 0 && kids[|kids|-1].TextChild? {
        SetChildren(kids[|kids|-1 := TextChild(kids[|kids|-1].text + t)], f[|f|-1 := Text(f[|f|-1].text + t)]);
      } else {
        SetChildren(kids + [TextChild(t)], f + [Text(t)]);
      }
    }

    /** A line break is a finished child at once. */
    method AppendBr()
      requires Valid()
      modifies this`st, this`done, stack[|stack|-1]
      ensures Valid() && st == AddKid(old(st), Elem("br", None, [])) && fresh(done.Keys - old(done.Keys))
    {
      hide Denotes, Finished;
      var el := new ArtElement("br", None);
      var top := stack[|stack|-1];
      ghost var n := Elem("br", None, []);
      assert Denotes(el.children, [], done) by { DenotesNothing(done); }
      FinishedMore(done, el, []);
      MoreStack(stack, st, done, el, n);
      DenotesSnoc(top.children, Top(st).kids, ElementChild(el), n, done[el := n]);
      top.children := top.children + [ElementChild(el)];
      done := done[el := n];
      st := AddKid(st, n);
    }

    method Push(tag: string, href: Option<string>)
      requires Valid()
      modifies this`stack, this`st, stack[|stack|-1]
      ensures Valid() && st == old(st) + [Frame(tag, href, [])]
      ensures |stack| > 0 && stack[..|stack|-1] == old(stack) && fresh(stack[|stack|-1])
    {
      hide Denotes, Finished, Waits;
      var el := new ArtElement(tag, href);
      var top := stack[|stack|-1];
      assert Denotes(el.children, [], done) by { DenotesNothing(done); }
      ghost var c := top.children;
      top.children := top.children + [ElementChild(el)];
      StartsWaiting(top, c, el, Top(st).kids, done);
      forall k | 0 <= k < |stack| - 1 ensures Waits(stack[k], stack[k+1], st[k].kids, done) {
        assert stack[k] != top;
        assert old(Waits(stack[k], stack[k+1], st[k].kids, done));
      }
      stack := stack + [el];
      st := st + [Frame(tag, href, [])];
    }

    /** `stack.pop()`: no object changes, the popped element is finished. */
    method PopElement()
      requires Valid() && |stack| > 1
      modifies this
      ensures Valid() && st == Pop(old(st)) && stack == old(stack)[..|old(stack)|-1]
      ensures done.Keys == old(done).Keys + {old(stack)[|old(stack)|-1]}
    {
      hide Denotes, Finished;
      ghost var e, f := stack[|stack|-1], Top(st);
      ghost var n := Elem(f.tag, f.href, f.kids);
      var parent := stack[|stack|-2];
      FinishedMore(done, e, f.kids);
      MoreStack(stack, st, done, e, n);
      ghost var c := parent.children;
      assert Waits(stack[|stack|-2], stack[|stack|-1], st[|st|-2].kids, done);
      assert c == c[..|c|-1] + [ElementChild(e)];
      DenotesSnoc(c[..|c|-1], st[|st|-2].kids, ElementChild(e), n, done[e := n]);
      done := done[e := n];
      stack := stack[..|stack|-1];
      st := Pop(st);
    }

    /** The closure `closeTo`: cuts the stack at the innermost open element of that name. */
    method CloseElementsTo(name: string)
      requires Valid()
      modifies this
      ensures Valid() && st == CloseTo(old(st), name)
      ensures stack <= old(stack) && done.Keys <= old(done).Keys + (set e | e in old(stack))
    {
      hide Finished, OnStack;
      var k := |stack| - 1;
      assert |stack| == |st| && |stack| > 0 && forall j :: 0 <= j < |st| ==> stack[j].tag == st[j].tag by { Heights(stack, st, done); }
      while k > 0 && stack[k].tag != name
        invariant 0 <= k < |stack| && forall j :: k < j < |st| ==> st[j].tag != name
      {
        k := k - 1;
      }
      OpenIndexIs(st, name, k);
      if k > 0 {
        while |stack| > k
          invariant Valid() && k <= |stack| == |st| && stack == old(stack)[..|stack|]
          invariant PopTo(st, k) == PopTo(old(st), k)
          invariant done.Keys <= old(done).Keys + (set e | e in old(stack))
          decreases |stack|
        {
          PopElement();
        }
      }
    }
  }

  lemma {:induction false} Heights(stack: seq<ArtElement>, st: Stack, done: map<ArtElement, Node>)
    requires OnStack(stack, st, done)
    ensures |stack| == |st| && forall j :: 0 <= j < |st| ==> stack[j].tag == st[j].tag
  {}

  lemma {:induction false} OpenIndexIs(st: Stack, name: string, k: nat)
    requires k < |st| && (forall j :: k < j < |st| ==> st[j].tag != name) && (k > 0 ==> st[k].tag == name)
    ensures OpenIndex(st, name) == k
  {}

  lemma {:induction false} DenotesNothing(done: map<ArtElement, Node>)
    ensures Denotes([], [], done)
  {}

  /** One more finished element leaves what the open ones denote alone. */
  lemma {:induction false} MoreStack(stack: seq<ArtElement>, st: Stack, done: map<ArtElement, Node>, e: ArtElement, n: Node)
    requires OnStack(stack, st, done) && e !in done
    ensures forall k :: 0 <= k < |stack| - 1 ==> Waits(stack[k], stack[k+1], st[k].kids, done[e := n])
    ensures Denotes(stack[|stack|-1].children, st[|st|-1].kids, done[e := n])
  {
    hide Denotes;
    forall k | 0 <= k < |stack| - 1 ensures Waits(stack[k], stack[k+1], st[k].kids, done[e := n]) {
      assert Waits(stack[k], stack[k+1], st[k].kids, done);
      var c := stack[k].children;
      DenotesMore(c[..|c|-1], st[k].kids, done, e, n);
    }
    DenotesMore(stack[|stack|-1].children, st[|st|-1].kids, done, e, n);
  }

  /** Elements that are open when the text ends are finished as they are. */
  lemma {:induction false} FinishRest(stack: seq<ArtElement>, st: Stack, done: map<ArtElement, Node>)
      returns (all: map<ArtElement, Node>)
    requires OnStack(stack, st, done) && Finished(done)
    ensures Finished(all) && Denotes(stack[0].children, PopTo(st, 1)[0].kids, all)
    ensures all.Keys <= done.Keys + (set e | e in stack)
    decreases |stack|
  {
    hide Denotes, Finished;
    if |stack| == 1 {
      all := done;
    } else {
      var e, f := stack[|stack|-1], Top(st);
      var n := Elem(f.tag, f.href, f.kids);
      var shorter, up := stack[..|stack|-1], Pop(st);
      FinishedMore(done, e, f.kids);
      MoreStack(stack, st, done, e, n);
      assert Waits(stack[|stack|-2], stack[|stack|-1], st[|st|-2].kids, done);
      var c := stack[|stack|-2].children;
      assert c == c[..|c|-1] + [ElementChild(e)];
      DenotesSnoc(c[..|c|-1], st[|st|-2].kids, ElementChild(e), n, done[e := n]);
      assert OnStack(shorter, up, done[e := n]);
      all := FinishRest(shorter, up, done[e := n]);
    }
  }

  /** The pops a start tag causes: a block ends a paragraph or heading, an item ends an item, a link ends a link. */
  method UnnestFor(b: TreeBuilder, name: string)
    requires b.Valid()
    modifies b
    ensures b.Valid() && b.st == Unnest(old(b.st), name)
    ensures b.stack <= old(b.stack) && b.done.Keys <= old(b.done).Keys + (set e | e in old(b.stack))
  {
    hide Finished, OnStack;
    Heights(b.stack, b.st, b.done);
    if name in BLOCKS && b.stack[|b.stack|-1].tag in TEXT_BLOCKS && |b.stack| > 1 {
      b.PopElement();
      Heights(b.stack, b.st, b.done);
    }
    if name == "li" && b.stack[|b.stack|-1].tag == "li" && |b.stack| > 1 {
      b.PopElement();
    }
    if name == "a" { b.CloseElementsTo("a"); }
  }

  /** One start tag that is not dropped with its content. */
  method OpenTag(b: TreeBuilder, tag: Tag, url: string -> bool)
    requires b.Valid()
    modifies b, b.stack
    ensures b.Valid() && b.st == OpenElement(old(b.st), tag.name, tag.attrs, url)
    ensures fresh((set e | e in b.stack) - (set e | e in old(b.stack)))
    ensures forall e :: e in b.done ==> e in old(b.done) || e in old(b.stack) || fresh(e)
  {
    hide Finished, OnStack, SafeHref, Unnest;
    Heights(b.stack, b.st, b.done);
    if tag.name == "br" {
      b.AppendBr();
      return;
    }
    var isLink := tag.name == "a";
    if tag.name !in ART_TAGS && !isLink { return; }
    if |b.stack| > MAX_DEPTH { return; }
    UnnestFor(b, tag.name);
    var raw := if "href" in tag.attrs then Some(tag.attrs["href"]) else None;
    var href := if isLink then SafeHref(raw, url) else None;
    if isLink && href == None { return; }
    Heights(b.stack, b.st, b.done);
    b.Push(tag.name, href);
  }

  /** The turn of the loop after the text before the "<" at `lt`; returns where the next turn starts. */
  method ReadBracket(b: TreeBuilder, src: string, lt: nat, url: string -> bool) returns (i: nat)
    requires b.Valid() && lt < |src|
    modifies b, b.stack
    ensures b.Valid() && State(i, b.st) == Bracket(src, lt, old(b.st), url)
    ensures fresh((set e | e in b.stack) - (set e | e in old(b.stack)))
    ensures forall e :: e in b.done ==> e in old(b.done) || e in old(b.stack) || fresh(e)
  {
    hide Finished, OnStack, OpenElement, TagAt, AddText, CloseTo;
    Heights(b.stack, b.st, b.done);
    if At(src, lt, "<!--") {
      var end := FindStr(src, "-->", lt + 4);
      return match end case None => |src| case Some(e) => e + 3;
    }
    if lt + 1 < |src| && (src[lt+1] == '!' || src[lt+1] == '?') {
      var end := Find(src, '>', lt + 2);
      return if end == |src| then |src| else end + 1;
    }
    var t := ReadTag(src, lt);
    if t == None {
      b.AppendText("<");
      return lt + 1;
    }
    var tag := t.value;
    i := tag.end;
    if tag.name in RAW_DROPPED {
      if !tag.closing { i := RawEnd(src, tag.name, i); }
      return;
    }
    if tag.closing {
      if tag.name == "br" { return; }
      if tag.name in ART_TAGS || tag.name == "a" { b.CloseElementsTo(tag.name); }
      return;
    }
    OpenTag(b, tag, url);
  }

  /** The reader: the children of the root object are the forest `Parsed` names. */
  method Parse(src: string, url: string -> bool) returns (children: seq<ArtChild>, ghost done: map<ArtElement, Node>)
    ensures Finished(done) && fresh(done.Keys)
    ensures Denotes(children, Parsed(src, url), done)
  {
    hide Finished, OnStack, Bracket, AddText, DecodeEntities, Denotes;
    var b := new TreeBuilder();
    var i := 0;
    while i < |src|
      invariant fresh(b) && b.Valid() && fresh(b.stack) && fresh(b.done.Keys)
      invariant i <= |src| && ParseAt(src, State(i, b.st), url) == Parsed(src, url)
      decreases |src| - i
    {
      ghost var x := State(i, b.st);
      var lt := Find(src, '<', i);
      Heights(b.stack, b.st, b.done);
      b.AppendText(DecodeEntities(src[i..lt]));
      if lt == |src| {
        i := |src|;
      } else {
        i := ReadBracket(b, src, lt, url);
      }
      assert State(i, b.st) == Turn(src, x, url);
    }
    Heights(b.stack, b.st, b.done);
    done := FinishRest(b.stack, b.st, b.done);
    children := b.stack[0].children;
  }
}
