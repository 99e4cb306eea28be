// The sanitizer's walk over a foreign element tree (apps/rich-editor/src/sanitize.ts:127-354) as functions on
// its state. The objects the source shares between the document and the container stack are named by paths
// into the document, so a flattened list (an alias) is a second container with the path of the first.

module SanitizerModel {
  import opened Base
  import opened Chars
  import opened RichModel
  import opened Finish

  datatype Dom = TextNode(data: string) | OtherNode | Element(tag: string, href: Option<string>, kids: seq<Dom>)

  /** What the walk asks of a profile: its output tags and its link check. */
  datatype Rules = Rules(tags: set<string>, clean: string -> Option<string>)

  const MAX_DEPTH := 200

  const DROP_TAGS: set<string> := {
    "script", "style", "img", "iframe", "svg", "object", "embed", "noscript", "template", "title", "head",
    "meta", "link", "base", "audio", "video", "canvas", "math", "applet", "frame", "frameset", "noframes",
    "noembed", "param", "source", "track", "map", "area"}

  const SECTION_TAGS: set<string> :=
    {"div", "section", "article", "aside", "header", "footer", "nav", "main", "figure", "figcaption", "address", "body", "html"}
  const TABLE_TAGS: set<string> :=
    {"table", "thead", "tbody", "tfoot", "tr", "td", "th", "caption", "dl", "dt", "dd", "menu", "dir"}
  const TEXT_TAGS: set<string> :=
    {"p", "h1", "h2", "h3", "h4", "h5", "h6", "li", "ul", "ol", "blockquote", "pre"}
  const FORM_TAGS: set<string> := {"hr", "fieldset", "form", "details", "summary", "center", "legend"}

  /** The elements that end a line at both their ends. */
  const BOUNDARY_TAGS: set<string> := SECTION_TAGS + TABLE_TAGS + TEXT_TAGS + FORM_TAGS

  /** The elements that stand in a line. */
  predicate LineTag(tag: string) { tag in {"b", "strong", "i", "em", "u", "a", "br"} }

  lemma {:induction false} NotInline(tag: string)
    requires tag in BOUNDARY_TAGS
    ensures !LineTag(tag)
  {
    hide SECTION_TAGS, TABLE_TAGS, TEXT_TAGS, FORM_TAGS;
    if tag in SECTION_TAGS { SectionInline(tag); }
    if tag in TABLE_TAGS { TableInline(tag); }
    if tag in TEXT_TAGS { TextInline(tag); }
    if tag in FORM_TAGS { FormInline(tag); }
  }

  lemma {:induction false} SectionInline(tag: string)
    requires tag in SECTION_TAGS
    ensures !LineTag(tag)
  {}

  lemma {:induction false} TableInline(tag: string)
    requires tag in TABLE_TAGS
    ensures !LineTag(tag)
  {}

  lemma {:induction false} TextInline(tag: string)
    requires tag in TEXT_TAGS
    ensures !LineTag(tag)
  {}

  lemma {:induction false} FormInline(tag: string)
    requires tag in FORM_TAGS
    ensures !LineTag(tag)
  {}

  lemma {:induction false} NamedBlocks(tag: string)
    requires tag in {"h1", "h2", "h3", "h4", "h5", "h6", "li", "ul", "ol", "blockquote"}
    ensures tag in BOUNDARY_TAGS
  {
    hide SECTION_TAGS, TABLE_TAGS, FORM_TAGS;
  }

  lemma {:induction false} PIsBlock()
    ensures "p" in BOUNDARY_TAGS
  {}

  lemma {:induction false} PStays()
    ensures "p" !in DROP_TAGS
  {}

  /** A list of the document: in a block, or below an item of another list. */
  datatype ListPath = InBlock(block: nat) | Below(parent: ListPath, item: nat, sub: nat)

  datatype Container =
    | AtRoot
    | AtQuote(block: nat)
    | AtList(path: ListPath, alias: bool)
    | AtItem(path: ListPath, item: nat)

  datatype State = State(root: Doc, stack: seq<Container>, cur: seq<Chunk>, curKind: TextKind, nextLink: nat)

  const START := State([], [AtRoot], [], P, 0)

  // ---- references ----

  predicate HasList(root: Doc, path: ListPath) {
    match path
    case InBlock(b) => b < |root| && root[b].ListBlock?
    case Below(parent, i, s) =>
      && HasList(root, parent) && i < |ListAt(root, parent).items| && s < |ListAt(root, parent).items[i].subs|
  }

  /** The list a path names; the empty list when it names none. */
  function ListAt(root: Doc, path: ListPath): List {
    match path
    case InBlock(b) => if b < |root| && root[b].ListBlock? then root[b].list else List(false, [])
    case Below(parent, i, s) =>
      var l := ListAt(root, parent);
      if i < |l.items| && s < |l.items[i].subs| then l.items[i].subs[s] else List(false, [])
  }

  function SetItem(l: List, i: nat, it: Item): List {
    if i < |l.items| then l.(items := l.items[i := it]) else l
  }

  function SetSub(it: Item, s: nat, l: List): Item {
    if s < |it.subs| then it.(subs := it.subs[s := l]) else it
  }

  /** The document after the list object at `path` became `l`. */
  function SetList(root: Doc, path: ListPath, l: List): Doc {
    match path
    case InBlock(b) => if b < |root| && root[b].ListBlock? then root[b := ListBlock(l)] else root
    case Below(parent, i, s) =>
      var p := ListAt(root, parent);
      if i < |p.items| then SetList(root, parent, SetItem(p, i, SetSub(p.items[i], s, l))) else root
  }

  // ---- the container stack ----

  function TopOf(st: State): Container {
    if st.stack == [] then AtRoot else st.stack[|st.stack|-1]
  }

  function QuoteDepth(stack: seq<Container>): nat {
    if stack == [] then 0 else QuoteDepth(stack[..|stack|-1]) + (if stack[|stack|-1].AtQuote? then 1 else 0)
  }

  function ListDepth(stack: seq<Container>): nat {
    if stack == [] then 0
    else ListDepth(stack[..|stack|-1]) + (if stack[|stack|-1].AtList? && !stack[|stack|-1].alias then 1 else 0)
  }

  /** `enclosingList`: the innermost list container. */
  function Enclosing(stack: seq<Container>): Option<ListPath> {
    if stack == [] then None
    else if stack[|stack|-1].AtList? then Some(stack[|stack|-1].path)
    else Enclosing(stack[..|stack|-1])
  }

  function PushOn(st: State, root: Doc, c: Container): State {
    st.(root := root, stack := st.stack + [c])
  }

  // ---- the operations ----

  /** A finished run goes into the current container. */
  function Deposit(root: Doc, top: Container, kind: TextKind, chunks: seq<Chunk>): Doc {
    match top
    case AtRoot => root + [TextBlock(kind, chunks)]
    case AtQuote(b) =>
      if b < |root| && root[b].Quote? then root[b := Quote(root[b].paras + [chunks])] else root
    case AtList(path, _) =>
      var l := ListAt(root, path);
      SetList(root, path, l.(items := l.items + [Item(chunks, [])]))
    case AtItem(path, i) =>
      var l := ListAt(root, path);
      if i < |l.items| then SetList(root, path, SetItem(l, i, Join(l.items[i], chunks))) else root
  }

  /** A later run of an item starts on a line of its own. */
  function Join(it: Item, chunks: seq<Chunk>): Item {
    it.(inl := (if it.inl == [] then [] else it.inl + [Br]) + chunks)
  }

  function Flush(st: State): State {
    var s := st.(cur := [], curKind := P);
    match Finished(st.cur)
    case None => s
    case Some(chunks) => s.(root := Deposit(st.root, TopOf(st), st.curKind, chunks))
  }

  function OpenQuote(st: State, r: Rules): (State, bool) {
    if "blockquote" !in r.tags || TopOf(st) != AtRoot then (st, false)
    else (PushOn(st, st.root + [Quote([])], AtQuote(|st.root|)), true)
  }

  /** A new list below item `i` of the list at `path`. */
  function OpenBelow(st: State, path: ListPath, i: nat, ordered: bool): State {
    var l := ListAt(st.root, path);
    if i < |l.items| then
      var it := l.items[i];
      PushOn(st, SetList(st.root, path, SetItem(l, i, it.(subs := it.subs + [List(ordered, [])]))),
             AtList(Below(path, i, |it.subs|), false))
    else st
  }

  function OpenList(st: State, ordered: bool, r: Rules): (State, bool) {
    if "ul" !in r.tags || QuoteDepth(st.stack) > 0 then (st, false)
    else
      match TopOf(st)
      case AtRoot =>
        (PushOn(st, st.root + [ListBlock(List(ordered, []))], AtList(InBlock(|st.root|), false)), true)
      case AtItem(path, i) =>
        if ListDepth(st.stack) >= 2 then
          // At the second level the new container is an alias of the list around the item.
          match Enclosing(st.stack)
          case Some(p) => (PushOn(st, st.root, AtList(p, true)), true)
          case None => (st, true)
        else (OpenBelow(st, path, i, ordered), true)
      case AtList(path, _) =>
        // Without an item in between, the last item takes the sublist; else the container is an alias.
        var n := |ListAt(st.root, path).items|;
        if n > 0 && ListDepth(st.stack) < 2 then (OpenBelow(st, path, n - 1, ordered), true)
        else (PushOn(st, st.root, AtList(path, true)), true)
      case AtQuote(_) => (st, false)
  }

  function OpenItem(st: State): State {
    match TopOf(st)
    case AtList(path, _) =>
      var l := ListAt(st.root, path);
      PushOn(st, SetList(st.root, path, l.(items := l.items + [Item([], [])])), AtItem(path, |l.items|))
    case _ => st
  }

  function PushText(st: State, data: string, m: Marks, link: nat): State {
    var clean := StripForbidden(data);
    if clean == "" then st else st.(cur := st.cur + [Run(clean, m, link)])
  }

  // ---- the walk ----

  /** How an element is walked: the state and marks for its children, and what is undone after them. */
  datatype Plan = Plan(st: State, m: Marks, link: nat, flush: bool, pop: bool)

  function Inline(st: State, m: Marks, link: nat): Plan {
    Plan(st, m, link, false, false)
  }

  predicate IsHeading(tag: string) {
    tag in {"h1", "h2", "h3", "h4", "h5", "h6"}
  }

  function HeadingKind(tag: string): TextKind {
    if tag in {"h4", "h5", "h6"} then H4 else H3
  }

  function Enter(tag: string, href: Option<string>, m: Marks, link: nat, st: State, r: Rules): Plan {
    if tag == "b" || tag == "strong" then Inline(st, if "strong" in r.tags then m.(strong := true) else m, link)
    else if tag == "i" || tag == "em" then Inline(st, if "em" in r.tags then m.(em := true) else m, link)
    else if tag == "u" then Inline(st, if "u" in r.tags then m.(u := true) else m, link)
    else if tag == "a" then
      var target := if "a" in r.tags && m.href == "" && href.Some? then r.clean(href.value) else None;
      match target
      case None => Inline(st, m, link)
      case Some(h) => Inline(st.(nextLink := st.nextLink + 1), m.(href := h), st.nextLink + 1)
    else if IsHeading(tag) then
      var s := Flush(st);
      if "h3" in r.tags && TopOf(s) == AtRoot then Plan(s.(curKind := HeadingKind(tag)), m, link, true, false)
      else Plan(s, if "strong" in r.tags then m.(strong := true) else m, link, true, false)
    else if tag == "blockquote" then
      var p := OpenQuote(Flush(st), r);
      Plan(p.0, m, link, true, p.1)
    else if tag == "ul" || tag == "ol" then
      var p := OpenList(Flush(st), tag == "ol", r);
      Plan(p.0, m, link, true, p.1)
    else if tag == "li" then
      var s := Flush(st);
      if TopOf(s).AtList? then Plan(OpenItem(s), m, link, true, true) else Plan(s, m, link, true, false)
    else if tag in BOUNDARY_TAGS then Plan(Flush(st), m, link, true, false)
    else Inline(st, m, link)
  }

  function Leave(p: Plan, st: State): State {
    var s := if p.flush then Flush(st) else st;
    if p.pop && s.stack != [] then s.(stack := s.stack[..|s.stack|-1]) else s
  }

  /** None: the markup is nested too deeply and the walk throws. */
  function Walk(n: Dom, m: Marks, link: nat, depth: nat, st: State, r: Rules): Option<State>
    decreases n, 1
  {
    if depth > MAX_DEPTH then None
    else
      match n
      case TextNode(data) => Some(PushText(st, data, m, link))
      case OtherNode => Some(st)
      case Element(tag, href, kids) =>
        if tag in DROP_TAGS then Some(st)
        else if tag == "br" then Some(st.(cur := st.cur + [Br]))
        else
          var p := Enter(tag, href, m, link, st, r);
          match WalkAll(kids, p.m, p.link, depth + 1, p.st, r)
          case None => None
          case Some(s) => Some(Leave(p, s))
  }

  function WalkAll(kids: seq<Dom>, m: Marks, link: nat, depth: nat, st: State, r: Rules): Option<State>
    decreases kids, 0
  {
    if kids == [] then Some(st)
    else
      match Walk(kids[0], m, link, depth, st, r)
      case None => None
      case Some(s) => WalkAll(kids[1..], m, link, depth, s, r)
  }

  const NO_MARKS := Marks(false, false, false, "")

  /** `parseHtml` on the parsed nodes. */
  function Sanitized(nodes: seq<Dom>, r: Rules): Option<Doc> {
    match WalkAll(nodes, NO_MARKS, 0, 0, START, r)
    case None => None
    case Some(s) => Some(Flush(s).root)
  }
}
