// Foreign elements that stand for a printed one (apps/rich-editor/src/sanitize.ts:44-89, 263-351): a tree and the tree with their
// names replaced are sanitized alike. With the fixpoint theorems, which speak of printed trees, this fixes what each name means.

module TagAliases {
  import opened Base
  import opened RichModel
  import opened SanitizerModel

  const ALIASES: map<string, string> :=
    map["b" := "strong", "i" := "em", "h1" := "h3", "h2" := "h3", "h5" := "h4", "h6" := "h4"]

  /** Blocks with a meaning of their own; every other block is a paragraph. */
  const NAMED_BLOCKS: set<string> := {"h1", "h2", "h3", "h4", "h5", "h6", "blockquote", "ul", "ol", "li"}

  function PrintedName(tag: string): string {
    if tag in ALIASES then ALIASES[tag] else if tag in BOUNDARY_TAGS && tag !in NAMED_BLOCKS then "p" else tag
  }

  function Renamed(n: Dom): Dom
    decreases n, 1
  {
    match n
    case Element(tag, href, kids) => Element(PrintedName(tag), href, RenamedAll(kids))
    case _ => n
  }

  function RenamedAll(ns: seq<Dom>): seq<Dom>
    decreases ns, 0
  {
    if ns == [] then [] else [Renamed(ns[0])] + RenamedAll(ns[1..])
  }

  lemma {:induction false} AliasDrops(tag: string)
    requires tag in ALIASES
    ensures tag !in DROP_TAGS && tag != "br" && ALIASES[tag] !in DROP_TAGS && ALIASES[tag] != "br"
  {}

  lemma {:induction false} PlainDrops(tag: string)
    requires tag in BOUNDARY_TAGS
    ensures tag !in DROP_TAGS && tag != "br" && "p" !in DROP_TAGS
  {
    hide SECTION_TAGS, TABLE_TAGS, TEXT_TAGS, FORM_TAGS, DROP_TAGS;
    PStays();
    if tag in SECTION_TAGS { SectionDrops(tag); }
    if tag in TABLE_TAGS { TableDrops(tag); }
    if tag in TEXT_TAGS { TextDrops(tag); }
    if tag in FORM_TAGS { FormDrops(tag); }
  }

  lemma {:induction false} SectionDrops(tag: string)
    requires tag in SECTION_TAGS
    ensures tag !in DROP_TAGS && tag != "br"
  {}

  lemma {:induction false} TableDrops(tag: string)
    requires tag in TABLE_TAGS
    ensures tag !in DROP_TAGS && tag != "br"
  {}

  lemma {:induction false} TextDrops(tag: string)
    requires tag in TEXT_TAGS
    ensures tag !in DROP_TAGS && tag != "br"
  {}

  lemma {:induction false} FormDrops(tag: string)
    requires tag in FORM_TAGS
    ensures tag !in DROP_TAGS && tag != "br"
  {}

  lemma {:induction false} AliasEnters(tag: string, href: Option<string>, m: Marks, link: nat, st: State, r: Rules)
    requires tag in ALIASES
    ensures Enter(ALIASES[tag], href, m, link, st, r) == Enter(tag, href, m, link, st, r)
  {
    hide Flush, OpenQuote, OpenList, OpenItem, BOUNDARY_TAGS;
  }

  lemma {:induction false} PlainEnters(tag: string, href: Option<string>, m: Marks, link: nat, st: State, r: Rules)
    requires tag in BOUNDARY_TAGS && tag !in NAMED_BLOCKS
    ensures Enter("p", href, m, link, st, r) == Enter(tag, href, m, link, st, r) == Plan(Flush(st), m, link, true, false)
  {
    hide Flush, OpenQuote, OpenList, OpenItem, BOUNDARY_TAGS;
    NotInline(tag);
    assert "p" in BOUNDARY_TAGS by { PIsBlock(); }
  }

  lemma {:induction false} NameEnters(tag: string, href: Option<string>, m: Marks, link: nat, st: State, r: Rules)
    ensures (tag in DROP_TAGS <==> PrintedName(tag) in DROP_TAGS) && (tag == "br" <==> PrintedName(tag) == "br")
    ensures Enter(PrintedName(tag), href, m, link, st, r) == Enter(tag, href, m, link, st, r)
  {
    hide Enter, BOUNDARY_TAGS, DROP_TAGS;
    if tag in ALIASES {
      AliasDrops(tag);
      AliasEnters(tag, href, m, link, st, r);
    } else if tag in BOUNDARY_TAGS && tag !in NAMED_BLOCKS {
      PlainDrops(tag);
      PlainEnters(tag, href, m, link, st, r);
      assert "p" != "br";
    }
  }

  lemma {:induction false} RenamedWalks(n: Dom, m: Marks, link: nat, depth: nat, st: State, r: Rules)
    ensures Walk(Renamed(n), m, link, depth, st, r) == Walk(n, m, link, depth, st, r)
    decreases n, 1
  {
    hide Enter, Leave, PrintedName, DROP_TAGS;
    match n
    case Element(tag, href, kids) =>
      NameEnters(tag, href, m, link, st, r);
      var p := Enter(tag, href, m, link, st, r);
      RenamedAllWalks(kids, p.m, p.link, depth + 1, p.st, r);
    case _ =>
  }

  lemma {:induction false} RenamedAllWalks(ns: seq<Dom>, m: Marks, link: nat, depth: nat, st: State, r: Rules)
    ensures WalkAll(RenamedAll(ns), m, link, depth, st, r) == WalkAll(ns, m, link, depth, st, r)
    decreases ns, 0
  {
    hide Walk, Renamed;
    if ns != [] {
      RenamedWalks(ns[0], m, link, depth, st, r);
      assert RenamedAll(ns)[1..] == RenamedAll(ns[1..]);
      match Walk(ns[0], m, link, depth, st, r)
      case None =>
      case Some(s) => RenamedAllWalks(ns[1..], m, link, depth, s, r);
    }
  }

  /** Every tree is sanitized like the tree with the printed names in it. */
  lemma {:induction false} SanitizedByName(nodes: seq<Dom>, r: Rules)
    ensures Sanitized(RenamedAll(nodes), r) == Sanitized(nodes, r)
  {
    hide WalkAll, Flush;
    RenamedAllWalks(nodes, NO_MARKS, 0, 0, START, r);
  }
}
