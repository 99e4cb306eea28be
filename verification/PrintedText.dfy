// The text of printed HTML, read without its tags: two trees that print the same hold the same text
// (apps/rich-editor/src/model.ts:140-253).

module PrintedText {
  import opened Base
  import opened Chars
  import opened RichModel
  import opened Markup
  import opened Printer
  import opened Escaping
  import opened LinkLines
  import opened SanitizerModel
  import opened SanitizerLines
  import opened SanitizerInv
  import Reader
  import Units

  // ---- taking the tags out ----

  function Strip(s: string, inTag: bool): string {
    if s == "" then ""
    else if inTag then Strip(s[1..], s[0] != '>')
    else if s[0] == '<' then Strip(s[1..], true)
    else [s[0]] + Strip(s[1..], false)
  }

  function After(s: string, inTag: bool): bool {
    if s == "" then inTag else After(s[1..], if inTag then s[0] != '>' else s[0] == '<')
  }

  lemma {:induction false} StripConcat(a: string, b: string, inTag: bool)
    ensures Strip(a + b, inTag) == Strip(a, inTag) + Strip(b, After(a, inTag))
    ensures After(a + b, inTag) == After(b, After(a, inTag))
  {
    if a == "" {
      assert a + b == b;
    } else {
      assert (a + b)[1..] == a[1..] + b;
      StripConcat(a[1..], b, if inTag then a[0] != '>' else a[0] == '<');
    }
  }

  lemma {:induction false} StripInside(s: string)
    requires '>' !in s
    ensures Strip(s, true) == "" && After(s, true)
  {
    if s != "" { StripInside(s[1..]); }
  }

  lemma {:induction false} StripText(s: string)
    requires '<' !in s
    ensures Strip(s, false) == s && !After(s, false)
  {
    if s != "" { StripText(s[1..]); }
  }

  lemma {:induction false} StripTag(x: string)
    requires '>' !in x
    ensures Strip("<" + x + ">", false) == "" && !After("<" + x + ">", false)
  {
    StripConcat("<" + x, ">", false);
    StripConcat("<", x, false);
    StripInside(x);
    assert "<"[1..] == "" && ">"[1..] == "";
  }

  lemma {:induction false} EscapeNoBracket(s: string, attr: bool)
    ensures '>' !in Escape(s, attr)
  {
    hide Escape;
    if s == "" { EscapeEmpty(attr); } else {
      EscapeCons(s, attr);
      EscapeNoBracket(s[1..], attr);
    }
  }

  lemma {:induction false} StartStrips(tag: string, href: Option<string>)
    requires '>' !in tag
    ensures Strip(StartTag(tag, href), false) == "" && !After(StartTag(tag, href), false)
  {
    hide EscapeAttr, Strip, After;
    match href
    case None => StripTag(tag);
    case Some(h) =>
      EscapeNoBracket(h, true);
      AttrIs(h);
      var x := tag + " href=\"" + EscapeAttr(h) + "\"";
      assert '>' !in " href=\"" && '>' !in "\"";
      StripTag(x);
      assert StartTag(tag, href) == "<" + x + ">";
  }

  lemma {:induction false} AttrIs(h: string)
    ensures EscapeAttr(h) == Escape(h, true)
  {}

  lemma {:induction false} EndStrips(tag: string)
    requires '>' !in tag
    ensures Strip(EndTag(tag), false) == "" && !After(EndTag(tag), false)
  {
    hide Strip, After;
    StripTag("/" + tag);
    assert EndTag(tag) == "<" + ("/" + tag) + ">";
  }

  // ---- the text of a forest ----

  function PlainText(f: seq<Node>): string
    decreases f, 0
  {
    if f == [] then "" else NodePlain(f[0]) + PlainText(f[1..])
  }

  function NodePlain(n: Node): string
    decreases n, 1
  {
    match n case Text(t) => t case Elem(_, _, kids) => PlainText(kids)
  }

  /** The tags are plain words without text in breaks; when `strict`, the texts are allowed by the policy. */
  predicate TreeOk(f: seq<Node>, strict: bool)
    decreases f, 0
  {
    f == [] || (NodeOk(f[0], strict) && TreeOk(f[1..], strict))
  }

  predicate NodeOk(n: Node, strict: bool)
    decreases n, 1
  {
    match n
    case Text(t) => strict ==> AllowedText(t)
    case Elem(tag, _, kids) => '>' !in tag && (tag == "br" ==> kids == []) && TreeOk(kids, strict)
  }

  lemma {:induction false} TextEscape(a: string, b: string)
    ensures EscapeText(a + b) == EscapeText(a) + EscapeText(b) && EscapeText("") == ""
  {
    EscapeConcat(a, b, false);
    EscapeEmpty(false);
  }

  lemma {:induction false} NodeStrips(n: Node, strict: bool)
    requires NodeOk(n, strict)
    ensures Strip(Print(n), false) == EscapeText(NodePlain(n)) && !After(Print(n), false)
    decreases n, 1
  {
    hide Strip, After, EscapeText, StartTag, EndTag, TreeOk;
    match n
    case Text(t) =>
      EscapeClean(t, false);
      StripEscaped(t);
    case Elem(tag, href, kids) =>
      if tag == "br" {
        TextEscape("", "");
        NothingPlain();
        StripTag("br");
        assert "<br>" == "<" + "br" + ">";
      } else {
        ForestStrips(kids, strict);
        StartStrips(tag, href);
        EndStrips(tag);
        StripConcat(StartTag(tag, href) + PrintAll(kids), EndTag(tag), false);
        StripConcat(StartTag(tag, href), PrintAll(kids), false);
      }
  }

  lemma {:induction false} NothingPlain()
    ensures PlainText([]) == ""
  {}

  lemma {:induction false} StripEscaped(t: string)
    requires '<' !in Escape(t, false)
    ensures Strip(EscapeText(t), false) == EscapeText(t) && !After(EscapeText(t), false)
  {
    StripText(EscapeText(t));
  }

  lemma {:induction false} ForestStrips(f: seq<Node>, strict: bool)
    requires TreeOk(f, strict)
    ensures Strip(PrintAll(f), false) == EscapeText(PlainText(f)) && !After(PrintAll(f), false)
    decreases f, 0
  {
    hide Strip, After, EscapeText, Print, NodeOk, NodePlain;
    if f == [] {
      TextEscape("", "");
      StripNothing();
    } else {
      NodeStrips(f[0], strict);
      ForestStrips(f[1..], strict);
      StripConcat(Print(f[0]), PrintAll(f[1..]), false);
      TextEscape(NodePlain(f[0]), PlainText(f[1..]));
    }
  }

  lemma {:induction false} StripNothing()
    ensures Strip("", false) == "" && !After("", false)
  {}

  /** Trees that print the same hold the same text. */
  lemma {:induction false} SamePrintSameText(f: seq<Node>, g: seq<Node>)
    requires TreeOk(f, false) && TreeOk(g, false) && PrintAll(f) == PrintAll(g)
    ensures PlainText(f) == PlainText(g)
  {
    hide EscapeText, PrintAll, Strip, PlainText, Reader.DecodeEntities;
    ForestStrips(f, false);
    ForestStrips(g, false);
    DecodeUndoesEscape(PlainText(f));
    DecodeUndoesEscape(PlainText(g));
  }

  // ---- the trees of documents ----

  lemma {:induction false} TreeOkConcat(f: seq<Node>, g: seq<Node>, strict: bool)
    requires TreeOk(f, strict) && TreeOk(g, strict)
    ensures TreeOk(f + g, strict)
    decreases |f|
  {
    hide NodeOk;
    if f == [] {
      assert f + g == g;
    } else {
      TreeOkConcat(f[1..], g, strict);
      assert (f + g)[1..] == f[1..] + g;
    }
  }

  lemma {:induction false} OneOk(n: Node, strict: bool)
    requires NodeOk(n, strict)
    ensures TreeOk([n], strict)
  {
    hide NodeOk;
    assert [n][1..] == [];
  }

  lemma {:induction false} ElemOk(tag: string, href: Option<string>, kids: seq<Node>, strict: bool)
    requires '>' !in tag && tag != "br" && TreeOk(kids, strict)
    ensures TreeOk([Elem(tag, href, kids)], strict)
  {
    OneOk(Elem(tag, href, kids), strict);
  }

  predicate ChunksOk(cs: seq<Chunk>, strict: bool) {
    forall i :: 0 <= i < |cs| && cs[i].Run? ==> strict ==> AllowedText(cs[i].text)
  }

  lemma {:induction false} NestOk(cs: seq<Chunk>, k: nat, strict: bool)
    requires k <= 4 && ChunksOk(cs, strict)
    ensures TreeOk(Nest(cs, k), strict)
    decreases 4 - k, |cs|
  {
    hide AtLevel, TreeOk, AllowedText, Wrap;
    if cs == [] {
      NothingOk(strict);
    } else if cs[0].Br? || k == 4 {
      NestOk(cs[1..], k, strict);
      var n := if cs[0].Br? then Elem("br", None, []) else Text(cs[0].text);
      NothingOk(strict);
      OneOk(n, strict);
      TreeOkConcat([n], Nest(cs[1..], k), strict);
    } else {
      var n := RunLen(cs, k);
      NestOk(cs[..n], k + 1, strict);
      NestOk(cs[n..], k, strict);
      WrapOk(cs[0].marks, k, Nest(cs[..n], k + 1), strict);
      TreeOkConcat(Wrap(AtLevel(cs[0].marks, k), Nest(cs[..n], k + 1)), Nest(cs[n..], k), strict);
    }
  }

  lemma {:induction false} NothingOk(strict: bool)
    ensures TreeOk([], strict)
  {}

  lemma {:induction false} WrapOk(m: Marks, k: nat, f: seq<Node>, strict: bool)
    requires k < 4 && TreeOk(f, strict)
    ensures TreeOk(Wrap(AtLevel(m, k), f), strict)
  {
    hide TreeOk;
    var x := AtLevel(m, k);
    if x != [] { ElemOk(TagOf(x[0].kind), HrefOf(x[0]), f, strict); }
  }

  lemma {:induction false} ParasOk(ps: seq<seq<Chunk>>, strict: bool)
    requires forall i :: 0 <= i < |ps| ==> ChunksOk(ps[i], strict)
    ensures TreeOk(ParaTrees(ps), strict)
    decreases |ps|
  {
    hide Nest, TreeOk, ChunksOk;
    NothingOk(strict);
    if ps != [] {
      NestOk(ps[0], 0, strict);
      ParasOk(ps[1..], strict);
      ElemOk("p", None, Nest(ps[0], 0), strict);
      TreeOkConcat([Elem("p", None, Nest(ps[0], 0))], ParaTrees(ps[1..]), strict);
    }
  }

  lemma {:induction false} ItemsOk(items: seq<Item>, k: nat, r: Rules, strict: bool)
    requires strict ==> forall i :: 0 <= i < |items| ==> ItemInv(items[i], k, r)
    ensures TreeOk(ItemTrees(items), strict)
    decreases items, 0
  {
    hide Nest, TreeOk, ItemEmpty, LineInv, ListInv, ChunksOk;
    NothingOk(strict);
    if items != [] {
      var it := items[0];
      ItemsOk(items[1..], k, r, strict);
      assert strict ==> ItemInv(it, k, r);
      if strict { LineChunksOk(it.inl, r); } else { LooseChunks(it.inl); }
      NestOk(it.inl, 0, strict);
      SubsOk(it.subs, k, r, strict);
      TreeOkConcat(Nest(it.inl, 0), SubTrees(it.subs), strict);
      ElemOk("li", None, Nest(it.inl, 0) + SubTrees(it.subs), strict);
      TreeOkConcat(ItemTree(it), ItemTrees(items[1..]), strict);
    }
  }

  lemma {:induction false} LooseChunks(cs: seq<Chunk>)
    ensures ChunksOk(cs, false)
  {}

  lemma {:induction false} LineChunksOk(cs: seq<Chunk>, r: Rules)
    requires LineInv(cs, r)
    ensures ChunksOk(cs, true)
  {
    hide AllowedText, MarksFit;
    forall i | 0 <= i < |cs| && cs[i].Run? ensures AllowedText(cs[i].text) { assert RunFit(cs[i], r); }
  }

  lemma {:induction false} SubsOk(subs: seq<List>, k: nat, r: Rules, strict: bool)
    requires strict ==> forall j :: 0 <= j < |subs| ==> ListInv(subs[j], k, r)
    ensures TreeOk(SubTrees(subs), strict)
    decreases subs, 0
  {
    hide TreeOk, ListEmpty, ItemInv;
    NothingOk(strict);
    if subs != [] {
      assert strict ==> ListInv(subs[0], k, r);
      ItemsOk(subs[0].items, if k > 0 then k - 1 else 0, r, strict);
      ListOk(subs[0], strict);
      SubsOk(subs[1..], k, r, strict);
      TreeOkConcat(ListTree(subs[0]), SubTrees(subs[1..]), strict);
    }
  }

  lemma {:induction false} ListOk(l: List, strict: bool)
    requires TreeOk(ItemTrees(l.items), strict)
    ensures TreeOk(ListTree(l), strict)
  {
    hide TreeOk, ItemTrees, ListEmpty;
    NothingOk(strict);
    ElemOk(ListTag(l.ordered), None, ItemTrees(l.items), strict);
  }

  lemma {:induction false} BlockOk(b: Block, r: Rules, strict: bool)
    requires strict ==> BlockInv(b, r)
    ensures TreeOk(BlockTree(b), strict)
  {
    hide TreeOk, Nest, ParaTrees, ItemTrees, ListTree, LineInv, ChunksOk, ItemInv;
    NothingOk(strict);
    match b
    case TextBlock(kind, inl) =>
      if strict { LineChunksOk(inl, r); } else { LooseChunks(inl); }
      NestOk(inl, 0, strict);
      ElemOk(KindTag(kind), None, Nest(inl, 0), strict);
    case Quote(paras) =>
      forall i | 0 <= i < |paras| ensures ChunksOk(paras[i], strict) {
        if strict { LineChunksOk(paras[i], r); } else { LooseChunks(paras[i]); }
      }
      ParasOk(paras, strict);
      ElemOk("blockquote", None, ParaTrees(paras), strict);
    case ListBlock(l) =>
      ItemsOk(l.items, 1, r, strict);
      ListOk(l, strict);
  }

  /** Document trees have plain tags; the trees of good documents hold allowed texts only. */
  lemma {:induction false} DocOk(d: Doc, r: Rules, strict: bool)
    requires strict ==> DocInv(d, r)
    ensures TreeOk(DocTree(d), strict)
    decreases |d|
  {
    hide TreeOk, BlockTree, BlockInv;
    NothingOk(strict);
    if d != [] {
      BlockOk(d[0], r, strict);
      DocOk(d[1..], r, strict);
      TreeOkConcat(BlockTree(d[0]), DocTree(d[1..]), strict);
    }
  }

  // ---- characters of texts ----

  lemma {:induction false} TreeOkText(f: seq<Node>)
    requires TreeOk(f, true)
    ensures AllowedText(PlainText(f))
    decreases f, 0
  {
    hide AllowedText, NodeOk;
    if f == [] {
      NothingAllowed();
    } else {
      NodeOkText(f[0]);
      TreeOkText(f[1..]);
      BothAllowed(NodePlain(f[0]), PlainText(f[1..]));
    }
  }

  lemma {:induction false} NodeOkText(n: Node)
    requires NodeOk(n, true)
    ensures AllowedText(NodePlain(n))
    decreases n, 1
  {
    hide AllowedText, TreeOk;
    if n.Elem? { TreeOkText(n.kids); }
  }

  lemma {:induction false} NothingAllowed()
    ensures AllowedText("")
  {}

  lemma {:induction false} BothAllowed(a: string, b: string)
    requires AllowedText(a) && AllowedText(b)
    ensures AllowedText(a + b)
  {
    hide Allowed;
  }

  /** A character of a line of the tree, other than a line break, is a character of its text. */
  lemma {:induction false} InForestText(f: seq<Node>, c: char)
    requires c in Units.ForestText(f) && c != '\n'
    ensures c in PlainText(f)
    decreases f, 0
  {
    hide Units.NodeText, NodePlain;
    if c in Units.NodeText(f[0]) { InNodeText(f[0], c); } else { InForestText(f[1..], c); }
  }

  lemma {:induction false} InNodeText(n: Node, c: char)
    requires c in Units.NodeText(n) && c != '\n'
    ensures c in NodePlain(n)
    decreases n, 1
  {
    hide Units.ForestText, PlainText;
    if n.Elem? && n.tag != "br" { InForestText(n.kids, c); }
  }

  lemma {:induction false} InLines(f: seq<Node>, k: nat, c: char)
    requires k < |Units.ForestLines(f)| && c in Units.ForestLines(f)[k] && c != '\n'
    ensures c in PlainText(f)
    decreases f, 0
  {
    hide Units.NodeLines, NodePlain;
    var n := |Units.NodeLines(f[0])|;
    if k < n { InNodeLines(f[0], k, c); } else { InLines(f[1..], k - n, c); }
  }

  lemma {:induction false} InNodeLines(n: Node, k: nat, c: char)
    requires k < |Units.NodeLines(n)| && c in Units.NodeLines(n)[k] && c != '\n'
    ensures c in NodePlain(n)
    decreases n, 1
  {
    hide Units.ForestText, Units.ForestLines, PlainText, Units.ItemHead;
    if n.tag in {"p", "h3", "h4"} {
      InForestText(n.kids, c);
    } else if n.tag == "li" && Units.ItemHead(n.kids) != [] {
      if k == 0 {
        InHead(n.kids, c);
      } else {
        InLines(n.kids, k - 1, c);
      }
    } else {
      InLines(n.kids, k, c);
    }
  }

  lemma {:induction false} InHead(kids: seq<Node>, c: char)
    requires c in Units.ForestText(Units.ItemHead(kids)) && c != '\n'
    ensures c in PlainText(kids)
    decreases kids, 1
  {
    hide Units.NodeText, NodePlain, PlainText;
    HeadIsFront(kids);
    var h := Units.ItemHead(kids);
    assert kids == h + kids[|h|..];
    Units.ForestTextConcat(h, kids[|h|..]);
    InForestText(kids, c);
  }

  lemma {:induction false} HeadIsFront(kids: seq<Node>)
    ensures Units.ItemHead(kids) <= kids
  {
    if kids != [] && !Units.ListNode(kids[0]) { HeadIsFront(kids[1..]); }
  }
}
