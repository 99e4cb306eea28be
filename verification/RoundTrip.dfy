// Reading what was written: the reader applied to the printed text of a forest gives that forest back
// (apps/rich-editor/src/model.ts:140-253 against apps/admin-web/src/lib/richtext.ts:42-220).

module RoundTrip {
  import opened Base
  import opened Markup
  import opened Reader
  import opened Escaping
  import opened TagReading

  /** A link stands in no link and its target passes the check; no other element has a target. */
  predicate LinkOk(tag: string, href: Option<string>, inLink: bool, url: string -> bool) {
    if tag == "a" then !inLink && href.Some? && SafeHref(href, url) == href else href == None
  }

  /** Where an element may stand: nesting at most 32, no block in a paragraph or heading, no item in an item. */
  predicate Fits(tag: string, parent: string, depth: nat) {
    && (tag in ART_TAGS || tag == "a") && depth < MAX_DEPTH
    && (tag in BLOCKS ==> parent !in TEXT_BLOCKS) && (tag == "li" ==> parent != "li")
  }

  /** A tree the reader can return below `parent`, `depth` elements deep. */
  predicate Good(n: Node, parent: string, inLink: bool, depth: nat, url: string -> bool)
    decreases n, 1
  {
    match n
    case Text(t) => t != ""
    case Elem(tag, href, kids) =>
      if tag == "br" then href == None && kids == []
      else Fits(tag, parent, depth) && LinkOk(tag, href, inLink, url)
           && GoodAll(kids, tag, inLink || tag == "a", depth + 1, url)
  }

  /** A forest of such trees in which no two texts are neighbours. */
  predicate GoodAll(f: seq<Node>, parent: string, inLink: bool, depth: nat, url: string -> bool)
    decreases f, 0
  {
    f != [] ==>
      && Good(f[0], parent, inLink, depth, url) && GoodAll(f[1..], parent, inLink, depth, url)
      && (|f| > 1 && f[0].Text? ==> !f[1].Text?)
  }

  predicate HasLink(st: seq<Frame>) {
    exists k :: 0 <= k < |st| && st[k].tag == "a"
  }

  predicate EndsInText(kids: seq<Node>) {
    kids != [] && kids[|kids|-1].Text?
  }

  function Extend(st: Stack, f: seq<Node>): Stack {
    SetTop(st, Top(st).kids + f)
  }

  // ---- one turn of the loop ----

  lemma {:induction false} AtBracket(s: string, i: nat, st: Stack, url: string -> bool)
    requires i < |s| && s[i] == '<'
    ensures Turn(s, State(i, st), url) == Bracket(s, i, st, url)
  {
    hide Bracket, EntityAt;
    FindIs(s, '<', i, i);
    assert s[i..i] == "";
    assert DecodeEntities("") == "";
  }

  lemma {:induction false} TextTurn(s: string, i: nat, st: Stack, url: string -> bool, t: string)
    requires i <= |s| && At(s, i, EscapeText(t)) && t != "" && !EndsInText(Top(st).kids)
    requires var m := i + |EscapeText(t)|; m == |s| || s[m] == '<'
    ensures ParseAt(s, State(i, st), url) == ParseAt(s, State(i + |EscapeText(t)|, Extend(st, [Text(t)])), url)
  {
    hide EscapeText, DecodeEntities, Bracket;
    var e := EscapeText(t);
    var m := i + |e|;
    EscapeClean(t, false);
    assert Escape(t, false) == e;
    forall k | i <= k < m ensures s[k] != '<' { AtChar(s, i, e, k - i); }
    FindIs(s, '<', i, m);
    DecodeUndoesEscape(t);
    assert AddText(st, t) == Extend(st, [Text(t)]);
    if m < |s| { AtBracket(s, m, Extend(st, [Text(t)]), url); }
  }

  lemma {:induction false} NoOpen(st: Stack, name: string)
    requires forall k :: 0 <= k < |st| ==> st[k].tag != name
    ensures OpenIndex(st, name) == 0
  {}

  lemma {:induction false} NotSpecial(s: string, i: nat)
    requires i + 1 < |s| && s[i] == '<' && (IsLetter(s[i+1]) || s[i+1] == '/')
    ensures !At(s, i, "<!--") && s[i+1] != '!' && s[i+1] != '?'
  {
    if At(s, i, "<!--") { AtChar(s, i, "<!--", 1); }
  }

  /** What the start tags of the writer do to the stack. */
  lemma {:induction false} Opens(st: Stack, tag: string, attrs: map<string, string>, href: Option<string>, url: string -> bool)
    requires tag != "br" && Fits(tag, Top(st).tag, |st| - 1) && LinkOk(tag, href, HasLink(st), url)
    requires tag == "a" ==> "href" in attrs && href == Some(attrs["href"])
    ensures OpenElement(st, tag, attrs, url) == st + [Frame(tag, href, [])]
  {
    hide SafeHref;
    if tag == "a" { NoOpen(st, "a"); }
  }

  lemma {:induction false} StartTurn(s: string, i: nat, st: Stack, tag: string, href: Option<string>, url: string -> bool)
    requires i < |s| && At(s, i, StartTag(tag, href)) && tag != "br"
    requires Fits(tag, Top(st).tag, |st| - 1) && LinkOk(tag, href, HasLink(st), url)
    ensures Turn(s, State(i, st), url) == State(i + |StartTag(tag, href)|, st + [Frame(tag, href, [])])
  {
    hide StartTag, At, TagAt, OpenElement, SafeHref, HasLink;
    ArtTagsArePlain(tag);
    match href {
      case None =>
        StartTagReads(s, i, tag);
        StartLength(tag);
        Opens(st, tag, map[], href, url);
      case Some(h) =>
        LinkTagReads(s, i, h);
        Opens(st, tag, map["href" := h], href, url);
    }
    NotSpecial(s, i);
    AtBracket(s, i, st, url);
  }

  lemma {:induction false} StartLength(tag: string)
    ensures |StartTag(tag, None)| == |tag| + 2 && |EndTag(tag)| == |tag| + 3
  {}

  lemma {:induction false} BrTurn(s: string, i: nat, st: Stack, url: string -> bool)
    requires i < |s| && At(s, i, "<br>")
    ensures Turn(s, State(i, st), url) == State(i + 4, Extend(st, [Elem("br", None, [])]))
  {
    hide At, TagAt;
    assert StartTag("br", None) == "<br>";
    ArtTagsArePlain("br");
    StartTagReads(s, i, "br");
    NotSpecial(s, i);
    AtBracket(s, i, st, url);
  }

  lemma {:induction false} Closes(st: Stack, f: Frame)
    requires f.tag in ART_TAGS || f.tag == "a"
    requires f.tag != "br"
    ensures CloseElement(st + [f], f.tag) == Extend(st, [Elem(f.tag, f.href, f.kids)])
  {
    var st2: Stack := st + [f];
    assert OpenIndex(st2, f.tag) == |st|;
    assert st2[..|st|] == st;
    assert PopTo(st2, |st|) == PopTo(Pop(st2), |st|) == Pop(st2);
  }

  lemma {:induction false} EndTurn(s: string, i: nat, st: Stack, f: Frame, url: string -> bool)
    requires i < |s| && At(s, i, EndTag(f.tag))
    requires f.tag in ART_TAGS || f.tag == "a"
    requires f.tag != "br"
    ensures Turn(s, State(i, st + [f]), url) == State(i + |EndTag(f.tag)|, Extend(st, [Elem(f.tag, f.href, f.kids)]))
  {
    hide EndTag, At, TagAt, CloseElement;
    ArtTagsArePlain(f.tag);
    EndTagReads(s, i, f.tag);
    StartLength(f.tag);
    Closes(st, f);
    NotSpecial(s, i);
    AtBracket(s, i, st + [f], url);
  }

  // ---- forests ----

  lemma {:induction false} ParseTurn(s: string, x: State, url: string -> bool)
    requires x.i < |s|
    ensures ParseAt(s, x, url) == ParseAt(s, Turn(s, x, url), url)
  {}

  lemma {:induction false} ExtendTwice(st: Stack, f: seq<Node>, g: seq<Node>)
    ensures Extend(Extend(st, f), g) == Extend(st, f + g)
    ensures Top(Extend(st, f)).tag == Top(st).tag && |Extend(st, f)| == |st| && HasLink(Extend(st, f)) == HasLink(st)
    ensures f != [] ==> EndsInText(Top(Extend(st, f)).kids) == f[|f|-1].Text?
  {
    assert (Top(st).kids + f) + g == Top(st).kids + (f + g);
    var e := Extend(st, f);
    assert forall k :: 0 <= k < |st| ==> e[k].tag == st[k].tag;
  }

  lemma {:induction false} Pushed(st: Stack, f: Frame)
    ensures Top(st + [f]) == f && HasLink(st + [f]) == (HasLink(st) || f.tag == "a")
  {
    var st2 := st + [f];
    assert st2[|st|] == f;
    if HasLink(st) { var k :| 0 <= k < |st| && st[k].tag == "a"; assert st2[k].tag == "a"; }
  }

  lemma {:induction false} PrintsTag(n: Node)
    requires n.Elem?
    ensures Print(n) != "" && Print(n)[0] == '<'
  {
    hide EscapeAttr, PrintAll;
  }

  /** The text of a forest that starts with an element starts with "<". */
  lemma {:induction false} PrintsBracket(s: string, i: nat, f: seq<Node>)
    requires f != [] && f[0].Elem? && At(s, i, PrintAll(f))
    ensures i < |s| && s[i] == '<'
  {
    hide Print;
    AtSplit(s, i, Print(f[0]), PrintAll(f[1..]));
    PrintsTag(f[0]);
    AtChar(s, i, Print(f[0]), 0);
    AtFits(s, i, Print(f[0]));
  }

  /** What may stand after a printed forest that ends in a text. */
  predicate Stops(s: string, j: nat, f: seq<Node>) {
    f != [] && f[|f|-1].Text? ==> j == |s| || (j < |s| && s[j] == '<')
  }

  /** Where the parts of a printed element stand. */
  lemma {:induction false} ElemParts(s: string, i: nat, n: Node)
    requires n.Elem? && n.tag != "br" && At(s, i, Print(n))
    ensures var a, k, b := |StartTag(n.tag, n.href)|, |PrintAll(n.kids)|, |EndTag(n.tag)|;
            && |Print(n)| == a + k + b
            && i < |s| && At(s, i, StartTag(n.tag, n.href)) && i + a <= |s| && At(s, i + a, PrintAll(n.kids))
            && i + a + k < |s| && s[i+a+k] == '<' && At(s, i + a + k, EndTag(n.tag))
  {
    hide StartTag, EndTag, At, PrintAll;
    var a, k, b := StartTag(n.tag, n.href), PrintAll(n.kids), EndTag(n.tag);
    AtSplit(s, i, a + k, b);
    AtSplit(s, i, a, k);
    AtFits(s, i + |a| + |k|, b);
    EndBracket(n.tag);
    AtChar(s, i + |a| + |k|, b, 0);
  }

  /** From the start tag to the first child. */
  lemma {:induction false} ElemOpens(s: string, i: nat, n: Node, st: Stack, url: string -> bool)
    requires n.Elem? && n.tag != "br" && i < |s| && At(s, i, StartTag(n.tag, n.href))
    requires i + |StartTag(n.tag, n.href)| <= |s|
    requires Good(n, Top(st).tag, HasLink(st), |st| - 1, url)
    ensures ParseAt(s, State(i, st), url)
         == ParseAt(s, State(i + |StartTag(n.tag, n.href)|, st + [Frame(n.tag, n.href, [])]), url)
  {
    hide StartTag, At, Turn, ParseAt, HasLink, Fits, LinkOk;
    StartTurn(s, i, st, n.tag, n.href, url);
    ParseTurn(s, State(i, st), url);
  }

  /** From the end tag on. */
  lemma {:induction false} ElemCloses(s: string, j: nat, n: Node, st: Stack, url: string -> bool)
    requires n.Elem? && n.tag != "br" && j < |s| && At(s, j, EndTag(n.tag)) && j + |EndTag(n.tag)| <= |s|
    requires Good(n, Top(st).tag, HasLink(st), |st| - 1, url)
    ensures ParseAt(s, State(j, st + [Frame(n.tag, n.href, n.kids)]), url)
         == ParseAt(s, State(j + |EndTag(n.tag)|, Extend(st, [n])), url)
  {
    hide EndTag, At, Turn, ParseAt, HasLink, Fits, LinkOk, Extend;
    var g := Frame(n.tag, n.href, n.kids);
    TagAllowed(n.tag, Top(st).tag, |st| - 1);
    EndTurn(s, j, st, g, url);
    ParseTurn(s, State(j, st + [g]), url);
    assert Elem(n.tag, n.href, n.kids) == n;
  }

  lemma {:induction false} GoodKids(n: Node, st: Stack, url: string -> bool)
    requires n.Elem? && n.tag != "br" && Good(n, Top(st).tag, HasLink(st), |st| - 1, url)
    ensures var st2: Stack := st + [Frame(n.tag, n.href, [])];
            GoodAll(n.kids, Top(st2).tag, HasLink(st2), |st2| - 1, url) && !EndsInText(Top(st2).kids)
    ensures Extend(st + [Frame(n.tag, n.href, [])], n.kids) == st + [Frame(n.tag, n.href, n.kids)]
  {
    hide HasLink, Fits, LinkOk;
    Pushed(st, Frame(n.tag, n.href, []));
    Filled(st, Frame(n.tag, n.href, []), n.kids);
  }

  lemma {:induction false} GoodBr(n: Node, parent: string, inLink: bool, depth: nat, url: string -> bool)
    requires n.Elem? && n.tag == "br" && Good(n, parent, inLink, depth, url)
    ensures n == Elem("br", None, [])
  {}

  lemma {:induction false} ReadsElem(s: string, i: nat, n: Node, st: Stack, url: string -> bool)
    requires n.Elem? && i <= |s| && At(s, i, Print(n)) && i + |Print(n)| <= |s|
    requires Good(n, Top(st).tag, HasLink(st), |st| - 1, url)
    ensures ParseAt(s, State(i, st), url) == ParseAt(s, State(i + |Print(n)|, Extend(st, [n])), url)
    decreases n, 0
  {
    hide *;
    if n.tag == "br" {
      GoodBr(n, Top(st).tag, HasLink(st), |st| - 1, url);
      ReadsBr(s, i, st, n, url);
    } else {
      ElemParts(s, i, n);
      var a, k := |StartTag(n.tag, n.href)|, |PrintAll(n.kids)|;
      ElemOpens(s, i, n, st, url);
      GoodKids(n, st, url);
      StopsAtBracket(s, i + a + k, n.kids);
      ReadsAll(s, i + a, n.kids, st + [Frame(n.tag, n.href, [])], url);
      ElemCloses(s, i + a + k, n, st, url);
    }
  }

  lemma {:induction false} TagAllowed(tag: string, parent: string, depth: nat)
    requires Fits(tag, parent, depth)
    ensures tag in ART_TAGS || tag == "a"
  {}

  lemma {:induction false} StopsAtBracket(s: string, j: nat, f: seq<Node>)
    requires j < |s| && s[j] == '<'
    ensures Stops(s, j, f)
  {}

  lemma {:induction false} Filled(st: Stack, f: Frame, kids: seq<Node>)
    requires f.kids == []
    ensures Extend(st + [f], kids) == st + [f.(kids := kids)]
    ensures !EndsInText(Top(st + [f]).kids)
  {
    assert [] + kids == kids;
  }

  lemma {:induction false} ReadsBr(s: string, i: nat, st: Stack, n: Node, url: string -> bool)
    requires n == Elem("br", None, []) && i <= |s| && At(s, i, Print(n))
    ensures ParseAt(s, State(i, st), url) == ParseAt(s, State(i + |Print(n)|, Extend(st, [n])), url)
  {
    hide ParseAt, Turn, Extend, At;
    AtFits(s, i, "<br>");
    BrTurn(s, i, st, url);
    ParseTurn(s, State(i, st), url);
  }

  lemma {:induction false} EndBracket(tag: string)
    ensures EndTag(tag) != "" && EndTag(tag)[0] == '<'
  {}

  /** Where the parts of a printed forest stand. */
  lemma {:induction false} ForestParts(s: string, i: nat, f: seq<Node>)
    requires f != [] && At(s, i, PrintAll(f)) && Stops(s, i + |PrintAll(f)|, f)
    ensures |PrintAll(f)| == |Print(f[0])| + |PrintAll(f[1..])|
    ensures At(s, i, Print(f[0])) && i + |Print(f[0])| <= |s| && At(s, i + |Print(f[0])|, PrintAll(f[1..]))
    ensures Stops(s, i + |PrintAll(f)|, f[1..])
    ensures f[0].Text? && (|f| > 1 ==> !f[1].Text?) ==>
              var m := i + |Print(f[0])|; m == |s| || s[m] == '<'
  {
    hide Print;
    AtSplit(s, i, Print(f[0]), PrintAll(f[1..]));
    AtFits(s, i, Print(f[0]));
    if |f| > 1 && !f[1].Text? { PrintsBracket(s, i + |Print(f[0])|, f[1..]); }
  }

  /** Reading a printed forest adds it to the children of the open element. */
  lemma {:induction false} ReadsAll(s: string, i: nat, f: seq<Node>, st: Stack, url: string -> bool)
    requires i <= |s| && At(s, i, PrintAll(f)) && Stops(s, i + |PrintAll(f)|, f)
    requires GoodAll(f, Top(st).tag, HasLink(st), |st| - 1, url)
    requires f != [] && f[0].Text? ==> !EndsInText(Top(st).kids)
    ensures ParseAt(s, State(i, st), url) == ParseAt(s, State(i + |PrintAll(f)|, Extend(st, f)), url)
    decreases f, 1
  {
    hide At, ParseAt, Print, PrintAll, EscapeText, HasLink, EndsInText, Extend, Stops, Fits, LinkOk;
    if f == [] {
      ExtendNothing(st);
      EmptyText();
    } else {
      var n := f[0];
      ForestParts(s, i, f);
      GoodHead(f, st, url);
      hide *;
      if n.Text? {
        PrintText(n);
        TextTurn(s, i, st, url, n.text);
      } else {
        ReadsElem(s, i, n, st, url);
      }
      ReadsAll(s, i + |Print(n)|, f[1..], Extend(st, [n]), url);
    }
  }

  lemma {:induction false} EmptyText()
    ensures PrintAll([]) == ""
  {}

  lemma {:induction false} PrintText(n: Node)
    requires n.Text?
    ensures Print(n) == EscapeText(n.text) && n == Text(n.text)
  {}

  /** The first tree of a good forest, and what is left of it beside that tree. */
  lemma {:induction false} GoodHead(f: seq<Node>, st: Stack, url: string -> bool)
    requires f != [] && GoodAll(f, Top(st).tag, HasLink(st), |st| - 1, url)
    ensures Good(f[0], Top(st).tag, HasLink(st), |st| - 1, url)
    ensures f[0].Text? ==> f[0].text != "" && (|f| > 1 ==> !f[1].Text?)
    ensures var st2 := Extend(st, [f[0]]);
            && GoodAll(f[1..], Top(st2).tag, HasLink(st2), |st2| - 1, url)
            && (f[1..] != [] && f[1..][0].Text? ==> !EndsInText(Top(st2).kids))
            && Extend(st2, f[1..]) == Extend(st, f)
  {
    hide HasLink, EndsInText, Extend, Fits, LinkOk;
    ExtendTwice(st, [f[0]], f[1..]);
    assert [f[0]] + f[1..] == f;
  }

  lemma {:induction false} ExtendNothing(st: Stack)
    ensures Extend(st, []) == st
  {
    assert Top(st).kids + [] == Top(st).kids;
  }

  /** The reader gives back every forest it could itself have returned from its printed text. */
  lemma {:induction false} ParsePrint(f: seq<Node>, url: string -> bool)
    requires GoodAll(f, "", false, 0, url)
    ensures Parsed(PrintAll(f), url) == f
  {
    var s := PrintAll(f);
    hide PrintAll, ParseAt, GoodAll;
    var root: Stack := [Frame("", None, [])];
    assert s[0..|s|] == s;
    assert !HasLink(root) && Top(root).tag == "" && !EndsInText(Top(root).kids);
    ReadsAll(s, 0, f, root, url);
    RootDone(s, f, url);
  }

  lemma {:induction false} RootDone(s: string, f: seq<Node>, url: string -> bool)
    ensures ParseAt(s, State(|s|, Extend([Frame("", None, [])], f)), url) == f
  {
    assert [] + f == f;
    var root: Stack := [Frame("", None, f)];
    assert PopTo(root, 1) == root;
  }
}
