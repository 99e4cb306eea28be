// What the reader returns on any text at all (apps/admin-web/src/lib/richtext.ts:47-62, 143-220): only
// whitelisted elements, checked links, no link in a link, no block in a paragraph or heading, no item
// directly in an item, nesting at most 32. Together with RoundTrip this says exactly which forests it returns.

module ReaderSafety {
  import opened Base
  import opened Markup
  import opened Reader
  import opened RoundTrip

  /** The stack the loop keeps: every open element may stand where it stands, and its children so far are good. */
  predicate WellOpen(st: Stack, url: string -> bool)
    decreases |st|
  {
    && GoodAll(Top(st).kids, Top(st).tag, HasLink(st), |st| - 1, url)
    && (if |st| == 1 then Top(st).tag == ""
        else
          var rest: Stack := st[..|st|-1];
          && WellOpen(rest, url) && Top(st).tag != "br"
          && Fits(Top(st).tag, Top(rest).tag, |rest| - 1) && LinkOk(Top(st).tag, Top(st).href, HasLink(rest), url))
  }

  lemma {:induction false} GoodSnoc(f: seq<Node>, n: Node, parent: string, inLink: bool, depth: nat, url: string -> bool)
    requires GoodAll(f, parent, inLink, depth, url) && Good(n, parent, inLink, depth, url)
    requires EndsInText(f) ==> !n.Text?
    ensures GoodAll(f + [n], parent, inLink, depth, url)
  {
    hide Good;
    if f == [] {
      assert f + [n] == [n] && [n][1..] == [];
    } else {
      GoodSnoc(f[1..], n, parent, inLink, depth, url);
      assert (f + [n])[1..] == f[1..] + [n];
    }
  }

  lemma {:induction false} GoodInit(f: seq<Node>, parent: string, inLink: bool, depth: nat, url: string -> bool)
    requires f != [] && GoodAll(f, parent, inLink, depth, url)
    ensures GoodAll(f[..|f|-1], parent, inLink, depth, url)
    ensures EndsInText(f) ==> !EndsInText(f[..|f|-1])
  {
    hide Good;
    if |f| > 1 {
      GoodInit(f[1..], parent, inLink, depth, url);
      assert f[..|f|-1][1..] == f[1..][..|f|-2];
    }
  }

  lemma {:induction false} SetTopWell(st: Stack, kids: seq<Node>, url: string -> bool)
    requires WellOpen(st, url) && GoodAll(kids, Top(st).tag, HasLink(st), |st| - 1, url)
    ensures WellOpen(SetTop(st, kids), url)
  {
    hide GoodAll, Fits, LinkOk;
    var st2 := SetTop(st, kids);
    assert st2[..|st|-1] == st[..|st|-1];
    assert HasLink(st2) == HasLink(st) by { SetTopLink(st, kids); }
  }

  lemma {:induction false} SetTopLink(st: Stack, kids: seq<Node>)
    ensures HasLink(SetTop(st, kids)) == HasLink(st) && Top(SetTop(st, kids)).tag == Top(st).tag
  {
    var st2 := SetTop(st, kids);
    assert forall k :: 0 <= k < |st| ==> st2[k].tag == st[k].tag;
  }

  lemma {:induction false} TextWell(st: Stack, t: string, url: string -> bool)
    requires WellOpen(st, url)
    ensures WellOpen(AddText(st, t), url)
  {
    hide GoodAll, WellOpen;
    if t != "" {
      var kids := Top(st).kids;
      var p, l, d := Top(st).tag, HasLink(st), |st| - 1;
      WellKids(st, url);
      if EndsInText(kids) {
        GoodInit(kids, p, l, d, url);
        var n := Text(kids[|kids|-1].text + t);
        GoodSnoc(kids[..|kids|-1], n, p, l, d, url);
        assert kids[..|kids|-1] + [n] == kids[|kids|-1 := n];
        SetTopWell(st, kids[|kids|-1 := n], url);
      } else {
        GoodSnoc(kids, Text(t), p, l, d, url);
        SetTopWell(st, kids + [Text(t)], url);
      }
    }
  }

  lemma {:induction false} WellKids(st: Stack, url: string -> bool)
    requires WellOpen(st, url)
    ensures GoodAll(Top(st).kids, Top(st).tag, HasLink(st), |st| - 1, url)
  {}

  lemma {:induction false} KidWell(st: Stack, n: Node, url: string -> bool)
    requires WellOpen(st, url) && n.Elem? && Good(n, Top(st).tag, HasLink(st), |st| - 1, url)
    ensures WellOpen(AddKid(st, n), url)
  {
    hide GoodAll, WellOpen, Good;
    WellKids(st, url);
    GoodSnoc(Top(st).kids, n, Top(st).tag, HasLink(st), |st| - 1, url);
    SetTopWell(st, Top(st).kids + [n], url);
  }

  /** What is known of the innermost element and of the stack below it. */
  lemma {:induction false} WellTop(st: Stack, url: string -> bool)
    requires WellOpen(st, url) && |st| > 1
    ensures var rest: Stack := st[..|st|-1]; var f := Top(st);
            && WellOpen(rest, url) && f.tag != "br" && Fits(f.tag, Top(rest).tag, |rest| - 1)
            && LinkOk(f.tag, f.href, HasLink(rest), url)
            && GoodAll(f.kids, f.tag, HasLink(rest) || f.tag == "a", |rest|, url)
  {
    hide GoodAll, Fits, LinkOk, HasLink;
    var rest: Stack := st[..|st|-1];
    Pushed(rest, Top(st));
    assert rest + [Top(st)] == st;
  }

  lemma {:induction false} PopWell(st: Stack, url: string -> bool)
    requires WellOpen(st, url) && |st| > 1
    ensures WellOpen(Pop(st), url)
  {
    hide GoodAll, Fits, LinkOk, HasLink, WellOpen;
    WellTop(st, url);
    var f := Top(st);
    KidWell(st[..|st|-1], Elem(f.tag, f.href, f.kids), url);
  }

  lemma {:induction false} PopToWell(st: Stack, n: nat, url: string -> bool)
    requires WellOpen(st, url) && 1 <= n <= |st|
    ensures WellOpen(PopTo(st, n), url)
    decreases |st|
  {
    hide WellOpen;
    if |st| > n {
      PopWell(st, url);
      PopToWell(Pop(st), n, url);
    }
  }

  /** Closing elements changes nothing below them but the children of the innermost one left. */
  lemma {:induction false} PopToTags(st: Stack, n: nat)
    requires 1 <= n <= |st|
    ensures forall k :: 0 <= k < n ==> PopTo(st, n)[k].tag == st[k].tag
    decreases |st|
  {
    if |st| > n {
      PopToTags(Pop(st), n);
      assert forall k :: 0 <= k < |st| - 1 ==> Pop(st)[k].tag == st[k].tag;
    }
  }

  /** An open link stands in no other open link. */
  lemma {:induction false} LinkAlone(st: Stack, k: nat, url: string -> bool)
    requires WellOpen(st, url) && k < |st| && st[k].tag == "a"
    ensures forall j :: 0 <= j < k ==> st[j].tag != "a"
    decreases |st|
  {
    hide GoodAll, Fits, HasLink;
    if |st| > 1 {
      WellTop(st, url);
      var rest: Stack := st[..|st|-1];
      if k < |st| - 1 {
        LinkAlone(rest, k, url);
        assert forall j :: 0 <= j < k ==> rest[j] == st[j];
      } else {
        assert !HasLink(rest);
        NoLinkBelow(rest);
        assert forall j :: 0 <= j < k ==> rest[j] == st[j];
      }
    }
  }

  lemma {:induction false} NoLinkBelow(st: Stack)
    requires !HasLink(st)
    ensures forall j :: 0 <= j < |st| ==> st[j].tag != "a"
  {}

  lemma {:induction false} CloseWell(st: Stack, name: string, url: string -> bool)
    requires WellOpen(st, url)
    ensures WellOpen(CloseTo(st, name), url) && |CloseTo(st, name)| <= |st|
    ensures name == "a" ==> !HasLink(CloseTo(st, name))
  {
    hide WellOpen, GoodAll;
    var k := OpenIndex(st, name);
    if k > 0 {
      PopToWell(st, k, url);
      PopToTags(st, k);
      if name == "a" { LinkAlone(st, k, url); }
    } else if name == "a" {
      RootTag(st, url);
    }
  }

  lemma {:induction false} RootTag(st: Stack, url: string -> bool)
    requires WellOpen(st, url)
    ensures st[0].tag == ""
    decreases |st|
  {
    hide GoodAll, Fits, LinkOk, HasLink;
    if |st| > 1 { RootTag(st[..|st|-1], url); }
  }

  /** After the pops a start tag causes, its element may stand on top. */
  lemma {:induction false} UnnestWell(st: Stack, name: string, url: string -> bool)
    requires WellOpen(st, url) && (name in ART_TAGS || name == "a") && name != "br" && |st| <= MAX_DEPTH
    ensures var r := Unnest(st, name);
            WellOpen(r, url) && Fits(name, Top(r).tag, |r| - 1) && (name == "a" ==> !HasLink(r))
  {
    hide WellOpen, GoodAll, LinkOk, HasLink;
    RootTag(st, url);
    if Top(st).tag in TEXT_BLOCKS || Top(st).tag == "li" {
      assert |st| > 1;
      WellTop(st, url);
      PopWell(st, url);
      assert Top(Pop(st)).tag == Top(st[..|st|-1]).tag;
    }
    if name == "a" { CloseWell(st, "a", url); }
  }

  lemma {:induction false} TrimmedEnds(s: string)
    ensures TrimRight(s, IsSpace) <= s
    ensures TrimRight(s, IsSpace) == "" || !IsSpace(TrimRight(s, IsSpace)[|TrimRight(s, IsSpace)|-1])
  {
    hide IsSpace;
    if s != [] && IsSpace(s[|s|-1]) { TrimmedEnds(s[..|s|-1]); }
  }

  lemma {:induction false} TrimmedStart(s: string)
    ensures TrimLeft(s, IsSpace) == "" || !IsSpace(TrimLeft(s, IsSpace)[0])
  {
    hide IsSpace;
    if s != [] && IsSpace(s[0]) { TrimmedStart(s[1..]); }
  }

  lemma {:induction false} TrimIdempotent(s: string)
    ensures Trim(Trim(s)) == Trim(s)
  {
    hide IsSpace;
    TrimmedStart(s);
    TrimmedEnds(TrimLeft(s, IsSpace));
    var t := Trim(s);
    if t != "" { assert t[0] == TrimLeft(s, IsSpace)[0]; }
  }

  lemma {:induction false} SafeHrefFixed(raw: Option<string>, url: string -> bool)
    ensures var h := SafeHref(raw, url); h.Some? ==> SafeHref(h, url) == h
  {
    hide Trim, HasScheme, HrefCharRefused;
    if raw.Some? { TrimIdempotent(raw.value); }
  }

  lemma {:induction false} OpenWell(st: Stack, name: string, attrs: map<string, string>, url: string -> bool)
    requires WellOpen(st, url)
    ensures WellOpen(OpenElement(st, name, attrs, url), url)
  {
    hide WellOpen, SafeHref, HasLink, Unnest;
    if name == "br" {
      KidWell(st, Elem("br", None, []), url);
    } else if (name in ART_TAGS || name == "a") && |st| <= MAX_DEPTH {
      UnnestWell(st, name, url);
      var raw := if "href" in attrs then Some(attrs["href"]) else None;
      SafeHrefFixed(raw, url);
      var href := if name == "a" then SafeHref(raw, url) else None;
      if !(name == "a" && href == None) {
        PushWell(Unnest(st, name), name, href, url);
      }
    }
  }

  lemma {:induction false} PushWell(st: Stack, name: string, href: Option<string>, url: string -> bool)
    requires WellOpen(st, url) && name != "br" && Fits(name, Top(st).tag, |st| - 1) && LinkOk(name, href, HasLink(st), url)
    ensures WellOpen(st + [Frame(name, href, [])], url)
  {
    hide Fits, LinkOk, HasLink;
    var st2: Stack := st + [Frame(name, href, [])];
    assert st2[..|st|] == st;
  }

  lemma {:induction false} BracketWell(s: string, lt: nat, st: Stack, url: string -> bool)
    requires lt < |s| && WellOpen(st, url)
    ensures WellOpen(Bracket(s, lt, st, url).st, url)
  {
    hide WellOpen, TagAt, OpenElement, At, FindStr, Find, RawEnd, AddText;
    TextWell(st, "<", url);
    match TagAt(s, lt)
    case None =>
    case Some(tag) =>
      OpenWell(st, tag.name, tag.attrs, url);
      CloseWell(st, tag.name, url);
  }

  lemma {:induction false} ParseWell(s: string, x: State, url: string -> bool)
    requires x.i <= |s| && WellOpen(x.st, url)
    ensures GoodAll(ParseAt(s, x, url), "", false, 0, url)
    decreases |s| - x.i
  {
    hide WellOpen, Bracket, AddText, DecodeEntities;
    if x.i == |s| {
      PopToWell(x.st, 1, url);
      WellRoot(PopTo(x.st, 1), url);
    } else {
      var lt := Find(s, '<', x.i);
      var t := DecodeEntities(s[x.i..lt]);
      TextWell(x.st, t, url);
      if lt < |s| { BracketWell(s, lt, AddText(x.st, t), url); }
      ParseWell(s, Turn(s, x, url), url);
    }
  }

  lemma {:induction false} WellRoot(st: Stack, url: string -> bool)
    requires WellOpen(st, url) && |st| == 1
    ensures GoodAll(st[0].kids, "", false, 0, url)
  {
    hide GoodAll;
    assert st[0].tag == "";
    assert !HasLink(st);
  }

  /** On any text the reader returns a good forest. */
  lemma {:induction false} ParsedIsGood(s: string, url: string -> bool)
    ensures GoodAll(Parsed(s, url), "", false, 0, url)
  {
    var root: Stack := [Frame("", None, [])];
    hide ParseAt;
    ParseWell(s, State(0, root), url);
  }

  /** The good forests are exactly what the reader can return; reading its own output changes nothing. */
  lemma {:induction false} ReaderImage(f: seq<Node>, url: string -> bool)
    ensures GoodAll(f, "", false, 0, url) <==> exists s :: Parsed(s, url) == f
    ensures GoodAll(f, "", false, 0, url) <==> Parsed(PrintAll(f), url) == f
  {
    hide GoodAll, Parsed, PrintAll;
    if GoodAll(f, "", false, 0, url) {
      ParsePrint(f, url);
    }
    ParsedIsGood(PrintAll(f), url);
    if s :| Parsed(s, url) == f {
      ParsedIsGood(s, url);
    }
  }
}
