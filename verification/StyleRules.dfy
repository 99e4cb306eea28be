// The renamed string scans into the renamed tokens, so renaming twice is renaming once, and a string without the word
// "style" is left alone (apps/rich-editor/src/sanitize.ts:362-440).

module StyleRules {
  import opened Base
  import opened R = Reader
  import opened StyleModel

  // ---- after a name ----

  lemma {:induction false} HasValueSpace(c: char, s: string)
    requires IsAttrSpace(c)
    ensures HasValue([c] + s) <==> HasValue(s)
  {
    var k := Skip(s, 0, IsAttrSpace);
    var q := [c] + s;
    forall i | 0 <= i <= k ensures q[i] == if i == 0 then c else s[i-1] {}
    SkipTo(q, 0, k + 1, IsAttrSpace);
  }

  lemma {:induction false} HasValueHead(s: string)
    requires s == "" || !IsAttrSpace(s[0])
    ensures HasValue(s) <==> s != "" && s[0] == '='
  {}

  /** Names are renamed, but no name becomes an equals sign or a space: what had no value has none. */
  lemma {:induction false} NoValueStill(tag: string, s: string)
    requires !HasValue(s)
    ensures !HasValue(Output(Attrs(tag), s))
    decreases |s|
  {
    hide Output, HasValue, Skip, Lower;
    if s != "" && IsAttrSpace(s[0]) {
      assert s == [s[0]] + s[1..];
      HasValueSpace(s[0], s[1..]);
      NoValueStill(tag, s[1..]);
      OutputHead(Attrs(tag), s, Sep(s[0]), Attrs(tag), s[1..]);
      HasValueSpace(s[0], Output(Attrs(tag), s[1..]));
    } else {
      HasValueHead(s);
      if s == "" || !AttrNameChar(s[0]) {
        AttrsHead(tag, s);
      } else {
        var n := Skip(s, 1, AttrNameChar);
        OutputHead(Attrs(tag), s, Name(s[..n]), AfterName(tag), s[n..]);
        RenamedHead(s[..n]);
      }
      HasValueHead(Output(Attrs(tag), s));
    }
  }

  /** A renamed name is still a name. */
  lemma {:induction false} RenamedHead(t: string)
    requires t != "" && TagNameChar(t[0])
    ensures var r := Shown(Renamed(Name(t))); r != "" && TagNameChar(r[0]) && (t[0] != '=' ==> r[0] != '=')
  {
    hide Lower;
  }

  lemma {:induction false} RenamedName(t: string)
    requires t != "" && TagNameChar(t[0]) && forall k :: 1 <= k < |t| ==> AttrNameChar(t[k])
    ensures Renamed(Name(t)).Name?
    ensures var r := Renamed(Name(t)).s; r != "" && TagNameChar(r[0]) && forall k :: 1 <= k < |r| ==> AttrNameChar(r[k])
  {
    hide Lower;
    assert forall k :: 0 <= k < |STYLE_ATTR| ==> 'a' <= STYLE_ATTR[k] <= 'z' || STYLE_ATTR[k] == '-';
  }

  /** After a name the delimiter stays in front. */
  lemma {:induction false} AfterHead(tag: string, s: string)
    requires s == "" || !AttrNameChar(s[0])
    ensures Output(AfterName(tag), s) == "" || !AttrNameChar(Output(AfterName(tag), s)[0])
  {
    hide Output, Skip, Lower, HasValue, ValueEnd, IsAttrSpace;
    if HasValue(s) {
      ValueNonempty(s);
      OutputHead(AfterName(tag), s, Assigned(s[..ValueEnd(s)]), Attrs(tag), s[ValueEnd(s)..]);
    } else {
      SameOutput(AfterName(tag), s, Attrs(tag), s);
      AttrsHead(tag, s);
      HasValueEquals(s);
    }
  }

  lemma {:induction false} HasValueEquals(s: string)
    requires !HasValue(s)
    ensures s == "" || s[0] != '='
  {}

  lemma {:induction false} ValueNonempty(s: string)
    requires HasValue(s)
    ensures 0 < ValueEnd(s) <= |s| && s != ""
  {}

  // ---- the main theorem, case by case ----

  lemma {:induction false} RescanContent(s: string)
    requires s != ""
    ensures Scan(Content, Output(Content, s)) == AllRenamed(Scan(Content, s))
    decreases |s|, 1
  {
    hide Output, Scan, Skip, FindStr, Lower, CommentAt, StartTagAt, CommentEnd;
    if s[0] != '<' {
      var n := Find(s, '<', 0);
      ContentPlain(s);
      OutputHead(Content, s, Plain(s[..n]), Content, s[n..]);
      Rescan(Content, s[n..]);
      if n < |s| { LtHead(s[n..]); } else { NothingOut(); }
      PlainAgain(s[..n], Output(Content, s[n..]));
    } else if CommentAt(s) {
      var n := CommentEnd(s);
      CommentNonempty(s);
      ContentComment(s);
      OutputHead(Content, s, Comment(s[..n]), Content, s[n..]);
      Rescan(Content, s[n..]);
      NothingOut();
      CommentAgain(s, Output(Content, s[n..]));
    } else if !StartTagAt(s) {
      ContentLt(s);
      OutputHead(Content, s, Lt, Content, s[1..]);
      Rescan(Content, s[1..]);
      LtAgain(s);
    } else {
      RescanOpen(s);
    }
  }

  lemma {:induction false} ContentPlain(s: string)
    requires s != "" && s[0] != '<'
    ensures var n := Find(s, '<', 0); n > 0 && Scan(Content, s) == [Plain(s[..n])] + Scan(Content, s[n..])
  {}

  lemma {:induction false} ContentComment(s: string)
    requires CommentAt(s)
    ensures s != "" && Scan(Content, s) == [Comment(s[..CommentEnd(s)])] + Scan(Content, s[CommentEnd(s)..])
  {
    hide CommentEnd;
    CommentIs(s);
    CommentNonempty(s);
  }

  lemma {:induction false} ContentLt(s: string)
    requires s != "" && s[0] == '<' && !CommentAt(s) && !StartTagAt(s)
    ensures Scan(Content, s) == [Lt] + Scan(Content, s[1..])
  {}

  lemma {:induction false} ContentOpen(s: string)
    requires StartTagAt(s)
    ensures var n := Skip(s, 1, TagNameChar);
            !CommentAt(s) && n > 1 && Scan(Content, s) == [Open(s[..n])] + Scan(Attrs(Lower(s[1..n])), s[n..])
  {
    hide Lower;
    CommentIs(s);
    assert TagNameChar(s[1]);
  }

  lemma {:induction false} RescanOpen(s: string)
    requires StartTagAt(s) && s != ""
    ensures Scan(Content, Output(Content, s)) == AllRenamed(Scan(Content, s))
    decreases |s|, 0
  {
    hide Output, Scan, Lower;
    var n := Skip(s, 1, TagNameChar);
    ContentOpen(s);
    var t, tag, rest := s[..n], Lower(s[1..n]), s[n..];
    assert t[1..] == s[1..n];
    OutputHead(Content, s, Open(t), Attrs(tag), rest);
    Rescan(Attrs(tag), rest);
    AttrsHead(tag, rest);
    OpenAgain(t, Output(Attrs(tag), rest));
  }

  lemma {:induction false} AttrsEnd(tag: string, s: string)
    requires s == "" || s[0] == '>'
    ensures Scan(Attrs(tag), s) == Scan(Body(tag), s)
  {}

  lemma {:induction false} AttrsSep(tag: string, s: string)
    requires s != "" && (IsAttrSpace(s[0]) || s[0] == '/')
    ensures Scan(Attrs(tag), s) == [Sep(s[0])] + Scan(Attrs(tag), s[1..])
  {}

  lemma {:induction false} AttrsName(tag: string, s: string)
    requires s != "" && TagNameChar(s[0])
    ensures var n := Skip(s, 1, AttrNameChar); n > 0 && Scan(Attrs(tag), s) == [Name(s[..n])] + Scan(AfterName(tag), s[n..])
  {}

  lemma {:induction false} RescanAttrs(tag: string, s: string)
    ensures Scan(Attrs(tag), Output(Attrs(tag), s)) == AllRenamed(Scan(Attrs(tag), s))
    decreases |s|, 5
  {
    hide Output, Scan, Lower, IsAttrSpace, Renamed;
    if s == "" || s[0] == '>' {
      AttrsEnd(tag, s);
      SameOutput(Attrs(tag), s, Body(tag), s);
      BodyHead(tag, s);
      Rescan(Body(tag), s);
      AttrsEnd(tag, Output(Body(tag), s));
    } else if !TagNameChar(s[0]) {
      AttrsSep(tag, s);
      OutputHead(Attrs(tag), s, Sep(s[0]), Attrs(tag), s[1..]);
      Rescan(Attrs(tag), s[1..]);
      SepAgain(tag, s[0], Output(Attrs(tag), s[1..]));
    } else {
      var n := Skip(s, 1, AttrNameChar);
      AttrsName(tag, s);
      OutputHead(Attrs(tag), s, Name(s[..n]), AfterName(tag), s[n..]);
      Rescan(AfterName(tag), s[n..]);
      AfterHead(tag, s[n..]);
      RenamedName(s[..n]);
      NameAgain(Renamed(Name(s[..n])).s, Output(AfterName(tag), s[n..]), tag);
    }
  }

  lemma {:induction false} SepAgain(tag: string, c: char, o: string)
    requires IsAttrSpace(c) || c == '/'
    ensures Shown(Renamed(Sep(c))) == [c] && Renamed(Sep(c)) == Sep(c)
    ensures Scan(Attrs(tag), [c] + o) == [Sep(c)] + Scan(Attrs(tag), o)
  {
    AttrsSep(tag, [c] + o);
    assert ([c] + o)[1..] == o;
  }

  lemma {:induction false} AfterValue(tag: string, s: string)
    requires HasValue(s)
    ensures Scan(AfterName(tag), s) == [Assigned(s[..ValueEnd(s)])] + Scan(Attrs(tag), s[ValueEnd(s)..])
  {}

  lemma {:induction false} AfterNothing(tag: string, s: string)
    requires !HasValue(s)
    ensures Scan(AfterName(tag), s) == Scan(Attrs(tag), s)
  {}

  /** An unquoted value ends at a space or ">". */
  lemma {:induction false} BareStops(s: string)
    requires HasValue(s) && !Quoted(s) && ValueEnd(s) < |s|
    ensures !BareValueChar(s[ValueEnd(s)]) && s[ValueEnd(s)] != '='
  {
    hide Find;
  }

  lemma {:induction false} RescanAfter(tag: string, s: string)
    ensures Scan(AfterName(tag), Output(AfterName(tag), s)) == AllRenamed(Scan(AfterName(tag), s))
    decreases |s|, 7
  {
    hide Output, Scan, HasValue, ValueEnd, Quoted, IsAttrSpace;
    if HasValue(s) {
      var n := ValueEnd(s);
      ValueNonempty(s);
      AfterValue(tag, s);
      OutputHead(AfterName(tag), s, Assigned(s[..n]), Attrs(tag), s[n..]);
      Rescan(Attrs(tag), s[n..]);
      if !Quoted(s) && n < |s| { BareStops(s); }
      if n == |s| || !Quoted(s) { AttrsHead(tag, s[n..]); }
      ValueAgain(s, Output(Attrs(tag), s[n..]), tag);
    } else {
      AfterNothing(tag, s);
      SameOutput(AfterName(tag), s, Attrs(tag), s);
      NoValueStill(tag, s);
      Rescan(Attrs(tag), s);
      AfterNothing(tag, Output(Attrs(tag), s));
    }
  }

  lemma {:induction false} BodyPlaintext(s: string)
    ensures Scan(Body("plaintext"), s) == RawToken(s)
  {}

  lemma {:induction false} BodyRaw(tag: string, s: string)
    requires tag in RAW_TEXT_TAGS
    ensures var n := RawTextEnd(s, 0, tag); Scan(Body(tag), s) == RawToken(s[..n]) + Scan(Content, s[n..])
  {}

  lemma {:induction false} BodyContent(tag: string, s: string)
    requires tag != "plaintext" && tag !in RAW_TEXT_TAGS
    ensures Scan(Body(tag), s) == Scan(Content, s)
  {}

  lemma {:induction false} RawTokenSame(s: string)
    ensures AllRenamed(RawToken(s)) == RawToken(s) && Flat(RawToken(s)) == s
  {
    if s != "" { OneFlat(Raw(s)); }
  }

  lemma {:induction false} RescanBody(tag: string, s: string)
    ensures Scan(Body(tag), Output(Body(tag), s)) == AllRenamed(Scan(Body(tag), s))
    decreases |s|, 3
  {
    hide Scan, RawToken, RawTextEnd, Flat, AllRenamed;
    if tag == "plaintext" {
      BodyPlaintext(s);
      RawTokenSame(s);
    } else if tag in RAW_TEXT_TAGS {
      var n := RawTextEnd(s, 0, tag);
      var o := Output(Content, s[n..]);
      BodyRaw(tag, s);
      RawTokenSame(s[..n]);
      RenamedConcat(RawToken(s[..n]), Scan(Content, s[n..]));
      FlatConcat(RawToken(s[..n]), AllRenamed(Scan(Content, s[n..])));
      Rescan(Content, s[n..]);
      if n < |s| { RawAgain(s, tag); } else { RawAll(s); }
      BodyRaw(tag, s[..n] + o);
      assert (s[..n] + o)[..n] == s[..n] && (s[..n] + o)[n..] == o;
    } else {
      BodyContent(tag, s);
      Rescan(Content, s);
      BodyContent(tag, Output(Content, s));
      SameOutput(Body(tag), s, Content, s);
    }
  }

  lemma {:induction false} RawAll(s: string)
    ensures s[..|s|] + Output(Content, s[|s|..]) == s
  {
    NothingOut();
  }

  /** The renamed string scans into the same tokens, with only names of attributes called "style" replaced. */
  lemma {:induction false} Rescan(m: Mode, s: string)
    ensures Scan(m, Output(m, s)) == AllRenamed(Scan(m, s))
    decreases |s|, 2 * Order(m) + 2
  {
    hide Output, Scan;
    match m
    case Content => if s == "" { NothingAgain(); } else { RescanContent(s); }
    case Attrs(tag) => RescanAttrs(tag, s);
    case AfterName(tag) => RescanAfter(tag, s);
    case Body(tag) => RescanBody(tag, s);
  }

  lemma {:induction false} NothingAgain()
    ensures Scan(Content, Output(Content, "")) == AllRenamed(Scan(Content, ""))
  {}

  // ---- what follows from it ----

  lemma {:induction false} RenamedTwice(ts: seq<Token>)
    ensures AllRenamed(AllRenamed(ts)) == AllRenamed(ts)
  {
    if ts != [] {
      RenamedTwice(ts[1..]);
      assert ([Renamed(ts[0])] + AllRenamed(ts[1..]))[1..] == AllRenamed(ts[1..]);
      NotStyle();
    }
  }

  lemma {:induction false} NotStyle()
    ensures Lower(STYLE_ATTR) != "style"
  {
    assert |Lower(STYLE_ATTR)| == 16;
  }

  /** Renaming a renamed string changes nothing. */
  lemma {:induction false} RenameTwice(html: string)
    ensures Output(Content, Output(Content, html)) == Output(Content, html)
  {
    hide Scan, AllRenamed, Flat;
    Rescan(Content, html);
    RenamedTwice(Scan(Content, html));
  }

  /** The word "style", in any letter case, stands in `s`. */
  predicate HasStyle(s: string) {
    exists i :: 0 <= i <= |s| && StyleWord(s, i)
  }

  predicate StyleWord(s: string, i: nat) {
    i + 5 <= |s| && Lower(s[i..i+5]) == "style"
  }

  lemma {:induction false} HasStyleIn(a: string, b: string)
    ensures HasStyle(a) || HasStyle(b) ==> HasStyle(a + b)
  {
    hide Lower;
    if HasStyle(a) {
      var i :| 0 <= i <= |a| && StyleWord(a, i);
      assert (a + b)[i..i+5] == a[i..i+5];
      assert StyleWord(a + b, i);
    }
    if HasStyle(b) {
      var i :| 0 <= i <= |b| && StyleWord(b, i);
      assert (a + b)[|a|+i..|a|+i+5] == b[i..i+5];
      assert StyleWord(a + b, |a| + i);
    }
  }

  lemma {:induction false} StyleName(t: string)
    requires Lower(t) == "style"
    ensures HasStyle(t)
  {
    assert |t| == |Lower(t)| == 5;
    assert t[0..5] == t;
    assert StyleWord(t, 0);
  }

  lemma {:induction false} NoStyleTokens(ts: seq<Token>)
    requires !HasStyle(Flat(ts))
    ensures AllRenamed(ts) == ts
  {
    hide HasStyle, Shown, Lower;
    if ts != [] {
      HasStyleIn(Shown(ts[0]), Flat(ts[1..]));
      NoStyleTokens(ts[1..]);
      NameShown(ts[0]);
      assert [ts[0]] + ts[1..] == ts;
    }
  }

  lemma {:induction false} NameShown(t: Token)
    ensures !HasStyle(Shown(t)) ==> Renamed(t) == t
  {
    hide HasStyle, Lower;
    if t.Name? && Lower(t.s) == "style" { StyleName(t.s); }
  }

  /** The early return is right: without the word "style" the scan changes nothing. */
  lemma {:induction false} NoStyleNoChange(html: string)
    requires !HasStyle(html)
    ensures Output(Content, html) == html
  {
    hide HasStyle, Scan, AllRenamed, Flat;
    ScanKeeps(Content, html);
    NoStyleTokens(Scan(Content, html));
  }
}
