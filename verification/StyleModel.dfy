// The renaming of style attributes before the browser parses a pasted string (`renameStyleAttributes`,
// apps/rich-editor/src/sanitize.ts:356-440), as a scan into tokens: only names of attributes of start tags change, and the
// renamed string scans into the same tokens.

module StyleModel {
  import opened Base
  import opened R = Reader

  const STYLE_ATTR := "data-arena-style"

  const RAW_TEXT_TAGS := {"textarea", "title", "xmp", "iframe", "noembed", "noframes", "style", "script"}

  predicate IsTagNameStart(c: char) { 'A' <= c <= 'Z' || 'a' <= c <= 'z' }

  predicate IsAttrSpace(c: char) { c == ' ' || c == '\t' || c == '\n' || c == '\U{c}' || c == '\r' }

  predicate TagNameChar(c: char) { !IsAttrSpace(c) && c != '/' && c != '>' }

  predicate AttrNameChar(c: char) { TagNameChar(c) && c != '=' }

  predicate BareValueChar(c: char) { !IsAttrSpace(c) && c != '>' }

  /** A stretch of the input. */
  datatype Token =
    | Plain(s: string)
    | Comment(s: string)
    | Lt
    | Open(s: string)
    | Sep(c: char)
    | Name(s: string)
    | Assigned(s: string)
    | Raw(s: string)

  function Shown(t: Token): string {
    match t
    case Lt => "<"
    case Sep(c) => [c]
    case Plain(s) => s
    case Comment(s) => s
    case Open(s) => s
    case Name(s) => s
    case Assigned(s) => s
    case Raw(s) => s
  }

  function Flat(ts: seq<Token>): string {
    if ts == [] then "" else Shown(ts[0]) + Flat(ts[1..])
  }

  function Renamed(t: Token): Token {
    if t.Name? && Lower(t.s) == "style" then Name(STYLE_ATTR) else t
  }

  function AllRenamed(ts: seq<Token>): seq<Token> {
    if ts == [] then [] else [Renamed(ts[0])] + AllRenamed(ts[1..])
  }

  /** Where the scan is: in content, among the attributes of a tag, just after an attribute's name, or after the tag. */
  datatype Mode = Content | Attrs(tag: string) | AfterName(tag: string) | Body(tag: string)

  function Order(m: Mode): nat {
    match m case Content => 0 case Body(_) => 1 case Attrs(_) => 2 case AfterName(_) => 3
  }

  function CommentEnd(s: string): (n: nat)
    ensures n <= |s|
  {
    match FindStr(s, "-->", 4) case Some(k) => k + 3 case None => |s|
  }

  /** After spaces, an equals sign. */
  predicate HasValue(s: string) {
    var k := Skip(s, 0, IsAttrSpace); k < |s| && s[k] == '='
  }

  function ValueEnd(s: string): (n: nat)
    requires HasValue(s)
    ensures 0 < n <= |s|
  {
    var k := Skip(s, Skip(s, 0, IsAttrSpace) + 1, IsAttrSpace);
    if k < |s| && (s[k] == '"' || s[k] == '\'') then
      var close := Find(s, s[k], k + 1);
      if close < |s| then close + 1 else |s|
    else Skip(s, k, BareValueChar)
  }

  /** The end tag of `tag` stands at `i`. */
  predicate CloseAt(s: string, i: nat, tag: string) {
    var n := |tag|;
    && i + n + 3 <= |s| && s[i] == '<' && s[i+1] == '/' && Lower(s[i+2..i+2+n]) == tag
    && (IsAttrSpace(s[i+2+n]) || s[i+2+n] == '/' || s[i+2+n] == '>')
  }

  function RawTextEnd(s: string, i: nat, tag: string): (n: nat)
    requires i <= |s|
    ensures i <= n <= |s| && (n < |s| ==> CloseAt(s, n, tag))
    decreases |s| - i
  {
    if i == |s| || CloseAt(s, i, tag) then i else RawTextEnd(s, i + 1, tag)
  }

  predicate CommentAt(s: string) { At(s, 0, "<!--") }

  predicate StartTagAt(s: string) { |s| > 1 && s[0] == '<' && IsTagNameStart(s[1]) }

  function RawToken(s: string): seq<Token> {
    if s == "" then [] else [Raw(s)]
  }

  function Scan(m: Mode, s: string): seq<Token>
    decreases |s|, Order(m)
  {
    match m
    case Content =>
      if s == "" then []
      else if s[0] != '<' then
        var n := Find(s, '<', 0);
        [Plain(s[..n])] + Scan(Content, s[n..])
      else if CommentAt(s) then
        var n := CommentEnd(s);
        CommentNonempty(s);
        [Comment(s[..n])] + Scan(Content, s[n..])
      else if !StartTagAt(s) then [Lt] + Scan(Content, s[1..])
      else
        var n := Skip(s, 1, TagNameChar);
        [Open(s[..n])] + Scan(Attrs(Lower(s[1..n])), s[n..])
    case Attrs(tag) =>
      if s == "" || s[0] == '>' then Scan(Body(tag), s)
      else if IsAttrSpace(s[0]) || s[0] == '/' then [Sep(s[0])] + Scan(m, s[1..])
      else
        var n := Skip(s, 1, AttrNameChar);
        [Name(s[..n])] + Scan(AfterName(tag), s[n..])
    case AfterName(tag) =>
      if HasValue(s) then [Assigned(s[..ValueEnd(s)])] + Scan(Attrs(tag), s[ValueEnd(s)..])
      else Scan(Attrs(tag), s)
    case Body(tag) =>
      if tag == "plaintext" then RawToken(s)
      else if tag in RAW_TEXT_TAGS then
        var n := RawTextEnd(s, 0, tag);
        RawToken(s[..n]) + Scan(Content, s[n..])
      else Scan(Content, s)
  }

  lemma {:induction false} CommentIs(s: string)
    ensures CommentAt(s) <==> |s| >= 4 && s[0] == '<' && s[1] == '!' && s[2] == '-' && s[3] == '-'
  {
    if |s| >= 4 {
      assert s[..4] == [s[0], s[1], s[2], s[3]];
      assert "<!--" == ['<', '!', '-', '-'];
      assert s[0..4] == s[..4];
    }
  }

  lemma {:induction false} CommentNonempty(s: string)
    requires CommentAt(s)
    ensures CommentEnd(s) > 0
  {}

  /** The string after renaming, from a point of the scan on. */
  function Output(m: Mode, s: string): string {
    Flat(AllRenamed(Scan(m, s)))
  }

  // ---- one token at a time ----

  lemma {:induction false} FlatConcat(a: seq<Token>, b: seq<Token>)
    ensures Flat(a + b) == Flat(a) + Flat(b)
  {
    if a == [] {
      assert a + b == b;
    } else {
      FlatConcat(a[1..], b);
      assert (a + b)[1..] == a[1..] + b;
      SeqAssoc(Shown(a[0]), Flat(a[1..]), Flat(b));
    }
  }

  lemma {:induction false} RenamedConcat(a: seq<Token>, b: seq<Token>)
    ensures AllRenamed(a + b) == AllRenamed(a) + AllRenamed(b)
  {
    if a == [] {
      assert a + b == b;
    } else {
      RenamedConcat(a[1..], b);
      assert (a + b)[1..] == a[1..] + b;
      SeqAssoc([Renamed(a[0])], AllRenamed(a[1..]), AllRenamed(b));
    }
  }

  lemma {:induction false} OneFlat(t: Token)
    ensures Flat([t]) == Shown(t) && AllRenamed([t]) == [Renamed(t)]
  {
    assert [t][1..] == [];
    assert Shown(t) + "" == Shown(t);
  }

  /** A scan that begins with token `t`. */
  lemma {:induction false} OutputHead(m: Mode, s: string, t: Token, next: Mode, rest: string)
    requires Scan(m, s) == [t] + Scan(next, rest)
    ensures Output(m, s) == Shown(Renamed(t)) + Output(next, rest)
    ensures AllRenamed(Scan(m, s)) == [Renamed(t)] + AllRenamed(Scan(next, rest))
  {
    hide Scan, Renamed, Shown;
    OneFlat(t);
    OneFlat(Renamed(t));
    RenamedConcat([t], Scan(next, rest));
    FlatConcat([Renamed(t)], AllRenamed(Scan(next, rest)));
  }

  /** The tokens are the input, cut into pieces. */
  lemma {:induction false} ScanKeeps(m: Mode, s: string)
    ensures Flat(Scan(m, s)) == s
    decreases |s|, Order(m)
  {
    hide Scan, Flat;
    var t, next, rest := ScanCase(m, s);
    if t == None {
      if next != m { ScanKeeps(next, s); } else { NothingFlat(); }
    } else {
      ScanKeeps(next, rest);
      FlatConcat([t.value], Scan(next, rest));
      OneFlat(t.value);
    }
  }

  lemma {:induction false} NothingFlat()
    ensures Flat([]) == ""
  {}

  /** One step of the scan: a token off the front, a change of mode, or the end. */
  lemma {:induction false} ScanCase(m: Mode, s: string) returns (t: Option<Token>, next: Mode, rest: string)
    ensures t.Some? ==> Scan(m, s) == [t.value] + Scan(next, rest) && Shown(t.value) != "" && s == Shown(t.value) + rest
    ensures t == None && next != m ==> Scan(m, s) == Scan(next, s) && Order(next) < Order(m) && rest == s
    ensures t == None && next == m ==> s == "" && Scan(m, s) == []
  {
    hide Skip, Find, FindStr, CloseAt, Lower;
    match m
    case Content => t, next, rest := ContentCase(s);
    case Attrs(tag) =>
      if s == "" || s[0] == '>' {
        t, next, rest := None, Body(tag), s;
      } else if IsAttrSpace(s[0]) || s[0] == '/' {
        t, next, rest := Some(Sep(s[0])), m, s[1..];
      } else {
        var n := Skip(s, 1, AttrNameChar);
        t, next, rest := Some(Name(s[..n])), AfterName(tag), s[n..];
      }
    case AfterName(tag) =>
      if HasValue(s) {
        t, next, rest := Some(Assigned(s[..ValueEnd(s)])), Attrs(tag), s[ValueEnd(s)..];
      } else {
        t, next, rest := None, Attrs(tag), s;
      }
    case Body(tag) => t, next, rest := BodyCase(tag, s);
  }

  lemma {:induction false} ContentCase(s: string) returns (t: Option<Token>, next: Mode, rest: string)
    ensures t.Some? ==> Scan(Content, s) == [t.value] + Scan(next, rest) && Shown(t.value) != "" && s == Shown(t.value) + rest
    ensures t == None ==> next == Content && s == "" && Scan(Content, s) == []
  {
    hide Skip, Find, FindStr, Lower, CommentAt, CommentEnd, StartTagAt, TagNameChar;
    if s == "" {
      t, next, rest := None, Content, "";
    } else if s[0] != '<' {
      var n := Find(s, '<', 0);
      t, next, rest := Some(Plain(s[..n])), Content, s[n..];
    } else if CommentAt(s) {
      CommentNonempty(s);
      t, next, rest := Some(Comment(s[..CommentEnd(s)])), Content, s[CommentEnd(s)..];
    } else if !StartTagAt(s) {
      t, next, rest := Some(Lt), Content, s[1..];
    } else {
      var n := Skip(s, 1, TagNameChar);
      t, next, rest := Some(Open(s[..n])), Attrs(Lower(s[1..n])), s[n..];
    }
  }

  lemma {:induction false} BodyCase(tag: string, s: string) returns (t: Option<Token>, next: Mode, rest: string)
    ensures t.Some? ==> Scan(Body(tag), s) == [t.value] + Scan(next, rest) && Shown(t.value) != "" && s == Shown(t.value) + rest
    ensures t == None && next != Body(tag) ==> Scan(Body(tag), s) == Scan(next, s) && next == Content && rest == s
    ensures t == None && next == Body(tag) ==> s == "" && Scan(Body(tag), s) == []
  {
    hide Skip, Find, FindStr, CloseAt, Lower;
    if tag == "plaintext" {
      if s == "" {
        t, next, rest := None, Body(tag), s;
      } else {
        t, next, rest := Some(Raw(s)), Content, "";
        EmptyScan();
        assert [Raw(s)] + [] == [Raw(s)] && s + "" == s;
      }
    } else if tag in RAW_TEXT_TAGS {
      var n := RawTextEnd(s, 0, tag);
      if n == 0 {
        assert s[0..] == s && [] + Scan(Content, s) == Scan(Content, s);
        t, next, rest := None, Content, s;
      } else {
        t, next, rest := Some(Raw(s[..n])), Content, s[n..];
      }
    } else {
      t, next, rest := None, Content, s;
    }
  }

  lemma {:induction false} EmptyScan()
    ensures Scan(Content, "") == []
  {}

  // ---- what the output begins with ----

  /** Up to the first "<" and with it, content stays as it is. */
  lemma {:induction false} ContentHead(s: string)
    ensures var n, o := Find(s, '<', 0), Output(Content, s);
            if n == |s| then o == s else n < |o| && o[..n] == s[..n] && o[n] == '<'
  {
    hide Skip, CommentAt, StartTagAt;
    var n := Find(s, '<', 0);
    if s == "" {
      NothingFlat();
    } else if s[0] != '<' {
      OutputHead(Content, s, Plain(s[..n]), Content, s[n..]);
      if n < |s| { LtHead(s[n..]); } else { NothingOut(); assert s[n..] == "" && s[..n] == s; }
    } else {
      LtHead(s);
    }
  }

  lemma {:induction false} NothingOut()
    ensures Output(Content, "") == ""
  {}

  /** A "<" stays in front. */
  lemma {:induction false} LtHead(s: string)
    requires s != "" && s[0] == '<'
    ensures Output(Content, s) != "" && Output(Content, s)[0] == '<'
    ensures |s| > 1 && s[1] == '/' ==> Output(Content, s) == "<" + Output(Content, s[1..])
  {
    hide Output;
    var t, next, rest := ContentCase(s);
    OutputHead(Content, s, t.value, next, rest);
    LtToken(s, t.value, next, rest);
    if |s| > 1 && s[1] == '/' { SameOutput(next, rest, Content, s[1..]); }
  }

  lemma {:induction false} LtToken(s: string, t: Token, next: Mode, rest: string)
    requires s != "" && s[0] == '<' && Scan(Content, s) == [t] + Scan(next, rest)
    ensures Renamed(t) == t && Shown(t) != "" && Shown(t)[0] == '<'
    ensures |s| > 1 && s[1] == '/' ==> t == Lt && Scan(next, rest) == Scan(Content, s[1..])
  {
    hide Skip, FindStr, Lower;
    assert t == Scan(Content, s)[0];
    assert Scan(next, rest) == Scan(Content, s)[1..];
    CommentIs(s);
    if CommentAt(s) { CommentNonempty(s); }
  }

  /** A delimiter after a tag's name or an attribute stays in front, and so does the end. */
  lemma {:induction false} AttrsHead(tag: string, s: string)
    requires s == "" || !AttrNameChar(s[0])
    ensures s == "" ==> Output(Attrs(tag), s) == ""
    ensures s != "" && s[0] != '=' ==> Output(Attrs(tag), s) != "" && Output(Attrs(tag), s)[0] == s[0]
  {
    hide Output, Skip, Lower;
    if s == "" || s[0] == '>' {
      BodyHead(tag, s);
      SameOutput(Attrs(tag), s, Body(tag), s);
    } else if s[0] != '=' {
      OutputHead(Attrs(tag), s, Sep(s[0]), Attrs(tag), s[1..]);
    }
  }

  lemma {:induction false} SameOutput(m: Mode, s: string, n: Mode, t: string)
    requires Scan(m, s) == Scan(n, t)
    ensures Output(m, s) == Output(n, t)
  {}

  lemma {:induction false} BodyHead(tag: string, s: string)
    requires s == "" || s[0] == '>'
    ensures s == "" ==> Output(Body(tag), s) == ""
    ensures s != "" ==> Output(Body(tag), s) != "" && Output(Body(tag), s)[0] == '>'
  {
    hide Output, Scan, Lower, CloseAt;
    var t, next, rest := BodyCase(tag, s);
    if t == None {
      if next == Content {
        SameOutput(Body(tag), s, Content, s);
        ContentHead(s);
        FirstKept(s);
      } else {
        EmptyOut(tag, s);
      }
    } else {
      OutputHead(Body(tag), s, t.value, next, rest);
      RawHead(tag, s, t.value, next, rest);
    }
  }

  lemma {:induction false} FirstKept(s: string)
    requires s == "" || s[0] == '>'
    ensures s == "" ==> Output(Content, s) == ""
    ensures s != "" ==> Output(Content, s) != "" && Output(Content, s)[0] == '>'
  {
    hide Output;
    ContentHead(s);
  }

  lemma {:induction false} EmptyOut(tag: string, s: string)
    requires s == "" && Scan(Body(tag), s) == []
    ensures Output(Body(tag), s) == ""
  {}

  lemma {:induction false} RawHead(tag: string, s: string, t: Token, next: Mode, rest: string)
    requires s != "" && s[0] == '>' && Scan(Body(tag), s) == [t] + Scan(next, rest) && s == Shown(t) + rest && Shown(t) != ""
    requires s[0] == '>'
    ensures Renamed(t) == t && Shown(t)[0] == '>'
  {
    hide Skip, FindStr, CloseAt, Lower;
    assert t == Scan(Body(tag), s)[0];
    assert Shown(t)[0] == s[0];
  }

  // ---- the same tokens again ----

  /** Text before a "<" that stays is the same token again. */
  lemma {:induction false} PlainAgain(t: string, o: string)
    requires t != "" && (forall k :: 0 <= k < |t| ==> t[k] != '<') && (o == "" || o[0] == '<')
    ensures Scan(Content, t + o) == [Plain(t)] + Scan(Content, o)
  {
    FindIs(t + o, '<', 0, |t|);
    assert (t + o)[..|t|] == t && (t + o)[|t|..] == o;
  }

  /** The first place of a pattern depends on the text up to its end only. */
  lemma {:induction false} FindStrSame(a: string, b: string, pat: string, i: nat, k: nat)
    requires FindStr(a, pat, i) == Some(k) && k + |pat| <= |b| && a[..k+|pat|] == b[..k+|pat|]
    ensures FindStr(b, pat, i) == Some(k)
    decreases |a| - i
  {
    assert At(a, i, pat) <==> At(b, i, pat) by { AtSame(a, b, pat, i, k); }
    if !At(a, i, pat) { FindStrSame(a, b, pat, i + 1, k); }
  }

  lemma {:induction false} SubSlice(a: string, n: nat, i: nat, j: nat)
    requires i <= j <= n <= |a|
    ensures a[..n][i..j] == a[i..j]
  {}

  lemma {:induction false} AtSame(a: string, b: string, pat: string, i: nat, k: nat)
    requires i <= k && k + |pat| <= |a| && k + |pat| <= |b| && a[..k+|pat|] == b[..k+|pat|]
    ensures At(a, i, pat) <==> At(b, i, pat)
  {
    SubSlice(a, k + |pat|, i, i + |pat|);
    SubSlice(b, k + |pat|, i, i + |pat|);
  }

  lemma {:induction false} CommentAgain(s: string, o: string)
    requires CommentAt(s) && (CommentEnd(s) == |s| && FindStr(s, "-->", 4) == None ==> o == "")
    ensures var t := s[..CommentEnd(s)]; Scan(Content, t + o) == [Comment(t)] + Scan(Content, o)
  {
    var n := CommentEnd(s);
    var t := s[..n];
    var q := t + o;
    CommentStill(s, o);
    assert q[..n] == t && q[n..] == o;
    hide CommentEnd, CommentAt;
    CommentFirst(q);
    CommentNonempty(q);
  }

  lemma {:induction false} CommentFirst(s: string)
    requires CommentAt(s)
    ensures s != "" && s[0] == '<'
  {
    CommentIs(s);
  }

  lemma {:induction false} CommentStill(s: string, o: string)
    requires CommentAt(s) && (CommentEnd(s) == |s| && FindStr(s, "-->", 4) == None ==> o == "")
    ensures var q := s[..CommentEnd(s)] + o; CommentAt(q) && CommentEnd(q) == CommentEnd(s)
  {
    hide FindStr;
    var n := CommentEnd(s);
    var q := s[..n] + o;
    if FindStr(s, "-->", 4).Some? {
      FindStrSame(s, q, "-->", 4, n - 3);
      CommentIs(s);
      CommentIs(q);
    } else {
      assert q == s;
    }
  }

  /** A "<" that opened nothing opens nothing now: the text behind it begins as before. */
  lemma {:induction false} LtAgain(s: string)
    requires s != "" && s[0] == '<' && !CommentAt(s) && !StartTagAt(s)
    ensures var o := Output(Content, s[1..]); Scan(Content, "<" + o) == [Lt] + Scan(Content, o)
  {
    var rest := s[1..];
    var o := Output(Content, rest);
    var q := "<" + o;
    ContentHead(rest);
    hide Output;
    assert q[1..] == o;
    NoCommentNow(s, o);
  }

  lemma {:induction false} NoCommentNow(s: string, o: string)
    requires s != "" && s[0] == '<' && !CommentAt(s)
    requires var n := Find(s[1..], '<', 0);
             if n == |s[1..]| then o == s[1..] else n < |o| && o[..n] == s[1..][..n] && o[n] == '<'
    ensures !CommentAt("<" + o)
  {
    var rest := s[1..];
    var n := Find(rest, '<', 0);
    CommentIs(s);
    CommentIs("<" + o);
    if n < |rest| && |o| >= 3 && o[0] == '!' && o[1] == '-' && o[2] == '-' {
      SameStart(o, rest, n);
    }
  }

  /** Three characters other than "<" are within the part that stays. */
  lemma {:induction false} SameStart(o: string, rest: string, n: nat)
    requires n < |rest| && n < |o| && o[..n] == rest[..n] && o[n] == '<' && |o| >= 3 && o[0] != '<' && o[1] != '<' && o[2] != '<'
    ensures |rest| >= 3 && rest[0] == o[0] && rest[1] == o[1] && rest[2] == o[2]
  {
    assert rest[0] == rest[..n][0] && rest[1] == rest[..n][1] && rest[2] == rest[..n][2];
  }

  lemma {:induction false} OpenAgain(t: string, o: string)
    requires |t| > 1 && t[0] == '<' && IsTagNameStart(t[1]) && (forall k :: 1 <= k < |t| ==> TagNameChar(t[k]))
    requires o == "" || !TagNameChar(o[0])
    ensures Scan(Content, t + o) == [Open(t)] + Scan(Attrs(Lower(t[1..])), o)
  {
    var q := t + o;
    SkipTo(q, 1, |t|, TagNameChar);
    assert q[..|t|] == t && q[|t|..] == o && q[1..|t|] == t[1..];
    CommentIs(q);
  }

  lemma {:induction false} NameAgain(t: string, o: string, tag: string)
    requires t != "" && TagNameChar(t[0]) && (forall k :: 1 <= k < |t| ==> AttrNameChar(t[k]))
    requires o == "" || !AttrNameChar(o[0])
    ensures Scan(Attrs(tag), t + o) == [Name(t)] + Scan(AfterName(tag), o)
  {
    var q := t + o;
    SkipTo(q, 1, |t|, AttrNameChar);
    assert q[..|t|] == t && q[|t|..] == o;
  }

  lemma {:induction false} FindSame(s: string, q: string, c: char, i: nat)
    requires i <= |s| && Find(s, c, i) < |s| && Find(s, c, i) < |q| && s[..Find(s, c, i) + 1] == q[..Find(s, c, i) + 1]
    ensures Find(q, c, i) == Find(s, c, i)
  {
    var n := Find(s, c, i);
    forall k | i <= k <= n ensures q[k] == s[k] { assert q[..n+1][k] == s[..n+1][k]; }
    FindIs(q, c, i, n);
  }

  /** The first character past the spaces after the equals sign. */
  function ValueStart(s: string): (k: nat)
    requires HasValue(s)
    ensures k <= |s|
  {
    Skip(s, Skip(s, 0, IsAttrSpace) + 1, IsAttrSpace)
  }

  predicate Quoted(s: string)
    requires HasValue(s)
  {
    var k := ValueStart(s); k < |s| && (s[k] == '"' || s[k] == '\'')
  }

  lemma {:induction false} ValueStartSame(s: string, n: nat, q: string)
    requires HasValue(s) && ValueStart(s) <= n <= |s| && n <= |q| && q[..n] == s[..n]
    requires ValueStart(s) == n ==> n == |q| || !IsAttrSpace(q[n])
    ensures HasValue(q) && ValueStart(q) == ValueStart(s)
  {
    var a, b := Skip(s, 0, IsAttrSpace), ValueStart(s);
    forall k | 0 <= k < n ensures q[k] == s[k] { assert q[..n][k] == s[..n][k]; }
    SkipTo(q, 0, a, IsAttrSpace);
    SkipTo(q, a + 1, b, IsAttrSpace);
  }

  /** What follows a value begins as it did. */
  predicate FollowsAs(s: string, n: nat, o: string)
    requires n <= |s|
  {
    if n == |s| then o == "" else o != "" && o[0] == s[n]
  }

  lemma {:induction false} ValueEndSame(s: string, o: string)
    requires HasValue(s) && (if Quoted(s) then ValueEnd(s) == |s| ==> o == "" else FollowsAs(s, ValueEnd(s), o))
    ensures var q := s[..ValueEnd(s)] + o; HasValue(q) && ValueEnd(q) == ValueEnd(s)
  {
    hide Skip, Find;
    var n, k := ValueEnd(s), ValueStart(s);
    var q := s[..n] + o;
    assert q[..n] == s[..n];
    if Quoted(s) {
      if n == |s| {
        assert q == s;
      } else {
        ValueStartSame(s, n, q);
        assert q[k] == s[k];
        FindSame(s, q, s[k], k + 1);
      }
    } else {
      BareEnd(s, o);
    }
  }

  lemma {:induction false} BareEnd(s: string, o: string)
    requires HasValue(s) && !Quoted(s) && FollowsAs(s, ValueEnd(s), o)
    ensures var q := s[..ValueEnd(s)] + o; HasValue(q) && ValueEnd(q) == ValueEnd(s)
  {
    hide Find;
    var n, k := ValueEnd(s), ValueStart(s);
    var q := s[..n] + o;
    assert q[..n] == s[..n];
    forall x | 0 <= x < n ensures q[x] == s[x] {}
    ValueStartSame(s, n, q);
    SkipTo(q, k, n, BareValueChar);
  }

  lemma {:induction false} ValueAgain(s: string, o: string, tag: string)
    requires HasValue(s) && (if Quoted(s) then ValueEnd(s) == |s| ==> o == "" else FollowsAs(s, ValueEnd(s), o))
    ensures var t := s[..ValueEnd(s)]; Scan(AfterName(tag), t + o) == [Assigned(t)] + Scan(Attrs(tag), o)
  {
    hide HasValue, ValueEnd, Quoted;
    ValueEndSame(s, o);
    var t := s[..ValueEnd(s)];
    assert (t + o)[..|t|] == t && (t + o)[|t|..] == o;
  }

  // ---- the end of raw text ----

  lemma {:induction false} CloseSame(a: string, b: string, i: nat, tag: string)
    requires i + |tag| + 3 <= |a| && i + |tag| + 3 <= |b| && a[..i+|tag|+3] == b[..i+|tag|+3]
    ensures CloseAt(a, i, tag) == CloseAt(b, i, tag)
  {
    hide Lower, IsAttrSpace;
    var n := i + |tag| + 3;
    assert a[i] == a[..n][i] && a[i+1] == a[..n][i+1] && a[i+2+|tag|] == a[..n][i+2+|tag|];
    assert b[i] == b[..n][i] && b[i+1] == b[..n][i+1] && b[i+2+|tag|] == b[..n][i+2+|tag|];
    SubSlice(a, n, i + 2, i + 2 + |tag|);
    SubSlice(b, n, i + 2, i + 2 + |tag|);
  }

  lemma {:induction false} RawEndSame(a: string, b: string, i: nat, tag: string)
    requires i <= |a| && RawTextEnd(a, i, tag) < |a| && RawTextEnd(a, i, tag) + |tag| + 3 <= |b|
    requires RawTextEnd(a, i, tag) + |tag| + 3 <= |a| && a[..RawTextEnd(a, i, tag)+|tag|+3] == b[..RawTextEnd(a, i, tag)+|tag|+3]
    ensures RawTextEnd(b, i, tag) == RawTextEnd(a, i, tag)
    decreases |a| - i
  {
    hide CloseAt;
    var n := RawTextEnd(a, i, tag) + |tag| + 3;
    assert a[..i+|tag|+3] == a[..n][..i+|tag|+3] == b[..i+|tag|+3];
    CloseSame(a, b, i, tag);
    if !CloseAt(a, i, tag) { RawEndSame(a, b, i + 1, tag); }
  }

  /** An end tag in content keeps its first characters, up to the one behind its name. */
  lemma {:induction false} EndTagHead(s: string, tag: string)
    requires CloseAt(s, 0, tag) && tag in RAW_TEXT_TAGS
    ensures var n, o := |tag| + 3, Output(Content, s); n <= |o| && o[..n] == s[..n]
  {
    hide Output, CommentAt, StartTagAt;
    var rest := s[1..];
    LtHead(s);
    ContentHead(rest);
    NoLt(s, tag);
    var k, o := Find(rest, '<', 0), Output(Content, rest);
    assert k >= |tag| + 2;
    assert o[..|tag|+2] == rest[..|tag|+2] by {
      if k < |rest| { assert o[..k][..|tag|+2] == rest[..k][..|tag|+2]; }
    }
    assert s[..|tag|+3] == "<" + rest[..|tag|+2];
  }

  lemma {:induction false} NoLt(s: string, tag: string)
    requires CloseAt(s, 0, tag) && tag in RAW_TEXT_TAGS
    ensures Find(s[1..], '<', 0) >= |tag| + 2
  {
    var rest := s[1..];
    var k := Find(rest, '<', 0);
    if k < |tag| + 2 {
      assert s[k+1] == '<' && k > 0;
      if k < |tag| + 1 {
        assert Lower(s[2..2+|tag|])[k-1] == LowerChar(s[2..2+|tag|][k-1]) == '<';
        NoLtInTag(tag, k - 1);
      }
    }
  }

  lemma {:induction false} NoLtInTag(tag: string, i: nat)
    requires tag in RAW_TEXT_TAGS && i < |tag|
    ensures tag[i] != '<'
  {
    assert forall j :: 0 <= j < |"textarea"| ==> "textarea"[j] != '<';
    assert forall j :: 0 <= j < |"noframes"| ==> "noframes"[j] != '<';
  }

  lemma {:induction false} RawAgain(s: string, tag: string)
    requires tag in RAW_TEXT_TAGS && RawTextEnd(s, 0, tag) < |s|
    ensures var n := RawTextEnd(s, 0, tag); var o := Output(Content, s[n..]); RawTextEnd(s[..n] + o, 0, tag) == n
  {
    hide Output;
    var n := RawTextEnd(s, 0, tag);
    var rest := s[n..];
    CloseShift(s, n, tag);
    EndTagHead(rest, tag);
    var o := Output(Content, rest);
    var q := s[..n] + o;
    var m := |tag| + 3;
    assert s[..n+m] == s[..n] + rest[..m] == s[..n] + o[..m] == q[..n+m];
    RawEndSame(s, q, 0, tag);
  }

  lemma {:induction false} CloseShift(s: string, n: nat, tag: string)
    requires n <= |s| && CloseAt(s, n, tag)
    ensures CloseAt(s[n..], 0, tag) && n + |tag| + 3 <= |s|
  {
    hide Lower;
    var r := s[n..];
    assert r[2..2+|tag|] == s[n+2..n+2+|tag|];
  }
}
