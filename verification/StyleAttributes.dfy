// The index loops of `renameStyleAttributes` (apps/rich-editor/src/sanitize.ts:373-440). They compute the renaming scan of
// StyleModel.dfy, which StyleRules.dfy says keeps every token but the names of style attributes.

module StyleAttributes {
  import opened Base
  import opened R = Reader
  import opened StyleModel
  import opened StyleRules
  import W = Writer

  // ---- positions in the string and in what is left of it ----

  lemma {:induction false} SkipSuffix(s: string, i: nat, k: nat, p: char -> bool)
    requires i + k <= |s|
    ensures i + Skip(s[i..], k, p) == Skip(s, i + k, p)
    decreases |s| - k
  {
    if i + k < |s| && p(s[i+k]) { SkipSuffix(s, i, k + 1, p); }
  }

  lemma {:induction false} FindSuffix(s: string, i: nat, k: nat, c: char)
    requires i + k <= |s|
    ensures i + Find(s[i..], c, k) == Find(s, c, i + k)
    decreases |s| - k
  {
    if i + k < |s| && s[i+k] != c { FindSuffix(s, i, k + 1, c); }
  }

  lemma {:induction false} AtSuffix(s: string, i: nat, k: nat, pat: string)
    requires i <= |s|
    ensures At(s[i..], k, pat) <==> At(s, i + k, pat)
  {
    if i + k + |pat| <= |s| { assert s[i..][k..k+|pat|] == s[i+k..i+k+|pat|]; }
  }

  lemma {:induction false} FindStrSuffix(s: string, i: nat, k: nat, pat: string)
    requires i <= |s|
    ensures FindStr(s[i..], pat, k) == match FindStr(s, pat, i + k) case None => None case Some(r) => if r >= i then Some(r - i) else None
    ensures FindStr(s, pat, i + k).Some? ==> FindStr(s, pat, i + k).value >= i
    decreases |s| - k
  {
    hide At;
    AtSuffix(s, i, k, pat);
    if !At(s, i + k, pat) && i + k < |s| { FindStrSuffix(s, i, k + 1, pat); }
  }

  lemma {:induction false} CloseSuffix(s: string, i: nat, k: nat, tag: string)
    requires i <= |s|
    ensures CloseAt(s[i..], k, tag) <==> CloseAt(s, i + k, tag)
  {
    hide Lower, IsAttrSpace;
    if i + k + |tag| + 3 <= |s| { assert s[i..][k+2..k+2+|tag|] == s[i+k+2..i+k+2+|tag|]; }
  }

  lemma {:induction false} RawSuffix(s: string, i: nat, k: nat, tag: string)
    requires i + k <= |s|
    ensures i + RawTextEnd(s[i..], k, tag) == RawTextEnd(s, i + k, tag)
    decreases |s| - k
  {
    hide CloseAt;
    CloseSuffix(s, i, k, tag);
    if i + k < |s| && !CloseAt(s, i + k, tag) { RawSuffix(s, i, k + 1, tag); }
  }

  /** Steps over the characters of a class. */
  method Past(s: string, i: nat, p: char -> bool) returns (j: nat)
    requires i <= |s|
    ensures j == Skip(s, i, p)
  {
    j := i;
    while j < |s| && p(s[j])
      invariant i <= j <= |s| && Skip(s, j, p) == Skip(s, i, p)
    {
      j := j + 1;
    }
  }

  lemma {:induction false} JoinSnoc(out: seq<string>, s: string)
    ensures W.Join(out + [s]) == W.Join(out) + s
  {
    assert (out + [s])[..|out|] == out;
  }

  lemma {:induction false} JoinNothing()
    ensures W.Join([]) == ""
  {}

  // ---- the attributes of a tag ----

  /** Where a value that starts at `k` ends. */
  function ValueTail(s: string, k: nat): nat
    requires k <= |s|
  {
    if k < |s| && (s[k] == '"' || s[k] == '\'') then
      var close := Find(s, s[k], k + 1);
      if close < |s| then close + 1 else |s|
    else Skip(s, k, BareValueChar)
  }

  lemma {:induction false} ValueTailIs(s: string)
    requires HasValue(s)
    ensures ValueEnd(s) == ValueTail(s, Skip(s, Skip(s, 0, IsAttrSpace) + 1, IsAttrSpace))
  {}

  method TailStop(html: string, j: nat, k: nat) returns (stop: nat)
    requires j <= k <= |html|
    ensures stop == j + ValueTail(html[j..], k - j)
  {
    hide Skip, Find;
    if k < |html| && (html[k] == '"' || html[k] == '\'') {
      FindSuffix(html, j, k + 1 - j, html[k]);
      var close := Find(html, html[k], k + 1);
      stop := if close < |html| then close + 1 else |html|;
    } else {
      SkipSuffix(html, j, k - j, BareValueChar);
      stop := Past(html, k, BareValueChar);
    }
  }

  /** The end of the value that follows a name ending at `j`, if there is one. */
  method ValueStop(html: string, j: nat) returns (end: Option<nat>)
    requires j <= |html|
    ensures end == if HasValue(html[j..]) then Some(j + ValueEnd(html[j..])) else None
  {
    hide Skip, Find, ValueEnd, ValueTail;
    var k := Past(html, j, IsAttrSpace);
    SkipSuffix(html, j, 0, IsAttrSpace);
    if k == |html| || html[k] != '=' { return None; }
    SkipSuffix(html, j, k + 1 - j, IsAttrSpace);
    ValueTailIs(html[j..]);
    k := Past(html, k + 1, IsAttrSpace);
    var stop := TailStop(html, j, k);
    end := Some(stop);
  }

  /** A token is put out: what is out and what is still to come stay the same together. */
  lemma {:induction false} PutOut(out: seq<string>, m: Mode, s: string, t: Token, next: Mode, rest: string)
    requires Scan(m, s) == [t] + Scan(next, rest)
    ensures W.Join(out + [Shown(Renamed(t))]) + Output(next, rest) == W.Join(out) + Output(m, s)
  {
    hide Output, Scan, Shown, Renamed, W.Join;
    OutputHead(m, s, t, next, rest);
    JoinSnoc(out, Shown(Renamed(t)));
    SeqAssoc(W.Join(out), Shown(Renamed(t)), Output(next, rest));
  }

  lemma {:induction false} Suffix(s: string, i: nat, j: nat)
    requires i <= j <= |s|
    ensures s[i..][..j-i] == s[i..j] && s[i..][j-i..] == s[j..]
  {}

  /** One attribute: its name, renamed or not, and its value. */
  method Attribute(html: string, j0: nat, out0: seq<string>, tag: string) returns (j: nat, out: seq<string>)
    requires j0 < |html| && TagNameChar(html[j0])
    ensures j0 < j <= |html|
    ensures W.Join(out) + Output(Attrs(tag), html[j..]) == W.Join(out0) + Output(Attrs(tag), html[j0..])
  {
    hide Output, Scan, Skip, HasValue, ValueEnd, IsAttrSpace, Lower, W.Join;
    var s := html[j0..];
    SkipSuffix(html, j0, 1, AttrNameChar);
    AttrsName(tag, s);
    j := Past(html, j0 + 1, AttrNameChar);
    Suffix(html, j0, j);
    var name := html[j0..j];
    out := out0 + [if Lower(name) == "style" then STYLE_ATTR else name];
    PutOut(out0, Attrs(tag), s, Name(name), AfterName(tag), html[j..]);
    var end := ValueStop(html, j);
    if end == None {
      AfterNothing(tag, html[j..]);
      SameOutput(AfterName(tag), html[j..], Attrs(tag), html[j..]);
    } else {
      ValueNonempty(html[j..]);
      AfterValue(tag, html[j..]);
      Suffix(html, j, end.value);
      PutOut(out, AfterName(tag), html[j..], Assigned(html[j..end.value]), Attrs(tag), html[end.value..]);
      out := out + [html[j..end.value]];
      j := end.value;
    }
  }

  /** The loop over the attributes of a start tag, up to its ">". */
  method Attributes(html: string, j0: nat, out0: seq<string>, tag: string) returns (j: nat, out: seq<string>)
    requires j0 <= |html|
    ensures j0 <= j <= |html|
    ensures W.Join(out) + Output(Body(tag), html[j..]) == W.Join(out0) + Output(Attrs(tag), html[j0..])
  {
    hide Output, Scan, W.Join;
    j, out := j0, out0;
    while j < |html| && html[j] != '>'
      invariant j0 <= j <= |html|
      invariant W.Join(out) + Output(Attrs(tag), html[j..]) == W.Join(out0) + Output(Attrs(tag), html[j0..])
      decreases |html| - j
    {
      if IsAttrSpace(html[j]) || html[j] == '/' {
        AttrsSep(tag, html[j..]);
        Suffix(html, j, j + 1);
        PutOut(out, Attrs(tag), html[j..], Sep(html[j]), Attrs(tag), html[j+1..]);
        out := out + [[html[j]]];
        j := j + 1;
      } else {
        j, out := Attribute(html, j, out, tag);
      }
    }
    AttrsEnd(tag, html[j..]);
    SameOutput(Attrs(tag), html[j..], Body(tag), html[j..]);
  }

  // ---- content ----

  /** A comment, copied whole. */
  method CommentStop(html: string, lt: nat) returns (stop: nat)
    requires lt <= |html| && CommentAt(html[lt..])
    ensures stop == lt + CommentEnd(html[lt..])
  {
    hide FindStr;
    FindStrSuffix(html, lt, 4, "-->");
    var end := FindStr(html, "-->", lt + 4);
    stop := match end case None => |html| case Some(e) => e + 3;
  }

  /** The content of an element that holds text only. */
  method CopyBody(html: string, i0: nat, out0: seq<string>, tag: string) returns (i: nat, out: seq<string>)
    requires i0 <= |html|
    ensures i0 <= i <= |html|
    ensures W.Join(out) + Output(Content, html[i..]) == W.Join(out0) + Output(Body(tag), html[i0..])
  {
    hide Output, Scan, RawTextEnd, W.Join;
    var s := html[i0..];
    i, out := i0, out0;
    if tag == "plaintext" {
      BodyPlaintext(s);
      PutRaw(out0, s, s, "", tag);
      i, out := |html|, out0 + [s];
      assert html[|html|..] == "";
    } else if tag in RAW_TEXT_TAGS {
      RawSuffix(html, i0, 0, tag);
      BodyRaw(tag, s);
      var stop := RawTextEnd(html, i0, tag);
      Suffix(html, i0, stop);
      PutRaw(out0, s, html[i0..stop], html[stop..], tag);
      i, out := stop, out0 + [html[i0..stop]];
    } else {
      BodyContent(tag, s);
      SameOutput(Body(tag), s, Content, s);
    }
  }

  lemma {:induction false} PutRaw(out: seq<string>, s: string, t: string, rest: string, tag: string)
    requires Scan(Body(tag), s) == RawToken(t) + Scan(Content, rest) || (rest == "" && Scan(Body(tag), s) == RawToken(t))
    ensures W.Join(out + [t]) + Output(Content, rest) == W.Join(out) + Output(Body(tag), s)
  {
    EmptyScan();
    assert RawToken(t) + [] == RawToken(t);
    hide Scan, RawToken, Flat, AllRenamed, W.Join;
    JoinSnoc(out, t);
    RawTokenSame(t);
    RenamedConcat(RawToken(t), Scan(Content, rest));
    FlatConcat(RawToken(t), AllRenamed(Scan(Content, rest)));
    SeqAssoc(W.Join(out), t, Output(Content, rest));
  }

  /** From the "<" of a start tag to the end of its attributes, and over the body of a text-only element. */
  method CopyTag(html: string, lt: nat, out0: seq<string>) returns (i: nat, out: seq<string>)
    requires lt < |html| && StartTagAt(html[lt..])
    ensures lt < i <= |html|
    ensures W.Join(out) + Output(Content, html[i..]) == W.Join(out0) + Output(Content, html[lt..])
  {
    hide Output, Scan, Skip, Lower, W.Join;
    var s := html[lt..];
    SkipSuffix(html, lt, 1, TagNameChar);
    ContentOpen(s);
    var j := Past(html, lt + 1, TagNameChar);
    Suffix(html, lt, j);
    var tag := Lower(html[lt+1..j]);
    assert s[1..j-lt] == html[lt+1..j];
    PutOut(out0, Content, s, Open(html[lt..j]), Attrs(tag), html[j..]);
    out := out0 + [html[lt..j]];
    i, out := Attributes(html, j, out, tag);
    i, out := CopyBody(html, i, out, tag);
  }

  method RenameStyleAttributes(html: string) returns (r: string)
    ensures r == Output(Content, html)
  {
    hide Output, Scan, HasStyle, W.Join, StartTagAt, CommentAt, CommentEnd, Find;
    if !HasStyle(html) {
      NoStyleNoChange(html);
      return html;
    }
    var out: seq<string>, i := [], 0;
    JoinNothing();
    assert html[0..] == html && "" + Output(Content, html) == Output(Content, html);
    while i < |html|
      invariant 0 <= i <= |html| && W.Join(out) + Output(Content, html[i..]) == Output(Content, html)
      decreases |html| - i
    {
      i, out := CopyPiece(html, i, out);
    }
    NothingOut();
    assert html[i..] == "" && W.Join(out) + "" == W.Join(out);
    r := W.JoinParts(out);
  }

  /** The text up to the next "<", or what that "<" opens. */
  method CopyPiece(html: string, i0: nat, out0: seq<string>) returns (i: nat, out: seq<string>)
    requires i0 < |html|
    ensures i0 < i <= |html|
    ensures W.Join(out) + Output(Content, html[i..]) == W.Join(out0) + Output(Content, html[i0..])
  {
    hide Output, Scan, W.Join, StartTagAt, CommentAt, CommentEnd, Find;
    FindSuffix(html, i0, 0, '<');
    var lt := Find(html, '<', i0);
    i, out := lt, out0;
    if lt > i0 {
      NotLt(html, i0);
      ContentPlain(html[i0..]);
      Suffix(html, i0, lt);
      PutOut(out0, Content, html[i0..], Plain(html[i0..lt]), Content, html[lt..]);
      out := out0 + [html[i0..lt]];
    }
    if lt == |html| { return; }
    var s := html[lt..];
    if CommentAt(s) {
      CommentNonempty(s);
      ContentComment(s);
      i := CommentStop(html, lt);
      Suffix(html, lt, i);
      PutOut(out, Content, s, Comment(html[lt..i]), Content, html[i..]);
      out := out + [html[lt..i]];
    } else if !StartTagAt(s) {
      ContentLt(s);
      PutOut(out, Content, s, Lt, Content, html[lt+1..]);
      Suffix(html, lt, lt + 1);
      out := out + ["<"];
      i := lt + 1;
    } else {
      i, out := CopyTag(html, lt, out);
    }
  }

  lemma {:induction false} NotLt(html: string, i: nat)
    requires i < |html| && Find(html, '<', i) > i
    ensures html[i..] != "" && html[i..][0] != '<'
  {}
}
