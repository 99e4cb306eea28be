// Whole texts as people write them (`parse`, apps/admin-web/src/lib/richtext.ts:144-220): words, tags in any spelling, comments and
// dropped elements are read one by one, and end tags that HTML lets one leave out make no difference.

module SpelledText {
  import opened Base
  import opened Markup
  import opened Reader
  import opened Escaping
  import opened TagReading
  import opened RoundTrip
  import S = SpelledTags

  datatype Token =
    | Words(text: string)
    | Typed(closing: bool, name: string, attrs: seq<S.Attr>, tail: string)
    | Comment(text: string)
    | Dropped(name: string, attrs: seq<S.Attr>, tail: string, body: string)

  function SpellToken(t: Token): string {
    match t
    case Words(text) => text
    case Typed(closing, name, attrs, tail) => S.SpellTag(closing, name, attrs, tail)
    case Comment(text) => "<!--" + (text + "-->")
    case Dropped(name, attrs, tail, body) => S.SpellTag(false, name, attrs, tail) + body
  }

  function SpellTokens(ts: seq<Token>): string {
    if ts == [] then "" else SpellToken(ts[0]) + SpellTokens(ts[1..])
  }

  /** Nothing in the body of a dropped element looks like an end tag. */
  predicate NoEnd(body: string) {
    forall k :: 0 <= k < |body| && body[k] == '<' ==> k + 1 < |body| && body[k+1] != '/'
  }

  predicate TokenOk(t: Token) {
    match t
    case Words(text) => text != "" && '<' !in text
    case Typed(closing, name, attrs, tail) => S.TagName(name) && S.AttrsOk(attrs, tail) && (Lower(name) in RAW_DROPPED ==> closing)
    case Comment(text) => forall k :: 0 <= k < |text| ==> !At(text + "-->", k, "-->")
    case Dropped(name, attrs, tail, body) => S.TagName(name) && S.AttrsOk(attrs, tail) && Lower(name) in RAW_DROPPED && NoEnd(body)
  }

  /** Words are not cut in two, and a dropped element ends with its end tag or the text. */
  predicate Fit(t: Token, next: seq<Token>) {
    next != [] ==>
      && (t.Words? ==> !next[0].Words?)
      && (t.Dropped? ==> next[0].Typed? && next[0].closing && Lower(next[0].name) == Lower(t.name))
  }

  predicate TokensOk(ts: seq<Token>) {
    ts != [] ==> TokenOk(ts[0]) && Fit(ts[0], ts[1..]) && TokensOk(ts[1..])
  }

  /** What one token does to the open elements. */
  function Effect(st: Stack, t: Token, url: string -> bool): Stack {
    match t
    case Words(text) => AddText(st, DecodeEntities(text))
    case Typed(closing, name, attrs, _) =>
      if Lower(name) in RAW_DROPPED then st
      else if closing then CloseElement(st, Lower(name))
      else OpenElement(st, Lower(name), S.PutAll(map[], attrs), url)
    case Comment(_) => st
    case Dropped(_, _, _, _) => st
  }

  function Effects(st: Stack, ts: seq<Token>, url: string -> bool): Stack
    decreases |ts|
  {
    if ts == [] then st else Effects(Effect(st, ts[0], url), ts[1..], url)
  }

  // ---- one token ----

  /** What a token is followed by. */
  predicate Begins(s: string, j: nat, ts: seq<Token>) {
    j <= |s| && At(s, j, SpellTokens(ts)) && j + |SpellTokens(ts)| == |s|
  }

  lemma {:induction false} TagBegins(closing: bool, name: string, attrs: seq<S.Attr>, tail: string)
    requires S.TagName(name)
    ensures var w := S.SpellTag(closing, name, attrs, tail); |w| > 2 && w[0] == '<' && (closing ==> w[1] == '/') && (!closing ==> IsLetter(w[1]))
  {
    hide IsLetter, IsNameChar, S.Rest;
    assert |S.Rest(attrs, tail)| > 0 by { RestEnds(attrs, tail); }
  }

  lemma {:induction false} RestEnds(attrs: seq<S.Attr>, tail: string)
    ensures |S.Rest(attrs, tail)| > 0
  {}

  /** Every token but words begins with "<". */
  lemma {:induction false} TokenBegins(t: Token)
    requires TokenOk(t) && !t.Words?
    ensures SpellToken(t) != "" && SpellToken(t)[0] == '<'
  {
    hide S.SpellTag, S.AttrsOk, S.TagName;
    match t
    case Typed(closing, name, attrs, tail) => TagBegins(closing, name, attrs, tail);
    case Dropped(name, attrs, tail, _) => TagBegins(false, name, attrs, tail);
    case Comment(_) =>
  }

  lemma {:induction false} WordsTurn(s: string, i: nat, st: Stack, text: string, rest: seq<Token>, url: string -> bool)
    requires text != "" && '<' !in text && TokensOk(rest) && (rest != [] ==> !rest[0].Words?)
    requires i < |s| && At(s, i, text) && Begins(s, i + |text|, rest)
    ensures ParseAt(s, State(i, st), url) == ParseAt(s, State(i + |text|, AddText(st, DecodeEntities(text))), url)
  {
    hide DecodeEntities, Bracket, AddText, SpellToken, At, Fit, TokenOk;
    var m := i + |text|;
    S.Chars(s, i, text);
    forall k | i <= k < m ensures s[k] != '<' { assert s[i+(k-i)] == text[k-i]; }
    if rest != [] {
      AtSplit(s, m, SpellToken(rest[0]), SpellTokens(rest[1..]));
      TokenBegins(rest[0]);
      AtChar(s, m, SpellToken(rest[0]), 0);
      AtFits(s, m, SpellToken(rest[0]));
    }
    FindIs(s, '<', i, m);
    if m < |s| { AtBracket(s, m, AddText(st, DecodeEntities(text)), url); }
  }

  lemma {:induction false} TagTurn(s: string, i: nat, st: Stack, t: Token, url: string -> bool)
    requires t.Typed? && TokenOk(t) && i < |s| && At(s, i, SpellToken(t))
    ensures Turn(s, State(i, st), url) == State(i + |SpellToken(t)|, Effect(st, t, url))
  {
    hide At, TagAt, OpenElement, CloseElement, S.SpellTag, Lower, S.AttrsOk, S.PutAll, S.FirstsOf, IsLetter, S.TagName;
    TagBegins(t.closing, t.name, t.attrs, t.tail);
    S.TagReads(s, i, t.closing, t.name, t.attrs, t.tail);
    AtChar(s, i, SpellToken(t), 0);
    AtChar(s, i, SpellToken(t), 1);
    AtFits(s, i, SpellToken(t));
    NotSpecial(s, i);
    AtBracket(s, i, st, url);
  }

  lemma {:induction false} FindStrIs(s: string, pat: string, i: nat, j: nat)
    requires i <= j && At(s, j, pat) && forall k :: i <= k < j ==> !At(s, k, pat)
    ensures FindStr(s, pat, i) == Some(j)
    decreases j - i
  {
    if i < j { FindStrIs(s, pat, i + 1, j); }
  }

  lemma {:induction false} CommentTurn(s: string, i: nat, st: Stack, text: string, url: string -> bool)
    requires TokenOk(Comment(text)) && i < |s| && At(s, i, SpellToken(Comment(text)))
    ensures Turn(s, State(i, st), url) == State(i + |text| + 7, st)
  {
    hide TagAt, FindStr;
    AtSplit(s, i, "<!--", text + "-->");
    AtSplit(s, i + 4, text, "-->");
    AtChar(s, i, "<!--", 0);
    forall k | i + 4 <= k < i + 4 + |text| ensures !At(s, k, "-->") { InnerEnd(s, i + 4, text, k - i - 4); }
    FindStrIs(s, "-->", i + 4, i + 4 + |text|);
    AtBracket(s, i, st, url);
  }

  lemma {:induction false} InnerEnd(s: string, a: nat, text: string, k: nat)
    requires At(s, a, text + "-->") && k < |text| && !At(text + "-->", k, "-->")
    ensures !At(s, a + k, "-->")
  {
    Window(s, a, |text| + 3, k, 3);
  }

  lemma {:induction false} Window(s: string, a: nat, n: nat, k: nat, m: nat)
    requires a + n <= |s| && k + m <= n
    ensures s[a..a+n][k..k+m] == s[a+k..a+k+m]
  {
    var x, y := s[a..a+n][k..k+m], s[a+k..a+k+m];
    assert |x| == |y| && forall i :: 0 <= i < m ==> x[i] == y[i];
  }

  // ---- dropped elements ----

  /** An end tag of that name stands at `j`, or the text ends there. */
  predicate EndThere(s: string, j: nat, name: string) {
    j == |s| || (j + |name| + 2 < |s| && Lower(s[j..j+|name|+2]) == "</" + name && (IsSpaceOrSlash(s[j+|name|+2]) || s[j+|name|+2] == '>'))
  }

  lemma {:induction false} LowerStart(s: string, i: nat, n: nat, name: string)
    requires i + n <= |s| && n >= 2 && Lower(s[i..i+n]) == "</" + name
    ensures s[i] == '<' && s[i+1] == '/'
  {
    var w := s[i..i+n];
    assert Lower(w)[0] == '<' && Lower(w)[1] == '/';
    assert w[0] == s[i] && w[1] == s[i+1];
    assert LowerChar(w[0]) == '<' && LowerChar(w[1]) == '/';
  }

  lemma {:induction false} RawEndIs(s: string, name: string, i: nat, j: nat)
    requires i <= j <= |s| && EndThere(s, j, name) && forall k :: i <= k < j && s[k] == '<' ==> k + 1 < j && s[k+1] != '/'
    ensures RawEnd(s, name, i) == j
    decreases j - i
  {
    hide Lower;
    if i < j {
      var n := |name| + 2;
      if i + n < |s| && Lower(s[i..i+n]) == "</" + name { LowerStart(s, i, n, name); }
      RawEndIs(s, name, i + 1, j);
    }
  }

  lemma {:induction false} DroppedTurn(s: string, i: nat, st: Stack, t: Token, rest: seq<Token>, url: string -> bool)
    requires t.Dropped? && TokenOk(t) && Fit(t, rest) && TokensOk(rest)
    requires i < |s| && At(s, i, SpellToken(t)) && Begins(s, i + |SpellToken(t)|, rest)
    ensures Turn(s, State(i, st), url) == State(i + |SpellToken(t)|, st)
  {
    hide At, TagAt, S.SpellTag, Lower, S.AttrsOk, S.PutAll, S.FirstsOf, IsLetter, S.TagName, RawEnd, EndThere, Begins, Fit;
    var w := S.SpellTag(false, t.name, t.attrs, t.tail);
    AtSplit(s, i, w, t.body);
    TagBegins(false, t.name, t.attrs, t.tail);
    S.TagReads(s, i, false, t.name, t.attrs, t.tail);
    AtChar(s, i, w, 0);
    AtChar(s, i, w, 1);
    AtFits(s, i, w);
    NotSpecial(s, i);
    AtBracket(s, i, st, url);
    BodyEnds(s, i + |w|, t, rest);
  }

  /** The body runs up to its end tag. */
  lemma {:induction false} BodyEnds(s: string, a: nat, t: Token, rest: seq<Token>)
    requires t.Dropped? && TokenOk(t) && Fit(t, rest) && TokensOk(rest) && a <= |s| && At(s, a, t.body) && Begins(s, a + |t.body|, rest)
    ensures RawEnd(s, Lower(t.name), a) == a + |t.body|
  {
    hide At, S.SpellTag, Lower, S.AttrsOk, S.TagName, RawEnd, SpellTokens, EndThere;
    var j := a + |t.body|;
    S.Chars(s, a, t.body);
    forall k | a <= k < j && s[k] == '<' ensures k + 1 < j && s[k+1] != '/' {
      assert s[a+(k-a)] == t.body[k-a];
      assert s[a+(k+1-a)] == t.body[k+1-a];
    }
    if rest == [] {
      AtEnd(s, j, Lower(t.name));
    } else {
      FirstToken(s, j, rest);
      EndTagThere(s, j, rest[0]);
    }
    RawEndIs(s, Lower(t.name), a, j);
  }

  lemma {:induction false} AtEnd(s: string, j: nat, name: string)
    requires Begins(s, j, [])
    ensures EndThere(s, j, name)
  {
    hide Lower;
  }

  lemma {:induction false} FirstToken(s: string, j: nat, ts: seq<Token>)
    requires Begins(s, j, ts) && ts != []
    ensures At(s, j, SpellToken(ts[0])) && j + |SpellToken(ts[0])| <= |s| && Begins(s, j + |SpellToken(ts[0])|, ts[1..])
  {
    hide At, SpellToken;
    AtSplit(s, j, SpellToken(ts[0]), SpellTokens(ts[1..]));
    AtFits(s, j, SpellToken(ts[0]));
  }

  lemma {:induction false} EndTagThere(s: string, j: nat, t: Token)
    requires t.Typed? && t.closing && TokenOk(t) && At(s, j, SpellToken(t)) && j <= |s|
    ensures EndThere(s, j, Lower(t.name))
  {
    hide At, S.Rest, S.AttrsOk, S.TagName, IsSpaceOrSlash, Lower;
    var n, r := t.name, S.Rest(t.attrs, t.tail);
    AtSplit(s, j, "</", n + r);
    AtSplit(s, j + 2, n, r);
    AtSplit(s, j, "</", n);
    S.Chars(s, j, "</" + n);
    RestEnds(t.attrs, t.tail);
    AtFits(s, j + 2 + |n|, r);
    S.NextPart(s, j + 2 + |n|, t.attrs, t.tail);
    EndName(n);
    GapSign(s, j + 2 + |n|, t.attrs, t.tail);
  }

  lemma {:induction false} EndName(n: string)
    ensures Lower("</" + n) == "</" + Lower(n) && |Lower(n)| == |n|
  {}

  lemma {:induction false} GapSign(s: string, i: nat, attrs: seq<S.Attr>, tail: string)
    requires i < |s| && S.AttrsOk(attrs, tail)
    requires var g := S.FirstGap(attrs, tail); (g != "" ==> s[i] == g[0]) && (g == "" ==> s[i] == '>')
    ensures IsSpaceOrSlash(s[i]) || s[i] == '>'
  {
    hide IsSpaceOrSlash, S.GivenOk, S.AttrName, S.Parted;
    if attrs != [] { assert S.AttrOk(attrs[0]); }
  }

  // ---- whole texts ----

  lemma {:induction false} TokensRead(s: string, i: nat, st: Stack, ts: seq<Token>, url: string -> bool)
    requires TokensOk(ts) && Begins(s, i, ts)
    ensures ParseAt(s, State(i, st), url) == ParseAt(s, State(|s|, Effects(st, ts, url)), url)
    decreases |ts|
  {
    hide At, ParseAt, Turn, SpellToken, Effect, TokenOk, Fit, Begins;
    if ts == [] {
      NoTokens(s, i);
    } else {
      var t := ts[0];
      FirstToken(s, i, ts);
      TokenReads(s, i, st, t, ts[1..], url);
      TokensRead(s, i + |SpellToken(t)|, Effect(st, t, url), ts[1..], url);
    }
  }

  lemma {:induction false} NoTokens(s: string, i: nat)
    requires Begins(s, i, [])
    ensures i == |s|
  {}

  lemma {:induction false} TokenReads(s: string, i: nat, st: Stack, t: Token, rest: seq<Token>, url: string -> bool)
    requires TokenOk(t) && Fit(t, rest) && TokensOk(rest) && i <= |s| && At(s, i, SpellToken(t)) && Begins(s, i + |SpellToken(t)|, rest)
    ensures ParseAt(s, State(i, st), url) == ParseAt(s, State(i + |SpellToken(t)|, Effect(st, t, url)), url)
  {
    hide At, ParseAt, Turn, Begins, S.SpellTag, DecodeEntities, AddText, OpenElement, CloseElement, Lower, S.AttrsOk, S.TagName, S.PutAll;
    AtFits(s, i, SpellToken(t));
    match t
    case Words(text) => WordsTurn(s, i, st, text, rest, url);
    case Typed(_, _, _, _) =>
      TokenBegins(t);
      TagTurn(s, i, st, t, url);
      ParseTurn(s, State(i, st), url);
    case Comment(text) =>
      TokenBegins(t);
      CommentTurn(s, i, st, text, url);
      ParseTurn(s, State(i, st), url);
    case Dropped(_, _, _, _) =>
      TokenBegins(t);
      DroppedTurn(s, i, st, t, rest, url);
      ParseTurn(s, State(i, st), url);
  }

  const ROOT: Stack := [Frame("", None, [])]

  /** A text of tokens, in any spelling, gives the tree its tokens build one after the other. */
  lemma {:induction false} TextReads(ts: seq<Token>, url: string -> bool)
    requires TokensOk(ts)
    ensures Parsed(SpellTokens(ts), url) == PopTo(Effects(ROOT, ts, url), 1)[0].kids
  {
    hide ParseAt, SpellTokens, Effects, TokensOk;
    var s := SpellTokens(ts);
    assert s[0..|s|] == s;
    TokensRead(s, 0, ROOT, ts, url);
    AllRead(s, Effects(ROOT, ts, url), url);
  }

  lemma {:induction false} AllRead(s: string, st: Stack, url: string -> bool)
    ensures ParseAt(s, State(|s|, st), url) == PopTo(st, 1)[0].kids
  {}

  // ---- end tags that may be left out ----

  lemma {:induction false} TopCloses(st: Stack, name: string)
    requires |st| > 1 && Top(st).tag == name && name != "br" && (name in ART_TAGS || name == "a")
    ensures CloseElement(st, name) == Pop(st)
  {
    assert OpenIndex(st, name) == |st| - 1;
    assert PopTo(Pop(st), |st| - 1) == Pop(st);
  }

  /** A block ends the paragraph or heading it starts in, and an item the item, as if the end tag stood before it. */
  lemma {:induction false} EndsImplied(st: Stack, name: string, attrs: map<string, string>, url: string -> bool)
    requires 1 < |st| <= MAX_DEPTH
    requires (name in BLOCKS && Top(st).tag in TEXT_BLOCKS) || (name == "li" && Top(st).tag == "li")
    ensures OpenElement(st, name, attrs, url) == CloseElement(st, Top(st).tag) + [Frame(name, None, [])]
  {
    hide SafeHref;
    TopCloses(st, Top(st).tag);
  }

  /** An end tag without its start tag does nothing. */
  lemma {:induction false} StrayEnd(st: Stack, name: string)
    requires forall k :: 0 < k < |st| ==> st[k].tag != name
    ensures CloseElement(st, name) == st
  {
    NothingOpen(st, name);
  }

  lemma {:induction false} NothingOpen(st: Stack, name: string)
    requires forall k :: 0 < k < |st| ==> st[k].tag != name
    ensures OpenIndex(st, name) == 0
  {}

  /** The elements still open at the end of the text are closed there, as if their end tags stood. */
  lemma {:induction false} OpenAtEnd(st: Stack)
    requires |st| > 1 && Top(st).tag != "br" && (Top(st).tag in ART_TAGS || Top(st).tag == "a")
    ensures PopTo(CloseElement(st, Top(st).tag), 1) == PopTo(st, 1)
  {
    TopCloses(st, Top(st).tag);
  }
}
