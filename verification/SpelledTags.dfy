// Tags as people type them (`readTag`, apps/admin-web/src/lib/richtext.ts:102-141): names in any case, attributes with any white
// space, in double quotes, in single quotes, bare or without a value. Whatever the spelling, the same tag is read.

module SpelledTags {
  import opened Base
  import opened Markup
  import opened Reader
  import opened Escaping
  import opened TagReading

  datatype Quote = Double | Single | Bare

  /** What follows an attribute name: "=" with white space around it, and the value as typed. */
  datatype Given = Nothing | Given(before: string, after: string, quote: Quote, text: string)

  datatype Attr = Attr(gap: string, name: string, given: Given)

  predicate Spaces(s: string) { forall k :: 0 <= k < |s| ==> IsSpace(s[k]) }
  predicate Gap(s: string) { forall k :: 0 <= k < |s| ==> IsSpaceOrSlash(s[k]) }
  predicate AttrName(s: string) { s != "" && forall k :: 0 <= k < |s| ==> IsAttrChar(s[k]) }

  function QuoteOf(q: Quote): string { match q case Double => "\"" case Single => "'" case Bare => "" }

  predicate GivenOk(g: Given) {
    match g
    case Nothing => true
    case Given(before, after, quote, text) =>
      && Spaces(before) && Spaces(after)
      && match quote
         case Double => '"' !in text
         case Single => '\'' !in text
         case Bare => text != "" && text[0] != '"' && text[0] != '\'' && forall k :: 0 <= k < |text| ==> IsBareValueChar(text[k])
  }

  predicate AttrOk(a: Attr) { a.gap != "" && Gap(a.gap) && AttrName(a.name) && GivenOk(a.given) }

  function SpellGiven(g: Given): string {
    match g
    case Nothing => ""
    case Given(before, after, quote, text) => before + "=" + after + QuoteOf(quote) + text + QuoteOf(quote)
  }

  function Spell(a: Attr): string { a.gap + a.name + SpellGiven(a.given) }

  function SpellAll(attrs: seq<Attr>): string {
    if attrs == [] then "" else Spell(attrs[0]) + SpellAll(attrs[1..])
  }

  function TextOf(g: Given): string { if g.Nothing? then "" else g.text }

  /** A bare value ends at a space or at the end of the tag, not at a slash. */
  predicate Parted(attrs: seq<Attr>, tail: string) {
    attrs != [] ==>
      && Parted(attrs[1..], tail)
      && (attrs[0].given.Given? && attrs[0].given.quote == Bare ==>
            var next := if |attrs| > 1 then attrs[1].gap else tail; next == "" || IsSpace(next[0]))
  }

  predicate AttrsOk(attrs: seq<Attr>, tail: string) {
    (forall k :: 0 <= k < |attrs| ==> AttrOk(attrs[k])) && Gap(tail) && Parted(attrs, tail)
  }

  // ---- what the attributes mean ----

  /** No earlier attribute has this name, in any case. */
  predicate IsFirst(attrs: seq<Attr>, i: nat)
    requires i < |attrs|
  {
    forall j :: 0 <= j < i ==> Lower(attrs[j].name) != Lower(attrs[i].name)
  }

  /** Every name is there, with the decoded value of its first attribute. */
  predicate FirstsOf(attrs: seq<Attr>, m: map<string, string>) {
    && (forall i :: 0 <= i < |attrs| ==> Lower(attrs[i].name) in m)
    && (forall k :: k in m ==> exists i :: 0 <= i < |attrs| && Lower(attrs[i].name) == k)
    && (forall i :: 0 <= i < |attrs| && IsFirst(attrs, i) ==> Lower(attrs[i].name) in m && m[Lower(attrs[i].name)] == DecodeEntities(TextOf(attrs[i].given)))
  }

  function PutAll(m: map<string, string>, attrs: seq<Attr>): map<string, string>
    decreases |attrs|
  {
    if attrs == [] then m else PutAll(Put(m, Lower(attrs[0].name), TextOf(attrs[0].given)), attrs[1..])
  }

  lemma {:induction false} PutAllSnoc(m: map<string, string>, attrs: seq<Attr>, a: Attr)
    ensures PutAll(m, attrs + [a]) == Put(PutAll(m, attrs), Lower(a.name), TextOf(a.given))
    decreases |attrs|
  {
    hide Put, Lower;
    if attrs == [] {
      assert [a][1..] == [] && [] + [a] == [a];
    } else {
      PutAllSnoc(Put(m, Lower(attrs[0].name), TextOf(attrs[0].given)), attrs[1..], a);
      assert (attrs + [a])[1..] == attrs[1..] + [a];
    }
  }

  lemma {:induction false} LowerLength(s: string)
    ensures |Lower(s)| == |s|
  {}

  lemma {:induction false} PutFirsts(attrs: seq<Attr>)
    requires forall k :: 0 <= k < |attrs| ==> attrs[k].name != ""
    ensures FirstsOf(attrs, PutAll(map[], attrs))
    decreases |attrs|
  {
    hide Lower, DecodeEntities, PutAll, IsFirst;
    if attrs == [] {
      NothingPut();
    } else {
      var n := |attrs| - 1;
      var front, a := attrs[..n], attrs[n];
      assert attrs == front + [a];
      PutFirsts(front);
      PutAllSnoc(map[], front, a);
      LowerLength(a.name);
      forall i | 0 <= i < n ensures IsFirst(attrs, i) == IsFirst(front, i) { SameFirst(attrs, n, i); }
      LastFirst(attrs);
    }
  }

  lemma {:induction false} NothingPut()
    ensures PutAll(map[], []) == map[]
  {}

  lemma {:induction false} SameFirst(attrs: seq<Attr>, n: nat, i: nat)
    requires i < n <= |attrs|
    ensures IsFirst(attrs, i) == IsFirst(attrs[..n], i)
  {
    hide Lower;
  }

  lemma {:induction false} LastFirst(attrs: seq<Attr>)
    requires attrs != []
    ensures var n := |attrs| - 1; IsFirst(attrs, n) <==> forall j :: 0 <= j < n ==> Lower(attrs[..n][j].name) != Lower(attrs[n].name)
  {
    hide Lower;
    var n := |attrs| - 1;
    assert forall j :: 0 <= j < n ==> attrs[..n][j] == attrs[j];
  }

  // ---- reading them ----

  /** Gaps do not matter. */
  lemma {:induction false} AttrsSkip(s: string, i: nat, j: nat, m: map<string, string>)
    requires i <= j <= |s| && forall k :: i <= k < j ==> IsSpaceOrSlash(s[k])
    ensures AttrsAt(s, i, m) == AttrsAt(s, j, m)
  {
    hide IsSpaceOrSlash, ValueAt, Lower;
    SkipOver(s, i, j, IsSpaceOrSlash);
  }

  lemma {:induction false} SkipOver(s: string, i: nat, j: nat, p: char -> bool)
    requires i <= j <= |s| && forall k :: i <= k < j ==> p(s[k])
    ensures Skip(s, i, p) == Skip(s, j, p)
    decreases j - i
  {
    if i < j { SkipOver(s, i + 1, j, p); }
  }

  /** The characters of `w`, placed at `i`. */
  lemma {:induction false} Chars(s: string, i: nat, w: string)
    requires At(s, i, w)
    ensures i + |w| <= |s| && s[i..i+|w|] == w && forall k :: 0 <= k < |w| ==> s[i+k] == w[k]
  {
    forall k | 0 <= k < |w| ensures s[i+k] == w[k] { AtChar(s, i, w, k); }
  }

  predicate EndsBare(s: string, j: nat) { j < |s| && (IsSpace(s[j]) || s[j] == '>') }

  lemma {:induction false} SpacesAt(s: string, i: nat, w: string)
    requires At(s, i, w) && Spaces(w)
    ensures i + |w| <= |s| && forall k :: i <= k < i + |w| ==> IsSpace(s[k])
  {
    hide IsSpace, At;
    Chars(s, i, w);
    forall k | i <= k < i + |w| ensures IsSpace(s[k]) { assert s[i+(k-i)] == w[k-i]; }
  }

  /** Where the parts of a given value stand. */
  lemma {:induction false} GivenParts(s: string, i: nat, g: Given)
    requires i <= |s| && GivenOk(g) && g.Given? && At(s, i, SpellGiven(g))
    ensures var q := QuoteOf(g.quote); var b := i + |g.before|; var a := b + 1 + |g.after|;
            && a <= |s| && (forall k :: i <= k < b ==> IsSpace(s[k])) && s[b] == '=' && (forall k :: b + 1 <= k < a ==> IsSpace(s[k]))
            && At(s, a, q + g.text + q) && i + |SpellGiven(g)| == a + |q + g.text + q| <= |s|
  {
    hide IsSpace, At, QuoteOf;
    var q := QuoteOf(g.quote);
    var b := i + |g.before|;
    var rest := q + g.text + q;
    assert SpellGiven(g) == g.before + ("=" + (g.after + rest));
    AtSplit(s, i, g.before, "=" + (g.after + rest));
    AtSplit(s, b, "=", g.after + rest);
    AtSplit(s, b + 1, g.after, rest);
    SpacesAt(s, i, g.before);
    AtChar(s, b, "=", 0);
    SpacesAt(s, b + 1, g.after);
    AtFits(s, b + 1 + |g.after|, rest);
  }

  /** Where a value stands: white space, "=", white space, and its first character at `a`. */
  predicate ValueStarts(s: string, i: nat, b: nat, a: nat) {
    && i <= b < a < |s| && s[b] == '=' && !IsSpace(s[a])
    && (forall k :: i <= k < b ==> IsSpace(s[k])) && (forall k :: b + 1 <= k < a ==> IsSpace(s[k]))
  }

  lemma {:induction false} ValueFrom(s: string, i: nat, b: nat, a: nat)
    requires ValueStarts(s, i, b, a)
    ensures ValueAt(s, i) ==
      if s[a] == '"' || s[a] == '\'' then
        var close := Find(s, s[a], a + 1);
        if close == |s| then Unterminated else Value(s[a+1..close], close + 1)
      else Value(s[a..Skip(s, a, IsBareValueChar)], Skip(s, a, IsBareValueChar))
  {
    hide IsSpace, IsBareValueChar, Skip, Find;
    SpaceSigns();
    SkipTo(s, i, b, IsSpace);
    SkipTo(s, b + 1, a, IsSpace);
  }

  /** A value as it is typed is read as it is typed. */
  lemma {:induction false} GivenReads(s: string, i: nat, g: Given)
    requires i <= |s| && GivenOk(g) && g.Given? && At(s, i, SpellGiven(g))
    requires g.quote == Bare ==> EndsBare(s, i + |SpellGiven(g)|)
    ensures ValueAt(s, i) == Value(g.text, i + |SpellGiven(g)|) && i + |SpellGiven(g)| <= |s|
  {
    hide IsSpace, IsBareValueChar, Skip, Find, At, SpellGiven, ValueAt;
    var b := i + |g.before|;
    var a := b + 1 + |g.after|;
    GivenParts(s, i, g);
    SpaceSigns();
    if g.quote == Bare {
      assert "" + g.text + "" == g.text;
      BareReads(s, a, g.text);
    } else {
      QuotedFits(s, a, g.text, QuoteOf(g.quote)[0]);
      QuotedReads(s, a, QuoteOf(g.quote)[0], g.text);
    }
    ValueFrom(s, i, b, a);
  }

  lemma {:induction false} QuotedFits(s: string, a: nat, t: string, q: char)
    requires At(s, a, [q] + t + [q])
    ensures a < |s| && s[a] == q && At(s, a + 1, t) && At(s, a + 1 + |t|, [q])
  {
    hide At;
    SeqAssoc([q], t, [q]);
    AtSplit(s, a, [q], t + [q]);
    AtFits(s, a, [q]);
    AtChar(s, a, [q], 0);
    AtSplit(s, a + 1, t, [q]);
  }

  lemma {:induction false} BareReads(s: string, a: nat, t: string)
    requires At(s, a, t) && t != "" && t[0] != '"' && t[0] != '\'' && (forall k :: 0 <= k < |t| ==> IsBareValueChar(t[k])) && EndsBare(s, a + |t|)
    ensures a < |s| && s[a] == t[0] && !IsSpace(s[a]) && Skip(s, a, IsBareValueChar) == a + |t| && s[a..a+|t|] == t
  {
    hide Skip, At;
    Chars(s, a, t);
    forall k | a <= k < a + |t| ensures IsBareValueChar(s[k]) { assert s[a+(k-a)] == t[k-a]; }
    BareEnds(s, a + |t|);
    SkipTo(s, a, a + |t|, IsBareValueChar);
    assert s[a+0] == t[0];
  }

  lemma {:induction false} SpaceSigns()
    ensures !IsSpace('=') && !IsSpace('"') && !IsSpace('\'')
  {}

  lemma {:induction false} BareEnds(s: string, j: nat)
    requires EndsBare(s, j)
    ensures j < |s| && !IsBareValueChar(s[j])
  {}

  lemma {:induction false} QuotedReads(s: string, a: nat, q: char, text: string)
    requires At(s, a + 1, text) && At(s, a + 1 + |text|, [q]) && q !in text
    ensures Find(s, q, a + 1) == a + 1 + |text| < |s| && s[a+1..a+1+|text|] == text
  {
    hide At;
    Chars(s, a + 1, text);
    AtFits(s, a + 1 + |text|, [q]);
    AtChar(s, a + 1 + |text|, [q], 0);
    forall k | a + 1 <= k < a + 1 + |text| ensures s[k] != q { assert s[a+1+(k-a-1)] == text[k-a-1]; }
    FindIs(s, q, a + 1, a + 1 + |text|);
  }

  /** No value: the reader goes on behind the white space, which no "=" follows. */
  lemma {:induction false} NothingReads(s: string, i: nat, j: nat, m: map<string, string>)
    requires i <= j < |s| && (forall k :: i <= k < j ==> IsSpaceOrSlash(s[k])) && s[j] != '=' && !IsSpaceOrSlash(s[j])
    ensures var v := ValueAt(s, i); v.Value? && v.text == "" && AttrsAt(s, v.next, m) == AttrsAt(s, j, m)
  {
    hide AttrsAt;
    var e := Skip(s, i, IsSpace);
    assert !(e > j);
    assert s[e] != '=';
    AttrsSkip(s, e, j, m);
  }

  // ---- all attributes of a tag ----

  function Rest(attrs: seq<Attr>, tail: string): string { SpellAll(attrs) + (tail + ">") }

  /** The white space or slashes that come first. */
  function FirstGap(attrs: seq<Attr>, tail: string): string { if attrs == [] then tail else attrs[0].gap }

  lemma {:induction false} GapAt(s: string, i: nat, w: string)
    requires At(s, i, w) && Gap(w)
    ensures i + |w| <= |s| && forall k :: i <= k < i + |w| ==> IsSpaceOrSlash(s[k])
  {
    hide IsSpaceOrSlash, At;
    Chars(s, i, w);
    forall k | i <= k < i + |w| ensures IsSpaceOrSlash(s[k]) { assert s[i+(k-i)] == w[k-i]; }
  }

  lemma {:induction false} Signs()
    ensures !IsSpaceOrSlash('>') && !IsAttrChar('>') && !IsAttrChar('=')
    ensures forall c :: IsAttrChar(c) ==> !IsSpaceOrSlash(c) && c != '>' && c != '='
    ensures forall c :: IsSpaceOrSlash(c) ==> !IsAttrChar(c) && !IsNameChar(c) && c != '>' && c != '='
    ensures forall c :: IsSpace(c) ==> IsSpaceOrSlash(c)
  {}

  /** Where the parts of the first attribute stand. */
  lemma {:induction false} FirstParts(s: string, i: nat, attrs: seq<Attr>, tail: string)
    requires i <= |s| && attrs != [] && At(s, i, Rest(attrs, tail))
    ensures var a := attrs[0]; var p := i + |a.gap|; var b := p + |a.name|; var c := b + |SpellGiven(a.given)|;
            && At(s, i, a.gap) && At(s, p, a.name) && At(s, b, SpellGiven(a.given)) && c <= |s| && At(s, c, Rest(attrs[1..], tail))
            && i + |Rest(attrs, tail)| == c + |Rest(attrs[1..], tail)|
  {
    hide At, SpellGiven;
    var a, rest := attrs[0], Rest(attrs[1..], tail);
    var g := SpellGiven(a.given);
    assert Rest(attrs, tail) == a.gap + (a.name + (g + rest));
    AtSplit(s, i, a.gap, a.name + (g + rest));
    AtSplit(s, i + |a.gap|, a.name, g + rest);
    AtSplit(s, i + |a.gap| + |a.name|, g, rest);
    AtFits(s, i + |a.gap| + |a.name|, g);
  }

  /** What stands behind an attribute: a gap, or the end of the tag. */
  lemma {:induction false} NextPart(s: string, i: nat, attrs: seq<Attr>, tail: string)
    requires i <= |s| && AttrsOk(attrs, tail) && At(s, i, Rest(attrs, tail))
    ensures var j := i + |FirstGap(attrs, tail)|;
            && (forall k :: i <= k < j ==> IsSpaceOrSlash(s[k])) && j < |s| && s[j] != '=' && !IsSpaceOrSlash(s[j])
            && (attrs == [] ==> s[j] == '>') && (attrs != [] ==> IsAttrChar(s[j]))
            && !IsAttrChar(s[i]) && (FirstGap(attrs, tail) != "" ==> s[i] == FirstGap(attrs, tail)[0]) && (FirstGap(attrs, tail) == "" ==> s[i] == '>')
  {
    hide IsSpaceOrSlash, IsAttrChar, At, SpellGiven, GivenOk;
    Signs();
    if attrs == [] {
      assert Rest(attrs, tail) == tail + ">";
      AtSplit(s, i, tail, ">");
      GapAt(s, i, tail);
      AtFits(s, i + |tail|, ">");
      AtChar(s, i + |tail|, ">", 0);
      if tail != "" { AtChar(s, i, tail, 0); }
    } else {
      var a := attrs[0];
      FirstParts(s, i, attrs, tail);
      GapAt(s, i, a.gap);
      AtFits(s, i + |a.gap|, a.name);
      AtChar(s, i + |a.gap|, a.name, 0);
      AtChar(s, i, a.gap, 0);
    }
  }

  lemma {:induction false} NameEnds(s: string, p: nat, name: string)
    requires At(s, p, name) && AttrName(name) && p + |name| < |s| && !IsAttrChar(s[p+|name|])
    ensures Skip(s, p, IsAttrChar) == p + |name| && s[p..p+|name|] == name
  {
    hide IsAttrChar, At;
    Chars(s, p, name);
    forall k | p <= k < p + |name| ensures IsAttrChar(s[k]) { assert s[p+(k-p)] == name[k-p]; }
    SkipTo(s, p, p + |name|, IsAttrChar);
  }

  /** One attribute. */
  lemma {:induction false} AttrReads(s: string, i: nat, attrs: seq<Attr>, tail: string, m: map<string, string>)
    requires i <= |s| && attrs != [] && AttrsOk(attrs, tail) && At(s, i, Rest(attrs, tail))
    ensures var a := attrs[0]; var c := i + |Spell(a)|;
            && c <= |s| && At(s, c, Rest(attrs[1..], tail)) && AttrsOk(attrs[1..], tail) && i + |Rest(attrs, tail)| == c + |Rest(attrs[1..], tail)|
            && AttrsAt(s, i, m) == AttrsAt(s, c, Put(m, Lower(a.name), TextOf(a.given)))
  {
    hide IsSpaceOrSlash, IsAttrChar, At, GivenOk, ValueAt, Lower, Put, SpellGiven, AttrsAt, Rest;
    var a := attrs[0];
    var p := i + |a.gap|;
    var b := p + |a.name|;
    var c := b + |SpellGiven(a.given)|;
    FirstParts(s, i, attrs, tail);
    OkTail(attrs, tail);
    NextPart(s, i, attrs, tail);
    NextPart(s, c, attrs[1..], tail);
    SkipTo(s, i, p, IsSpaceOrSlash);
    Signs();
    GivenFollows(s, b, c, a.given);
    NameEnds(s, p, a.name);
    var m' := Put(m, Lower(a.name), TextOf(a.given));
    if a.given.Given? {
      BareParted(s, c, attrs, tail);
      GivenReads(s, b, a.given);
    } else {
      assert c == b by { NothingSpelled(); }
      var j := c + |FirstGap(attrs[1..], tail)|;
      NothingReads(s, c, j, m');
      AttrsSkip(s, c, j, m');
    }
    AttrsNext(s, i, p, b, m);
  }

  lemma {:induction false} NothingSpelled()
    ensures SpellGiven(Nothing) == ""
  {}

  lemma {:induction false} OkTail(attrs: seq<Attr>, tail: string)
    requires attrs != [] && AttrsOk(attrs, tail)
    ensures AttrsOk(attrs[1..], tail) && AttrOk(attrs[0])
  {
    hide AttrOk;
  }

  /** A name ends where its value begins, or at the next gap. */
  lemma {:induction false} GivenFollows(s: string, b: nat, c: nat, g: Given)
    requires GivenOk(g) && b <= |s| && At(s, b, SpellGiven(g)) && c == b + |SpellGiven(g)| <= |s| && (g.Nothing? ==> c < |s| && !IsAttrChar(s[c]))
    ensures b < |s| && !IsAttrChar(s[b])
  {
    hide At, QuoteOf, IsSpace;
    if g.Given? {
      GivenParts(s, b, g);
      Signs();
      Spaced(s, b, |g.before|);
    }
  }

  lemma {:induction false} Spaced(s: string, b: nat, n: nat)
    requires b + n < |s| && (forall k :: b <= k < b + n ==> IsSpace(s[k])) && s[b+n] == '='
    ensures !IsAttrChar(s[b])
  {}

  lemma {:induction false} BareParted(s: string, c: nat, attrs: seq<Attr>, tail: string)
    requires attrs != [] && AttrsOk(attrs, tail) && c < |s| && attrs[0].given.Given?
    requires var g := FirstGap(attrs[1..], tail); (g != "" ==> s[c] == g[0]) && (g == "" ==> s[c] == '>')
    ensures attrs[0].given.quote == Bare ==> EndsBare(s, c)
  {
    hide AttrOk;
  }

  lemma {:induction false} AttrsNext(s: string, i: nat, a: nat, b: nat, m: map<string, string>)
    requires i <= a < b <= |s| && Skip(s, i, IsSpaceOrSlash) == a && s[a] != '>' && Skip(s, a, IsAttrChar) == b && ValueAt(s, b).Value?
    ensures AttrsAt(s, i, m) == AttrsAt(s, ValueAt(s, b).next, Put(m, Lower(s[a..b]), ValueAt(s, b).text))
  {
    hide Lower, ValueAt, Put, Skip;
  }

  /** All of them, up to the end of the tag. */
  lemma {:induction false} AttrsRead(s: string, i: nat, attrs: seq<Attr>, tail: string, m: map<string, string>)
    requires i <= |s| && AttrsOk(attrs, tail) && At(s, i, Rest(attrs, tail))
    ensures AttrsAt(s, i, m) == Some((PutAll(m, attrs), i + |Rest(attrs, tail)|))
    decreases |attrs|
  {
    hide At, AttrOk, Put, Lower, AttrsAt, Spell, IsSpaceOrSlash, IsAttrChar, Parted;
    if attrs == [] {
      NextPart(s, i, attrs, tail);
      AttrsSkip(s, i, i + |tail|, m);
      AttrsEnd(s, i + |tail|, m);
      assert Rest(attrs, tail) == tail + ">";
    } else {
      AttrReads(s, i, attrs, tail, m);
      AttrsRead(s, i + |Spell(attrs[0])|, attrs[1..], tail, Put(m, Lower(attrs[0].name), TextOf(attrs[0].given)));
    }
  }

  // ---- a tag ----

  predicate TagName(name: string) { name != "" && IsLetter(name[0]) && forall k :: 0 <= k < |name| ==> IsNameChar(name[k]) }

  function SpellTag(closing: bool, name: string, attrs: seq<Attr>, tail: string): string {
    (if closing then "</" else "<") + (name + Rest(attrs, tail))
  }

  /** A tag reads as what it says, in every spelling: its name in lower case, and of each attribute name the first value, decoded. */
  lemma {:induction false} TagReads(s: string, i: nat, closing: bool, name: string, attrs: seq<Attr>, tail: string)
    requires i < |s| && TagName(name) && AttrsOk(attrs, tail) && At(s, i, SpellTag(closing, name, attrs, tail))
    ensures var t := TagAt(s, i);
            && t.Some? && t.value.name == Lower(name) && t.value.closing == closing && t.value.end == i + |SpellTag(closing, name, attrs, tail)|
            && FirstsOf(attrs, t.value.attrs) && t.value.attrs == PutAll(map[], attrs)
  {
    hide At, AttrOk, Lower, AttrsAt, IsSpaceOrSlash, IsAttrChar, IsNameChar, IsLetter, FirstsOf, PutAll, Rest, Parted;
    var open := if closing then "</" else "<";
    var n := i + |open|;
    AtSplit(s, i, open, name + Rest(attrs, tail));
    AtSplit(s, n, name, Rest(attrs, tail));
    AtFits(s, n, name);
    AtChar(s, i, open, 0);
    if closing { AtChar(s, i, open, 1); }
    AtChar(s, n, name, 0);
    SlashIsNoLetter();
    NextPart(s, n + |name|, attrs, tail);
    TagNameReads(s, n, name);
    AttrsRead(s, n + |name|, attrs, tail, map[]);
    NamesThere(attrs, tail);
    PutFirsts(attrs);
  }

  lemma {:induction false} NamesThere(attrs: seq<Attr>, tail: string)
    requires AttrsOk(attrs, tail)
    ensures forall k :: 0 <= k < |attrs| ==> attrs[k].name != ""
  {
    hide GivenOk, Gap, Parted;
    forall k | 0 <= k < |attrs| ensures attrs[k].name != "" { assert AttrOk(attrs[k]); }
  }

  lemma {:induction false} TagNameReads(s: string, n: nat, name: string)
    requires TagName(name) && At(s, n, name) && n + |name| < |s| && !IsAttrChar(s[n+|name|])
    ensures IsLetter(s[n]) && Skip(s, n, IsNameChar) == n + |name| && s[n..n+|name|] == name
  {
    hide At, IsNameChar, IsLetter, IsAttrChar;
    Chars(s, n, name);
    NamesAreAttrs();
    assert s[n+0] == name[0];
    forall k | n <= k < n + |name| ensures IsNameChar(s[k]) { assert s[n+(k-n)] == name[k-n]; }
    SkipTo(s, n, n + |name|, IsNameChar);
  }

  lemma {:induction false} NamesAreAttrs()
    ensures forall c :: IsNameChar(c) ==> IsAttrChar(c)
  {}
}
