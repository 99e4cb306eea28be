// The reader's `readTag` on the tags the writer prints (apps/admin-web/src/lib/richtext.ts:102-141).

module TagReading {
  import opened Base
  import opened Markup
  import opened Reader
  import opened Escaping

  predicate IsLowerAlnum(c: char) { 'a' <= c <= 'z' || IsDigit(c) }

  /** A tag name the writer uses. */
  predicate PlainName(tag: string) {
    tag != "" && IsLetter(tag[0]) && forall k :: 0 <= k < |tag| ==> IsLowerAlnum(tag[k])
  }

  lemma {:induction false} ArtTagsArePlain(tag: string)
    requires tag in ART_TAGS || tag == "a"
    ensures PlainName(tag) && tag !in RAW_DROPPED
  {
    assert tag == "p" || tag == "br" || tag == "strong" || tag == "em" || tag == "u" || tag == "ul" || tag == "ol"
        || tag == "li" || tag == "h3" || tag == "h4" || tag == "blockquote" || tag == "a";
  }

  lemma {:induction false} AtSplit(s: string, i: nat, a: string, b: string)
    ensures At(s, i, a + b) <==> At(s, i, a) && At(s, i + |a|, b)
  {
    if At(s, i, a + b) {
      assert s[i..i+|a|] == s[i..i+|a+b|][..|a|] == a;
      assert s[i+|a|..i+|a|+|b|] == s[i..i+|a+b|][|a|..] == b;
    }
    if At(s, i, a) && At(s, i + |a|, b) {
      assert s[i..i+|a+b|] == s[i..i+|a|] + s[i+|a|..i+|a|+|b|];
    }
  }

  lemma {:induction false} AtChar(s: string, i: nat, a: string, k: nat)
    requires At(s, i, a) && k < |a|
    ensures s[i+k] == a[k]
  {
    assert s[i..i+|a|][k] == a[k];
  }

  lemma {:induction false} NameReads(s: string, i: nat, tag: string)
    requires At(s, i, tag) && PlainName(tag) && i + |tag| < |s| && !IsNameChar(s[i+|tag|])
    ensures IsLetter(s[i]) && Skip(s, i, IsNameChar) == i + |tag| && Lower(s[i..i+|tag|]) == tag
  {
    forall k | i <= k < i + |tag| ensures IsNameChar(s[k]) && s[k] == tag[k-i] { AtChar(s, i, tag, k - i); }
    SkipTo(s, i, i + |tag|, IsNameChar);
  }

  lemma {:induction false} AttrsEnd(s: string, i: nat, attrs: map<string, string>)
    requires i < |s| && s[i] == '>'
    ensures AttrsAt(s, i, attrs) == Some((attrs, i + 1))
  {
    SkipTo(s, i, i, IsSpaceOrSlash);
  }

  lemma {:induction false} StartTagReads(s: string, at: nat, tag: string)
    requires at < |s| && At(s, at, StartTag(tag, None)) && PlainName(tag)
    ensures TagAt(s, at) == Some(Tag(tag, false, map[], at + |tag| + 2))
    ensures at + 1 < |s| && s[at] == '<' && IsLetter(s[at+1])
  {
    hide PlainName, Lower, Skip, IsNameChar, AttrsAt, At;
    assert StartTag(tag, None) == "<" + (tag + ">");
    AtSplit(s, at, "<", tag + ">");
    AtSplit(s, at + 1, tag, ">");
    AtChar(s, at, "<", 0);
    AtChar(s, at + 1 + |tag|, ">", 0);
    AtFits(s, at + 1 + |tag|, ">");
    assert !IsNameChar('>') by { PunctuationIsNoName(); }
    NameReads(s, at + 1, tag);
    assert s[at+1] != '/' by { SlashIsNoLetter(); }
    AttrsEnd(s, at + 1 + |tag|, map[]);
  }

  lemma {:induction false} PunctuationIsNoName()
    ensures !IsNameChar('>') && !IsNameChar(' ')
  {}

  lemma {:induction false} SlashIsNoLetter()
    ensures !IsLetter('/') && !IsLetter('!') && !IsLetter('?')
  {}

  lemma {:induction false} EndTagReads(s: string, at: nat, tag: string)
    requires at < |s| && At(s, at, EndTag(tag)) && PlainName(tag)
    ensures TagAt(s, at) == Some(Tag(tag, true, map[], at + |tag| + 3))
    ensures at + 1 < |s| && s[at] == '<' && s[at+1] == '/'
  {
    hide PlainName, Lower, Skip, IsNameChar, IsLetter, AttrsAt, At;
    assert EndTag(tag) == "</" + (tag + ">");
    AtSplit(s, at, "</", tag + ">");
    AtSplit(s, at + 2, tag, ">");
    AtChar(s, at, "</", 0);
    AtChar(s, at, "</", 1);
    AtChar(s, at + 2 + |tag|, ">", 0);
    AtFits(s, at + 2 + |tag|, ">");
    assert !IsNameChar('>') by { PunctuationIsNoName(); }
    NameReads(s, at + 2, tag);
    AttrsEnd(s, at + 2 + |tag|, map[]);
  }

  /** The characters of a quoted value without quotes in it. */
  lemma {:induction false} QuotedChars(s: string, i: nat, e: string)
    requires i <= |s| && At(s, i, "=\"" + (e + "\""))
    ensures i + 3 + |e| <= |s| && s[i] == '=' && s[i+1] == '"' && s[i+2..i+2+|e|] == e && s[i+2+|e|] == '"'
    ensures forall k :: i + 2 <= k < i + 2 + |e| ==> s[k] == e[k-i-2]
  {
    AtSplit(s, i, "=\"", e + "\"");
    AtSplit(s, i + 2, e, "\"");
    AtChar(s, i, "=\"", 0);
    AtChar(s, i, "=\"", 1);
    AtChar(s, i + 2 + |e|, "\"", 0);
    forall k | i + 2 <= k < i + 2 + |e| ensures s[k] == e[k-i-2] { AtChar(s, i + 2, e, k - (i + 2)); }
  }

  /** The quoted value of the link tag. */
  lemma {:induction false} QuotedValue(s: string, i: nat, h: string)
    requires i <= |s| && At(s, i, "=\"" + (EscapeAttr(h) + "\""))
    ensures ValueAt(s, i) == Value(EscapeAttr(h), i + 3 + |EscapeAttr(h)|)
  {
    hide EscapeAttr, At, Skip, Find;
    var e := EscapeAttr(h);
    QuotedChars(s, i, e);
    assert '"' !in e by { EscapeClean(h, true); EscapeIs(h); }
    SkipTo(s, i, i, IsSpace);
    SkipTo(s, i + 1, i + 1, IsSpace);
    FindIs(s, '"', i + 2, i + 2 + |e|);
  }

  lemma {:induction false} EscapeIs(h: string)
    ensures EscapeAttr(h) == Escape(h, true)
  {}

  /** Where the parts of the link attribute stand. */
  lemma {:induction false} HrefParts(s: string, i: nat, e: string)
    requires i <= |s| && At(s, i, " href=\"" + (e + "\">"))
    ensures i + 9 + |e| <= |s|
    ensures s[i] == ' ' && s[i+1] == 'h' && s[i+2] == 'r' && s[i+3] == 'e' && s[i+4] == 'f' && s[i+5] == '='
    ensures At(s, i + 5, "=\"" + (e + "\"")) && s[i+8+|e|] == '>'
  {
    hide At;
    assert " href=\"" + (e + "\">") == " href" + (("=\"" + (e + "\"")) + ">");
    AtSplit(s, i, " href", ("=\"" + (e + "\"")) + ">");
    AtSplit(s, i + 5, "=\"" + (e + "\""), ">");
    AtChar(s, i, " href", 0);
    AtChar(s, i, " href", 1);
    AtChar(s, i, " href", 2);
    AtChar(s, i, " href", 3);
    AtChar(s, i, " href", 4);
    AtChar(s, i + 5, "=\"" + (e + "\""), 0);
    AtChar(s, i + 8 + |e|, ">", 0);
    AtFits(s, i + 8 + |e|, ">");
  }

  lemma {:induction false} AtFits(s: string, i: nat, a: string)
    requires At(s, i, a)
    ensures i + |a| <= |s|
  {}

  lemma {:induction false} HrefSkips(s: string, i: nat)
    requires i + 6 <= |s|
    requires s[i] == ' ' && s[i+1] == 'h' && s[i+2] == 'r' && s[i+3] == 'e' && s[i+4] == 'f' && s[i+5] == '='
    ensures Skip(s, i, IsSpaceOrSlash) == i + 1 && Skip(s, i + 1, IsAttrChar) == i + 5
  {
    SkipTo(s, i, i + 1, IsSpaceOrSlash);
    SkipTo(s, i + 1, i + 5, IsAttrChar);
  }

  /** The attribute of the link tag, after its name. */
  lemma {:induction false} HrefReads(s: string, i: nat, h: string)
    requires i <= |s| && At(s, i, " href=\"" + (EscapeAttr(h) + "\">"))
    ensures AttrsAt(s, i, map[]) == Some((map["href" := h], i + 9 + |EscapeAttr(h)|))
  {
    var e := EscapeAttr(h);
    hide EscapeAttr, ValueAt, DecodeEntities, At, Lower, AttrsAt, Skip;
    HrefParts(s, i, e);
    HrefSkips(s, i);
    QuotedValue(s, i + 5, h);
    HrefName(s, i + 1);
    DecodeUndoesEscape(h);
    AttrsEnd(s, i + 8 + |e|, map["href" := h]);
    AttrsStep(s, i, i + 1, i + 5, e, i + 8 + |e|, h);
  }

  lemma {:induction false} HrefName(s: string, i: nat)
    requires i + 4 <= |s| && s[i] == 'h' && s[i+1] == 'r' && s[i+2] == 'e' && s[i+3] == 'f'
    ensures Lower(s[i..i+4]) == "href"
  {}

  lemma {:induction false} AttrsStep(s: string, i: nat, a: nat, b: nat, v: string, next: nat, h: string)
    requires i <= a <= b <= |s| && Skip(s, i, IsSpaceOrSlash) == a && a < |s| && s[a] != '>'
    requires Skip(s, a, IsAttrChar) == b && ValueAt(s, b) == Value(v, next)
    requires Lower(s[a..b]) == "href" && DecodeEntities(v) == h
    ensures AttrsAt(s, i, map[]) == AttrsAt(s, next, map["href" := h])
  {
    hide Lower, ValueAt, DecodeEntities, Skip;
    var none: map<string, string> := map[];
    assert "href" !in none;
    assert Put(none, "href", v) == none["href" := h] == map["href" := h];
  }

  lemma {:induction false} LinkTagReads(s: string, at: nat, h: string)
    requires at < |s| && At(s, at, StartTag("a", Some(h)))
    ensures TagAt(s, at) == Some(Tag("a", false, map["href" := h], at + |StartTag("a", Some(h))|))
    ensures at + 1 < |s| && s[at] == '<' && IsLetter(s[at+1])
  {
    var e := EscapeAttr(h);
    hide EscapeAttr, AttrsAt, Lower, Skip, At;
    var tail := " href=\"" + (e + "\">");
    assert StartTag("a", Some(h)) == "<a" + tail;
    AtSplit(s, at, "<a", tail);
    AtChar(s, at, "<a", 0);
    AtChar(s, at, "<a", 1);
    AtChar(s, at + 2, tail, 0);
    AtFits(s, at + 2, tail);
    assert tail[0] == ' ';
    AtSplit(s, at, "<", "a");
    assert "<" + "a" == "<a";
    NameReads(s, at + 1, "a");
    HrefReads(s, at + 2, h);
  }
}
