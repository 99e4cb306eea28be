// Which texts are links, and what each becomes (apps/rich-editor/src/href.ts:14-74, 95-152), as a grammar: white space, a scheme in any
// case, an authority and its tail, or a mail name and its domain. The check accepts exactly these texts and changes nothing but the
// case of the scheme and the spelling of the host; of a mail link only the address stays.

module LinkReading {
  import opened Base
  import opened Chars
  import opened Href
  import opened HostNames
  import opened LinkShape
  import R = Reader

  /** The letter `d` or its capital. */
  predicate LetterFor(c: char, d: char) { c == d || ('A' <= c <= 'Z' && c as int + 32 == d as int) }

  predicate Spells(s: string, word: string) { |s| == |word| && forall i :: 0 <= i < |s| ==> LetterFor(s[i], word[i]) }

  /** The text is `s` with nothing but white space around it. */
  ghost predicate StandsIn(raw: string, s: string) { Around(raw, s, IsSpaceChar) }

  predicate PlainHost(authority: string) { forall i :: 0 <= i < |authority| ==> authority[i] !in "@:[]%/?#" }

  /** The host that an authority names: its ASCII form in small letters, without the dot of the root. */
  ghost predicate Names(authority: string, host: string, idna: string -> Option<string>) {
    && authority != "" && ByteLength(authority) <= 500 && PlainHost(authority) && HostName(host)
    && match idna(authority)
       case None => false
       case Some(ascii) => |ascii| <= 253 && (Spells(ascii, host) || Spells(ascii, host + "."))
  }

  ghost predicate WebText(s: string, h: string, scheme: string, authority: string, tail: string, host: string, idna: string -> Option<string>) {
    && s == scheme + "://" + authority + tail && Spells(scheme, "https")
    && (tail == "" || tail[0] in "/?#") && Names(authority, host, idna)
    && h == "https://" + host + tail
  }

  ghost predicate MailText(s: string, h: string, scheme: string, local: string, domain: string, query: string, host: string, idna: string -> Option<string>) {
    && s == scheme + ":" + local + "@" + domain + query && Spells(scheme, "mailto")
    && DotAtom(local) && |local| <= 64 && '?' !in local && '?' !in domain && (query == "" || query[0] == '?') && Names(domain, host, idna)
    && h == "mailto:" + local + "@" + host
  }

  ghost predicate WebReading(s: string, h: string, idna: string -> Option<string>) {
    exists scheme, authority, tail, host :: WebText(s, h, scheme, authority, tail, host, idna)
  }

  ghost predicate MailReading(s: string, h: string, idna: string -> Option<string>) {
    exists scheme, local, domain, query, host :: MailText(s, h, scheme, local, domain, query, host, idna)
  }

  /** The text `s` is a link to `h`. */
  ghost predicate LinkTo(s: string, h: string, schemes: set<string>, idna: string -> Option<string>) {
    && ByteLength(s) <= 500 && LinkChars(s)
    && (("https" in schemes && WebReading(s, h, idna)) || ("mailto" in schemes && MailReading(s, h, idna)))
  }

  // ---- small letters ----

  predicate NoCapital(s: string) { forall i :: 0 <= i < |s| ==> !('A' <= s[i] <= 'Z') }

  lemma {:induction false} SpellsLower(s: string, word: string)
    requires NoCapital(word)
    ensures R.Lower(s) == word <==> Spells(s, word)
  {
    var l := R.Lower(s);
    assert |l| == |s| && forall i :: 0 <= i < |s| ==> l[i] == R.LowerChar(s[i]);
    if Spells(s, word) {
      forall i | 0 <= i < |s| ensures l[i] == word[i] { assert LetterFor(s[i], word[i]) && !('A' <= word[i] <= 'Z'); }
      assert l == word;
    }
    if l == word {
      forall i | 0 <= i < |s| ensures LetterFor(s[i], word[i]) {}
    }
  }

  // ---- white space around ----

  /** Trimming cuts exactly the white space around a text that has none. */
  lemma {:induction false} TrimExactly(raw: string, s: string)
    requires s != "" && LinkChars(s)
    ensures TrimSpaces(raw) == s <==> StandsIn(raw, s)
  {
    hide TrimLeft, TrimRight, IsSpaceChar, Around;
    EdgeChars(s);
    TrimAround(raw, s, IsSpaceChar);
  }

  lemma {:induction false} EdgeChars(s: string)
    requires s != "" && LinkChars(s)
    ensures !IsSpaceChar(s[0]) && !IsSpaceChar(s[|s|-1])
  {
    assert LinkChar(s[0]) && LinkChar(s[|s|-1]);
  }

  // ---- hosts ----

  lemma {:induction false} PlainHostIs(a: string)
    ensures PlainHost(a) <==> !Has(a, IsHostBreaker) && !Has(a, EndsHost)
  {
    assert forall c: char :: c in "@:[]%/?#" <==> IsHostBreaker(c) || EndsHost(c);
    if !PlainHost(a) {
      var i :| 0 <= i < |a| && a[i] in "@:[]%/?#";
      assert IsHostBreaker(a[i]) || EndsHost(a[i]);
    }
  }

  /** A host name in small letters has its dots between labels. */
  lemma {:induction false} HostDots(h: string)
    requires HostName(h)
    ensures h != "" && NoCapital(h) && NoCapital(h + ".") && h[0] != '.' && h[|h|-1] != '.' && !Contains(h, "..")
  {
    hide Contains, Dotted, LabelName, IsLocalChar, Decimal, Hexadecimal, HostOk;
    HostOkExactly(h);
    HostChars(h);
    var labels :| HostOf(h, labels);
    forall k | 0 <= k < |labels| ensures Atom(labels[k]) { LabelAtom(labels[k]); }
    assert Atoms(h, labels);
    DotAtomAccepted(h, labels);
  }

  lemma {:induction false} LabelAtom(l: string)
    requires LabelName(l)
    ensures Atom(l)
  {}

  lemma {:induction false} RootDot(h: string)
    requires h != "" && h[0] != '.' && h[|h|-1] != '.' && !Contains(h, "..")
    ensures !StartsWith(h, ".") && !EndsWith(h, ".")
    ensures !StartsWith(h + ".", ".") && !Contains(h + ".", "..") && EndsWith(h + ".", ".") && (h + ".")[..|h + "."|-1] == h
  {
    hide Contains;
    ContainsTwoDots(h);
    ContainsTwoDots(h + ".");
    var n := |h|;
    assert h[n-1..][0] == h[n-1];
  }

  /** The host check, on every authority. */
  lemma {:induction false} HostReads(a: string, host: string, idna: string -> Option<string>)
    ensures CleanHost(a, idna) == Some(host) <==> Names(a, host, idna)
  {
    hide HostOk, HostName, StartsWith, EndsWith, Contains, ByteLength, R.Lower, Spells, PlainHost, Has;
    PlainHostIs(a);
    HostOkExactly(host);
    if HostName(host) {
      HostDots(host);
      RootDot(host);
    }
    if idna(a).Some? {
      var ascii := idna(a).value;
      assert |R.Lower(ascii)| == |ascii| by { LowerSize(ascii); }
      if HostName(host) {
        SpellsLower(ascii, host);
        SpellsLower(ascii, host + ".");
      }
      if EndsWith(R.Lower(ascii), ".") { LastDot(R.Lower(ascii)); }
    }
  }

  lemma {:induction false} LowerSize(s: string)
    ensures |R.Lower(s)| == |s|
  {}

  lemma {:induction false} LastDot(s: string)
    requires EndsWith(s, ".")
    ensures s != "" && s == s[..|s|-1] + "."
  {}

  // ---- the two schemes ----

  ghost predicate WebRest(rest: string, h: string, authority: string, tail: string, host: string, idna: string -> Option<string>) {
    rest == "//" + authority + tail && (tail == "" || tail[0] in "/?#") && Names(authority, host, idna) && h == "https://" + host + tail
  }

  lemma {:induction false} WebGiven(rest: string, h: string, authority: string, tail: string, host: string, idna: string -> Option<string>)
    requires WebRest(rest, h, authority, tail, host, idna)
    ensures CleanHttps(rest, idna) == Some(h)
  {
    hide CleanHost, ByteLength, HostName, Spells;
    var after := rest[2..];
    assert after == authority + tail;
    PlainHostIs(authority);
    IndexIs(after, EndsHost, |authority|);
    assert after[..|authority|] == authority && after[|authority|..] == tail;
    HostReads(authority, host, idna);
  }

  lemma {:induction false} WebTaken(rest: string, h: string, idna: string -> Option<string>) returns (authority: string, tail: string, host: string)
    requires CleanHttps(rest, idna) == Some(h)
    ensures WebRest(rest, h, authority, tail, host, idna)
  {
    hide CleanHost, Names;
    var after := rest[2..];
    var end := IndexOf(after, EndsHost);
    authority, tail := after[..end], after[end..];
    host := CleanHost(authority, idna).value;
    HostReads(authority, host, idna);
    assert rest == "//" + after;
    SeqAssoc("//", authority, tail);
  }

  ghost predicate MailRest(rest: string, h: string, local: string, domain: string, query: string, host: string, idna: string -> Option<string>) {
    && rest == local + "@" + domain + query && DotAtom(local) && |local| <= 64 && '?' !in local && '?' !in domain
    && (query == "" || query[0] == '?') && Names(domain, host, idna) && h == "mailto:" + local + "@" + host
  }

  lemma {:induction false} MailGiven(rest: string, h: string, local: string, domain: string, query: string, host: string, idna: string -> Option<string>)
    requires MailRest(rest, h, local, domain, query, host, idna)
    ensures CleanMailto(rest, idna) == Some(h)
  {
    hide CleanHost, Names, ValidLocalPart, DotAtom;
    var addr := local + "@" + domain;
    assert rest == addr + query;
    IndexIs(rest, c => c == '?', |addr|);
    assert rest[..|addr|] == addr;
    NoAt(local);
    IndexIs(addr, c => c == '@', |local|);
    assert addr[..|local|] == local && addr[|local|+1..] == domain;
    HostReads(domain, host, idna);
    ValidLocalPartExactly(local);
  }

  lemma {:induction false} NoAt(local: string)
    requires DotAtom(local)
    ensures '@' !in local
  {
    hide IsLocalChar, Contains, Dotted;
    var atoms :| Atoms(local, atoms);
    DotAtomAccepted(local, atoms);
    assert !IsLocalChar('@') by { AtIsNot(); }
  }

  lemma {:induction false} AtIsNot()
    ensures !IsLocalChar('@')
  {}

  lemma {:induction false} MailTaken(rest: string, h: string, idna: string -> Option<string>) returns (local: string, domain: string, query: string, host: string)
    requires CleanMailto(rest, idna) == Some(h)
    ensures MailRest(rest, h, local, domain, query, host, idna)
  {
    hide CleanHost, Names, ValidLocalPart, DotAtom;
    var q := IndexOf(rest, c => c == '?');
    var addr := rest[..q];
    var at := IndexOf(addr, c => c == '@');
    local, domain, query := addr[..at], addr[at+1..], rest[q..];
    host := CleanHost(domain, idna).value;
    HostReads(domain, host, idna);
    ValidLocalPartExactly(local);
    assert '?' !in addr;
    assert addr == local + "@" + domain && rest == addr + query;
  }

  // ---- the check ----

  lemma {:induction false} SchemeIs(s: string, scheme: string, rest: string, word: string)
    requires s == scheme + ":" + rest && Spells(scheme, word) && word in {"https", "mailto"}
    ensures IndexOf(s, c => c == ':') == |scheme| && s[..|scheme|] == scheme && s[|scheme|+1..] == rest
    ensures scheme != "" && R.Lower(scheme) == word
  {
    hide R.Lower;
    forall i | 0 <= i < |scheme| ensures scheme[i] != ':' { assert LetterFor(scheme[i], word[i]); }
    IndexIs(s, c => c == ':', |scheme|);
    SpellsLower(scheme, word);
  }

  lemma {:induction false} SchemeCut(s: string, colon: nat, word: string)
    requires colon < |s| && s[colon] == ':' && R.Lower(s[..colon]) == word && word in {"https", "mailto"}
    ensures s == s[..colon] + ":" + s[colon+1..] && Spells(s[..colon], word)
  {
    SpellsLower(s[..colon], word);
  }

  lemma {:induction false} LinkGiven(s: string, h: string, schemes: set<string>, idna: string -> Option<string>)
    requires s != "" && TrimSpaces(s) == s && LinkTo(s, h, schemes, idna)
    ensures CleanHref(s, schemes, idna) == Some(h)
  {
    hide CleanHttps, CleanMailto, TrimSpaces, LinkChars, ByteLength, Names, DotAtom, Spells, R.Lower;
    if "https" in schemes && WebReading(s, h, idna) {
      var scheme, authority, tail, host :| WebText(s, h, scheme, authority, tail, host, idna);
      var rest := "//" + authority + tail;
      assert s == scheme + ":" + rest;
      SchemeIs(s, scheme, rest, "https");
      WebGiven(rest, h, authority, tail, host, idna);
    } else {
      var scheme, local, domain, query, host :| MailText(s, h, scheme, local, domain, query, host, idna);
      var rest := local + "@" + domain + query;
      assert s == scheme + ":" + rest;
      SchemeIs(s, scheme, rest, "mailto");
      MailGiven(rest, h, local, domain, query, host, idna);
    }
  }

  lemma {:induction false} LinkTaken(s: string, h: string, schemes: set<string>, idna: string -> Option<string>)
    requires TrimSpaces(s) == s && CleanHref(s, schemes, idna) == Some(h)
    ensures LinkTo(s, h, schemes, idna)
  {
    hide CleanHttps, CleanMailto, TrimSpaces, LinkChars, ByteLength, Names, DotAtom, Spells, R.Lower;
    var colon := IndexOf(s, c => c == ':');
    var scheme, rest := s[..colon], s[colon+1..];
    if R.Lower(scheme) == "https" {
      SchemeCut(s, colon, "https");
      var authority, tail, host := WebTaken(rest, h, idna);
      assert WebText(s, h, scheme, authority, tail, host, idna);
    } else {
      SchemeCut(s, colon, "mailto");
      var local, domain, query, host := MailTaken(rest, h, idna);
      assert MailText(s, h, scheme, local, domain, query, host, idna);
    }
  }

  /** The check gives `h` for exactly the texts that are, without the white space around them, a link to `h`. */
  lemma {:induction false} CleanHrefExactly(raw: string, h: string, schemes: set<string>, idna: string -> Option<string>)
    ensures CleanHref(raw, schemes, idna) == Some(h) <==> exists s :: StandsIn(raw, s) && LinkTo(s, h, schemes, idna)
  {
    hide TrimSpaces, LinkTo, StandsIn, CleanHttps, CleanMailto;
    var t := TrimSpaces(raw);
    if CleanHref(raw, schemes, idna) == Some(h) {
      NoSpaces(t);
      LinkTaken(t, h, schemes, idna);
      TrimExactly(raw, t);
      assert StandsIn(raw, t) && LinkTo(t, h, schemes, idna);
    }
    if s :| StandsIn(raw, s) && LinkTo(s, h, schemes, idna) {
      LinkSome(s, h, schemes, idna);
      NoSpaces(s);
      TrimExactly(raw, s);
      LinkGiven(s, h, schemes, idna);
    }
  }

  lemma {:induction false} LinkSome(s: string, h: string, schemes: set<string>, idna: string -> Option<string>)
    requires LinkTo(s, h, schemes, idna)
    ensures s != "" && LinkChars(s)
  {
    hide LinkChars, ByteLength, Names, DotAtom, Spells;
    if WebReading(s, h, idna) {
      var scheme, authority, tail, host :| WebText(s, h, scheme, authority, tail, host, idna);
    } else {
      var scheme, local, domain, query, host :| MailText(s, h, scheme, local, domain, query, host, idna);
    }
  }

  // ---- the dialog ----

  lemma {:induction false} NoScheme(s: string, n: nat)
    requires n <= |s| && (forall i :: 0 <= i < n ==> s[i] != ':') && (n < |s| ==> s[n] in "/?#@")
    ensures !NamesScheme(s)
  {
    var i := IndexOf(s, c => !IsSchemeChar(c));
    assert n < |s| ==> !IsSchemeChar(s[n]);
  }

  lemma {:induction false} TypedTrim(raw: string, s: string)
    requires s != "" && StandsIn(raw, s) && LinkChars(s)
    ensures TrimSpaces(raw) == s
  {
    TrimExactly(raw, s);
  }

  /** A host and what follows it, typed without a scheme, becomes an https link. */
  lemma {:induction false} TypedHost(raw: string, authority: string, tail: string, host: string, schemes: set<string>, idna: string -> Option<string>)
    requires StandsIn(raw, authority + tail) && LinkChars(authority + tail) && ByteLength("https://" + authority + tail) <= 500
    requires "https" in schemes && Names(authority, host, idna) && (tail == "" || tail[0] in "/?#")
    ensures ParseLinkInput(raw, schemes, idna) == Some("https://" + host + tail)
  {
    hide CleanHref, TrimSpaces, LinkChars, ByteLength, HostName, Spells, StandsIn, NamesScheme;
    var s := authority + tail;
    NamesSome(authority, host, idna);
    TypedTrim(raw, s);
    NoScheme(s, |authority|);
    NotMail(s, |authority|);
    var full := "https://" + s;
    assert full == "https://" + authority + tail == "https" + "://" + authority + tail;
    HttpsChars(authority, tail) by { PartChars(authority, tail); }
    SpellsSelf("https");
    assert WebText(full, "https://" + host + tail, "https", authority, tail, host, idna);
    NoSpaces(full);
    LinkGiven(full, "https://" + host + tail, schemes, idna);
  }

  lemma {:induction false} NamesSome(authority: string, host: string, idna: string -> Option<string>)
    requires Names(authority, host, idna)
    ensures authority != "" && forall i :: 0 <= i < |authority| ==> authority[i] != ':' && authority[i] != '@' && authority[i] !in "/?#"
  {}

  lemma {:induction false} NotMail(s: string, n: nat)
    requires n <= |s| && (forall i :: 0 <= i < n ==> s[i] != '@') && (n < |s| ==> s[n] in "/?#")
    ensures !LooksLikeMail(s)
  {
    var at := IndexOf(s, c => c == '@');
    if n < |s| { assert !IsAddressChar(s[n]); }
  }

  lemma {:induction false} PartChars(a: string, b: string)
    requires LinkChars(a + b)
    ensures LinkChars(a) && LinkChars(b)
  {
    hide LinkChar;
    assert forall i :: 0 <= i < |a| ==> (a + b)[i] == a[i];
    assert forall i :: 0 <= i < |b| ==> (a + b)[|a| + i] == b[i];
  }

  lemma {:induction false} SpellsSelf(w: string)
    ensures Spells(w, w)
  {}

  /** A mail address, typed without a scheme, becomes a mail link where the profile has them. */
  lemma {:induction false} TypedMail(raw: string, local: string, domain: string, host: string, schemes: set<string>, idna: string -> Option<string>)
    requires StandsIn(raw, local + "@" + domain) && LinkChars(local + "@" + domain) && ByteLength("mailto:" + local + "@" + domain) <= 500
    requires "mailto" in schemes && Names(domain, host, idna)
    requires DotAtom(local) && |local| <= 64 && forall i :: 0 <= i < |local| ==> local[i] !in "/?#"
    ensures ParseLinkInput(raw, schemes, idna) == Some("mailto:" + local + "@" + host)
  {
    hide CleanHref, TrimSpaces, LinkChars, ByteLength, Names, DotAtom, Spells, StandsIn, NamesScheme, LooksLikeMail;
    var s := local + "@" + domain;
    NamesSome(domain, host, idna);
    LocalPlain(local);
    TypedTrim(raw, s);
    NoScheme(s, |local|);
    MailLooks(local, domain);
    assert s[0] == local[0] && !StartsWith(s, "//");
    assert '?' !in local && '?' !in domain by { QueryFree(local); QueryFree(domain); }
    var full := "mailto:" + s;
    assert full == "mailto:" + local + "@" + domain == "mailto" + ":" + local + "@" + domain + "";
    MailtoChars(local, domain) by { MailChars(local, domain); }
    SpellsSelf("mailto");
    assert MailText(full, "mailto:" + local + "@" + host, "mailto", local, domain, "", host, idna);
    NoSpaces(full);
    LinkGiven(full, "mailto:" + local + "@" + host, schemes, idna);
  }

  lemma {:induction false} MailChars(local: string, domain: string)
    requires LinkChars(local + "@" + domain)
    ensures LinkChars(local) && LinkChars(domain)
  {
    hide LinkChars;
    PartChars(local + "@", domain);
    PartChars(local, "@");
  }

  lemma {:induction false} LocalPlain(local: string)
    requires DotAtom(local)
    ensures local != "" && forall i :: 0 <= i < |local| ==> local[i] != ':' && local[i] != '@'
  {
    hide Contains, Dotted;
    var atoms :| Atoms(local, atoms);
    DotAtomAccepted(local, atoms);
  }

  lemma {:induction false} QueryFree(s: string)
    requires forall i :: 0 <= i < |s| ==> s[i] !in "/?#"
    ensures '?' !in s
  {}

  lemma {:induction false} MailLooks(local: string, domain: string)
    requires LinkChars(local + "@" + domain) && local != "" && domain != ""
    requires forall i :: 0 <= i < |local| ==> local[i] != '@' && local[i] !in "/?#"
    requires forall i :: 0 <= i < |domain| ==> domain[i] != '@' && domain[i] !in "/?#"
    ensures LooksLikeMail(local + "@" + domain)
  {
    hide LinkChar, R.IsSpace;
    var s := local + "@" + domain;
    IndexIs(s, c => c == '@', |local|);
    forall i | 0 <= i < |s| && i != |local| ensures IsAddressChar(s[i]) {
      RefusedChars(s[i]);
      assert s[i] == if i < |local| then local[i] else domain[i-|local|-1];
    }
  }

  // ---- the console ----

  /** The text begins with a word, its letters in any case. */
  predicate Begins(s: string, word: string) { |word| <= |s| && Spells(s[..|word|], word) }

  lemma {:induction false} BeginsLower(s: string, word: string)
    requires NoCapital(word)
    ensures word <= R.Lower(s) <==> Begins(s, word)
  {
    hide Spells, R.Lower;
    LowerSize(s);
    if |word| <= |s| {
      SpellsLower(s[..|word|], word);
      LowerStart(s, |word|);
    }
  }

  lemma {:induction false} LowerStart(s: string, n: nat)
    requires n <= |s|
    ensures |R.Lower(s)| == |s| && R.Lower(s)[..n] == R.Lower(s[..n])
  {}

  /** The console keeps `h` for exactly the texts that are `h` between spaces: https or mailto, and no character it refuses. */
  lemma {:induction false} SafeHrefExactly(raw: string, h: string, url: string -> bool)
    ensures R.SafeHref(Some(raw), url) == Some(h) <==>
      && h != "" && !R.IsSpace(h[0]) && !R.IsSpace(h[|h|-1]) && Around(raw, h, R.IsSpace)
      && (forall i :: 0 <= i < |h| ==> !R.HrefCharRefused(h[i]))
      && (Begins(h, "https://") || Begins(h, "mailto:")) && url(h)
  {
    hide R.IsSpace, R.HrefCharRefused, Begins, R.Lower, Around, TrimLeft, TrimRight;
    BeginsLower(h, "https://");
    BeginsLower(h, "mailto:");
    var t := R.Trim(raw);
    TrimEnds(raw, R.IsSpace);
    if h != "" && !R.IsSpace(h[0]) && !R.IsSpace(h[|h|-1]) { TrimAround(raw, h, R.IsSpace); }
  }

  lemma {:induction false} TrimEnds(s: string, p: char -> bool)
    ensures var t := TrimRight(TrimLeft(s, p), p); t != "" ==> !p(t[0]) && !p(t[|t|-1])
  {
    var l := TrimLeft(s, p);
    LeftEnd(s, p);
    RightEnd(l, p);
  }

  lemma {:induction false} LeftEnd(s: string, p: char -> bool)
    ensures var t := TrimLeft(s, p); t != "" ==> !p(t[0])
  {
    if s != "" && p(s[0]) { LeftEnd(s[1..], p); }
  }

  lemma {:induction false} RightEnd(s: string, p: char -> bool)
    ensures var t := TrimRight(s, p); t != "" ==> t[0] == s[0] && !p(t[|t|-1])
  {
    if s != "" && p(s[|s|-1]) { RightEnd(s[..|s|-1], p); }
  }
}
