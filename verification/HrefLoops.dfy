// The loops of the link check (apps/rich-editor/src/href.ts:14-150), computing the functions of Href.dfy.

module HrefLoops {
  import opened Base
  import opened Chars
  import opened Href
  import opened HostNames
  import opened LinkShape
  import R = Reader

  /** `trimSpaces`: two positions close in on the text. */
  method Trimmed(s: string) returns (r: string)
    ensures r == TrimSpaces(s)
  {
    hide IsSpaceChar;
    var a, b := 0, |s|;
    assert s[0..] == s;
    while a < b && IsSpaceChar(s[a])
      invariant a <= b == |s| && TrimLeft(s[a..], IsSpaceChar) == TrimLeft(s, IsSpaceChar)
    {
      assert s[a..][1..] == s[a+1..];
      a := a + 1;
    }
    ghost var left := s[a..];
    assert TrimLeft(s, IsSpaceChar) == left;
    assert s[a..b] == left;
    while b > a && IsSpaceChar(s[b-1])
      invariant a <= b <= |s| && TrimRight(s[a..b], IsSpaceChar) == TrimRight(left, IsSpaceChar)
    {
      assert s[a..b][..b-a-1] == s[a..b-1] && s[a..b][b-a-1] == s[b-1];
      b := b - 1;
    }
    r := s[a..b];
  }

  /** The loop over the characters of a link. */
  method AllLinkChars(s: string) returns (ok: bool)
    ensures ok == LinkChars(s)
  {
    hide LinkChar;
    for i := 0 to |s|
      invariant forall k :: 0 <= k < i ==> LinkChar(s[k])
    {
      if !LinkChar(s[i]) { return false; }
    }
    ok := true;
  }

  method AllHostChars(s: string) returns (ok: bool)
    ensures ok == forall i :: 0 <= i < |s| ==> IsHostChar(s[i])
  {
    hide IsHostChar;
    for i := 0 to |s|
      invariant forall k :: 0 <= k < i ==> IsHostChar(s[k])
    {
      if !IsHostChar(s[i]) { return false; }
    }
    ok := true;
  }

  method AllLabelsOk(labels: seq<string>) returns (ok: bool)
    ensures ok == forall l | l in labels :: LabelOk(l)
  {
    hide LabelOk;
    for i := 0 to |labels|
      invariant forall k :: 0 <= k < i ==> LabelOk(labels[k])
    {
      if !LabelOk(labels[i]) {
        assert labels[i] in labels;
        return false;
      }
    }
    ok := true;
  }

  /** `cleanHost`, after the name was converted and lowered. */
  method CheckedHost(host: string) returns (ok: bool)
    ensures ok == HostOk(host)
    ensures ok <==> HostName(host)
  {
    hide IsHostChar, LabelOk, IsNumericLabel, EndsWith, HostName;
    HostOkExactly(host);
    if host == "" { return false; }
    var chars := AllHostChars(host);
    if !chars { return false; }
    var labels := AllLabelsOk(Labels(host));
    if !labels { return false; }
    if host == "localhost" || EndsWith(host, ".localhost") { return false; }
    ok := !IsNumericLabel(Labels(host)[|Labels(host)|-1]);
  }

  method Host(authority: string, idna: string -> Option<string>) returns (r: Option<string>)
    ensures r == CleanHost(authority, idna)
  {
    hide ByteLength, Has, HostOk, Contains, StartsWith, EndsWith, R.Lower;
    if authority == "" || ByteLength(authority) > MAX_LINK_LENGTH || Has(authority, IsHostBreaker) { return None; }
    var ascii := ToAscii(authority, idna);
    if ascii == None { return None; }
    var host := R.Lower(ascii.value);
    if |host| > 253 || StartsWith(host, ".") || Contains(host, "..") { return None; }
    if EndsWith(host, ".") {
      DotEnds(host);
      host := host[..|host|-1];
    }
    var ok := CheckedHost(host);
    r := if ok then Some(host) else None;
  }

  lemma {:induction false} DotEnds(s: string)
    requires EndsWith(s, ".")
    ensures |s| > 0
  {}

  /** `validLocalPart`: each character may stand in an unquoted mail name of section 3.2.3 of RFC 5322. */
  method LocalPartOk(s: string) returns (ok: bool)
    ensures ok == ValidLocalPart(s)
    ensures ok <==> |s| <= 64 && DotAtom(s)
  {
    hide IsLocalChar, Contains, DotAtom;
    ValidLocalPartExactly(s);
    if s == "" || |s| > 64 || s[0] == '.' || s[|s|-1] == '.' || Contains(s, "..") { return false; }
    for i := 0 to |s|
      invariant forall k :: 0 <= k < i ==> IsLocalChar(s[k])
    {
      if !IsLocalChar(s[i]) { return false; }
    }
    ok := true;
  }

  method Https(rest: string, idna: string -> Option<string>) returns (r: Option<string>)
    ensures r == CleanHttps(rest, idna)
  {
    hide CleanHost;
    if !StartsWith(rest, "//") { return None; }
    var after := rest[2..];
    var end := IndexOf(after, EndsHost);
    var host := Host(after[..end], idna);
    r := if host == None then None else Some("https://" + host.value + after[end..]);
  }

  method Mailto(rest: string, idna: string -> Option<string>) returns (r: Option<string>)
    ensures r == CleanMailto(rest, idna)
  {
    hide CleanHost, ValidLocalPart;
    var addr := rest;
    var q := IndexOf(addr, c => c == '?');
    addr := addr[..q];
    var at := IndexOf(addr, c => c == '@');
    if at == |addr| { return None; }
    var ok := LocalPartOk(addr[..at]);
    if !ok { return None; }
    var d := Host(addr[at+1..], idna);
    r := if d == None then None else Some("mailto:" + addr[..at] + "@" + d.value);
  }

  lemma {:induction false} ShapeOf(raw: string, schemes: set<string>, idna: string -> Option<string>)
    ensures var r := CleanHref(raw, schemes, idna);
            r.Some? ==> ("https" in schemes && WebLink(r.value)) || ("mailto" in schemes && MailLink(r.value))
  {
    hide WebLink, MailLink, CleanHref;
    if CleanHref(raw, schemes, idna).Some? { CheckedShape(raw, schemes, idna); }
  }

  /** `cleanHref`. */
  method Checked(raw: string, schemes: set<string>, idna: string -> Option<string>) returns (r: Option<string>)
    ensures r == CleanHref(raw, schemes, idna)
    ensures r.Some? ==> ("https" in schemes && WebLink(r.value)) || ("mailto" in schemes && MailLink(r.value))
  {
    hide WebLink, MailLink, TrimSpaces, ByteLength, LinkChars, CleanHttps, CleanMailto, R.Lower;
    ShapeOf(raw, schemes, idna);
    var s := Trimmed(raw);
    if s == "" || ByteLength(s) > MAX_LINK_LENGTH { return None; }
    var ok := AllLinkChars(s);
    if !ok { return None; }
    var colon := IndexOf(s, c => c == ':');
    if colon == 0 || colon == |s| { return None; }
    var scheme := R.Lower(s[..colon]);
    if scheme !in schemes { return None; }
    var rest := s[colon+1..];
    if scheme == "https" {
      r := Https(rest, idna);
    } else if scheme == "mailto" {
      r := Mailto(rest, idna);
    } else {
      r := None;
    }
  }
}
