// The link check (apps/rich-editor/src/href.ts). `idna` stands for the URL parser's reading of a host: the ASCII
// form of an authority that is just a host, None when there is none.

module Href {
  import opened Base
  import opened Chars
  import R = Reader

  const MAX_LINK_LENGTH := 500

  // ---- characters ----

  predicate IsSpaceChar(c: char) { IsWS(c) || IsUnicodeSpace(c) }

  function TrimSpaces(s: string): string { TrimRight(TrimLeft(s, IsSpaceChar), IsSpaceChar) }

  function CharBytes(c: char): nat {
    var cp := c as int;
    if cp < 0x80 then 1 else if cp < 0x800 then 2 else if cp < 0x10000 then 3 else 4
  }

  /** How many bytes the text takes in UTF-8. */
  function ByteLength(s: string): nat {
    if s == [] then 0 else CharBytes(s[0]) + ByteLength(s[1..])
  }

  /** A character that may stand in a link. */
  predicate LinkChar(c: char) {
    !IsUnicodeSpace(c) && CharPolicy(c) == Plain && c != '\\' && c != '"' && c != '<' && c != '>'
  }

  predicate LinkChars(s: string) {
    forall i :: 0 <= i < |s| ==> LinkChar(s[i])
  }

  predicate EndsHost(c: char) { c == '/' || c == '?' || c == '#' }

  /** The first position whose character is in the class, or the length. */
  function IndexOf(s: string, p: char -> bool): (i: nat)
    ensures i <= |s|
    ensures forall k :: 0 <= k < i ==> !p(s[k])
    ensures i < |s| ==> p(s[i])
  {
    if s == [] || p(s[0]) then 0 else 1 + IndexOf(s[1..], p)
  }

  predicate Has(s: string, p: char -> bool) {
    exists i :: 0 <= i < |s| && p(s[i])
  }

  predicate StartsWith(s: string, t: string) { t <= s }

  predicate EndsWith(s: string, t: string) {
    |t| <= |s| && s[|s|-|t|..] == t
  }

  predicate Contains(s: string, t: string) {
    exists i :: 0 <= i <= |s| && R.At(s, i, t)
  }

  // ---- hosts ----

  predicate IsHostChar(c: char) { 'a' <= c <= 'z' || '0' <= c <= '9' || c == '-' || c == '.' }

  predicate IsHostBreaker(c: char) { c == '@' || c == ':' || c == '[' || c == ']' || c == '%' }

  function Labels(host: string): seq<string> {
    var i := IndexOf(host, c => c == '.');
    if i == |host| then [host] else [host[..i]] + Labels(host[i+1..])
  }

  predicate LabelOk(l: string) {
    && l != "" && l[0] != '-' && l[|l|-1] != '-'
    && (|l| >= 4 && l[2..4] == "--" ==> StartsWith(l, "xn--"))
  }

  predicate IsNumericLabel(l: string) {
    if l == "" then false
    else if StartsWith(l, "0x") then forall i :: 2 <= i < |l| ==> '0' <= l[i] <= '9' || 'a' <= l[i] <= 'f'
    else forall i :: 0 <= i < |l| ==> '0' <= l[i] <= '9'
  }

  /** A lower-case host name that may be linked. */
  predicate HostOk(host: string) {
    && host != "" && (forall i :: 0 <= i < |host| ==> IsHostChar(host[i]))
    && (forall l | l in Labels(host) :: LabelOk(l))
    && host != "localhost" && !EndsWith(host, ".localhost")
    && !IsNumericLabel(Labels(host)[|Labels(host)|-1])
  }

  function ToAscii(authority: string, idna: string -> Option<string>): Option<string> {
    if Has(authority, EndsHost) then None else idna(authority)
  }

  function CleanHost(authority: string, idna: string -> Option<string>): Option<string> {
    if authority == "" || ByteLength(authority) > MAX_LINK_LENGTH || Has(authority, IsHostBreaker) then None
    else
      match ToAscii(authority, idna)
      case None => None
      case Some(ascii) =>
        var lower := R.Lower(ascii);
        if |lower| > 253 || StartsWith(lower, ".") || Contains(lower, "..") then None
        else
          var host := if EndsWith(lower, ".") then lower[..|lower|-1] else lower;
          if HostOk(host) then Some(host) else None
  }

  // ---- mail addresses ----

  /** An unquoted mail name of section 3.2.3 of RFC 5322, without the percent sign. */
  predicate IsLocalChar(c: char) {
    'a' <= c <= 'z' || 'A' <= c <= 'Z' || '0' <= c <= '9' || c == '.' || c in "!#$&'*+-/=?^_`{|}~"
  }

  predicate ValidLocalPart(s: string) {
    && s != "" && |s| <= 64 && s[0] != '.' && s[|s|-1] != '.' && !Contains(s, "..")
    && forall i :: 0 <= i < |s| ==> IsLocalChar(s[i])
  }

  // ---- the check ----

  function CleanHttps(rest: string, idna: string -> Option<string>): Option<string> {
    if !StartsWith(rest, "//") then None
    else
      var after := rest[2..];
      var end := IndexOf(after, EndsHost);
      match CleanHost(after[..end], idna)
      case None => None
      case Some(host) => Some("https://" + host + after[end..])
  }

  function CleanMailto(rest: string, idna: string -> Option<string>): Option<string> {
    var addr := rest[..IndexOf(rest, c => c == '?')];
    var at := IndexOf(addr, c => c == '@');
    if at == |addr| || !ValidLocalPart(addr[..at]) then None
    else
      match CleanHost(addr[at+1..], idna)
      case None => None
      case Some(d) => Some("mailto:" + addr[..at] + "@" + d)
  }

  /** `cleanHref`: what a raw target becomes under the allowed schemes; None where the link is dropped. */
  function CleanHref(raw: string, schemes: set<string>, idna: string -> Option<string>): Option<string> {
    var s := TrimSpaces(raw);
    if s == "" || ByteLength(s) > MAX_LINK_LENGTH || !LinkChars(s) then None
    else
      var colon := IndexOf(s, c => c == ':');
      if colon == 0 || colon == |s| then None
      else
        var scheme := R.Lower(s[..colon]);
        if scheme !in schemes then None
        else if scheme == "https" then CleanHttps(s[colon+1..], idna)
        else if scheme == "mailto" then CleanMailto(s[colon+1..], idna)
        else None
  }

  // ---- the link dialog ----

  predicate IsSchemeChar(c: char) {
    'a' <= c <= 'z' || 'A' <= c <= 'Z' || '0' <= c <= '9' || c == '+' || c == '.' || c == '-'
  }

  /** A letter, scheme characters and a colon. */
  predicate NamesScheme(s: string) {
    var i := IndexOf(s, c => !IsSchemeChar(c));
    s != "" && R.IsLetter(s[0]) && i < |s| && s[i] == ':'
  }

  predicate IsAddressChar(c: char) { !R.IsSpace(c) && !EndsHost(c) && c != '@' }

  predicate LooksLikeMail(s: string) {
    var at := IndexOf(s, c => c == '@');
    0 < at < |s| - 1 && forall i :: 0 <= i < |s| && i != at ==> IsAddressChar(s[i])
  }

  function ParseLinkInput(raw: string, schemes: set<string>, idna: string -> Option<string>): Option<string> {
    var s := TrimSpaces(raw);
    var full :=
      if s == "" || NamesScheme(s) || StartsWith(s, "//") then s
      else if "mailto" in schemes && LooksLikeMail(s) then "mailto:" + s
      else "https://" + s;
    CleanHref(full, schemes, idna)
  }

  // ---- a checked link is checked again ----

  /** The host-to-ASCII step leaves the hosts that passed the check as they are. */
  ghost predicate IdnaStable(idna: string -> Option<string>) {
    forall a: string :: CleanHost(a, idna).Some? ==> idna(CleanHost(a, idna).value) == CleanHost(a, idna)
  }

  lemma {:induction false} HostBytes(s: string)
    requires forall i :: 0 <= i < |s| ==> IsHostChar(s[i])
    ensures ByteLength(s) == |s|
  {
    if s != [] { HostBytes(s[1..]); }
  }

  lemma {:induction false} HostLower(s: string)
    requires forall i :: 0 <= i < |s| ==> IsHostChar(s[i])
    ensures R.Lower(s) == s
  {}

  lemma {:induction false} HostShape(authority: string, idna: string -> Option<string>)
    requires CleanHost(authority, idna).Some?
    ensures var h := CleanHost(authority, idna).value;
            HostOk(h) && |h| <= 253 && !StartsWith(h, ".") && !Contains(h, "..") && !EndsWith(h, ".")
  {
    hide HostOk;
    var lower := R.Lower(ToAscii(authority, idna).value);
    var h := CleanHost(authority, idna).value;
    HostChars(h);
    assert !StartsWith(lower, ".") && !Contains(lower, "..");
    DotsGone(lower, h);
  }

  lemma {:induction false} StartsDot(s: string)
    requires s != ""
    ensures StartsWith(s, ".") <==> s[0] == '.'
  {}

  /** Cutting the root label off a name without empty labels leaves no dot at either end. */
  lemma {:induction false} DotsGone(lower: string, h: string)
    requires h != "" && !StartsWith(lower, ".") && !Contains(lower, "..")
    requires h == if EndsWith(lower, ".") then lower[..|lower|-1] else lower
    ensures !StartsWith(h, ".") && !Contains(h, "..") && !EndsWith(h, ".")
  {
    StartsDot(h);
    StartsDot(lower);
    if Contains(h, "..") {
      var i :| 0 <= i <= |h| && R.At(h, i, "..");
      assert lower[i..i+2] == h[i..i+2];
      assert R.At(lower, i, "..");
    }
    if EndsWith(h, ".") && EndsWith(lower, ".") {
      var n := |lower|;
      assert lower[n-1..][0] == '.' && h[|h|-1..][0] == '.';
      assert lower[n-2..n] == "..";
      assert R.At(lower, n - 2, "..");
    }
  }

  /** A checked host passes again unchanged. */
  lemma {:induction false} HostFixed(authority: string, idna: string -> Option<string>)
    requires CleanHost(authority, idna).Some? && IdnaStable(idna)
    ensures CleanHost(CleanHost(authority, idna).value, idna) == CleanHost(authority, idna)
  {
    hide CleanHost, HostOk, StartsWith, EndsWith, Contains, ByteLength, R.Lower;
    HostShape(authority, idna);
    var h := CleanHost(authority, idna).value;
    HostChars(h);
    HostBytes(h);
    HostLower(h);
    assert idna(h) == Some(h);
    forall i | 0 <= i < |h| ensures !EndsHost(h[i]) && !IsHostBreaker(h[i]) { HostCharIsLinkChar(h[i]); }
    HostPasses(h, idna);
  }

  /** A lower-case ASCII name that is its own conversion and a good host passes as it is. */
  lemma {:induction false} HostPasses(h: string, idna: string -> Option<string>)
    requires HostOk(h) && |h| <= 253 && !StartsWith(h, ".") && !Contains(h, "..") && !EndsWith(h, ".")
    requires ByteLength(h) == |h| && R.Lower(h) == h && idna(h) == Some(h)
    requires forall i :: 0 <= i < |h| ==> !EndsHost(h[i]) && !IsHostBreaker(h[i])
    ensures CleanHost(h, idna) == Some(h)
  {
    hide StartsWith, EndsWith, Contains, ByteLength, R.Lower, Labels, LabelOk, IsNumericLabel;
    assert !Has(h, EndsHost) && !Has(h, IsHostBreaker);
  }

  lemma {:induction false} HostChars(h: string)
    requires HostOk(h)
    ensures h != "" && forall i :: 0 <= i < |h| ==> IsHostChar(h[i])
  {}

  lemma {:induction false} HostCharIsLinkChar(c: char)
    requires IsHostChar(c)
    ensures LinkChar(c) && !EndsHost(c) && !IsHostBreaker(c)
  {}

  lemma {:induction false} NoSpaces(s: string)
    requires LinkChars(s)
    ensures TrimSpaces(s) == s
  {
    if s != [] { assert LinkChar(s[0]) && LinkChar(s[|s|-1]); }
  }

  lemma {:induction false} IndexIs(s: string, p: char -> bool, n: nat)
    requires n <= |s| && (forall k :: 0 <= k < n ==> !p(s[k])) && (n < |s| ==> p(s[n]))
    ensures IndexOf(s, p) == n
  {}

  /** A checked host: safe characters, and checked again unchanged. */
  lemma {:induction false} HostAgain(authority: string, idna: string -> Option<string>)
    requires IdnaStable(idna) && CleanHost(authority, idna).Some?
    ensures var h := CleanHost(authority, idna).value;
            && LinkChars(h) && CleanHost(h, idna) == Some(h)
            && forall i :: 0 <= i < |h| ==> !EndsHost(h[i]) && h[i] != '?' && h[i] != '@'
  {
    hide LinkChar, HostOk, CleanHost, IdnaStable;
    HostShape(authority, idna);
    HostFixed(authority, idna);
    var h := CleanHost(authority, idna).value;
    HostChars(h);
    forall i | 0 <= i < |h| ensures LinkChar(h[i]) && !EndsHost(h[i]) && h[i] != '@' { HostCharIsLinkChar(h[i]); }
  }

  lemma {:induction false} HttpsParts(host: string, tail: string, idna: string -> Option<string>)
    requires CleanHost(host, idna) == Some(host) && (forall i :: 0 <= i < |host| ==> !EndsHost(host[i]))
    requires tail == "" || EndsHost(tail[0])
    ensures CleanHttps("//" + host + tail, idna) == Some("https://" + host + tail)
  {
    hide CleanHost, EndsHost;
    var again := "//" + host + tail;
    assert again[2..] == host + tail && again[..2] == "//";
    IndexIs(host + tail, EndsHost, |host|);
    assert (host + tail)[..|host|] == host && (host + tail)[|host|..] == tail;
  }

  lemma {:induction false} HttpsFixed(rest: string, idna: string -> Option<string>)
    requires LinkChars(rest) && IdnaStable(idna) && CleanHttps(rest, idna).Some?
    ensures var h := CleanHttps(rest, idna).value;
            LinkChars(h) && StartsWith(h, "https:") && CleanHttps(h[6..], idna) == Some(h)
  {
    hide LinkChar, HostOk, CleanHost, IdnaStable, EndsHost;
    var after := rest[2..];
    var end := IndexOf(after, EndsHost);
    var host := CleanHost(after[..end], idna).value;
    var tail := after[end..];
    HostAgain(after[..end], idna);
    HttpsChars(host, tail);
    HttpsParts(host, tail, idna);
    assert ("https://" + host + tail)[6..] == "//" + host + tail;
  }

  lemma {:induction false} HttpsChars(host: string, tail: string)
    requires LinkChars(host) && LinkChars(tail)
    ensures LinkChars("https://" + host + tail) && StartsWith("https://" + host + tail, "https:")
  {
    LiteralChars();
    hide LinkChar;
  }

  lemma {:induction false} LiteralChars()
    ensures LinkChars("https://") && LinkChars("mailto:") && LinkChars("@")
  {
    var s, t := "https://", "mailto:";
    forall i | 0 <= i < |s| ensures LinkChar(s[i]) {}
    forall i | 0 <= i < |t| ensures LinkChar(t[i]) {}
  }

  lemma {:induction false} MailtoFixed(rest: string, idna: string -> Option<string>)
    requires LinkChars(rest) && IdnaStable(idna) && CleanMailto(rest, idna).Some?
    ensures var h := CleanMailto(rest, idna).value;
            LinkChars(h) && StartsWith(h, "mailto:") && CleanMailto(h[7..], idna) == Some(h)
  {
    hide LinkChar, HostOk, CleanHost, IdnaStable, ValidLocalPart;
    var addr := rest[..IndexOf(rest, c => c == '?')];
    var at := IndexOf(addr, c => c == '@');
    var local := addr[..at];
    var d := CleanHost(addr[at+1..], idna).value;
    HostAgain(addr[at+1..], idna);
    forall i | 0 <= i < |local| ensures LinkChar(local[i]) && local[i] != '?' && local[i] != '@' {
      assert local[i] == addr[i] == rest[i];
    }
    MailtoChars(local, d);
    MailParts(local, d, idna);
    assert ("mailto:" + local + "@" + d)[7..] == local + "@" + d;
  }

  lemma {:induction false} MailtoChars(local: string, d: string)
    requires LinkChars(local) && LinkChars(d)
    ensures LinkChars("mailto:" + local + "@" + d) && StartsWith("mailto:" + local + "@" + d, "mailto:")
  {
    LiteralChars();
    hide LinkChar;
  }

  lemma {:induction false} MailParts(local: string, d: string, idna: string -> Option<string>)
    requires forall i :: 0 <= i < |local| ==> local[i] != '?' && local[i] != '@'
    requires forall i :: 0 <= i < |d| ==> d[i] != '?'
    requires ValidLocalPart(local) && CleanHost(d, idna) == Some(d)
    ensures CleanMailto(local + "@" + d, idna) == Some("mailto:" + local + "@" + d)
  {
    hide ValidLocalPart, CleanHost;
    var again := local + "@" + d;
    IndexIs(again, c => c == '?', |again|);
    assert again[..|again|] == again;
    IndexIs(again, c => c == '@', |local|);
    assert again[..|local|] == local && again[|local|+1..] == d;
  }

  lemma {:induction false} SchemeFixed(h: string, colon: nat, scheme: string, schemes: set<string>, idna: string -> Option<string>)
    requires (scheme == "https" && colon == 5) || (scheme == "mailto" && colon == 6)
    requires scheme in schemes && LinkChars(h) && ByteLength(h) <= MAX_LINK_LENGTH
    requires StartsWith(h, scheme + ":")
    ensures CleanHref(h, schemes, idna) == if scheme == "https" then CleanHttps(h[6..], idna) else CleanMailto(h[7..], idna)
  {
    hide CleanHttps, CleanMailto;
    NoSpaces(h);
    assert h[..colon] == scheme && h[colon] == (scheme + ":")[colon] == ':';
    forall k | 0 <= k < colon ensures h[k] != ':' { assert h[k] == h[..colon][k] == scheme[k]; }
    IndexIs(h, c => c == ':', colon);
    assert R.Lower(scheme) == scheme;
  }

  /** A checked link is returned unchanged exactly when it is still within the length limit. */
  lemma {:induction false} CleanHrefFixed(raw: string, schemes: set<string>, idna: string -> Option<string>)
    requires IdnaStable(idna) && CleanHref(raw, schemes, idna).Some?
    ensures var h := CleanHref(raw, schemes, idna);
            && LinkChars(h.value) && h.value != "" && (StartsWith(h.value, "https://") || StartsWith(h.value, "mailto:"))
            && (CleanHref(h.value, schemes, idna) == h <==> ByteLength(h.value) <= MAX_LINK_LENGTH)
  {
    hide CleanHttps, CleanMailto, IdnaStable, ByteLength, LinkChar;
    var s := TrimSpaces(raw);
    var colon := IndexOf(s, c => c == ':');
    var scheme := R.Lower(s[..colon]);
    var rest := s[colon+1..];
    assert LinkChars(rest);
    var h := CleanHref(raw, schemes, idna).value;
    if scheme == "https" {
      HttpsFixed(rest, idna);
      HttpsStart(rest, idna);
      if ByteLength(h) <= MAX_LINK_LENGTH { SchemeFixed(h, 5, "https", schemes, idna); }
    } else {
      MailtoFixed(rest, idna);
      if ByteLength(h) <= MAX_LINK_LENGTH { SchemeFixed(h, 6, "mailto", schemes, idna); }
    }
    NoSpaces(h);
  }

  lemma {:induction false} HttpsStart(rest: string, idna: string -> Option<string>)
    requires CleanHttps(rest, idna).Some?
    ensures StartsWith(CleanHttps(rest, idna).value, "https://")
  {}

  /** `parseLinkInput` leaves a checked link as the check leaves it. */
  lemma {:induction false} ParseLinkInputFixed(raw: string, schemes: set<string>, idna: string -> Option<string>)
    requires IdnaStable(idna) && CleanHref(raw, schemes, idna).Some?
    ensures var h := CleanHref(raw, schemes, idna);
            ParseLinkInput(h.value, schemes, idna) == h <==> ByteLength(h.value) <= MAX_LINK_LENGTH
  {
    hide CleanHref, IdnaStable, ByteLength, LinkChar;
    CleanHrefFixed(raw, schemes, idna);
    var h := CleanHref(raw, schemes, idna).value;
    NoSpaces(h);
    NamesKnownScheme(h);
  }

  lemma {:induction false} NamesKnownScheme(h: string)
    requires StartsWith(h, "https://") || StartsWith(h, "mailto:")
    ensures NamesScheme(h)
  {
    var n := if StartsWith(h, "https://") then 5 else 6;
    var word := if StartsWith(h, "https://") then "https:" else "mailto:";
    assert h[..n+1] == word;
    forall k | 0 <= k < n ensures IsSchemeChar(h[k]) { assert h[k] == h[..n+1][k] == word[k]; }
    assert h[n] == h[..n+1][n] == word[n] == ':';
    IndexIs(h, c => !IsSchemeChar(c), n);
    assert h[0] == h[..n+1][0] == word[0];
  }

  // ---- the console's check on a checked link ----

  /** The two characters the link check lets through and the console refuses. */
  predicate ConsoleRefuses(c: char) { c as int == 0xfffd || c as int == 0x2065 }

  lemma {:induction false} RefusedChars(c: char)
    requires LinkChar(c)
    ensures R.HrefCharRefused(c) == ConsoleRefuses(c) && !R.IsSpace(c)
  {}

  lemma {:induction false} NoJsSpaces(h: string)
    requires h != "" && LinkChars(h)
    ensures R.Trim(h) == h
  {
    hide LinkChar;
    RefusedChars(h[0]);
    RefusedChars(h[|h|-1]);
  }

  /** The console keeps a checked link exactly when it holds neither of two characters and the URL parser reads it. */
  lemma {:induction false} ConsoleKeeps(raw: string, schemes: set<string>, idna: string -> Option<string>, url: string -> bool)
    requires IdnaStable(idna) && CleanHref(raw, schemes, idna).Some?
    ensures var h := CleanHref(raw, schemes, idna);
            R.SafeHref(h, url) == h <==> !Has(h.value, ConsoleRefuses) && url(h.value)
  {
    hide CleanHref, IdnaStable, ByteLength, LinkChar, ConsoleRefuses;
    CleanHrefFixed(raw, schemes, idna);
    var h := CleanHref(raw, schemes, idna).value;
    NoJsSpaces(h);
    forall i | 0 <= i < |h| ensures R.HrefCharRefused(h[i]) == ConsoleRefuses(h[i]) { RefusedChars(h[i]); }
    KnownScheme(h);
  }

  lemma {:induction false} KnownScheme(h: string)
    requires StartsWith(h, "https://") || StartsWith(h, "mailto:")
    ensures R.HasScheme(h)
  {
    var word := if StartsWith(h, "https://") then "https://" else "mailto:";
    assert R.Lower(word) == word;
    assert h[..|word|] == word;
    assert R.Lower(h)[..|word|] == R.Lower(h[..|word|]);
  }

  // ---- the limit is checked before the host is converted ----

  function Repeat(c: char, n: nat): string {
    seq(n, i => c)
  }

  lemma {:induction false} RepeatBytes(a: string, n: nat)
    ensures ByteLength(a + Repeat('x', n)) == ByteLength(a) + n
    decreases |a| + n
  {
    if a != "" {
      assert (a + Repeat('x', n))[1..] == a[1..] + Repeat('x', n);
      RepeatBytes(a[1..], n);
    } else if n > 0 {
      assert (a + Repeat('x', n))[1..] == "" + Repeat('x', n - 1);
      RepeatBytes("", n - 1);
    } else {
      assert a + Repeat('x', 0) == "";
    }
  }

  /** A reading of hosts that knows one name outside ASCII. */
  function OneName(a: string): Option<string> {
    if a == "\U{e9}" || a == "xn--9ca" then Some("xn--9ca") else None
  }

  lemma {:induction false} OneLabel()
    ensures Labels("xn--9ca") == ["xn--9ca"]
  {
    IndexIs("xn--9ca", c => c == '.', 7);
  }

  lemma {:induction false} OneHostOk()
    ensures HostOk("xn--9ca")
  {
    var h := "xn--9ca";
    OneLabel();
    hide Labels, Has, IndexOf;
    assert h[2..4] == "--" && h[..4] == "xn--";
    assert forall l | l in [h] :: l == h;
    assert EndsWith(h, ".localhost") == false;
    assert !StartsWith(h, "0x") by { assert h[0] != "0x"[0]; }
  }

  lemma {:induction false} NoDots(h: string)
    requires forall i :: 0 <= i < |h| ==> h[i] != '.'
    ensures !Contains(h, "..")
  {
    forall i | 0 <= i <= |h| && i + 2 <= |h| ensures !R.At(h, i, "..") { assert h[i..i+2][0] == h[i]; }
  }

  lemma {:induction false} OneHostPlain()
    ensures R.Lower("xn--9ca") == "xn--9ca" && !Contains("xn--9ca", "..") && !EndsWith("xn--9ca", ".") && !StartsWith("xn--9ca", ".")
  {
    var h := "xn--9ca";
    NoDots(h);
    assert h[6..][0] == 'a';
  }

  lemma {:induction false} OneHost()
    ensures CleanHost("\U{e9}", OneName) == Some("xn--9ca")
  {
    hide HostOk, Contains, EndsWith, StartsWith, R.Lower;
    OneHostOk();
    OneHostPlain();
    assert ByteLength("\U{e9}") == 2 by { assert ByteLength("\U{e9}"[1..]) == 0; }
  }

  lemma {:induction false} OneNameStable()
    ensures IdnaStable(OneName)
  {
    forall a: string | CleanHost(a, OneName).Some? ensures OneName(CleanHost(a, OneName).value) == CleanHost(a, OneName) {
      OneHostPlain();
      hide HostOk, Contains, EndsWith, StartsWith, R.Lower, ByteLength, Has;
      assert ToAscii(a, OneName).Some?;
      assert CleanHost(a, OneName) == Some("xn--9ca");
    }
  }

  /** A link can grow past the limit when its host is converted; the check then refuses its own result. */
  lemma {:induction false} CleanHrefNotAlwaysFixed()
    ensures var raw := "https://\U{e9}/" + Repeat('x', 489);
            var h := CleanHref(raw, {"https"}, OneName);
            && IdnaStable(OneName) && h.Some? && ByteLength(h.value) == 505
            && CleanHref(h.value, {"https"}, OneName) == None
  {
    hide CleanHost, IdnaStable, CleanHttps, CleanHref, ByteLength, LinkChars;
    var raw := "https://\U{e9}/" + Repeat('x', 489);
    OneNameStable();
    ExampleBytes();
    ExampleChars();
    ExampleReads();
    assert raw[..6] == "https:";
    SchemeFixed(raw, 5, "https", {"https"}, OneName);
    CleanHrefFixed(raw, {"https"}, OneName);
    TooLong("https://xn--9ca/" + Repeat('x', 489), {"https"}, OneName);
  }

  lemma {:induction false} TooLong(h: string, schemes: set<string>, idna: string -> Option<string>)
    requires LinkChars(h) && ByteLength(h) > MAX_LINK_LENGTH
    ensures CleanHref(h, schemes, idna) == None
  {
    NoSpaces(h);
  }

  lemma {:induction false} ExampleReads()
    ensures CleanHttps(("https://\U{e9}/" + Repeat('x', 489))[6..], OneName) == Some("https://xn--9ca/" + Repeat('x', 489))
  {
    hide CleanHost, OneName;
    var tail := "/" + Repeat('x', 489);
    var raw := "https://\U{e9}/" + Repeat('x', 489);
    var after := "\U{e9}" + tail;
    OneHost();
    assert raw[6..] == "//" + after && raw[6..][2..] == after && raw[6..][..2] == "//";
    IndexIs(after, EndsHost, 1);
    assert after[..1] == "\U{e9}" && after[1..] == tail;
    assert "https://" + "xn--9ca" + tail == "https://xn--9ca/" + Repeat('x', 489);
  }

  lemma {:induction false} ExampleBytes()
    ensures ByteLength("https://\U{e9}/" + Repeat('x', 489)) == 500
    ensures ByteLength("https://xn--9ca/" + Repeat('x', 489)) == 505
  {
    RepeatBytes("https://\U{e9}/", 489);
    RepeatBytes("https://xn--9ca/", 489);
    LiteralBytes();
  }

  lemma {:induction false} BytesConcat(a: string, b: string)
    ensures ByteLength(a + b) == ByteLength(a) + ByteLength(b)
  {
    if a == "" {
      assert a + b == b;
    } else {
      assert (a + b)[1..] == a[1..] + b;
      BytesConcat(a[1..], b);
    }
  }

  lemma {:induction false} AsciiBytes(s: string)
    requires forall i :: 0 <= i < |s| ==> s[i] < '\U{80}'
    ensures ByteLength(s) == |s|
  {
    if s != [] { AsciiBytes(s[1..]); }
  }

  lemma {:induction false} TwoBytes(c: char)
    requires '\U{80}' <= c < '\U{800}'
    ensures ByteLength([c]) == 2
  {
    assert ByteLength([c][1..]) == 0;
  }

  lemma {:induction false} LiteralBytes()
    ensures ByteLength("https://\U{e9}/") == 11 && ByteLength("https://xn--9ca/") == 16
  {
    hide *;
    TwoBytes('\U{e9}');
    AsciiBytes("https://");
    AsciiBytes("/");
    AsciiBytes("https://xn--9ca/");
    BytesConcat("https://", "\U{e9}");
    BytesConcat("https://" + "\U{e9}", "/");
    assert "https://\U{e9}/" == "https://" + "\U{e9}" + "/";
  }

  lemma {:induction false} ExampleChars()
    ensures LinkChars("https://\U{e9}/" + Repeat('x', 489))
  {
    assert LinkChars("https://\U{e9}/");
    assert LinkChar('x');
  }
}
