// What the link check lets through (apps/rich-editor/src/href.ts:26-93): mail names against the grammar of RFC 5322, and the
// two shapes a checked link can have.

module LinkShape {
  import opened Base
  import opened Href
  import opened HostNames
  import R = Reader

  // ---- dot-atoms ----

  /** `atext` of section 3.2.3 of RFC 5322, without the percent sign. */
  predicate IsAtext(c: char) {
    'a' <= c <= 'z' || 'A' <= c <= 'Z' || '0' <= c <= '9' || c in "!#$&'*+-/=?^_`{|}~"
  }

  predicate Atom(s: string) { s != "" && forall i :: 0 <= i < |s| ==> IsAtext(s[i]) }

  ghost predicate Atoms(s: string, atoms: seq<string>) {
    atoms != [] && (forall k :: 0 <= k < |atoms| ==> Atom(atoms[k])) && s == Dotted(atoms)
  }

  /** `dot-atom-text`: one or more atoms, joined by dots. */
  ghost predicate DotAtom(s: string) { exists atoms :: Atoms(s, atoms) }

  lemma {:induction false} LocalChars(c: char)
    ensures IsLocalChar(c) <==> IsAtext(c) || c == '.'
    ensures !IsAtext('.')
  {}

  /** What the checks of the source ask of a name of any length. */
  predicate Accepted(s: string) {
    s != "" && s[0] != '.' && s[|s|-1] != '.' && !Contains(s, "..") && forall i :: 0 <= i < |s| ==> IsLocalChar(s[i])
  }

  predicate TwoDots(s: string) { exists i :: 0 <= i < |s| - 1 && s[i] == '.' && s[i+1] == '.' }

  lemma {:induction false} ContainsTwoDots(s: string)
    ensures Contains(s, "..") <==> TwoDots(s)
  {
    if Contains(s, "..") {
      var i :| 0 <= i <= |s| && R.At(s, i, "..");
      assert s[i] == s[i..i+2][0] && s[i+1] == s[i..i+2][1];
    }
    if TwoDots(s) {
      var i :| 0 <= i < |s| - 1 && s[i] == '.' && s[i+1] == '.';
      assert s[i..i+2] == "..";
      assert R.At(s, i, "..");
    }
  }

  lemma {:induction false} AtomsHead(s: string, atoms: seq<string>)
    requires Atoms(s, atoms) && |atoms| > 1
    ensures Atom(atoms[0]) && Atoms(Dotted(atoms[1..]), atoms[1..]) && s == atoms[0] + "." + Dotted(atoms[1..])
  {
    hide Atom;
  }

  lemma {:induction false} AtomAccepted(a: string)
    requires Atom(a)
    ensures Accepted(a)
  {
    hide IsAtext, IsLocalChar, Contains;
    LocalChars('.');
    forall i | 0 <= i < |a| ensures IsLocalChar(a[i]) && a[i] != '.' { LocalChars(a[i]); }
    ContainsTwoDots(a);
  }

  lemma {:induction false} JoinedAccepted(a: string, t: string)
    requires Atom(a) && Accepted(t)
    ensures Accepted(a + "." + t)
  {
    hide IsAtext, IsLocalChar, Contains;
    var s := a + "." + t;
    LocalChars('.');
    forall i | 0 <= i < |s| ensures IsLocalChar(s[i]) && (i < |a| ==> s[i] != '.') {
      if i < |a| { LocalChars(s[i]); } else if i > |a| { assert s[i] == t[i-|a|-1]; }
    }
    ContainsTwoDots(s);
    ContainsTwoDots(t);
  }

  lemma {:induction false} DotAtomAccepted(s: string, atoms: seq<string>)
    requires Atoms(s, atoms)
    ensures Accepted(s)
    decreases |atoms|
  {
    hide Accepted, Atom;
    if |atoms| == 1 {
      assert Atom(atoms[0]);
      AtomAccepted(atoms[0]);
    } else {
      AtomsHead(s, atoms);
      DotAtomAccepted(Dotted(atoms[1..]), atoms[1..]);
      JoinedAccepted(atoms[0], Dotted(atoms[1..]));
    }
  }

  /** The name behind the first dot of an accepted name is accepted. */
  lemma {:induction false} TailAccepted(s: string, i: nat)
    requires Accepted(s) && i < |s| && s[i] == '.'
    ensures 0 < i < |s| - 1 && Accepted(s[i+1..])
  {
    hide IsLocalChar, Contains;
    var t := s[i+1..];
    ContainsTwoDots(s);
    ContainsTwoDots(t);
  }

  lemma {:induction false} FirstAtom(s: string, i: nat)
    requires Accepted(s) && 0 < i <= |s| && forall k :: 0 <= k < i ==> s[k] != '.'
    ensures Atom(s[..i])
  {
    hide IsAtext, IsLocalChar, Contains;
    forall k | 0 <= k < i ensures IsAtext(s[k]) { LocalChars(s[k]); }
  }

  lemma {:induction false} AtomsMore(a: string, t: string, rest: seq<string>)
    requires Atom(a) && Atoms(t, rest)
    ensures Atoms(a + "." + t, [a] + rest)
  {
    hide Atom;
    assert ([a] + rest)[1..] == rest;
  }

  lemma {:induction false} AcceptedDotAtom(s: string) returns (atoms: seq<string>)
    requires Accepted(s)
    ensures Atoms(s, atoms)
    decreases |s|
  {
    hide Accepted, Atom;
    var i := IndexOf(s, c => c == '.');
    AcceptedSome(s);
    if i == |s| {
      FirstAtom(s, i);
      assert s[..i] == s;
      atoms := [s];
    } else {
      TailAccepted(s, i);
      FirstAtom(s, i);
      var rest := AcceptedDotAtom(s[i+1..]);
      AtomsMore(s[..i], s[i+1..], rest);
      assert s == s[..i] + "." + s[i+1..];
      atoms := [s[..i]] + rest;
    }
  }

  lemma {:induction false} AcceptedSome(s: string)
    requires Accepted(s)
    ensures s != ""
  {}

  /** `validLocalPart` accepts exactly the dot-atoms of at most 64 characters. */
  lemma {:induction false} ValidLocalPartExactly(s: string)
    ensures ValidLocalPart(s) <==> |s| <= 64 && DotAtom(s)
  {
    hide Contains, IsLocalChar, Atoms;
    if ValidLocalPart(s) {
      var atoms := AcceptedDotAtom(s);
      assert Atoms(s, atoms);
    }
    if |s| <= 64 && DotAtom(s) {
      var atoms :| Atoms(s, atoms);
      DotAtomAccepted(s, atoms);
    }
  }

  // ---- the shapes of a checked link ----

  /** An https link with a bare host: no user, no port, no address in numbers. */
  ghost predicate IsWebLink(h: string, host: string, tail: string) {
    h == "https://" + host + tail && HostName(host) && (tail == "" || EndsHost(tail[0]))
  }

  /** A mail link that is an address and nothing else. */
  ghost predicate IsMailLink(h: string, local: string, d: string) {
    h == "mailto:" + local + "@" + d && DotAtom(local) && |local| <= 64 && HostName(d) && '?' !in h
  }

  ghost predicate WebLink(h: string) { exists host, tail :: IsWebLink(h, host, tail) }

  ghost predicate MailLink(h: string) { exists local, d :: IsMailLink(h, local, d) }

  lemma {:induction false} WebShape(rest: string, idna: string -> Option<string>)
    requires CleanHttps(rest, idna).Some?
    ensures WebLink(CleanHttps(rest, idna).value)
  {
    hide HostOk, CleanHost, HostName;
    var after := rest[2..];
    var end := IndexOf(after, EndsHost);
    var host := CleanHost(after[..end], idna).value;
    HostShape(after[..end], idna);
    HostOkExactly(host);
    assert IsWebLink(CleanHttps(rest, idna).value, host, after[end..]);
  }

  lemma {:induction false} NoQuestion(local: string, d: string)
    requires '?' !in local && HostOk(d)
    ensures '?' !in "mailto:" + local + "@" + d
  {
    HostChars(d);
    hide HostOk;
    assert forall i :: 0 <= i < |"mailto:"| ==> "mailto:"[i] != '?';
    assert '?' !in "@";
  }

  lemma {:induction false} MailShape(rest: string, idna: string -> Option<string>)
    requires CleanMailto(rest, idna).Some?
    ensures MailLink(CleanMailto(rest, idna).value)
  {
    hide HostOk, CleanHost, ValidLocalPart, DotAtom, HostName;
    var addr := rest[..IndexOf(rest, c => c == '?')];
    var at := IndexOf(addr, c => c == '@');
    var local := addr[..at];
    var d := CleanHost(addr[at+1..], idna).value;
    HostShape(addr[at+1..], idna);
    HostOkExactly(d);
    ValidLocalPartExactly(local);
    ValidShort(local);
    NoQuestion(local, d);
    assert IsMailLink(CleanMailto(rest, idna).value, local, d);
  }

  lemma {:induction false} ValidShort(s: string)
    requires ValidLocalPart(s)
    ensures |s| <= 64
  {}

  /** Every checked link is a web link on a checked host or a bare mail address, in an allowed scheme. */
  lemma {:induction false} CheckedShape(raw: string, schemes: set<string>, idna: string -> Option<string>)
    requires CleanHref(raw, schemes, idna).Some?
    ensures var h := CleanHref(raw, schemes, idna).value;
            ("https" in schemes && WebLink(h)) || ("mailto" in schemes && MailLink(h))
  {
    hide CleanHttps, CleanMailto, WebLink, MailLink, TrimSpaces, ByteLength, LinkChars, R.Lower;
    var s := TrimSpaces(raw);
    var colon := IndexOf(s, c => c == ':');
    var rest := s[colon+1..];
    if R.Lower(s[..colon]) == "https" { WebShape(rest, idna); } else { MailShape(rest, idna); }
  }
}
