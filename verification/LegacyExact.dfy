// When the compiled old text is what sanitizing would store (apps/rich-editor/src/legacy.ts:236-266, sanitize.ts:498-501): exactly when
// it has no refused character and both link checks keep its links.

module LegacyExact {
  import opened Base
  import opened Chars
  import opened RichModel
  import opened Markup
  import opened VisibleText
  import opened TextRows
  import opened LegacyModel
  import opened LegacyRules
  import opened LegacyLines
  import opened LegacyStays
  import opened PrintedText
  import opened SanitizerModel
  import opened SanitizerLines
  import opened SanitizerInv
  import opened SanitizerWalk
  import opened InlineWalk
  import opened Fixpoint
  import opened FixpointExact
  import Printer
  import Reader
  import Units
  import Href

  // ---- a refused character is ordinary text to the compiler ----

  predicate IsRefused(c: char) { CharPolicy(c) == Refuse }

  lemma {:induction false} RefusedIsText(c: char)
    requires IsRefused(c)
    ensures !IsWS(c) && c != '\n' && c != '\r' && c != '*' && c != '_' && c != '-' && c != '.' && c != '\U{2022}' && !IsDigit(c)
  {}

  lemma {:induction false} InChars(s: string, c: char)
    requires c in s && IsRefused(c)
    ensures c in LegacyChars(s)
  {
    if s[0] != c { InChars(s[1..], c); }
  }

  lemma {:induction false} InNewlines(s: string, c: char)
    requires c in s && c != '\r' && c != '\n'
    ensures c in Newlines(s)
  {
    if s[0] == '\r' {
      var rest := if |s| > 1 && s[1] == '\n' then s[2..] else s[1..];
      assert c in rest;
      InNewlines(rest, c);
    } else if s[0] != c {
      InNewlines(s[1..], c);
    }
  }

  lemma {:induction false} InSomeLine(s: string, c: char) returns (k: nat)
    requires c in s && c != '\n'
    ensures k < |Lines(s)| && c in Lines(s)[k]
  {
    if s[0] == c {
      k := 0;
    } else {
      var j := InSomeLine(s[1..], c);
      k := if s[0] == '\n' then j + 1 else j;
    }
  }

  lemma {:induction false} InTrimLeft(s: string, c: char)
    requires c in s && !IsWS(c)
    ensures c in TrimLeft(s, IsWS)
  {
    hide IsWS;
    if IsWS(s[0]) { InTrimLeft(s[1..], c); }
  }

  lemma {:induction false} InTrimRight(s: string, c: char)
    requires c in s && !IsWS(c)
    ensures c in TrimRight(s, IsWS)
  {
    hide IsWS;
    if IsWS(s[|s|-1]) {
      assert s == s[..|s|-1] + [s[|s|-1]];
      InTrimRight(s[..|s|-1], c);
    }
  }

  lemma {:induction false} InNonBlank(raws: seq<string>, i: nat, c: char) returns (k: nat)
    requires i < |raws| && c in raws[i] && !IsWS(c)
    ensures k < |NonBlank(raws)| && c in NonBlank(raws)[k]
    decreases i
  {
    hide IsWS;
    InTrimLeft(raws[i], c);
    InTrimRight(TrimLeft(raws[i], IsWS), c);
    if i == 0 {
      k := 0;
    } else {
      var j := InNonBlank(raws[1..], i - 1, c);
      k := if Trim(raws[0]) == "" then j else j + 1;
    }
  }

  /** The marker that an item loses holds no refused character. */
  lemma {:induction false} InBody(line: string, c: char)
    requires c in line && IsRefused(c)
    ensures c in Classify(line).body
  {
    hide CharPolicy, IsWS, Value, StartsWithWS;
    RefusedIsText(c);
    var n := Digits(line, 0);
    if BulletBody(line).Some? {
      assert line == [line[0]] + line[1..];
      InTrimLeft(line[1..], c);
    } else if NumberBody(line).Some? {
      assert line == line[..n] + [line[n]] + line[n+1..];
      InTrimLeft(line[n+1..], c);
    }
  }

  lemma {:induction false} InDelimited(parts: seq<Part>, mark: string, c: char) returns (k: nat)
    requires c in Delimited(parts, mark) && c !in mark
    ensures k < |parts| && c in parts[k].text
  {
    k := 0;
    if c !in parts[0].text {
      var j := InDelimited(parts[1..], mark, c);
      k := j + 1;
    }
  }

  lemma {:induction false} InParts(parts: seq<Part>, k: nat, c: char)
    requires k < |parts| && c in parts[k].text
    ensures c in PartsText(parts)
    decreases k
  {
    if k > 0 { InParts(parts[1..], k - 1, c); }
  }

  lemma {:induction false} InItalics(s: string, c: char)
    requires c in s && c != '_'
    ensures c in PartsText(Italics(s, 0, 0))
  {
    hide Italics;
    ItalicsKeep(s, 0, 0);
    assert s[0..] == s;
    var k := InDelimited(Italics(s, 0, 0), "_", c);
    InParts(Italics(s, 0, 0), k, c);
  }

  lemma {:induction false} InMarked(parts: seq<Part>, k: nat, c: char)
    requires k < |parts| && c in parts[k].text && c != '_'
    ensures c in MarkedText(parts)
    decreases k
  {
    hide Italics;
    if k == 0 { InItalics(parts[0].text, c); } else { InMarked(parts[1..], k - 1, c); }
  }

  lemma {:induction false} InNonSpace(s: string, c: char)
    requires c in s && !IsWS(c)
    ensures c in NonSpace(s)
  {
    hide IsWS;
    if s[|s|-1] != c {
      assert s == s[..|s|-1] + [s[|s|-1]];
      InNonSpace(s[..|s|-1], c);
    }
  }

  lemma {:induction false} InShown(s: string, c: char)
    requires c in s && IsRefused(c)
    ensures c in Shown(s)
  {
    hide Bolds, CharPolicy, IsWS;
    RefusedIsText(c);
    BoldsKeep(s, 0, 0);
    assert s[0..] == s;
    var k := InDelimited(Bolds(s, 0, 0), "**", c);
    InMarked(Bolds(s, 0, 0), k, c);
    InNonSpace(MarkedText(Bolds(s, 0, 0)), c);
  }

  // ---- and it is printed ----

  lemma {:induction false} InRow(s: string, k: nat, c: char)
    requires k < |Rows(s)| && c in Rows(s)[k]
    ensures c in s
  {
    hide IsWS;
    if s != "" {
      var q := s[..|s|-1];
      if k < |Rows(q)| && c in Rows(q)[k] { InRow(q, k, c); }
    }
  }

  lemma {:induction false} InJoin(parts: seq<string>, c: char) returns (k: nat)
    requires c in Units.JoinLines(parts) && c != '\n'
    ensures k < |parts| && c in parts[k]
  {
    k := 0;
    if c !in parts[0] {
      var j := InJoin(parts[1..], c);
      k := j + 1;
    }
  }

  lemma {:induction false} InTree(f: seq<Node>, k: nat, c: char)
    requires k < |VisibleRows(f)| && c in VisibleRows(f)[k] && c != '\n'
    ensures c in PlainText(f)
  {
    hide Units.ForestLines, Units.JoinLines, Rows, PlainText;
    InRow(Units.JoinLines(Units.ForestLines(f)), k, c);
    var j := InJoin(Units.ForestLines(f), c);
    InLines(f, j, c);
  }

  lemma {:induction false} InLine(text: string, c: char) returns (k: nat)
    requires c in text && IsRefused(c)
    ensures k < |NonBlank(RawLines(text))| && c in NonBlank(RawLines(text))[k]
  {
    hide IsRefused, LegacyChars, Newlines, Lines, NonBlank, IsWS;
    RefusedIsText(c);
    InChars(text, c);
    InNewlines(LegacyChars(text), c);
    var i := InSomeLine(Newlines(LegacyChars(text)), c);
    k := InNonBlank(RawLines(text), i, c);
  }

  /** A refused character of the text stands in the printed document. */
  lemma {:induction false} RefusedPrinted(text: string, c: char, maxLinks: nat, clean: Clean)
    requires c in text && IsRefused(c)
    ensures c in PlainText(Printer.DocTree(LegacyDoc(text, maxLinks, clean).0))
  {
    hide IsRefused, LegacyDoc, RawLines, NonBlank, RawTexts, VisibleRows, PlainText, Printer.DocTree, Shown, Classify, Rowful;
    var lines, texts := NonBlank(RawLines(text)), RawTexts(RawLines(text), []);
    var k := InLine(text, c);
    LegacyKeepsLines(text, maxLinks, clean);
    assert EntersAs(lines[k], texts[k]);
    InBody(lines[k], c);
    InShown(texts[k], c);
    RefusedIsText(c);
    InTree(Printer.DocTree(LegacyDoc(text, maxLinks, clean).0), k, c);
  }

  lemma {:induction false} RefusedChar(text: string) returns (c: char)
    requires Refused(text)
    ensures c in text && IsRefused(c)
  {
    var i :| 0 <= i < |text| && CharPolicy(text[i]) == Refuse;
    c := text[i];
  }

  /** Sanitizing a document with a refused character prints something else. */
  lemma {:induction false} RefusedChanges(d: Doc, c: char, r: Rules, url: string -> bool)
    requires CleanOk(r) && IsRefused(c) && c in PlainText(Printer.DocTree(d))
    ensures !Stays(d, r, url)
  {
    hide CleanOk, CharPolicy, PlainText, Printer.DocTree, Sanitized, DocInv, TreeOk, Reader.Parsed, ToDoms, PrintAll;
    if Stays(d, r, url) {
      var d2 := Sanitized(ToDoms(Printer.DocTree(d)), r).value;
      SanitizedIsGood(ToDoms(Printer.DocTree(d)), r);
      DocOk(d2, r, true);
      DocOk(d2, r, false);
      DocOk(d, r, false);
      SamePrintSameText(Printer.DocTree(d), Printer.DocTree(d2));
      TreeOkText(Printer.DocTree(d2));
      NotAllowed(PlainText(Printer.DocTree(d2)), c);
    }
  }

  lemma {:induction false} NotAllowed(s: string, c: char)
    requires AllowedText(s) && c in s
    ensures !IsRefused(c)
  {
    var i :| 0 <= i < |s| && s[i] == c;
  }

  // ---- exactly when ----

  /** The compiled text stays exactly when it has no refused character and both checks keep its links. */
  lemma {:induction false} LegacyStaysExactly(text: string, r: Rules, maxLinks: nat, url: string -> bool)
    requires NoEmptyTarget(r.clean) && CheckedTwice(r) && FitProfile(r, maxLinks)
    ensures var d := LegacyDoc(text, maxLinks, r.clean).0;
            Stays(d, r, url) <==> !Refused(text) && AllFixed(Targets(d), r) && AllSafe(Targets(d), url)
  {
    hide LegacyDoc, Stays, Refused, IsRefused, AllFixed, AllSafe, Targets, FitProfile, CheckedTwice, DocInv, PlainText, Printer.DocTree;
    CleanIsOk(r);
    var d := LegacyDoc(text, maxLinks, r.clean).0;
    if Refused(text) {
      var c := RefusedChar(text);
      RefusedPrinted(text, c, maxLinks, r.clean);
      RefusedChanges(d, c, r, url);
    } else {
      LegacyGood(text, r, maxLinks);
      GoodStaysExactly(d, r, url);
    }
  }

  lemma {:induction false} CleanIsOk(r: Rules)
    requires NoEmptyTarget(r.clean)
    ensures CleanOk(r)
  {}

  // ---- the shipped profiles ----

  const BASE_TAGS: set<string> := {"p", "br", "strong", "em", "u", "a", "ul", "ol", "li"}

  /** How many links a profile makes of bare addresses: only the letter note does. */
  datatype Shipped = Description | EmailNote | SessionMessage

  function TagsOf(p: Shipped): set<string> {
    if p.Description? then BASE_TAGS + {"h3", "h4", "blockquote"} else BASE_TAGS
  }

  function SchemesOf(p: Shipped): set<string> {
    if p.Description? then {"https", "mailto"} else {"https"}
  }

  function AutoLinks(p: Shipped): nat { if p.EmailNote? then 5 else 0 }

  function RulesOf(p: Shipped, idna: string -> Option<string>): Rules { ProfileRules(TagsOf(p), SchemesOf(p), idna) }

  lemma {:induction false} ShippedFits(p: Shipped, idna: string -> Option<string>)
    requires Href.IdnaStable(idna)
    ensures var r := RulesOf(p, idna); NoEmptyTarget(r.clean) && CheckedTwice(r) && FitProfile(r, AutoLinks(p))
  {
    hide Href.IdnaStable, CheckedTwice, Href.CleanHref;
    ProfileRulesOk(TagsOf(p), SchemesOf(p), idna);
    ProfileChecksTwice(TagsOf(p), SchemesOf(p), idna);
    var r := RulesOf(p, idna);
    forall s ensures r.clean(s) != Some("") {}
  }

  /** What the second check and the console ask of a link. */
  predicate LinkStays(h: string, url: string -> bool) {
    Href.ByteLength(h) <= Href.MAX_LINK_LENGTH && !Href.Has(h, Href.ConsoleRefuses) && url(h)
  }

  /** For each shipped profile: exactly without refused characters, over-long links, and links the console does not show. */
  lemma {:induction false} ShippedStaysExactly(text: string, p: Shipped, idna: string -> Option<string>, url: string -> bool)
    requires Href.IdnaStable(idna)
    ensures var r := RulesOf(p, idna); var d := LegacyDoc(text, AutoLinks(p), r.clean).0;
            Stays(d, r, url) <==> !Refused(text) && forall h | h in Targets(d) :: LinkStays(h, url)
  {
    hide Href.IdnaStable, LegacyDoc, Stays, Refused, Targets, FitProfile, CheckedTwice, DocInv, NoEmptyTarget, LinkStays, KeptHref, Reader.SafeHref;
    var r := RulesOf(p, idna);
    ShippedFits(p, idna);
    var d := LegacyDoc(text, AutoLinks(p), r.clean).0;
    LegacyStaysExactly(text, r, AutoLinks(p), url);
    if !Refused(text) {
      LegacyGood(text, r, AutoLinks(p));
      forall h | h in Targets(d) ensures LinkStays(h, url) <==> r.clean(h) == Some(h) && Reader.SafeHref(Some(h), url) == Some(h) {
        TargetsKept(d, h, r);
        OneLinkStays(h, p, idna, url);
      }
    }
  }

  lemma {:induction false} OneLinkStays(h: string, p: Shipped, idna: string -> Option<string>, url: string -> bool)
    requires Href.IdnaStable(idna) && KeptHref(h, RulesOf(p, idna))
    ensures LinkStays(h, url) <==> RulesOf(p, idna).clean(h) == Some(h) && Reader.SafeHref(Some(h), url) == Some(h)
  {
    hide Href.IdnaStable, KeptHref, Reader.SafeHref, Href.ByteLength, Href.Has;
    KeptTarget(h, TagsOf(p), SchemesOf(p), idna, url);
  }
}
