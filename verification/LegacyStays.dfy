// What the old-notation compiler makes is already what sanitizing would make of it, and the console reads it back
// (apps/rich-editor/src/legacy.ts:236-266 with sanitize.ts:484-501 and apps/admin-web/src/lib/richtext.ts:103-220). The
// one condition on the text is that it holds no refused character: unlike the sanitizer, `legacyChars` keeps those.

module LegacyStays {
  import opened Base
  import opened Chars
  import opened RichModel
  import opened Finish
  import opened FinishSpec
  import opened LinkLines
  import opened Units
  import opened FinishLinks
  import opened LegacyModel
  import opened LegacyRules
  import opened SanitizerModel
  import opened SanitizerLines
  import opened SanitizerInv
  import opened SanitizerFix
  import opened SanitizerWalk
  import opened InlineWalk
  import Fixpoint
  import P = Printer
  import Reader
  import DocRoundTrip

  // ---- characters ----

  predicate Refused(s: string) { exists i :: 0 <= i < |s| && CharPolicy(s[i]) == Refuse }

  /** The old text is as clean as the sanitizer would leave it exactly when no character of it is refused. */
  lemma {:induction false} LegacyCharsAllowed(s: string)
    ensures AllowedText(LegacyChars(s)) <==> !Refused(s)
  {
    if s != "" {
      var head := match CharPolicy(s[0]) case Strip => "" case LineSep => "\n" case ParaSep => "\n\n" case _ => [s[0]];
      LegacyCharsAllowed(s[1..]);
      AllowedConcat(head, LegacyChars(s[1..]));
      HeadAllowed(s[0], head);
      assert Refused(s) <==> CharPolicy(s[0]) == Refuse || Refused(s[1..]) by { RefusedHead(s); }
    }
  }

  /** Every refused character is one on which the two part: the compiler keeps it and the sanitizer drops it. */
  lemma {:induction false} RefusedParts(s: string)
    ensures LegacyChars(s) == StripForbidden(s) ==> !Refused(s)
    ensures forall c: char :: CharPolicy(c) == Refuse ==> LegacyChars([c]) == [c] && StripForbidden([c]) == ""
    ensures LegacyChars("a\U{1}b") == "a\U{1}b" && StripForbidden("a\U{1}b") == "ab"
  {
    LegacyCharsAllowed(s);
    forall c: char | CharPolicy(c) == Refuse ensures LegacyChars([c]) == [c] && StripForbidden([c]) == "" {
      OneCharacter(c);
    }
    ControlParts();
  }

  lemma {:induction false} OneCharacter(c: char)
    requires CharPolicy(c) == Refuse
    ensures LegacyChars([c]) == [c] && StripForbidden([c]) == ""
  {
    hide CharPolicy;
    assert [c][1..] == "" && LegacyChars("") == "" && StripForbidden("") == "";
  }

  lemma {:induction false} ControlParts()
    ensures LegacyChars("a\U{1}b") == "a\U{1}b" && StripForbidden("a\U{1}b") == "ab"
  {
    var s := "a\U{1}b";
    assert s[1..][1..] == "b" && s[1..][1..][1..] == "" && s[1..][0] == '\U{1}';
    assert CharPolicy('a') == Plain && CharPolicy('b') == Plain && CharPolicy('\U{1}') == Refuse;
    assert LegacyChars("b") == "b" && StripForbidden("b") == "b";
  }

  lemma {:induction false} RefusedHead(s: string)
    requires s != ""
    ensures Refused(s) <==> CharPolicy(s[0]) == Refuse || Refused(s[1..])
  {
    hide CharPolicy;
    if Refused(s[1..]) {
      var i :| 0 <= i < |s[1..]| && CharPolicy(s[1..][i]) == Refuse;
      assert s[i+1] == s[1..][i];
    }
    if Refused(s) && CharPolicy(s[0]) != Refuse {
      var i :| 0 <= i < |s| && CharPolicy(s[i]) == Refuse;
      assert s[1..][i-1] == s[i];
    }
  }

  lemma {:induction false} HeadAllowed(c: char, head: string)
    requires head == match CharPolicy(c) case Strip => "" case LineSep => "\n" case ParaSep => "\n\n" case _ => [c]
    ensures AllowedText(head) <==> CharPolicy(c) != Refuse
  {
    assert Allowed('\n');
    if CharPolicy(c) == Refuse {
      assert head[0] == c;
    } else {
      hide CharPolicy;
    }
  }

  lemma {:induction false} AllowedConcat(a: string, b: string)
    ensures AllowedText(a + b) <==> AllowedText(a) && AllowedText(b)
  {
    hide Allowed;
    var s := a + b;
    assert forall i :: 0 <= i < |a| ==> a[i] == s[i];
    assert forall i :: 0 <= i < |b| ==> b[i] == s[|a| + i];
  }

  lemma {:induction false} NewlinesAllowed(s: string)
    requires AllowedText(s)
    ensures AllowedText(Newlines(s))
  {
    if s != "" {
      var rest := if s[0] == '\r' && |s| > 1 && s[1] == '\n' then s[2..] else s[1..];
      NewlinesAllowed(rest);
      AllowedConcat(if s[0] == '\r' then "\n" else [s[0]], Newlines(rest));
    }
  }

  predicate AllAllowed(lines: seq<string>) {
    forall i :: 0 <= i < |lines| ==> AllowedText(lines[i])
  }

  lemma {:induction false} LinesAllowed(s: string)
    requires AllowedText(s)
    ensures AllAllowed(Lines(s))
  {
    hide Allowed;
    if s != "" { LinesAllowed(s[1..]); }
  }

  lemma {:induction false} TrimAllowed(s: string)
    requires AllowedText(s)
    ensures AllowedText(TrimLeft(s, IsWS)) && AllowedText(TrimRight(s, IsWS))
  {
    hide Allowed, IsWS;
    if s != "" {
      TrimAllowed(s[1..]);
      TrimAllowed(s[..|s|-1]);
    }
  }

  lemma {:induction false} BodyAllowed(line: string)
    requires AllowedText(line)
    ensures AllowedText(Classify(line).body)
  {
    hide Allowed, TrimLeft, Value, Digits;
    if line != "" { TrimAllowed(line[1..]); }
    var n := Digits(line, 0);
    if n + 1 < |line| { TrimAllowed(line[n+1..]); }
  }

  // ---- the texts of a compiled line ----

  lemma {:induction false} PartsAllowed(parts: seq<Part>, mark: string)
    requires AllowedText(Delimited(parts, mark))
    ensures AllowedText(PartsText(parts)) && forall k :: 0 <= k < |parts| ==> AllowedText(parts[k].text)
  {
    hide AllowedText;
    if parts == [] {
      NothingAllowed();
    } else {
      var p := parts[0];
      AllowedConcat(if p.marked then mark + p.text + mark else p.text, Delimited(parts[1..], mark));
      AllowedConcat(mark + p.text, mark);
      AllowedConcat(mark, p.text);
      PartsAllowed(parts[1..], mark);
      AllowedConcat(p.text, PartsText(parts[1..]));
    }
  }

  lemma {:induction false} NothingAllowed()
    ensures AllowedText("")
  {}

  lemma {:induction false} MarkedAllowed(parts: seq<Part>)
    requires ItalicsRestored(parts) && forall k :: 0 <= k < |parts| ==> AllowedText(parts[k].text)
    ensures AllowedText(MarkedText(parts))
  {
    hide AllowedText, Italics, Delimited;
    if parts == [] {
      NothingAllowed();
    } else {
      PartsAllowed(Italics(parts[0].text, 0, 0), "_");
      MarkedAllowed(parts[1..]);
      AllowedConcat(PartsText(Italics(parts[0].text, 0, 0)), MarkedText(parts[1..]));
    }
  }

  lemma {:induction false} RunsAllowed(cs: seq<Chunk>)
    requires AllowedText(LineText(cs))
    ensures forall i :: 0 <= i < |cs| && cs[i].Run? ==> AllowedText(cs[i].text)
  {
    hide AllowedText;
    if cs != [] {
      AllowedConcat(match cs[0] case Br => "\n" case Run(t, _, _) => t, LineText(cs[1..]));
      RunsAllowed(cs[1..]);
    }
  }

  /** No underline: the old notation has none. */
  predicate NoUnderline(cs: seq<Chunk>) {
    forall i :: 0 <= i < |cs| && cs[i].Run? ==> !cs[i].marks.u
  }

  lemma {:induction false} ScanMarks(s: string, strong: bool, em: bool, i: nat, last: nat, st: Links, clean: Clean)
    requires last <= i <= |s|
    ensures NoUnderline(LinkScan(s, strong, em, i, last, st, clean).0)
    decreases |s| - i
  {
    hide LinkScan, HttpsAt, RunEnd, CutPunct;
    if i + 8 > |s| || st.budget == 0 {
      ScanEnds(s, strong, em, i, last, st, clean);
    } else if LinkFound(s, i, clean) {
      var end := ScanLinks(s, strong, em, i, last, st, clean);
      ScanMarks(s, strong, em, end, end, Links(st.budget - 1, st.last + 1), clean);
    } else {
      var k := ScanGoesOn(s, strong, em, i, last, st, clean);
      ScanMarks(s, strong, em, k, last, st, clean);
    }
  }

  lemma {:induction false} SpansMarks(spans: seq<Span>, st: Links, clean: Clean)
    ensures NoUnderline(SpanChunks(spans, st, clean).0)
  {
    hide LinkScan;
    if spans != [] {
      var sp := spans[0];
      ScanMarks(sp.text, sp.strong, sp.em, 0, 0, st, clean);
      SpansMarks(spans[1..], LinkScan(sp.text, sp.strong, sp.em, 0, 0, st, clean).1, clean);
    }
  }

  // ---- a compiled line is fit to be finished ----

  /** What a pending line of the compiler is. */
  ghost predicate Compiled(cs: seq<Chunk>, from: nat, to: nat, clean: Clean) {
    && Numbered(cs, from, to, clean) && NoUnderline(cs)
    && forall i :: 0 <= i < |cs| && cs[i].Run? ==> AllowedText(cs[i].text)
  }

  lemma {:induction false} InlineCompiled(s: string, st: Links, clean: Clean)
    requires AllowedText(s) && NoEmptyTarget(clean)
    ensures var r := InlineChunks(s, st, clean);
            Compiled(r.0, st.last, r.1.last, clean) && r.1.budget + r.1.last == st.budget + st.last
  {
    hide NoUnderline, Numbered, AllowedText, SpanChunks, MarkedText, Delimited, ItalicsRestored, NoEmptyTarget, LinkedChunks;
    InlineBudget(s, st, clean);
    InlineKeepsText(s, st, clean);
    PartsAllowed(Bolds(s, 0, 0), "**");
    MarkedAllowed(Bolds(s, 0, 0));
    RunsAllowed(InlineChunks(s, st, clean).0);
    SpansMarks(Spans(s), st, clean);
  }

  lemma {:induction false} CompiledConcat(a: seq<Chunk>, b: seq<Chunk>, from: nat, mid: nat, to: nat, clean: Clean)
    requires Compiled(a, from, mid, clean) && Compiled(b, mid, to, clean)
    ensures Compiled(a + b, from, to, clean)
  {
    hide Numbered, AllowedText;
    NumberedConcat(a, b, from, mid, to, clean);
  }

  lemma {:induction false} BreakCompiled(n: nat, clean: Clean)
    ensures Compiled([Br], n, n, clean) && Compiled([], n, n, clean)
  {
    assert [Br][..0] == [];
  }

  lemma {:induction false} LineCompiled(para: seq<Chunk>, cs: seq<Chunk>, from: nat, mid: nat, to: nat, clean: Clean)
    requires Compiled(para, from, mid, clean) && Compiled(cs, mid, to, clean)
    ensures Compiled(WithLine(para, cs), from, to, clean)
  {
    hide Compiled;
    BreakCompiled(mid, clean);
    if para == [] {
      assert WithLine(para, cs) == para + cs;
      CompiledConcat(para, cs, from, mid, to, clean);
    } else {
      CompiledConcat(para, [Br], from, mid, mid, clean);
      CompiledConcat(para + [Br], cs, from, mid, to, clean);
    }
  }

  /** Numbered links are all different, so each stands together with itself alone. */
  lemma {:induction false} NumberAt(cs: seq<Chunk>, from: nat, to: nat, clean: Clean, i: nat)
    requires Numbered(cs, from, to, clean) && i < |cs| && LinkRun(cs[i])
    ensures from < cs[i].link <= to && clean(cs[i].text) == Some(cs[i].marks.href)
    decreases |cs|
  {
    var n := |cs| - 1;
    if i < n {
      NumberAt(cs[..n], from, if LinkRun(cs[n]) then to - 1 else to, clean, i);
    } else {
      NumberedUp(cs[..n], from, to - 1, clean);
    }
  }

  lemma {:induction false} NumbersApart(cs: seq<Chunk>, from: nat, to: nat, clean: Clean, i: nat, j: nat)
    requires Numbered(cs, from, to, clean) && i < j < |cs| && LinkRun(cs[i]) && LinkRun(cs[j])
    ensures cs[i].link < cs[j].link
    decreases |cs|
  {
    var n := |cs| - 1;
    if j < n {
      NumbersApart(cs[..n], from, if LinkRun(cs[n]) then to - 1 else to, clean, i, j);
    } else {
      NumberAt(cs[..n], from, to - 1, clean, i);
    }
  }

  lemma {:induction false} NumberedTogether(cs: seq<Chunk>, from: nat, to: nat, clean: Clean)
    requires Numbered(cs, from, to, clean)
    ensures RunsTogether(cs)
  {
    hide Numbered;
    forall i, j | 0 <= i < j < |cs| && LinkedRun(cs[i]) && LinkedRun(cs[j]) ensures cs[i].link != cs[j].link {
      NumbersApart(cs, from, to, clean, i, j);
    }
  }

  /** The profile has the tags the notation uses, and links only where it may. */
  ghost predicate FitProfile(r: Rules, maxLinks: nat) {
    "strong" in r.tags && "em" in r.tags && "ul" in r.tags && (maxLinks > 0 ==> "a" in r.tags)
  }

  lemma {:induction false} CompiledFits(cs: seq<Chunk>, from: nat, to: nat, r: Rules, maxLinks: nat)
    requires Compiled(cs, from, to, r.clean) && to <= maxLinks && FitProfile(r, maxLinks)
    ensures RunsTogether(cs) && RunsFit(cs, r)
  {
    hide Numbered, AllowedText, RunsTogether;
    NumberedTogether(cs, from, to, r.clean);
    forall i | 0 <= i < |cs| ensures RunFit(cs[i], r) {
      if cs[i].Run? && cs[i].marks.href != "" { NumberAt(cs, from, to, r.clean, i); }
    }
  }

  lemma {:induction false} CompiledLine(cs: seq<Chunk>, from: nat, to: nat, r: Rules, maxLinks: nat)
    requires Compiled(cs, from, to, r.clean) && to <= maxLinks && FitProfile(r, maxLinks)
    ensures LineInv(FinishedOr(cs), r)
  {
    hide LineInv, Compiled, FitProfile, RunsTogether, RunsFit, Finished;
    CompiledFits(cs, from, to, r, maxLinks);
    FinishedLine(cs, r);
    EmptyLine(r);
  }

  lemma {:induction false} EmptyLine(r: Rules)
    ensures LineInv([], r)
  {}

  // ---- documents ----

  lemma {:induction false} ItemsGood(lines: seq<string>, i: nat, j: nat, st: Links, r: Rules, maxLinks: nat)
    requires i <= j <= |lines| && AllAllowed(lines) && NoEmptyTarget(r.clean) && FitProfile(r, maxLinks)
    requires st.budget + st.last <= maxLinks
    ensures var x := ListItems(lines, i, j, st, r.clean);
            && (forall k :: 0 <= k < |x.0| ==> ItemInv(x.0[k], 1, r)) && x.1.budget + x.1.last == st.budget + st.last
    decreases j - i
  {
    hide Classify, InlineChunks, LineInv, FitProfile, NoEmptyTarget, FinishedOr, Compiled, AllowedText;
    if i < j {
      var body := Classify(lines[i]).body;
      var (cs, a) := InlineChunks(body, st, r.clean);
      BodyAllowed(lines[i]);
      InlineCompiled(body, st, r.clean);
      CompiledLine(cs, st.last, a.last, r, maxLinks);
      ItemsGood(lines, i + 1, j, a, r, maxLinks);
    }
  }

  lemma {:induction false} ParaGood(para: seq<Chunk>, from: nat, to: nat, r: Rules, maxLinks: nat)
    requires Compiled(para, from, to, r.clean) && to <= maxLinks && FitProfile(r, maxLinks)
    ensures DocInv(FlushedPara(para), r)
  {
    hide Compiled, FitProfile, LineInv, FinishedOr;
    CompiledLine(para, from, to, r, maxLinks);
  }

  lemma {:induction false} DocGood(a: Doc, b: Doc, r: Rules)
    requires DocInv(a, r) && DocInv(b, r)
    ensures DocInv(a + b, r)
  {
    hide BlockInv;
  }

  lemma {:induction false} ListGood(ordered: bool, items: seq<Item>, r: Rules)
    requires "ul" in r.tags && forall k :: 0 <= k < |items| ==> ItemInv(items[k], 1, r)
    ensures DocInv([ListBlock(List(ordered, items))], r)
  {
    hide ItemInv;
  }

  lemma {:induction false} SegmentsGood(lines: seq<string>, segs: seq<Segment>, para: seq<Chunk>, from: nat, st: Links, r: Rules, maxLinks: nat)
    requires (forall k :: 0 <= k < |segs| ==> SegmentIn(segs[k], lines)) && AllAllowed(lines)
    requires NoEmptyTarget(r.clean) && FitProfile(r, maxLinks) && st.budget + st.last <= maxLinks
    requires Compiled(para, from, st.last, r.clean)
    ensures var x := SegmentBlocks(lines, segs, para, st, r.clean);
            DocInv(x.0, r) && x.1.budget + x.1.last == st.budget + st.last
    decreases |segs|
  {
    hide InlineChunks, ListItems, FlushedPara, DocInv, Compiled, WithLine, NoEmptyTarget, AllowedText, ItemInv;
    if segs == [] {
      ParaGood(para, from, st.last, r, maxLinks);
    } else {
      assert SegmentIn(segs[0], lines);
      match segs[0]
      case TextAt(i) =>
        var (cs, a) := InlineChunks(lines[i], st, r.clean);
        InlineCompiled(lines[i], st, r.clean);
        LineCompiled(para, cs, from, st.last, a.last, r.clean);
        SegmentsGood(lines, segs[1..], WithLine(para, cs), from, a, r, maxLinks);
      case ListAt(i, j, ordered) =>
        var (items, a) := ListItems(lines, i, j, st, r.clean);
        ItemsGood(lines, i, j, st, r, maxLinks);
        BreakCompiled(a.last, r.clean);
        SegmentsGood(lines, segs[1..], [], a.last, a, r, maxLinks);
        ParaGood(para, from, st.last, r, maxLinks);
        ListGood(ordered, items, r);
        DocGood(FlushedPara(para), [ListBlock(List(ordered, items))], r);
        DocGood(FlushedPara(para) + [ListBlock(List(ordered, items))], SegmentBlocks(lines, segs[1..], [], a, r.clean).0, r);
    }
  }

  lemma {:induction false} BlockGood(block: seq<string>, st: Links, r: Rules, maxLinks: nat)
    requires AllAllowed(block) && NoEmptyTarget(r.clean) && FitProfile(r, maxLinks) && st.budget + st.last <= maxLinks
    ensures var x := FlushedBlock(block, st, r.clean); DocInv(x.0, r) && x.1.budget + x.1.last == st.budget + st.last
  {
    hide SegmentBlocks, Segments, Compiled, NoEmptyTarget, FitProfile, BlockInv, AllAllowed;
    if block != [] {
      SegmentsIn(block, 0);
      BreakCompiled(st.last, r.clean);
      SegmentsGood(block, Segments(block, 0), [], st.last, st, r, maxLinks);
    }
  }

  lemma {:induction false} RawGood(raws: seq<string>, block: seq<string>, st: Links, r: Rules, maxLinks: nat)
    requires AllAllowed(raws) && AllAllowed(block)
    requires NoEmptyTarget(r.clean) && FitProfile(r, maxLinks) && st.budget + st.last <= maxLinks
    ensures DocInv(RawDoc(raws, block, st, r.clean).0, r)
    decreases |raws|
  {
    hide FlushedBlock, TrimLeft, TrimRight, DocInv, NoEmptyTarget, FitProfile, AllowedText;
    BlockGood(block, st, r, maxLinks);
    if raws != [] {
      TrimAllowed(raws[0]);
      TrimAllowed(TrimLeft(raws[0], IsWS));
      if Trim(raws[0]) == "" {
        var (d, a) := FlushedBlock(block, st, r.clean);
        RawGood(raws[1..], [], a, r, maxLinks);
        DocGood(d, RawDoc(raws[1..], [], a, r.clean).0, r);
      } else {
        RawGood(raws[1..], block + [Trim(raws[0])], st, r, maxLinks);
      }
    }
  }

  /** The compiled document is one the sanitizer could have made. */
  lemma {:induction false} LegacyGood(text: string, r: Rules, maxLinks: nat)
    requires !Refused(text) && NoEmptyTarget(r.clean) && FitProfile(r, maxLinks)
    ensures DocInv(LegacyDoc(text, maxLinks, r.clean).0, r)
  {
    hide RawDoc, DocInv, NoEmptyTarget, FitProfile, LegacyChars, Newlines, Lines, Refused, AllowedText;
    LegacyCharsAllowed(text);
    NewlinesAllowed(LegacyChars(text));
    LinesAllowed(Newlines(LegacyChars(text)));
    NoLinesAllowed();
    RawGood(Lines(Newlines(LegacyChars(text))), [], Links(maxLinks, 0), r, maxLinks);
  }

  lemma {:induction false} NoLinesAllowed()
    ensures AllAllowed([])
  {}

  /**
   * The wizard shows what the server would store: the console reads the printed document back as its own tree, and
   * sanitizing that tree prints the same HTML.
   */
  lemma {:induction false} LegacyHtmlStays(text: string, r: Rules, maxLinks: nat, url: string -> bool)
    requires !Refused(text) && NoEmptyTarget(r.clean) && FitProfile(r, maxLinks)
    requires var t := Fixpoint.Targets(LegacyDoc(text, maxLinks, r.clean).0); Fixpoint.AllFixed(t, r) && Fixpoint.AllSafe(t, url)
    ensures var d := LegacyDoc(text, maxLinks, r.clean).0;
            var read := Reader.Parsed(Fixpoint.Html(d), url);
            && read == P.DocTree(d)
            && Sanitized(ToDoms(read), r).Some? && Fixpoint.Html(Sanitized(ToDoms(read), r).value) == Fixpoint.Html(d)
  {
    hide LegacyDoc, DocInv, FixedDoc, P.DocTree, Reader.Parsed, Sanitized, Fixpoint.AllFixed, Fixpoint.AllSafe, Fixpoint.Targets;
    var d := LegacyDoc(text, maxLinks, r.clean).0;
    LegacyGood(text, r, maxLinks);
    Fixpoint.Readable(d, r, url);
    DocRoundTrip.PrintedDocReadsBack(d, url);
    Fixpoint.FixedOfTargets(d, r);
    GoodDocStays(d, r);
  }
}
