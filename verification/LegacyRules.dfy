// What the old notation means (apps/rich-editor/src/legacy.ts:89-222): no character of a line is lost, doubled or moved,
// links are numbered and counted against the limit, and lists arise from consecutive lines only.

module LegacyRules {
  import opened Base
  import opened Chars
  import opened RichModel
  import opened Finish
  import opened Printer
  import opened Units
  import opened FinishLinks
  import opened LegacyModel
  import Writer

  // ---- the closing "**" ----

  /** The closer is the first "**" from three characters on that follows no space, wherever the search began. */
  lemma {:induction false} LeastIs(s: string, j: nat, k: nat)
    requires j <= k && CloserAt(s, k)
    ensures LeastCloser(s, j).Some? && LeastCloser(s, j).value <= k
    decreases |s| - j
  {
    if j < |s| && !CloserAt(s, j) { LeastIs(s, j + 1, k); }
  }

  // ---- every character of a line ----

  /** The parts with their delimiters put back. */
  function Delimited(parts: seq<Part>, mark: string): string {
    if parts == [] then ""
    else (if parts[0].marked then mark + parts[0].text + mark else parts[0].text) + Delimited(parts[1..], mark)
  }

  lemma {:induction false} DelimitedHead(a: string, b: string, rest: seq<Part>, mark: string)
    ensures Delimited([Part(a, false), Part(b, true)] + rest, mark) == a + ((mark + b + mark) + Delimited(rest, mark))
  {
    var parts := [Part(a, false), Part(b, true)] + rest;
    assert parts[1..] == [Part(b, true)] + rest && parts[1..][1..] == rest;
  }

  lemma {:induction false} DelimitedOne(a: string, mark: string)
    ensures Delimited([Part(a, false)], mark) == a
  {
    assert [Part(a, false)][1..] == [];
  }

  /** A line cut at a delimited stretch. */
  lemma {:induction false} CutAt(s: string, last: nat, i: nat, j: nat, mark: string)
    requires last <= i && i + |mark| <= j && j + |mark| <= |s|
    requires s[i..i+|mark|] == mark && s[j..j+|mark|] == mark
    ensures s[last..] == s[last..i] + ((mark + s[i+|mark|..j] + mark) + s[j+|mark|..])
  {
    var n := |mark|;
    assert s[i..] == s[i..i+n] + s[i+n..j] + s[j..j+n] + s[j+n..];
  }

  lemma {:induction false} DelimitedCut(s: string, last: nat, i: nat, j: nat, mark: string, rest: seq<Part>)
    requires last <= i && i + |mark| <= j && j + |mark| <= |s|
    requires s[i..i+|mark|] == mark && s[j..j+|mark|] == mark && Delimited(rest, mark) == s[j+|mark|..]
    ensures Delimited([Part(s[last..i], false), Part(s[i+|mark|..j], true)] + rest, mark) == s[last..]
  {
    hide Delimited;
    DelimitedHead(s[last..i], s[i+|mark|..j], rest, mark);
    CutAt(s, last, i, j, mark);
  }

  lemma {:induction false} StarsText(s: string, i: nat)
    requires Stars(s, i)
    ensures i + 2 <= |s| && s[i..i+2] == "**"
  {}

  lemma {:induction false} CloserText(s: string, j: nat)
    requires CloserAt(s, j)
    ensures j + 2 <= |s| && s[j..j+2] == "**"
  {}

  /** Bold: with "**" around its marked parts the line is back, each character once and in its place. */
  lemma {:induction false} BoldsKeep(s: string, i: nat, last: nat)
    requires last <= i && last <= |s|
    ensures Delimited(Bolds(s, i, last), "**") == s[last..]
    decreases |s| - i
  {
    hide Delimited, BoldEnd, Stars, CloserAt;
    if i >= |s| {
      DelimitedOne(s[last..], "**");
    } else if Stars(s, i) && BoldEnd(s, i).Some? {
      var j := BoldEnd(s, i).value;
      StarsText(s, i);
      CloserText(s, j);
      BoldsKeep(s, j + 2, j + 2);
      DelimitedCut(s, last, i, j, "**", Bolds(s, j + 2, j + 2));
    } else {
      BoldsKeep(s, i + 1, last);
    }
  }

  lemma {:induction false} ScoreText(s: string, i: nat)
    requires i < |s| && ItalicAt(s, i)
    ensures var j := NextScore(s, i + 1); j < |s| && s[i..i+1] == "_" && s[j..j+1] == "_"
  {}

  lemma {:induction false} ItalicsKeep(s: string, i: nat, last: nat)
    requires last <= i && last <= |s|
    ensures Delimited(Italics(s, i, last), "_") == s[last..]
    decreases |s| - i
  {
    hide Delimited, ItalicAt, NextScore;
    if i >= |s| {
      DelimitedOne(s[last..], "_");
    } else if ItalicAt(s, i) {
      var j := NextScore(s, i + 1);
      ScoreText(s, i);
      ItalicsKeep(s, j + 1, j + 1);
      DelimitedCut(s, last, i, j, "_", Italics(s, j + 1, j + 1));
    } else {
      ItalicsKeep(s, i + 1, last);
    }
  }

  function PartsText(parts: seq<Part>): string {
    if parts == [] then "" else parts[0].text + PartsText(parts[1..])
  }

  /** The text of a line: the parts of its parts, without delimiters. */
  function MarkedText(parts: seq<Part>): string {
    if parts == [] then "" else PartsText(Italics(parts[0].text, 0, 0)) + MarkedText(parts[1..])
  }

  function SpansText(spans: seq<Span>): string {
    if spans == [] then "" else spans[0].text + SpansText(spans[1..])
  }

  lemma {:induction false} SpansTextConcat(a: seq<Span>, b: seq<Span>)
    ensures SpansText(a + b) == SpansText(a) + SpansText(b)
  {
    if a == [] {
      assert a + b == b;
    } else {
      SpansTextConcat(a[1..], b);
      assert (a + b)[1..] == a[1..] + b;
      SeqAssoc(a[0].text, SpansText(a[1..]), SpansText(b));
    }
  }

  lemma {:induction false} ItalicSpansText(parts: seq<Part>, strong: bool)
    ensures SpansText(ItalicSpans(parts, strong)) == PartsText(parts)
  {
    if parts != [] {
      ItalicSpansText(parts[1..], strong);
      assert ItalicSpans(parts, strong)[1..] == ItalicSpans(parts[1..], strong);
    }
  }

  lemma {:induction false} BoldSpansText(parts: seq<Part>)
    ensures SpansText(BoldSpans(parts)) == MarkedText(parts)
  {
    hide Italics, ItalicSpans, SpansText;
    if parts == [] {
      NoSpans();
    } else {
      BoldSpansText(parts[1..]);
      ItalicSpansText(Italics(parts[0].text, 0, 0), parts[0].marked);
      SpansTextConcat(ItalicSpans(Italics(parts[0].text, 0, 0), parts[0].marked), BoldSpans(parts[1..]));
    }
  }

  lemma {:induction false} NoSpans()
    ensures SpansText([]) == ""
  {}

  // ---- links ----

  lemma {:induction false} OneRun(s: string, marks: Marks, link: nat)
    ensures LineText([Run(s, marks, link)]) == s
  {
    assert [Run(s, marks, link)][1..] == [];
    assert s + "" == s;
  }

  lemma {:induction false} RestText(s: string, last: nat, strong: bool, em: bool)
    requires last <= |s|
    ensures LineText(PlainRest(s, last, strong, em)) == s[last..]
  {
    if last < |s| { OneRun(s[last..], Marks(strong, em, false, ""), 0); }
  }

  /** What one link adds: the text before it, and its own. */
  function LinkPiece(s: string, strong: bool, em: bool, last: nat, i: nat, end: nat, href: string, link: nat): seq<Chunk>
    requires last <= i <= end <= |s|
  {
    (if i > last then [PlainRun(s[last..i], strong, em)] else []) + [Run(s[i..end], Marks(strong, em, false, href), link)]
  }

  lemma {:induction false} PieceText(s: string, strong: bool, em: bool, last: nat, i: nat, end: nat, href: string, link: nat)
    requires last <= i <= end <= |s|
    ensures LineText(LinkPiece(s, strong, em, last, i, end, href, link)) == s[last..end]
  {
    var c := Run(s[i..end], Marks(strong, em, false, href), link);
    OneRun(s[i..end], Marks(strong, em, false, href), link);
    if i > last {
      OneRun(s[last..i], Marks(strong, em, false, ""), 0);
      LineTextConcat([PlainRun(s[last..i], strong, em)], [c]);
      assert s[last..end] == s[last..i] + s[i..end];
    } else {
      assert [] + [c] == [c];
    }
  }

  /** The three ways the scan goes on. */
  lemma {:induction false} ScanEnds(s: string, strong: bool, em: bool, i: nat, last: nat, st: Links, clean: Clean)
    requires last <= i <= |s| && (i + 8 > |s| || st.budget == 0)
    ensures LinkScan(s, strong, em, i, last, st, clean) == (PlainRest(s, last, strong, em), st)
  {}

  lemma {:induction false} ScanGoesOn(s: string, strong: bool, em: bool, i: nat, last: nat, st: Links, clean: Clean) returns (k: nat)
    requires last <= i && i + 8 <= |s| && st.budget > 0
    requires HttpsAt(s, i) ==> clean(s[i..CutPunct(s, i, RunEnd(s, i + 8))]) == None
    ensures i < k <= |s| && LinkScan(s, strong, em, i, last, st, clean) == LinkScan(s, strong, em, k, last, st, clean)
  {
    k := if HttpsAt(s, i) then RunEnd(s, i + 8) else i + 1;
    if HttpsAt(s, i) { CutKeepsScheme(s, i, k); }
  }

  lemma {:induction false} ScanLinks(s: string, strong: bool, em: bool, i: nat, last: nat, st: Links, clean: Clean) returns (end: nat)
    requires last <= i && i + 8 <= |s| && st.budget > 0 && HttpsAt(s, i)
    requires clean(s[i..CutPunct(s, i, RunEnd(s, i + 8))]).Some?
    ensures i < end <= |s| && end == CutPunct(s, i, RunEnd(s, i + 8))
    ensures var r := LinkScan(s, strong, em, end, end, Links(st.budget - 1, st.last + 1), clean);
            var href := clean(s[i..end]).value;
            LinkScan(s, strong, em, i, last, st, clean) == (LinkPiece(s, strong, em, last, i, end, href, st.last + 1) + r.0, r.1)
  {
    end := CutPunct(s, i, RunEnd(s, i + 8));
    CutKeepsScheme(s, i, RunEnd(s, i + 8));
  }

  /** A position that starts no link is passed; a run that is no link is passed whole. */
  lemma {:induction false} ScanSkips(s: string, strong: bool, em: bool, i: nat, last: nat, st: Links, clean: Clean)
    requires last <= i && i + 8 <= |s| && st.budget > 0
    requires HttpsAt(s, i) ==> clean(s[i..CutPunct(s, i, RunEnd(s, i + 8))]) == None
    ensures LinkScan(s, strong, em, i, last, st, clean)
         == LinkScan(s, strong, em, if HttpsAt(s, i) then RunEnd(s, i + 8) else i + 1, last, st, clean)
  {
    if HttpsAt(s, i) { CutKeepsScheme(s, i, RunEnd(s, i + 8)); }
  }

  lemma {:induction false} RestIs(s: string, last: nat, strong: bool, em: bool)
    requires last <= |s|
    ensures PlainRest(s, last, strong, em) == if last < |s| then [PlainRun(s[last..], strong, em)] else []
  {}

  /** Without text, or without budget, there is nothing to scan. */
  lemma {:induction false} ScanEndsOrNot(s: string, strong: bool, em: bool, st: Links, clean: Clean)
    ensures s == "" ==> LinkScan(s, strong, em, 0, 0, st, clean) == ([], st)
    ensures s != "" && st.budget == 0 ==> LinkScan(s, strong, em, 0, 0, st, clean) == ([PlainRun(s, strong, em)], st)
  {
    assert s[0..] == s;
  }

  predicate LinkFound(s: string, i: nat, clean: Clean)
    requires i <= |s|
  {
    i + 8 <= |s| && HttpsAt(s, i) && clean(s[i..CutPunct(s, i, RunEnd(s, i + 8))]).Some?
  }

  lemma {:induction false} ScanText(s: string, strong: bool, em: bool, i: nat, last: nat, st: Links, clean: Clean)
    requires last <= i <= |s|
    ensures LineText(LinkScan(s, strong, em, i, last, st, clean).0) == s[last..]
    decreases |s| - i
  {
    hide LinkScan, HttpsAt, RunEnd, CutPunct, LinkPiece, LineText, PlainRest;
    if i + 8 > |s| || st.budget == 0 {
      ScanEnds(s, strong, em, i, last, st, clean);
      RestText(s, last, strong, em);
    } else if LinkFound(s, i, clean) {
      var end := ScanLinks(s, strong, em, i, last, st, clean);
      var href, r := clean(s[i..end]).value, LinkScan(s, strong, em, end, end, Links(st.budget - 1, st.last + 1), clean);
      ScanText(s, strong, em, end, end, Links(st.budget - 1, st.last + 1), clean);
      PieceText(s, strong, em, last, i, end, href, st.last + 1);
      LineTextConcat(LinkPiece(s, strong, em, last, i, end, href, st.last + 1), r.0);
      assert s[last..] == s[last..end] + s[end..];
    } else {
      var k := ScanGoesOn(s, strong, em, i, last, st, clean);
      ScanText(s, strong, em, k, last, st, clean);
    }
  }

  lemma {:induction false} SpanChunksText(spans: seq<Span>, st: Links, clean: Clean)
    ensures LineText(SpanChunks(spans, st, clean).0) == SpansText(spans)
  {
    hide LinkScan, LineText;
    if spans == [] {
      NoLineText();
    } else {
      var sp := spans[0];
      var (cs, a) := LinkScan(sp.text, sp.strong, sp.em, 0, 0, st, clean);
      ScanText(sp.text, sp.strong, sp.em, 0, 0, st, clean);
      SpanChunksText(spans[1..], a, clean);
      LineTextConcat(cs, SpanChunks(spans[1..], a, clean).0);
      assert sp.text[0..] == sp.text;
    }
  }

  lemma {:induction false} NoLineText()
    ensures LineText([]) == ""
  {}

  /** Each stretch between matched "**" keeps its text, with matched "_" put back. */
  ghost predicate ItalicsRestored(parts: seq<Part>) {
    forall k :: 0 <= k < |parts| ==> Delimited(Italics(parts[k].text, 0, 0), "_") == parts[k].text
  }

  /**
   * A compiled line: its chunks hold the parts' texts in order, and putting back the matched "**" and "_", and nothing
   * else, gives the line.
   */
  lemma {:induction false} InlineKeepsText(s: string, st: Links, clean: Clean)
    ensures LineText(InlineChunks(s, st, clean).0) == MarkedText(Bolds(s, 0, 0))
    ensures Delimited(Bolds(s, 0, 0), "**") == s && ItalicsRestored(Bolds(s, 0, 0))
  {
    hide Bolds, Italics, BoldSpans, SpanChunks, MarkedText, Delimited;
    SpanChunksText(Spans(s), st, clean);
    var parts := Bolds(s, 0, 0);
    BoldSpansText(parts);
    BoldsKeep(s, 0, 0);
    assert s[0..] == s;
    forall k | 0 <= k < |parts| ensures Delimited(Italics(parts[k].text, 0, 0), "_") == parts[k].text {
      ItalicsKeep(parts[k].text, 0, 0);
      assert parts[k].text[0..] == parts[k].text;
    }
  }

  // ---- the link budget ----

  predicate LinkRun(c: Chunk) { c.Run? && c.marks.href != "" }

  /** The linked runs, numbered from `from` on, each leading where its own text does; no other run is numbered. */
  predicate Numbered(cs: seq<Chunk>, from: nat, to: nat, clean: Clean) {
    if cs == [] then from == to
    else
      var c := cs[|cs|-1];
      if LinkRun(c) then to > from && c.link == to && clean(c.text) == Some(c.marks.href) && Numbered(cs[..|cs|-1], from, to - 1, clean)
      else (c.Run? ==> c.link == 0) && Numbered(cs[..|cs|-1], from, to, clean)
  }

  lemma {:induction false} NumberedConcat(a: seq<Chunk>, b: seq<Chunk>, from: nat, mid: nat, to: nat, clean: Clean)
    requires Numbered(a, from, mid, clean) && Numbered(b, mid, to, clean)
    ensures Numbered(a + b, from, to, clean)
    decreases |b|
  {
    if b == [] {
      assert a + b == a;
    } else {
      var q, c := b[..|b|-1], b[|b|-1];
      assert (a + b)[..|a + b|-1] == a + q;
      NumberedUp(b, mid, to, clean);
      NumberedUp(a, from, mid, clean);
      NumberedConcat(a, q, from, mid, if LinkRun(c) then to - 1 else to, clean);
    }
  }

  lemma {:induction false} NumberedUp(cs: seq<Chunk>, from: nat, to: nat, clean: Clean)
    requires Numbered(cs, from, to, clean)
    ensures from <= to && to == from + LinkedChunks(cs)
    decreases |cs|
  {
    if cs != [] { NumberedUp(cs[..|cs|-1], from, if LinkRun(cs[|cs|-1]) then to - 1 else to, clean); }
  }

  /** A link check that never answers with an empty target. */
  ghost predicate NoEmptyTarget(clean: Clean) {
    forall s :: clean(s) != Some("")
  }

  lemma {:induction false} RestNumbered(s: string, last: nat, strong: bool, em: bool, n: nat, clean: Clean)
    requires last <= |s|
    ensures Numbered(PlainRest(s, last, strong, em), n, n, clean)
  {
    assert Numbered([], n, n, clean);
    if last < |s| { assert PlainRest(s, last, strong, em)[..0] == []; }
  }

  lemma {:induction false} PieceNumbered(s: string, strong: bool, em: bool, last: nat, i: nat, end: nat, href: string, n: nat, clean: Clean)
    requires last <= i <= end <= |s| && href != "" && clean(s[i..end]) == Some(href)
    ensures Numbered(LinkPiece(s, strong, em, last, i, end, href, n + 1), n, n + 1, clean)
  {
    var cs := LinkPiece(s, strong, em, last, i, end, href, n + 1);
    var front := cs[..|cs|-1];
    assert Numbered([], n, n, clean);
    if i > last {
      assert front == [PlainRun(s[last..i], strong, em)] && front[..0] == [];
      assert Numbered(front, n, n, clean);
    } else {
      assert front == [];
    }
  }

  /** One stretch: what its links cost is taken from the budget, and they are numbered on. */
  lemma {:induction false} ScanNumbered(s: string, strong: bool, em: bool, i: nat, last: nat, st: Links, clean: Clean)
    requires last <= i <= |s| && NoEmptyTarget(clean)
    ensures var r := LinkScan(s, strong, em, i, last, st, clean);
            Numbered(r.0, st.last, r.1.last, clean) && r.1.budget + r.1.last == st.budget + st.last
    decreases |s| - i
  {
    hide LinkScan, HttpsAt, RunEnd, CutPunct, LinkPiece, PlainRest, Numbered;
    if i + 8 > |s| || st.budget == 0 {
      ScanEnds(s, strong, em, i, last, st, clean);
      RestNumbered(s, last, strong, em, st.last, clean);
    } else if LinkFound(s, i, clean) {
      var end := ScanLinks(s, strong, em, i, last, st, clean);
      var a := Links(st.budget - 1, st.last + 1);
      var href, r := clean(s[i..end]).value, LinkScan(s, strong, em, end, end, a, clean);
      ScanNumbered(s, strong, em, end, end, a, clean);
      PieceNumbered(s, strong, em, last, i, end, href, st.last, clean);
      NumberedConcat(LinkPiece(s, strong, em, last, i, end, href, st.last + 1), r.0, st.last, a.last, r.1.last, clean);
    } else {
      var k := ScanGoesOn(s, strong, em, i, last, st, clean);
      ScanNumbered(s, strong, em, k, last, st, clean);
    }
  }

  lemma {:induction false} SpansNumbered(spans: seq<Span>, st: Links, clean: Clean)
    requires NoEmptyTarget(clean)
    ensures var r := SpanChunks(spans, st, clean);
            Numbered(r.0, st.last, r.1.last, clean) && r.1.budget + r.1.last == st.budget + st.last
  {
    hide LinkScan, Numbered;
    if spans == [] {
      NoneNumbered(st.last, clean);
    } else {
      var sp := spans[0];
      var (cs, a) := LinkScan(sp.text, sp.strong, sp.em, 0, 0, st, clean);
      var (rest, b) := SpanChunks(spans[1..], a, clean);
      ScanNumbered(sp.text, sp.strong, sp.em, 0, 0, st, clean);
      SpansNumbered(spans[1..], a, clean);
      NumberedConcat(cs, rest, st.last, a.last, b.last, clean);
    }
  }

  lemma {:induction false} NoneNumbered(n: nat, clean: Clean)
    ensures Numbered([], n, n, clean)
  {}

  /** Budget and links made add up to the same before and after a line. */
  lemma {:induction false} InlineBudget(s: string, st: Links, clean: Clean)
    requires NoEmptyTarget(clean)
    ensures var r := InlineChunks(s, st, clean);
            && Numbered(r.0, st.last, r.1.last, clean) && r.1.budget + LinkedChunks(r.0) == st.budget
            && r.1.budget + r.1.last == st.budget + st.last
  {
    hide Numbered, SpanChunks, LinkedChunks;
    SpansNumbered(Spans(s), st, clean);
    var r := InlineChunks(s, st, clean);
    NumberedUp(r.0, st.last, r.1.last, clean);
  }

  // ---- the printed links ----

  lemma {:induction false} FinishedLinks(cs: seq<Chunk>)
    ensures LinkRuns(FinishedOr(cs)) <= LinkedChunks(cs)
  {
    hide LinkRuns, LinkedChunks, Finished;
    FinishAddsNoLink(cs);
    NoRuns();
  }

  lemma {:induction false} ItemsBudget(lines: seq<string>, i: nat, j: nat, st: Links, clean: Clean)
    requires i <= j <= |lines| && NoEmptyTarget(clean)
    ensures var r := ListItems(lines, i, j, st, clean); LinksOfItems(r.0) + r.1.budget <= st.budget
    decreases j - i
  {
    hide InlineChunks, FinishedOr, LinkRuns, Numbered, Classify;
    if i < j {
      var body := Classify(lines[i]).body;
      var (cs, a) := InlineChunks(body, st, clean);
      InlineBudget(body, st, clean);
      FinishedLinks(cs);
      ItemsBudget(lines, i + 1, j, a, clean);
      var (rest, b) := ListItems(lines, i + 1, j, a, clean);
      OneItemLinks(FinishedOr(cs), rest);
    }
  }

  lemma {:induction false} OneItemLinks(inl: seq<Chunk>, rest: seq<Item>)
    ensures LinksOfItems([Item(inl, [])] + rest) == LinkRuns(inl) + LinksOfItems(rest)
  {
    hide LinkRuns;
    assert ([Item(inl, [])] + rest)[1..] == rest;
  }

  lemma {:induction false} ParaLinks(para: seq<Chunk>)
    ensures DocLinks(FlushedPara(para)) <= LinkedChunks(para)
  {
    hide FinishedOr, LinkRuns, LinkedChunks;
    FinishedLinks(para);
    if FinishedOr(para) != [] {
      var b := TextBlock(P, FinishedOr(para));
      assert [b][1..] == [];
      assert DocLinks([b]) == LinksOfBlock(b);
    }
  }

  lemma {:induction false} LinkedConcat(a: seq<Chunk>, b: seq<Chunk>)
    ensures LinkedChunks(a + b) == LinkedChunks(a) + LinkedChunks(b)
  {
    if b == [] {
      assert a + b == a;
    } else {
      LinkedConcat(a, b[..|b|-1]);
      assert (a + b)[..|a + b|-1] == a + b[..|b|-1];
    }
  }

  lemma {:induction false} LineLinks(para: seq<Chunk>, cs: seq<Chunk>)
    ensures LinkedChunks(WithLine(para, cs)) == LinkedChunks(para) + LinkedChunks(cs)
  {
    hide LinkedChunks;
    if para == [] {
      assert WithLine(para, cs) == para + cs;
      LinkedConcat(para, cs);
    } else {
      LinkedConcat(para + [Br], cs);
      LinkedConcat(para, [Br]);
      BreakUnlinked();
    }
  }

  lemma {:induction false} BreakUnlinked()
    ensures LinkedChunks([Br]) == 0 && LinkedChunks([]) == 0
  {
    assert [Br][..0] == [];
  }

  lemma {:induction false} ListLinks(para: seq<Chunk>, l: List, rest: Doc)
    ensures DocLinks(FlushedPara(para) + [ListBlock(l)] + rest) == DocLinks(FlushedPara(para)) + LinksOfItems(l.items) + DocLinks(rest)
  {
    hide FlushedPara, LinksOfItems, DocLinks;
    var p, b := FlushedPara(para), [ListBlock(l)];
    Writer.DocTreeConcat(p + b, rest);
    Writer.DocTreeConcat(p, b);
    OneBlockLinks(ListBlock(l));
  }

  lemma {:induction false} OneBlockLinks(b: Block)
    ensures DocLinks([b]) == LinksOfBlock(b)
  {
    assert [b][1..] == [];
  }

  lemma {:induction false} SegmentsBudget(lines: seq<string>, segs: seq<Segment>, para: seq<Chunk>, st: Links, clean: Clean)
    requires forall k :: 0 <= k < |segs| ==> SegmentIn(segs[k], lines)
    requires NoEmptyTarget(clean)
    ensures var r := SegmentBlocks(lines, segs, para, st, clean); DocLinks(r.0) + r.1.budget <= st.budget + LinkedChunks(para)
    decreases |segs|
  {
    hide InlineChunks, ListItems, FlushedPara, DocLinks, LinkedChunks, WithLine, Numbered, NoEmptyTarget;
    if segs == [] {
      ParaLinks(para);
    } else {
      assert SegmentIn(segs[0], lines);
      match segs[0]
      case TextAt(i) =>
        var (cs, a) := InlineChunks(lines[i], st, clean);
        InlineBudget(lines[i], st, clean);
        LineLinks(para, cs);
        SegmentsBudget(lines, segs[1..], WithLine(para, cs), a, clean);
      case ListAt(i, j, ordered) =>
        var (items, a) := ListItems(lines, i, j, st, clean);
        ItemsBudget(lines, i, j, st, clean);
        SegmentsBudget(lines, segs[1..], [], a, clean);
        ParaLinks(para);
        BreakUnlinked();
        ListLinks(para, List(ordered, items), SegmentBlocks(lines, segs[1..], [], a, clean).0);
    }
  }

  lemma {:induction false} BlockBudget(block: seq<string>, st: Links, clean: Clean)
    requires NoEmptyTarget(clean)
    ensures var r := FlushedBlock(block, st, clean); DocLinks(r.0) + r.1.budget <= st.budget
  {
    hide SegmentBlocks, Segments, LinkedChunks, DocLinks;
    if block == [] {
      NoDocLinks();
    } else {
      SegmentsIn(block, 0);
      SegmentsBudget(block, Segments(block, 0), [], st, clean);
      BreakUnlinked();
    }
  }

  lemma {:induction false} NoDocLinks()
    ensures DocLinks([]) == 0
  {}

  lemma {:induction false} RawBudget(raws: seq<string>, block: seq<string>, st: Links, clean: Clean)
    requires NoEmptyTarget(clean)
    ensures var r := RawDoc(raws, block, st, clean); DocLinks(r.0) + r.1.budget <= st.budget
    decreases |raws|
  {
    hide FlushedBlock, Trim, DocLinks, NoEmptyTarget;
    if raws == [] {
      BlockBudget(block, st, clean);
    } else if Trim(raws[0]) == "" {
      var (d, a) := FlushedBlock(block, st, clean);
      BlockBudget(block, st, clean);
      RawBudget(raws[1..], [], a, clean);
      Writer.DocTreeConcat(d, RawDoc(raws[1..], [], a, clean).0);
    } else {
      RawBudget(raws[1..], block + [Trim(raws[0])], st, clean);
    }
  }

  /** The printed links never exceed the limit; a profile that links nothing has the limit 0. */
  lemma {:induction false} LegacyLinksLimited(text: string, maxLinks: nat, clean: Clean)
    requires NoEmptyTarget(clean)
    ensures var r := LegacyDoc(text, maxLinks, clean); DocLinks(r.0) + r.1.budget <= maxLinks
  {
    hide RawDoc, DocLinks, NoEmptyTarget;
    RawBudget(Lines(Newlines(LegacyChars(text))), [], Links(maxLinks, 0), clean);
  }

  // ---- lines and lists ----

  function SegmentLines(g: Segment): seq<nat> {
    match g
    case TextAt(i) => [i]
    case ListAt(i, j, _) => if i < j then seq(j - i, k requires 0 <= k < j - i => i + k) else []
  }

  function AllLines(segs: seq<Segment>): seq<nat> {
    if segs == [] then [] else SegmentLines(segs[0]) + AllLines(segs[1..])
  }

  function From(i: nat, n: nat): seq<nat>
    requires i <= n
  {
    seq(n - i, k requires 0 <= k < n - i => i + k)
  }

  /** Every line is in exactly one segment, in order. */
  lemma {:induction false} EachLineOnce(lines: seq<string>, i: nat)
    requires i <= |lines|
    ensures AllLines(Segments(lines, i)) == From(i, |lines|)
    decreases |lines| - i
  {
    hide StartsList, ListEnd;
    if i < |lines| {
      var j := if StartsList(lines, i) then ListEnd(lines, i, i + 1) else i + 1;
      EachLineOnce(lines, j);
      var segs := Segments(lines, i);
      assert segs[1..] == Segments(lines, j);
      assert SegmentLines(segs[0]) == From(i, j);
      hide SegmentLines, Segments, From;
      FromSplit(i, j, |lines|);
    }
  }

  lemma {:induction false} FromSplit(i: nat, j: nat, n: nat)
    requires i <= j <= n
    ensures From(i, n) == From(i, j) + From(j, n)
  {}

  /** Line `j` stands where the list from `i` has its `j - i + 1`-th item. */
  predicate ItemAt(lines: seq<string>, i: nat, j: nat, ordered: bool)
    requires i <= j < |lines|
  {
    var c := Classify(lines[j]);
    if ordered then c.kind == Number && c.num == 1 + (j - i) else c.kind == Bullet
  }

  lemma {:induction false} ListEndMeans(lines: seq<string>, i: nat, j: nat, k: nat)
    requires i < j <= |lines|
    ensures j <= k < ListEnd(lines, i, j) ==> ListGoesOn(lines, i, k)
    ensures ListEnd(lines, i, j) < |lines| ==> !ListGoesOn(lines, i, ListEnd(lines, i, j))
    decreases |lines| - j
  {
    hide ListGoesOn;
    if j < |lines| && ListGoesOn(lines, i, j) { ListEndMeans(lines, i, j + 1, k); }
  }

  /** A segment that is a list: two or more lines, all bullets or numbered 1, 2, 3 ..., and the next line does not go on. */
  predicate ListSegment(lines: seq<string>, g: Segment)
    requires SegmentIn(g, lines) && g.ListAt?
  {
    && g.j - g.i >= 2 && (forall k :: g.i <= k < g.j ==> ItemAt(lines, g.i, k, g.ordered))
    && (g.j < |lines| ==> !ItemAt(lines, g.i, g.j, g.ordered))
  }

  predicate SegmentOk(lines: seq<string>, g: Segment) {
    && SegmentIn(g, lines)
    && match g
       case TextAt(i) => !StartsList(lines, i)
       case ListAt(_, _, _) => ListSegment(lines, g)
  }

  lemma {:induction false} ListOk(lines: seq<string>, i: nat)
    requires i < |lines| && StartsList(lines, i)
    ensures var g := ListAt(i, ListEnd(lines, i, i + 1), Classify(lines[i]).kind == Number);
            SegmentIn(g, lines) && ListSegment(lines, g)
  {
    hide Classify;
    var j := ListEnd(lines, i, i + 1);
    var ordered := Classify(lines[i]).kind == Number;
    forall k | i <= k < j ensures ItemAt(lines, i, k, ordered) {
      if k > i { ListEndMeans(lines, i, i + 1, k); }
    }
    ListEndMeans(lines, i, i + 1, i + 1);
  }

  /** Lists arise from exactly the longest runs that count as lists; every other line is text. */
  lemma {:induction false} SegmentsAreRuns(lines: seq<string>, i: nat)
    requires i <= |lines|
    ensures forall k :: 0 <= k < |Segments(lines, i)| ==> SegmentOk(lines, Segments(lines, i)[k])
    decreases |lines| - i
  {
    hide StartsList, ListEnd, ListSegment, Classify;
    if i < |lines| {
      var j := if StartsList(lines, i) then ListEnd(lines, i, i + 1) else i + 1;
      SegmentsAreRuns(lines, j);
      if StartsList(lines, i) { ListOk(lines, i); }
      var segs := Segments(lines, i);
      assert segs[1..] == Segments(lines, j);
      forall k | 0 <= k < |segs| ensures SegmentOk(lines, segs[k]) {
        if k > 0 { assert segs[k] == segs[1..][k-1]; }
      }
    }
  }
}
