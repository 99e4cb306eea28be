// The loops of the old-notation compiler (`Converter` and `fromLegacy`, apps/rich-editor/src/legacy.ts:89-266): the link
// budget is a field, and the search for closing "**" shares one position along a line. They compute LegacyModel.dfy.

module Legacy {
  import opened Base
  import opened Chars
  import opened RichModel
  import opened Markup
  import opened Printer
  import opened LegacyModel
  import LR = LegacyRules
  import Finish
  import Writer

  // ---- the closers of a line ----

  /** `out` lists, in order, the closers of `s` before `n`. */
  ghost predicate ClosersBefore(s: string, out: seq<nat>, n: nat) {
    && (forall k :: 0 <= k < |out| ==> out[k] < n && CloserAt(s, out[k]))
    && (forall j :: 0 <= j < n && CloserAt(s, j) ==> j in out)
    && forall a, b :: 0 <= a < b < |out| ==> out[a] < out[b]
  }

  method BoldClosers(s: string) returns (out: seq<nat>)
    ensures ClosersBefore(s, out, |s|)
  {
    out := [];
    var j := 1;
    while j + 1 < |s|
      invariant 1 <= j && (|s| > 0 ==> j <= |s|) && ClosersBefore(s, out, j)
      decreases |s| - j
    {
      if s[j] == '*' && s[j+1] == '*' && !IsUnicodeSpace(s[j-1]) { out := out + [j]; }
      j := j + 1;
    }
  }

  /** `next`: the search position all openers of a line share. */
  class SharedPosition {
    var i: nat

    constructor ()
      ensures i == 0
    {
      i := 0;
    }
  }

  /** Nothing the position has passed can close an opener at `i` or later. */
  ghost predicate Passed(closers: seq<nat>, n: nat, i: nat) {
    n <= |closers| && forall k :: 0 <= k < n ==> closers[k] < i + 3
  }

  lemma {:induction false} PassedLater(closers: seq<nat>, n: nat, i: nat, j: nat)
    requires Passed(closers, n, i) && i <= j
    ensures Passed(closers, n, j)
  {}

  /** The closer at the position is the one a fresh search would find. */
  lemma {:induction false} PositionFinds(s: string, closers: seq<nat>, n: nat, i: nat)
    requires ClosersBefore(s, closers, |s|) && Passed(closers, n, i) && (n < |closers| ==> closers[n] >= i + 3)
    ensures LeastCloser(s, i + 3) == if n < |closers| then Some(closers[n]) else None
  {
    hide CloserAt, LeastCloser;
    if n < |closers| { LR.LeastIs(s, i + 3, closers[n]); }
    var r := LeastCloser(s, i + 3);
    if r.Some? {
      CloserInside(s, r.value);
      var k :| 0 <= k < |closers| && closers[k] == r.value;
      assert k >= n;
    }
  }

  lemma {:induction false} CloserInside(s: string, j: nat)
    requires CloserAt(s, j)
    ensures j < |s|
  {}

  /** The closer of the "**" at `i`. The position only moves on, and what it passes is never needed again. */
  method FindEnd(s: string, i: nat, closers: seq<nat>, next: SharedPosition) returns (r: Option<nat>)
    requires ClosersBefore(s, closers, |s|) && Passed(closers, next.i, i)
    modifies next
    ensures r == BoldEnd(s, i) && next.i >= old(next.i) && Passed(closers, next.i, i)
  {
    hide ClosersBefore, LeastCloser;
    var c := i + 2;
    if c >= |s| { return None; }
    if IsUnicodeSpace(s[c]) { return None; }
    while next.i < |closers| && closers[next.i] < c + 1
      invariant next.i >= old(next.i) && Passed(closers, next.i, i)
      decreases |closers| - next.i
    {
      next.i := next.i + 1;
    }
    PositionFinds(s, closers, next.i, i);
    r := if next.i < |closers| then Some(closers[next.i]) else None;
  }

  // ---- the spans done so far ----

  lemma {:induction false} SpansConcat(a: seq<Span>, b: seq<Span>, st: Links, clean: Clean)
    ensures var x := SpanChunks(a, st, clean); var y := SpanChunks(b, x.1, clean);
            SpanChunks(a + b, st, clean) == (x.0 + y.0, y.1)
  {
    hide LinkScan;
    if a == [] {
      assert a + b == b && [] + SpanChunks(b, st, clean).0 == SpanChunks(b, st, clean).0;
    } else {
      var (cs, st1) := LinkScan(a[0].text, a[0].strong, a[0].em, 0, 0, st, clean);
      SpansConcat(a[1..], b, st1, clean);
      assert (a + b)[1..] == a[1..] + b;
      var x := SpanChunks(a[1..], st1, clean);
      SeqAssoc(cs, x.0, SpanChunks(b, x.1, clean).0);
    }
  }

  lemma {:induction false} OneSpan(sp: Span, st: Links, clean: Clean)
    ensures SpanChunks([sp], st, clean) == LinkScan(sp.text, sp.strong, sp.em, 0, 0, st, clean)
  {
    hide LinkScan;
    assert [sp][1..] == [];
    var r := LinkScan(sp.text, sp.strong, sp.em, 0, 0, st, clean);
    assert r.0 + [] == r.0;
  }

  lemma {:induction false} ItalicConcat(a: seq<Part>, b: seq<Part>, strong: bool)
    ensures ItalicSpans(a + b, strong) == ItalicSpans(a, strong) + ItalicSpans(b, strong)
  {}

  lemma {:induction false} BoldConcat(a: seq<Part>, b: seq<Part>)
    ensures BoldSpans(a + b) == BoldSpans(a) + BoldSpans(b)
  {
    hide Italics, ItalicSpans;
    if a == [] {
      assert a + b == b;
    } else {
      BoldConcat(a[1..], b);
      assert (a + b)[1..] == a[1..] + b;
      SeqAssoc(ItalicSpans(Italics(a[0].text, 0, 0), a[0].marked), BoldSpans(a[1..]), BoldSpans(b));
    }
  }

  /** The chunks of the italic parts of one stretch. */
  function ItalicChunks(parts: seq<Part>, strong: bool, st: Links, clean: Clean): (seq<Chunk>, Links) {
    SpanChunks(ItalicSpans(parts, strong), st, clean)
  }

  function BoldChunks(parts: seq<Part>, st: Links, clean: Clean): (seq<Chunk>, Links) {
    SpanChunks(BoldSpans(parts), st, clean)
  }

  lemma {:induction false} NoParts(strong: bool, st: Links, clean: Clean)
    ensures ItalicChunks([], strong, st, clean) == ([], st) && BoldChunks([], st, clean) == ([], st)
  {}

  lemma {:induction false} ItalicNext(parts: seq<Part>, p: Part, strong: bool, st: Links, clean: Clean)
    ensures var x := ItalicChunks(parts, strong, st, clean); var y := LinkScan(p.text, strong, p.marked, 0, 0, x.1, clean);
            ItalicChunks(parts + [p], strong, st, clean) == (x.0 + y.0, y.1)
  {
    hide LinkScan, SpanChunks;
    ItalicConcat(parts, [p], strong);
    assert ItalicSpans([p], strong) == [Span(p.text, strong, p.marked)];
    SpansConcat(ItalicSpans(parts, strong), ItalicSpans([p], strong), st, clean);
    OneSpan(Span(p.text, strong, p.marked), ItalicChunks(parts, strong, st, clean).1, clean);
  }

  lemma {:induction false} BoldNext(parts: seq<Part>, p: Part, st: Links, clean: Clean)
    ensures var x := BoldChunks(parts, st, clean); var y := ItalicChunks(Italics(p.text, 0, 0), p.marked, x.1, clean);
            BoldChunks(parts + [p], st, clean) == (x.0 + y.0, y.1)
  {
    hide SpanChunks, Italics, ItalicSpans;
    BoldConcat(parts, [p]);
    OnePart(p);
    SpansConcat(BoldSpans(parts), BoldSpans([p]), st, clean);
  }

  lemma {:induction false} OnePart(p: Part)
    ensures BoldSpans([p]) == ItalicSpans(Italics(p.text, 0, 0), p.marked)
  {
    hide Italics;
    assert [p][1..] == [];
    var r := ItalicSpans(Italics(p.text, 0, 0), p.marked);
    assert r + [] == r;
  }

  lemma {:induction false} TwoParts(done: seq<Part>, a: Part, b: Part, rest: seq<Part>)
    ensures done + ([a, b] + rest) == (done + [a] + [b]) + rest
  {}

  class Converter {
    const clean: Clean
    var budget: nat
    var nextLink: nat

    constructor (maxLinks: nat, clean: Clean)
      ensures this.clean == clean && Now() == Links(maxLinks, 0)
    {
      this.clean := clean;
      budget, nextLink := maxLinks, 0;
    }

    ghost function Now(): Links
      reads this
    { Links(budget, nextLink) }

    /** `links`: a stretch of text, split at its links. */
    method SplitLinks(s: string, strong: bool, em: bool) returns (out: seq<Chunk>)
      modifies this
      ensures (out, Now()) == LinkScan(s, strong, em, 0, 0, old(Now()), clean)
    {
      hide HttpsAt, CutPunct, RunEnd, LinkScan, PlainRest;
      ghost var st0 := Now();
      LR.ScanEndsOrNot(s, strong, em, st0, clean);
      if s == "" { return []; }
      if budget == 0 { return [PlainRun(s, strong, em)]; }
      out := [];
      var i, last := 0, 0;
      ghost var all := LinkScan(s, strong, em, 0, 0, st0, clean);
      while i + 8 <= |s| && budget > 0
        invariant last <= i <= |s|
        invariant out + LinkScan(s, strong, em, i, last, Now(), clean).0 == all.0
        invariant LinkScan(s, strong, em, i, last, Now(), clean).1 == all.1
        decreases |s| - i
      {
        if !HttpsAt(s, i) {
          ghost var k := LR.ScanGoesOn(s, strong, em, i, last, Now(), clean);
          LR.ScanSkips(s, strong, em, i, last, Now(), clean);
          i := i + 1;
        } else {
          var stop := RunEnd(s, i + 8);
          var end := CutPunct(s, i, stop);
          CutKeepsScheme(s, i, stop);
          var href := clean(s[i..end]);
          if href == None {
            LR.ScanSkips(s, strong, em, i, last, Now(), clean);
            i := stop;
          } else {
            ghost var e := LR.ScanLinks(s, strong, em, i, last, Now(), clean);
            ghost var was := out;
            ghost var piece := LR.LinkPiece(s, strong, em, last, i, end, href.value, nextLink + 1);
            if i > last { out := out + [PlainRun(s[last..i], strong, em)]; }
            nextLink := nextLink + 1;
            budget := budget - 1;
            out := out + [Run(s[i..end], Marks(strong, em, false, href.value), nextLink)];
            PieceAdded(was, s, strong, em, last, i, end, href.value, nextLink, out);
            SeqAssoc(was, piece, LinkScan(s, strong, em, end, end, Now(), clean).0);
            i := end;
            last := end;
          }
        }
      }
      LR.ScanEnds(s, strong, em, i, last, Now(), clean);
      assert out + [] == out;
      if last < |s| { out := out + [PlainRun(s[last..], strong, em)]; }
      LR.RestIs(s, last, strong, em);
    }

    /** `italics`: the parts between "_" at word borders. */
    method SplitItalics(s: string, strong: bool) returns (out: seq<Chunk>)
      modifies this
      ensures (out, Now()) == ItalicChunks(Italics(s, 0, 0), strong, old(Now()), clean)
    {
      hide ItalicAt, LinkScan, ItalicChunks, NextScore;
      ghost var st0, done := Now(), [];
      out := [];
      var i, last := 0, 0;
      NoParts(strong, st0, clean);
      assert [] + Italics(s, 0, 0) == Italics(s, 0, 0);
      while i < |s|
        invariant last <= i && last <= |s|
        invariant Italics(s, 0, 0) == done + Italics(s, i, last)
        invariant (out, Now()) == ItalicChunks(done, strong, st0, clean)
        decreases |s| - i
      {
        if ItalicAt(s, i) {
          var j := NextScore(s, i + 1);
          LR.ScoreText(s, i);
          ghost var a, b := Part(s[last..i], false), Part(s[i+1..j], true);
          ItalicNext(done, a, strong, st0, clean);
          ItalicNext(done + [a], b, strong, st0, clean);
          TwoParts(done, a, b, Italics(s, j + 1, j + 1));
          var x := SplitLinks(s[last..i], strong, false);
          out := out + x;
          x := SplitLinks(s[i+1..j], strong, true);
          out := out + x;
          done := done + [a] + [b];
          i := j + 1;
          last := j + 1;
        } else {
          i := i + 1;
        }
      }
      ItalicNext(done, Part(s[last..], false), strong, st0, clean);
      var x := SplitLinks(s[last..], strong, false);
      out := out + x;
    }

    /** The text before a bold part, and the part. */
    method BoldPart(s: string, last: nat, i: nat, j: nat, was: seq<Chunk>, ghost done: seq<Part>, ghost st0: Links) returns (out: seq<Chunk>)
      requires last <= i && i + 2 <= j <= |s| && (was, Now()) == BoldChunks(done, st0, clean)
      modifies this
      ensures (out, Now()) == BoldChunks(done + [Part(s[last..i], false)] + [Part(s[i+2..j], true)], st0, clean)
    {
      hide BoldChunks, ItalicChunks, Italics;
      ghost var a, b := Part(s[last..i], false), Part(s[i+2..j], true);
      BoldNext(done, a, st0, clean);
      BoldNext(done + [a], b, st0, clean);
      var x := SplitItalics(s[last..i], false);
      out := was + x;
      x := SplitItalics(s[i+2..j], true);
      out := out + x;
    }

    /** At position `i`: the bold part that opens there, if one does and closes. */
    method BoldAt(s: string, last0: nat, i0: nat, out0: seq<Chunk>, closers: seq<nat>, next: SharedPosition, ghost done0: seq<Part>, ghost st0: Links)
      returns (i: nat, last: nat, out: seq<Chunk>, ghost done: seq<Part>)
      requires last0 <= i0 < |s| && last0 <= |s| && (out0, Now()) == BoldChunks(done0, st0, clean)
      requires ClosersBefore(s, closers, |s|) && Passed(closers, next.i, i0)
      modifies this, next
      ensures i0 < i && last <= i && last <= |s|
      ensures done + Bolds(s, i, last) == done0 + Bolds(s, i0, last0)
      ensures (out, Now()) == BoldChunks(done, st0, clean) && Passed(closers, next.i, i)
    {
      hide BoldEnd, BoldChunks, ItalicChunks, Italics, ClosersBefore, Passed, Bolds, Stars, CloserAt;
      i, last, out, done := i0, last0, out0, done0;
      BoldsStep(s, i, last);
      if Stars(s, i) {
        var end := FindEnd(s, i, closers, next);
        if end != None {
          var j := end.value;
          LR.CloserText(s, j);
          TwoParts(done, Part(s[last..i], false), Part(s[i+2..j], true), Bolds(s, j + 2, j + 2));
          out := BoldPart(s, last, i, j, out, done, st0);
          done := done + [Part(s[last..i], false)] + [Part(s[i+2..j], true)];
          i := j + 1;
          last := j + 2;
        }
      }
      i := i + 1;
      PassedLater(closers, next.i, i0, i);
    }

    /** `inline`: the parts between "**", with the shared position. */
    method Inline(s: string) returns (out: seq<Chunk>)
      modifies this
      ensures (out, Now()) == InlineChunks(s, old(Now()), clean)
    {
      hide BoldEnd, BoldChunks, ItalicChunks, Italics, ClosersBefore, Passed, Bolds;
      ghost var st0, done := Now(), [];
      out := [];
      var i: nat, last: nat := 0, 0;
      var closers := [];
      if HasStars(s) { closers := BoldClosers(s); } else { NoClosers(s); }
      var next := new SharedPosition();
      NothingPassed(closers);
      NoParts(false, st0, clean);
      assert [] + Bolds(s, 0, 0) == Bolds(s, 0, 0);
      while i < |s|
        invariant last <= i && last <= |s|
        invariant Bolds(s, 0, 0) == done + Bolds(s, i, last)
        invariant (out, Now()) == BoldChunks(done, st0, clean)
        invariant ClosersBefore(s, closers, |s|) && Passed(closers, next.i, i) && fresh(next)
        decreases |s| - i
      {
        i, last, out, done := BoldAt(s, last, i, out, closers, next, done, st0);
      }
      LastPart(s, i, last);
      BoldNext(done, Part(s[last..], false), st0, clean);
      var x := SplitItalics(s[last..], false);
      out := out + x;
      WholeLine(s, st0, clean);
    }

    /** `block`: one block of lines, its paragraphs and lists appended to the document. */
    method Block(lines: seq<string>, doc: Doc) returns (d: Doc)
      modifies this
      ensures var r := BlockDoc(lines, old(Now()), clean); d == doc + r.0 && Now() == r.1
    {
      hide Classify, ListEnd, InlineChunks, FlushedPara, ListStart, ListItems, SegmentBlocks;
      SegmentsIn(lines, 0);
      ghost var all := BlockDoc(lines, Now(), clean);
      d := doc;
      var para: seq<Chunk> := [];
      var i := 0;
      while i < |lines|
        invariant 0 <= i <= |lines| && InLines(lines, i)
        invariant var r := SegmentBlocks(lines, Segments(lines, i), para, Now(), clean); d + r.0 == doc + all.0 && r.1 == all.1
      {
        SegmentsIn(lines, i);
        var isList := ListStart(lines, i);
        var j := i + 1;
        if isList { j := ListEnd(lines, i, i + 1); }
        if isList && j - i >= 2 {
          SegmentsIn(lines, j);
          ListNext(lines, i, j, para, Now(), clean, d);
          d := FlushPara(para, d);
          para := [];
          var ordered := Classify(lines[i]).kind == Number;
          var items := Items(lines, i, j);
          d := d + [ListBlock(List(ordered, items))];
          i := j;
        } else {
          SegmentsIn(lines, i + 1);
          TextNext(lines, i, para, Now(), clean);
          var cs := Inline(lines[i]);
          if |para| > 0 { para := para + [Br]; }
          para := para + cs;
          i := i + 1;
        }
      }
      LastPara(lines, para, Now(), clean);
      d := FlushPara(para, d);
    }

    method Items(lines: seq<string>, i: nat, j: nat) returns (items: seq<Item>)
      requires i <= j <= |lines|
      modifies this
      ensures (items, Now()) == ListItems(lines, i, j, old(Now()), clean)
    {
      hide Classify, InlineChunks, FinishedOr;
      items := [];
      ghost var all := ListItems(lines, i, j, Now(), clean);
      assert [] + all.0 == all.0;
      for x := i to j
        invariant items + ListItems(lines, x, j, Now(), clean).0 == all.0 && ListItems(lines, x, j, Now(), clean).1 == all.1
      {
        ghost var st := Now();
        var cs := Inline(Classify(lines[x]).body);
        var fin := Finish.Finish(cs);
        var inl := match fin { case None => [] case Some(f) => f };
        FinishedOrIs(cs, inl);
        SeqAssoc(items, [Item(inl, [])], ListItems(lines, x + 1, j, Now(), clean).0);
        items := items + [Item(inl, [])];
      }
      assert items + [] == items;
    }
  }

  lemma {:induction false} FinishedOrIs(cs: seq<Chunk>, inl: seq<Chunk>)
    requires inl == match Finish.Finished(cs) case None => [] case Some(f) => f
    ensures inl == FinishedOr(cs)
  {}

  /** `flushPara`. */
  method FlushPara(para: seq<Chunk>, doc: Doc) returns (d: Doc)
    ensures d == doc + FlushedPara(para)
  {
    var fin := Finish.Finish(para);
    FinishedOrIs(para, match fin case None => [] case Some(f) => f);
    hide FinishedOr;
    d := doc;
    if fin != None && |fin.value| > 0 { d := d + [TextBlock(P, fin.value)]; }
  }

  predicate HasStars(s: string) { exists i :: 0 <= i < |s| && Stars(s, i) }

  lemma {:induction false} NoClosers(s: string)
    requires !HasStars(s)
    ensures ClosersBefore(s, [], |s|)
  {}

  lemma {:induction false} NothingPassed(closers: seq<nat>)
    ensures Passed(closers, 0, 0)
  {}

  lemma {:induction false} BoldsStep(s: string, i: nat, last: nat)
    requires last <= i < |s|
    ensures Bolds(s, i, last) ==
      if Stars(s, i) && BoldEnd(s, i).Some? then
        [Part(s[last..i], false), Part(s[i+2..BoldEnd(s, i).value], true)] + Bolds(s, BoldEnd(s, i).value + 2, BoldEnd(s, i).value + 2)
      else Bolds(s, i + 1, last)
  {
    hide BoldEnd;
  }

  lemma {:induction false} LastPart(s: string, i: nat, last: nat)
    requires last <= i && last <= |s| <= i
    ensures Bolds(s, i, last) == [Part(s[last..], false)]
  {}

  lemma {:induction false} WholeLine(s: string, st: Links, clean: Clean)
    ensures BoldChunks(Bolds(s, 0, 0), st, clean) == InlineChunks(s, st, clean)
  {}

  lemma {:induction false} PieceAdded(was: seq<Chunk>, s: string, strong: bool, em: bool, last: nat, i: nat, end: nat, href: string, link: nat, out: seq<Chunk>)
    requires last <= i <= end <= |s|
    requires out == (if i > last then was + [PlainRun(s[last..i], strong, em)] else was) + [Run(s[i..end], Marks(strong, em, false, href), link)]
    ensures out == was + LR.LinkPiece(s, strong, em, last, i, end, href, link)
  {}

  ghost predicate InLines(lines: seq<string>, i: nat)
    requires i <= |lines|
  {
    forall k :: 0 <= k < |Segments(lines, i)| ==> SegmentIn(Segments(lines, i)[k], lines)
  }

  lemma {:induction false} TextNext(lines: seq<string>, i: nat, para: seq<Chunk>, st: Links, clean: Clean)
    requires i < |lines| && !StartsList(lines, i) && InLines(lines, i) && InLines(lines, i + 1)
    ensures SegmentBlocks(lines, Segments(lines, i), para, st, clean)
         == SegmentBlocks(lines, Segments(lines, i + 1), WithLine(para, InlineChunks(lines[i], st, clean).0),
                          InlineChunks(lines[i], st, clean).1, clean)
  {
    hide StartsList, InlineChunks, WithLine;
    assert Segments(lines, i)[1..] == Segments(lines, i + 1);
  }

  lemma {:induction false} ListNext(lines: seq<string>, i: nat, j: nat, para: seq<Chunk>, st: Links, clean: Clean, d: Doc)
    requires i < |lines| && StartsList(lines, i) && j == ListEnd(lines, i, i + 1) && InLines(lines, i) && InLines(lines, j)
    ensures var c := ListItems(lines, i, j, st, clean); var r := SegmentBlocks(lines, Segments(lines, j), [], c.1, clean);
            var b := ListBlock(List(Classify(lines[i]).kind == Number, c.0)); var all := SegmentBlocks(lines, Segments(lines, i), para, st, clean);
            d + all.0 == ((d + FlushedPara(para)) + [b]) + r.0 && all.1 == r.1
  {
    hide StartsList, ListItems, FlushedPara, ListEnd, Classify;
    assert Segments(lines, i)[1..] == Segments(lines, j);
  }

  lemma {:induction false} LastPara(lines: seq<string>, para: seq<Chunk>, st: Links, clean: Clean)
    ensures SegmentBlocks(lines, Segments(lines, |lines|), para, st, clean) == (FlushedPara(para), st)
  {}

  /** `legacyChars`. */
  method CleanChars(input: string) returns (out: string)
    ensures out == LegacyChars(input)
  {
    hide CharPolicy;
    out := "";
    assert input[0..] == input && "" + LegacyChars(input) == LegacyChars(input);
    for k := 0 to |input|
      invariant out + LegacyChars(input[k..]) == LegacyChars(input)
    {
      assert input[k..][1..] == input[k+1..];
      ghost var was := out;
      ghost var piece := match CharPolicy(input[k]) case Strip => "" case LineSep => "\n" case ParaSep => "\n\n" case _ => [input[k]];
      match CharPolicy(input[k]) {
        case Strip =>
        case LineSep => out := out + "\n";
        case ParaSep => out := out + "\n\n";
        case _ => out := out + [input[k]];
      }
      assert out == was + piece;
      SeqAssoc(was, piece, LegacyChars(input[k+1..]));
    }
    assert input[|input|..] == "" && out + "" == out;
  }

  /** `fromLegacy`: the compiled document, printed. */
  method FromLegacy(text: string, maxLinks: nat, clean: Clean) returns (html: string, links: nat)
    ensures html == PrintAll(DocTree(LegacyDoc(text, maxLinks, clean).0)) && links == DocLinks(LegacyDoc(text, maxLinks, clean).0)
  {
    hide PrintAll, DocTree, DocLinks, BlockDoc, Lines, Newlines, Trim, LegacyChars;
    var chars := CleanChars(text);
    var raws := Lines(Newlines(chars));
    var conv := new Converter(maxLinks, clean);
    var d: Doc, block: seq<string> := [], [];
    ghost var all := LegacyDoc(text, maxLinks, clean);
    assert raws[0..] == raws;
    for k := 0 to |raws|
      invariant fresh(conv) && conv.clean == clean
      invariant var r := RawDoc(raws[k..], block, conv.Now(), clean); d + r.0 == all.0 && r.1 == all.1
    {
      assert raws[k..][0] == raws[k] && raws[k..][1..] == raws[k+1..];
      var line := Trim(raws[k]);
      if line == "" {
        ghost var b := FlushedBlock(block, conv.Now(), clean);
        SeqAssoc(d, b.0, RawDoc(raws[k+1..], [], b.1, clean).0);
        if |block| > 0 {
          d := conv.Block(block, d);
          block := [];
        }
      } else {
        block := block + [line];
      }
    }
    assert raws[|raws|..] == [] && d + [] == d;
    if |block| > 0 { d := conv.Block(block, d); }
    html, links := Writer.DocHtml(d);
  }
}
