// Normalising a line makes no link out of one more chunk (apps/rich-editor/src/model.ts:71-136, 163-193): the links that
// will be printed are at most the linked chunks that came in.

module FinishLinks {
  import opened Base
  import opened Chars
  import opened RichModel
  import opened Finish
  import opened Printer

  /** A link begins with cell `c` after the line `e`. */
  predicate Begins(e: seq<Cell>, c: Cell) {
    c.Glyph? && c.marks.href != "" && !EndsIn(e, c.marks.href)
  }

  predicate EndsIn(e: seq<Cell>, href: string) {
    e != [] && e[|e|-1].Glyph? && e[|e|-1].marks.href == href
  }

  function Starts(e: seq<Cell>): nat {
    if e == [] then 0 else Starts(e[..|e|-1]) + (if Begins(e[..|e|-1], e[|e|-1]) then 1 else 0)
  }

  function LinkedChunks(cs: seq<Chunk>): nat {
    if cs == [] then 0
    else LinkedChunks(cs[..|cs|-1]) + (if cs[|cs|-1].Run? && cs[|cs|-1].marks.href != "" then 1 else 0)
  }

  lemma {:induction false} StartsSnoc(e: seq<Cell>, c: Cell)
    ensures Starts(e + [c]) == Starts(e) + (if Begins(e, c) then 1 else 0)
  {
    assert (e + [c])[..|e|] == e;
  }

  lemma {:induction false} EndsSnoc(e: seq<Cell>, c: Cell, href: string)
    ensures EndsIn(e + [c], href) <==> c.Glyph? && c.marks.href == href
  {}

  lemma {:induction false} StartsFront(e: seq<Cell>, n: nat)
    requires n <= |e|
    ensures Starts(e[..n]) <= Starts(e)
    decreases |e|
  {
    hide Begins;
    if n < |e| {
      StartsFront(e[..|e|-1], n);
      assert e[..|e|-1][..n] == e[..n];
    } else {
      assert e[..n] == e;
    }
  }

  // ---- a chunk begins at most one link ----

  lemma {:induction false} GlyphsStart(e: seq<Cell>, t: string, m: Marks, link: nat)
    ensures Starts(e + Glyphs(t, m, link)) <= Starts(e) + (if m.href != "" && !EndsIn(e, m.href) then 1 else 0)
    ensures t != "" ==> EndsIn(e + Glyphs(t, m, link), m.href)
  {
    hide Starts, Glyphs;
    if t == "" {
      NoGlyphs(m, link);
      assert e + [] == e;
    } else {
      var s, ch := t[..|t|-1], t[|t|-1];
      assert t == s + [ch];
      GlyphsStart(e, s, m, link);
      GlyphsSnoc(s, ch, m, link);
      var g := Glyph(ch, m, link);
      SeqAssoc(e, Glyphs(s, m, link), [g]);
      StartsSnoc(e + Glyphs(s, m, link), g);
      EndsSnoc(e + Glyphs(s, m, link), g, m.href);
      if s == "" {
        NoGlyphs(m, link);
        assert e + [] == e;
      }
    }
  }

  lemma {:induction false} NoGlyphs(m: Marks, link: nat)
    ensures Glyphs("", m, link) == []
  {}

  lemma {:induction false} ChunksStart(cs: seq<Chunk>)
    ensures Starts(Cells(cs)) <= LinkedChunks(cs)
  {
    hide Starts, Begins, Glyphs, EndsIn;
    if cs == [] {
      NoStart();
    } else {
      var q, c := cs[..|cs|-1], cs[|cs|-1];
      ChunksStart(q);
      match c
      case Br => BreakStart(Cells(q));
      case Run(t, m, link) => GlyphsStart(Cells(q), t, m, link);
    }
  }

  lemma {:induction false} NoStart()
    ensures Starts([]) == 0
  {}

  lemma {:induction false} BreakStart(e: seq<Cell>)
    ensures Starts(e + [Break]) == Starts(e)
  {
    StartsSnoc(e, Break);
  }

  lemma {:induction false} UnlinkedChunks(cs: seq<Chunk>, inked: set<nat>)
    ensures LinkedChunks(Unlinked(cs, inked)) <= LinkedChunks(cs)
  {
    if cs != [] {
      var q := cs[..|cs|-1];
      UnlinkedChunks(q, inked);
      assert Unlinked(cs, inked)[..|cs|-1] == Unlinked(q, inked);
    }
  }

  // ---- the scan ----

  /** The scan has begun no more links than its input; fewer, when it lacks the text of a link the input is in. */
  ghost predicate Behind(e: seq<Cell>, line: seq<Cell>) {
    && Starts(e) <= Starts(line)
    && (line != [] && line[|line|-1].Glyph? && line[|line|-1].marks.href != "" ==>
          EndsIn(e, line[|line|-1].marks.href) || Starts(e) < Starts(line))
  }

  lemma {:induction false} TrimFront(e: seq<Cell>)
    ensures exists n: nat :: n <= |e| && TrimEnd(e) == e[..n]
  {
    if TrimEnd(e) != e {
      var n := |e| - 1;
      TrimFront(e[..n]);
      var m: nat :| m <= n && TrimEnd(e[..n]) == e[..n][..m];
      assert e[..n][..m] == e[..m];
    } else {
      assert e[..|e|] == e;
    }
  }

  lemma {:induction false} DropFront(e: seq<Cell>)
    ensures exists n: nat :: n <= |e| && DropBreaks(e) == e[..n]
  {
    if DropBreaks(e) != e {
      var n := |e| - 1;
      DropFront(e[..n]);
      var m: nat :| m <= n && DropBreaks(e[..n]) == e[..n][..m];
      assert e[..n][..m] == e[..m];
    } else {
      assert e[..|e|] == e;
    }
  }

  lemma {:induction false} TrimStarts(e: seq<Cell>)
    ensures Starts(TrimEnd(e)) <= Starts(e) && Starts(DropBreaks(e)) <= Starts(e)
  {
    hide Starts, TrimEnd, DropBreaks;
    TrimFront(e);
    DropFront(e);
    var n: nat :| n <= |e| && TrimEnd(e) == e[..n];
    var m: nat :| m <= |e| && DropBreaks(e) == e[..m];
    StartsFront(e, n);
    StartsFront(e, m);
  }

  lemma {:induction false} AddBehind(e: seq<Cell>, line: seq<Cell>, c: Cell, d: Cell)
    requires Behind(e, line) && c.Glyph? && d.Glyph? && c.marks == d.marks
    ensures Behind(e + [d], line + [c]) && Behind(e, line + [c])
  {
    hide Starts;
    StartsSnoc(e, d);
    StartsSnoc(line, c);
    EndsSnoc(e, d, c.marks.href);
  }

  lemma {:induction false} BreakBehind(e: seq<Cell>, line: seq<Cell>)
    requires Starts(e) <= Starts(line)
    ensures Behind(e + [Break], line + [Break]) && Behind([], line + [Break])
  {
    hide Starts;
    NoStart();
    BreakStart(e);
    BreakStart(line);
  }

  lemma {:induction false} StepBehind(e: seq<Cell>, line: seq<Cell>, c: Cell)
    requires Behind(e, line)
    ensures Behind(Step(e, c), line + [c])
  {
    hide Behind, TrimEnd;
    match c
    case Break =>
      BehindStarts(e, line);
      TrimStarts(e);
      BreakBehind(TrimEnd(e), line);
    case Glyph(ch, m, link) =>
      AddBehind(e, line, c, if IsWS(ch) then Glyph(' ', m, link) else c);
  }

  lemma {:induction false} BehindStarts(e: seq<Cell>, line: seq<Cell>)
    requires Behind(e, line)
    ensures Starts(e) <= Starts(line)
  {}

  lemma {:induction false} ScanBehind(line: seq<Cell>)
    ensures Behind(Scan(line), line)
  {
    hide Behind, Step;
    if line == [] {
      NothingBehind();
    } else {
      var front, c := line[..|line|-1], line[|line|-1];
      ScanBehind(front);
      StepBehind(Scan(front), front, c);
      assert front + [c] == line;
    }
  }

  lemma {:induction false} NothingBehind()
    ensures Behind([], [])
  {}

  lemma {:induction false} NormalStarts(line: seq<Cell>)
    ensures Starts(Normal(line)) <= Starts(line)
  {
    hide Starts, Scan, TrimEnd, DropBreaks, Behind;
    ScanBehind(line);
    BehindStarts(Scan(line), line);
    TrimStarts(Scan(line));
    TrimStarts(TrimEnd(Scan(line)));
  }

  // ---- the chunks of a line print its links ----

  /** The last chunk of a grouped line and its last cell agree. */
  lemma {:induction false} GroupEnds(e: seq<Cell>, href: string)
    ensures var g := Group(e);
            EndsIn(e, href) <==> g != [] && g[|g|-1].Run? && g[|g|-1].marks.href == href
  {
    if e != [] {
      var q, c := e[..|e|-1], e[|e|-1];
      assert Group(e) == AddCell(Group(q), c);
      hide Group;
    }
  }

  lemma {:induction false} RunsSnoc(cs: seq<Chunk>, c: Chunk)
    ensures LinkRuns(cs + [c]) == LinkRuns(cs) + (if LinkStart(cs + [c], |cs|) then 1 else 0)
  {
    assert (cs + [c])[..|cs|] == cs;
    assert |cs + [c]| - 1 == |cs|;
  }

  /** A longer text in the last chunk is the same link. */
  lemma {:induction false} RunsSame(cs: seq<Chunk>, a: Chunk, b: Chunk)
    requires a.Run? && b.Run? && a.marks == b.marks
    ensures LinkRuns(cs + [a]) == LinkRuns(cs + [b])
  {
    hide LinkRuns;
    RunsSnoc(cs, a);
    RunsSnoc(cs, b);
  }

  lemma {:induction false} AddCellRuns(g: seq<Chunk>, c: Cell)
    ensures LinkRuns(AddCell(g, c)) == LinkRuns(g)
         + (if c.Glyph? && c.marks.href != "" && !(g != [] && g[|g|-1].Run? && g[|g|-1].marks.href == c.marks.href) then 1 else 0)
  {
    hide LinkRuns;
    match c
    case Break => RunsSnoc(g, Br);
    case Glyph(ch, m, link) =>
      var n := |g|;
      if n > 0 && g[n-1].Run? && g[n-1].marks == m {
        RunsSame(g[..n-1], g[n-1], Run(g[n-1].text + [ch], m, g[n-1].link));
        assert g[..n-1] + [g[n-1]] == g;
      } else {
        RunsSnoc(g, Run([ch], m, link));
      }
  }

  lemma {:induction false} GroupStarts(e: seq<Cell>)
    ensures LinkRuns(Group(e)) == Starts(e)
  {
    hide LinkRuns, AddCell, EndsIn;
    if e == [] {
      NoRuns();
    } else {
      var q, c := e[..|e|-1], e[|e|-1];
      GroupStarts(q);
      AddCellRuns(Group(q), c);
      if c.Glyph? { GroupEnds(q, c.marks.href); }
    }
  }

  lemma {:induction false} NoRuns()
    ensures LinkRuns([]) == 0
  {}

  /** The printed links of a normalised line are at most its linked chunks. */
  lemma {:induction false} FinishAddsNoLink(cs: seq<Chunk>)
    ensures Finished(cs).Some? ==> LinkRuns(Finished(cs).value) <= LinkedChunks(cs)
  {
    hide LinkRuns, Starts, Normal, LinkedChunks, Group;
    var u := Unlinked(cs, InkedLinks(cs));
    UnlinkedChunks(cs, InkedLinks(cs));
    ChunksStart(u);
    NormalStarts(Cells(u));
    GroupStarts(Normal(Cells(u)));
  }
}
