// The normaliser of inline runs (`finish`, apps/rich-editor/src/model.ts:71-136). A chunk list is read
// as a line of cells, one per character or break. The loops of the source are shown to compute `Finished`,
// a scan over cells; FinishSpec.dfy says what that scan keeps without mentioning it.

module Finish {
  import opened Base
  import opened Chars
  import opened RichModel

  datatype Cell = Break | Glyph(ch: char, marks: Marks, link: nat)

  predicate Ink(c: Cell) { c.Glyph? && !IsWS(c.ch) }

  predicate Blank(c: Cell) { c.Glyph? && IsWS(c.ch) }

  predicate SpaceCell(c: Cell) { c.Glyph? && c.ch == ' ' }

  function Glyphs(text: string, m: Marks, link: nat): seq<Cell> {
    seq(|text|, i requires 0 <= i < |text| => Glyph(text[i], m, link))
  }

  function ChunkCells(c: Chunk): seq<Cell> {
    match c
    case Br => [Break]
    case Run(text, m, link) => Glyphs(text, m, link)
  }

  function Cells(cs: seq<Chunk>): seq<Cell> {
    if cs == [] then [] else Cells(cs[..|cs|-1]) + ChunkCells(cs[|cs|-1])
  }

  // ---- links that hold only spaces ----

  predicate HoldsInk(c: Chunk) { c.Run? && c.marks.href != "" && !IsSpaceText(c.text) }

  function InkedLinks(cs: seq<Chunk>): set<nat> {
    set i | 0 <= i < |cs| && HoldsInk(cs[i]) :: cs[i].link
  }

  function Unlink(c: Chunk, inked: set<nat>): Chunk {
    if c.Run? && c.marks.href != "" && c.link !in inked then Run(c.text, c.marks.(href := ""), 0) else c
  }

  function Unlinked(cs: seq<Chunk>, inked: set<nat>): seq<Chunk> {
    seq(|cs|, i requires 0 <= i < |cs| => Unlink(cs[i], inked))
  }

  // ---- the scan ----

  /** A space read after `e` is dropped: at the start, after a break and after a space. */
  predicate AtEdge(e: seq<Cell>) {
    e == [] || e[|e|-1].Break? || SpaceCell(e[|e|-1])
  }

  function TrimEnd(e: seq<Cell>): seq<Cell> {
    if e != [] && SpaceCell(e[|e|-1]) then TrimEnd(e[..|e|-1]) else e
  }

  function DropBreaks(e: seq<Cell>): seq<Cell> {
    if e != [] && e[|e|-1].Break? then DropBreaks(e[..|e|-1]) else e
  }

  function Step(e: seq<Cell>, c: Cell): seq<Cell> {
    match c
    case Break => if TrimEnd(e) == [] then [] else TrimEnd(e) + [Break]
    case Glyph(ch, m, link) =>
      if !IsWS(ch) then e + [c] else if AtEdge(e) then e else e + [Glyph(' ', m, link)]
  }

  function Scan(cells: seq<Cell>): seq<Cell> {
    if cells == [] then [] else Step(Scan(cells[..|cells|-1]), cells[|cells|-1])
  }

  function Normal(cells: seq<Cell>): seq<Cell> {
    DropBreaks(TrimEnd(Scan(cells)))
  }

  // ---- cells back to chunks ----

  function AddCell(cs: seq<Chunk>, c: Cell): seq<Chunk> {
    match c
    case Break => cs + [Br]
    case Glyph(ch, m, link) =>
      var n := |cs|;
      if n > 0 && cs[n-1].Run? && cs[n-1].marks == m
      then cs[..n-1] + [Run(cs[n-1].text + [ch], m, cs[n-1].link)]
      else cs + [Run([ch], m, link)]
  }

  /** The chunk list of a line of cells: a chunk spans equally marked neighbours and keeps the link of the first. */
  function Group(cells: seq<Cell>): seq<Chunk> {
    if cells == [] then [] else AddCell(Group(cells[..|cells|-1]), cells[|cells|-1])
  }

  function Finished(input: seq<Chunk>): Option<seq<Chunk>> {
    var kept := Normal(Cells(Unlinked(input, InkedLinks(input))));
    if kept == [] then None else Some(Group(kept))
  }

  // ---- the loops of the source ----

  /** The chunks under construction: `out` with the texts still in `bufs`. */
  ghost function View(out: seq<Chunk>, bufs: seq<string>): seq<Chunk>
    requires |out| == |bufs|
  {
    seq(|out|, i requires 0 <= i < |out| => if out[i].Br? then Br else out[i].(text := bufs[i]))
  }

  lemma {:induction false} GroupSnoc(e: seq<Cell>, c: Cell)
    ensures Group(e + [c]) == AddCell(Group(e), c)
  {
    assert (e + [c])[..|e|] == e;
  }

  lemma {:induction false} ScanSnoc(e: seq<Cell>, c: Cell)
    ensures Scan(e + [c]) == Step(Scan(e), c)
  {
    assert (e + [c])[..|e|] == e;
  }

  lemma {:induction false} GlyphsSnoc(t: string, ch: char, m: Marks, link: nat)
    ensures Glyphs(t + [ch], m, link) == Glyphs(t, m, link) + [Glyph(ch, m, link)]
  {}

  lemma {:induction false} CellsSnoc(cs: seq<Chunk>, c: Chunk)
    ensures Cells(cs + [c]) == Cells(cs) + ChunkCells(c)
  {
    assert (cs + [c])[..|cs|] == cs;
  }

  /** Adding a nonempty run of equally marked cells extends the last chunk or starts a new one. */
  lemma {:induction false} GroupGlyphs(e: seq<Cell>, t: string, m: Marks, link: nat)
    ensures var g := Group(e);
            var merge := g != [] && g[|g|-1].Run? && g[|g|-1].marks == m;
            Group(e + Glyphs(t, m, link)) ==
              if t == "" then g
              else if merge then g[..|g|-1] + [Run(g[|g|-1].text + t, m, g[|g|-1].link)]
              else g + [Run(t, m, link)]
  {
    if t == "" {
      assert e + Glyphs(t, m, link) == e;
    } else {
      hide Group, Glyphs;
      var s, ch := t[..|t|-1], t[|t|-1];
      assert t == s + [ch];
      GroupGlyphs(e, s, m, link);
      GlyphsSnoc(s, ch, m, link);
      SeqAssoc(e, Glyphs(s, m, link), [Glyph(ch, m, link)]);
      GroupSnoc(e + Glyphs(s, m, link), Glyph(ch, m, link));
      var g := Group(e);
      if g != [] && g[|g|-1].Run? && g[|g|-1].marks == m {
        SeqAssoc(g[|g|-1].text, s, [ch]);
      }
    }
  }

  /** The last chunk of a grouping against the last cell. */
  lemma {:induction false} GroupLast(e: seq<Cell>)
    requires e != []
    ensures Group(e) != []
    ensures e[|e|-1].Break? ==> Group(e) == Group(e[..|e|-1]) + [Br]
    ensures e[|e|-1].Glyph? ==> EndsWith(Group(e), e[|e|-1], Group(e[..|e|-1]))
  {
    GroupNonempty(e[..|e|-1]);
    AddLast(Group(e[..|e|-1]), e[|e|-1]);
  }

  lemma {:induction false} AddLast(h: seq<Chunk>, c: Cell)
    requires h != [] && h[|h|-1].Run? ==> h[|h|-1].text != ""
    ensures AddCell(h, c) != []
    ensures c.Glyph? ==> EndsWith(AddCell(h, c), c, h)
  {
    if c.Glyph? && h != [] && h[|h|-1].Run? && h[|h|-1].marks == c.marks {
      var r := h[|h|-1];
      assert (r.text + [c.ch])[..|r.text|] == r.text;
      assert h == h[..|h|-1] + [r];
    }
  }

  /** The last run of `g` ends with the character of `c`, and `h` is `g` without it. */
  predicate EndsWith(g: seq<Chunk>, c: Cell, h: seq<Chunk>)
    requires g != [] && c.Glyph?
  {
    var r := g[|g|-1];
    && r.Run? && r.marks == c.marks && r.text != "" && r.text[|r.text|-1] == c.ch
    && h == g[..|g|-1] + (if |r.text| == 1 then [] else [r.(text := r.text[..|r.text|-1])])
  }

  lemma {:induction false} GroupNonempty(e: seq<Cell>)
    ensures forall i :: 0 <= i < |Group(e)| && Group(e)[i].Run? ==> Group(e)[i].text != ""
    ensures Group(e) == [] <==> e == []
  {
    if e != [] { GroupNonempty(e[..|e|-1]); }
  }

  method TrimRightSpaces(s: string) returns (r: string)
    ensures TrimmedOf(r, s)
  {
    var end := |s|;
    while end > 0 && s[end-1] == ' '
      invariant 0 <= end <= |s|
      invariant forall i :: end <= i < |s| ==> s[i] == ' '
    {
      end := end - 1;
    }
    r := if end == |s| then s else s[..end];
  }

  /** `t` is `s` without its trailing spaces. */
  predicate TrimmedOf(t: string, s: string) {
    && t <= s && (forall i :: |t| <= i < |s| ==> s[i] == ' ')
    && (t == "" || t[|t|-1] != ' ')
  }

  /** Cutting the trailing spaces off the last chunk cuts as many cells. */
  lemma {:induction false} TrimLast(e: seq<Cell>, rest: seq<Chunk>, r: Chunk, t: string)
    requires r.Run? && Group(e) == rest + [r] && TrimmedOf(t, r.text)
    ensures |r.text| - |t| <= |e|
    ensures var f := e[..|e| - (|r.text| - |t|)];
            && TrimEnd(e) == TrimEnd(f)
            && Group(f) == rest + (if t == "" then [] else [r.(text := t)])
            && (t != "" ==> TrimEnd(e) == f)
    decreases |e|
  {
    hide Group;
    GroupNonempty(e);
    GroupLast(e);
    var e' := e[..|e|-1];
    assert (rest + [r])[..|rest|] == rest;
    if |t| == |r.text| {
      assert t == r.text;
      assert e[..|e|] == e;
    } else if |r.text| == 1 {
      assert t == "";
      assert Group(e') == rest;
    } else {
      TrimLast(e', rest, r.(text := r.text[..|r.text|-1]), t);
      assert e'[..|e'| - (|r.text| - 1 - |t|)] == e[..|e| - (|r.text| - |t|)];
    }
  }

  lemma {:induction false} ViewLast(out: seq<Chunk>, bufs: seq<string>, n: nat)
    requires |out| == |bufs| == n + 1
    ensures View(out, bufs) == View(out[..n], bufs[..n]) + [if out[n].Br? then Br else out[n].(text := bufs[n])]
  {}

  /** `trimTail`: cuts the spaces at the end of the line under construction. */
  method TrimTail(out0: seq<Chunk>, bufs0: seq<string>, ghost e: seq<Cell>) returns (out: seq<Chunk>, bufs: seq<string>)
    requires |out0| == |bufs0| && View(out0, bufs0) == Group(e)
    ensures |out| == |bufs| && View(out, bufs) == Group(TrimEnd(e))
  {
    out, bufs := out0, bufs0;
    ghost var f := e;
    while |out| > 0
      invariant |out| == |bufs| && View(out, bufs) == Group(f) && TrimEnd(f) == TrimEnd(e)
      decreases |out|
    {
      var n := |out| - 1;
      ViewLast(out, bufs, n);
      if out[n].Br? {
        TrimAtBreak(f);
        return;
      }
      var t := TrimRightSpaces(bufs[n]);
      TrimLast(f, View(out[..n], bufs[..n]), out[n].(text := bufs[n]), t);
      f := f[..|f| - (|bufs[n]| - |t|)];
      bufs := bufs[n := t];
      ViewLast(out, bufs, n);
      if |bufs[n]| > 0 { return; }
      out, bufs := out[..n], bufs[..n];
    }
    GroupNonempty(f);
  }

  lemma {:induction false} TrimAtBreak(e: seq<Cell>)
    requires var g := Group(e); g != [] && g[|g|-1].Br?
    ensures TrimEnd(e) == e && e != [] && e[|e|-1].Break?
    ensures Group(e[..|e|-1]) == Group(e)[..|Group(e)|-1]
  {
    hide Group;
    GroupNonempty(e);
    GroupLast(e);
  }

  /** `linkText`: the links that hold more than spaces. */
  method LinkText(input: seq<Chunk>) returns (linkText: set<nat>)
    ensures linkText == InkedLinks(input)
  {
    linkText := {};
    for k := 0 to |input|
      invariant linkText == InkedLinks(input[..k])
    {
      var c := input[k];
      assert input[..k+1] == input[..k] + [c];
      if c.Run? && c.marks.href != "" && !IsSpaceText(c.text) {
        assert HoldsInk(input[..k+1][k]);
        linkText := linkText + {c.link};
      }
      assert forall l :: l in InkedLinks(input[..k]) ==> l in InkedLinks(input[..k+1]) by {
        forall l | l in InkedLinks(input[..k]) ensures l in InkedLinks(input[..k+1]) {
          var i :| 0 <= i < k && HoldsInk(input[..k][i]) && input[..k][i].link == l;
          assert HoldsInk(input[..k+1][i]);
        }
      }
    }
    assert input[..|input|] == input;
  }

  /** One character more, after `pre` was scanned into `parts`. */
  lemma {:induction false} ScanTextStep(cells: seq<Cell>, pre: string, parts: string, ch: char, m: Marks, link: nat)
    requires Scan(cells + Glyphs(pre, m, link)) == Scan(cells) + Glyphs(parts, m, link)
    ensures var e := Scan(cells + Glyphs(pre, m, link));
            var e' := Scan(cells + Glyphs(pre + [ch], m, link));
            if IsWS(ch)
            then AtEdge(e') && e' == Scan(cells) + Glyphs(if AtEdge(e) then parts else parts + [' '], m, link)
            else !AtEdge(e') && e' == Scan(cells) + Glyphs(parts + [ch], m, link)
  {
    GlyphsSnoc(pre, ch, m, link);
    var sofar := cells + Glyphs(pre, m, link);
    assert cells + Glyphs(pre + [ch], m, link) == sofar + [Glyph(ch, m, link)];
    ScanSnoc(sofar, Glyph(ch, m, link));
    GlyphsSnoc(parts, ' ', m, link);
    GlyphsSnoc(parts, ch, m, link);
    assert Scan(cells) + Glyphs(parts + [ch], m, link) == (Scan(cells) + Glyphs(parts, m, link)) + [Glyph(ch, m, link)];
    assert Scan(cells) + Glyphs(parts + [' '], m, link) == (Scan(cells) + Glyphs(parts, m, link)) + [Glyph(' ', m, link)];
  }

  /** Reads one text chunk after the line `cells`: its spaces collapsed into `parts`. */
  method ScanText(text: string, m: Marks, link: nat, ghost cells: seq<Cell>, lastSpace0: bool)
    returns (parts: string, lastSpace: bool)
    requires lastSpace0 == AtEdge(Scan(cells))
    ensures Scan(cells + Glyphs(text, m, link)) == Scan(cells) + Glyphs(parts, m, link)
    ensures lastSpace == AtEdge(Scan(cells + Glyphs(text, m, link)))
  {
    parts, lastSpace := "", lastSpace0;
    assert cells + Glyphs(text[..0], m, link) == cells;
    assert Scan(cells) + Glyphs("", m, link) == Scan(cells);
    for k := 0 to |text|
      invariant Scan(cells + Glyphs(text[..k], m, link)) == Scan(cells) + Glyphs(parts, m, link)
      invariant lastSpace == AtEdge(Scan(cells + Glyphs(text[..k], m, link)))
    {
      var ch := text[k];
      ScanTextStep(cells, text[..k], parts, ch, m, link);
      assert text[..k+1] == text[..k] + [ch];
      if IsWS(ch) {
        if lastSpace { continue; }
        parts, lastSpace := parts + [' '], true;
        continue;
      }
      parts, lastSpace := parts + [ch], false;
    }
    assert text[..|text|] == text;
  }

  lemma {:induction false} ViewSnoc(out: seq<Chunk>, bufs: seq<string>, c: Chunk, text: string)
    requires |out| == |bufs|
    ensures View(out + [c], bufs + [text]) == View(out, bufs) + [if c.Br? then Br else c.(text := text)]
  {}

  /** The fill of the last buffer or of a new one, after `parts` was read under the marks `m`. */
  method AppendText(out0: seq<Chunk>, bufs0: seq<string>, parts: string, m: Marks, link: nat, ghost e: seq<Cell>)
    returns (out: seq<Chunk>, bufs: seq<string>)
    requires |out0| == |bufs0| && View(out0, bufs0) == Group(e)
    ensures |out| == |bufs| && View(out, bufs) == Group(e + Glyphs(parts, m, link))
  {
    hide Group;
    out, bufs := out0, bufs0;
    GroupGlyphs(e, parts, m, link);
    var n := |out|;
    var merge := n > 0 && !out[n-1].Br? && out[n-1].marks == m;
    if parts == "" { return; }
    if merge {
      ViewLast(out, bufs, n - 1);
      bufs := bufs[n-1 := bufs[n-1] + parts];
      ViewLast(out, bufs, n - 1);
      return;
    }
    ViewSnoc(out, bufs, Run("", m, link), parts);
    out, bufs := out + [Run("", m, link)], bufs + [parts];
  }

  lemma {:induction false} LastRun(e: seq<Cell>)
    requires Group(e) != [] && Group(e)[|Group(e)|-1].Run?
    ensures e != [] && e[|e|-1].Glyph?
  {
    hide Group;
    GroupNonempty(e);
    GroupLast(e);
  }

  /** The breaks at the end of the line go. */
  method CutBreaks(out0: seq<Chunk>, bufs0: seq<string>, ghost e: seq<Cell>) returns (out: seq<Chunk>, bufs: seq<string>)
    requires |out0| == |bufs0| && View(out0, bufs0) == Group(e)
    ensures |out| == |bufs| && View(out, bufs) == Group(DropBreaks(e))
  {
    out, bufs := out0, bufs0;
    ghost var f := e;
    while |out| > 0 && out[|out|-1].Br?
      invariant |out| == |bufs| && View(out, bufs) == Group(f) && DropBreaks(f) == DropBreaks(e)
      decreases |out|
    {
      ViewLast(out, bufs, |out|-1);
      TrimAtBreak(f);
      f := f[..|f|-1];
      out, bufs := out[..|out|-1], bufs[..|bufs|-1];
    }
    GroupNonempty(f);
    if f != [] {
      ViewLast(out, bufs, |out|-1);
      LastRun(f);
    }
  }

  method FillTexts(out0: seq<Chunk>, bufs: seq<string>) returns (out: seq<Chunk>)
    requires |out0| == |bufs|
    ensures out == View(out0, bufs)
  {
    out := out0;
    for i := 0 to |out|
      invariant |out| == |bufs|
      invariant forall k :: 0 <= k < i ==> out[k] == View(out0, bufs)[k]
      invariant forall k :: i <= k < |out| ==> out[k] == out0[k]
    {
      if !out[i].Br? { out := out[i := out[i].(text := bufs[i])]; }
    }
  }

  lemma {:induction false} UnlinkedSnoc(input: seq<Chunk>, inked: set<nat>, k: nat)
    requires k < |input|
    ensures Cells(Unlinked(input, inked)[..k+1]) == Cells(Unlinked(input, inked)[..k]) + ChunkCells(Unlink(input[k], inked))
  {
    var src := Unlinked(input, inked);
    assert src[..k+1] == src[..k] + [src[k]];
    CellsSnoc(src[..k], src[k]);
  }

  method Finish(input: seq<Chunk>) returns (r: Option<seq<Chunk>>)
    ensures r == Finished(input)
  {
    var linkText := LinkText(input);
    var out: seq<Chunk>, bufs: seq<string>, lastSpace := [], [], true;
    ghost var src := Unlinked(input, linkText);
    for k := 0 to |input|
      invariant |out| == |bufs| && View(out, bufs) == Group(Scan(Cells(src[..k])))
      invariant lastSpace == AtEdge(Scan(Cells(src[..k])))
    {
      ghost var cells := Cells(src[..k]);
      UnlinkedSnoc(input, linkText, k);
      if input[k].Br? {
        ScanSnoc(cells, Break);
        out, bufs := TrimTail(out, bufs, Scan(cells));
        GroupNonempty(TrimEnd(Scan(cells)));
        if |out| > 0 {
          GroupSnoc(TrimEnd(Scan(cells)), Break);
          ViewSnoc(out, bufs, Br, "");
          out, bufs := out + [Br], bufs + [""];
        }
        lastSpace := true;
      } else {
        var c := input[k];
        if c.marks.href != "" && c.link !in linkText {
          c := Run(c.text, c.marks.(href := ""), 0);
        }
        var parts;
        parts, lastSpace := ScanText(c.text, c.marks, c.link, cells, lastSpace);
        out, bufs := AppendText(out, bufs, parts, c.marks, c.link, Scan(cells));
      }
    }
    assert src[..|input|] == src;
    ghost var e := Scan(Cells(src));
    out, bufs := TrimTail(out, bufs, e);
    out, bufs := CutBreaks(out, bufs, TrimEnd(e));
    GroupNonempty(Normal(Cells(src)));
    if |out| == 0 { return None; }
    out := FillTexts(out, bufs);
    r := Some(out);
  }
}
