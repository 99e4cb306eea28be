// The compiler of the old plain-text notation (apps/rich-editor/src/legacy.ts): "**bold**", "_italic_", "- " and "1." lists,
// bare links. Here each closing "**" is found by a fresh search; Legacy.dfy has the loops with their shared position.

module LegacyModel {
  import opened Base
  import opened Chars
  import opened RichModel
  import opened Finish
  import R = Reader

  const TRAILING_PUNCT := ".,;:!?)]}\U{bb}\U{201d}\U{2019}"
  const ITALIC_OPEN_AFTER := "([{\"\U{201c}\U{2018}'\U{ab}\U{201e}"
  const ITALIC_CLOSE_BEFORE := ".,;:!?)]}\"\U{201d}\U{2019}'\U{bb}\U{2026}"
  const LINK_BREAKERS := "<>\"'`"

  // ---- characters and lines ----

  function LegacyChars(s: string): string {
    if s == "" then ""
    else
      (match CharPolicy(s[0]) case Strip => "" case LineSep => "\n" case ParaSep => "\n\n" case _ => [s[0]]) + LegacyChars(s[1..])
  }

  /** "\r\n" and lone "\r" become "\n". */
  function Newlines(s: string): string {
    if s == "" then ""
    else if s[0] == '\r' then "\n" + Newlines(if |s| > 1 && s[1] == '\n' then s[2..] else s[1..])
    else [s[0]] + Newlines(s[1..])
  }

  function Trim(s: string): string { TrimRight(TrimLeft(s, IsWS), IsWS) }

  /** The lines of a text; there is always one. */
  function Lines(s: string): (r: seq<string>)
    ensures r != []
  {
    if s == "" then [""]
    else
      var rest := Lines(s[1..]);
      if s[0] == '\n' then [""] + rest else [[s[0]] + rest[0]] + rest[1..]
  }

  // ---- bold ----

  predicate Stars(s: string, i: nat) { i + 1 < |s| && s[i] == '*' && s[i+1] == '*' }

  /** A "**" that may close: it follows a character that is no space. */
  predicate CloserAt(s: string, j: nat) { 0 < j && Stars(s, j) && !IsUnicodeSpace(s[j-1]) }

  function LeastCloser(s: string, j: nat): (r: Option<nat>)
    ensures r.Some? ==> j <= r.value && CloserAt(s, r.value)
    decreases |s| - j
  {
    if j >= |s| then None else if CloserAt(s, j) then Some(j) else LeastCloser(s, j + 1)
  }

  /** The closer of the opening "**" at `i`, by a search of its own. */
  function BoldEnd(s: string, i: nat): (r: Option<nat>)
    ensures r.Some? ==> i + 3 <= r.value && CloserAt(s, r.value)
  {
    if i + 2 >= |s| || IsUnicodeSpace(s[i+2]) then None else LeastCloser(s, i + 3)
  }

  /** A stretch of a line, marked or not. */
  datatype Part = Part(text: string, marked: bool)

  function Bolds(s: string, i: nat, last: nat): seq<Part>
    requires last <= i && last <= |s|
    decreases |s| - i
  {
    if i >= |s| then [Part(s[last..], false)]
    else if Stars(s, i) && BoldEnd(s, i).Some? then
      var j := BoldEnd(s, i).value;
      [Part(s[last..i], false), Part(s[i+2..j], true)] + Bolds(s, j + 2, j + 2)
    else Bolds(s, i + 1, last)
  }

  // ---- italic ----

  predicate ItalicOpens(s: string, i: nat)
    requires i <= |s|
  {
    i == 0 || IsUnicodeSpace(s[i-1]) || s[i-1] in ITALIC_OPEN_AFTER
  }

  predicate ItalicCloses(s: string, j: nat) {
    j + 1 >= |s| || IsUnicodeSpace(s[j+1]) || s[j+1] in ITALIC_CLOSE_BEFORE
  }

  predicate ItalicBody(b: string) {
    b != "" && !IsUnicodeSpace(b[0]) && !IsUnicodeSpace(b[|b|-1])
  }

  function NextScore(s: string, j: nat): (r: nat)
    requires j <= |s|
    ensures j <= r <= |s| && (r < |s| ==> s[r] == '_')
    decreases |s| - j
  {
    if j == |s| || s[j] == '_' then j else NextScore(s, j + 1)
  }

  /** The "_" at `i` opens a part that the next "_" closes. */
  predicate ItalicAt(s: string, i: nat)
    requires i < |s|
  {
    && s[i] == '_' && ItalicOpens(s, i)
    && var j := NextScore(s, i + 1); j < |s| && ItalicBody(s[i+1..j]) && ItalicCloses(s, j)
  }

  function Italics(s: string, i: nat, last: nat): seq<Part>
    requires last <= i && last <= |s|
    decreases |s| - i
  {
    if i >= |s| then [Part(s[last..], false)]
    else if ItalicAt(s, i) then
      var j := NextScore(s, i + 1);
      [Part(s[last..i], false), Part(s[i+1..j], true)] + Italics(s, j + 1, j + 1)
    else Italics(s, i + 1, last)
  }

  // ---- links ----

  /** What is left of the link limit, and the last link number given out. */
  datatype Links = Links(budget: nat, last: nat)

  predicate RunBreaker(c: char) { IsUnicodeSpace(c) || IsWS(c) || c in LINK_BREAKERS }

  function RunEnd(s: string, e: nat): (r: nat)
    requires e <= |s|
    ensures e <= r <= |s|
    decreases |s| - e
  {
    if e < |s| && !RunBreaker(s[e]) then RunEnd(s, e + 1) else e
  }

  function CutPunct(s: string, i: nat, e: nat): (r: nat)
    requires e <= |s|
    ensures r <= e && (i <= e ==> i <= r)
  {
    if i < e && s[e-1] in TRAILING_PUNCT then CutPunct(s, i, e - 1) else e
  }

  predicate HttpsAt(s: string, i: nat) { i + 8 <= |s| && R.Lower(s[i..i+8]) == "https://" }

  /** The slash of the scheme is no trailing punctuation. */
  lemma {:induction false} CutKeepsScheme(s: string, i: nat, e: nat)
    requires i + 8 <= e <= |s| && HttpsAt(s, i)
    ensures i + 8 <= CutPunct(s, i, e)
    decreases e
  {
    if e > i + 8 {
      CutKeepsScheme(s, i, e - 1);
    } else {
      SlashAt(s, i);
    }
  }

  lemma {:induction false} SlashAt(s: string, i: nat)
    requires HttpsAt(s, i)
    ensures s[i+7] == '/'
  {
    assert R.Lower(s[i..i+8])[7] == R.LowerChar(s[i..i+8][7]) == "https://"[7];
  }

  type Clean = string -> Option<string>

  function PlainRun(s: string, strong: bool, em: bool): Chunk {
    Run(s, Marks(strong, em, false, ""), 0)
  }

  /** The rest of a stretch as plain text. */
  function PlainRest(s: string, last: nat, strong: bool, em: bool): seq<Chunk>
    requires last <= |s|
  {
    if last < |s| then [PlainRun(s[last..], strong, em)] else []
  }

  function LinkScan(s: string, strong: bool, em: bool, i: nat, last: nat, st: Links, clean: Clean): (seq<Chunk>, Links)
    requires last <= i <= |s|
    decreases |s| - i
  {
    if i + 8 > |s| || st.budget == 0 then (PlainRest(s, last, strong, em), st)
    else if !HttpsAt(s, i) then LinkScan(s, strong, em, i + 1, last, st, clean)
    else
      var stop := RunEnd(s, i + 8);
      var end := CutPunct(s, i, stop);
      CutKeepsScheme(s, i, stop);
      match clean(s[i..end])
      case None => LinkScan(s, strong, em, stop, last, st, clean)
      case Some(href) =>
        var (cs, st') := LinkScan(s, strong, em, end, end, Links(st.budget - 1, st.last + 1), clean);
        ((if i > last then [PlainRun(s[last..i], strong, em)] else [])
         + [Run(s[i..end], Marks(strong, em, false, href), st.last + 1)] + cs, st')
  }

  // ---- one line ----

  /** A stretch of a line with its marks. */
  datatype Span = Span(text: string, strong: bool, em: bool)

  function ItalicSpans(parts: seq<Part>, strong: bool): seq<Span> {
    seq(|parts|, i requires 0 <= i < |parts| => Span(parts[i].text, strong, parts[i].marked))
  }

  function BoldSpans(parts: seq<Part>): seq<Span> {
    if parts == [] then []
    else ItalicSpans(Italics(parts[0].text, 0, 0), parts[0].marked) + BoldSpans(parts[1..])
  }

  /** The stretches of a line: bold first, italic inside. */
  function Spans(s: string): seq<Span> { BoldSpans(Bolds(s, 0, 0)) }

  function SpanChunks(spans: seq<Span>, st: Links, clean: Clean): (seq<Chunk>, Links) {
    if spans == [] then ([], st)
    else
      var (cs, a) := LinkScan(spans[0].text, spans[0].strong, spans[0].em, 0, 0, st, clean);
      var (rest, b) := SpanChunks(spans[1..], a, clean);
      (cs + rest, b)
  }

  function InlineChunks(s: string, st: Links, clean: Clean): (seq<Chunk>, Links) {
    SpanChunks(Spans(s), st, clean)
  }

  // ---- lists ----

  datatype Kind = TextLine | Bullet | Number
  datatype Class = Class(kind: Kind, body: string, num: nat)

  predicate StartsWithWS(s: string) { s != "" && IsWS(s[0]) }

  /** At most three digits, none when the first is a zero. */
  function Digits(line: string, n: nat): (r: nat)
    requires n <= |line|
    ensures n <= r <= |line|
    ensures n <= 3 ==> r <= 3
    ensures forall k :: n <= k < r ==> IsDigit(line[k])
    decreases |line| - n
  {
    if n < |line| && n < 3 && line[0] != '0' && IsDigit(line[n]) then Digits(line, n + 1) else n
  }

  function Value(digits: string): nat
    requires forall k :: 0 <= k < |digits| ==> IsDigit(digits[k])
  {
    if digits == "" then 0
    else
      assert IsDigit(digits[|digits|-1]);
      10 * Value(digits[..|digits|-1]) + (digits[|digits|-1] as int - '0' as int)
  }

  function BulletBody(line: string): Option<string> {
    if line != "" && line[0] in "-*\U{2022}" && StartsWithWS(line[1..]) && TrimLeft(line[1..], IsWS) != "" then Some(TrimLeft(line[1..], IsWS)) else None
  }

  function NumberBody(line: string): Option<string> {
    var n := Digits(line, 0);
    if n > 0 && n + 1 < |line| && line[n] == '.' && StartsWithWS(line[n+1..]) && TrimLeft(line[n+1..], IsWS) != ""
    then Some(TrimLeft(line[n+1..], IsWS)) else None
  }

  function Classify(line: string): Class {
    if BulletBody(line).Some? then Class(Bullet, BulletBody(line).value, 0)
    else if NumberBody(line).Some? then Class(Number, NumberBody(line).value, Value(line[..Digits(line, 0)]))
    else Class(TextLine, line, 0)
  }

  predicate ListStart(lines: seq<string>, i: nat)
    requires i < |lines|
  {
    var c := Classify(lines[i]);
    c.kind == Bullet || (c.kind == Number && c.num == 1)
  }

  /** Line `j` goes on with the list that starts at `i`. */
  predicate ListGoesOn(lines: seq<string>, i: nat, j: nat)
    requires i <= j < |lines|
  {
    var c, k := Classify(lines[j]), Classify(lines[i]).kind;
    c.kind == k && (k == Number ==> c.num == 1 + (j - i))
  }

  function ListEnd(lines: seq<string>, i: nat, j: nat): (r: nat)
    requires i < j <= |lines|
    ensures j <= r <= |lines|
    decreases |lines| - j
  {
    if j < |lines| && ListGoesOn(lines, i, j) then ListEnd(lines, i, j + 1) else j
  }

  /** What a block of lines is made of: single lines of text, and lists from line `i` up to line `j`. */
  datatype Segment = TextAt(i: nat) | ListAt(i: nat, j: nat, ordered: bool)

  predicate StartsList(lines: seq<string>, i: nat)
    requires i < |lines|
  {
    ListStart(lines, i) && ListEnd(lines, i, i + 1) - i >= 2
  }

  function Segments(lines: seq<string>, i: nat): seq<Segment>
    requires i <= |lines|
    decreases |lines| - i
  {
    if i == |lines| then []
    else if StartsList(lines, i) then
      var j := ListEnd(lines, i, i + 1);
      [ListAt(i, j, Classify(lines[i]).kind == Number)] + Segments(lines, j)
    else [TextAt(i)] + Segments(lines, i + 1)
  }

  // ---- documents ----

  function FinishedOr(cs: seq<Chunk>): seq<Chunk> {
    match Finished(cs) case None => [] case Some(f) => f
  }

  function ListItems(lines: seq<string>, i: nat, j: nat, st: Links, clean: Clean): (seq<Item>, Links)
    requires i <= j <= |lines|
    decreases j - i
  {
    if i == j then ([], st)
    else
      var (cs, a) := InlineChunks(Classify(lines[i]).body, st, clean);
      var (rest, b) := ListItems(lines, i + 1, j, a, clean);
      ([Item(FinishedOr(cs), [])] + rest, b)
  }

  function FlushedPara(para: seq<Chunk>): Doc {
    if FinishedOr(para) == [] then [] else [TextBlock(P, FinishedOr(para))]
  }

  function WithLine(para: seq<Chunk>, cs: seq<Chunk>): seq<Chunk> {
    (if para == [] then [] else para + [Br]) + cs
  }

  /** The segments of a block, turned into paragraphs and lists; `para` is the paragraph being filled. */
  function SegmentBlocks(lines: seq<string>, segs: seq<Segment>, para: seq<Chunk>, st: Links, clean: Clean): (Doc, Links)
    requires forall k :: 0 <= k < |segs| ==> SegmentIn(segs[k], lines)
  {
    if segs == [] then (FlushedPara(para), st)
    else
      assert SegmentIn(segs[0], lines);
      match segs[0]
      case TextAt(i) =>
        var (cs, a) := InlineChunks(lines[i], st, clean);
        SegmentBlocks(lines, segs[1..], WithLine(para, cs), a, clean)
      case ListAt(i, j, ordered) =>
        var (items, a) := ListItems(lines, i, j, st, clean);
        var (rest, b) := SegmentBlocks(lines, segs[1..], [], a, clean);
        (FlushedPara(para) + [ListBlock(List(ordered, items))] + rest, b)
  }

  predicate SegmentIn(g: Segment, lines: seq<string>) {
    match g case TextAt(i) => i < |lines| case ListAt(i, j, _) => i < j <= |lines|
  }

  lemma {:induction false} SegmentsIn(lines: seq<string>, i: nat)
    requires i <= |lines|
    ensures forall k :: 0 <= k < |Segments(lines, i)| ==> SegmentIn(Segments(lines, i)[k], lines)
    decreases |lines| - i
  {
    hide StartsList, ListEnd;
    if i < |lines| {
      SegmentsIn(lines, if StartsList(lines, i) then ListEnd(lines, i, i + 1) else i + 1);
    }
  }

  function BlockDoc(lines: seq<string>, st: Links, clean: Clean): (Doc, Links) {
    SegmentsIn(lines, 0);
    SegmentBlocks(lines, Segments(lines, 0), [], st, clean)
  }

  /** A block of lines that is empty gives nothing. */
  function FlushedBlock(block: seq<string>, st: Links, clean: Clean): (Doc, Links) {
    if block == [] then ([], st) else BlockDoc(block, st, clean)
  }

  /** Blank lines end a block. */
  function RawDoc(raws: seq<string>, block: seq<string>, st: Links, clean: Clean): (Doc, Links) {
    if raws == [] then FlushedBlock(block, st, clean)
    else if Trim(raws[0]) == "" then
      var (d, a) := FlushedBlock(block, st, clean);
      var (rest, b) := RawDoc(raws[1..], [], a, clean);
      (d + rest, b)
    else RawDoc(raws[1..], block + [Trim(raws[0])], st, clean)
  }

  function LegacyDoc(text: string, maxLinks: nat, clean: Clean): (Doc, Links) {
    RawDoc(Lines(Newlines(LegacyChars(text))), [], Links(maxLinks, 0), clean)
  }
}
