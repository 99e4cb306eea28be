// When the notation marks a stretch of text (apps/rich-editor/src/legacy.ts:43-60, 131-222, 241): "_" at the borders of a word, "**"
// against the text it marks, and bare links without the punctuation behind them.

module LegacyNotation {
  import opened Base
  import opened Chars
  import opened RichModel
  import opened LegacyModel
  import opened LegacyRules
  import Entities
  import R = Reader

  predicate Free(s: string, c: char) { forall i :: 0 <= i < |s| ==> s[i] != c }

  // ---- "_" ----

  /** A word may begin here: at the start, after a space, or after an opening sign. */
  predicate WordStart(a: string) {
    a == "" || var c := a[|a|-1]; IsUnicodeSpace(c) || c in "([{\"'\U{ab}\U{201c}\U{2018}\U{201e}"
  }

  /** A word may end here: at the end, before a space, or before a closing sign. */
  predicate WordEnd(b: string) {
    b == "" || var c := b[0]; IsUnicodeSpace(c) || c in ".,;:!?)]}\"'\U{bb}\U{201d}\U{2019}\U{2026}"
  }

  /** Not empty, and no space at its ends. */
  predicate Tight(t: string) { t != "" && !IsUnicodeSpace(t[0]) && !IsUnicodeSpace(t[|t|-1]) }

  lemma {:induction false} NoItalic(s: string, i: nat, last: nat)
    requires last <= i && last <= |s| && forall k :: i <= k < |s| ==> !ItalicAt(s, k)
    ensures Italics(s, i, last) == [Part(s[last..], false)]
    decreases |s| - i
  {
    hide ItalicAt;
    if i < |s| { NoItalic(s, i + 1, last); }
  }

  lemma {:induction false} ItalicFirst(s: string, i: nat, k: nat, last: nat)
    requires last <= i <= k < |s| && ItalicAt(s, k) && forall j :: i <= j < k ==> !ItalicAt(s, j)
    ensures var e := NextScore(s, k + 1); Italics(s, i, last) == [Part(s[last..k], false), Part(s[k+1..e], true)] + Italics(s, e + 1, e + 1)
    decreases k - i
  {
    hide ItalicAt, NextScore;
    NextInside(s, k);
    if i < k { ItalicFirst(s, i + 1, k, last); }
  }

  lemma {:induction false} NextInside(s: string, k: nat)
    requires k < |s| && ItalicAt(s, k)
    ensures NextScore(s, k + 1) < |s|
  {}

  lemma {:induction false} NextScoreIs(s: string, j: nat, e: nat)
    requires j <= e <= |s| && (forall k :: j <= k < e ==> s[k] != '_') && (e < |s| ==> s[e] == '_')
    ensures NextScore(s, j) == e
    decreases e - j
  {
    if j < e { NextScoreIs(s, j + 1, e); }
  }

  lemma {:induction false} OnlyScores(s: string, k: nat)
    requires k < |s| && ItalicAt(s, k)
    ensures s[k] == '_'
  {}

  /** Where the two "_" stand. */
  lemma {:induction false} TwoScores(a: string, t: string, b: string)
    requires Free(a, '_') && Free(t, '_') && Free(b, '_')
    ensures var s := a + "_" + t + "_" + b; var i := |a|; var j := i + 1 + |t|;
            && |s| == j + 1 + |b| && s[i] == '_' && s[j] == '_' && s[..i] == a && s[i+1..j] == t && s[j+1..] == b
            && (forall k :: 0 <= k < |s| && k != i && k != j ==> s[k] != '_')
            && (i > 0 ==> s[i-1] == a[i-1]) && (b != "" ==> s[j+1] == b[0])
  {
    var s := a + "_" + t + "_" + b;
    var i := |a|;
    var j := i + 1 + |t|;
    assert s[..i] == a && s[i+1..j] == t && s[j+1..] == b;
    forall k | 0 <= k < |s| && k != i && k != j ensures s[k] != '_' {
      if k < i { assert s[k] == a[k]; } else if k < j { assert s[k] == t[k-i-1]; } else { assert s[k] == b[k-j-1]; }
    }
  }

  /** Two "_" mark the text between them if and only if they stand at the borders of words and the text is tight. */
  lemma {:induction false} ScoresMark(a: string, t: string, b: string)
    requires Free(a, '_') && Free(t, '_') && Free(b, '_')
    ensures var s := a + "_" + t + "_" + b;
            Italics(s, 0, 0) == if WordStart(a) && Tight(t) && WordEnd(b) then [Part(a, false), Part(t, true), Part(b, false)] else [Part(s, false)]
  {
    hide IsUnicodeSpace, ItalicAt, NextScore, Italics, WordStart, WordEnd, Tight, Free;
    var s := a + "_" + t + "_" + b;
    var i := |a|;
    var j := i + 1 + |t|;
    TwoScores(a, t, b);
    NextScoreIs(s, i + 1, j);
    NextScoreIs(s, j + 1, |s|);
    FirstScore(s, i, j, a, t, b);
    LastScore(s, j);
    forall k | 0 <= k < |s| && k != i ensures !ItalicAt(s, k) { if ItalicAt(s, k) { OnlyScores(s, k); } }
    if ItalicAt(s, i) {
      ItalicFirst(s, 0, i, 0);
      NoItalic(s, j + 1, j + 1);
      assert s[0..i] == a;
    } else {
      NoItalic(s, 0, 0);
      assert s[0..] == s;
    }
  }

  lemma {:induction false} FirstScore(s: string, i: nat, j: nat, a: string, t: string, b: string)
    requires i == |a| && j == i + 1 + |t| && |s| == j + 1 + |b| && s[i] == '_' && s[i+1..j] == t && NextScore(s, i + 1) == j
    requires (i > 0 ==> s[i-1] == a[i-1]) && (b != "" ==> s[j+1] == b[0])
    ensures ItalicAt(s, i) <==> WordStart(a) && Tight(t) && WordEnd(b)
  {
    hide IsUnicodeSpace, NextScore;
  }

  lemma {:induction false} LastScore(s: string, j: nat)
    requires j < |s| && NextScore(s, j + 1) == |s|
    ensures !ItalicAt(s, j)
  {}

  // ---- "**" ----

  lemma {:induction false} NoBold(s: string, i: nat, last: nat)
    requires last <= i && last <= |s| && forall k :: i <= k < |s| ==> !(Stars(s, k) && BoldEnd(s, k).Some?)
    ensures Bolds(s, i, last) == [Part(s[last..], false)]
    decreases |s| - i
  {
    hide Stars, BoldEnd;
    if i < |s| { NoBold(s, i + 1, last); }
  }

  lemma {:induction false} BoldFirst(s: string, i: nat, k: nat, last: nat)
    requires last <= i <= k < |s| && Stars(s, k) && BoldEnd(s, k).Some? && forall j :: i <= j < k ==> !(Stars(s, j) && BoldEnd(s, j).Some?)
    ensures var e := BoldEnd(s, k).value;
            k + 3 <= e && e + 2 <= |s| && Bolds(s, i, last) == [Part(s[last..k], false), Part(s[k+2..e], true)] + Bolds(s, e + 2, e + 2)
    decreases k - i
  {
    hide Stars, BoldEnd, Bolds;
    BoldFits(s, k);
    if i < k {
      BoldPassed(s, i, last);
      BoldFirst(s, i + 1, k, last);
    } else {
      BoldHere(s, k, last);
    }
  }

  lemma {:induction false} BoldHere(s: string, k: nat, last: nat)
    requires last <= k < |s| && Stars(s, k) && BoldEnd(s, k).Some?
    requires var e := BoldEnd(s, k).value; k + 3 <= e && e + 2 <= |s|
    ensures var e := BoldEnd(s, k).value;
            Bolds(s, k, last) == [Part(s[last..k], false), Part(s[k+2..e], true)] + Bolds(s, e + 2, e + 2)
  {
    hide Stars, BoldEnd;
  }

  lemma {:induction false} BoldPassed(s: string, i: nat, last: nat)
    requires last <= i < |s| && !(Stars(s, i) && BoldEnd(s, i).Some?)
    ensures Bolds(s, i, last) == Bolds(s, i + 1, last)
  {
    hide Stars, BoldEnd;
  }

  lemma {:induction false} BoldFits(s: string, k: nat)
    requires k < |s| && Stars(s, k) && BoldEnd(s, k).Some?
    ensures k + 3 <= BoldEnd(s, k).value && BoldEnd(s, k).value + 2 <= |s|
  {}

  lemma {:induction false} LeastCloserIs(s: string, j: nat, e: nat)
    requires j <= e && CloserAt(s, e) && forall k :: j <= k < e ==> !CloserAt(s, k)
    ensures LeastCloser(s, j) == Some(e)
    decreases e - j
  {
    hide CloserAt;
    if j < e {
      CloserInside(s, e);
      LeastCloserIs(s, j + 1, e);
    } else {
      CloserInside(s, e);
    }
  }

  lemma {:induction false} CloserInside(s: string, e: nat)
    requires CloserAt(s, e)
    ensures e < |s|
  {}

  lemma {:induction false} NoCloser(s: string, j: nat)
    requires forall k :: j <= k ==> !CloserAt(s, k)
    ensures LeastCloser(s, j) == None
  {
    hide CloserAt;
  }

  /** Where the stars stand. */
  lemma {:induction false} FourStars(a: string, t: string, b: string)
    requires Free(a, '*') && Free(t, '*') && Free(b, '*') && t != ""
    ensures var s := a + "**" + t + "**" + b; var i := |a|; var j := i + 2 + |t|;
            && |s| == j + 2 + |b| && s[..i] == a && s[i+2..j] == t && s[j+2..] == b && s[i+2] == t[0] && s[j-1] == t[|t|-1]
            && (forall k :: Stars(s, k) <==> k == i || k == j)
  {
    var s := a + "**" + t + "**" + b;
    var i := |a|;
    var j := i + 2 + |t|;
    assert s[..i] == a && s[i+2..j] == t && s[j+2..] == b;
    forall k: nat | k < |s| ensures s[k] == '*' <==> k == i || k == i + 1 || k == j || k == j + 1 {
      if k < i { assert s[k] == a[k]; } else if i + 2 <= k < j { assert s[k] == t[k-i-2]; } else if k >= j + 2 { assert s[k] == b[k-j-2]; }
    }
  }

  /** Two "**" mark the text between them if and only if it has no space at its ends. */
  lemma {:induction false} StarsMark(a: string, t: string, b: string)
    requires Free(a, '*') && Free(t, '*') && Free(b, '*') && t != ""
    ensures var s := a + "**" + t + "**" + b;
            Bolds(s, 0, 0) == if Tight(t) then [Part(a, false), Part(t, true), Part(b, false)] else [Part(s, false)]
  {
    hide IsUnicodeSpace, Stars, BoldEnd, LeastCloser, Bolds;
    var s := a + "**" + t + "**" + b;
    var i := |a|;
    var j := i + 2 + |t|;
    FourStars(a, t, b);
    BoldOpens(s, i, j, t);
    BoldNot(s, i, j);
    if Tight(t) {
      BoldFirst(s, 0, i, 0);
      NoBold(s, j + 2, j + 2);
      assert s[0..i] == a;
    } else {
      NoBold(s, 0, 0);
      assert s[0..] == s;
    }
  }

  lemma {:induction false} BoldOpens(s: string, i: nat, j: nat, t: string)
    requires t != "" && j == i + 2 + |t| && j + 2 <= |s| && s[i+2] == t[0] && s[j-1] == t[|t|-1] && forall k :: Stars(s, k) <==> k == i || k == j
    ensures BoldEnd(s, i) == if Tight(t) then Some(j) else None
  {
    hide IsUnicodeSpace, Stars, LeastCloser;
    if !IsUnicodeSpace(t[|t|-1]) { LeastCloserIs(s, i + 3, j); } else { NoCloser(s, i + 3); }
  }

  lemma {:induction false} BoldNot(s: string, i: nat, j: nat)
    requires i <= j && j + 2 <= |s| && forall k :: Stars(s, k) <==> k == i || k == j
    ensures BoldEnd(s, j) == None
  {
    hide IsUnicodeSpace, Stars, LeastCloser;
    NoCloser(s, j + 3);
  }

  // ---- bare links ----

  /** Where a link run ends: white space and these signs. */
  predicate LinkBreak(c: char) { IsUnicodeSpace(c) || IsWS(c) || c in "<>\"'`" }

  predicate Punct(c: char) { c in ".,;:!?)]}\U{bb}\U{201d}\U{2019}" }

  lemma {:induction false} RunEndIs(s: string, e: nat, f: nat)
    requires e <= f <= |s| && (forall k :: e <= k < f ==> !LinkBreak(s[k])) && (f < |s| ==> LinkBreak(s[f]))
    ensures RunEnd(s, e) == f
    decreases f - e
  {
    hide IsUnicodeSpace, IsWS;
    if e < f { RunEndIs(s, e + 1, f); }
  }

  lemma {:induction false} CutPunctIs(s: string, i: nat, e: nat, f: nat)
    requires i < f <= e <= |s| && (forall k :: f <= k < e ==> Punct(s[k])) && !Punct(s[f-1])
    ensures CutPunct(s, i, e) == f
    decreases e - f
  {
    if f < e { CutPunctIs(s, i, e - 1, f); }
  }

  /** Behind text that starts no link. */
  lemma {:induction false} ScanTo(s: string, strong: bool, em: bool, i: nat, k: nat, last: nat, st: Links, clean: Clean)
    requires last <= i <= k && k + 8 <= |s| && st.budget > 0 && forall j :: i <= j < k ==> !HttpsAt(s, j)
    ensures LinkScan(s, strong, em, i, last, st, clean) == LinkScan(s, strong, em, k, last, st, clean)
    decreases k - i
  {
    hide HttpsAt;
    if i < k { ScanTo(s, strong, em, i + 1, k, last, st, clean); }
  }

  /**
   * A bare link: from "https://" to the next break, without the punctuation at its end. When the link check accepts it, it becomes a
   * link with that text; what stands before and after is text of the same marks.
   */
  lemma {:induction false} BareLink(a: string, l: string, p: string, b: string, strong: bool, em: bool, st: Links, clean: Clean)
    requires |l| > 8 && HttpsAt(l, 0) && (forall k :: 0 <= k < |l| ==> !LinkBreak(l[k])) && !Punct(l[|l|-1])
    requires (forall k :: 0 <= k < |p| ==> Punct(p[k]) && !LinkBreak(p[k])) && (b != "" ==> LinkBreak(b[0]))
    requires (forall k :: 0 <= k < |a| ==> !HttpsAt(a + l + p + b, k)) && st.budget > 0 && clean(l).Some?
    ensures var s := a + l + p + b;
            var e := |a| + |l|;
            LinkScan(s, strong, em, 0, 0, st, clean).0 ==
              (if a == "" then [] else [Run(a, Marks(strong, em, false, ""), 0)])
              + [Run(l, Marks(strong, em, false, clean(l).value), st.last + 1)]
              + LinkScan(s, strong, em, e, e, Links(st.budget - 1, st.last + 1), clean).0
  {
    hide HttpsAt, LinkBreak, Punct, LinkScan, RunEnd, CutPunct;
    var s := a + l + p + b;
    var i := |a|;
    var e := i + |l|;
    LinkParts(a, l, p, b);
    HttpsHere(s, i, l);
    ScanTo(s, strong, em, 0, i, 0, st, clean);
    RunEndIs(s, i + 8, e + |p|);
    CutPunctIs(s, i, e + |p|, e);
    var end := ScanLinks(s, strong, em, i, 0, st, clean);
    assert s[0..i] == a;
  }

  lemma {:induction false} LinkParts(a: string, l: string, p: string, b: string)
    ensures var s := a + l + p + b; var i := |a|; var e := i + |l|;
            && s[..i] == a && s[i..e] == l && (forall k :: i <= k < e ==> s[k] == l[k-i]) && (forall k :: e <= k < e + |p| ==> s[k] == p[k-e])
            && (b != "" ==> s[e+|p|] == b[0]) && |s| == e + |p| + |b|
  {}

  lemma {:induction false} HttpsHere(s: string, i: nat, l: string)
    requires |l| > 8 && i + |l| <= |s| && s[i..i+|l|] == l && HttpsAt(l, 0)
    ensures HttpsAt(s, i)
  {
    hide R.Lower;
    assert s[i..i+8] == l[0..8];
  }

  // ---- lines of lists ----

  /** White space, and a text that does not begin with any. */
  predicate Gap(gap: string, body: string) { gap != "" && AllOf(gap, IsWS) && body != "" && !IsWS(body[0]) }

  lemma {:induction false} GapTrims(t: string, gap: string, body: string)
    requires t == gap + body && Gap(gap, body)
    ensures StartsWithWS(t) && TrimLeft(t, IsWS) == body != ""
  {
    LeftGone(gap, body, IsWS);
  }

  lemma {:induction false} GapCut(t: string) returns (gap: string)
    requires StartsWithWS(t) && TrimLeft(t, IsWS) != ""
    ensures t == gap + TrimLeft(t, IsWS) && Gap(gap, TrimLeft(t, IsWS))
  {
    hide IsWS;
    gap := LeftCut(t, IsWS);
    LeftFirst(t);
  }

  lemma {:induction false} LeftFirst(t: string)
    ensures TrimLeft(t, IsWS) != "" ==> !IsWS(TrimLeft(t, IsWS)[0])
  {
    hide IsWS;
    if t != "" && IsWS(t[0]) { LeftFirst(t[1..]); }
  }

  predicate BulletLine(line: string, mark: char, gap: string, body: string) {
    line == [mark] + (gap + body) && mark in "-*\U{2022}" && Gap(gap, body)
  }

  /** A bullet: one of three signs, white space, and the text of the item. */
  lemma {:induction false} BulletExactly(line: string, body: string)
    ensures Classify(line) == Class(Bullet, body, 0) <==> exists mark, gap :: BulletLine(line, mark, gap, body)
  {
    hide IsWS, NumberBody, TrimLeft, StartsWithWS, Gap;
    if Classify(line) == Class(Bullet, body, 0) {
      var gap := GapCut(line[1..]);
      assert line == [line[0]] + line[1..];
      assert BulletLine(line, line[0], gap, body);
    }
    if mark, gap :| BulletLine(line, mark, gap, body) {
      assert line[1..] == gap + body;
      GapTrims(gap + body, gap, body);
    }
  }

  predicate AllDigits(s: string) { forall i :: 0 <= i < |s| ==> IsDigit(s[i]) }

  lemma {:induction false} DigitsEnd(line: string, i: nat)
    requires i <= |line| && i <= 3
    ensures var d := Digits(line, i); d > i ==> line[0] != '0'
  {}

  lemma {:induction false} DigitsIs(line: string, i: nat, d: nat)
    requires i <= d <= |line| && d <= 3 && line != "" && line[0] != '0' && (forall k :: i <= k < d ==> IsDigit(line[k]))
    requires d == |line| || !IsDigit(line[d])
    ensures Digits(line, i) == d
    decreases d - i
  {
    if i < d { DigitsIs(line, i + 1, d); }
  }

  /** Digits without a leading zero are the numeral of their value. */
  lemma {:induction false} ValueNumeral(s: string)
    requires s != "" && AllDigits(s) && s[0] != '0'
    ensures 0 < Value(s) < Entities.Power(10, |s|) && Entities.Numeral(Value(s), 10) == s
  {
    hide Entities.Numeral;
    var q, c := s[..|s|-1], s[|s|-1];
    assert s == q + [c] && IsDigit(c);
    if q != "" { ValueNumeral(q); }
    LastValue(q, c);
  }

  lemma {:induction false} LastValue(q: string, c: char)
    requires AllDigits(q) && IsDigit(c) && (q == "" ==> c != '0')
    requires q != "" ==> 0 < Value(q) < Entities.Power(10, |q|) && Entities.Numeral(Value(q), 10) == q
    ensures var s := q + [c];
            AllDigits(s) && 0 < Value(s) < Entities.Power(10, |s|) && Entities.Numeral(Value(s), 10) == s
  {
    hide Entities.Numeral, Value, Entities.Power;
    ValueSnoc(q, c);
    PowerMore(|q|);
    NumeralSnoc(Value(q), c as int - '0' as int);
    assert Entities.DIGITS[c as int - '0' as int] == c;
  }

  lemma {:induction false} ValueSnoc(q: string, c: char)
    requires AllDigits(q) && IsDigit(c)
    ensures AllDigits(q + [c]) && Value(q + [c]) == 10 * Value(q) + (c as int - '0' as int) && Value("") == 0
  {
    assert (q + [c])[..|q|] == q;
  }

  lemma {:induction false} PowerMore(k: nat)
    ensures Entities.Power(10, k + 1) == 10 * Entities.Power(10, k) && Entities.Power(10, 0) == 1
  {}

  lemma {:induction false} NumeralSnoc(m: nat, d: nat)
    requires d < 10
    ensures Entities.Numeral(10 * m + d, 10) == (if m == 0 then "" else Entities.Numeral(m, 10)) + [Entities.DIGITS[d]]
  {
    assert (10 * m + d) / 10 == m && (10 * m + d) % 10 == d;
  }

  lemma {:induction false} DigitIs(d: nat)
    requires d < 10
    ensures var c := Entities.DIGITS[d]; IsDigit(c) && c as int == '0' as int + d && (d > 0 ==> c != '0')
  {}

  lemma {:induction false} NumeralValue(n: nat)
    requires n > 0
    ensures var s := Entities.Numeral(n, 10); AllDigits(s) && s[0] != '0' && Value(s) == n
  {
    hide Entities.Numeral, Value;
    var m, d := n / 10, n % 10;
    if m > 0 { NumeralValue(m); }
    NumeralSnoc(m, d);
    DigitIs(d);
    ValueSnoc(if m == 0 then "" else Entities.Numeral(m, 10), Entities.DIGITS[d]);
  }

  /** The digits at the start of a line are the numeral of their number. */
  lemma {:induction false} NumeralOf(line: string)
    requires Digits(line, 0) > 0
    ensures var s := line[..Digits(line, 0)]; 0 < Value(s) < 1000 && s == Entities.Numeral(Value(s), 10)
  {
    hide Entities.Numeral, Value, Digits;
    var s := line[..Digits(line, 0)];
    DigitsEnd(line, 0);
    ValueNumeral(s);
    assert Entities.Power(10, 3) == 1000 && Entities.Power(10, 2) == 100;
  }

  /** A numeral at the start of a line is read as its number. */
  lemma {:induction false} NumeralDigits(n: nat, rest: string)
    requires 0 < n < 1000 && rest != "" && rest[0] == '.'
    ensures var s := Entities.Numeral(n, 10); var line := s + rest;
            Digits(line, 0) == |s| && line[..|s|] == s && Value(s) == n && AllDigits(s) && line[|s|] == '.'
  {
    hide Entities.Numeral, Value, Digits;
    var s := Entities.Numeral(n, 10);
    NumeralValue(n);
    assert Entities.Power(10, 3) == 1000;
    Entities.NumeralSize(n, 10, 3);
    DigitsIs(s + rest, 0, |s|);
  }

  predicate NumberLine(line: string, n: nat, gap: string, body: string) {
    line == Entities.Numeral(n, 10) + ("." + (gap + body)) && 0 < n < 1000 && Gap(gap, body)
  }

  /** A number line: a number from 1 to 999 without leading zeros, a period, white space, and the text of the item. */
  lemma {:induction false} NumberExactly(line: string, n: nat, body: string)
    ensures Classify(line) == Class(Number, body, n) <==> exists gap :: NumberLine(line, n, gap, body)
  {
    hide IsWS, TrimLeft, StartsWithWS, Gap, Digits, Value, Entities.Numeral, BulletBody;
    var k := Digits(line, 0);
    if Classify(line) == Class(Number, body, n) {
      var gap := GapCut(line[k+1..]);
      NumeralOf(line);
      assert line == line[..k] + ("." + line[k+1..]);
      assert NumberLine(line, n, gap, body);
    }
    if gap :| NumberLine(line, n, gap, body) {
      NumeralDigits(n, "." + (gap + body));
      var d := |Entities.Numeral(n, 10)|;
      assert line[..d] == Entities.Numeral(n, 10) && line[d+1..] == gap + body;
      GapTrims(gap + body, gap, body);
      NoBullet(line);
    }
  }

  lemma {:induction false} NoBullet(line: string)
    requires line != "" && IsDigit(line[0])
    ensures BulletBody(line) == None
  {}
}
