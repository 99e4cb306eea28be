// The character policy of the rich text (apps/rich-editor/src/chars.ts). A character is a Unicode
// scalar value: Dafny's `char` has no surrogates, so the lone halves the source cuts do not occur.

module Base {
  datatype Option<+T> = None | Some(value: T)

  predicate Distinct<T(==)>(s: seq<T>) {
    forall i, j :: 0 <= i < j < |s| ==> s[i] != s[j]
  }

  predicate IsDigit(c: char) { '0' <= c <= '9' }

  /** The text from its first character outside the class on. */
  function TrimLeft(s: string, p: char -> bool): string {
    if s != "" && p(s[0]) then TrimLeft(s[1..], p) else s
  }

  /** The text up to its last character outside the class. */
  function TrimRight(s: string, p: char -> bool): string {
    if s != "" && p(s[|s|-1]) then TrimRight(s[..|s|-1], p) else s
  }

  predicate AllOf(s: string, p: char -> bool) { forall i :: 0 <= i < |s| ==> p(s[i]) }

  /** The text is `s` with characters of the class before and behind. */
  ghost predicate Around(text: string, s: string, p: char -> bool) {
    exists left, right :: Surrounds(text, left, s, right, p)
  }

  predicate Surrounds(text: string, left: string, s: string, right: string, p: char -> bool) {
    text == left + s + right && AllOf(left, p) && AllOf(right, p)
  }

  lemma {:induction false} LeftCut(s: string, p: char -> bool) returns (left: string)
    ensures s == left + TrimLeft(s, p) && AllOf(left, p)
  {
    if s == "" || !p(s[0]) {
      left := "";
    } else {
      var rest := LeftCut(s[1..], p);
      left := [s[0]] + rest;
      SeqAssoc([s[0]], rest, TrimLeft(s[1..], p));
      assert s == [s[0]] + s[1..];
    }
  }

  lemma {:induction false} RightCut(s: string, p: char -> bool) returns (right: string)
    ensures s == TrimRight(s, p) + right && AllOf(right, p)
  {
    if s == "" || !p(s[|s|-1]) {
      right := "";
    } else {
      var rest := RightCut(s[..|s|-1], p);
      right := rest + [s[|s|-1]];
      SeqAssoc(TrimRight(s[..|s|-1], p), rest, [s[|s|-1]]);
      assert s == s[..|s|-1] + [s[|s|-1]];
    }
  }

  lemma {:induction false} LeftGone(left: string, s: string, p: char -> bool)
    requires AllOf(left, p) && (s == "" || !p(s[0]))
    ensures TrimLeft(left + s, p) == s
  {
    if left == "" {
      assert left + s == s;
    } else {
      assert (left + s)[1..] == left[1..] + s;
      LeftGone(left[1..], s, p);
    }
  }

  lemma {:induction false} RightGone(s: string, right: string, p: char -> bool)
    requires AllOf(right, p) && (s == "" || !p(s[|s|-1]))
    ensures TrimRight(s + right, p) == s
    decreases |right|
  {
    if right == "" {
      assert s + right == s;
    } else {
      assert (s + right)[..|s + right|-1] == s + right[..|right|-1];
      RightGone(s, right[..|right|-1], p);
    }
  }

  /** Trimming cuts exactly the characters of the class at both ends. */
  lemma {:induction false} TrimAround(text: string, s: string, p: char -> bool)
    requires s != "" && !p(s[0]) && !p(s[|s|-1])
    ensures TrimRight(TrimLeft(text, p), p) == s <==> Around(text, s, p)
  {
    hide TrimLeft, TrimRight;
    if TrimRight(TrimLeft(text, p), p) == s {
      var left := LeftCut(text, p);
      var right := RightCut(TrimLeft(text, p), p);
      assert text == left + s + right;
      assert Surrounds(text, left, s, right, p);
    }
    if Around(text, s, p) {
      var left, right :| Surrounds(text, left, s, right, p);
      assert text == left + (s + right);
      LeftGone(left, s + right, p);
      RightGone(s, right, p);
    }
  }

  lemma {:induction false} SeqAssoc<T>(a: seq<T>, b: seq<T>, c: seq<T>)
    ensures (a + b) + c == a + (b + c)
  {}

  lemma {:induction false} SubsetSize<T>(a: set<T>, b: set<T>)
    requires a <= b
    ensures |a| <= |b|
  {
    assert b == a + (b - a);
  }
}

module Chars {
  datatype CharAction = Plain | Keep | Strip | Refuse | LineSep | ParaSep

  function CharPolicy(c: char): CharAction {
    var cp := c as int;
    if cp in {0x09, 0x0a, 0x0d, 0x0c} then Plain
    else if cp in {0x200e, 0x200f, 0x061c, 0x200c, 0x200d, 0x00ad} then Keep
    else if cp in {0x2066, 0x2067, 0x2068, 0x2069, 0xfeff, 0x200b, 0x2060} then Strip
    else if cp == 0x2028 then LineSep
    else if cp == 0x2029 then ParaSep
    else if cp == 0x180e then Refuse
    else if cp <= 0x1f || 0x7f <= cp <= 0x9f then Refuse
    else if 0x202a <= cp <= 0x202e then Refuse
    else if 0x2061 <= cp <= 0x2064 then Refuse
    else if 0xfff9 <= cp <= 0xfffb then Refuse
    else if 0xe0000 <= cp <= 0xe007f then Refuse
    else Plain
  }

  /** The sanitizer's plain space. */
  predicate IsWS(c: char) {
    c as int in {0x20, 0x09, 0x0a, 0x0d, 0x0c, 0xa0, 0x2007, 0x202f, 0x2028, 0x2029}
  }

  predicate IsUnicodeSpace(c: char) {
    var cp := c as int;
    if cp <= 0xff then cp == 0x20 || 0x09 <= cp <= 0x0d || cp == 0x85 || cp == 0xa0
    else cp == 0x1680 || 0x2000 <= cp <= 0x200a || cp in {0x2028, 0x2029, 0x202f, 0x205f, 0x3000}
  }

  predicate IsSpaceText(s: string) {
    forall i :: 0 <= i < |s| ==> IsWS(s[i])
  }

  /** A character that may reach a stored text. */
  predicate Allowed(c: char) {
    CharPolicy(c) != Refuse && CharPolicy(c) != Strip
  }

  predicate AllowedText(s: string) {
    forall i :: 0 <= i < |s| ==> Allowed(s[i])
  }

  /** The characters of `s` the policy lets through, in order. */
  function StripForbidden(s: string): (r: string)
    ensures AllowedText(r)
    ensures AllowedText(s) ==> r == s
  {
    if s == [] then []
    else if Allowed(s[0]) then [s[0]] + StripForbidden(s[1..])
    else StripForbidden(s[1..])
  }

  /** The characters of `s` that are neither refused, stripped nor white space. */
  function InkOf(s: string): seq<char> {
    if s == [] then []
    else (if Allowed(s[0]) && !IsWS(s[0]) then [s[0]] else []) + InkOf(s[1..])
  }

  lemma {:induction false} InkOfStrip(s: string)
    ensures InkOf(StripForbidden(s)) == InkOf(s)
  {
    if s != [] {
      InkOfStrip(s[1..]);
      if Allowed(s[0]) {
        assert ([s[0]] + StripForbidden(s[1..]))[1..] == StripForbidden(s[1..]);
      }
    }
  }

  lemma {:induction false} InkOfConcat(s: string, t: string)
    ensures InkOf(s + t) == InkOf(s) + InkOf(t)
  {
    hide Allowed, IsWS;
    if s == [] {
      assert s + t == t;
    } else {
      InkOfConcat(s[1..], t);
      assert (s + t)[1..] == s[1..] + t;
      var h := if Allowed(s[0]) && !IsWS(s[0]) then [s[0]] else [];
      assert h + (InkOf(s[1..]) + InkOf(t)) == (h + InkOf(s[1..])) + InkOf(t);
    }
  }
}
