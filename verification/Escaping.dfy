// The reader undoes the escaping of the writer: `decodeEntities` (apps/admin-web/src/lib/richtext.ts:74-82) after
// `escapeText` and `escapeAttr` (apps/rich-editor/src/model.ts:140-146), on every string.

module Escaping {
  import opened Base
  import opened Markup
  import opened Reader

  lemma {:induction false} ReplaceConcat(a: string, b: string, c: char, rep: string)
    ensures ReplaceAll(a + b, c, rep) == ReplaceAll(a, c, rep) + ReplaceAll(b, c, rep)
  {
    if a == [] {
      assert a + b == b;
    } else {
      ReplaceConcat(a[1..], b, c, rep);
      assert (a + b)[1..] == a[1..] + b;
      SeqAssoc(if a[0] == c then rep else [a[0]], ReplaceAll(a[1..], c, rep), ReplaceAll(b, c, rep));
    }
  }

  lemma {:induction false} ReplaceNone(s: string, c: char, rep: string)
    requires c !in s
    ensures ReplaceAll(s, c, rep) == s
  {
    if s != [] { ReplaceNone(s[1..], c, rep); }
  }

  lemma {:induction false} ReplaceOne(c: char, rep: string)
    ensures ReplaceAll([c], c, rep) == rep
  {
    assert ReplaceAll([c], c, rep) == rep + ReplaceAll([c][1..], c, rep);
  }

  /** What one character is written as in text, and in an attribute value when `attr`. */
  function EscapeChar(c: char, attr: bool): string {
    if c == '&' then "&amp;"
    else if c == '<' then "&lt;"
    else if c == '>' then "&gt;"
    else if attr && c == '"' then "&quot;"
    else [c]
  }

  function Escape(s: string, attr: bool): string {
    if attr then EscapeAttr(s) else EscapeText(s)
  }

  lemma {:induction false} EscapeOne(c: char, attr: bool)
    ensures Escape([c], attr) == EscapeChar(c, attr)
  {
    hide ReplaceAll;
    var r := EscapeChar(c, attr);
    if c == '&' {
      ReplaceOne('&', "&amp;");
      ReplaceNone(r, '<', "&lt;");
      ReplaceNone(r, '>', "&gt;");
      ReplaceNone(r, '"', "&quot;");
    } else {
      ReplaceNone([c], '&', "&amp;");
      if c == '<' {
        ReplaceOne('<', "&lt;");
        ReplaceNone(r, '>', "&gt;");
        ReplaceNone(r, '"', "&quot;");
      } else {
        ReplaceNone([c], '<', "&lt;");
        if c == '>' {
          ReplaceOne('>', "&gt;");
          ReplaceNone(r, '"', "&quot;");
        } else {
          ReplaceNone([c], '>', "&gt;");
          if c == '"' { ReplaceOne('"', "&quot;"); } else { ReplaceNone([c], '"', "&quot;"); }
        }
      }
    }
  }

  lemma {:induction false} EscapeConcat(a: string, b: string, attr: bool)
    ensures Escape(a + b, attr) == Escape(a, attr) + Escape(b, attr)
  {
    hide ReplaceAll;
    ReplaceConcat(a, b, '&', "&amp;");
    var a1, b1 := ReplaceAll(a, '&', "&amp;"), ReplaceAll(b, '&', "&amp;");
    ReplaceConcat(a1, b1, '<', "&lt;");
    var a2, b2 := ReplaceAll(a1, '<', "&lt;"), ReplaceAll(b1, '<', "&lt;");
    ReplaceConcat(a2, b2, '>', "&gt;");
    ReplaceConcat(ReplaceAll(a2, '>', "&gt;"), ReplaceAll(b2, '>', "&gt;"), '"', "&quot;");
  }

  lemma {:induction false} EscapeCons(s: string, attr: bool)
    requires s != []
    ensures Escape(s, attr) == EscapeChar(s[0], attr) + Escape(s[1..], attr)
  {
    hide Escape;
    assert s == [s[0]] + s[1..];
    EscapeConcat([s[0]], s[1..], attr);
    EscapeOne(s[0], attr);
  }

  lemma {:induction false} EscapeEmpty(attr: bool)
    ensures Escape("", attr) == ""
  {}

  lemma {:induction false} EscapeCharClean(c: char, attr: bool)
    ensures '<' !in EscapeChar(c, attr) && (attr ==> '"' !in EscapeChar(c, attr)) && EscapeChar(c, attr) != ""
  {}

  /** Neither a "<" nor, in an attribute, a quote is left; an escaped text is empty only when the text is. */
  lemma {:induction false} EscapeClean(s: string, attr: bool)
    ensures '<' !in Escape(s, attr) && (attr ==> '"' !in Escape(s, attr))
    ensures Escape(s, attr) == "" <==> s == ""
  {
    hide Escape, EscapeChar;
    if s == [] {
      EscapeEmpty(attr);
    } else {
      EscapeCons(s, attr);
      EscapeCharClean(s[0], attr);
      EscapeClean(s[1..], attr);
    }
  }

  /** An entity spelled out: a name of letters between "&" and ";". */
  lemma {:induction false} NamedAt(q: string, i: nat, name: string, text: string)
    requires i <= |q| && At(q, i, "&" + name + ";") && 2 <= |name| <= 8 && Named(name) == Some(text)
    requires forall k :: 0 <= k < |name| ==> IsLetter(name[k])
    ensures EntityAt(q, i) == Some(Entity(text, i + |name| + 2))
  {
    hide Named, Skip;
    NameChars(q, i, name);
    SkipTo(q, i + 1, i + 1 + |name|, IsAlnum);
  }

  lemma {:induction false} NameChars(q: string, i: nat, name: string)
    requires i <= |q| && At(q, i, "&" + name + ";")
    ensures i + |name| + 2 <= |q| && q[i] == '&' && q[i+|name|+1] == ';' && q[i+1..i+1+|name|] == name
    ensures forall k :: i + 1 <= k < i + 1 + |name| ==> q[k] == name[k-i-1]
  {
    var e, n := "&" + name + ";", |name|;
    assert forall k :: 0 <= k < n + 2 ==> q[i+k] == q[i..i+|e|][k] == e[k];
    assert forall k :: 0 <= k < n ==> q[i+1+k] == e[1+k] == name[k];
    assert q[i+1..i+1+n] == name;
  }

  /** One escaped character is read back in one step. */
  lemma {:induction false} DecodeChar(q: string, i: nat, c: char, attr: bool)
    requires i <= |q| && At(q, i, EscapeChar(c, attr))
    ensures DecodeFrom(q, i) == [c] + DecodeFrom(q, i + |EscapeChar(c, attr)|)
  {
    hide EntityAt, DecodeFrom;
    var e := EscapeChar(c, attr);
    if c == '&' {
      assert e == "&" + "amp" + ";";
      DecodeNamed(q, i, "amp", c);
    } else if c == '<' {
      assert e == "&" + "lt" + ";";
      DecodeNamed(q, i, "lt", c);
    } else if c == '>' {
      assert e == "&" + "gt" + ";";
      DecodeNamed(q, i, "gt", c);
    } else if attr && c == '"' {
      assert e == "&" + "quot" + ";";
      DecodeNamed(q, i, "quot", c);
    } else {
      DecodePlain(q, i, c);
    }
  }

  lemma {:induction false} DecodeNamed(q: string, i: nat, name: string, c: char)
    requires i <= |q| && At(q, i, "&" + name + ";") && 2 <= |name| <= 8 && Named(name) == Some([c])
    requires forall k :: 0 <= k < |name| ==> IsLetter(name[k])
    ensures DecodeFrom(q, i) == [c] + DecodeFrom(q, i + |name| + 2)
  {
    hide EntityAt, Named, IsLetter;
    NameChars(q, i, name);
    NamedAt(q, i, name, [c]);
  }

  lemma {:induction false} DecodePlain(q: string, i: nat, c: char)
    requires i <= |q| && At(q, i, [c]) && c != '&'
    ensures DecodeFrom(q, i) == [c] + DecodeFrom(q, i + 1)
  {
    hide EntityAt;
    assert q[i] == q[i..i+1][0] == c;
  }

  lemma {:induction false} DecodeEnd(q: string)
    ensures DecodeFrom(q, |q|) == ""
  {}

  lemma {:induction false} Split(q: string, i: nat, e: string, t: string)
    requires i <= |q| && q[i..] == e + t
    ensures At(q, i, e) && q[i+|e|..] == t
  {
    assert q[i..i+|e|] == q[i..][..|e|] == e;
    assert q[i+|e|..] == q[i..][|e|..] == t;
  }

  lemma {:induction false} DecodeEscaped(q: string, i: nat, s: string, attr: bool)
    requires i <= |q| && q[i..] == Escape(s, attr)
    ensures DecodeFrom(q, i) == s
    decreases |s|
  {
    hide Escape, EscapeChar, DecodeFrom, At;
    if s == [] {
      EscapeEmpty(attr);
      DecodeEnd(q);
    } else {
      var e := EscapeChar(s[0], attr);
      EscapeCons(s, attr);
      Split(q, i, e, Escape(s[1..], attr));
      DecodeChar(q, i, s[0], attr);
      DecodeEscaped(q, i + |e|, s[1..], attr);
    }
  }

  /** Decoding undoes escaping, in text and in attribute values. */
  lemma {:induction false} DecodeUndoesEscape(s: string)
    ensures DecodeEntities(EscapeText(s)) == s
    ensures DecodeEntities(EscapeAttr(s)) == s
  {
    hide EscapeText, EscapeAttr, DecodeFrom;
    assert EscapeText(s)[0..] == EscapeText(s) == Escape(s, false);
    assert EscapeAttr(s)[0..] == EscapeAttr(s) == Escape(s, true);
    DecodeEscaped(EscapeText(s), 0, s, false);
    DecodeEscaped(EscapeAttr(s), 0, s, true);
  }
}
