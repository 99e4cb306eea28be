// What an entity stands for (`decodeEntities`, apps/admin-web/src/lib/richtext.ts:64-86): the numeric ones their code point, in either
// radix, and the named ones of the table their character. Other names should stay as typed; the table is a plain object, and a
// lookup in it also finds the two methods every object has whose names fit the pattern.

module Entities {
  import opened Base
  import opened R = Reader
  import opened Escaping

  /** The named entities, with what they stand for. */
  const TEXTS: map<string, string> :=
    map["amp" := "&", "lt" := "<", "gt" := ">", "quot" := "\"", "apos" := "'", "nbsp" := "\U{a0}"]

  predicate Inherited(name: string) { name == "toString" || name == "valueOf" }

  /** A name the pattern of the source matches. */
  predicate EntityName(name: string) {
    2 <= |name| <= 8 && IsLetter(name[0]) && forall k :: 0 <= k < |name| ==> IsAlnum(name[k])
  }

  lemma {:induction false} NameReads(q: string, i: nat, name: string)
    requires i <= |q| && At(q, i, "&" + name + ";") && EntityName(name)
    ensures i < |q| && q[i] == '&'
    ensures EntityAt(q, i) == Some(Entity(if Named(name).Some? then Named(name).value else "&" + name + ";", i + |name| + 2))
  {
    hide Named, Skip;
    NameChars(q, i, name);
    SkipTo(q, i + 1, i + 1 + |name|, IsAlnum);
    assert q[i..i+|name|+2] == "&" + name + ";";
  }

  lemma {:induction false} DecodeAlone(name: string)
    requires EntityName(name)
    ensures var s := "&" + name + ";"; DecodeEntities(s) == if Named(name).Some? then Named(name).value else s
  {
    hide EntityAt, Named;
    var s := "&" + name + ";";
    assert s[0..|s|] == s;
    NameReads(s, 0, name);
    DecodeEnd(s);
    var t := if Named(name).Some? then Named(name).value else s;
    assert t + "" == t;
  }

  lemma {:induction false} NamedTexts(name: string)
    ensures Named(name).Some? <==> name in TEXTS || Inherited(name)
    ensures name in TEXTS ==> Named(name) == Some(TEXTS[name]) && EntityName(name)
    ensures Inherited(name) ==> Named(name) == Some("function " + name + "() { [native code] }")
  {}

  lemma {:induction false} Longer(name: string)
    ensures "function " + name + "() { [native code] }" != "&" + name + ";"
  {
    assert |"function " + name + "() { [native code] }"| > |"&" + name + ";"|;
  }

  /** An unknown entity stays as typed if and only if its name is not that of an inherited method. */
  lemma {:induction false} UnknownStays(name: string)
    requires EntityName(name) && name !in TEXTS
    ensures DecodeEntities("&" + name + ";") == "&" + name + ";" <==> name != "toString" && name != "valueOf"
  {
    hide DecodeEntities, Named;
    DecodeAlone(name);
    NamedTexts(name);
    Longer(name);
  }

  /** So the comment fails here. */
  lemma {:induction false} ToStringChanges()
    ensures DecodeEntities("&toString;") == "function toString() { [native code] }"
    ensures DecodeEntities("&toString;") != "&toString;"
  {
    hide DecodeEntities, Named;
    var name := "toString";
    assert "&" + name + ";" == "&toString;";
    assert "function " + name + "() { [native code] }" == "function toString() { [native code] }";
    DecodeAlone(name);
    NamedTexts(name);
    Longer(name);
  }

  /** A name of the table stands for its character. */
  lemma {:induction false} TableReads(name: string)
    requires name in TEXTS
    ensures DecodeEntities("&" + name + ";") == TEXTS[name]
  {
    hide DecodeEntities, Named;
    NamedTexts(name);
    DecodeAlone(name);
  }

  // ---- numerals ----

  const DIGITS := "0123456789abcdef"

  /** The usual writing of a number, in base 10 or 16. */
  function Numeral(n: nat, base: nat): (s: string)
    requires base == 10 || base == 16
    ensures s != ""
    decreases n
  {
    (if n < base then "" else Numeral(n / base, base)) + [DIGITS[n % base]]
  }

  function Zeros(k: nat): string { seq(k, _ => '0') }

  /** The same digit; a hexadecimal digit may be a capital letter. */
  predicate SameDigit(c: char, d: char) {
    c == d || (c in "ABCDEF" && c as int + 32 == d as int)
  }

  predicate SameDigits(s: string, t: string) {
    |s| == |t| && forall k :: 0 <= k < |s| ==> SameDigit(s[k], t[k])
  }

  predicate IsDigitOf(c: char, base: nat) { if base == 10 then IsDigit(c) else IsHex(c) }

  predicate AllDigitsOf(s: string, base: nat) { forall k :: 0 <= k < |s| ==> IsDigitOf(s[k], base) }

  /** `s` writes `n` in base 10, or in base 16 in either case, after any number of zeros. */
  ghost predicate Writes(s: string, n: nat, base: nat)
    requires base == 10 || base == 16
  {
    exists z :: WritesAfter(s, n, base, z)
  }

  predicate WritesAfter(s: string, n: nat, base: nat, z: nat)
    requires base == 10 || base == 16
  {
    var t := Zeros(z) + Numeral(n, base);
    if base == 10 then s == t else SameDigits(s, t)
  }

  lemma {:induction false} DigitOf(c: char, v: nat, base: nat)
    requires (base == 10 || base == 16) && v < base
    requires if base == 10 then c == DIGITS[v] else SameDigit(c, DIGITS[v])
    ensures IsHex(c) && IsDigitOf(c, base) && DigitVal(c) == v
  {}

  lemma {:induction false} DigitFor(c: char, base: nat) returns (v: nat)
    requires (base == 10 || base == 16) && IsDigitOf(c, base)
    ensures v < base && if base == 10 then c == DIGITS[v] else SameDigit(c, DIGITS[v])
  {
    v := if IsDigit(c) then c as int - '0' as int else if c <= 'F' then c as int - 'A' as int + 10 else c as int - 'a' as int + 10;
  }

  predicate Writing(s: string, n: nat, base: nat)
    requires base == 10 || base == 16
  {
    if base == 10 then s == Numeral(n, base) else SameDigits(s, Numeral(n, base))
  }

  /** The digits of a numeral have its value. */
  lemma {:induction false} NumberOfNumeral(s: string, n: nat, base: nat)
    requires (base == 10 || base == 16) && Writing(s, n, base)
    ensures AllDigitsOf(s, base) && (forall c | c in s :: IsHex(c)) && Number(s, base) == n
    decreases n
  {
    hide IsHex, IsDigitOf, DigitVal, SameDigit, Numeral, Number, Writing;
    LastDigit(s, n, base);
    var k := |s| - 1;
    var q := s[..k];
    if n < base {
      NumberNext("", s[k], base);
    } else {
      NumberOfNumeral(q, n / base, base);
      NumberNext(q, s[k], base);
      Parts(n, base);
    }
    assert s == q + [s[k]];
  }

  lemma {:induction false} Parts(n: nat, base: nat)
    requires base == 10 || base == 16
    ensures n / base * base + n % base == n
  {}

  lemma {:induction false} NumberNext(q: string, c: char, base: nat)
    requires base == 10 || base == 16
    requires (forall d | d in q :: IsHex(d)) && IsHex(c)
    ensures (forall d | d in q + [c] :: IsHex(d)) && Number(q + [c], base) == Number(q, base) * base + DigitVal(c) && Number("", base) == 0
  {
    hide IsHex, DigitVal;
    assert (q + [c])[..|q|] == q;
  }

  lemma {:induction false} LastDigit(s: string, n: nat, base: nat)
    requires (base == 10 || base == 16) && Writing(s, n, base)
    ensures s != "" && IsHex(s[|s|-1]) && IsDigitOf(s[|s|-1], base) && DigitVal(s[|s|-1]) == n % base
    ensures if n < base then s[..|s|-1] == "" else Writing(s[..|s|-1], n / base, base)
  {
    hide IsHex, IsDigitOf, DigitVal, SameDigit, DIGITS, Numeral;
    var t := Numeral(n, base);
    var k := |s| - 1;
    NumeralEnds(n, base);
    DigitOf(s[k], n % base, base);
  }

  lemma {:induction false} NumeralEnds(n: nat, base: nat)
    requires base == 10 || base == 16
    ensures n % base < |DIGITS|
    ensures var t := Numeral(n, base);
            t[|t|-1] == DIGITS[n % base] && t[..|t|-1] == if n < base then "" else Numeral(n / base, base)
  {}

  lemma {:induction false} LeadingZeros(s: string, z: nat, base: nat)
    requires (base == 10 || base == 16) && z <= |s| && (forall k :: 0 <= k < z ==> s[k] == '0') && forall c | c in s :: IsHex(c)
    ensures Number(s, base) == Number(s[z..], base)
    decreases |s|
  {
    hide IsHex;
    if z == |s| {
      if z > 0 {
        assert s[..z-1][z-1..] == "" == s[z..];
        LeadingZeros(s[..z-1], z - 1, base);
      }
    } else {
      var n := |s| - 1;
      LeadingZeros(s[..n], z, base);
      assert s[..n][z..] == s[z..][..n-z] && s[z..][n-z] == s[n];
    }
  }

  /** A writing has its value, whatever the zeros in front. */
  lemma {:induction false} WritingRead(s: string, n: nat, base: nat)
    requires (base == 10 || base == 16) && Writes(s, n, base)
    ensures s != "" && AllDigitsOf(s, base) && (forall c | c in s :: IsHex(c)) && Number(s, base) == n
  {
    hide IsHex, IsDigitOf, DigitVal, Number, Numeral;
    var z: nat :| WritesAfter(s, n, base, z);
    var q := s[z..];
    assert Writing(q, n, base);
    NumberOfNumeral(q, n, base);
    forall k | 0 <= k < |s| ensures IsDigitOf(s[k], base) && IsHex(s[k]) && (k < z ==> s[k] == '0') {
      if k < z { ZeroDigit(s[k], base); } else { assert s[k] == q[k-z] && q[k-z] in q; }
    }
    LeadingZeros(s, z, base);
  }

  lemma {:induction false} ZeroDigit(c: char, base: nat)
    requires (base == 10 || base == 16) && SameDigit(c, '0')
    ensures c == '0' && IsDigitOf(c, base) && IsHex(c)
  {}

  /** Every row of digits writes a number. */
  lemma {:induction false} EveryWriting(s: string, base: nat) returns (n: nat, z: nat)
    requires (base == 10 || base == 16) && s != "" && AllDigitsOf(s, base)
    ensures WritesAfter(s, n, base, z)
    decreases |s|
  {
    hide IsDigitOf, SameDigit, Numeral;
    var k := |s| - 1;
    var v := DigitFor(s[k], base);
    if k == 0 {
      n, z := v, 0;
      OneDigit(v, base);
      SameLast("", "", s[0], v, base);
    } else {
      var m;
      m, z := EveryWriting(s[..k], base);
      n := m * base + v;
      if m == 0 {
        OneDigit(0, base);
        OneDigit(v, base);
        MoreZeros(z, v);
        SameLast(s[..k], Zeros(z + 1), s[k], v, base);
        z := z + 1;
      } else {
        NextDigit(m, v, base);
        SameLast(s[..k], Zeros(z) + Numeral(m, base), s[k], v, base);
        SeqAssoc(Zeros(z), Numeral(m, base), [DIGITS[v]]);
      }
    }
  }

  lemma {:induction false} OneDigit(v: nat, base: nat)
    requires (base == 10 || base == 16) && v < base
    ensures Numeral(v, base) == [DIGITS[v]]
  {}

  lemma {:induction false} MoreZeros(z: nat, v: nat)
    ensures Zeros(z) + "0" == Zeros(z + 1)
  {}

  lemma {:induction false} NextDigit(m: nat, v: nat, base: nat)
    requires (base == 10 || base == 16) && v < base && m > 0
    ensures Numeral(m * base + v, base) == Numeral(m, base) + [DIGITS[v]]
  {
    hide Numeral, DIGITS;
    NextParts(m, v, base);
    NumeralEnds(m * base + v, base);
    var t := Numeral(m * base + v, base);
    assert t == t[..|t|-1] + [t[|t|-1]];
  }

  lemma {:induction false} NextParts(m: nat, v: nat, base: nat)
    requires (base == 10 || base == 16) && v < base && m > 0
    ensures m * base + v >= base && (m * base + v) / base == m && (m * base + v) % base == v
  {
    if base == 10 {
      assert (m * 10 + v) / 10 == m && (m * 10 + v) % 10 == v;
    } else {
      assert (m * 16 + v) / 16 == m && (m * 16 + v) % 16 == v;
    }
  }

  lemma {:induction false} SameLast(q: string, t: string, c: char, v: nat, base: nat)
    requires (base == 10 || base == 16) && v < base
    requires if base == 10 then q == t && c == DIGITS[v] else SameDigits(q, t) && SameDigit(c, DIGITS[v])
    ensures if base == 10 then q + [c] == t + [DIGITS[v]] else SameDigits(q + [c], t + [DIGITS[v]])
  {}

  // ---- numeric entities ----

  /** The character of a code point; U+FFFD where there is none. */
  function Character(n: nat): string {
    if 0 < n <= 0x10ffff && !(0xd800 <= n <= 0xdfff) then [n as char] else "\U{fffd}"
  }

  lemma {:induction false} CodePointIs(n: nat)
    ensures CodePoint(n) == Character(n)
  {}

  /** The characters of an entity, placed in a text. */
  lemma {:induction false} Placed(q: string, i: nat, head: string, ds: string)
    requires i <= |q| && At(q, i, head + ds + ";")
    ensures i + |head| + |ds| + 1 <= |q| && q[i+|head|+|ds|] == ';' && q[i+|head|..i+|head|+|ds|] == ds
    ensures forall k :: i <= k < i + |head| ==> q[k] == head[k-i]
    ensures forall k :: i + |head| <= k < i + |head| + |ds| ==> q[k] == ds[k-i-|head|]
  {
    var e := head + ds + ";";
    assert forall k :: 0 <= k < |e| ==> q[i+k] == q[i..i+|e|][k] == e[k];
    assert forall k :: 0 <= k < |ds| ==> q[i+|head|+k] == e[|head|+k] == ds[k];
  }

  lemma {:induction false} DecimalAt(q: string, i: nat, ds: string, n: nat)
    requires i <= |q| && At(q, i, "&#" + ds + ";") && |ds| <= 7 && Writes(ds, n, 10)
    ensures i < |q| && q[i] == '&' && EntityAt(q, i) == Some(Entity(Character(n), i + |ds| + 3))
  {
    hide Skip, Number, CodePoint, Character, Writes;
    Placed(q, i, "&#", ds);
    WritingRead(ds, n, 10);
    CodePointIs(n);
    assert forall k :: i + 2 <= k < i + 2 + |ds| ==> IsDigit(q[k]) by { DigitsPlaced(q, i + 2, ds, 10); }
    SkipTo(q, i + 2, i + 2 + |ds|, IsDigit);
    assert ds[0] == q[i+2];
  }

  lemma {:induction false} DigitsPlaced(q: string, i: nat, ds: string, base: nat)
    requires (base == 10 || base == 16) && AllDigitsOf(ds, base) && i + |ds| <= |q|
    requires forall k :: i <= k < i + |ds| ==> q[k] == ds[k-i]
    ensures forall k :: i <= k < i + |ds| ==> if base == 10 then IsDigit(q[k]) else IsHex(q[k])
  {}

  lemma {:induction false} HexAt(q: string, i: nat, x: char, ds: string, n: nat)
    requires i <= |q| && (x == 'x' || x == 'X') && At(q, i, "&#" + [x] + ds + ";") && |ds| <= 6 && Writes(ds, n, 16)
    ensures i < |q| && q[i] == '&' && EntityAt(q, i) == Some(Entity(Character(n), i + |ds| + 4))
  {
    hide Skip, Number, CodePoint, Character, Writes;
    Placed(q, i, "&#" + [x], ds);
    WritingRead(ds, n, 16);
    CodePointIs(n);
    DigitsPlaced(q, i + 3, ds, 16);
    SkipTo(q, i + 3, i + 3 + |ds|, IsHex);
  }

  /** A decimal entity stands for its character, with up to seven digits. */
  lemma {:induction false} DecimalReads(n: nat, ds: string)
    requires Writes(ds, n, 10) && |ds| <= 7
    ensures DecodeEntities("&#" + ds + ";") == Character(n)
  {
    hide EntityAt, Writes, Character;
    var s := "&#" + ds + ";";
    assert s[0..|s|] == s;
    DecimalAt(s, 0, ds, n);
    DecodeEnd(s);
    assert Character(n) + "" == Character(n);
  }

  /** So does a hexadecimal one, with either letter and digits of either case, up to six. */
  lemma {:induction false} HexReads(n: nat, ds: string, x: char)
    requires Writes(ds, n, 16) && |ds| <= 6 && (x == 'x' || x == 'X')
    ensures DecodeEntities("&#" + [x] + ds + ";") == Character(n)
  {
    hide EntityAt, Writes, Character;
    var s := "&#" + [x] + ds + ";";
    assert s[0..|s|] == s;
    HexAt(s, 0, x, ds, n);
    DecodeEnd(s);
    assert Character(n) + "" == Character(n);
  }

  function Power(base: nat, k: nat): nat {
    if k == 0 then 1 else base * Power(base, k - 1)
  }

  lemma {:induction false} NumeralSize(n: nat, base: nat, k: nat)
    requires (base == 10 || base == 16) && k > 0 && n < Power(base, k)
    ensures |Numeral(n, base)| <= k
    decreases k
  {
    if n >= base {
      Quotient(n, base, Power(base, k - 1));
      NumeralSize(n / base, base, k - 1);
    }
  }

  lemma {:induction false} Quotient(n: nat, base: nat, p: nat)
    requires (base == 10 || base == 16) && n < base * p
    ensures n / base < p
  {}

  lemma {:induction false} Powers()
    ensures Power(10, 7) == 10000000 && Power(16, 6) == 0x1000000
  {
    assert Power(10, 3) == 1000 && Power(16, 3) == 4096;
  }

  lemma {:induction false} NumeralWrites(n: nat, base: nat)
    requires base == 10 || base == 16
    ensures Writes(Numeral(n, base), n, base)
  {
    hide Numeral;
    assert Zeros(0) + Numeral(n, base) == Numeral(n, base);
    assert WritesAfter(Numeral(n, base), n, base, 0);
  }

  /** Every character has its two numeric entities; they stand for it alone. */
  lemma {:induction false} EveryCharacterReads(c: char)
    requires c != '\0'
    ensures DecodeEntities("&#" + Numeral(c as int, 10) + ";") == [c]
    ensures DecodeEntities("&#x" + Numeral(c as int, 16) + ";") == [c]
    ensures DecodeEntities("&#X" + Numeral(c as int, 16) + ";") == [c]
  {
    hide DecodeEntities, Numeral, Power, Writes;
    var n := c as int;
    Powers();
    NumeralSize(n, 10, 7);
    NumeralSize(n, 16, 6);
    NumeralWrites(n, 10);
    NumeralWrites(n, 16);
    DecimalReads(n, Numeral(n, 10));
    HexReads(n, Numeral(n, 16), 'x');
    HexReads(n, Numeral(n, 16), 'X');
    assert "&#" + ['x'] == "&#x" && "&#" + ['X'] == "&#X";
  }

  // ---- every text ----

  ghost predicate IsDecimal(w: string, t: string) {
    exists ds, n :: IsDecimalOf(w, t, ds, n)
  }

  ghost predicate IsDecimalOf(w: string, t: string, ds: string, n: nat) {
    w == "&#" + ds + ";" && |ds| <= 7 && Writes(ds, n, 10) && t == Character(n)
  }

  ghost predicate IsHexadecimal(w: string, t: string) {
    exists x, ds, n :: IsHexOf(w, t, x, ds, n)
  }

  ghost predicate IsHexOf(w: string, t: string, x: char, ds: string, n: nat) {
    w == "&#" + [x] + ds + ";" && (x == 'x' || x == 'X') && |ds| <= 6 && Writes(ds, n, 16) && t == Character(n)
  }

  predicate IsNamed(w: string, t: string) {
    exists name | name in TEXTS :: w == "&" + name + ";" && t == TEXTS[name]
  }

  /** `w` is an entity of the documentation, and `t` the text it stands for. */
  ghost predicate IsEntity(w: string, t: string) {
    IsDecimal(w, t) || IsHexadecimal(w, t) || IsNamed(w, t)
  }

  ghost predicate EntityTo(s: string, i: nat, j: nat, t: string) {
    i < j <= |s| && IsEntity(s[i..j], t)
  }

  /** Decoding as the comment says: every entity is replaced and everything else stays as typed. */
  ghost function DocumentedFrom(s: string, i: nat): string
    requires i <= |s|
    decreases |s| - i
  {
    if i == |s| then ""
    else if exists j, t :: EntityTo(s, i, j, t) then
      var j: nat, t :| EntityTo(s, i, j, t);
      t + DocumentedFrom(s, j)
    else [s[i]] + DocumentedFrom(s, i + 1)
  }

  ghost predicate NoEntity(s: string, i: nat) { !exists j, t :: EntityTo(s, i, j, t) }

  /** An entity of the documentation is read as the documentation says. */
  lemma {:induction false} SpelledReads(s: string, i: nat, j: nat, t: string)
    requires EntityTo(s, i, j, t)
    ensures s[i] == '&' && EntityAt(s, i) == Some(Entity(t, j))
  {
    hide EntityAt, Writes, Character;
    var w := s[i..j];
    if IsDecimal(w, t) {
      var ds, n: nat :| IsDecimalOf(w, t, ds, n);
      DecimalAt(s, i, ds, n);
    } else if IsHexadecimal(w, t) {
      var x, ds, n: nat :| IsHexOf(w, t, x, ds, n);
      HexAt(s, i, x, ds, n);
    } else {
      var name :| name in TEXTS && w == "&" + name + ";" && t == TEXTS[name];
      NamedTexts(name);
      NameReads(s, i, name);
    }
  }

  lemma {:induction false} DecimalSpelled(s: string, i: nat)
    requires i + 1 < |s| && s[i] == '&' && s[i+1] == '#' && !(i + 2 < |s| && (s[i+2] == 'x' || s[i+2] == 'X'))
    requires EntityAt(s, i).Some?
    ensures var e := EntityAt(s, i).value; EntityTo(s, i, e.end, e.text)
  {
    hide Skip, Number, CodePoint, Character, Writes, IsHexadecimal, IsNamed;
    var j := Skip(s, i + 2, IsDigit);
    var ds := s[i+2..j];
    var n := DigitsWrite(ds, 10);
    WritingRead(ds, n, 10);
    CodePointIs(n);
    assert s[i..j+1] == "&#" + ds + ";";
    assert IsDecimalOf(s[i..j+1], Character(n), ds, n);
  }

  lemma {:induction false} DigitsWrite(ds: string, base: nat) returns (n: nat)
    requires (base == 10 || base == 16) && ds != ""
    requires forall k :: 0 <= k < |ds| ==> if base == 10 then IsDigit(ds[k]) else IsHex(ds[k])
    ensures Writes(ds, n, base)
  {
    hide Numeral;
    var z: nat;
    n, z := EveryWriting(ds, base);
  }

  lemma {:induction false} HexSpelled(s: string, i: nat)
    requires i + 2 < |s| && s[i] == '&' && s[i+1] == '#' && (s[i+2] == 'x' || s[i+2] == 'X')
    requires EntityAt(s, i).Some?
    ensures var e := EntityAt(s, i).value; EntityTo(s, i, e.end, e.text)
  {
    hide Skip, Number, CodePoint, Character, Writes, IsDecimal, IsNamed;
    var j := Skip(s, i + 3, IsHex);
    var ds := s[i+3..j];
    var n := DigitsWrite(ds, 16);
    WritingRead(ds, n, 16);
    CodePointIs(n);
    assert s[i..j+1] == "&#" + [s[i+2]] + ds + ";";
    assert IsHexOf(s[i..j+1], Character(n), s[i+2], ds, n);
  }

  /** What stands between "&" and ";" where the source's pattern finds a name. */
  lemma {:induction false} NameSpelled(s: string, i: nat) returns (name: string)
    requires i + 1 < |s| && s[i] == '&' && s[i+1] != '#' && EntityAt(s, i).Some?
    ensures EntityName(name) && EntityAt(s, i).value.end == i + |name| + 2
    ensures At(s, i, "&" + name + ";")
    ensures EntityAt(s, i).value.text == if Named(name).Some? then Named(name).value else s[i..i+|name|+2]
  {
    hide Skip, Named;
    var j := Skip(s, i + 1, IsAlnum);
    name := s[i+1..j];
    assert s[i..j+1] == "&" + name + ";";
  }

  /** An entity that is read is one of the documentation, or has an inherited name, or stays as typed. */
  lemma {:induction false} ReadSpelled(s: string, i: nat)
    requires i < |s| && s[i] == '&' && EntityAt(s, i).Some?
    ensures var e := EntityAt(s, i).value;
            || EntityTo(s, i, e.end, e.text) || InheritedAt(s, i)
            || (e.text == s[i..e.end] && NoEntity(s, i))
  {
    hide EntityAt, Named, EntityName;
    TooShort(s, i);
    if s[i+1] == '#' {
      if i + 2 < |s| && (s[i+2] == 'x' || s[i+2] == 'X') { HexSpelled(s, i); } else { DecimalSpelled(s, i); }
    } else {
      var name := NameSpelled(s, i);
      NamedTexts(name);
      if name in TEXTS {
        assert IsNamed(s[i..i+|name|+2], TEXTS[name]);
      } else if Inherited(name) {
        assert "&" + "toString" + ";" == "&toString;" && "&" + "valueOf" + ";" == "&valueOf;";
      } else {
        UnknownIsNone(s, i);
      }
    }
  }

  lemma {:induction false} UnknownIsNone(s: string, i: nat)
    requires i < |s| && s[i] == '&' && EntityAt(s, i).Some?
    ensures EntityTo(s, i, EntityAt(s, i).value.end, EntityAt(s, i).value.text) || NoEntity(s, i)
  {
    hide EntityAt, IsEntity;
    if !NoEntity(s, i) {
      var j: nat, t :| EntityTo(s, i, j, t);
      SpelledReads(s, i, j, t);
    }
  }

  lemma {:induction false} TooShort(s: string, i: nat)
    requires i < |s| && EntityAt(s, i).Some?
    ensures i + 1 < |s|
  {}

  predicate InheritedAt(s: string, i: nat) { At(s, i, "&toString;") || At(s, i, "&valueOf;") }

  predicate InheritedFrom(s: string, i: nat) { exists k :: i <= k <= |s| && InheritedAt(s, k) }

  lemma {:induction false} InheritedNames()
    ensures EntityName("toString") && EntityName("valueOf")
  {}

  lemma {:induction false} InheritedReads(s: string, i: nat)
    requires i <= |s| && InheritedAt(s, i)
    ensures i < |s| && s[i] == '&' && s[i+1] != '#'
    ensures var e := EntityAt(s, i); e.Some? && |e.value.text| > e.value.end - i && e.value.end <= |s|
  {
    hide EntityAt, Named, EntityName;
    InheritedNames();
    var name := if At(s, i, "&toString;") then "toString" else "valueOf";
    assert "&" + "toString" + ";" == "&toString;" && "&" + "valueOf" + ";" == "&valueOf;";
    NameReads(s, i, name);
    NameChars(s, i, name);
    NamedTexts(name);
  }

  lemma {:induction false} EntityShort(s: string, i: nat, j: nat, t: string)
    requires EntityTo(s, i, j, t)
    ensures |t| <= j - i
  {
    hide Writes, Character;
    var w := s[i..j];
    if IsDecimal(w, t) {
      var ds, n: nat :| IsDecimalOf(w, t, ds, n);
      OneCharacter(n);
    } else if IsHexadecimal(w, t) {
      var x, ds, n: nat :| IsHexOf(w, t, x, ds, n);
      OneCharacter(n);
    }
  }

  lemma {:induction false} OneCharacter(n: nat)
    ensures |Character(n)| == 1
  {}

  /** An inherited name is none of the documentation. */
  lemma {:induction false} InheritedIsNone(s: string, i: nat)
    requires i <= |s| && InheritedAt(s, i)
    ensures NoEntity(s, i)
  {
    hide EntityAt, IsEntity, InheritedAt;
    InheritedReads(s, i);
    if !NoEntity(s, i) {
      var j: nat, t :| EntityTo(s, i, j, t);
      SpelledReads(s, i, j, t);
      EntityShort(s, i, j, t);
    }
  }

  /** No ampersand stands inside an entity, so no entity hides another. */
  lemma {:induction false} EntityInside(s: string, i: nat, k: nat)
    requires i < |s| && s[i] == '&' && EntityAt(s, i).Some? && i < k < EntityAt(s, i).value.end
    ensures s[k] != '&'
  {
    hide Named, Number, CodePoint;
  }

  lemma {:induction false} InheritedStep(s: string, i: nat, j: nat)
    requires i < j <= |s| && !InheritedAt(s, i) && forall k :: i < k < j ==> s[k] != '&'
    ensures InheritedFrom(s, i) <==> InheritedFrom(s, j)
  {
    if InheritedFrom(s, i) {
      var k :| i <= k <= |s| && InheritedAt(s, k);
      InheritedReads(s, k);
    }
  }

  /** Where no entity starts, the text stays up to the next ampersand. */
  lemma {:induction false} StaysTo(s: string, i: nat, j: nat)
    requires i < j <= |s| && NoEntity(s, i) && forall k :: i < k < j ==> s[k] != '&'
    ensures DocumentedFrom(s, i) == s[i..j] + DocumentedFrom(s, j)
    decreases j - i
  {
    hide EntityTo, DocumentedFrom;
    OneStays(s, i);
    if i + 1 == j {
      assert s[i..j] == [s[i]];
    } else {
      NotAmpersand(s, i + 1);
      StaysTo(s, i + 1, j);
      assert [s[i]] + s[i+1..j] == s[i..j];
      SeqAssoc([s[i]], s[i+1..j], DocumentedFrom(s, j));
    }
  }

  lemma {:induction false} OneStays(s: string, i: nat)
    requires i < |s| && NoEntity(s, i)
    ensures DocumentedFrom(s, i) == [s[i]] + DocumentedFrom(s, i + 1)
  {
    hide EntityTo;
  }

  lemma {:induction false} NotAmpersand(s: string, i: nat)
    requires i < |s| && (s[i] != '&' || EntityAt(s, i) == None)
    ensures NoEntity(s, i)
  {
    hide EntityAt, EntityTo;
    if !NoEntity(s, i) {
      var j: nat, t :| EntityTo(s, i, j, t);
      SpelledReads(s, i, j, t);
    }
  }

  lemma {:induction false} OneReplaced(s: string, i: nat, j: nat, t: string)
    requires EntityTo(s, i, j, t) && i < j <= |s|
    ensures DocumentedFrom(s, i) == t + DocumentedFrom(s, j)
  {
    hide EntityAt, EntityTo;
    assert exists j': nat, t' :: EntityTo(s, i, j', t');
    forall j': nat, t' | EntityTo(s, i, j', t') ensures j' == j && t' == t {
      SpelledReads(s, i, j, t);
      SpelledReads(s, i, j', t');
    }
  }

  lemma {:induction false} DecodedLength(s: string, i: nat)
    requires i <= |s|
    ensures |DecodeFrom(s, i)| >= |DocumentedFrom(s, i)|
    ensures InheritedFrom(s, i) ==> |DecodeFrom(s, i)| > |DocumentedFrom(s, i)|
    ensures !InheritedFrom(s, i) ==> DecodeFrom(s, i) == DocumentedFrom(s, i)
    decreases |s| - i
  {
    hide EntityAt, InheritedAt, InheritedFrom, EntityTo, DocumentedFrom, NoEntity;
    if i == |s| {
      NoneAtEnd(s);
    } else if s[i] == '&' && EntityAt(s, i).Some? {
      var e := EntityAt(s, i).value;
      DecodedLength(s, e.end);
      ReadSpelled(s, i);
      forall k | i < k < e.end ensures s[k] != '&' { EntityInside(s, i, k); }
      if InheritedAt(s, i) {
        InheritedReads(s, i);
        InheritedIsNone(s, i);
        StaysTo(s, i, e.end);
        FoundAt(s, i);
      } else {
        InheritedStep(s, i, e.end);
        if EntityTo(s, i, e.end, e.text) { OneReplaced(s, i, e.end, e.text); } else { StaysTo(s, i, e.end); }
      }
    } else {
      DecodedLength(s, i + 1);
      NotAmpersand(s, i);
      OneStays(s, i);
      if InheritedAt(s, i) { InheritedReads(s, i); }
      InheritedStep(s, i, i + 1);
    }
  }

  lemma {:induction false} FoundAt(s: string, i: nat)
    requires i <= |s| && InheritedAt(s, i)
    ensures InheritedFrom(s, i)
  {}

  lemma {:induction false} NoneAtEnd(s: string)
    ensures !InheritedFrom(s, |s|) && DocumentedFrom(s, |s|) == ""
  {}

  /** Decoding does what its comment says on exactly the texts without "&toString;" and "&valueOf;". */
  lemma {:induction false} DecodesAsDocumented(s: string)
    ensures DecodeEntities(s) == DocumentedFrom(s, 0) <==> !InheritedFrom(s, 0)
  {
    hide DecodeFrom, DocumentedFrom, InheritedFrom;
    DecodedLength(s, 0);
  }
}
