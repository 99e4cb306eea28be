// The console's reader of rich-text HTML (apps/admin-web/src/lib/richtext.ts:42-220): a tokenizer and a tree
// builder with a stack of open elements. Functions over positions of the text say what each loop computes.

module Reader {
  import opened Base
  import opened Markup

  const ART_TAGS: set<string> := {"p", "br", "strong", "em", "u", "ul", "ol", "li", "h3", "h4", "blockquote"}
  const RAW_DROPPED: set<string> :=
    {"script", "style", "template", "noscript", "iframe", "textarea", "title", "object", "embed"}
  const BLOCKS: set<string> := {"p", "ul", "ol", "h3", "h4", "blockquote"}
  const TEXT_BLOCKS: set<string> := {"p", "h3", "h4"}
  const MAX_DEPTH := 32

  // ---- characters ----

  predicate IsLetter(c: char) { 'a' <= c <= 'z' || 'A' <= c <= 'Z' }
  predicate IsHex(c: char) { IsDigit(c) || 'a' <= c <= 'f' || 'A' <= c <= 'F' }
  predicate IsAlnum(c: char) { IsLetter(c) || IsDigit(c) }
  predicate IsNameChar(c: char) { IsAlnum(c) || c == ':' || c == '-' }

  /** The \s of JavaScript. */
  predicate IsSpace(c: char) {
    var cp := c as int;
    || 9 <= cp <= 13 || cp in {0x20, 0xa0, 0x1680, 0x2028, 0x2029, 0x202f, 0x205f, 0x3000, 0xfeff}
    || 0x2000 <= cp <= 0x200a
  }

  predicate IsSpaceOrSlash(c: char) { IsSpace(c) || c == '/' }
  predicate IsAttrChar(c: char) { !IsSpace(c) && c != '/' && c != '=' && c != '>' }
  predicate IsBareValueChar(c: char) { !IsSpace(c) && c != '>' }

  function LowerChar(c: char): char {
    if 'A' <= c <= 'Z' then (c as int + 32) as char else c
  }

  /** Lower case, for the ASCII letters: no other character folds into a name the reader looks for. */
  function Lower(s: string): string {
    seq(|s|, i requires 0 <= i < |s| => LowerChar(s[i]))
  }

  // ---- searching ----

  /** The first position from `i` on whose character is not in the class. */
  function Skip(s: string, i: nat, p: char -> bool): (j: nat)
    requires i <= |s|
    ensures i <= j <= |s|
    ensures forall k :: i <= k < j ==> p(s[k])
    ensures j < |s| ==> !p(s[j])
    decreases |s| - i
  {
    if i < |s| && p(s[i]) then Skip(s, i + 1, p) else i
  }

  /** The first position of `c` from `i` on, or the length of the text. */
  function Find(s: string, c: char, i: nat): (j: nat)
    requires i <= |s|
    ensures i <= j <= |s|
    ensures forall k :: i <= k < j ==> s[k] != c
    ensures j < |s| ==> s[j] == c
    decreases |s| - i
  {
    if i < |s| && s[i] != c then Find(s, c, i + 1) else i
  }

  /** A run of characters of the class, and one outside it, decide where the skip ends. */
  lemma {:induction false} SkipTo(s: string, i: nat, j: nat, p: char -> bool)
    requires i <= j <= |s|
    requires forall k :: i <= k < j ==> p(s[k])
    requires j < |s| ==> !p(s[j])
    ensures Skip(s, i, p) == j
    decreases j - i
  {
    if i < j { SkipTo(s, i + 1, j, p); }
  }

  lemma {:induction false} FindIs(s: string, c: char, i: nat, j: nat)
    requires i <= j <= |s| && (forall k :: i <= k < j ==> s[k] != c) && (j < |s| ==> s[j] == c)
    ensures Find(s, c, i) == j
    decreases j - i
  {
    if i < j { FindIs(s, c, i + 1, j); }
  }

  predicate At(s: string, i: nat, pat: string) {
    i + |pat| <= |s| && s[i..i+|pat|] == pat
  }

  /** The first position from `i` on where `pat` stands. */
  function FindStr(s: string, pat: string, i: nat): (r: Option<nat>)
    ensures r.Some? ==> i <= r.value && At(s, r.value, pat)
    decreases |s| - i
  {
    if At(s, i, pat) then Some(i) else if i < |s| then FindStr(s, pat, i + 1) else None
  }

  // ---- entities ----

  function DigitVal(c: char): nat
    requires IsHex(c)
  {
    if IsDigit(c) then c as int - '0' as int
    else if 'a' <= c <= 'f' then c as int - 'a' as int + 10
    else c as int - 'A' as int + 10
  }

  function Number(s: string, radix: nat): nat
    requires forall c | c in s :: IsHex(c)
  {
    if s == [] then 0 else Number(s[..|s|-1], radix) * radix + DigitVal(s[|s|-1])
  }

  function CodePoint(code: nat): string {
    if code == 0 || code > 0x10ffff || 0xd800 <= code <= 0xdfff then "\U{fffd}" else [code as char]
  }

  /** A name outside the table stays as typed, except the two that every JavaScript object inherits. */
  function Named(name: string): Option<string> {
    if name == "amp" then Some("&")
    else if name == "lt" then Some("<")
    else if name == "gt" then Some(">")
    else if name == "quot" then Some("\"")
    else if name == "apos" then Some("'")
    else if name == "nbsp" then Some("\U{a0}")
    else if name == "toString" || name == "valueOf" then Some("function " + name + "() { [native code] }")
    else None
  }

  datatype Entity = Entity(text: string, end: nat)

  /** The entity that starts at position `i`, where an ampersand stands. */
  function EntityAt(s: string, i: nat): (r: Option<Entity>)
    requires i < |s|
    ensures r.Some? ==> i < r.value.end <= |s|
  {
    if i + 1 >= |s| then None
    else if s[i+1] == '#' then
      if i + 2 < |s| && (s[i+2] == 'x' || s[i+2] == 'X') then
        var j := Skip(s, i + 3, IsHex);
        if 1 <= j - (i + 3) <= 6 && j < |s| && s[j] == ';'
        then Some(Entity(CodePoint(Number(s[i+3..j], 16)), j + 1)) else None
      else
        var j := Skip(s, i + 2, IsDigit);
        if 1 <= j - (i + 2) <= 7 && j < |s| && s[j] == ';'
        then Some(Entity(CodePoint(Number(s[i+2..j], 10)), j + 1)) else None
    else
      var j := Skip(s, i + 1, IsAlnum);
      if 2 <= j - (i + 1) <= 8 && IsLetter(s[i+1]) && j < |s| && s[j] == ';' then
        match Named(s[i+1..j])
        case Some(t) => Some(Entity(t, j + 1))
        case None => Some(Entity(s[i..j+1], j + 1))
      else None
  }

  function DecodeFrom(s: string, i: nat): string
    requires i <= |s|
    decreases |s| - i
  {
    if i == |s| then ""
    else if s[i] == '&' && EntityAt(s, i).Some? then
      var e := EntityAt(s, i).value;
      e.text + DecodeFrom(s, e.end)
    else [s[i]] + DecodeFrom(s, i + 1)
  }

  function DecodeEntities(s: string): string {
    DecodeFrom(s, 0)
  }

  // ---- the link check ----

  predicate HrefCharRefused(c: char) {
    var cp := c as int;
    || cp <= 0x20 || 0x7f <= cp <= 0x9f || cp == 0xa0 || 0x200b <= cp <= 0x200f
    || 0x2028 <= cp <= 0x202e || 0x2060 <= cp <= 0x2069 || cp == 0xfeff || cp == 0xfffd
  }

  function Trim(s: string): string {
    TrimRight(TrimLeft(s, IsSpace), IsSpace)
  }

  predicate HasScheme(s: string) {
    "https://" <= Lower(s) || "mailto:" <= Lower(s)
  }

  /** `url` stands for the URL constructor: the text parses, and as https: or mailto:. */
  function SafeHref(raw: Option<string>, url: string -> bool): Option<string> {
    match raw
    case None => None
    case Some(r) =>
      var href := Trim(r);
      if href == "" || (exists i :: 0 <= i < |href| && HrefCharRefused(href[i])) then None
      else if !HasScheme(href) then None
      else if !url(href) then None
      else Some(href)
  }

  // ---- tags ----

  datatype Tag = Tag(name: string, closing: bool, attrs: map<string, string>, end: nat)

  datatype Value = Value(text: string, next: nat) | Unterminated

  /** The optional "=" and value after an attribute name that ends at `i`. */
  function ValueAt(s: string, i: nat): (r: Value)
    requires i <= |s|
    ensures r.Value? ==> i <= r.next <= |s|
    ensures r.Value? && i < |s| && s[i] == '=' ==> i < r.next
  {
    var e := Skip(s, i, IsSpace);
    if e < |s| && s[e] == '=' then
      var v := Skip(s, e + 1, IsSpace);
      if v < |s| && (s[v] == '"' || s[v] == '\'') then
        var close := Find(s, s[v], v + 1);
        if close == |s| then Unterminated else Value(s[v+1..close], close + 1)
      else
        var w := Skip(s, v, IsBareValueChar);
        Value(s[v..w], w)
    else Value("", e)
  }

  function Put(attrs: map<string, string>, name: string, value: string): map<string, string> {
    if name != "" && name !in attrs then attrs[name := DecodeEntities(value)] else attrs
  }

  /** The attributes from `i` to the closing ">" and the position after it; None when the tag never ends. */
  function AttrsAt(s: string, i: nat, attrs: map<string, string>): (r: Option<(map<string, string>, nat)>)
    requires i <= |s|
    ensures r.Some? ==> i < r.value.1 <= |s|
    decreases |s| - i
  {
    var a := Skip(s, i, IsSpaceOrSlash);
    if a == |s| then None
    else if s[a] == '>' then Some((attrs, a + 1))
    else
      var b := Skip(s, a, IsAttrChar);
      match ValueAt(s, b)
      case Unterminated => None
      case Value(v, next) => AttrsAt(s, next, Put(attrs, Lower(s[a..b]), v))
  }

  /** What the "<" at `at` begins: a start or end tag, or nothing. */
  function TagAt(s: string, at: nat): (r: Option<Tag>)
    requires at < |s|
    ensures r.Some? ==> at < r.value.end <= |s|
  {
    var closing := at + 1 < |s| && s[at+1] == '/';
    var i := if closing then at + 2 else at + 1;
    if i >= |s| || !IsLetter(s[i]) then None
    else
      var e := Skip(s, i, IsNameChar);
      match AttrsAt(s, e, map[])
      case None => None
      case Some((attrs, end)) => Some(Tag(Lower(s[i..e]), closing, attrs, end))
  }

  /** The first "</name" from `i` on that a space, "/" or ">" follows, in any case; the length of the text without one. */
  function RawEnd(s: string, name: string, i: nat): (j: nat)
    requires i <= |s|
    ensures i <= j <= |s|
    decreases |s| - i
  {
    var n := |name| + 2;
    if i + n < |s| && Lower(s[i..i+n]) == "</" + name && (IsSpaceOrSlash(s[i+n]) || s[i+n] == '>') then i
    else if i < |s| then RawEnd(s, name, i + 1)
    else i
  }

  // ---- the tree builder ----

  /** An open element and the children it has so far. */
  datatype Frame = Frame(tag: string, href: Option<string>, kids: seq<Node>)

  type Stack = st: seq<Frame> | |st| > 0 witness [Frame("", None, [])]

  function Top(st: Stack): Frame { st[|st|-1] }

  function SetTop(st: Stack, kids: seq<Node>): Stack {
    st[|st|-1 := Top(st).(kids := kids)]
  }

  function AddText(st: Stack, t: string): Stack {
    var kids := Top(st).kids;
    if t == "" then st
    else if kids != [] && kids[|kids|-1].Text? then SetTop(st, kids[|kids|-1 := Text(kids[|kids|-1].text + t)])
    else SetTop(st, kids + [Text(t)])
  }

  function AddKid(st: Stack, n: Node): Stack {
    SetTop(st, Top(st).kids + [n])
  }

  /** Closes the innermost element: it is a finished child of the one around it. */
  function Pop(st: Stack): Stack
    requires |st| > 1
  {
    AddKid(st[..|st|-1], Elem(Top(st).tag, Top(st).href, Top(st).kids))
  }

  function PopTo(st: Stack, n: nat): (r: Stack)
    requires 1 <= n <= |st|
    ensures |r| == n
    decreases |st|
  {
    if |st| == n then st else PopTo(Pop(st), n)
  }

  /** The innermost open element called `name`, 0 when there is none. */
  function OpenIndex(st: Stack, name: string): (k: nat)
    ensures k < |st| && (k > 0 ==> st[k].tag == name)
    ensures forall j :: k < j < |st| ==> st[j].tag != name
    decreases |st|
  {
    if |st| == 1 then 0
    else if Top(st).tag == name then |st| - 1
    else OpenIndex(st[..|st|-1], name)
  }

  function CloseTo(st: Stack, name: string): Stack {
    if OpenIndex(st, name) > 0 then PopTo(st, OpenIndex(st, name)) else st
  }

  /** The pops a start tag causes before its element is made. */
  function Unnest(st: Stack, name: string): Stack {
    var a := if name in BLOCKS && Top(st).tag in TEXT_BLOCKS && |st| > 1 then Pop(st) else st;
    var b := if name == "li" && Top(a).tag == "li" && |a| > 1 then Pop(a) else a;
    if name == "a" then CloseTo(b, "a") else b
  }

  function OpenElement(st: Stack, name: string, attrs: map<string, string>, url: string -> bool): Stack {
    if name == "br" then AddKid(st, Elem("br", None, []))
    else if name !in ART_TAGS && name != "a" then st
    else if |st| > MAX_DEPTH then st
    else
      var href := if name == "a" then SafeHref(if "href" in attrs then Some(attrs["href"]) else None, url) else None;
      if name == "a" && href == None then Unnest(st, name)
      else Unnest(st, name) + [Frame(name, href, [])]
  }

  function CloseElement(st: Stack, name: string): Stack {
    if name == "br" then st
    else if name in ART_TAGS || name == "a" then CloseTo(st, name)
    else st
  }

  datatype State = State(i: nat, st: Stack)

  /** What the loop does with the "<" at position `lt`. */
  function Bracket(s: string, lt: nat, st: Stack, url: string -> bool): (r: State)
    requires lt < |s|
    ensures lt < r.i <= |s|
  {
    if At(s, lt, "<!--") then
      match FindStr(s, "-->", lt + 4)
      case None => State(|s|, st)
      case Some(e) => State(e + 3, st)
    else if lt + 1 < |s| && (s[lt+1] == '!' || s[lt+1] == '?') then
      var e := Find(s, '>', lt + 2);
      State(if e == |s| then |s| else e + 1, st)
    else
      match TagAt(s, lt)
      case None => State(lt + 1, AddText(st, "<"))
      case Some(tag) =>
        if tag.name in RAW_DROPPED then State(if tag.closing then tag.end else RawEnd(s, tag.name, tag.end), st)
        else if tag.closing then State(tag.end, CloseElement(st, tag.name))
        else State(tag.end, OpenElement(st, tag.name, tag.attrs, url))
  }

  /** One turn of the loop: the text up to the next "<", then what stands there. */
  function Turn(s: string, x: State, url: string -> bool): (r: State)
    requires x.i < |s|
    ensures x.i < r.i <= |s|
  {
    var lt := Find(s, '<', x.i);
    var st := AddText(x.st, DecodeEntities(s[x.i..lt]));
    if lt == |s| then State(|s|, st) else Bracket(s, lt, st, url)
  }

  function ParseAt(s: string, x: State, url: string -> bool): seq<Node>
    requires x.i <= |s|
    decreases |s| - x.i
  {
    if x.i == |s| then PopTo(x.st, 1)[0].kids else ParseAt(s, Turn(s, x, url), url)
  }

  function Parsed(s: string, url: string -> bool): seq<Node> {
    ParseAt(s, State(0, [Frame("", None, [])]), url)
  }
}
