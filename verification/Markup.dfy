// Element trees and the HTML text they are written as. The writer (Printer.dfy) and the reader
// (Reader.dfy) are both specified against these trees.

module Markup {
  import opened Base

  datatype Node = Text(text: string) | Elem(tag: string, href: Option<string>, kids: seq<Node>)

  /** An element around a text. */
  datatype Above = Above(tag: string, href: Option<string>)

  function ReplaceAll(s: string, c: char, rep: string): string {
    if s == [] then [] else (if s[0] == c then rep else [s[0]]) + ReplaceAll(s[1..], c, rep)
  }

  function EscapeText(s: string): string {
    ReplaceAll(ReplaceAll(ReplaceAll(s, '&', "&amp;"), '<', "&lt;"), '>', "&gt;")
  }

  function EscapeAttr(s: string): string {
    ReplaceAll(ReplaceAll(ReplaceAll(ReplaceAll(s, '&', "&amp;"), '<', "&lt;"), '>', "&gt;"), '"', "&quot;")
  }

  function StartTag(tag: string, href: Option<string>): string {
    match href
    case None => "<" + tag + ">"
    case Some(h) => "<" + tag + " href=\"" + EscapeAttr(h) + "\">"
  }

  function EndTag(tag: string): string {
    "</" + tag + ">"
  }

  function Print(n: Node): string {
    match n
    case Text(t) => EscapeText(t)
    case Elem(tag, href, kids) =>
      if tag == "br" then "<br>" else StartTag(tag, href) + PrintAll(kids) + EndTag(tag)
  }

  function PrintAll(f: seq<Node>): string {
    if f == [] then "" else Print(f[0]) + PrintAll(f[1..])
  }

  lemma {:induction false} PrintConcat(f: seq<Node>, g: seq<Node>)
    ensures PrintAll(f + g) == PrintAll(f) + PrintAll(g)
  {
    hide Print;
    if f == [] {
      assert f + g == g;
    } else {
      PrintConcat(f[1..], g);
      SeqAssoc(Print(f[0]), PrintAll(f[1..]), PrintAll(g));
      assert (f + g)[1..] == f[1..] + g;
    }
  }
}
