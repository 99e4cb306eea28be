// The whole chain: a foreign tree is sanitized, printed, read by the console and sanitized again
// (apps/rich-editor/src/sanitize.ts:484-501, apps/rich-editor/src/href.ts:26-74, apps/admin-web/src/lib/richtext.ts:42-220).

module Fixpoint {
  import opened Base
  import opened RichModel
  import opened Markup
  import opened Printer
  import opened LinkLines
  import opened SanitizerModel
  import opened SanitizerLines
  import opened SanitizerInv
  import opened SanitizerWalk
  import opened SanitizerFix
  import opened InlineWalk
  import Finish
  import FinishSpec
  import Reader
  import DocRoundTrip
  import Href

  /** The rules of a profile: its tags, and the link check for its schemes. */
  function ProfileRules(tags: set<string>, schemes: set<string>, idna: string -> Option<string>): Rules {
    Rules(tags, raw => Href.CleanHref(raw, schemes, idna))
  }

  // ---- the link targets of a document ----

  function LineTargets(cs: seq<Chunk>): set<string> {
    set i | 0 <= i < |cs| && LinkedRun(cs[i]) :: cs[i].marks.href
  }

  function ItemsTargets(items: seq<Item>): set<string>
    decreases items, 0
  {
    if items == [] then {} else LineTargets(items[0].inl) + SubsTargets(items[0].subs) + ItemsTargets(items[1..])
  }

  function SubsTargets(subs: seq<List>): set<string>
    decreases subs, 0
  {
    if subs == [] then {} else ItemsTargets(subs[0].items) + SubsTargets(subs[1..])
  }

  function ParasTargets(ps: seq<seq<Chunk>>): set<string> {
    if ps == [] then {} else LineTargets(ps[0]) + ParasTargets(ps[1..])
  }

  function BlockTargets(b: Block): set<string> {
    match b
    case TextBlock(_, inl) => LineTargets(inl)
    case Quote(paras) => ParasTargets(paras)
    case ListBlock(l) => ItemsTargets(l.items)
  }

  function Targets(d: Doc): set<string> {
    if d == [] then {} else BlockTargets(d[0]) + Targets(d[1..])
  }

  // ---- what the targets must be ----

  ghost predicate AllFixed(hs: set<string>, r: Rules) {
    forall h :: h in hs ==> r.clean(h) == Some(h)
  }

  predicate AllSafe(hs: set<string>, url: string -> bool) {
    forall h | h in hs :: Reader.SafeHref(Some(h), url) == Some(h)
  }

  lemma {:induction false} LineOfTargets(cs: seq<Chunk>, r: Rules, url: string -> bool)
    ensures AllFixed(LineTargets(cs), r) ==> FixedLine(cs, r)
    ensures AllSafe(LineTargets(cs), url) ==> DocRoundTrip.SafeLinks(cs, url)
  {
    assert forall i :: 0 <= i < |cs| && LinkedRun(cs[i]) ==> cs[i].marks.href in LineTargets(cs);
  }

  lemma {:induction false} ItemsOfTargets(items: seq<Item>, r: Rules)
    requires AllFixed(ItemsTargets(items), r)
    ensures FixedItems(items, r)
    decreases items, 0
  {
    if items != [] {
      LineOfTargets(items[0].inl, r, _ => true);
      SubsOfTargets(items[0].subs, r);
      ItemsOfTargets(items[1..], r);
    }
  }

  lemma {:induction false} SubsOfTargets(subs: seq<List>, r: Rules)
    requires AllFixed(SubsTargets(subs), r)
    ensures FixedSubs(subs, r)
    decreases subs, 0
  {
    if subs != [] {
      ItemsOfTargets(subs[0].items, r);
      SubsOfTargets(subs[1..], r);
    }
  }

  lemma {:induction false} ParaTarget(ps: seq<seq<Chunk>>, i: nat)
    requires i < |ps|
    ensures LineTargets(ps[i]) <= ParasTargets(ps)
    decreases |ps|
  {
    hide LineTargets;
    if i > 0 { ParaTarget(ps[1..], i - 1); }
  }

  lemma {:induction false} BlockTarget(d: Doc, i: nat)
    requires i < |d|
    ensures BlockTargets(d[i]) <= Targets(d)
    decreases |d|
  {
    hide BlockTargets;
    if i > 0 { BlockTarget(d[1..], i - 1); }
  }

  lemma {:induction false} FixedOfTargets(d: Doc, r: Rules)
    requires AllFixed(Targets(d), r)
    ensures FixedDoc(d, r)
  {
    hide FixedLine, FixedItems, LineTargets, ItemsTargets;
    forall k | 0 <= k < |d| ensures FixedBlock(d[k], r) {
      BlockTarget(d, k);
      match d[k]
      case TextBlock(_, inl) => LineOfTargets(inl, r, _ => true);
      case Quote(paras) =>
        forall i | 0 <= i < |paras| ensures FixedLine(paras[i], r) {
          ParaTarget(paras, i);
          LineOfTargets(paras[i], r, _ => true);
        }
      case ListBlock(l) => ItemsOfTargets(l.items, r);
    }
  }

  // ---- a good document is one the console reads back ----

  lemma {:induction false} ReadableItems(items: seq<Item>, k: nat, depth: nat, r: Rules, url: string -> bool)
    requires (forall i :: 0 <= i < |items| ==> ItemInv(items[i], k, r)) && AllSafe(ItemsTargets(items), url)
    requires depth + 2 * k + 5 <= Reader.MAX_DEPTH
    ensures DocRoundTrip.ItemsOk(items, depth, url)
    decreases items, 0
  {
    hide LineInv, LineTargets, DocRoundTrip.LineOk, ListInv;
    if items != [] {
      assert ItemInv(items[0], k, r);
      ReadableLine(items[0].inl, r, url);
      ReadableSubs(items[0].subs, k, depth + 1, r, url);
      ReadableItems(items[1..], k, depth, r, url);
    }
  }

  lemma {:induction false} ReadableSubs(subs: seq<List>, k: nat, depth: nat, r: Rules, url: string -> bool)
    requires (forall j :: 0 <= j < |subs| ==> ListInv(subs[j], k, r)) && AllSafe(SubsTargets(subs), url)
    requires depth + 2 * k + 4 <= Reader.MAX_DEPTH
    ensures DocRoundTrip.SubsOk(subs, depth, url)
    decreases subs, 0
  {
    hide ItemInv, ItemsTargets, DocRoundTrip.ItemsOk;
    if subs != [] {
      assert ListInv(subs[0], k, r);
      ReadableItems(subs[0].items, k - 1, depth + 1, r, url);
      ReadableSubs(subs[1..], k, depth, r, url);
    }
  }

  lemma {:induction false} ReadableLine(cs: seq<Chunk>, r: Rules, url: string -> bool)
    requires LineInv(cs, r) && AllSafe(LineTargets(cs), url)
    ensures DocRoundTrip.LineOk(cs, url)
  {
    LineOfTargets(cs, r, url);
  }

  lemma {:induction false} Readable(d: Doc, r: Rules, url: string -> bool)
    requires DocInv(d, r) && AllSafe(Targets(d), url)
    ensures DocRoundTrip.DocOk(d, url)
  {
    hide LineInv, LineTargets, ItemsTargets, DocRoundTrip.LineOk, DocRoundTrip.ItemsOk, ItemInv, Reader.SafeHref;
    forall k | 0 <= k < |d| ensures DocRoundTrip.BlockOk(d[k], url) {
      BlockTarget(d, k);
      assert BlockInv(d[k], r);
      match d[k]
      case TextBlock(_, inl) => ReadableLine(inl, r, url);
      case Quote(paras) =>
        forall i | 0 <= i < |paras| ensures DocRoundTrip.LineOk(paras[i], url) {
          ParaTarget(paras, i);
          ReadableLine(paras[i], r, url);
        }
      case ListBlock(l) => ReadableItems(l.items, 1, 1, r, url);
    }
  }

  // ---- the theorems ----

  /** The HTML of a document, as `docHtml` writes it. */
  function Html(d: Doc): string {
    PrintAll(DocTree(d))
  }

  /** Sanitized HTML is a fixpoint: the console reads back the document's own tree, and that tree is sanitized into the same HTML. */
  lemma {:induction false} SanitizedHtmlStays(nodes: seq<Dom>, r: Rules, url: string -> bool)
    requires CleanOk(r) && Sanitized(nodes, r).Some?
    requires var d := Sanitized(nodes, r).value; AllFixed(Targets(d), r) && AllSafe(Targets(d), url)
    ensures var d := Sanitized(nodes, r).value;
            var read := Reader.Parsed(Html(d), url);
            && read == DocTree(d)
            && Sanitized(ToDoms(read), r).Some? && Html(Sanitized(ToDoms(read), r).value) == Html(d)
  {
    hide Sanitized, CleanOk, DocInv, FixedDoc, DocTree, PrintAll, AllFixed, AllSafe, Reader.Parsed;
    var d := Sanitized(nodes, r).value;
    SanitizedIsGood(nodes, r);
    Readable(d, r, url);
    DocRoundTrip.PrintedDocReadsBack(d, url);
    FixedOfTargets(d, r);
    SanitizedStays(nodes, r);
  }

  lemma {:induction false} ProfileRulesOk(tags: set<string>, schemes: set<string>, idna: string -> Option<string>)
    requires Href.IdnaStable(idna)
    ensures CleanOk(ProfileRules(tags, schemes, idna))
  {
    hide Href.IdnaStable, Href.CleanHref;
    var r := ProfileRules(tags, schemes, idna);
    forall raw ensures r.clean(raw) != Some("") {
      if Href.CleanHref(raw, schemes, idna).Some? { Href.CleanHrefFixed(raw, schemes, idna); }
    }
  }

  /** A target that came out of the link check: what keeps it through a second check, and through the console's. */
  lemma {:induction false} KeptTarget(h: string, tags: set<string>, schemes: set<string>, idna: string -> Option<string>, url: string -> bool)
    requires Href.IdnaStable(idna) && KeptHref(h, ProfileRules(tags, schemes, idna))
    ensures ProfileRules(tags, schemes, idna).clean(h) == Some(h) <==> Href.ByteLength(h) <= Href.MAX_LINK_LENGTH
    ensures Reader.SafeHref(Some(h), url) == Some(h) <==> !Href.Has(h, Href.ConsoleRefuses) && url(h)
  {
    hide Href.IdnaStable, Href.CleanHref, Reader.SafeHref, Href.ByteLength;
    var raw :| ProfileRules(tags, schemes, idna).clean(raw) == Some(h);
    Href.CleanHrefFixed(raw, schemes, idna);
    Href.ConsoleKeeps(raw, schemes, idna, url);
  }

  // ---- every target of a good document was checked ----

  lemma {:induction false} LineKept(cs: seq<Chunk>, h: string, r: Rules)
    requires LineInv(cs, r) && h in LineTargets(cs)
    ensures KeptHref(h, r)
  {
    hide KeptHref, Finish.Cells, FinishSpec.Tidy, BesideLink;
    var i :| 0 <= i < |cs| && LinkedRun(cs[i]) && cs[i].marks.href == h;
    assert RunFit(cs[i], r);
  }

  lemma {:induction false} ItemsKept(items: seq<Item>, k: nat, h: string, r: Rules)
    requires (forall i :: 0 <= i < |items| ==> ItemInv(items[i], k, r)) && h in ItemsTargets(items)
    ensures KeptHref(h, r)
    decreases items, 0
  {
    hide LineInv, KeptHref, LineTargets;
    assert ItemInv(items[0], k, r);
    if h in LineTargets(items[0].inl) { LineKept(items[0].inl, h, r); }
    else if h in SubsTargets(items[0].subs) { SubsKept(items[0].subs, k, h, r); }
    else { ItemsKept(items[1..], k, h, r); }
  }

  lemma {:induction false} SubsKept(subs: seq<List>, k: nat, h: string, r: Rules)
    requires (forall j :: 0 <= j < |subs| ==> ListInv(subs[j], k, r)) && h in SubsTargets(subs)
    ensures KeptHref(h, r)
    decreases subs, 0
  {
    hide ItemInv, KeptHref;
    if h in ItemsTargets(subs[0].items) { assert ListInv(subs[0], k, r); ItemsKept(subs[0].items, k - 1, h, r); }
    else { SubsKept(subs[1..], k, h, r); }
  }

  lemma {:induction false} ParasKept(ps: seq<seq<Chunk>>, h: string, r: Rules)
    requires (forall i :: 0 <= i < |ps| ==> LineInv(ps[i], r)) && h in ParasTargets(ps)
    ensures KeptHref(h, r)
    decreases |ps|
  {
    hide LineInv, KeptHref, LineTargets;
    if h in LineTargets(ps[0]) { LineKept(ps[0], h, r); } else { ParasKept(ps[1..], h, r); }
  }

  lemma {:induction false} TargetsKept(d: Doc, h: string, r: Rules)
    requires DocInv(d, r) && h in Targets(d)
    ensures KeptHref(h, r)
    decreases |d|
  {
    hide LineInv, KeptHref, LineTargets, ItemInv;
    if h in BlockTargets(d[0]) {
      assert BlockInv(d[0], r);
      match d[0]
      case TextBlock(_, inl) => LineKept(inl, h, r);
      case Quote(paras) => ParasKept(paras, h, r);
      case ListBlock(l) => ItemsKept(l.items, 1, h, r);
    } else {
      TargetsKept(d[1..], h, r);
    }
  }
}
