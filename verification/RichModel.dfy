// Documents: blocks, lists and the chunks of their lines (apps/rich-editor/src/model.ts:8-38).

module RichModel {
  /** `href` is "" for no link. */
  datatype Marks = Marks(strong: bool, em: bool, u: bool, href: string)

  /** Runs of one <a> element carry its number in `link`; 0 is no link. */
  datatype Chunk = Br | Run(text: string, marks: Marks, link: nat)

  datatype Item = Item(inl: seq<Chunk>, subs: seq<List>)
  datatype List = List(ordered: bool, items: seq<Item>)
  datatype TextKind = P | H3 | H4
  datatype Block =
    | TextBlock(kind: TextKind, inl: seq<Chunk>)
    | Quote(paras: seq<seq<Chunk>>)
    | ListBlock(list: List)
  type Doc = seq<Block>

  /** The chunk list `finish` promises: no empty run, and neighbouring runs differ in their marks. */
  predicate Canonical(cs: seq<Chunk>) {
    && (forall i :: 0 <= i < |cs| && cs[i].Run? ==> cs[i].text != "")
    && (forall i :: 0 < i < |cs| && cs[i].Run? && cs[i-1].Run? ==> cs[i-1].marks != cs[i].marks)
  }
}
