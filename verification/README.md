# Verified models of the Arena text, tracker and venue code

This project models the behaviour of several components of the Arena repository in Dafny and proves what their
documentation and tests promise, for every input and every run. `dafny verify dfyconfig.toml` checks all of it.

## What is modelled

**The rich-text core.** A foreign DOM tree is walked by a converter with an explicit container stack, aliased lists and
pending runs (`sanitize.ts`); runs are normalised (`finish`) and the document is printed as canonical HTML (`model.ts`);
the console reads that HTML back with a hand-written tokenizer and tree builder (`richtext.ts`); links pass two
independent checks (`href.ts`, `safeHref`); old plain text is compiled into the same model (`legacy.ts`). The models meet
in the element trees of `Markup.dfy`:

- printing is exactly printing a tree, and the console parser returns that tree, for every document whose links both sides
  keep; the parser's possible results are characterised exactly (a forest is one if and only if reading its print gives it back);
- the sanitized document has exactly the outline that its foreign tree has by itself: every line in order, in the quote, list and item
  its elements open, at the level they give it, with the marks of its ancestors. The stack of containers with its shared lists refines
  a reading that has neither;
- sanitizing is a fixpoint, with the exact condition under which it is one, by itself and through the console; lists nest at most two
  deep and quotes hold only paragraphs, whatever tree comes in;
- the editor's link check accepts exactly the texts of a grammar and changes nothing but the case of the scheme and the spelling of the
  host; entities, tags in any spelling and whole texts are read as they are written;
- `finish` meets a specification that does not mention its scan: which characters and breaks survive, and where one space stays; the
  lists on which a second pass changes something are characterised;
- what the old-notation compiler makes shows the lines of the old text one for one, each in its paragraph or numbered item, strong and
  emphasised exactly where the notation says; and it stays under reading and sanitizing exactly when the text holds no refused character
  and both link checks keep its links.

**Renaming of style attributes** (`renameStyleAttributes`): the renamed string scans into the same tokens with only the
names of style attributes changed, so renaming twice is renaming once.

**The tracker** (`arena-track`): engaged time is the measure of the visible instants less than 30 s after input, wherever
ticks fall; the events of a run are those that its calls stand for, with names and properties written out; they are conserved; bodies
are split in the only way the limits allow.

**The venue generator**: the flood fill returns exactly the maximal 4-connected pixel sets that pass its filter, each once, in
reading order; detected disks fall into rows in the only way the 5-pixel rule allows; a worksheet reader accounts for every numeric cell of
the sheet below a header, and which cells are seats is said of the cells alone; the exporter draws one circle a seat, at its cell, under ids
that never repeat; the job registry is safe under every interleaving, and a finished job is found for exactly its time.

## How it is laid out

Functions give the meaning of an operation; classes and methods follow the loops and assignments of the source and are proved
equal to those functions; lemmas prove the promises about the functions. Where the source updates objects in place, the model
does too: `Converter.Converter` (which reaches its lists by paths into the document, where the source shares references to them),
`Writer.Output`, `ReaderLoop.TreeBuilder` (with heap elements whose child lists grow), `Legacy.Converter` (with the search position that
openers share), `Tracker.Tracker`, `Jobs.JobManager` and the `visited` array of `FloodFill`.

| area | files |
|---|---|
| characters, model, normaliser | Chars, RichModel, Finish, FinishSpec, LinkLines, FinishLinks, FinishTwice, TextRows, MarkedRows |
| printer | Markup, Printer, NestMarks, Writer, Units, VisibleText, PrintedText, PrintedReading |
| console reader | Reader, ReaderLoop, Escaping, Entities, TagReading, SpelledTags, SpelledText, RoundTrip, DocRoundTrip, ReaderSafety |
| sanitizer | SanitizerModel, Converter, SanitizerLines, SanitizerInv, SanitizerWalk, TreeReading, SanitizerText, Outline, OutlineSpine, OutlineWalk, TagAliases, InlineWalk, SanitizerFix |
| links and the whole chain | Href, HrefLoops, HostNames, LinkShape, LinkReading, Fixpoint, FixpointExact, SanitizeTwice |
| style attributes | StyleModel, StyleRules, StyleAttributes |
| old notation | LegacyModel, LegacyRules, Legacy, LegacyNotation, LegacyLines, LegacyMarks, LegacyStays, LegacyExact |
| tracker | TrackerModel, EngagedTime, TrackerQueue, TrackerEvents, Tracker |
| venue generator | Grid, FloodFill, RowGrouping, Seating, SeatingExact, SeatingRun, Exporter, SeatDrawing, JobModel, JobTime, Jobs |

## Where the code and its documentation differ

- `sanitize` is called idempotent (sanitize.ts:498). It is, exactly when no kept link is longer than 500 bytes
  (`SanitizeTwice.ProfileTwiceExactly`): `cleanHref` checks the length before the host is converted, and conversion can lengthen it.
  `SanitizeTwice.SecondPassDropsLink` has a tree whose one link of 500 bytes becomes 505 and is gone after the second pass.
- `FixpointExact.ProfileStaysExactly` gives the condition for the whole chain, including the two characters the console's link check refuses
  and the editor's does not (U+FFFD and U+2065), which `Href.ConsoleKeeps` isolates.
- A second `finish` is not always the identity, even on lists where the runs of each link stand together: merging can leave a link with
  nothing but a space (`FinishTwice.FinishChangesTwice`). `FinishTwice.FinishTwiceExactly` says for which lists it is.
- Unknown entities are said to stay as typed (richtext.ts:73). "&toString;" and "&valueOf;" do not (`Entities.ToStringChanges`): the table
  lookup finds the functions every JavaScript object inherits. `Entities.UnknownStays` shows that these two names are the only ones, and
  `Entities.DecodesAsDocumented` that a text decodes as documented exactly when it holds neither. The round trip holds regardless.
- `legacyChars` is said to apply the character policy the way the sanitizer does (legacy.ts:21). It keeps every refused character, which the
  sanitizer drops (`LegacyStays.RefusedParts`); `LegacyStays.LegacyCharsAllowed` says exactly when its result is clean.
- The branch of `activity` that restarts the tick of a visible page (index.ts:297) never runs: a tick at the same moment has already set it
  (`EngagedTime.InputOnlyTicks`). It is kept in the model.
- The list fallback of `enclosingList` (sanitize.ts:194-199) is never reached (`SanitizerInv.TopDepth`).

## Model

| member | source | states |
|---|---|---|
| Finish.Finish | apps/rich-editor/src/model.ts:71-136 | the loops with their shared flag and text buffers compute the cell scan `Finished`, on every chunk list |
| Finish.TrimTail | apps/rich-editor/src/model.ts:79-88 | the loop that cuts spaces from the tail cuts exactly the trailing spaces of the line so far |
| Finish.ScanText | apps/rich-editor/src/model.ts:102-115 | one text chunk adds its characters, with white space collapsed across chunk borders |
| FinishSpec.NormalKeeps | apps/rich-editor/src/model.ts:71-136 | the cells that survive are exactly those the declarative rule names: all ink, a break between ink and ink, a space just after ink that leads to ink on its line; in order, with their marks |
| FinishSpec.NormalTidy | apps/rich-editor/src/model.ts:63-70 | no space at a border, beside a break or beside a space; no break at a border |
| FinishSpec.FinishContract | apps/rich-editor/src/model.ts:71-136 | null exactly when there is no ink; otherwise a canonical, tidy list whose characters, breaks and marks are the kept ones |
| FinishSpec.FinishFixes | apps/rich-editor/src/model.ts:71-136 | a tidy canonical list is left alone if and only if each of its links holds ink |
| FinishTwice.SecondFinish | apps/rich-editor/src/model.ts:71-136 | on any list: a second pass changes nothing if and only if every link of the first result holds ink |
| FinishTwice.FinishTwiceExactly | apps/rich-editor/src/model.ts:71-136 | the same condition on the input: among the kept cells, every linked run of equal marks is numbered by a link that holds ink |
| FinishTwice.FinishChangesTwice | apps/rich-editor/src/model.ts:71-136 | a list whose links stand together and which a second pass changes |
| FinishSpec.FinishKeepsText | apps/rich-editor/src/model.ts:71-136 | the characters that are not white space stay, in order |
| TextRows.FinishRows | apps/rich-editor/src/model.ts:71-136 | when no row is blank, the normalised line shows the rows of the input between its breaks, one for one, without white space |
| MarkedRows.FinishKeepsRows | apps/rich-editor/src/model.ts:71-136 | normalising keeps every row that shows something: its visible characters in order, each with its marks and link target |
| LinkLines.FinishKeepsLinkText | apps/rich-editor/src/model.ts:71-136 | when the runs of each link stand together, every link printed afterwards holds text |
| FinishLinks.FinishAddsNoLink | apps/rich-editor/src/model.ts:71-136 | normalising never makes more printed links than there were linked chunks |
| Printer.LineIsNest | apps/rich-editor/src/model.ts:163-193 | the flat writer with its stack of open marks prints exactly a well-nested tree, for every chunk list |
| NestMarks.TextsUnderMarks | apps/rich-editor/src/model.ts:148-193 | for every chunk list, the texts of the printed tree are those of the chunks in order, each under exactly the marks of its chunk in their fixed order |
| NestMarks.NothingEmpty | apps/rich-editor/src/model.ts:148-193 | when no chunk text is empty, no element or text of the tree is |
| PrintedReading.DocReads | apps/rich-editor/src/model.ts:148-253 | read element by element, the printed tree of any document shows the rows of its lines, in order, each character under exactly its marks |
| Writer.LinkOpened | apps/rich-editor/src/model.ts:163-193 | a link is opened and counted exactly where a run of one target begins, not split by a break |
| Writer.Output.CloseTo | apps/rich-editor/src/model.ts:163-193 | the open marks above a level are closed, innermost first |
| Writer.Output.WriteInline | apps/rich-editor/src/model.ts:163-193 | the loop appends the print of the line's tree and adds its number of links |
| Writer.Output.WriteList | apps/rich-editor/src/model.ts:204-216 | a list appends the print of its tree; empty items and lists print nothing |
| Writer.Output.WriteBlock | apps/rich-editor/src/model.ts:222-249 | a block appends the print of its tree |
| Writer.DocHtml | apps/rich-editor/src/model.ts:219-253 | the HTML is the print of the document tree and the count is its number of links |
| Units.Units | apps/rich-editor/src/model.ts:256-279 | the callback is called with the lines of the document, in order |
| Units.UnitsAreLines | apps/rich-editor/src/model.ts:219-279 | those lines are the texts of the printed paragraphs, headings and items, in order, none left out and none twice |
| Units.VisibleLen | apps/rich-editor/src/model.ts:286-295 | the two counters add up to the length of the visible text |
| Units.ConsoleShowsVisibleText | apps/rich-editor/src/model.ts:309-313 | what the console parser shows of the printed string are the lines the editor counts |
| VisibleText.VisibleTextKeepsText | apps/rich-editor/src/sanitize.ts:251-353 | the visible text is the allowed characters of the text nodes outside dropped elements, each as often, and else only white space |
| PrintedText.SamePrintSameText | apps/rich-editor/src/model.ts:140-253 | trees with plain-word tags that print the same string hold the same text, even where no parser would accept their links |
| Escaping.DecodeUndoesEscape | apps/admin-web/src/lib/richtext.ts:74-97 | decoding undoes both escapes on every string |
| Entities.DecimalReads | apps/admin-web/src/lib/richtext.ts:64-86 | "&#", up to seven digits with or without leading zeros, ";" is the character of that number; U+FFFD for 0, surrogates and numbers past the last character |
| Entities.HexReads | apps/admin-web/src/lib/richtext.ts:64-86 | so is "&#x" or "&#X" with up to six hexadecimal digits of either case |
| Entities.EveryCharacterReads | apps/admin-web/src/lib/richtext.ts:64-86 | every character has its decimal and hexadecimal entities |
| Entities.TableReads | apps/admin-web/src/lib/richtext.ts:64-86 | each of the six names stands for its text, "apos" and "nbsp" included |
| Entities.UnknownStays | apps/admin-web/src/lib/richtext.ts:64-85 | a named entity outside the table stays as typed if and only if its name is neither toString nor valueOf |
| Entities.ToStringChanges | apps/admin-web/src/lib/richtext.ts:73-85 | "&toString;" becomes the text of a function |
| Entities.DecodesAsDocumented | apps/admin-web/src/lib/richtext.ts:73-85 | for every text: it is decoded as its comment says, with the known spellings (six names, decimal and hexadecimal numerals) listed and all else as typed, if and only if neither of the two occurs as an entity in it |
| ReaderLoop.ReadTag | apps/admin-web/src/lib/richtext.ts:103-142 | the index loops read a start tag as specified, or refuse it |
| ReaderLoop.ReadAttrs | apps/admin-web/src/lib/richtext.ts:109-141 | the attribute loop yields the attributes, the first of a name winning |
| SpelledTags.TagReads | apps/admin-web/src/lib/richtext.ts:102-142 | a tag in any spelling (case, white space, quotes, bare values) reads as its name in small letters and, of each attribute name, the first value, decoded |
| ReaderLoop.TreeBuilder.Push | apps/admin-web/src/lib/richtext.ts:144-220 | opening an element adds it to its parent's children in place and to the stack |
| ReaderLoop.TreeBuilder.PopElement | apps/admin-web/src/lib/richtext.ts:148-160 | popping finishes an element; the children of all others stay as they are |
| ReaderLoop.OpenTag | apps/admin-web/src/lib/richtext.ts:185-216 | a start tag closes what may not contain it, respects the depth limit and opens only whitelisted elements |
| ReaderLoop.Parse | apps/admin-web/src/lib/richtext.ts:144-220 | the heap tree the parser builds denotes the specified forest, on every input |
| RoundTrip.ParsePrint | apps/admin-web/src/lib/richtext.ts:144-220 | reading the print of any good forest gives that forest |
| SpelledText.TextReads | apps/admin-web/src/lib/richtext.ts:144-220 | a text of words, tags, comments and dropped elements in any spelling gives the tree its tokens build one after the other |
| SpelledText.EndsImplied | apps/admin-web/src/lib/richtext.ts:206-217 | a block ends the paragraph or heading it starts in, and an item the item, as if the end tag stood there |
| SpelledText.StrayEnd | apps/admin-web/src/lib/richtext.ts:155-200 | an end tag without its start tag does nothing |
| SpelledText.OpenAtEnd | apps/admin-web/src/lib/richtext.ts:144-220 | what is open at the end of the text is closed there |
| ReaderSafety.ParsedIsGood | apps/admin-web/src/lib/richtext.ts:144-220 | on any input: whitelisted elements only, no link below a link, no block directly in a text block, no item directly in an item, nesting at most 32, texts merged |
| ReaderSafety.ReaderImage | apps/admin-web/src/lib/richtext.ts:144-220 | the good forests are exactly the parser's possible results, and exactly those that survive print and parse |
| ReaderSafety.SafeHrefFixed | apps/admin-web/src/lib/richtext.ts:47-55 | a link the console accepts is accepted again as it is |
| LinkReading.SafeHrefExactly | apps/admin-web/src/lib/richtext.ts:42-62 | the console keeps `h` exactly for `h` between spaces, when it begins with https:// or mailto: in any case, holds no refused character and is readable as a URL |
| DocRoundTrip.PrintedDocReadsBack | apps/rich-editor/src/model.ts:219-253 | a normalised document with safe links, printed and parsed by the console, is its own element tree |
| Converter.Converter.FlushRun | apps/rich-editor/src/sanitize.ts:159-184 | the pending run is finished and put where the top container says, with a break when the item already has text |
| Converter.Converter.EnclosingList | apps/rich-editor/src/sanitize.ts:194-199 | the innermost list on the stack |
| Converter.Converter.OpenListBlock | apps/rich-editor/src/sanitize.ts:201-239 | a list opens at the root, below an item, below the last item, or as an alias of the list around it, by depth |
| Converter.Converter.WalkNode | apps/rich-editor/src/sanitize.ts:251-262 | one node of the tree makes the specified step; too deep a tree fails |
| Converter.Converter.WalkElement | apps/rich-editor/src/sanitize.ts:263-351 | one element: its marks, its container, its children, and what is restored after them |
| Converter.ParseNodes | apps/rich-editor/src/sanitize.ts:484-496 | the converter on a forest gives `Sanitized` |
| SanitizerInv.TopDepth | apps/rich-editor/src/sanitize.ts:139-239 | the stack agrees with the document: inside an item its list is found, at its depth, so the fallback is not reached |
| SanitizerInv.ListsNoQuote | apps/rich-editor/src/sanitize.ts:186-239 | no quote is open inside a list |
| SanitizerWalk.WalkKeeps | apps/rich-editor/src/sanitize.ts:251-353 | a node that does not throw leaves the stack as it was and keeps lines, links and containers in order |
| SanitizerWalk.SanitizedIsGood | apps/rich-editor/src/sanitize.ts:251-353 | for every tree: lines normalised, links checked and holding text, only marks of the profile, lists at most two deep, quotes of paragraphs and headings at the root only |
| SanitizerText.SanitizedKeepsRows | apps/rich-editor/src/sanitize.ts:151-184 | the rows of the document are those of the tree, each as often: allowed visible characters in order, with the marks read off the ancestors of each text (b or strong, i or em, u, the outermost accepted link, headings that cannot stay) |
| OutlineWalk.SanitizedOutline | apps/rich-editor/src/sanitize.ts:127-354 | for every tree: the outline of the document (lines with their kind, quotes, lists with level and order, items, and the rows of each with their marks) is, entry by entry, the one read off the tree without stack or references; so h1 to h3 give h3 and h4 to h6 give h4 |
| OutlineSpine.AddSubOutline | apps/rich-editor/src/sanitize.ts:201-239 | a list opened below the last item adds one entry at the end of the outline |
| OutlineSpine.JoinOutline | apps/rich-editor/src/sanitize.ts:176-181 | a later line of an item is added to its entry, wherever that stands, and moves no other |
| VisibleText.SanitizedKeepsMarks | apps/rich-editor/src/sanitize.ts:251-353 | each visible character of the tree stays in the lines of the document, as often and with its marks |
| PrintedReading.PrintKeepsRows | apps/rich-editor/src/sanitize.ts:251-353 | the printed tree shows the rows of the foreign tree, with the marks their ancestors give them in the profile |
| TagAliases.SanitizedByName | apps/rich-editor/src/sanitize.ts:44-89 | every tree is sanitized like the tree with b, i, h1, h2, h5, h6 and the plain blocks replaced by the names that are printed for them |
| InlineWalk.WalkLine | apps/rich-editor/src/sanitize.ts:251-353 | walking a printed line gives its chunks back: text, marks and targets, with links renumbered |
| InlineWalk.RelinkFinished | apps/rich-editor/src/model.ts:71-136 | and finishing those changes nothing: `finish` is stable after printing and reading |
| SanitizerFix.GoodDocStays | apps/rich-editor/src/sanitize.ts:498-501 | any good document whose links the check keeps is sanitized into the same tree |
| SanitizerFix.SanitizedStays | apps/rich-editor/src/sanitize.ts:498-501 | so the result of sanitizing is, when the check keeps its links |
| SanitizeTwice.SanitizeTwiceExactly | apps/rich-editor/src/sanitize.ts:498-501 | a second sanitizing keeps the tree of the first result if and only if the link check keeps each of its links |
| SanitizeTwice.ProfileTwiceExactly | apps/rich-editor/src/sanitize.ts:498-501 | for a profile: if and only if no link of the result is longer than 500 bytes |
| SanitizeTwice.SecondPassDropsLink | apps/rich-editor/src/sanitize.ts:498-501 | a tree with one link whose second sanitizing drops the link and keeps the letter in it |
| Href.CleanHrefFixed | apps/rich-editor/src/href.ts:26-74 | a checked link passes the check unchanged if and only if it is at most 500 bytes |
| Href.CleanHrefNotAlwaysFixed | apps/rich-editor/src/href.ts:26-28 | a link of 500 bytes that the check turns into one it refuses |
| Href.ParseLinkInputFixed | apps/rich-editor/src/href.ts:145-152 | the link dialog fixes a checked link under the same condition |
| Href.ConsoleKeeps | apps/admin-web/src/lib/richtext.ts:42-55 | the console keeps a checked link exactly when it holds neither of two characters and the URL parser reads it |
| HrefLoops.Trimmed | apps/rich-editor/src/href.ts:14-21 | the two closing positions cut exactly the spaces at both ends |
| HrefLoops.LocalPartOk | apps/rich-editor/src/href.ts:79-88 | the loop accepts exactly the dot-atoms of section 3.2.3 of RFC 5322 of at most 64 characters, "%" left out: nonempty atoms joined by dots |
| LinkShape.ValidLocalPartExactly | apps/rich-editor/src/href.ts:76-88 | the tests at the borders, for ".." and of each character amount to that grammar |
| HrefLoops.Host | apps/rich-editor/src/href.ts:109-133 | the host check, with its loops over characters and labels |
| HrefLoops.Checked | apps/rich-editor/src/href.ts:26-74 | the loops compute `CleanHref`, the check that `LinkReading.CleanHrefExactly` characterises; a result is "https://", a host name and a tail from "/", "?" or "#", or "mailto:", a dot-atom, "@" and a host name, without "?" |
| LinkReading.CleanHrefExactly | apps/rich-editor/src/href.ts:14-74 | the check gives `h` for exactly the texts that, without the white space around them, are a link to `h`: https in any case, a host that names its own, any tail kept as it is; or mailto, a dot-atom and such a host, whatever query follows cut off |
| LinkReading.HostReads | apps/rich-editor/src/href.ts:95-133 | an authority is accepted exactly when its ASCII form, in small letters and without the dot of the root, is a host name |
| LinkReading.TypedHost | apps/rich-editor/src/href.ts:145-152 | a host and path typed without a scheme become the https link |
| LinkReading.TypedMail | apps/rich-editor/src/href.ts:145-152 | a mail address typed without a scheme becomes the mail link |
| HostNames.HostOkExactly | apps/rich-editor/src/href.ts:109-139 | the host check accepts exactly dot-separated labels whose last is no decimal or hexadecimal number and not "localhost" |
| HostNames.NumbersAreNoHosts | apps/rich-editor/src/href.ts:109-139 | so no address in numbers passes, 127.0.0.1 and 0x7f.1 included |
| LinkShape.CheckedShape | apps/rich-editor/src/href.ts:26-74 | every result has one of these two shapes, and its scheme is allowed |
| Fixpoint.SanitizedHtmlStays | apps/rich-editor/src/sanitize.ts:498-501 | sanitize, print, read on the console, sanitize: the tree and the HTML are the same |
| FixpointExact.TargetsComeFrom | apps/rich-editor/src/sanitize.ts:245-249 | every link of a sanitized document came out of the link check of some attribute of the tree |
| FixpointExact.GoodStaysExactly | apps/rich-editor/src/sanitize.ts:498-501 | reading and sanitizing the HTML of any good document keeps it if and only if both link checks keep each of its links |
| FixpointExact.StaysExactly | apps/rich-editor/src/sanitize.ts:498-501 | the chain is a fixpoint if and only if both link checks keep every link of the document |
| FixpointExact.ProfileStaysExactly | apps/rich-editor/src/sanitize.ts:498-501 | for a profile: if and only if no kept link is over 500 bytes, holds U+FFFD or U+2065, or is unreadable as a URL |
| StyleModel.ScanKeeps | apps/rich-editor/src/sanitize.ts:373-440 | the tokens of the scan are the input, cut into pieces: nothing is lost |
| StyleRules.Rescan | apps/rich-editor/src/sanitize.ts:362-440 | the renamed string scans into the same tokens, with only names of style attributes replaced |
| StyleRules.RenameTwice | apps/rich-editor/src/sanitize.ts:373-440 | renaming a renamed string changes nothing |
| StyleRules.NoStyleNoChange | apps/rich-editor/src/sanitize.ts:374 | the early return agrees with the full scan |
| StyleAttributes.Attributes | apps/rich-editor/src/sanitize.ts:402-431 | the attribute loop of a start tag, up to its end |
| StyleAttributes.RenameStyleAttributes | apps/rich-editor/src/sanitize.ts:373-440 | the nested index loops terminate and put out the renamed tokens |
| Legacy.BoldClosers | apps/rich-editor/src/legacy.ts:207-213 | lists exactly the closing "**" of a line, in order |
| Legacy.FindEnd | apps/rich-editor/src/legacy.ts:216-222 | the shared position, moved on by earlier searches, yields what a fresh search from i + 3 would |
| LegacyRules.LeastIs | apps/rich-editor/src/legacy.ts:215-222 | and that is the least closer there is |
| Legacy.Converter.BoldAt | apps/rich-editor/src/legacy.ts:136-145 | one position of the line: a "**" that closes takes its part out, any other character is passed |
| Legacy.Converter.Inline | apps/rich-editor/src/legacy.ts:131-147 | the bold loop cuts a line into its parts and converts them with the current budget |
| Legacy.Converter.SplitItalics | apps/rich-editor/src/legacy.ts:150-166 | the italic loop cuts at "_" at word borders |
| Legacy.Converter.SplitLinks | apps/rich-editor/src/legacy.ts:169-203 | the link loop, with budget and link number updated as links are found |
| Legacy.Converter.Block | apps/rich-editor/src/legacy.ts:97-128 | a block of lines becomes its paragraphs and lists, appended to the document |
| Legacy.FromLegacy | apps/rich-editor/src/legacy.ts:245-266 | the compiled text is the print of `LegacyDoc` |
| LegacyRules.InlineKeepsText | apps/rich-editor/src/legacy.ts:131-203 | the chunks of a line hold its parts in order, and putting back exactly the matched "**" and "_" gives the line |
| LegacyRules.InlineBudget | apps/rich-editor/src/legacy.ts:169-203 | budget plus links made is constant; links are numbered on, each leading where its own text does |
| LegacyRules.LegacyLinksLimited | apps/rich-editor/src/legacy.ts:89-95 | the printed links never exceed the limit of the profile, 0 where it does not link |
| LegacyRules.EachLineOnce | apps/rich-editor/src/legacy.ts:97-128 | the segments of a block hold each line of the block once, in order |
| LegacyNotation.ScoresMark | apps/rich-editor/src/legacy.ts:150-166 | two "_" mark the text between them if and only if they stand at word borders and the text is tight |
| LegacyNotation.StarsMark | apps/rich-editor/src/legacy.ts:131-147 | two "**" mark the text between them exactly when it is tight |
| LegacyNotation.BareLink | apps/rich-editor/src/legacy.ts:169-203 | "https://" up to the next break, without the punctuation at its end, becomes a link with that text when the check accepts it |
| LegacyNotation.BulletExactly | apps/rich-editor/src/legacy.ts:68-80 | a line is a bullet exactly when it is "-", "*" or U+2022, white space, and the text of the item |
| LegacyNotation.NumberExactly | apps/rich-editor/src/legacy.ts:80-86 | a line has number `n` exactly when it is the numeral of `n` from 1 to 999, a period, white space, and the text |
| LegacyMarks.InlineLooks | apps/rich-editor/src/legacy.ts:131-203 | for every line: strong exactly inside a matched "**", em exactly inside a matched "_", never underlined; links only on bare links that the check accepts |
| LegacyMarks.LegacyPlacesLines | apps/rich-editor/src/legacy.ts:97-241 | for every text: row by row, the printed tree places each line in its paragraph or as the numbered item of its list, with those marks |
| LegacyLines.LegacyKeepsLines | apps/rich-editor/src/legacy.ts:97-147 | for every text: the rows of the printed document are its nonblank lines, one for one in order, each as its list body or its whole text without the matched delimiters, and none empty |
| LegacyLines.LineShows | apps/rich-editor/src/legacy.ts:131-166 | a line with a visible character shows one: "**" and "_" alone never vanish as matched pairs |
| LegacyRules.SegmentsAreRuns | apps/rich-editor/src/legacy.ts:111-122 | a list is a longest run of at least two bullets, or of lines numbered exactly 1, 2, ..., k; every other line is text |
| LegacyStays.LegacyCharsAllowed | apps/rich-editor/src/legacy.ts:22-41 | the characters are as the sanitizer would leave them exactly when none is refused |
| LegacyStays.RefusedParts | apps/rich-editor/src/legacy.ts:21-41 | each refused character is kept where the sanitizer drops it; with "a", U+0001, "b" as an instance |
| LegacyStays.LegacyGood | apps/rich-editor/src/legacy.ts:245-266 | a compiled text without refused characters is a document the sanitizer could have made |
| LegacyStays.LegacyHtmlStays | apps/rich-editor/src/legacy.ts:236-266 | without refused characters and with links both checks keep, the console reads it back, and sanitizing it prints the same HTML |
| LegacyExact.LegacyStaysExactly | apps/rich-editor/src/legacy.ts:236-266 | in a profile with the tags of the notation: it is kept if and only if the text holds no refused character and both checks keep its links |
| LegacyExact.ShippedStaysExactly | apps/rich-editor/src/legacy.ts:236-266 | for each shipped profile: if and only if there is no refused character and no link over 500 bytes, with U+FFFD or U+2065, or unreadable as a URL |
| Tracker.Tracker.TickNow | packages/arena-track/src/index.ts:190-194 | a tick adds the time since the last one, up to 30 s after the last input |
| Tracker.Tracker.Record | packages/arena-track/src/index.ts:196-208 | an event outside the dictionary is dropped, its properties are filtered, the oldest of more than 200 goes |
| Tracker.Tracker.SettleEngaged | packages/arena-track/src/index.ts:210-215 | a settlement rounds, reports and resets the time |
| Tracker.Tracker.FlushQueue | packages/arena-track/src/index.ts:237-276 | purge, keep or send, as the switch, the identity and the credentials say |
| Tracker.CutOthers | packages/arena-track/src/index.ts:246-247 | the backward loop of splices leaves exactly the events of the current identity, in order |
| Tracker.Bodies | packages/arena-track/src/index.ts:254-268 | the two nested loops split the items greedily |
| Tracker.FirstToSend | packages/arena-track/src/index.ts:269-275 | the backward loop finds where the newest bodies within the budget begin |
| Tracker.Tracker.Handle | packages/arena-track/src/index.ts:283-380 | each handler makes the step of the state machine |
| TrackerEvents.StepRecords | packages/arena-track/src/index.ts:196-380 | every step records exactly the events its call stands for, names, properties and conditions written out; unless it flushes, they are last in the queue |
| TrackerEvents.EventsRun | packages/arena-track/src/index.ts:196-380 | what a run has recorded is what its calls stand for, one after the other |
| TrackerEvents.PageRuns | packages/arena-track/src/index.ts:283-293 | page view, screen and depths reached are those of the last view of the run |
| TrackerEvents.ViewIsRecorded | packages/arena-track/src/index.ts:283-293 | in every reachable state that is on, a view records one event besides a settlement, last in the queue: page_view on a site and screen_view in the event center, with its new page view, its time and the cleaned route |
| TrackerEvents.OffRecordsNothing | packages/arena-track/src/index.ts:196-208 | off or destroyed, nothing is recorded |
| TrackerEvents.DepthOnce | packages/arena-track/src/index.ts:337-351 | a scroll reports exactly the depths it reaches that its page view has not reported |
| EngagedTime.EngagedTimeIsExact | packages/arena-track/src/index.ts:190-215 | over every possible run, settled plus pending time is the number of visible milliseconds less than 30 s after an input |
| EngagedTime.SettlementsAreEarned | packages/arena-track/src/index.ts:210-215 | settlements follow without a gap; each holds exactly its own engaged instants, all on its screen and page view |
| EngagedTime.InputOnlyTicks | packages/arena-track/src/index.ts:294-298 | an input only ticks and notes its time: the last statement of the handler never changes anything |
| TrackerQueue.ReportedTimeIsNear | packages/arena-track/src/index.ts:210-215 | while on and with a screen, reported seconds differ from engaged time by at most 500 ms a settlement |
| TrackerQueue.ReportRuns | packages/arena-track/src/index.ts:210-215 | a settlement is reported exactly when on, with a screen and a second or more, under its own page view, and the report is recorded |
| TrackerQueue.QueueRuns | packages/arena-track/src/index.ts:196-276 | over every run: at most 200 queued; recorded = queued + dropped + sent; only dictionary events and properties; every body within limits; nothing kept once destroyed |
| TrackerQueue.SplitIs | packages/arena-track/src/index.ts:254-268 | bodies are nonempty, in order, of one page view and context, at most 50 events and 15,000 bytes unless single, and none could take the next event |
| TrackerQueue.SplitOnly | packages/arena-track/src/index.ts:254-268 | there is only one such split |
| TrackerQueue.LeaveLongest | packages/arena-track/src/index.ts:269-275 | on leaving, exactly the longest run of newest bodies within 60,000 bytes goes out |
| TrackerQueue.FlushSends | packages/arena-track/src/index.ts:237-276 | when a flush sends, what it sends, and what it leaves queued |
| TrackerQueue.SentIsMine | packages/arena-track/src/index.ts:244-249 | what leaves was recorded under the identity of that moment |
| TrackerQueue.ThirdClick | packages/arena-track/src/index.ts:326-331 | a rage click is the third click on one element with less than a second since the first |
| TrackerQueue.RageRuns | packages/arena-track/src/index.ts:326-331 | over every run at most two clicks are held, in order |
| FloodFill.Spread | apps/venue-svg-generator/benchmark_v1/phase5a_ladvi.py:52-57 | the four neighbours of a taken pixel that are set and unseen are marked and pushed |
| FloodFill.Fill | apps/venue-svg-generator/benchmark_v1/phase5a_ladvi.py:47-57 | the stack loop ends and takes each pixel of the component once |
| FloodFill.Measure | apps/venue-svg-generator/benchmark_v1/phase5a_ladvi.py:58-70 | count, tight bounds and mean of the pixels, or dropped by the filter |
| FloodFill.Components | apps/venue-svg-generator/benchmark_v1/phase5a_ladvi.py:39-70 | the result is correct (it describes the kept components one by one, in reading order), and every set pixel is taken exactly once |
| FloodFill.ExpectedExact | apps/venue-svg-generator/benchmark_v1/phase5a_ladvi.py:39-70 | these are exactly the maximal 4-connected sets that pass the filter, disjoint, in reading order of their first pixels |
| FloodFill.CorrectOnce | apps/venue-svg-generator/benchmark_v1/phase5a_ladvi.py:39-70 | a mask has exactly one correct result, order included |
| FloodFill.DescribedOnce | apps/venue-svg-generator/benchmark_v1/phase5a_ladvi.py:61-70 | nothing in an entry is free: bounds, count and centroid are determined by the component |
| Grid.ComponentMaximal | apps/venue-svg-generator/benchmark_v1/phase5a_ladvi.py:39-57 | the pixels reachable from one are connected among themselves and touch no other |
| Grid.MaximalIsComponent | apps/venue-svg-generator/benchmark_v1/phase5a_ladvi.py:39-57 | and every maximal connected set is reached from each of its pixels |
| RowGrouping.GroupRows | apps/venue-svg-generator/benchmark_v1/phase5a_ladvi.py:73-80 | the loop cuts the sorted disks into rows and sorts each |
| RowGrouping.RowsOnly | apps/venue-svg-generator/benchmark_v1/phase5a_ladvi.py:73-80 | the rule (near the mean of the row so far, or a new row) allows one way only |
| RowGrouping.GroupedOnce | apps/venue-svg-generator/benchmark_v1/phase5a_ladvi.py:73-80 | so the grouping of a list of disks is determined |
| RowGrouping.EachDiskOnce | apps/venue-svg-generator/benchmark_v1/phase5a_ladvi.py:73-80 | every disk is in exactly one row |
| RowGrouping.SortedStable | apps/venue-svg-generator/benchmark_v1/phase5a_ladvi.py:75-80 | both sorts are stable: disks of equal key keep their order |
| SeatingRun.SectionRanges | apps/venue-svg-generator/xlsx_seating_adapter/core.py:69-79 | the nested loops find the sections |
| Seating.SectionsApart | apps/venue-svg-generator/xlsx_seating_adapter/core.py:69-79 | the row ranges of sections lie within the sheet and never overlap |
| Seating.SeatsInOrder | apps/venue-svg-generator/xlsx_seating_adapter/core.py:127-167 | seats come in strict reading order, so no cell and no key made of it repeats |
| Seating.EachNumberOnce | apps/venue-svg-generator/xlsx_seating_adapter/core.py:82-167 | with the shipped rules, how often each numeric cell of a row of a section is a seat and how often put aside; `SeatingExact.EveryNumber` says which rows those are |
| Seating.PassingPartition | apps/venue-svg-generator/xlsx_seating_adapter/core.py:169-188 | in a passing model it is exactly one seat with a whole number, or exactly one entry put aside; `SeatingExact.EveryNumberPlaced` says it of the sheet |
| SeatingExact.SectionsCover | apps/venue-svg-generator/xlsx_seating_adapter/core.py:69-79 | exactly the rows below a header that are no header themselves are read (all rows when there is none), each in one section, under the label of the last header of the nearest header row |
| SeatingExact.EveryNumber | apps/venue-svg-generator/xlsx_seating_adapter/core.py:82-167 | for every numeric cell of the sheet: how often it is a seat and how often put aside, said of its row alone |
| SeatingExact.EveryNumberPlaced | apps/venue-svg-generator/xlsx_seating_adapter/core.py:169-188 | in a passing model each numeric cell of a row that is read is one seat with a whole number, or one entry put aside |
| SeatingExact.SeatedExactly | apps/venue-svg-generator/xlsx_seating_adapter/core.py:82-125 | which numbers of a row are seats, between the markers or edges of its profile, and under which row name |
| SeatingExact.SeatsAreRight | apps/venue-svg-generator/xlsx_seating_adapter/core.py:127-167 | every seat is such a cell, with the label of its section, the name of its row and its number |
| SeatingExact.SeatsAreAll | apps/venue-svg-generator/xlsx_seating_adapter/core.py:127-167 | and every such cell is a seat once |
| SeatingExact.HeadersListed | apps/venue-svg-generator/xlsx_seating_adapter/core.py:69-75 | the headers are listed in reading order, each once |
| SeatingRun.ReadRow | apps/venue-svg-generator/xlsx_seating_adapter/core.py:141-167 | one row adds its seats and the entries it puts aside |
| SeatingRun.Extract | apps/venue-svg-generator/xlsx_seating_adapter/core.py:127-188 | the loops build the model, and PASS is given exactly when it passes |
| Exporter.FreshId | apps/venue-svg-generator/arena_export/exporter.py:213-217 | the loop ends with the first numbered name that is free |
| Exporter.Draw | apps/venue-svg-generator/arena_export/exporter.py:206-230 | fails exactly when two seats share an id; otherwise group ids and keys are distinct and each group holds exactly its records |
| Exporter.OneCircleEach | apps/venue-svg-generator/arena_export/exporter.py:206-230 | as many circles as seats |
| Exporter.GroupsAreNoSeats | apps/venue-svg-generator/arena_export/exporter.py:213-222 | no group shares an id with a seat |
| Exporter.KeysDiffer | apps/venue-svg-generator/xlsx_seating_adapter/core.py:158 | keys made of column letters and row digits differ for different cells even after unsafe characters are replaced, whatever the sheet is called |
| Exporter.PassingDraws | apps/venue-svg-generator/arena_export/exporter.py:102-129 | the circle ids of a passing worksheet are all different, so drawing it never fails over an id |
| SeatDrawing.SeatsAreDrawn | apps/venue-svg-generator/arena_export/exporter.py:102-129 | each seat has its circle, x from its column and y from its row, with its section, row and number; and each circle is that of a seat |
| SeatDrawing.CirclesAreCells | apps/venue-svg-generator/arena_export/exporter.py:102-129 | each circle of a passing worksheet stands for a cell that is a seat |
| Exporter.FitCanvas | apps/venue-svg-generator/arena_export/exporter.py:153-168 | the canvas asked for, else that of the profile, else one fitted to the farthest seats; refused exactly when out of bounds or when a circle leaves it |
| Exporter.Export | apps/venue-svg-generator/arena_export/exporter.py:102-230 | drawn exactly when the model passes, has seats, the radius is positive, the canvas is accepted and encloses every circle, and no id repeats; then one circle a seat |
| Jobs.JobManager.PurgeLocked | apps/venue-svg-generator/service/jobs.py:97-100 | exactly the finished jobs past their time are forgotten |
| Jobs.JobManager.Get | apps/venue-svg-generator/service/jobs.py:102-105 | after the purge, the very record of the job, which its worker goes on writing; nothing when it is forgotten |
| Jobs.JobManager.Submit | apps/venue-svg-generator/service/jobs.py:107-114 | refused exactly when the pending jobs reach the limit after purging; otherwise a queued job is filed |
| Jobs.JobManager.Finish | apps/venue-svg-generator/service/jobs.py:120-124 | result and error, then status, then time, with the lock held |
| JobModel.StepOk | apps/venue-svg-generator/service/jobs.py:97-169 | every step of every thread keeps each job in exactly one place and the pending jobs bounded |
| JobModel.PendingBounded | apps/venue-svg-generator/service/jobs.py:107-114 | in every reachable state: pending jobs within the limit and still registered, at most one running |
| JobModel.DoneShowsResult | apps/venue-svg-generator/service/jobs.py:120-124 | between any two writes, a job shown as done shows its result, a failed one its error |
| JobModel.LaterAdvances | apps/venue-svg-generator/service/jobs.py:120-129 | over any further steps statuses only advance, and a done or failed job keeps its status, result and error |
| JobTime.StepForgets | apps/venue-svg-generator/service/jobs.py:97-100 | a step forgets exactly the finished jobs older than their time at its clock reading |
| JobTime.ReadFinds | apps/venue-svg-generator/service/jobs.py:102-105 | a read finds a registered job exactly when it has not finished or is still within its time |
| JobTime.FoundForItsTime | apps/venue-svg-generator/service/jobs.py:97-105 | a finished job stays found, with its answer, over any steps within its time |
| JobTime.ForgottenForGood | apps/venue-svg-generator/service/jobs.py:97-114 | what is forgotten is never found again |
| JobTime.FirstInFirstOut | apps/venue-svg-generator/service/jobs.py:107-169 | jobs are taken in the order they were handed in |
| JobTime.AnswerIsStored | apps/venue-svg-generator/service/jobs.py:120-169 | the answer or problem a worker ends with is what its job holds |

## Left out

- The browser's HTML parser, `URL` and IDNA conversion: a DOM tree is the input, host conversion and URL readability are functions, the first assumed to leave converted hosts as they are (`Href.IdnaStable`).
- Lone surrogates: a character is a Unicode scalar value, so the halves that chars.ts, legacy.ts and href.ts treat specially do not occur, and positions count scalar values.
- Foreign-style reading (`styleMarks`, `weightOf`, `styleDeclarations`), `stripBulk` and the scheme-word expression: regular-expression detail.
- The size limit MAX_INPUT_BYTES: fixpoints are stated on trees and strings below it.
- The lists of the sanitizer are reached by paths into the document instead of shared references; two containers alias one list when they hold the same path.
- React rendering of the console's tree (`build`), `plainText`, `hasFormatting`, `measure`: simple passes over the models here.
- `Fixpoint.SanitizedHtmlStays`: asks that both link checks keep the document's links; `FixpointExact.StaysExactly` proves that this is the exact condition.
- `SanitizerFix.SanitizedStays`: asks that the link check keeps the links; `SanitizeTwice.SanitizeTwiceExactly` proves that this is the exact condition.
- `SanitizeTwice.SanitizeTwiceExactly`: speaks of the printed tree; that a browser parses the printed HTML into that tree is taken as given.
- `LegacyStays.LegacyHtmlStays`: asks the same of the links and no refused character of the text; `LegacyExact.LegacyStaysExactly` proves the exact condition, in profiles with the tags the notation uses.
- `LegacyRules.LegacyLinksLimited`: the limit is a parameter, standing for `maxLinks` of a linking profile and 0 of the others.
- Tracker: cleaning of texts, route templates, JSON text and byte counts are functions of the configuration, with the size of a body the sum of its parts; a handler reads the clock once; exceptions swallowed by `safe`, and how a body travels (beacon or fetch), are not modelled.
- Tracker calls `flowStep` and `error`: `track` with their one event.
- `EngagedTime.EngagedTimeIsExact`: speaks of runs whose clock does not run back and in which visibility changes only with its event, up to the destruction of the tracker.
- Flood fill: centroids and row means are exact rationals; rounding to binary floating point, and the detection steps around these two functions, are not modelled.
- Worksheets: reading XLSX files, evidence records, gaps, merged ranges and the summary counts; `strip`, `upper` and the text of a number are parameters.
- `Seating.EachNumberOnce`: holds for the two pairs of rules that ship; with letter markers and edge-bounded seats together, numbers outside the markers would be neither.
- `SeatingExact.EveryNumber`: holds for the same two pairs of rules, and so do the statements about single cells beside it.
- Exporter: profile validation, styles, legend, price category and XML text; ids of legend entries are not compared with the others; the radius is the one already chosen, and coordinates of seats are whole grid positions.
- Jobs: the child process, its pipe and time limit are the outcome the worker reports; `mkdtemp` before the `try` and a second `_finish` are assumed not to happen.
