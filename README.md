# Universal page parser: the structuring passes, in Dafny

This project models the core of the PSRD universal page parser, `src/psrd/universal.py`. The
parser turns the flat list of nodes in a page body into a section tree. It does this with a
cascade of list passes:

- drop blank nodes;
- turn `h1`/`h2` into headings;
- turn tables into table values;
- turn stat-block titles into stat blocks, then collapse each stat block over the plain nodes
  that follow it and extract its key/value pairs;
- turn `h3` and bold or italic leads into sub-headings;
- collapse headings level by level (5, 4, 3 without stat blocks; 2, 1 with them);
- strip one leading `": "` per markup element;
- fold headings into output sections and attach the remaining text to those sections.

The modules follow that structure:

| module | file | what it holds |
|---|---|---|
| `Text` | `text.dfy` | `strip`, `startswith`/`endswith`/`find`, `replace`, `''.join` on `seq<char>` |
| `Nodes` | `nodes.dfy` | the node datatype (markup element, text run, heading, stat block, table value, output section), `has_name`, `get_text`, `unicode` |
| `StatBlocks` | `statblock.dfy` | `store_key`, the key-line state machine (`stat_block_key_inner_parse`, `stat_block_key_first_pass`, `stat_block_key_second_pass`), `stat_block_internals_first_pass`, `stat_block_preparse`, `stat_block_collapse_pass`; the stat-block record is a class whose `keys`, `details` and `html` fields the methods update |
| `Classify` | `classify.dfy` | `noop_pass`, `title_pass`, `table_pass`, `stat_block_pass`, `subtitle_pass` |
| `Collapse` | `collapse.dfy` | `title_collapse_pass` |
| `Colon` | `colon.dfy` | `colon_pass` |
| `Sections` | `sections.dfy` | `filter_name`, `create_title_section`, `section_pass`, `section_text_pass` |
| `Pipeline` | `pipeline.dfy` | `parse_body` |

Every pass that the source writes as a loop is a method with a `for` loop. Each method is
proved equal to a specification function, and the properties are proved about those
functions. The method and the function are named after the same pass, for example
`TitleCollapsePass` and `Collapsed`.

Where the source mutates an object that is already in the output list, the model changes that
list slot:

- `title_collapse_pass` appends to the current heading after it was emitted. The method keeps
  that heading's index and rewrites that slot.
- `stat_block_collapse_pass` preparses the current stat block when its scope closes. The
  method replaces the last slot with the preparsed block.

The places where the source raises an exception become preconditions. The `...Safe`
predicates name them:

- a blank name reaching `filter_name`;
- a section without a `sections` entry reaching the `del` in `section_text_pass`;
- an empty list reaching `lines[0]`;
- an empty paragraph reaching `detail.contents[0]` in the fallback key pass;
- a heading object whose title equals a tag name, which passes `has_name`, after which
  `.get` fails;
- a `stat-block-title` paragraph with a CR span whose first child is markup rather than text:
  `stat_block_pass` hands that child to the stat-block constructor, whose `.strip()` fails on
  a tag (`Classify.StatBlockSafe`).

Three behaviours of the code that are easy to misread:

- **`colon_pass` is not idempotent.** It removes one leading `": "` per call, so `": : x"`
  becomes `": x"` and then `"x"`. The lemma `Colon.ColonPassNotIdempotent` proves this.
- **The `"XP "` special case.** The code tests the pending *key*, not the text of the line:
  when a new `stat-block-1` line starts while a bold key of the form `"XP ..."` is pending
  from the previous line, that key is stored as the pair (`"XP"`, its remainder). See
  `StatBlocks.ReadLine`.
- **Two pending fragments.** At a bold child with no pending key, a pending text of exactly
  two fragments is stored as two `"descriptor"` entries, one per fragment; any other pending
  text is stored as one. See `StatBlocks.Flush`.

## Model

| member | source | states |
|---|---|---|
| Text.StripEmpty | src/psrd/universal.py:298-300 | stripping yields the empty string exactly when the input is all whitespace, so `name[-1]` in `filter_name` fails exactly on blank names |
| Text.StripIdempotent | src/psrd/universal.py:298-302 | stripping a stripped string changes nothing |
| StatBlocks.StatBlockRecord.constructor | src/psrd/universal.py:15-33 | a new stat-block title or section has its trimmed name, no pairs, no details, and the source node as its only provenance entry |
| StatBlocks.StatBlockRecord.StoreKey | src/psrd/universal.py:266-270 | appends exactly one pair, the normalised one, and leaves every earlier pair in place |
| StatBlocks.StoredPair | src/psrd/universal.py:266-270 | the stored key and the stored value are both trimmed |
| StatBlocks.Normalised | src/psrd/universal.py:267-270 | the stored value is trimmed whatever the fragments are |
| StatBlocks.NormalisedDropsSeparator | src/psrd/universal.py:268-269 | a trimmed value followed by `;` or `,` is stored without it ("foo;" and "foo," both store "foo") |
| StatBlocks.NormalisedSpaced | src/psrd/universal.py:267-270 | whitespace around the value and around the separator goes too: [" foo ", "; "] stores "foo" |
| StatBlocks.NormalisedDropsOneSeparator | src/psrd/universal.py:268-269 | only one trailing separator is removed: "foo;;" stores "foo;" |
| StatBlocks.NormalisedStable | src/psrd/universal.py:267-270 | a trimmed value not ending in `;` or `,` is stored unchanged ("foo" stores "foo") |
| StatBlocks.StatBlockRecord.FlushPending | src/psrd/universal.py:235-244 | at a bold child the pending key is stored with its text; with no key, the pending text is stored as one descriptor, or as two when it has exactly two fragments |
| StatBlocks.StatBlockRecord.KeyInnerParse | src/psrd/universal.py:230-255 | the pairs, pending key and pending text after one line are those of the child-by-child reading `InnerLine` |
| StatBlocks.InnerLineNoBold | src/psrd/universal.py:246-253 | a line with no bold child keeps the pending key; with at most one pair stored, the pending text plus the line's text is stored whole under "descriptor" and the text is cleared; otherwise the line's text is added to the pending text |
| StatBlocks.InnerLineFlushesPendingKey | src/psrd/universal.py:233-237 | a line whose first child is bold first stores the pending key with its pending text |
| StatBlocks.InnerLineKeysGrow | src/psrd/universal.py:230-255 | reading a line only appends pairs |
| StatBlocks.StatBlockRecord.KeyFirstLoop | src/psrd/universal.py:184-201 | the lines kept, whether a key line was seen, and the pairs and pending key/text are those of the line scan `FirstRun` replayed through `Replay` |
| StatBlocks.StatBlockRecord.KeyFirstPass | src/psrd/universal.py:178-209 | the record afterwards is `KeyFirst` of the record before: the last pending key (or "descriptor") is stored, or the fallback pass runs when no key line was seen |
| StatBlocks.FirstPassStartsIffKeyLine | src/psrd/universal.py:185-186 | the first pass starts, and so the fallback pass is skipped, exactly when the interior holds a `stat-block-1` line |
| StatBlocks.FirstPassKeepsOrder | src/psrd/universal.py:184-202 | the first pass keeps, in order, every node before its cut that is not a marked line and every node from the cut on, where the cut is the first unmarked node after a key line |
| StatBlocks.StatBlockRecord.KeySecondPass | src/psrd/universal.py:211-228 | the record afterwards is `KeySecond` of the record before |
| StatBlocks.SecondPassKeepsOrder | src/psrd/universal.py:217-225 | the fallback pass removes only bold-first paragraphs before its cut and keeps everything else in order |
| StatBlocks.KeyFirstKeysGrow | src/psrd/universal.py:178-209 | the key passes keep the name and kind of the record and only append pairs |
| StatBlocks.KeySecondKeysGrow | src/psrd/universal.py:211-228 | the fallback pass keeps the name and kind of the record and only appends pairs |
| StatBlocks.Breakers | src/psrd/universal.py:168-176 | node by node, a `stat-block-breaker` paragraph becomes a stat-block section named by its text, and every other node is kept; the length is kept |
| StatBlocks.StatBlockRecord.InternalsFirstPass | src/psrd/universal.py:168-176 | the provenance list grows by exactly the interior, in order, and the result is `Breakers` of the interior |
| StatBlocks.StatBlockRecord.Preparse | src/psrd/universal.py:272-275 | the record afterwards is `Preparsed` of the record before: breakers split, sub-regions collapsed and preparsed, pairs extracted |
| StatBlocks.PreparsedKeepsKeys | src/psrd/universal.py:272-275 | preparsing keeps the name and kind and only appends pairs |
| StatBlocks.PlainRun | src/psrd/universal.py:152-161 | a stat block's scope is the run of nodes that are not headings of any kind, and it ends at the first heading-like node |
| StatBlocks.CollapsingAbsorb | src/psrd/universal.py:158-159 | a plain node read while a stat block is open goes to the end of that block's details, in its slot of the output |
| StatBlocks.CloseScope | src/psrd/universal.py:153-155 | when a heading-like node or the end closes a scope, the open stat block in the last slot is replaced by its preparsed form and every earlier slot is kept |
| StatBlocks.StatBlockCollapsePass | src/psrd/universal.py:148-166 | the result is `Scopes` of the input: each stat block takes the plain nodes up to the next heading-like node and is preparsed once |
| StatBlocks.ScopesClosed | src/psrd/universal.py:148-166 | afterwards every stat block is followed by a heading-like node or by the end; the list is empty only if the input was |
| Classify.NonBlank | src/psrd/universal.py:57-62 | every node kept renders non-blank, and no node is added |
| Classify.NoopPass | src/psrd/universal.py:57-62 | the result is `NonBlank` of the input |
| Classify.NonBlankMembers | src/psrd/universal.py:57-62 | a node is kept exactly when it is in the input and renders non-blank; a dropped node is a blank text run |
| Classify.NonBlankAppend | src/psrd/universal.py:57-62 | the pass works node by node in order (it distributes over concatenation) |
| Classify.NonBlankAllVisible | src/psrd/universal.py:57-62 | a list with no blank node is returned unchanged |
| Classify.NonBlankIdempotent | src/psrd/universal.py:57-62 | a second pass changes nothing |
| Classify.TitleNode | src/psrd/universal.py:76-81 | a node changes exactly when it is an `h1` (max_title >= 1) or `h2` (max_title >= 2), and then becomes a heading named by its trimmed text with no details |
| Classify.TitleMap | src/psrd/universal.py:73-82 | same length; node i of the result is `TitleNode` of node i |
| Classify.TitlePass | src/psrd/universal.py:73-82 | the result is `TitleMap` of the input |
| Classify.TitleMapBelowOne | src/psrd/universal.py:73-82 | with max_title below 1 the list is unchanged |
| Classify.Tabled | src/psrd/universal.py:64-71 | same length; node i becomes the table value of node i for the book when it is table-shaped and is kept otherwise |
| Classify.TablePass | src/psrd/universal.py:64-71 | the result is `Tabled` of the input |
| Classify.TablesRecoverSource | src/psrd/universal.py:64-71 | every node can be read back from the result, and a result node is a table value exactly when its source node is table-shaped |
| Classify.StatBlockNode | src/psrd/universal.py:134-145 | a node changes exactly when it is a `stat-block-title` paragraph or a companion `h3`; it then becomes a stat-block title with a trimmed name, no details and itself as provenance, carrying a pair only for a CR span, which is ("CR", the span's text) |
| Classify.StatBlockNodeNamed | src/psrd/universal.py:134-145 | a title with a CR span is named by its trimmed first child and carries exactly the pair ("CR", the span's text); any other converted node is named by its trimmed text and carries no pair |
| Classify.StatBlocked | src/psrd/universal.py:131-146 | same length; node i of the result is `StatBlockNode` of node i |
| Classify.StatBlockPass | src/psrd/universal.py:131-146 | the result is `StatBlocked` of the input |
| Classify.DropLead | src/psrd/universal.py:120-123 | replacing the lead child by an empty text keeps the element's name and attributes and removes exactly the lead's text from the front of its text |
| Classify.SubtitleNode | src/psrd/universal.py:109-128 | a heading or stat block has its details passed again; an `h3` (max_title >= 3) becomes a level-3 heading named by its trimmed text; any other markup element with a bold lead (max_title >= 2) is split into a level-4 heading named by the lead and the element without it unless it is centred, and one with an italic lead (max_title >= 5) likewise into a level-5 heading; every other node is kept as it is, and only these cases split a node |
| Classify.SubtitleSeq | src/psrd/universal.py:106-129 | the pass adds at most one node per node |
| Classify.SubtitleSeqAppend | src/psrd/universal.py:106-129 | the pass works node by node in order: the result for a list is the results for its parts, concatenated, so no node is dropped or moved |
| Classify.SubtitlePass | src/psrd/universal.py:106-129 | the result is `SubtitleSeq` of the input |
| Classify.SubtitleSeqBelowTwo | src/psrd/universal.py:106-129 | with max_title below 2 the list is unchanged |
| Classify.SubtitleNodeBelowTwo | src/psrd/universal.py:109-128 | with max_title below 2 a single node is unchanged |
| Collapse.OpenRun | src/psrd/universal.py:88-101 | the scope of a level-L heading runs up to the first exact heading of level at most L |
| Collapse.Joined | src/psrd/universal.py:92-99 | only nodes that join (every node with `add_statblocks`, otherwise every node but a stat block) go into the heading |
| Collapse.ScopeSplit | src/psrd/universal.py:92-99 | the nodes that go into the heading and those that stay at the top are together exactly the nodes of the scope, each as often |
| Collapse.JoinedAll | src/psrd/universal.py:93-94 | with `add_statblocks` the whole scope goes into the heading, in order, and nothing stays at the top |
| Collapse.Passed | src/psrd/universal.py:96-97 | only stat blocks that do not join stay at the top |
| Collapse.TitleCollapsePass | src/psrd/universal.py:84-104 | the result is `Collapsed` of the input |
| Collapse.CollapsingOpen | src/psrd/universal.py:102-103 | a heading of exactly level L stays at the top and becomes current |
| Collapse.CollapsingStopAbove | src/psrd/universal.py:88-90 | a heading of a coarser level ends the scope and stays at the top |
| Collapse.CollapsingJoin | src/psrd/universal.py:92-99 | a joining node goes to the end of the details of the current heading, in that heading's slot of the output list |
| Collapse.CollapsingPass | src/psrd/universal.py:96-97 | without `add_statblocks`, a stat block in scope stays at the top without ending the scope |
| Collapse.CollapsingPlain | src/psrd/universal.py:100-101 | with no current heading, a node stays at the top |
| Collapse.CollapsedAt | src/psrd/universal.py:84-104 | at a level-L heading the result is the heading with the joining nodes of its scope, then the passed nodes, then the collapse of the rest |
| Collapse.CollapsedCons | src/psrd/universal.py:88-101 | every other node at the head of the list stays at the head |
| Collapse.CollapsedIdempotent | src/psrd/universal.py:84-104 | collapsing twice at the same level is collapsing once |
| Collapse.CollapsedSize | src/psrd/universal.py:84-104 | the node count, each node counted with the nodes in its details, is kept |
| Collapse.CollapsedFlat | src/psrd/universal.py:84-104 | no node is lost, duplicated or altered: with the heading nesting undone, the result holds exactly the nodes of the input, each as often |
| Collapse.CollapsedKeepsOutline | src/psrd/universal.py:88-90 | the exact headings of level at most L stay at the top, in their original order |
| Collapse.CollapsedKeepsStatBlocks | src/psrd/universal.py:96-97 | without `add_statblocks`, the top-level stat blocks stay at the top, in order |
| Colon.DropColon | src/psrd/universal.py:260-262 | rewriting the first colon-led text run keeps the element's name and attributes |
| Colon.DropColonText | src/psrd/universal.py:260-262 | the element's text loses exactly the two characters ": " at the position of the first colon-led run, and nothing else |
| Colon.DropColonSeqText | src/psrd/universal.py:260-262 | the same for a list of children in document order |
| Colon.ColonNode | src/psrd/universal.py:258-264 | a markup element with a colon-led run becomes `DropColon` of it (whose text `DropColonText` describes); a heading of any kind has its details passed again; every other node is unchanged |
| Colon.ColonSeq | src/psrd/universal.py:257-264 | the pass keeps the length |
| Colon.ColonSeqAt | src/psrd/universal.py:257-264 | node i of the result is `ColonNode` of node i |
| Colon.ColonPass | src/psrd/universal.py:257-264 | the list afterwards is `ColonSeq` of the list before |
| Colon.ColonPassNotIdempotent | src/psrd/universal.py:260-262 | a paragraph with text ": : x" changes again on a second pass |
| Sections.FilterName | src/psrd/universal.py:298-302 | the name is trimmed |
| Sections.FilterNameStrips | src/psrd/universal.py:299 | only the trimmed name matters, so with the three lemmas below " Foo: " gives "Foo" |
| Sections.FilterNameDropsColon | src/psrd/universal.py:300-302 | a trimmed name followed by a colon loses exactly the colon |
| Sections.FilterNameKeeps | src/psrd/universal.py:298-302 | a trimmed name not ending in a colon is kept |
| Sections.FilterNameDropsOneColon | src/psrd/universal.py:300-302 | only one colon goes: "a::" becomes "a:" |
| Sections.CreateTitleSection | src/psrd/universal.py:277-281 | an empty section of the book with an empty list of children and no text, named (by `filter_name`) exactly when a non-empty title is given |
| Sections.Folded | src/psrd/universal.py:283-296 | a section keeps its fields and its children are its converted children (none when it had no entry); an exact heading becomes a section of the book named `filter_name` of its name, whose children are its converted details, present exactly when it has details; every other node is unchanged |
| Sections.FoldedSeqAt | src/psrd/universal.py:286-291 | children are converted one by one, in order |
| Sections.SectionPass | src/psrd/universal.py:283-296 | the result is `Folded` of the input |
| Sections.FoldedHeadingFree | src/psrd/universal.py:283-296 | no exact heading is left in the converted tree outside the details of stat blocks |
| Sections.HeadingInStatBlockStays | src/psrd/universal.py:283-296 | a heading inside a stat block's details is not converted: the stat block passes unchanged |
| Sections.TextPass | src/psrd/universal.py:305-345 | the result is a section with the same name and book, and it has children only when there are some |
| Sections.SectionTextPass | src/psrd/universal.py:305-345 | the result is `TextPass` of the input |
| Sections.AnonSection | src/psrd/universal.py:324-325 | an anonymous child built from a run of text is a section of the book whose text is the joined run and which has no children |
| Sections.FoldLead | src/psrd/universal.py:315-321 | at the first non-text item, the text gathered so far becomes the section's own text and the item is the first child |
| Sections.FoldRun | src/psrd/universal.py:322-332 | after that, a run of text followed by a non-text item becomes one anonymous child just before that item |
| Sections.LeadingTextIsOwn | src/psrd/universal.py:316-320 | the text before the first non-text item is the section's own text in the result |
| Sections.FoldOutGrows | src/psrd/universal.py:327-332 | a non-text item always gives the section a child |
| Sections.SectionsDropped | src/psrd/universal.py:336-344 | the `sections` entry is removed exactly when every item is text and either there are no items or the section had no text of its own |
| Sections.TextPassHeadingFree | src/psrd/universal.py:305-345 | the text pass puts no exact heading into the tree |
| Pipeline.Collapses | src/psrd/universal.py:354-363 | the five gated collapses move nodes into details but lose, duplicate or alter none (the flattened multiset and the node count are kept) |
| Pipeline.CollapseTitles | src/psrd/universal.py:354-363 | the list after the five gated calls is `Collapses` of the list before |
| Pipeline.Lines | src/psrd/universal.py:348-364 | when the body has a visible node, the list after the passes is not empty |
| Pipeline.Top | src/psrd/universal.py:365-368 | one line is used as it is; several lines go into a title section of the book, named exactly when a non-empty title is given |
| Pipeline.Parsed | src/psrd/universal.py:347-372 | with more than one line, the result is a section of the book, named exactly when a non-empty title is given |
| Pipeline.ParseBody | src/psrd/universal.py:347-372 | the result is `Parsed` of the body |
| Pipeline.ParsedHeadingFree | src/psrd/universal.py:347-372 | no heading object is left in the returned tree outside the details of stat blocks |

## Left out

- `parse_universal`, `href_filter`, `br_filter`, `__derender_divs`, `__has_div` and
  `print_struct` are not modelled. They are file and terminal I/O plus markup-library
  rewrites (render and re-parse, `extract`). The model starts from the node list of the body.
- `is_table` is a parameter `isTable: Node -> bool`. `parse_table` is not part of this model;
  its result is the opaque value `Table(source, book)`. That value is assumed to be a dict
  without a `sections` entry, so `section_pass` and `section_text_pass` leave it as it is.
- `get_text` and `unicode(...)` are the functions `GetText` and `Render` over the node
  datatype. `Render` is a simplified serialisation, not the markup library's: it writes the
  tag, the attributes in order and the children, with no escaping and no entity handling.
  Where `unicode(...)` of a markup element becomes a value (the text of a section in
  `section_text_pass`, a `stat-block-2` line in `stat_block_key_first_pass`), the model holds
  that simplified string. Its non-blankness for structured nodes and its identity on text
  runs match the source.
- The markup library's in-place `replaceWith` is modelled as a new node value in the same
  place (`DropLead`, `DropColon`). Other references to the rewritten node are not modelled;
  the passes hold none.
- `colon_pass` returns nothing in the source. `ColonPass` returns the list as it is
  afterwards.
- The dict values of `section_pass` and `section_text_pass` are the `Section` case of the
  node datatype. The in-place updates of their fields become new values.
- A pending key of `None` is modelled as `""`. Every test of it in the source is a truthiness
  test, so the two behave alike.
- The exceptions the source can raise are preconditions, not modelled error results. The
  raise in `section_text_pass` for an item of unknown class cannot happen on the node
  datatype: every node is text, a section, a heading of some kind or a table value.
- Headings without details: the precondition `TextSafe` excludes a heading without details. Such a heading
  reaches `section_text_pass` without a `sections` entry, and the `del` at line 344 fails
  there. Inputs with an empty heading, such as two headings in a row at the collapse level,
  are therefore outside the model.
- FoldedHeadingFree: holds only outside stat blocks. `section_pass` does not descend into
  stat blocks, and `subtitle_pass` can leave a level-4 or level-5 heading inside a stat
  block's details (a bold- or italic-led paragraph there), so such headings reach the output
  unconverted (`Sections.HeadingInStatBlockStays`).
- ParsedHeadingFree: the same limit for the whole of `parse_body`. Headings inside stat-block
  details stay in the returned tree.
- The `sb.html` provenance list is modelled as append-only (`InternalsFirstPass`). Nothing
  reads it.
