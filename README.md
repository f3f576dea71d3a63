# FreeMindTools converters, modelled in Dafny

FreeMindTools turns FreeMind mind maps (`.mm` files) into three kinds of
output. This project models the three converters:

* **Meeting notes** (`Mm2Notes`, mm2notes.py). The top-level nodes under
  the presentation node are matched by keyword: attendees, topic,
  discussion, action items, meeting day and meeting location. Each kind
  is rendered into a fixed section of an XHTML page or of plain text. The
  discussion is a list of utterances grouped into runs by speaker. It can
  be sorted by creation time, in which case each speaker header shows the
  elapsed time.
* **S5 slide shows** (`Mm2S5`, mm2s5.py). A `__meta__` node anywhere in
  the tree overrides the presentation metadata; the root text gives the
  title and subtitle. Every other top-level node becomes a slide whose
  sub-tree is rendered as nested `<ul>`/`<ol>` lists or as a `__table__`.
  Icons on a node steer its list: `button_ok` suppresses the list tags,
  `stop` makes the list incremental, `button_cancel` skips the slide and
  `full-1` numbers the list.
* **Simple Markdown and blog posts** (`MMTransform.mm2md`,
  `_mm2SimpleMd` and `MakeBlogInGithub.md2blog`, mm2md.py). Every texted
  node whose ancestors below the presentation node are all texted becomes
  one entry, marked by its depth; an untexted node hides its whole
  subtree. The entries are joined with blank lines. `md2blog` puts a
  Jekyll front matter in front of the markdown.

The parsed document is the `MindMap.Node` datatype. A node holds its
TEXT, its `<node>` children, the BUILTIN names of its `<icon>` children,
its LINK and its CREATED attribute. Each Python exception a converter can
raise becomes a `Failure`, reported at the point where the program would
raise it: a missing TEXT, a missing CREATED, an empty discussion, an unset
meeting location, a `__meta__` key without a value, an unset `mmLink`.
The notes converter never assigns `meetinglocation` before its loop, so
`convert` fails on every map without a meeting-location node; the model
keeps that behaviour, and `NotesProps.ConvertSucceeds` states it.

The imperative parts keep their form:

* `Notes.Mm2Notes` and `S5.Mm2S5` are classes whose fields are the Python
  object's attributes. Their methods loop over the children as the source
  does.
* Each method is proved equal to a specification function (`NotesSpec`,
  `S5Spec`, `Markdown.MdLines`). The properties are stated as lemmas about
  those functions (`NotesProps`, `S5Props`, `Markdown`).
* `Markup` defines when a list of output lines has balanced `<ul>`, `<ol>`,
  `<li>`, `<table>` and `<tr>` tags. The balance lemmas are stated with it.
  Its unit is an element of a converter's line list, which may hold
  newlines; `Markup.WrittenBalanced` carries balance over to the text as
  written, joined by newlines and read back line by line, when every
  element's own lines are balanced.
* `Text` models the Python string operations the converters use.

## Model

| member | source | states |
|---|---|---|
| `Notes.Mm2Notes.constructor` | mm2notes.py:34-39 | no document, HTML output, empty title, full page, no time order, no start time |
| `Notes.Mm2Notes.SetOrderByTime` | mm2notes.py:41-42 | sets only the time-order flag |
| `Notes.Mm2Notes.Open` | mm2notes.py:44-49 | loads the document and returns what `convert` gives on it, with the title and start time it leaves |
| `Notes.Mm2Notes.Convert` | mm2notes.py:62-90 | result, new title text and new start time are those of the conversion specification for the object's settings |
| `Notes.Mm2Notes.WalkSections` | mm2notes.py:74-88 | the section loop's variables and the exception that stops it agree with `Walk` |
| `Notes.Mm2Notes.HandleSection` | mm2notes.py:75-88 | one iteration: the keyword chain picks the handler, KeyError on a missing TEXT |
| `Notes.Mm2Notes.HandleAttendees` | mm2notes.py:118-134 | the attendee line for the layout the tree depth selects |
| `Notes.Mm2Notes.TwoLevelAttendees` | mm2notes.py:145-163 | one entry per child, in order, or the first child's error |
| `Notes.Mm2Notes.ThreeLevelAttendees` | mm2notes.py:165-174 | one `location [names]` entry per child, or the first error |
| `Notes.Mm2Notes.HandleLabelled` | mm2notes.py:176-196 | the labelled line of the child texts for topic, day and location |
| `Notes.Mm2Notes.NestText` | mm2notes.py:268-279 | appends exactly the nested-list lines of the node to `ret` |
| `Notes.Mm2Notes.HandleActionItems` | mm2notes.py:251-263 | the titled list of nested action items |
| `Notes.Mm2Notes.HandleDiscussed` | mm2notes.py:204-244 | the discussion lines, and `start_time` set to the first utterance's time on success and unchanged on failure |
| `Notes.Mm2Notes.WriteRuns` | mm2notes.py:219-242 | title, `<ul>`, the speaker runs, then the three closing tags |
| `Notes.Mm2Notes.CollectUtterances` | mm2notes.py:205-214 | the `(time, name, text)` tuples speaker by speaker, dropping empty texts |
| `NotesSpec.KeyPrefixed` | mm2notes.py:92-96 | true exactly when the lower-cased name starts with one of the keys |
| `NotesSpec.Classify` | mm2notes.py:76-88 | the section chosen matches its keys and no earlier test in the chain matches |
| `NotesSpec.CreatedOf` | mm2notes.py:210 | fails exactly when CREATED is missing |
| `NotesProps.MaxDepthBounds` | mm2notes.py:136-143 | depth 0 only for no nodes; at least one more than every child list's depth, and attained by one child |
| `NotesProps.MaxDepthOne` | mm2notes.py:129-130 | depth 1 exactly when there are nodes and none has children |
| `NotesProps.MaxDepthTwo` | mm2notes.py:126-128 | depth 2 exactly when some node has children and no grandchild has any |
| `NotesProps.AttendeeNamesCount` | mm2notes.py:118-134 | one name per top node; the flat layout fails exactly when a top node lacks TEXT |
| `NotesProps.AttendeeEntryShape` | mm2notes.py:150-161 | `name (email)` with a non-empty first sub-node text, else the bare name; fails exactly on a missing TEXT |
| `NotesProps.StepOk` | mm2notes.py:74-88 | an iteration succeeds exactly when the node has TEXT and its handler succeeds |
| `NotesProps.StepSlot` | mm2notes.py:76-88 | an iteration overwrites the slot of the section it matched and no other |
| `NotesProps.WalkSnoc` | mm2notes.py:74-88 | the loop over `a + [n]` is the loop over `a`, then one more step unless it had already failed |
| `NotesProps.WalkOk` | mm2notes.py:74-88 | the loop finishes exactly when every node has TEXT and its handler succeeds |
| `NotesProps.WalkLatest` | mm2notes.py:74-88 | each section's lines are those of the last node of that kind, or the initial value when there is none |
| `NotesProps.WalkedSections` | mm2notes.py:74-89 | after the loop every section variable holds its last matching node's lines |
| `NotesProps.ConvertSucceeds` | mm2notes.py:62-90 | `convert` succeeds exactly when a document with a texted presentation is loaded, every section succeeds, and some node is a meeting location |
| `NotesProps.ConvertPage` | mm2notes.py:89-116 | the page is the wrapper around title, day, location, attendees, topic, action items and discussion, in that order |
| `NotesProps.StrLeTotal` | mm2notes.py:216-217 | Python's string order compares any two strings |
| `NotesProps.StrLeTrans` | mm2notes.py:216-217 | Python's string order is transitive |
| `NotesProps.StrLeAntisym` | mm2notes.py:216-217 | Python's string order is antisymmetric |
| `NotesProps.UtteranceLeTotal` | mm2notes.py:216-217 | the tuple order compares any two utterances |
| `NotesProps.UtteranceLeTrans` | mm2notes.py:216-217 | the tuple order is transitive |
| `NotesProps.UtteranceLeAntisym` | mm2notes.py:216-217 | the tuple order is antisymmetric |
| `NotesProps.InsertSorted` | mm2notes.py:216-217 | inserting into a sorted list keeps it sorted and adds exactly the one element |
| `NotesProps.SortUtterancesCorrect` | mm2notes.py:216-217 | `sort()` returns a sorted permutation |
| `NotesProps.SortedUnique` | mm2notes.py:216-217 | two sorted permutations of the same utterances are equal, so the sorted order is determined |
| `NotesProps.RunsAtSpeakerChanges` | mm2notes.py:223-235 | a new speaker block starts exactly where the speaker differs from the previous utterance's |
| `NotesProps.SpeakerUtterancesShape` | mm2notes.py:208-214 | every kept utterance has a non-empty text, the speaker's name, and no leading tag in HTML mode |
| `NotesProps.UtterancesText` | mm2notes.py:213-214 | every collected text is non-empty and, in HTML mode, is content rather than a tag |
| `NotesProps.UtterancesSpeaker` | mm2notes.py:206-214 | every utterance's speaker is the TEXT of one of the discussion's children |
| `NotesProps.DiscussedOrder` | mm2notes.py:204-218 | fails exactly on an error or an empty discussion; the output order is a permutation, sorted in time order, and the start time is its first element's |
| `NotesProps.ListTags` | mm2notes.py:286-292 | in HTML mode `open_tag` and `close_tag` give the `<ul>`/`<li>` lines and tag events |
| `NotesProps.TitleLineContent` | mm2notes.py:281-284 | a section title line is content, not a tag |
| `NotesProps.NestLinesBalanced` | mm2notes.py:268-279 | `nest_text`'s HTML lines are balanced |
| `NotesProps.NestChildrenBalanced` | mm2notes.py:273-279 | the nested list items are balanced |
| `NotesProps.ActionLinesBalanced` | mm2notes.py:251-263 | the action-item section is balanced |
| `NotesProps.ActionLinesShape` | mm2notes.py:251-263 | the action-item section is its title, `<ul>`, the items, `</ul>` |
| `NotesProps.RunLinesStack` | mm2notes.py:223-238 | the speaker runs leave exactly one open `<li><ul>` pair once any speaker was written |
| `NotesProps.DiscussedBalanced` | mm2notes.py:204-244 | the discussion section is balanced element by element of the returned list, when no speaker name is itself a tag line; a joined utterance counts as one content element |
| `NotesProps.DiscussedWrittenBalanced` | mm2notes.py:204-244 | the discussion section joined by newlines, as the page is written, and read back line by line is balanced, nested utterance lists included, when no line of a speaker name is a tag line and the clock text holds no newline |
| `Markup.WrittenBalanced` | mm2notes.py:51-54 | balanced lines whose elements are each balanced on their own stay balanced once `write` joins them with newlines and the text is read back line by line |
| `NotesProps.ActionWrittenBalanced` | mm2notes.py:251-279 | the action-item section joined by newlines and read back line by line is balanced |
| `NotesProps.DiscussedLines` | mm2notes.py:216-244 | the discussion is title, `<ul>`, the runs from the first utterance's time, `</ul></li></ul>` |
| `NotesProps.FormatTimeElapsed` | mm2notes.py:310-324 | zero elapsed seconds shows the clock; otherwise the text reads back as the elapsed seconds |
| `S5.Mm2S5.constructor` | mm2s5.py:57-73 | no document and the default metadata, footer unset |
| `S5.Mm2S5.Open` | mm2s5.py:75-80 | loads the document and returns the slide show and the metadata `convert` leaves |
| `S5.Mm2S5.Convert` | mm2s5.py:95-163 | result and new metadata are those of the slide-show specification on the old metadata |
| `S5.Mm2S5.WriteSlides` | mm2s5.py:144-158 | appends exactly the slides of the pages, skipping `__meta__` and cancelled pages |
| `S5.Mm2S5.GetListAttributes` | mm2s5.py:165-191 | the icon flags and the first child's markup test, as the specification defines them |
| `S5.Mm2S5.GrabMeta` | mm2s5.py:193-210 | metadata and failure are those of `GrabMetaOf` |
| `S5.Mm2S5.ApplyMeta` | mm2s5.py:203-207 | the metadata after one `__meta__` node's entries, or the error that stops them |
| `S5.Mm2S5.DoList` | mm2s5.py:212-256 | appends exactly the list lines of the node's sub-tree at this depth |
| `S5.Mm2S5.DoItem` | mm2s5.py:237-253 | appends one child's table, or its item and sub-list |
| `S5.Mm2S5.InsertTable` | mm2s5.py:277-292 | a `<tr>` per child and a `<td>` per node of its subtree, in the table tags |
| `S5.S5OfLoaded` | mm2s5.py:95-163 | with the metadata loaded, the page is head, title slide, slides and tail over the new metadata |
| `S5Spec.TitleMeta` | mm2s5.py:196-200 | adds the title key, and the subtitle key exactly when the root text has a second line |
| `S5Spec.ApplyEntries` | mm2s5.py:203-207 | no key is lost |
| `S5Spec.ScanMeta` | mm2s5.py:201-207 | no key is lost |
| `S5Spec.WithFooter` | mm2s5.py:209-210 | the key set gains exactly the footer |
| `S5Spec.GrabMetaOf` | mm2s5.py:193-210 | success implies a loaded document with a texted presentation node |
| `S5Props.OtherIconIgnored` | mm2s5.py:171-180 | an icon other than the four special ones changes nothing |
| `S5Props.FirstChildOnly` | mm2s5.py:185-189 | only the first child decides the markup test; later children do not matter |
| `S5Props.ListAttributesFail` | mm2s5.py:185-188 | fails exactly when the first child lacks TEXT, with KeyError |
| `S5Props.ApplyEntriesKeeps` | mm2s5.py:203-207 | a key with no entry keeps its presence and value |
| `S5Props.ScanMetaKeeps` | mm2s5.py:201-207 | a key no `__meta__` node mentions keeps its presence and value |
| `S5Props.ApplyEntriesLast` | mm2s5.py:203-207 | the last entry for a key sets its value |
| `S5Props.ScanMetaLast` | mm2s5.py:201-207 | the last entry in document order over all `__meta__` nodes wins |
| `S5Props.WithFooterKeeps` | mm2s5.py:209-210 | the footer default changes no other key |
| `S5Props.GrabMetaTitle` | mm2s5.py:196-200 | without overrides, title and subtitle are the root text's first and second lines; the subtitle is unchanged for one line |
| `S5Props.GrabMetaOverride` | mm2s5.py:196-207 | a `__meta__` entry overrides the default and the root's title |
| `S5Props.GrabMetaFooter` | mm2s5.py:209-210 | an unset footer becomes the company and title markup |
| `S5Props.Shown` | mm2s5.py:144-151 | every page kept is texted, is not `__meta__` and carries no `button_cancel` icon |
| `S5Props.SlidesShape` | mm2s5.py:144-158 | one slide block per kept page, in order, holding that page's list lines |
| `S5Props.SlideHeading` | mm2s5.py:153-158 | a slide opens with its div and the page's heading and adds five lines to its body |
| `S5Props.ListOpenForm` | mm2s5.py:222-233 | the list tag is `ol` for `full-1`, else `ul`, with the incremental class for `stop` |
| `S5Props.ListTagEvents` | mm2s5.py:227-233 | the list's opening and closing lines open and close the same tag |
| `S5Props.ListFrame` | mm2s5.py:217-256 | no lines for a node without child elements; otherwise the first and last lines are the indented open and close tags unless suppressed |
| `S5Props.LineItemShape` | mm2s5.py:258-275 | nothing for empty text; otherwise one `<li>` line with `<br/>` for newlines, or the bare text under `button_ok` |
| `S5Props.LineItemContent` | mm2s5.py:258-275 | an item's lines are all content exactly when it is an `<li>` line, a link, or a bare text that is not itself a lone tag |
| `S5Props.CellsContent` | mm2s5.py:285-290 | every cell line is content |
| `S5Props.RowsBalanced` | mm2s5.py:285-290 | the rows are balanced |
| `S5Props.TableBalanced` | mm2s5.py:277-292 | a table's lines are balanced |
| `S5Props.ListLinesBalanced` | mm2s5.py:212-256 | the list lines are balanced, element by element, whatever inline markup the texts hold, unless a text written bare under `button_ok` is itself a lone list or table tag |
| `S5Props.ItemsLinesBalanced` | mm2s5.py:237-253 | the items of children with no bare tag text are balanced |
| `S5Props.ItemLinesBalanced` | mm2s5.py:249-253 | one child's table or item and sub-list is balanced |
| `Markdown.Mm2MdOf` | mm2md.py:12-17 | fails exactly when there is no presentation node, with AttributeError |
| `Markdown.SimpleMd` | mm2md.py:25-40 | appends exactly the node's entries to `md` |
| `Markdown.Mm2Md` | mm2md.py:12-17 | the markdown is the specification's, or the same failure |
| `Markdown.VerbatimIffAngle` | mm2md.py:29-37 | an entry is its text unchanged exactly when the text starts with `<` |
| `Markdown.LaterAngleKeepsPrefix` | mm2md.py:29 | a `<` after the first character still gets the marker |
| `Markdown.UnprefixedRoundTrip` | mm2md.py:29-37 | dropping the marker from an entry gives back the node's text |
| `Markdown.PrefixByDepth` | mm2md.py:30-35 | two depths get the same marker exactly when equal or both at least 2 |
| `Markdown.EntriesFollowPreorder` | mm2md.py:25-40 | for a fully texted subtree, entry k is node k of the preorder, marked for its depth |
| `Markdown.DepthsBelow` | mm2md.py:39-40 | a node's descendants are reached deeper than the node |
| `Markdown.MdLinesBound` | mm2md.py:26 | an untexted node emits nothing for its whole subtree; at most one entry per node |
| `Markdown.MdPruned` | mm2md.py:25-40 | a subtree emits exactly what its pruned form emits, the form with every untexted node dropped together with its subtree |
| `Markdown.PrunedTexted` | mm2md.py:26 | every node left after pruning has a non-empty TEXT |
| `Markdown.PruneKeepsTexted` | mm2md.py:26 | pruning leaves a fully texted forest unchanged |
| `Markdown.Mm2MdPreorder` | mm2md.py:12-40 | for every document with a presentation node, the output joins one entry per node of the pruned preorder of the presentation's descendants, each marked for its depth from 0 |
| `Markdown.Mm2MdPreorderTexted` | mm2md.py:12-40 | for a fully texted tree, the entries follow the full preorder of the presentation's descendants |
| `Markdown.TagList` | mm2md.py:54 | the tag list is the tags with `", "` for every comma, in brackets |
| `Markdown.Md2Blog` | mm2md.py:48-59 | fails exactly when `mmLink` is unset, with TypeError |
| `Markdown.Md2BlogText` | mm2md.py:48-59 | the post is the front-matter lines, each followed by a blank line, then the markdown |
| `Markdown.Md2BlogRoundTrip` | mm2md.py:48-59 | the markdown is exactly what follows the front matter |
| `Markdown.TagCount` | mm2md.py:54 | one tag more than commas, none holding a comma |
| `MindMap.Presentation` | mm2notes.py:72 | the first child node, or AttributeError when there is none |
| `MindMap.PreorderSize` | mm2s5.py:201 | the `getiterator` order holds as many nodes as the subtree has |
| `Text.Find` | mm2md.py:29 | the first index of the character, or -1 exactly when it is absent |
| `Text.LowerIdempotent` | mm2notes.py:94 | lower-casing twice is lower-casing once |
| `Text.SplitPieces` | mm2s5.py:196 | one piece more than separators, none holding it |
| `Text.SplitJoinRoundTrip` | mm2s5.py:196 | splitting and joining with the same character gives the text back |
| `Text.ReplaceIsJoinSplit` | mm2md.py:54 | replacing a character is splitting at it and joining with the replacement |
| `Text.EscapeRoundTrip` | mm2notes.py:305-308 | unescaping the HTML-escaped text gives it back |
| `Text.DecimalRoundTrip` | mm2notes.py:321-324 | the `%d` text of an integer reads back as that integer |

## Left out

- XML parsing and file I/O: `xmlparse`, `write`, the `file(...)` reads in `open` and `main` in mm2md.py. The parsed document is a `Node` value.
- The command lines (`parse_command_line` in mm2notes.py and mm2s5.py). In mm2notes.py the time-order flag is set only after `open` has converted; that ordering belongs to the command line and is not modelled.
- `format_time`'s clock text for a zero elapsed time (`time.localtime`, `time.tzname`) is a `clock` function parameter.
- `Text.Lower` folds ASCII letters only; Python's `lower()` on other scripts is not modelled.
- `int(...)` of CREATED: the attribute is an integer already, so a malformed number's ValueError is not modelled.
- The FreeMind 0.9 rich-text branch of `_doList` (mm2s5.py:239-248), which reaches into `richcontent/html/body/p`. An untexted list child gives `Err(RichContent)`.
- Child elements other than `<node>` and `<icon>` are not in `Node`. They only change `len(sub)` in `_doList` and add nothing in `_mm2SimpleMd`.
- `S5Props.SlidesShape`: the fixed `div` lines around each slide are stated literally; the tag balance of those lines is not proved.
- `_doList` appends to the caller's list in place. The model returns the extended list, so aliasing of `lines` is not captured.
- The default S5 footer `<h1>company</h2><h2>title</h2>` is malformed HTML. It is reproduced as written.
- Speaker names are written into the notes unescaped, as in the source. `DiscussedBalanced` and `DiscussedWrittenBalanced` therefore assume names that are not tag lines.
- S5Props.ListLinesBalanced: balance is stated per element of `lines`, not for the text `write` produces; an item whose text ends in a newline puts `</li>` on a written line of its own, so a line-by-line reading of the S5 output is not a faithful measure of its nesting.
- The S5 footer's initial `None` is modelled as the key being absent from the metadata map.
- The blog configuration dictionary (conf4BlogListInGithub.py) and its lookup `_getconf` (mm2md.py:45-46): `md2blog` takes the entry as a `BlogConfig` record.
- The `mm2notes` and `mm2s5` stubs of `MMTransform` (mm2md.py:19-23) do nothing.
- The S5 page template (mm2s5.py:101-134) and the notes wrapper (mm2notes.py:98-116) are kept as literal text. Only the substituted fields are reasoned about.
- mm2wiki.py is not part of this model.
