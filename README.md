# lxl in Dafny

`lxl.py` turns a plain-text lecture note into an accessible HTML page. It
works in two halves.

The first half is a sequential text-to-tree pipeline:

1. `group_chars` merges the two-character delimiters (`\(`, `\)`, `\[`, `\]`,
   `\$`, `$$`) into single tokens.
2. `add_gaps` separates doubled line breaks with a space token.
3. `get_eq_map` flags every token as inside or outside mathematics, with
   `'\n'` opposite each line break.
4. The token stream is cut into `Line`s.
5. `run_commands` stores and removes the `@ name args` lines.
6. `create_list_environments` rewrites `-` and `+` items as `# uli` and
   `# oli` headers.
7. `Main` sectionises the lines by their leading stars. Each section's own
   lines go into a `void` environment, which `process` nests by indentation
   (`taggify`), joins (`merge`), turns into equations (`equify`), splits into
   paragraphs (`make_paragraphs`) and groups into lists (`group_list_items`).

The second half is a tree-to-HTML printer: the `accessible` methods.

The model covers that pipeline and the alt-text printer. Each stage of the
source that works by looping and reassigning lists is a Dafny `method` with
the same loop, proved equal to a function that states the stage. The
properties are lemmas about those functions:

- round trips: the tokens concatenate back to the text, and the lines
  concatenate back to the tokens without line breaks;
- partitions: `taggify` and `sectionise` keep every line once, in order;
- the invariants each tree pass leaves behind;
- the exact error conditions of the Python exceptions.

The files follow the program's structure:

| file | models |
|---|---|
| `util.dfy` | errors as a `Result`, `split_by_char`, `str.split` |
| `tokens.dfy` | `group_chars`, `add_gaps`, `get_eq_map` |
| `equations.dfy` | `Equation.close` |
| `lines.dfy` | `Line`: indent, `is_env`, `stars`, `__add__`, `empty_line`, `equify` |
| `tree.dfy` | the environment tree, `envify`, `Environment.taggify` |
| `passes.dfy` | `merge`, `equify`, `make_paragraphs`, `group_list_items`, `process` |
| `sections.dfy` | `Section.sectionise`, `Section.taggify`, `Main` |
| `render.dfy` | the `accessible('alt')` printers |
| `documents.dfy` | `Document`: the line cutting, `run_commands`, `create_list_environments`, `get_meta`, the page |

Python exceptions are `Err` values of `Util.Result`. There is one error
constructor per cause, and every function returns the error the Python code
raises first.

The source mutates `contents` lists in place, but no node is ever reachable
from two parents. The tree is therefore a value, and each pass returns the
new tree. `Document`, whose methods update its fields, is a class.

## Model

| member | source | states |
|---|---|---|
| Util.SplitBy | lxl.py:16-20 | every group of `split_by_char` is non-empty and free of the separator |
| Util.SplitByConcat | lxl.py:16-20 | the groups, concatenated, are the input with the separators removed |
| Util.SplitBySepFree | lxl.py:16-20 | a non-empty input without the separator is one group |
| Util.SplitByAtSep | lxl.py:16-20 | splitting `a + [sep] + b` is splitting `a`, then splitting `b` |
| Util.SplitByCount | lxl.py:16-20 | there are never more groups than elements |
| Util.SplitByAligned | lxl.py:783-785 | two equally long sequences with separators in the same places split into pairwise equally long groups, so `zip` pairs each line with its own map |
| Util.SplitWords | lxl.py:377-378 | `str.split()` yields non-empty words without whitespace |
| Util.SplitWordsConcat | lxl.py:377-378 | the words, concatenated, are the string with its whitespace removed |
| Tokens.GroupChars | lxl.py:810-827 | every token is one character or one of the six merged pairs, and the first token starts with the first character |
| Tokens.GroupCharsConcat | lxl.py:810-827 | the tokens concatenate back to the input text exactly |
| Tokens.GroupCharsMaximal | lxl.py:815-823 | no two adjacent one-character tokens could have been merged |
| Tokens.AddGaps | lxl.py:794-808 | the output is no shorter and starts with the same token |
| Tokens.AddGapsOnlySpaces | lxl.py:798-806 | `add_gaps` inserts only `' '` tokens: without spaces, input and output agree |
| Tokens.AddGapsNoTripleNewline | lxl.py:798-806 | no three line breaks are adjacent afterwards |
| Tokens.AddGapsIdentity | lxl.py:798-806 | without two adjacent line breaks the stream is unchanged |
| Tokens.AddGapsThreeNewlines | lxl.py:800-806 | three line breaks become `\n`, space, `\n`, `\n`: two stay adjacent |
| Tokens.AddGapsLoneNewline | lxl.py:799-804 | a line break not followed by another is kept and followed by the next token unchanged |
| Tokens.EqMapAt | lxl.py:829-845 | each entry: True for a delimiter, `'\n'` for a line break, and otherwise in-math iff an odd number of delimiters precede it |
| Tokens.EqMapNewlines | lxl.py:836-843 | the map is as long as the tokens and holds `'\n'` exactly opposite the line breaks |
| Tokens.OddDelimitersAppend | lxl.py:838-839 | the in-math flag flips at each delimiter, so parities compose over concatenation |
| Equations.Body | lxl.py:52 | `text[1:-1]` is the text without its first and last token, or empty |
| Equations.Close | lxl.py:50-63 | the LaTeX opens and closes with the equation's own delimiters; without an inner `$` or `\(` it is the whole text and the alt text is the body; a one-token equation doubles its delimiter and has empty alt text; `close` fails exactly when the partition has fewer than two groups, and otherwise the alt text is the second group joined |
| Equations.CloseDollarAlt | lxl.py:53-55 | with `$math$alt$` inside, the LaTeX keeps the math and the alt text is the part between the `$`s |
| Equations.CloseBracketAlt | lxl.py:56-58 | with `math\(alt\)` inside (last token dropped), the LaTeX keeps the math and the alt text is the inner part |
| Equations.CloseSingleDollar | lxl.py:53-55 | with one inner `$`, `close` succeeds iff both sides are non-empty, and the alt text is the right side |
| Equations.CloseExample | lxl.py:38-39 | `$x^2$` gives LaTeX `$x^2$` and alt text `x^2` |
| Lines.FirstNonSpace | lxl.py:173-178 | the indent is the first non-whitespace index, and it is None iff the line is all whitespace |
| Lines.Stars | lxl.py:201-216 | the number of leading out-of-math `*`: all before it are stars, the one at it is not |
| Lines.Append | lxl.py:308-328 | `a + b` is `a`, a space, then `b`; the maps are kept; the space is in math iff both sides are and `a` does not end in a closing delimiter |
| Lines.EmptyLine | lxl.py:330-333 | the `parbreak` line is valid, not blank and not in math |
| Lines.JointAfterText | lxl.py:316-326 | when `a` ends in text, the joining space is in math exactly when the map would have put a character there in math |
| Lines.JointAfterOpeningDollar | lxl.py:318-324 | in `$` mode a line ending in an opening `$` is joined by a space flagged as text, though the map is in math there |
| Lines.EquifyStep | lxl.py:243-262 | after each step an open equation is the last item and is non-empty |
| Lines.EquifyLine | lxl.py:231-265 | the loop of `equify` computes `Equify` |
| Lines.EquifyFoldShape | lxl.py:243-262 | the loop keeps its state well-shaped: flags mark the equations, equations are apart, and all but the last are closed |
| Lines.EquifyFoldExpand | lxl.py:243-262 | the loop loses no token and no flag: expanding the items gives back tokens and map |
| Lines.EquifyProperties | lxl.py:231-265 | after `equify` the map flags exactly the equations, no two equations are adjacent, expanding the equations gives back the tokens and the map, every equation but the last is closed, and the last is open iff the line ends in math |
| Lines.LastItem | lxl.py:243-262 | the last item is open iff the last token was in math |
| Tree.SplitWordsHash | lxl.py:376-379 | `'# ' + s` splits into `'#'` and the words of `s`, so the assertion of `Environment.__init__` holds |
| Tree.Envify | lxl.py:218-229 | an environment line becomes an empty environment at its indent, named by the first word after `#`, with the rest as `additional`; it fails iff there is no word |
| Tree.BlockStepGrouped | lxl.py:425-447 | one step of `taggify` keeps the grouping well-formed and appends the line, in order |
| Tree.BlockFold | lxl.py:425-447 | the loop of `taggify` keeps every line once, in order, in blocks where a header holds exactly the following blank or deeper lines |
| Tree.GroupBlocks | lxl.py:422-449 | `taggify`'s grouping of an environment's lines is a partition of them, in order |
| Tree.ScanLine | lxl.py:426-447 | one iteration of the loop performs `BlockStep` and tracks the open environment |
| Tree.ScanBlocks | lxl.py:422-449 | the loop computes `GroupBlocks` |
| Tree.TaggifyBlock | lxl.py:446-451 | a plain line stays a line; a header becomes a well-formed environment of its lines |
| Tree.TaggifyBlockShape | lxl.py:446-451 | a plain block becomes its line; a header block succeeds iff `envify` and the taggifying of its body do, and then is that environment holding those nodes |
| Tree.TaggifyLines | lxl.py:402-451 | every node of the result is well-formed, one per block of the grouping |
| Tree.TaggifyLinesShape | lxl.py:402-451 | node `k` is block `k` taggified: a plain line is kept as it is, and a header becomes the environment `envify` makes of it |
| Tree.TaggifyBlocksEach | lxl.py:443-451 | the blocks taggify iff each does, and block `k` becomes node `k` |
| Tree.Taggify | lxl.py:402-451 | the method computes `TaggifyLines` |
| Tree.TaggifyOne | lxl.py:446-451 | the method computes `TaggifyBlock` |
| Passes.MergeStep | lxl.py:466-480 | one step of `merge` keeps a non-empty, well-formed list |
| Passes.MergeStepJoined | lxl.py:466-480 | one step keeps adjacent lines apart |
| Passes.MergeFoldProperties | lxl.py:465-482 | the loop of `merge` leaves no two adjacent lines, and keeps the environments in order |
| Passes.MergeLevelProperties | lxl.py:465-482 | `merge` leaves no two adjacent lines and keeps the environments in order |
| Passes.MergeBlankLine | lxl.py:474-475 | a blank line between two lines joins them with a `parbreak` token, not its whitespace |
| Passes.MergeLevelIdempotent | lxl.py:465-482 | merging merged contents again changes nothing |
| Passes.Merge | lxl.py:453-484 | `merge` keeps the name and the kind of the node, and at every depth leaves no two adjacent lines in any non-tikz environment |
| Passes.MergeQueue | lxl.py:465-480 | the `pop(0)` queue computes `MergeLevel` |
| Passes.MergeNode | lxl.py:453-484 | the method computes `Merge` |
| Passes.MergeChildren | lxl.py:483-484 | the recursion over the merged children computes `MergeAll` |
| Passes.EquifyNode | lxl.py:486-490 | `equify` fails iff some line fails to close an equation; otherwise every line is replaced by its equified form |
| Passes.EquifyAll | lxl.py:489-490 | equifying the children fails iff one of them fails, and otherwise keeps their number and order |
| Passes.EquifyTree | lxl.py:486-490 | the method computes `EquifyNode` |
| Passes.ParagraphEnvs | lxl.py:274-277 | each paragraph text becomes a `p` environment holding one paragraph |
| Passes.SplitParagraphsText | lxl.py:267-282 | the paragraphs, concatenated, are the line without its `parbreak`s, and none is empty |
| Passes.ParaTextsOfEnvs | lxl.py:274-277 | the paragraph texts are read back from the `p` environments |
| Passes.SplitLine | lxl.py:267-282 | the method computes `SplitParagraphs` |
| Passes.MakeParagraphs | lxl.py:492-509 | afterwards no non-tikz environment, at any depth, has a line among its children |
| Passes.MakeParagraphsTree | lxl.py:492-509 | the method computes `MakeParagraphs` |
| Passes.ListLevel | lxl.py:519-541 | after grouping no `uli`/`oli` remains; no lines appear where there were none, at any depth |
| Passes.ListRun | lxl.py:522-536 | two adjacent `uli` items become one `ul` holding two `li` |
| Passes.ListQuirk | lxl.py:522-539 | a `uli` after a non-item that follows a `uli` is appended into that non-item: `in_list` is never reset |
| Passes.ListNoneFirst | lxl.py:523-528 | a first child named `none` raises, since there is no open list |
| Passes.ListLevelWrapped | lxl.py:519-541 | on children where no run is continued across another child and no `none` comes first, each maximal run of `uli` (`oli`) becomes one `ul` (`ol`) of `li` items and every other child is kept, in order |
| Passes.ListLevelKeeps | lxl.py:537-539 | without items and without a child named `none`, the children are unchanged |
| Passes.GroupListItems | lxl.py:511-544 | the node keeps its name and kind; at every depth no environment has an ungrouped item left, and no line appears where there was none |
| Passes.ListScan | lxl.py:519-541 | the loop computes `ListLevel` |
| Passes.GroupListItemsTree | lxl.py:511-544 | the method computes `GroupListItems` |
| Passes.Process | lxl.py:387-399 | `process` keeps name and `additional`, and leaves no bare line and no ungrouped item in any non-tikz environment at any depth |
| Passes.ProcessEmpty | lxl.py:465 | an environment with no lines fails in `merge` |
| Passes.ProcessEnv | lxl.py:387-399 | the method runs the passes in order and computes `Process` |
| Sections.SectStepSectioned | lxl.py:692-702 | one step of `sectionise` keeps the split well-formed |
| Sections.SectFoldProperties | lxl.py:692-702 | the loop keeps every line once, in order, and keeps the split well-formed |
| Sections.Split | lxl.py:688-705 | the orphans then the subsections' lines are the section's lines, in order; orphans have no stars; the first subsection starts with a starred line, the others with exactly `depth+1` stars, and no other line of a subsection has `depth+1` stars |
| Sections.DeepFirstHeading | lxl.py:693-696 | before any subsection, a heading of any depth opens one |
| Sections.Sectionise | lxl.py:667-708 | the section keeps its stars and name, its lines are partitioned in order, and subsection `j` is the section made of the `j`-th opening line and the lines under it |
| Sections.SectionScan | lxl.py:688-705 | the loop with `orphan_mode` computes `Split` |
| Sections.SectioniseSection | lxl.py:667-708 | the method computes `Sectionise` |
| Sections.TaggifySection | lxl.py:710-723 | the section keeps stars, name and number of subsections; its `void` is an environment named `void` with no loose lines or list items at any depth |
| Sections.TaggifySectionsEach | lxl.py:722-723 | the subsections taggify iff each does, and subsection `j` becomes the `j`-th result |
| Sections.TaggifySectionParts | lxl.py:710-723 | `void` is the orphan lines processed as a `void` environment, a `process` failure is the section's failure, and once the orphans process a section taggifies iff its subsections do, its subsections being theirs |
| Sections.SubheadingFirst | lxl.py:717-719 | a section whose first line is a subheading fails: its `void` is empty |
| Sections.TaggifySectionTree | lxl.py:710-723 | the method computes `TaggifySection` |
| Sections.TaggifyEach | lxl.py:722-723 | the loop computes `TaggifySections` |
| Sections.MakeMain | lxl.py:742-756 | `Main` keeps the title and has one section per top-level heading |
| Sections.NewMain | lxl.py:742-756 | the method computes `MakeMain` |
| Render.RenderItem | lxl.py:121-125 | an item renders iff it is a token or a closed equation |
| Render.RenderItems | lxl.py:299-306 | a line renders iff all its equations are closed |
| Render.RenderLine | lxl.py:299-306 | the loop computes `RenderItems` |
| Render.RenderTokens | lxl.py:299-306 | a line of tokens renders as its text |
| Render.RenderItemsAppend | lxl.py:299-306 | rendering distributes over concatenation |
| Render.RenderJoinedLines | lxl.py:316-326 | `a + b` renders as `a`, a space, then `b` |
| Render.EquifiedLineRenders | lxl.py:243-262 | an equified line renders iff it does not end in math: the equation ending a line is never closed |
| Render.TikzTag | lxl.py:546-597 | a `tikzpicture` renders iff it has a label and every child has a `tikz_str`: a line whose equations are closed |
| Render.TikzNestedEnvironment | lxl.py:575 | a `tikzpicture` with an environment among its children fails: environments have no `tikz_str` |
| Render.TikzAltText | lxl.py:558-595 | the image is `./img/` plus the label; the alt text is the other words, or the stock text |
| Render.Caption | lxl.py:609-619 | a theorem caption is one string without a label and three with one |
| Render.RenderNode | lxl.py:606-633 | a node renders iff its equations are closed and every rendered `tikzpicture` has a label and only lines with closed equations |
| Render.RenderAll | lxl.py:621-631 | the children render iff each does, one string per child |
| Render.TaggedEnvironment | lxl.py:629-633 | an ordinary environment renders as its children between `<name>` and `</name>`, one per line |
| Render.ParagraphHtml | lxl.py:630-633 | a `p` environment renders as `<p>`, the paragraph's text and `</p>` |
| Render.TheoremFigure | lxl.py:607-622 | a theorem without label renders as a figure with its caption and children |
| Render.RenderSection | lxl.py:731-739 | a section renders iff its content and subsections do |
| Render.RenderSections | lxl.py:737 | the subsections render iff each does, one string per subsection |
| Render.RenderMain | lxl.py:764-771 | the main part renders iff every section does |
| Documents.LinesOf | lxl.py:783-785 | there is one line per group of the token stream; each line's tokens are that group and its flags are the matching group of the map |
| Documents.LinesCover | lxl.py:783-785 | the lines, concatenated, are the token stream without line breaks |
| Documents.CommandStep | lxl.py:852-861 | a command line without a name raises; another line leaves the commands alone; a command adds its name |
| Documents.Commands | lxl.py:851-862 | commands are never forgotten |
| Documents.CommandsStored | lxl.py:848-862 | from an empty table a name is stored iff some command line names it, and it holds the arguments of all those lines, in order, joined by spaces |
| Documents.CommandRepeated | lxl.py:857-859 | a repeated command holds both argument lists joined by a space |
| Documents.CommandWithoutSpace | lxl.py:854-855 | `@t` has no name and raises |
| Documents.Kept | lxl.py:864-866 | no command line is kept |
| Documents.KeptAppend | lxl.py:864-866 | keeping distributes over concatenation, so the order is kept |
| Documents.KeptNoCommands | lxl.py:864-866 | without command lines every line is kept |
| Documents.ListMarker | lxl.py:872-887 | the marker kind is `uli` or `oli` |
| Documents.ListRewrite | lxl.py:871-891 | an item line becomes two lines, any other line stays |
| Documents.ListRewriteNests | lxl.py:875-880 | the header opens an environment at the item's indent, the text line lies inside it, and the text line keeps the prefix and the part after the marker |
| Documents.ListLines | lxl.py:868-893 | the rewritten lines are no fewer than the input |
| Documents.ListLinesNoItems | lxl.py:888-891 | without list items the lines are unchanged |
| Documents.NoTitle | lxl.py:790-791 | text without command lines has no title and is refused |
| Documents.Convert | lxl.py:775-792 | a conversion that succeeds uses the title the commands gave |
| Documents.ScanGroupChars | lxl.py:810-827 | the loop with `skip_next_char` computes `GroupChars` |
| Documents.ScanAddGaps | lxl.py:794-808 | the loop with `skip_next_char` computes `AddGaps` |
| Documents.ScanEqMap | lxl.py:829-845 | the loop toggling `in_eq` computes `EqMap` |
| Documents.ScanCommands | lxl.py:848-862 | the loop computes `Commands` and removes exactly the command lines |
| Documents.DropLines | lxl.py:864-866 | the filter by index computes `Kept` |
| Documents.ScanListLines | lxl.py:868-893 | the loop computes `ListLines` |
| Documents.Document.GroupChars | lxl.py:810-827 | `data` becomes the grouped text, nothing else changes |
| Documents.Document.AddGaps | lxl.py:794-808 | `data` gets its gaps, nothing else changes |
| Documents.Document.GetEqMap | lxl.py:829-845 | returns the map of `data` |
| Documents.Document.RunCommands | lxl.py:848-866 | fails iff `Commands` fails; otherwise stores the commands and keeps the other lines |
| Documents.Document.CreateListEnvironments | lxl.py:868-893 | `lines` becomes `ListLines` of the old lines |
| Documents.Document.Build | lxl.py:780-792 | the stages run in order and compute `Convert`; `data` is the grouped text with gaps; after a successful `run_commands`, `commands` is the command table and `lines` the kept lines with their list items rewritten |
| Documents.Document.GetMeta | lxl.py:895-910 | fails iff the title is asked for and missing; otherwise three strings for the title, one for a present tag, none for an absent one |
| Documents.Document.Metas | lxl.py:975-976 | the head entries fail iff the title is among the tags and missing |
| Documents.Document.Page | lxl.py:971-985 | the page renders iff there is a title and the main part renders |

## Left out

- `Equation.latexml` and `Equation.macros` (lxl.py:65-110) call the external `latexmlmath`. The MathML rendering mode is therefore not modelled; only the `'alt'` mode is.
- `Environment.make_tikz` (lxl.py:546-597) writes a `.tex` file and runs `pdflatex` and `pdftocairo`. Only the image tag it returns is modelled (`Render.TikzTag`).
- `Document.get_nav` and `Document.get_external` (lxl.py:912-963) read files and YAML. Their output lines are parameters of `Documents.Document.Page`.
- Reading the input file (lxl.py:777-778) is left out. The text is a parameter of the `Document` constructor, kept in a `text` field that the Python object does not have.
- The `sys.argv` output names and the `__main__` writer (lxl.py:12-14, 987-994) are left out.
- Section ids come from `random.random()` (lxl.py:660). They are a parameter `ids` of the renderer, keyed by the section's path in the tree.
- `run_commands` stores commands with `setattr` on the document itself. A command named after an existing attribute or method (`@ lines ...`) would clobber it or fail. The model keeps commands in a separate map, so `Documents.Document.RunCommands` does not model such collisions.
- `Main` keeps no orphaned content (lxl.py:769 renders only the sections). The model does not carry it: `Sections.MakeMain` drops it.
- The tree is modelled as a value, not as objects updated in place. The source never shares a node between two parents, so nothing observable is lost; aliasing itself is not modelled.
- `Line.tikz_str` and `Equation.tikz_str` (lxl.py:112-113, 284-291) are modelled only as far as they can fail: an environment child has no `tikz_str`, and an equation that was never closed has no `latex`. The string they build only feeds `make_tikz`'s file output and is not modelled.
- `Lines.Append` models `__add__` for valid lines only (non-empty, with maps as long as the chars). The source never builds any other kind, since `split_by_char` drops empty groups.
- Passes.ListLevel: the full grouping is stated (`Passes.ListLevelWrapped`) only for children where no run continues an earlier run's kind across another child and no child named `none` comes first; the two remaining cases are stated by `Passes.ListQuirk` and `Passes.ListNoneFirst`.
- `Passes.Merge` requires every non-tikz environment of the tree to have children. `Passes.Process` checks this first and returns `EmptyEnvironment`, which is the `pop(0)` failure at lxl.py:465.

The code differs from its own documentation in a few places; the model follows the code:

- The `sectionise` docstring (lxl.py:674-683) says the first subsection has depth `stars + 1`. The code opens a subsection at any starred line while in orphan mode (lxl.py:694-696).
- A section whose first line is a subheading (`* A`, then `** B`) has no orphaned lines. Its empty `void` makes `merge` fail, so the document is refused (`Sections.SubheadingFirst`).
- `group_list_items` never resets `in_list` (lxl.py:537-539). A later item of the same kind goes into whatever child precedes it (`Passes.ListQuirk`).
- `equify` never closes an equation that ends a line (lxl.py:243-262). Such a line cannot be rendered (`Render.EquifiedLineRenders`).
