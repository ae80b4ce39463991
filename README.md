# Flex transpiler core, modelled in Dafny

The Flex transpiler turns a Flex source file into code for a target language, one line at
a time. The target is `python`, `c++` or `java`. The steps are:

- Pick the backend table (`code_dict`) for the target language.
- Start the output with the table's `default_code`.
- Walk the lines while tracking their depth (the number of leading tabs):
  - A line shallower than the one before it first gets one `end_block`.
  - A blank line adds nothing else.
  - A line that starts with `Main()` adds `begin_main`.
  - Any other line is stripped and handed to a natural-language classifier. The classifier returns an intent and a list of entities. `generate_code` fills that intent's template from the table with the entity values, using Python's `str.format_map`.
- After the last line, close every block still open.
- For Java, close the class with a final `}`.

The model has these modules:

- `Wrappers`: `Option` and `Result`.
- `Format`: the part of `str.format_map` the tables use. That is `{name}` fields and the `{{` / `}}` escapes.
  - A template is parsed into literal and field tokens, then rendered.
  - Parsing and unparsing are proved inverse.
  - Rendering is proved to fail exactly on a missing key, and to name that key.
- `Backend`: the shape of a `code_dict`. It has the intent entries (entity names and a template) and the three fixed fragments.
- `Lines`: what the main loop looks at in one line:
  - `counts_tabs`, as a method with its loop;
  - `str.isspace`;
  - the anchored `MAIN_REGEX` test;
  - `str.strip`.
- `Generation`: `generate_code`, as a method with the nested loops that fill `kwargs`. It is proved against the function `Generate`.
- `Pipeline`: the main block.
  - `TranspileLine` is the body of the loop over lines. `TranspileLines` is that loop, `CloseBlocks` is the closing loop, and `Transpile` is the whole block.
  - Each is proved against a specification over fragments (`LineFragments`, `Run`, `Closes`, `Fragments`, `Output`).
  - The lemmas about that specification cover block counting and the shape of the output.
- `Braces`: brace accounting on generated text.
- `Java`, `JavaTemplates`, `JavaProperties`, `JavaPipeline`: the Java `code_dict` as a constant, and what it promises.
  - Every template's fields are exactly its entities.
  - Block openers leave one brace open; statements leave none.
  - `begin_main` opens two braces, and `end_block` closes one.
  - A Java run fails exactly on a line the classifier leaves unknown or incomplete.

The classifier (`interpreter.parse`) is a function parameter. The `python` and `c++` tables
are parameters too; the Java table is `Java.Table`.

The model follows the code where it differs from what one might expect:

- **A drop of several levels gets one `end_block`.** When depth drops from 2 to 0, only one `end_block` is emitted. The `end_block`s therefore match the increases of depth exactly when no line drops by more than one level (`Pipeline.Balanced`, both directions). `Pipeline.DeepDropClosesOnce` gives a two-line input where the count falls short.
- **Blank lines move the depth.** They still update `prev_indent_level`.
- **`Main()` must start the line.** `re.match` is anchored, so `\tMain()` is not the entry line.
- **`begin_case` opens nothing.** It renders without a brace, yet a block indented under it still gets a closing `end_block`. `JavaProperties.BeginCaseOpensNothing` shows the first half, and `Pipeline.LineCloses` the second: every drop gets its `end_block`, whatever line opened the level.

## Model

| member | source | states |
|---|---|---|
| Lines.CountsTabs | transpiler/flex_transpiler.py:49-56 | the count is the length of the longest all-tab prefix of the line (through `TabDepth`) |
| Lines.TabDepth | transpiler/flex_transpiler.py:49-56 | the depth is at most the line's length, every character before it is a tab, and the character at it (if any) is not a tab |
| Lines.TabDepthUnique | transpiler/flex_transpiler.py:49-56 | any count with those three properties is the depth: the loop's early break stops at the first non-tab |
| Lines.SpacesDoNotIndent | transpiler/flex_transpiler.py:51-55 | a line starting with a space has depth 0: spaces never count |
| Lines.MainLineAtDepthZero | transpiler/flex_transpiler.py:88-89 | a line that `MAIN_REGEX.match` accepts is not blank and has depth 0, and the same line behind a tab is not accepted: the match is anchored at the line's start (`MAIN_REGEX` is defined at line 30) |
| Lines.Strip | transpiler/flex_transpiler.py:92 | `line.strip()` is a slice of the line with only whitespace cut from either side, and neither starts nor ends with whitespace |
| Lines.BlankIff | transpiler/flex_transpiler.py:88 | `line.isspace()` holds exactly when the line is non-empty and strips to the empty string |
| Lines.MainLineIff | transpiler/flex_transpiler.py:89 | `MAIN_REGEX.match(line)` (the pattern of line 30) accepts exactly the lines that begin with `Main()`, whatever follows |
| Lines.Tabs | transpiler/flex_transpiler.py:93 | `'\t' * n` is a string of exactly `n` tabs |
| Lines.StripIdempotent | transpiler/flex_transpiler.py:92 | stripping a stripped line changes nothing |
| Lines.StripBlank | transpiler/flex_transpiler.py:88-92 | a whitespace-only line strips to the empty string |
| Format.FormatMap | transpiler/flex_transpiler.py:46 | `format_map` rejects a template as malformed exactly when it does not parse; a parsed template is filled exactly when every field has a value, and a missing key it reports has no value |
| Format.ParseUnparse | transpiler/flex_transpiler.py:46 | every token sequence with valid field names is parsed back from its template text |
| Format.UnparseParse | transpiler/flex_transpiler.py:46 | every template that parses has valid field names and is exactly the text of its tokens |
| Format.RenderOkIff | transpiler/flex_transpiler.py:46 | `format_map` fills a parsed template exactly when every field has a value; otherwise it fails with a missing key that names a field with no value |
| Format.RenderAppend | transpiler/flex_transpiler.py:46 | rendering works left to right: the rendering of joined tokens is the join of their renderings, and the first failure wins |
| Format.RenderSingle | transpiler/flex_transpiler.py:46 | a field is replaced verbatim by its value, and a literal (including an escaped brace) by its single character |
| Backend.FillsIffSupplied | transpiler/flex_transpiler.py:41-46 | for an entry whose fields are its entities, filling fails exactly when a listed entity has no value, and names it |
| Generation.Generate | transpiler/flex_transpiler.py:34-46 | generation succeeds only for a known intent, and then yields text ending in a newline; it fails as an unknown intent exactly when the intent is not in the table |
| Generation.KwargsLastWins | transpiler/flex_transpiler.py:40-44 | `kwargs` holds a name exactly when the entry lists it and the classifier found it; extra entities are ignored; the last occurrence's value wins |
| Generation.GenerateCode | transpiler/flex_transpiler.py:34-46 | the nested loops build the `kwargs` of `Kwargs`, and the result is `Generate`: an unknown intent, a failed fill, or the filled template followed by a newline |
| Generation.GenerateFailures | transpiler/flex_transpiler.py:41-46 | an unknown intent fails as such; for a well-formed entry, generation succeeds exactly when every listed entity was found, and otherwise names a listed entity that was not found |
| Generation.GenerateOk | transpiler/flex_transpiler.py:46 | on success the intent is known, and the fragment is the filled template plus `'\n'` |
| Pipeline.SelectCodeDict | transpiler/flex_transpiler.py:66-71 | a table is chosen exactly for `python`, `c++` and `java`, and it is one of the three tables |
| Pipeline.Output | transpiler/flex_transpiler.py:66-105 | the text fails with an unknown target exactly when no table is chosen; with a table, it exists exactly when the run over the lines succeeds |
| Pipeline.UnknownTargetFailsFirst | transpiler/flex_transpiler.py:66-78 | a target other than `python`, `c++` or `java` fails before any line is read |
| Pipeline.LineFragments | transpiler/flex_transpiler.py:85-94 | one line adds at most two fragments, and only a line that is neither blank nor `Main()` can fail |
| Pipeline.UnclassifiedLines | transpiler/flex_transpiler.py:88-90 | blank lines and `Main()` lines never reach the classifier, and never fail |
| Pipeline.LineCloses | transpiler/flex_transpiler.py:85-87 | a line shallower than the line before it first gets exactly one `end_block` at its own depth, however far the depth dropped; no other line gets one |
| Pipeline.LineOkIff | transpiler/flex_transpiler.py:88-94 | with a well-formed table, a line fails exactly when it is not blank, not `Main()`, and classified as an unknown intent or without all its entities |
| Pipeline.TranspileLine | transpiler/flex_transpiler.py:85-95 | one pass of the loop body adds the text of `LineFragments` for the line, or fails with its error, and returns the line's depth as the next `prev_indent_level` |
| Pipeline.TranspileLines | transpiler/flex_transpiler.py:78-95 | the loop over the lines yields the text of `Run`: `default_code`, then each line's fragments, with the last line's depth; or the first line's error |
| Pipeline.RunStopsAt | transpiler/flex_transpiler.py:83-94 | once a line fails, the whole run fails with that line's error |
| Pipeline.RunOkStep | transpiler/flex_transpiler.py:83-94 | the run over the lines succeeds exactly when the run before the last line succeeds and the last line does |
| Pipeline.RunOkIff | transpiler/flex_transpiler.py:83-95 | with a well-formed table, the run succeeds exactly when every line is `LineOk` |
| Pipeline.Closes | transpiler/flex_transpiler.py:96-98 | the closing loop from depth `hi` emits `hi - lo` `end_block`s at depths `hi-1` down to `lo`, in that order |
| Pipeline.CloseBlocks | transpiler/flex_transpiler.py:96-98 | the closing loop appends the text of the `end_block`s from one level below the last depth down to 0 |
| Pipeline.Transpile | transpiler/flex_transpiler.py:66-105 | the main block writes exactly `Output`: the selected table's fragments for the run, the closing `end_block`s, and the Java `}`; or the first error |
| Pipeline.OutputOfRun | transpiler/flex_transpiler.py:78-105 | the output is the run's fragments, then the closing `end_block`s, then `}` for Java only; a failed run gives no output, only its error |
| Pipeline.OutputShape | transpiler/flex_transpiler.py:78-105 | a successful output starts with `default_code`, and ends with the closing `end_block`s at depths d-1..0 for the last depth d; for Java the very last text is `}` |
| Pipeline.RunShape | transpiler/flex_transpiler.py:78-95 | a run starts with `default_code`, ends at the last line's depth, and holds exactly one `end_block` per line shallower than the line before it |
| Pipeline.RisesBalance | transpiler/flex_transpiler.py:85-95 | when no line drops by more than one level, the total rise of depth equals the number of drops plus the depth still open |
| Pipeline.RisesDropSum | transpiler/flex_transpiler.py:85-95 | whatever the drops, the total rise of depth equals the total levels dropped plus the depth still open |
| Pipeline.DropsAtMostOneSnoc | transpiler/flex_transpiler.py:85-95 | no line drops by more than one level exactly when that holds before the last line and at the last line |
| Pipeline.DropsAtMostDropSum | transpiler/flex_transpiler.py:85-87 | the number of drops never exceeds the levels dropped, and equals it exactly when no line drops by more than one level |
| Pipeline.Balanced | transpiler/flex_transpiler.py:85-98 | the output holds one `end_block` per drop plus one per level still open at the end, and this equals the sum of the depth increases exactly when no line drops by more than one level |
| Pipeline.DeepDropClosesOnce | transpiler/flex_transpiler.py:86-87 | a blank line at depth 2 followed by one at depth 0 gives a single `end_block` for two levels of rise |
| Java.PrintElementsPlain | transpiler/languages/java.py:17-21 | the multi-line `print_elements` text around its field holds no brace |
| JavaTemplates.PrintTemplate | transpiler/languages/java.py:9-12 | `print` lists `to_print`, its field; it renders to `System.out.println(<to_print>);` or fails on the missing `to_print`; with brace-free values it holds no brace |
| JavaTemplates.PrintElementsTemplate | transpiler/languages/java.py:15-22 | `print_elements` has the one field `to_print`, replaced in the loop text, and holds no brace with brace-free values |
| JavaTemplates.InputTemplate | transpiler/languages/java.py:26-29 | `input` renders to `String <var_name> = System.console().readLine();`, brace-free with brace-free values |
| JavaTemplates.BeginIfTemplate | transpiler/languages/java.py:35-38 | `begin_if` renders to `if(<condition>) {`, whose only brace is the opening one at its end |
| JavaTemplates.BeginElseTemplate | transpiler/languages/java.py:40-43 | `begin_else` has no entity and always renders to `else {` |
| JavaTemplates.BeginElseIfTemplate | transpiler/languages/java.py:45-48 | `begin_else_if` renders to `else if (<condition>) {`, opening one block |
| JavaTemplates.BeginSwitchTemplate | transpiler/languages/java.py:50-53 | `begin_switch` renders to `switch (<switch_var>) {`, opening one block |
| JavaTemplates.BeginCaseTemplate | transpiler/languages/java.py:55-58 | `begin_case` renders to `case <case_value> :`, with no brace at all for brace-free values |
| JavaTemplates.BeginUnlessTemplate | transpiler/languages/java.py:60-63 | `begin_unless` renders to `if (!(<condition>)) {`, opening one block |
| JavaTemplates.BeginForEachTemplate | transpiler/languages/java.py:68-71 | `begin_for_each` lists `loop_over` then `loop_as`, which are exactly its fields; it renders to `for ( Object <loop_as> : <loop_over>) {`, and a missing `loop_as` is reported before a missing `loop_over` |
| JavaTemplates.BeginWhileTemplate | transpiler/languages/java.py:73-76 | `begin_while` renders to `while (<condition>) {`, opening one block |
| JavaTemplates.DeclareVarTemplate | transpiler/languages/java.py:79-82 | `declare_var` uses `type` twice and both places get the same value: `<type> <name> = new <type>();` |
| JavaTemplates.DeclareArrayTemplate | transpiler/languages/java.py:93-96 | `declare_array` renders to `ArrayList<<type>> <name> = new ArrayList<<type>>();`, with `type` filled in twice with one value |
| JavaTemplates.InitializeAssignTemplate | transpiler/languages/java.py:99-102 | `initialize_assign` renders to `<name> = <value>;`, brace-free with brace-free values |
| JavaProperties.IntentNames | transpiler/languages/java.py:1-103 | the table's intents are the seven block openers, the six statements and `begin_case` |
| JavaProperties.OpenersWellFormed | transpiler/languages/java.py:35-76 | every block opener's fields are exactly its entities |
| JavaProperties.StatementsWellFormed | transpiler/languages/java.py:9-102 | every statement's fields, and `begin_case`'s, are exactly its entities |
| JavaProperties.TableWellFormed | transpiler/languages/java.py:9-102 | every template of the Java table parses, and its set of fields equals its entity list |
| JavaProperties.JavaFillsIffSupplied | transpiler/languages/java.py:9-102 | filling a Java template fails exactly when a listed entity has no value, and the error names it |
| JavaProperties.BeginElseRendersElse | transpiler/languages/java.py:40-43 | `begin_else` lists no entity and renders to exactly `else {` under any mapping |
| JavaProperties.OpenerOpensOneBlock | transpiler/languages/java.py:35-76 | with brace-free values and its entities supplied, each block opener renders to text whose only brace is one opening brace at the end |
| JavaProperties.ConditionalOpensOneBlock | transpiler/languages/java.py:35-63 | the same for `begin_if`, `begin_else`, `begin_else_if` and `begin_unless` |
| JavaProperties.LoopOrSwitchOpensOneBlock | transpiler/languages/java.py:50-76 | the same for `begin_switch`, `begin_for_each` and `begin_while` |
| JavaProperties.StatementIsPlain | transpiler/languages/java.py:9-102 | with brace-free values and its entities supplied, each statement renders without any brace |
| JavaProperties.BeginCaseOpensNothing | transpiler/languages/java.py:55-58 | `begin_case` renders without any brace, so it opens no block (its indented lines are closed by `Pipeline.LineCloses`) |
| JavaProperties.EndBlockClosesOne | transpiler/languages/java.py:2 | `end_block` is `}` and a newline, ends a line and closes one brace; the final `}` also closes one |
| JavaProperties.BeginMainOpensTwo | transpiler/languages/java.py:6 | `begin_main` ends a line and opens two braces, the class and `main` |
| JavaProperties.DefaultCodePlain | transpiler/languages/java.py:4 | `default_code` ends a line and holds no brace |
| JavaPipeline.JavaOutputOkIff | transpiler/flex_transpiler.py:78-105 | with the Java table, the run succeeds exactly when every line is blank, is `Main()`, or is classified as a Java intent with all the entities it lists |

## Left out

- Command-line parsing with docopt and its usage text (transpiler/flex_transpiler.py:3-22, 60-63). The target language and the lines are parameters.
- Loading the NLU `Interpreter` and the `listdir` of the model directory (transpiler/flex_transpiler.py:74). `interpreter.parse` is an arbitrary function from the stripped line to an intent name and a list of (entity, value) pairs. The classifier's confidence scores and entity offsets are not kept.
- Reading the source file and writing the output file, and the debug `print` echoes (transpiler/flex_transpiler.py:35-37, 81-84, 101-105). The model returns the list `code`, followed by the Java `}`, as the text written. A failed run writes nothing, because the exception stops it before the output file is opened.
- The contents of the `python` and `c++` tables. The languages.python and languages.c_plus_plus modules are not part of this model, so those tables are parameters.
- The rest of Python's format mini-language: format specs, conversions, attribute and index fields, and positional fields. The model rejects such templates as `Malformed`; no Java template uses them.
- Format.FormatMap: the template is parsed whole before any field is filled. Python fills while it scans, so a template that is both malformed and missing a key may report a different error first. No Java template is malformed (`JavaProperties.TableWellFormed`).
- Unicode whitespace. `str.isspace` and `str.strip` are modelled on the ASCII whitespace set: space, `\t` to `\r`, and `\x1c` to `\x1f`.
- The commented-out `declare_multi_var` entry (transpiler/languages/java.py:83-92), which is dead code.
- Generation.Generate: in Python the fixed fragments live in the same dict as the intents, so an intent named `end_block`, `default_code` or `begin_main` raises `TypeError`. In the model those names are not intents, and such a lookup is `UnknownIntent`.
- Entity values are modelled as strings. Python puts the classifier's value into the template with `str()`, whatever its type.
