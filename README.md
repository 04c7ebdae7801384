# Nacar, modelled in Dafny

Nacar turns a YAML *blueprint* (a title, a `meta` block and a list of
screens whose options either link to another screen or run a shell action)
into a bash menu application. This project models the core of that
pipeline:

- **Schema** (`schema.dfy`): the blueprint as typed data; the length, count and
  value bounds of the structural schema and its subschemas; the read-only
  queries the validator and the translator use (screen names, screen links,
  options of a screen, largest option count); and the pass that sets
  `meta.width` to 80 and `meta.show_made_with_on_exit` to true where they
  are missing, on the parsed document, updated in place.
- **SchemaErrors** (`schema_errors.dfy`): `InvalidSchemaError`, which turns
  the nested error tree of a failed validation into aligned
  `key: Message.` lines. The walk is modelled as written, with one
  breadcrumb list shared by every level of the recursion, and the lines are
  built from what it records. The walk as intended, which keeps the full
  dotted path of every key, is modelled beside it (`Flatten`), together
  with the lines it would give (`ErrorLinesIntended`).
- **Validator** (`validator.dfy`): `NacarValidator.validate`. The structural
  verdict and errors of the underlying Cerberus validator are inputs. The
  checks that a schema cannot express follow them, each appending
  `(field, message)` to the error list: the title fits the width, screen
  names are unique, no screen links to itself, every link names a screen.
- **ToBash** (`to_bash.dfy`, with `bash_printf.dfy`): the bash translator.
  It covers the template data it merges (heading, app config, style
  escapes, screen flow) and the bash it writes itself: one
  `show_<screen>_screen` routine per screen, the exit routines and the main
  loop. It also covers the layout arithmetic of an option line
  (`len_right`, and the width bash `printf` prints for the line) and the
  bottom padding that makes every screen box equally tall.
- **TestUtils** (`test_utils.dfy`): `get_nested_key` from the test
  utilities, and its relation to the `exists` helper of the defaulting pass.

`document.dfy` models the parsed YAML value and Python's `in` and `[]` on
it. `text.dfy` models the ASCII string operations the code uses
(`lower`, `upper`, `capitalize`, `join`, `ljust`, `split`, `replace('.,', ',')`
and the decimal rendering of an `int`). `wrappers.dfy` holds `Maybe` and
`Result`. An operation that raises returns `Failure` with the Python
exception (`KeyError`, `TypeError`, `IndexError`, `ValueError`).

## Model

| member | source | states |
|---|---|---|
| `Schema.GetScreenNames` | nacar/schema.py:108-116 | the names of the screens, one per screen and in declaration order; empty when there is no `screens` key |
| `Schema.GetScreenLinks` | nacar/schema.py:119-129 | a pair `(screen, target)` is listed exactly when that screen has an `options` key holding a link option to `target`; empty without `screens` |
| `Schema.FirstNamed` | nacar/schema.py:146-147 | the index found is that of the first screen with the name, and None means no screen has it |
| `Schema.GetOptionsForScreen` | nacar/schema.py:145-148 | KeyError without `screens`; None exactly when no screen has the name; otherwise the options of the FIRST screen with that name, or KeyError('options') when that screen has none |
| `Schema.OptionsFor` | nacar/schema.py:145-148 | for a declared name on a blueprint whose screens all have options, the lookup succeeds with these options |
| `Schema.OptionsForOwnScreen` | nacar/schema.py:146-148 | a screen whose name no earlier screen shares gets its own options back from the lookup |
| `Schema.MaxOf` | nacar/schema.py:142 | `max` of a non-empty list bounds every element and is one of them |
| `Schema.MaxOptionCount` | nacar/schema.py:132-142 | bounds the option count of every screen and equals the count of one of them |
| `Schema.GetMaxScreenOptionsInBlueprint` | nacar/schema.py:137-142 | the loop collects each screen's option count; the result is ValueError for an empty screen list and MaxOptionCount otherwise |
| `Schema.ConformingOptionCount` | nacar/schema.py:37-40 | under the `options` bounds of the screen subschema, every screen name looks up 1 to 999 options |
| `Schema.ConformingMaxOptionCount` | nacar/schema.py:78-82 | a blueprint within the schema has at least one screen, and its largest option count is 1 to 999 |
| `Schema.Exists` | nacar/schema.py:92-99 | `exists` on an empty chain raises IndexError (from `pop(0)`) |
| `Schema.WithDefaults` | nacar/schema.py:101-104 | the defaulted `meta` holds both attributes; each keeps a non-None value and is 80 or true otherwise; every other key is unchanged |
| `Schema.ExistsInMeta` | nacar/schema.py:92-101 | `exists(blueprint, ['meta', key])` is false without `meta`; on a mapping `meta` it is true exactly when `key` is set to a non-None value |
| `Schema.WithDefaultsIdempotent` | nacar/schema.py:101-104 | defaulting twice is defaulting once |
| `Schema.ParsedBlueprint.AssignInMeta` | nacar/schema.py:102 | `blueprint['meta'][key] = value`: KeyError without `meta`, TypeError when `meta` is not a mapping, otherwise only that key changes |
| `Schema.ParsedBlueprint.SetMissingOptionalAttributes` | nacar/schema.py:91-106 | the document is updated in place to WithDefaults of its `meta`, or left alone with the KeyError or TypeError raised |
| `TestUtils.GetNestedKey` | tests/utils.py:12-21 | an empty chain raises IndexError; one key on a mapping gives its value, or None when the key is absent |
| `TestUtils.ValueAtCons` | tests/utils.py:15-18 | the path reference read from the front: one step into the mapping, then the rest of the chain |
| `TestUtils.GetNestedKeyFound` | tests/utils.py:12-21 | along a path of mappings that exists, the lookup returns the value at its end |
| `TestUtils.GetNestedKeyMissing` | tests/utils.py:16-21 | a key missing from a mapping at any depth of the path yields None |
| `TestUtils.ExistsMirrorsGetNestedKey` | nacar/schema.py:92-99 | `exists` answers whether `get_nested_key` finds a value other than None, and raises where it raises |
| `SchemaErrors.NormalizeMessage` | nacar/schema.py:184-185 | the stored message is the capitalised text plus a full stop unless it already ends in one: first letter upper-case, rest lower-case, last character `.` |
| `SchemaErrors.NormalizeMessageIdempotent` | nacar/schema.py:184-185 | normalising a normalised message changes nothing |
| `SchemaErrors.MessageTexts` | nacar/schema.py:184-185 | the `isinstance(err, str)` filter: its texts are exactly those of the message items |
| `SchemaErrors.Messages` | nacar/schema.py:184-185 | one entry per message item, in order, the `k`-th being NormalizeMessage of the `k`-th message text; nested items are skipped |
| `SchemaErrors.KeyIndex` | nacar/schema.py:188 | the position of the first entry under a key that is present |
| `SchemaErrors.Put` | nacar/schema.py:188 | `d[key] = value` on an insertion-ordered dict: an existing key keeps its position and only its value changes; a new key is appended; the key set grows by `key` |
| `SchemaErrors.ErrorWalk.Walk` | nacar/schema.py:166-193 | the loop over the keys of a level updates the shared breadcrumbs and the errors by key as WalkAsWritten says |
| `SchemaErrors.ErrorWalk.Visit` | nacar/schema.py:172-193 | one iteration: push the key; walk a non-empty nested first error; or record the messages under the dotted breadcrumbs, then pop one breadcrumb if keys remain at this level and clear them all otherwise |
| `SchemaErrors.FlattenKeys` | nacar/schema.py:166-193 | the intended walk records exactly the dotted full paths of the message lists (list indices dropped) and keeps what was recorded before |
| `SchemaErrors.FlatWalkAgrees` | nacar/schema.py:166-193 | on a single level of messages the walk as written leaves the breadcrumbs empty and records what the intended walk records |
| `SchemaErrors.WalkAsWrittenLosesParent` | nacar/schema.py:189-193 | on `meta: [{authors: [{0: [...]}], width: [...]}]` the walk as written records `width` where the intended walk records `meta.width` |
| `SchemaErrors.WalkRecordsLeaves` | nacar/schema.py:166-193 | the walk as written keeps every key recorded before it and never shrinks the record, and records something exactly when the tree holds a message list |
| `SchemaErrors.PadLength` | nacar/schema.py:199 | `max(map(len, errors_by_key))` is at least every key's length and equal to one of them |
| `SchemaErrors.EntryLines` | nacar/schema.py:203-205 | one line per message of the key |
| `SchemaErrors.BuildErrorLines` | nacar/schema.py:195-205 | the constructor walks the tree with the shared breadcrumbs and formats what the walk recorded: none for an empty tree, ValueError when nothing was recorded, else the header and the lines of each key in order |
| `SchemaErrors.BuildFormatLines` | nacar/schema.py:202-205 | the loop over the keys appends the lines of each key in insertion order |
| `SchemaErrors.BuildEntryLines` | nacar/schema.py:203-205 | the key is padded once and each message appended after it |
| `SchemaErrors.FormatLinesCount` | nacar/schema.py:202-205 | there is exactly one line per recorded message |
| `SchemaErrors.ErrorLineAligned` | nacar/schema.py:203-205 | a line without `.,` is the key, its colon, spaces up to column `pad + 1`, a space and the message verbatim, so that messages line up |
| `SchemaErrors.NoMessagesIsValueError` | nacar/schema.py:195-199 | with the walk as written, a non-empty tree fails exactly when it holds no message list, and the failure is ValueError |
| `SchemaErrors.NoMessagesIsValueErrorIntended` | nacar/schema.py:195-199 | the same holds of the lines built with full paths |
| `SchemaErrors.ErrorLinesLoseParent` | nacar/schema.py:186-205 | on the tree above, the error lines print the width message under `width:`; with full paths they would print it under `meta.width:` |
| `SchemaErrors.MessageSplitsIntoLines` | nacar/schema.py:207-209 | the message splits back into the error lines when none holds a newline |
| `Validator.MissingInputMessage` | nacar/validator.py:26-34 | the RuntimeError text starts with "The Nacar validator was not handed a " and names what is missing: both, the document or the schema |
| `Validator.NacarValidator.BuildMissingInputMessage` | nacar/validator.py:27-33 | the message is built by appending to the prefix, as MissingInputMessage says |
| `Validator.NacarValidator.Error` | nacar/validator.py:45 | `_error` appends one `(field, message)` pair |
| `Validator.NacarValidator.CheckTitle` | nacar/validator.py:40-47 | under its guard, the title check flags and reports a title longer than the width less 4; without the guard it reports nothing |
| `Validator.NacarValidator.CheckScreenNamesAreUnique` | nacar/validator.py:50-55 | uniqueness is false without screens, without an error; a duplicate appends the uniqueness error |
| `Validator.NacarValidator.CheckScreenLinksAreRecursive` | nacar/validator.py:58-65 | a pair with one distinct end is a self-link and appends its error |
| `Validator.NacarValidator.CheckLinkedScreensExist` | nacar/validator.py:68-71 | a link target outside the screen names appends the undefined-screen error |
| `Validator.NacarValidator.Validate` | nacar/validator.py:25-77 | RuntimeError with its message when the document or schema is missing; otherwise the verdict is ValidationResult and the errors are Cerberus' followed by the custom ones, in source order |
| `Validator.UniqueIffDistinct` | nacar/validator.py:53 | `len(names) == len(set(names))` exactly when no two names are equal |
| `Validator.ScreenNamesAreUniqueMeans` | nacar/validator.py:50-55 | the uniqueness flag holds exactly for a non-empty list of pairwise different names |
| `Validator.ScreenLinksAreRecursiveMeans` | nacar/validator.py:58-63 | `1 in screen_link_lengths` exactly when some screen has a link option naming itself |
| `Validator.LinkedScreensExistMeans` | nacar/validator.py:68-69 | the subset test holds exactly when every link target is a screen name |
| `Validator.ValidIffNoCustomErrors` | nacar/validator.py:73-77 | the verdict is true exactly when Cerberus accepted, there is a screen, and no custom check appended an error |
| `Validator.NoScreensIsInvalid` | nacar/validator.py:50-55 | a blueprint without screens never validates, yet only the title check can report an error for it |
| `Validator.LongTitleOtherwiseValid` | nacar/validator.py:44-71 | the 100-character title in an 80-column app exceeds the width, and the blueprint passes the other checks |
| `Validator.TitleGuardAsWritten` | nacar/validator.py:40-47 | with `hasattr(document, 'title')` false for a dict, that blueprint validates with no title error |
| `Validator.TitleGuardCorrected` | nacar/validator.py:40-47 | with the guard true, a too-long title is refused and its error comes first; a valid blueprint has a title no longer than the width less 4 |
| `BashPrintf.ColumnsPlain` | nacar/translate/to_bash/to_bash.py:155 | plain text in a printf format prints one column per character |
| `BashPrintf.ColumnsBoxSide` | nacar/translate/to_bash/to_bash.py:150 | `\U2502` prints one column |
| `BashPrintf.ColumnsStyle` | nacar/translate/to_bash/to_bash.py:151 | a `${NAME}` style expansion prints nothing |
| `BashPrintf.ColumnsPad` | nacar/translate/to_bash/to_bash.py:153 | `%{len_right}s` with no argument prints `abs(len_right)` spaces, for either sign |
| `ToBash.ConformingIsTranslatable` | nacar/schema.py:47-54 | the `minlength: 1` of option names makes `name[0]` safe on a conforming blueprint |
| `ToBash.OptionFormatColumns` | nacar/translate/to_bash/to_bash.py:148-156 | an option line prints `len(name) + 7 + abs(len_right)` columns |
| `ToBash.OptionLineFitsWidth` | nacar/translate/to_bash/to_bash.py:152-153 | the line is exactly as wide as the app if and only if `len(name) + 7 <= width`; otherwise it prints `2 * (len(name) + 7) - width` columns |
| `ToBash.PercentNameUnmeasured` | nacar/translate/to_bash/to_bash.py:150-155 | an option named `A%` puts an unescaped `%` in the printf format, outside what the width model measures |
| `ToBash.ConformingOptionOverflows` | nacar/translate/to_bash/to_bash.py:152-153 | a blueprint within the schema (a 64-letter option in a 40-column app) gets `len_right == -31` and a 102-column line |
| `ToBash.BottomPaddingEqualisesScreens` | nacar/translate/to_bash/to_bash.py:158-159 | options plus bottom padding equal the largest option count plus one for every screen; the padding is at least 1, and exactly 1 for the fullest screen |
| `ToBash.ConformingBottomPadding` | nacar/translate/to_bash/to_bash.py:158-162 | within the schema's bounds, `print_screen_bottom` is given 1 to 999 |
| `ToBash.BuildOptionLines` | nacar/translate/to_bash/to_bash.py:148-156 | the loop assembles the printf, key and pad snippets of each option into OptionLine, in option order |
| `ToBash.OptionLineSnippets` | nacar/translate/to_bash/to_bash.py:150-155 | the source's snippet concatenation is the option's printf line |
| `ToBash.ShowScreenMethodLines` | nacar/translate/to_bash/to_bash.py:142-166 | the routine of one screen: header, one option line per option, bottom padding from the largest option count, keystroke check |
| `ToBash.OptionLineOfScreen` | nacar/translate/to_bash/to_bash.py:142-156 | line `2 + j` of a screen's routine draws its `j`-th option |
| `ToBash.ScreenBlocksLength` | nacar/translate/to_bash/to_bash.py:141-166 | the routines of a list of screens have one line per option plus six per screen |
| `ToBash.BlueprintToBash.GetShowScreenMethodsLines` | nacar/translate/to_bash/to_bash.py:138-168 | the loop over the screens concatenates their routines in order |
| `ToBash.ShowExitScreenLines` | nacar/translate/to_bash/to_bash.py:178-190 | four lines; the "Made with Nacar" notice appears exactly when `show_made_with_on_exit` is set, the plain exit line exactly when it is not |
| `ToBash.BlueprintToBash.GetScreenRenderingCode` | nacar/translate/to_bash/to_bash.py:192-202 | the section title, the screen routines, the exit-action routine, the exit screen and a closing `\n\n`, joined by newlines |
| `ToBash.RenderingCodeLines` | nacar/translate/to_bash/to_bash.py:192-202 | read back line by line, the rendering code gives its parts in order, and the closing `\n\n` gives three empty lines |
| `ToBash.MainLoopCodeLines` | nacar/translate/to_bash/to_bash.py:206-228 | read back line by line, the main loop is its title followed by the trap, the loop and the exit dispatch |
| `ToBash.BlueprintToBash.constructor` | nacar/translate/to_bash/to_bash.py:40-52 | a translator starts with no screens and empty template data |
| `ToBash.BlueprintToBash.SetTemplateData` | nacar/translate/to_bash/to_bash.py:42-43 | replaces the template data |
| `ToBash.BlueprintToBash.SetScreens` | nacar/translate/to_bash/to_bash.py:47-48 | the screens become the blueprint's screen names; the template data is unchanged |
| `ToBash.BlueprintToBash.SetHeadingTemplateVariables` | nacar/translate/to_bash/to_bash.py:65-80 | merges `heading` (title, year, authors joined by `, `, version, date) over the old data; KeyError without authors |
| `ToBash.BlueprintToBash.SetAppConfigTemplateVariables` | nacar/translate/to_bash/to_bash.py:84-92 | merges `app_config` (width, title) over the old data |
| `ToBash.BlueprintToBash.SetUtilitiesTemplateVariables` | nacar/translate/to_bash/to_bash.py:96-117 | merges `utilities` holding the eight style escapes |
| `ToBash.BlueprintToBash.SetScreenFlowTemplateVariables` | nacar/translate/to_bash/to_bash.py:121-134 | merges `screen_flow`: the screens, and each screen name mapped to the options of the first screen so named |
| `ToBash.BlueprintToBash.TranslateBlueprint` | nacar/translate/to_bash/to_bash.py:232-246 | sets heading, app config and utilities and nothing else, keeping every other key; KeyError without authors |
| `Text.Capitalize` | nacar/schema.py:184 | `str.capitalize`: same length, first character upper-cased, the rest lower-cased |
| `Text.LJust` | nacar/schema.py:203 | `str.ljust`: the string followed by spaces up to the width, or unchanged when already that long |
| `Text.NatToStringRoundTrip` | nacar/translate/to_bash/to_bash.py:153 | the decimal rendering of a number reads back as that number |
| `Text.SplitJoin` | nacar/schema.py:209 | lines joined by a separator none of them holds split back into the lines |
| `Text.ReplaceDotCommaIdentity` | nacar/schema.py:205 | `replace('.,', ',')` leaves a string without `.,` unchanged |

## Left out

- File I/O, the command line, and the Jinja template rendering. `TranslateBlueprint` returns the template data that would be rendered.
- The internals of Cerberus and its schema registry. `Validate` takes Cerberus' verdict and error list as the inputs `structurallyValid` and `structuralErrors`. The schema's bounds are the constant `NacarSchema`, with the predicate `Conforms` over the typed blueprint.
- The clock and the package version. The year, the date and the version are parameters of `SetHeadingTemplateVariables` and `TranslateBlueprint`.
- `get_section_title`, `get_comment_lines`, the translator interface and the target-language enumeration. The section title is a parameter of the rendering and main-loop code.
- Validator.NacarValidator.Validate: `titleGuard` is a parameter. It stands for `hasattr(document, 'title')`, which is the constant `HasAttrTitle` (false) as written and true once the guard reads `'title' in document`.
- The translator runs only on a `Translatable` blueprint: every screen has `options` and every option a non-empty name. The source raises KeyError or IndexError otherwise, and those paths are not modelled. `ConformingIsTranslatable` shows that the schema's bounds give the names; `options` is not required by the screen subschema.
- The typed blueprint holds `meta` after defaulting, which is what the translator receives (nacar/main.py:91). A `width` or a flag of the wrong type is Cerberus' concern and is not represented.
- Validator.NacarValidator.Validate: runs on the typed blueprint, so two paths of the source are not modelled. The validator runs before the defaults are set (nacar/main.py:83-84), so under the corrected title guard a blueprint without `meta.width` would raise KeyError at `document['meta']['width']`; the model reads a width that is always there. The custom checks also run when Cerberus rejects the document, and `get_screen_names` reads `s['name']` unguarded, so a screen without a name makes `validate` raise KeyError instead of reporting the schema error; the typed `Screen` always has a name.
- ToBash.OptionFormatColumns, ToBash.OptionLineFitsWidth: proved only for option names without `\`, `$`, `%`, `"` or a backquote (`AllPlain`). The schema bounds a name only by length, and the translator puts it unescaped into a double-quoted printf format, where bash interprets those characters; `PercentNameUnmeasured` shows such a line falls outside the width model.
- SchemaErrors.WellFormed: every error list is taken to be non-empty. The walk reads `errors[0]` unguarded, so an empty list would raise IndexError; Cerberus never produces one.
- Case mapping is ASCII only. Python's `lower`, `upper` and `capitalize` also map other Unicode letters.
- Schema.GetScreenLinks: states which pairs are listed, in both directions, but not their order or multiplicity. Only membership is used by the validator.
- Validation messages are modelled as non-empty strings (the type `ErrorText`). The source's `err[-1]` would raise IndexError on an empty message, which Cerberus never produces.
- The printf width model measures only the printf constructs that the option lines of plain names use: `\U`, `\n`, `${NAME}` and `%Ns`/`%-Ns`. Other escapes and conversions measure as None.
- `translate_blueprint` never calls `set_screens` or `set_screen_flow_template_variables`. The model keeps that: `TranslateBlueprint` sets only the heading, app config and utilities.
- Where the project's documentation and the code disagree, the model follows the code in two places. First, the title check is guarded by `hasattr`, so it never runs (see Findings). Second, `InvalidSchemaError` writes one line per message, not the messages of a key joined on one line.

## Findings

| source | as written | input that shows it | evidently intended | confidence | as-written member | corrected member |
|---|---|---|---|---|---|---|
| nacar/schema.py:189-193 | after the last key of a level holding messages, every breadcrumb is popped, including those of the enclosing levels | `{'meta': [{'authors': [{0: ['max length is 64']}], 'width': ['min value is 40']}]}` records the width error under `width` | the error is recorded under `meta.width`, the full dotted path | not executed | `SchemaErrors.ErrorLinesLoseParent` | `SchemaErrors.FlattenKeys` |
| nacar/validator.py:41 | the title check is guarded by `hasattr(document, 'title')`, which is false for the dict a blueprint is, so the check never runs | title of 100 characters, `meta.width` 80, one screen `home` with one action option: validates with no error | the title is refused when longer than the width less 4 | not executed | `Validator.TitleGuardAsWritten` | `Validator.TitleGuardCorrected` |
