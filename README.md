# Checklist completion stamper

A model, in Dafny, of the completion stamper of an editor plug-in for Markdown notes.
When the user ticks a checklist item (`- [ ] Buy groceries` becomes
`- [x] Buy groceries`), the plug-in appends a completion stamp to that line:
a space, the glyph ✅ (U+2705), a space and the date `YYYY-MM-DD`, and, if the
settings ask for it, a space and the time `HH:MM`:
`- [x] Buy groceries ✅ 2026-02-07 14:30`.
A line is not stamped when it contains one of the configured exclusion patterns, or
when it already carries the glyph.
The handler remembers, per file and per line number, whether each line was last seen
checked or unchecked.
It stamps only on a transition from unchecked (or never seen) to checked.

The model has three modules:

- `Text` (`text.dfy`): the character classes behind `\s`, `\d` and `String.trim`,
  substring containment (`String.prototype.includes`), and decimal rendering
  (`String(n)`, `padStart(2, "0")`) with its read-back `DigitsValue`.
- `Settings` (`settings.dfy`): the settings record, its defaults, and the
  exclusion-pattern text area.
  The text area shows the stored list joined with newlines.
  An edited text is read back by splitting it on newlines, trimming each piece and
  dropping the empty pieces.
- `Checkbox` (`checkbox_handler.dfy`): the line classifiers, the stamp formatter,
  `ApplyCheckboxStamp` on an editor given as an `array<string>` of lines, and the class
  `CheckboxHandler`, whose fields `settings` and `previousLineStates` the methods update.

Each regular expression is modelled twice.
`IsCheckedCheckbox` and `IsUncheckedCheckbox` are deterministic scanners: skip the
indentation, read one list marker, then look for the five characters ` [x] `.
`ItemPrefix` is the grammar read off the pattern, an existential over where the
indentation and the marker end.
`HasBoxGrammar` proves the two equal.
The scanner is exact because a marker never starts with whitespace, and the digits of
a numbered marker never end in `.` or `)`.

The clock (`new Date()`) is a parameter `now: DateTime` with plain integer fields.
The month is one-based, as `getMonth() + 1` makes it.
The editor (`getLine`, `setLine`, `getCursor`) is an array of lines plus a cursor index.
The file path is an explicit parameter of `HandleEditorChange`.

The code has no rule that removes a stamp when an item is unchecked again, so the model
has none.
The handler keeps a per-file, per-line state map, and so does the model.

## Model

| member | source | states |
|---|---|---|
| Text.Contains | checkbox-handler.ts:32 | `s.includes(p)` holds iff some window `s[i..i+|p|]` equals `p`; so the empty pattern is in every string |
| Text.NatToString | checkbox-handler.ts:47-50 | `String(n)` is a non-empty run of digits with no leading zero that reads back as `n` |
| Text.NatToStringLength | checkbox-handler.ts:47 | a number with k decimal places renders as exactly k digits, for k up to 4, so a four-digit year gives four characters |
| Text.Pad2 | checkbox-handler.ts:48-49 | `padStart(2, "0")` yields digits that read back as the number, exactly two of them below 100 |
| Settings.TrimStart | settings.ts:86 | the result is a suffix of the input, the removed prefix is blank, and the result does not start with whitespace |
| Settings.TrimEnd | settings.ts:86 | the result is a prefix of the input, the removed suffix is blank, and the result does not end with whitespace |
| Settings.Trim | settings.ts:86 | `trim()` is no longer than its input and is empty or starts and ends with a non-blank character |
| Settings.TrimWindow | settings.ts:86 | the trimmed text is a window of the input between a blank prefix and a blank suffix |
| Settings.TrimEmpty | settings.ts:86-87 | trimming gives "" exactly when the input is blank |
| Settings.TrimKeepsCharacters | settings.ts:86 | trimming introduces no character, so a newline-free piece stays newline-free |
| Settings.TrimmedText | settings.ts:86 | a text that neither starts nor ends with whitespace is its own trim |
| Settings.TrimIdempotent | settings.ts:86 | trimming twice equals trimming once |
| Settings.Split | settings.ts:85 | `split("\n")` gives at least one piece, also for the empty text |
| Settings.SplitPiecesSingleLine | settings.ts:85 | no piece of a split contains a newline |
| Settings.SplitCons | settings.ts:85 | a leading newline closes an empty first piece; any other leading character joins the first piece |
| Settings.Join | settings.ts:81 | `join("\n")`: no contract of its own; `JoinSplit` and `SplitJoin` prove it the inverse of `Split`, and `ParseJoinRoundTrip` connects it to the parse |
| Settings.JoinSplit | settings.ts:81-85 | joining the pieces of a split with newlines gives back the text |
| Settings.SplitConcat | settings.ts:85 | splitting `a + "\n" + b` gives the pieces of `a` followed by the pieces of `b` |
| Settings.SplitLine | settings.ts:85 | a newline-free text splits into itself alone |
| Settings.SplitJoin | settings.ts:81-85 | splitting the join of one or more newline-free pieces gives back the pieces |
| Settings.TrimAll | settings.ts:86 | `map(trim)` keeps the length and trims each element in place |
| Settings.DropEmpty | settings.ts:87 | `filter(p => p.length > 0)` keeps only non-empty elements of its input and never grows |
| Settings.DropEmptyConcat | settings.ts:87 | filtering distributes over concatenation, so order is kept |
| Settings.DropEmptyNone | settings.ts:87 | filtering a list with no empty element changes nothing |
| Settings.DropEmptyAllEmpty | settings.ts:87 | filtering gives [] exactly when every element is empty |
| Settings.ParsePatterns | settings.ts:84-87 | every parsed pattern is non-empty, its own trim, and newline-free |
| Settings.ParseLine | settings.ts:84-87 | a single line parses to its trimmed text, or to [] if it is blank |
| Settings.ParseConcat | settings.ts:84-87 | lines parse independently and in order: `parse(a + "\n" + b) == parse(a) + parse(b)` |
| Settings.ParseBlank | settings.ts:84-87 | the text parses to [] exactly when every line is blank, in particular the empty text |
| Settings.ParseJoinRoundTrip | settings.ts:81-87 | `parse(join(ps, "\n")) == ps` when each pattern is non-empty, trimmed and newline-free |
| Settings.ParseIdempotent | settings.ts:81-87 | showing a parsed list and parsing it again gives the same list |
| Settings.DefaultSettingsFacts | settings.ts:11-16 | defaults: stamping on, no time, format `YYYY-MM-DD`, patterns `["#task"]`, which survive the text area unchanged |
| Checkbox.SkipWhitespace | checkbox-handler.ts:6 | `(\s*)`: returns the first non-blank index at or after `i`, and everything skipped is whitespace |
| Checkbox.SkipDigits | checkbox-handler.ts:6 | `\d+`: returns the first non-digit index at or after `i`, and everything skipped is a digit |
| Checkbox.MarkerEnd | checkbox-handler.ts:6 | a marker found at `i` ends strictly after `i`, within the line |
| Checkbox.BoxStartComplete | checkbox-handler.ts:6-9 | every split of a line into blank indentation and a marker is the one the scanner finds |
| Checkbox.BoxStartSound | checkbox-handler.ts:6-9 | the scanner's split is blank indentation followed by a marker |
| Checkbox.HasBoxGrammar | checkbox-handler.ts:6-9 | the scanner accepts a line iff the line matches indentation, marker and ` [mark] `, both directions |
| Checkbox.IsCheckedCheckbox | checkbox-handler.ts:14-16 | `isCheckedCheckbox`: no contract of its own; `CheckedGrammar` proves it equal to the case-insensitive pattern at line 6 |
| Checkbox.IsUncheckedCheckbox | checkbox-handler.ts:21-23 | `isUncheckedCheckbox`: no contract of its own; `UncheckedGrammar` proves it equal to the pattern at line 9 |
| Checkbox.CheckedGrammar | checkbox-handler.ts:5-16 | `isCheckedCheckbox` holds iff the line is indentation, a marker (`-`, `*`, `+`, or digits and `.` or `)`), then ` [x] ` or ` [X] ` |
| Checkbox.UncheckedGrammar | checkbox-handler.ts:8-23 | `isUncheckedCheckbox` holds iff the line is indentation, a marker, then exactly ` [ ] ` |
| Checkbox.CheckedUncheckedExclusive | checkbox-handler.ts:6-9 | no line is both checked and unchecked |
| Checkbox.ClassifyBox | checkbox-handler.ts:6-9 | for a three-character box: checked iff it is `[x]` or `[X]`, unchecked iff it is `[ ]` |
| Checkbox.MalformedBoxNeither | checkbox-handler.ts:6-9 | an item whose box holds no `]` and not exactly one character is neither checked nor unchecked |
| Checkbox.EmptyBoxNeither | checkbox-handler.ts:6-9 | an item with the box `[]` is neither checked nor unchecked |
| Checkbox.DoubleMarkNeither | checkbox-handler.ts:6-9 | an item with the box `[xx]` is neither checked nor unchecked |
| Checkbox.HasBoxExtend | checkbox-handler.ts:6-9 | appending text to a checked (or unchecked) line keeps it so |
| Checkbox.ShouldExcludeLine | checkbox-handler.ts:28-33 | true iff some pattern of the list is a substring of the line |
| Checkbox.ExcludeEdgeCases | checkbox-handler.ts:28-33 | an empty pattern list excludes nothing; a list containing "" excludes every line |
| Checkbox.HasCompletionStamp | checkbox-handler.ts:38-40 | true iff the line contains the glyph U+2705 |
| Checkbox.FormatDate | checkbox-handler.ts:46-51 | `formatDate`: no contract of its own; `FormatDateFields` fixes the string for every date |
| Checkbox.FormatTime | checkbox-handler.ts:56-60 | `formatTime`: no contract of its own; `FormatTimeFields` fixes the string for times in range |
| Checkbox.FormatDateFields | checkbox-handler.ts:46-51 | the date is `String(year)` (digits, no leading zero), `-`, two-digit month, `-`, two-digit day, each reading back as its field; 10 characters for a four-digit year; the format argument has no effect |
| Checkbox.FormatTimeFields | checkbox-handler.ts:56-60 | for hour 0..23 and minute 0..59 the time is exactly 5 characters `HH:MM`, reading back as the two fields |
| Checkbox.StampText | checkbox-handler.ts:89-92 | the stamp text: no contract of its own; `StampTextShape` gives its layout |
| Checkbox.StampTextShape | checkbox-handler.ts:89-92 | the stamp is ` ✅ ` and the date, 13 characters, or 19 with ` HH:MM` appended when `includeTime` is set |
| Checkbox.StampApplies | checkbox-handler.ts:73-86 | the three guards: no contract of its own; `ApplyCheckboxStamp` stamps exactly when it holds, and `StampIdempotent` shows a stamped line fails it |
| Checkbox.StampedLine | checkbox-handler.ts:92-93 | the new line keeps the old text as a prefix, is longer, and carries the glyph |
| Checkbox.StampIdempotent | checkbox-handler.ts:84-93 | a stamped line is still checked and fails the guards under any settings, so a second stamp is a no-op |
| Checkbox.DefaultsExcludeTask | checkbox-handler.ts:78-81 | with the default settings a line containing `#task` is never stamped |
| Checkbox.YearExample | settings.ts:42 | the year 2026 renders as `2026` |
| Checkbox.DateExample | settings.ts:42 | 2026-02-07 renders as `2026-02-07` |
| Checkbox.TimeExample | settings.ts:62 | 14:30 renders as `14:30` |
| Checkbox.StampExample | settings.ts:42 | `- [x] Buy groceries` becomes `- [x] Buy groceries ✅ 2026-02-07` with the defaults |
| Checkbox.TimedStampExample | settings.ts:62 | with `includeTime`, the stamp ends in ` 14:30` |
| Checkbox.ApplyCheckboxStamp | checkbox-handler.ts:66-96 | returns true iff the line is checked, not excluded and not stamped; then only that line changes, to old text + stamp; otherwise the document is unchanged |
| Checkbox.RecordLine | checkbox-handler.ts:129-144 | after a change the file's entry for the line is `false` if it is unchecked, `true` if checked, unchanged otherwise; no other line's entry changes |
| Checkbox.StampsOnChange | checkbox-handler.ts:129-142 | a change stamps the line iff the stamping guards pass and the line was recorded unchecked or not at all |
| Checkbox.CheckedLineNotRestamped | checkbox-handler.ts:135-143 | a line recorded as checked is never stamped by the next change, even if its stamp was deleted |
| Checkbox.UncheckThenCheckStamps | checkbox-handler.ts:129-143 | after a line is seen unchecked, the next change stamps it iff the stamping guards pass |
| Checkbox.OtherLinesIndependent | checkbox-handler.ts:129-144 | recording one line does not change the decision for any other line |
| Checkbox.CheckboxHandler.constructor | checkbox-handler.ts:101-107 | the handler starts with the given settings and no recorded states |
| Checkbox.CheckboxHandler.UpdateSettings | checkbox-handler.ts:109-111 | the settings are replaced; the recorded states stay |
| Checkbox.CheckboxHandler.HandleEditorChange | checkbox-handler.ts:117-145 | a new file gets an entry; the cursor line's state is recorded by `RecordLine`; no other file's map changes; the document is stamped on the cursor line exactly when `StampsOnChange` holds and is otherwise unchanged |
| Checkbox.CheckboxHandler.ClearFileState | checkbox-handler.ts:150-152 | exactly the entry of that file is removed; the settings stay |

## Left out

- The host application's editor, plug-in, event and settings-tab interfaces: the editor is an array of lines and a cursor index.
- The rendering of the settings tab, and the `onChange` assignment and save around the pattern parse in `settings.ts`.
- `main.ts`, which is not part of this model: event wiring, the `checkboxStampingEnabled` gate, asynchronous loading and saving of settings, the defaults merge and logging. It calls `handleEditorChange(editor)` without a file path, so at run time every file shares one state map. Here the file path is a parameter.
- JavaScript `Date`, the local time zone and calendar validity: the date and time are given integers in their ranges.
- The regular-expression engine and the full Unicode meaning of `\s` and `trim`. Whitespace is modelled as space, tab, LF, CR, VT and FF. Non-breaking and other Unicode spaces are not whitespace here.
- The settings object is shared by reference between the plug-in and the handler. The model passes it as a value.
- Checkbox.FormatDateFields: a year below 1000 renders without padding, as `String(year)` does. The lemma gives the exact length 10 only for four-digit years.
- Checkbox.ApplyCheckboxStamp: requires a line number inside the document. The host guarantees this for the cursor line. What `getLine` returns outside the document is not modelled.
- Stamp removal on uncheck is not modelled, because the code has none.
- Character units: Dafny strings are sequences of Unicode scalar values, while the source's strings are sequences of UTF-16 code units. On well-formed text, `includes`, `length > 0`, `split("\n")` and `trim` give the same answers either way, and U+2705 is a single UTF-16 unit, so no behaviour is lost. Only the string lengths the model states (such as the 13- or 19-character stamp) count scalar values. They agree with UTF-16 lengths because every character involved is in the Basic Multilingual Plane.
