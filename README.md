# Card generator, layer exporter and shuffle estimator in Dafny

This project models three scripts from a small tool set that produces
tournament graphics.

- **The shuffle estimator** (`probability.js`) splits a 99-card deck into
  `splitCount` nearly equal chunks and weaves them back one card at a time
  from each chunk in turn. It then cuts the deck at a random point and
  repeats the shuffle `shuffleCount` times. Over `iterations` trials it
  counts how often `targetCard` ends up among the top `topX` cards
  (module `Shuffle`, file `shuffle.dfy`).
- **The card generator** (`CreateCards.jsx`) has two parts:
  - a reader for the roster CSV (module `Csv`);
  - the updates that, for one CSV row, show or hide the template's layer
    sets, fill its text layers, size fonts and place images into smart
    objects (module `Layout`).

  Its small helpers live in module `CardHelpers` (`helpers.dfy`): the file
  name sanitiser, `parseInt`, the placement suffix and the username
  extractor. They rest on the string functions of module `Text`
  (`text.dfy`), which are JavaScript's `trim`, `split`, `toUpperCase` and
  `\s`.
- **The layer exporter** (`SaveAssets.jsx`) saves every layer that is not
  the background as its own PNG. While it saves a layer, only that layer is
  visible. Afterwards the layer gets its own visibility back (module
  `Export`, file `export.dfy`).

## How the model is built

- The shuffle is specified by functions:
  - `Chunks` gives the split, `Weave` the riffle and `Cut` the cut.
  - The methods `SplitDeck`, `WeavePass`, `WeaveChunks`, `ShuffleDeck`,
    `RunTrial` and `CountSuccesses` keep the source's loops. Each is proved
    equal to its function.
  - The random cut points are an oracle `cuts` passed in.
    `ValidCut`/`ValidOracle` bound each cut to the range the source's
    formula can produce.
- The CSV reader is the method `ReadCsv`, proved equal to `ReadCsvSpec`.
- The template is either a value `Scene` in the `Layout` functions, or the
  class `Layout.Document`, whose methods update its `folders` and `layers`
  maps in place. Each method is proved to leave the state its function
  describes.
  - A `getByName` that would throw is a name missing from the map. The
    enclosing `try` then leaves the update undone.
- The exporter is the class `Export.Document`:
  - the layers are an `array` the methods change in place;
  - every `saveAs` appends to a log the file name and the visibility of
    every layer at that moment;
  - `ExportAll` (the script's `main`) is proved against the functions `Run` and `ExportLog`, and the
    lemmas about those state what each file shows.

## Model

| member | source | states |
|---|---|---|
| Text.Trim | CreateCards.jsx:212 | the result is a piece of the input whose surrounding characters are all whitespace and which neither starts nor ends with whitespace; it is empty exactly when the input is all whitespace |
| Text.TrimIdempotent | CreateCards.jsx:212 | trimming twice is trimming once |
| Text.BlankIffTrimsToEmpty | CreateCards.jsx:173 | a text is blank exactly when trimming leaves nothing |
| Text.HasTextIffTrimmed | CreateCards.jsx:91 | a value counts as having text exactly when it is defined and trimming it leaves something |
| Text.Upper | CreateCards.jsx:188 | upper-casing keeps the length and maps every character by the ASCII upper-case rule |
| Text.SplitCount | CreateCards.jsx:210 | splitting gives one more field than there are separators |
| Text.SplitFieldsHaveNoSeparator | CreateCards.jsx:210 | no field holds the separator |
| Text.JoinSplit | CreateCards.jsx:210 | joining the fields with the separator gives the line back |
| Text.ReplaceChars | CreateCards.jsx:465 | same length; each character in the set becomes `_` and every other character is kept |
| Text.ReplaceCharsAbsorbs | SaveAssets.jsx:66 | replacing a subset of characters and then a superset gives what the superset alone gives |
| CardHelpers.SanitizeFileName | CreateCards.jsx:464-466 | same length; each of `\ / : * ? " < > \| ' %` becomes `_` and every other character is kept |
| CardHelpers.SanitizedIsClean | CreateCards.jsx:464-466 | a sanitised name holds none of those characters, and sanitising it again changes nothing |
| CardHelpers.DigitRun | CreateCards.jsx:405 | the run of leading digits is maximal |
| CardHelpers.DigitsOfNumber | CreateCards.jsx:405 | the decimal text of a number has that number as its value |
| CardHelpers.ParseWrittenNumber | CreateCards.jsx:405 | `parseInt` of a number's decimal text gives the number back |
| CardHelpers.ParseDigits | CreateCards.jsx:405 | `parseInt` of a non-empty digit string is its decimal value |
| CardHelpers.ParseExamples | CreateCards.jsx:405 | leading whitespace, a plus sign and trailing letters do not change the number read: `" +13TH"` → 13 |
| CardHelpers.JsRem | CreateCards.jsx:408-409 | the remainder has the sign of the dividend and is smaller in size than the divisor |
| CardHelpers.JsDivision | CreateCards.jsx:408-409 | dividend = divisor × truncated quotient + remainder |
| CardHelpers.PlacementSuffix | CreateCards.jsx:404-425 | the suffix is one of "", "st", "nd", "rd", "th", and it is empty exactly when the place is undefined or does not parse as a number |
| CardHelpers.SuffixOfWrittenPlace | CreateCards.jsx:404-425 | for a place written as a natural number the suffix is the English ordinal suffix: th when the tens digit is 1, otherwise st, nd or rd for a units digit of 1, 2 or 3, and th for the rest |
| CardHelpers.LastTwoDigits | CreateCards.jsx:408-409 | the last two digits are ten times the tens digit plus the units digit |
| CardHelpers.NegativePlaceGetsTh | CreateCards.jsx:408-423 | every negative place gets `th`, because the truncated remainders are never positive |
| CardHelpers.SuffixExamples | CreateCards.jsx:404-425 | `-1` → `th`, `T1` → no suffix, undefined → no suffix |
| CardHelpers.MatchSite | CreateCards.jsx:398 | the host alternative that matches case-insensitively at a position, if any does |
| CardHelpers.SiteMatchUnique | CreateCards.jsx:398 | at most one of the host alternatives matches at a position |
| CardHelpers.WordRun | CreateCards.jsx:398 | the `\w+` run after the host is maximal |
| CardHelpers.FirstFrom | CreateCards.jsx:398 | over the positions where the pattern matches (`Matches`), the leftmost match at or after a position, and no match between that position and it |
| CardHelpers.FirstFromStops | CreateCards.jsx:398 | the search stops at the first match |
| CardHelpers.ExtractBlank | CreateCards.jsx:394-396 | an undefined or blank URL gives the empty name |
| CardHelpers.ExtractLeftmost | CreateCards.jsx:398-399 | with a match, the name is the word run after the host of the leftmost match |
| CardHelpers.CapturedRun | CreateCards.jsx:398 | a host followed by a word character is a match; the captured name is non-empty and made of word characters |
| CardHelpers.ExtractWithoutMatch | CreateCards.jsx:399 | without a match the URL itself is the name |
| CardHelpers.ExtractSiteExample | CreateCards.jsx:398-399 | `X.COM/AB_1?` gives `AB_1` |
| CardHelpers.ExtractPlainExample | CreateCards.jsx:394-399 | `@AB` gives `@AB`; a whitespace-only URL gives the empty name |
| Csv.FieldsShape | CreateCards.jsx:209-215 | a line has one more field than commas; no field holds a comma; every field is already trimmed |
| Csv.SplitAndTrim | CreateCards.jsx:209-215 | the loop produces the trimmed fields of the line |
| Csv.LinesShape | CreateCards.jsx:178 | the content has one more line than newlines, and no line holds a newline |
| Csv.RowOfContents | CreateCards.jsx:199-202 | a row has exactly the headers as keys; each header's value is the upper-cased field in its last column, or empty text when the line is short |
| Csv.RowLines | CreateCards.jsx:196-197 | the lines that become rows lie in the window that starts at line 1 and are not blank |
| Csv.DataRows | CreateCards.jsx:194-204 | one row per line that is kept |
| Csv.RowLinesComplete | CreateCards.jsx:196-197 | every non-blank line of the window is kept, and lines are kept in file order |
| Csv.RowLinesWithoutBlanks | CreateCards.jsx:196-197 | with no blank line, every line of the window is kept |
| Csv.DataRowAt | CreateCards.jsx:196-204 | row `r` is built from the `r`-th kept line |
| Csv.DataRowsFromLines | CreateCards.jsx:194-204 | there are at most as many rows as window lines, and each row is built from a non-blank window line |
| Csv.DataRowsWithoutBlanks | CreateCards.jsx:194-204 | with no blank line, row `i - 1` is built from line `i` |
| Csv.ShortFileFails | CreateCards.jsx:194-197 | a non-blank file with at least 2 but fewer than 102 lines reads past its last line, at the index one past the end |
| Csv.OneRowLines | CreateCards.jsx:173-178 | `NAME\nBOB` is not blank and splits into two lines |
| Csv.OneRowFileFails | CreateCards.jsx:168-206 | the one-row file `NAME\nBOB` makes the reader fail at line 2 |
| Csv.OneRowFileRead | CreateCards.jsx:168-206 | the bounded reader reads the same file as the one row NAME = BOB |
| Csv.BoundedReaderIsTotal | CreateCards.jsx:168-206 | the bounded reader never fails and returns at most 101 rows; wherever the reader as written succeeds, both agree |
| Csv.UpperHeaders | CreateCards.jsx:185-189 | the loop upper-cases every field of the first line |
| Csv.ParseRow | CreateCards.jsx:199-202 | the loop builds the row the headers and fields describe |
| Csv.CollectRows | CreateCards.jsx:191-204 | the loop collects the rows of the non-blank lines of the window |
| Csv.ReadCsv | CreateCards.jsx:168-206 | blank content and fewer than two lines give no rows; a file shorter than 102 lines reads past its end; otherwise the rows of lines 1-101 |
| Csv.ReadCsvBounded | CreateCards.jsx:168-206 | the same reader with the window clipped to the file; it always returns rows, at most 101 |
| Layout.SetText | CreateCards.jsx:218-239 | only the named layer can change, and in it only the text; when both lookups succeed and it is a text layer, it shows the text; otherwise nothing changes |
| Layout.PlaceAsset | CreateCards.jsx:243-273 | only the named layer can change, and in it only the placed file; a found smart object shows the file when the file exists; when a lookup fails, the layer is no smart object or the file is missing, nothing changes |
| Layout.Resize | CreateCards.jsx:320-352 | only the named layer can change, and in it only text, size and baseline shift; a found text layer gets the text and the size and baseline shift of the length rule; otherwise nothing changes |
| Layout.FontShrinks | CreateCards.jsx:339-345 | a longer text never gets a larger font or a higher baseline |
| Layout.FolderUpdateShows | CreateCards.jsx:87-102 | a missing layer set changes nothing; otherwise the set is shown exactly when the value has text, and then its text layer shows the value; without text no layer changes |
| Layout.SecondaryUpdate | CreateCards.jsx:149-164 | layer sets and layers outside the named set are untouched, and inside it only the layer and its `BG` layer can change |
| Layout.SecondaryShows | CreateCards.jsx:149-164 | the layer and its `BG` layer are both shown exactly when the value has text; a smart-object layer then shows `secondaries\\<sanitised value>.png` when that file exists and keeps its image otherwise; if either is missing nothing changes |
| Layout.MainChoice | CreateCards.jsx:115-136 | `TWOMAIN` becomes visible exactly when both mains have text and `ONEMAIN` exactly when only the first has, no other set changes; the set of layers is kept, and without a first main no layer changes at all |
| Layout.MainFoldersShow | CreateCards.jsx:104-146 | `TWOMAIN` shows when both mains have text, `ONEMAIN` when only the first has, never both; nothing changes unless both sets exist |
| Layout.MainChoicePlaces | CreateCards.jsx:115-130 | with both mains `MAIN1` and `MAIN2` of `TWOMAIN` show `mains\\<sanitised main>.png`, with only the first `MAIN1` of `ONEMAIN` shows it, each when the file exists and keeping its image otherwise |
| Layout.MainFoldersPlace | CreateCards.jsx:115-142 | the same placements hold after the whole update, because the secondaries that follow do not touch a `MAIN1` or `MAIN2` layer |
| Layout.SecondariesKeepMains | CreateCards.jsx:138-142 | the four secondary updates leave every `MAIN1` and `MAIN2` layer as the main choice left it |
| Layout.TeamUpdate | CreateCards.jsx:276-317 | only the team's layer set and its layers change |
| Layout.TeamShows | CreateCards.jsx:276-317 | the team set is shown exactly when its team has text; the team name is written and, for the first team, sized by the length rule; `TEAMLOGO` shows `teams\\<sanitised name>.png` when that file exists; without text only the set is hidden and no layer changes; without the set nothing changes |
| Layout.TeamFoldersShow | CreateCards.jsx:276-317 | both team sets follow their own column; a shown team's name layer shows its team name and its `TEAMLOGO` the team's image when that file exists; the first team's name is sized by the length rule and the second's keeps its size; a team without text changes no layer of its set; with neither set present nothing changes |
| Layout.EventLabels | CreateCards.jsx:370-375 | only the placement and suffix layers can change; a placement text layer shows the place and a suffix text layer its ordinal suffix |
| Layout.EventName | CreateCards.jsx:377-379 | only the name layer can change; a name text layer shows the name, sized by the 65/54 rule with a 21-character limit |
| Layout.EventFill | CreateCards.jsx:368-382 | the event's set is shown and nothing outside it changes; the placement layer shows the place (`undefined` when the column is missing), the suffix layer its ordinal suffix, the name layer the name sized by the 65/54 rule; the logo shows the event's image when that file exists |
| Layout.EventUpdate | CreateCards.jsx:355-390 | only the event's layer set and its layers change |
| Layout.EventShows | CreateCards.jsx:355-390 | a missing event set changes nothing; otherwise the set is shown exactly when the event's name has text, and without a name no layer changes |
| Layout.EventTexts | CreateCards.jsx:368-382 | with a name, the placement layer shows the row's place, the suffix layer its ordinal suffix, the name layer the name sized by the 65/54 rule, and the logo the event's image when that file exists |
| Layout.EventFoldersDiffer | CreateCards.jsx:357 | different event numbers name different layer sets |
| Layout.EventsShow | CreateCards.jsx:74-76 | after events 1 to n, every event set follows its own name column, and no layer set is added or removed |
| Layout.PronounsShows | CreateCards.jsx:41-46 | the pronouns background is hidden exactly when the row has a `PRONOUNS` column that is empty |
| Layout.Document.constructor | CreateCards.jsx:9 | the document starts with the template's layer sets, layers and existing assets |
| Layout.Document.UpdateTextLayer | CreateCards.jsx:218-239 | the new state is `SetText` of the old one, with undefined written as its word |
| Layout.Document.ReplaceContents | CreateCards.jsx:243-273 | the new state is `PlaceAsset` of the old one |
| Layout.Document.AdjustFontSize | CreateCards.jsx:320-352 | the new state is `Resize` of the old one |
| Layout.Document.UpdateFolder | CreateCards.jsx:87-102 | the new state is `FolderUpdate` of the old one |
| Layout.Document.UpdateSecondary | CreateCards.jsx:149-164 | the new state is `SecondaryUpdate` of the old one |
| Layout.Document.UpdateMainFolders | CreateCards.jsx:104-146 | the new state is `MainFoldersUpdate` of the old one |
| Layout.Document.UpdateTeamFolder | CreateCards.jsx:278-316 | the new state is `TeamUpdate` of the old one |
| Layout.Document.UpdateTeamFolders | CreateCards.jsx:276-317 | the new state is `TeamFoldersUpdate` of the old one |
| Layout.Document.UpdateEventFolder | CreateCards.jsx:355-390 | the new state is `EventUpdate` of the old one |
| Layout.Document.UpdateEventFolders | CreateCards.jsx:74-76 | the loop over events 1-4 leaves `EventsUpdate` of the old state |
| Layout.Document.TogglePronounsBackground | CreateCards.jsx:41-46 | the lookup succeeds exactly when the layer exists, and then the state is `PronounsToggle` of the old one; otherwise nothing changes |
| Shuffle.ChunksCount | probability.js:3-9 | the split always yields `splitCount` chunks, and one chunk when `splitCount` is at most 1 |
| Shuffle.ChunksConcat | probability.js:3-9 | the chunks laid end to end are the deck |
| Shuffle.ChunkSizes | probability.js:5-7 | every chunk but the last takes the floor of what remains divided by the chunks still to come |
| Shuffle.ChunksStep | probability.js:6-7 | one loop step moves the next chunk from what remains to the pushed chunks |
| Shuffle.SplitDeck | probability.js:3-9 | the splice loop produces `Chunks(deck, splitCount)` |
| Shuffle.PassMovesHeads | probability.js:14-18 | a pass keeps the number of chunks, conserves the number of cards between what it takes and what it leaves, and takes a card whenever any chunk has one |
| Shuffle.PickHeads | probability.js:14-18 | of the cards one pass takes, those from chunk `c` are exactly its front card (none when it is empty) |
| Shuffle.TailsAt | probability.js:14-18 | after one pass chunk `c` has lost exactly its front card |
| Shuffle.PassKeepsCards | probability.js:14-18 | the cards moved plus those left are the cards before the pass, as a multiset |
| Shuffle.WeavePass | probability.js:14-18 | the `for` loop shifts the front card of each non-empty chunk, in chunk order, onto the shuffled deck |
| Shuffle.AnyCards | probability.js:13 | the `some` test holds exactly when a card remains |
| Shuffle.WeaveChunks | probability.js:12-19 | the `while` loop produces `Weave(chunks)` |
| Shuffle.WeavePermutation | probability.js:12-19 | the weave is a permutation of all the chunks' cards |
| Shuffle.WeaveSingle | probability.js:12-19 | weaving a single chunk gives it back |
| Shuffle.WeaveSkipsEmpty | probability.js:15 | an empty chunk at any position changes nothing in the weave |
| Shuffle.WeaveEmptyThen | probability.js:15 | an empty first chunk before one chunk leaves that chunk's weave |
| Shuffle.WeaveKeepsChunkOrder | probability.js:12-19 | for every chunk, the cards of the weave that came from it are, in order, exactly that chunk |
| Shuffle.WeaveTwoRound | probability.js:13-18 | with two non-empty chunks, a round takes the first card of each, in order |
| Shuffle.TwoWayWeave | probability.js:12-19 | with a first chunk no longer than the second, the result alternates between them and then the rest of the second follows |
| Shuffle.TenCardsInTwoChunks | probability.js:3-9 | cards 1-10 split in two are 1-5 and 6-10 |
| Shuffle.WeaveTenCardsInTwo | probability.js:1-19 | cards 1-10 split in two and woven give 1,6,2,7,3,8,4,9,5,10 |
| Shuffle.CutKeepsCards | probability.js:23 | the cut keeps the deck's length and its cards as a multiset |
| Shuffle.CutRotates | probability.js:23 | the cut is a rotation: position i holds card (i + k) mod n; length and multiset are kept |
| Shuffle.ValidCutInDeck | probability.js:22 | every cut point the formula can produce lies inside the deck |
| Shuffle.Shuffle | probability.js:1-24 | a shuffle is a permutation of the deck |
| Shuffle.ShuffleSingleSplit | probability.js:3-23 | with at most one split the shuffle is just the cut |
| Shuffle.ShuffleDeck | probability.js:1-24 | the method computes `Shuffle` and returns a permutation of its input |
| Shuffle.InitialDeck | probability.js:27 | the deck holds 99 cards |
| Shuffle.InitialDeckHolds | probability.js:27 | a card is in the deck exactly when it is between 1 and 99 |
| Shuffle.ShuffleRepeated | probability.js:34-36 | repeated shuffles keep the deck's cards |
| Shuffle.TopCards | probability.js:39 | `slice(0, topX)` is a prefix; it has `topX` cards, clipped to the deck, and drops cards from the end when `topX` is negative |
| Shuffle.TrialDeck | probability.js:31-36 | a trial's deck is a permutation of the 99 cards |
| Shuffle.Successes | probability.js:28-42 | the success count never exceeds the number of trials |
| Shuffle.RunTrial | probability.js:31-41 | the method finds the card exactly when the trial succeeds |
| Shuffle.CountTrial | probability.js:39-41 | the count goes up by one exactly when the trial succeeds |
| Shuffle.CountSuccesses | probability.js:26-42 | the trial loop counts `Successes` |
| Shuffle.TopBound | probability.js:39 | the number of cards looked at, between 0 and 99 |
| Shuffle.UnshuffledTrial | probability.js:27-39 | without shuffles a trial succeeds exactly when the target is among the first cards looked at |
| Shuffle.UnshuffledSuccesses | probability.js:26-42 | without shuffles every trial succeeds or none does |
| Shuffle.AbsentTargetMissesTrial | probability.js:27-39 | a card outside 1-99 is never found in a trial |
| Shuffle.AbsentTargetNeverFound | probability.js:26-42 | a card outside 1-99 has no successes |
| Shuffle.SuccessesMonotoneInTopX | probability.js:39 | for a non-negative `topX`, looking at more cards never loses a success |
| Shuffle.NegativeTopXKeepsMore | probability.js:39 | `topX = -1` looks at 98 cards while `topX = 0` looks at none |
| Export.SanitizeFileName | SaveAssets.jsx:65-67 | same length; each of `\ / : * ? " < > \|` becomes `_` and every other character is kept |
| Export.SanitizedIsClean | SaveAssets.jsx:65-67 | a sanitised name holds none of those characters, and sanitising it again changes nothing |
| Export.CardSanitizerIsStricter | SaveAssets.jsx:66 | the card generator's sanitiser replaces a strict superset: `'` and `%` survive here and not there |
| Export.LastDot | SaveAssets.jsx:13 | the index of the last dot, or none when the name has no dot |
| Export.StripAppended | SaveAssets.jsx:13 | stripping a name with a non-empty, dot-free extension appended gives the name back |
| Export.StripWithoutExtension | SaveAssets.jsx:13 | a name without a dot, or ending in a dot, is kept |
| Export.StripExamples | SaveAssets.jsx:13 | `a.b.c` → `a.b`, `.psd` → empty, `a.` kept |
| Export.Step | SaveAssets.jsx:21-39 | one iteration keeps the number of layers |
| Export.Run | SaveAssets.jsx:20-40 | the loop keeps every layer's name and background flag |
| Export.ExportLogStep | SaveAssets.jsx:20-40 | an iteration saves the same file whether it reads the layers as they were at the start or as earlier iterations left them |
| Export.Exported | SaveAssets.jsx:24 | every exported index is below `n` and names a layer that is not the background |
| Export.ExportedLayers | SaveAssets.jsx:20-24 | every non-background layer is exported, hidden or not, in layer order |
| Export.ExportLogLayers | SaveAssets.jsx:20-40 | one file per exported layer, in order, named after the sanitised layer name with `.png`, showing that layer alone |
| Export.RunClosedForm | SaveAssets.jsx:20-40 | at the end, with no exported layer nothing changed; with one, it keeps its visibility and all others are hidden; with more, all are hidden |
| Export.Document.constructor | SaveAssets.jsx:2-8 | the document with its name, its layers and nothing saved |
| Export.Document.ToggleVisibility | SaveAssets.jsx:46-50 | every layer gets the given visibility and nothing else about it changes |
| Export.Document.SavePng | SaveAssets.jsx:53-62 | one file is logged, named after the sanitised layer name, with the visibility of that moment |
| Export.Document.ExportLayer | SaveAssets.jsx:21-39 | a background layer changes nothing; any other is saved while only it is visible, then keeps its own visibility while every other layer stays hidden |
| Export.Document.ExportAll | SaveAssets.jsx:9-40 | the folder is the name without its extension; the log is `ExportLog` and the layers end as `Run` of the starting layers |

## Left out

- `Math.random` in the cut (`probability.js:22`): the cut point is a parameter. `ValidCut` bounds it to the values that `Math.floor(Math.random() * (n / 2)) + n / 4` can take once `slice` has truncated the fractional `n / 4`.
- The estimate `successes / iterations`, `toFixed` and `console.log` (`probability.js:45-55`): floating point and output. The model stops at the success count.
- The cut oracle is finite: one row per trial, each row holding `shuffleCount` cut points. `iterations` defaults to 100000 in the source; here it is a parameter.
- File and folder I/O: `File.open`/`read`, `Folder.create`, `exists` and `saveAs` of both scripts. Existing asset files are the set `assets`, and saved files are a log in `Export`.
- The card generator's `main` loop over rows, with its `savePng` and `savePsd` (`CreateCards.jsx:2-84`, `429-461`): these are host calls. The row updates it performs are modelled one by one, and so is the loop over events. Every row updates the same open document, so an update that is skipped leaves the previous row's value in the next card: for example `replaceContents` with a missing file (`CreateCards.jsx:259-262`) keeps the previous image. The model of one update states this (the state is kept), but the sequence of rows is not modelled.
- `alert` and the messages of every `catch` block. A failed lookup ends the update; the message is not modelled.
- The host's object model: `LayerKind` becomes `Kind`, and `ActionDescriptor`/`executeAction` (placing a file into a smart object) is the `placed` field.
- Unicode: `\s` is ASCII whitespace, `toUpperCase` and `i` matching are ASCII only, lengths count characters rather than UTF-16 code units, and `parseInt` keeps unbounded precision.
- Layout.Document.UpdateTextLayer: a value that is `undefined` is written as the word `undefined`; this is an assumption about the host's conversion of `contents`. Other non-string values do not arise, because CSV fields are strings.
- Path building around `sanitizeFileName` (the document path and the `assets` directory) is reduced to the pair of a sub-directory and a file name.
- `sanitizeFileName(undefined)` throws in the source. The callers inside the row updates guard with a text check first, so there every value is defined. The unguarded callers sit in the left-out `main`: `sanitizeFileName` of `PLAYERFLAG`, `PLAYERTAG` and `MAIN1` (`CreateCards.jsx:50`, `53`, `68`) and `savePng`/`savePsd` of `PLAYERRANK` (`CreateCards.jsx:79-80`). A file without one of these columns throws outside any `try` and ends the script; the model does not capture this.
- The layer exporter's `alert` when no document is open (`SaveAssets.jsx:3-6`) and the `app.activeDocument` lookup: the document is given.

## Findings

| source | as written | input that shows it | evidently intended | confidence | as-written member | corrected member |
|---|---|---|---|---|---|---|
| CreateCards.jsx:194-197 | the row loop runs to `ROWSTOP` = 102 and reads `lines[i]` without checking the file's length, so `lines[i].replace` fails on `undefined` for every file with 2 to 101 lines | `NAME\nBOB` (a header and one row) | stop at the last line when the file has fewer than 102 lines | not executed | Csv.OneRowFileFails | Csv.BoundedReaderIsTotal |
