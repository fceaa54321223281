# IdolScheme chart loader, note record and conductor arithmetic, in Dafny

IdolScheme is a rhythm game. This project models three parts of it:

- **The chart loader** (`BeatMapHandler`, src/BeatMapHandler.cpp). `setNoteParameters` reads a chart line by line.
  It skips blank and comment lines and removes spaces. It splits each line on the delimiter and classifies every
  delimiter-terminated token by the note, name and bpm keywords. It hands every token to the notes of the current
  line, converting a note once it holds more than seven arguments. At the end of a line it applies the name flag
  (camelCase name, spaced) and the bpm flag (new default tempo). `beatMapMenu` picks a loaded beatmap by its 1-based number.
- **The note record** (`NoteInfo`, include/NoteInfo.h). This covers the two enumerations, the constructors, `convert`
  (raw string arguments to typed fields, with bounds-checked reads) and the copy assignment.
- **The conductor's beat arithmetic** (`Conductor`, include/Conductor.h). This covers `calcTotalBeats` and the
  three-argument constructor.

Layout:

- `wrappers.dfy`: `Option`.
- `chart_text.dfy` (module `ChartText`): the text operations on a line. These are the prefix test, `find`, splitting
  into tokens, space removal and the name transformation, each as a specification function with its lemmas.
- `notes.dfy` (module `Notes`): the note record. `Converted` specifies `convert`. The class `NoteInfo` holds the
  fields and implements `convert` and `operator=` on them in place.
- `beatmap_handler.dfy` (module `BeatMapHandler`): the loader. `RunLines` folds `LineStep` over the lines and is the
  specification. `SetNoteParameters` is the imperative loader with the source's loops. Its helpers are `StripSpaces`,
  `ScanLine`, `ProcessToken`, `PushElement` and `InsertNameSpaces`. It is proved to compute `Parse`. The class
  `BeatMapHandler` loads the charts and selects one.
- `chart_properties.dfy` (module `ChartProperties`): what the loader guarantees for every chart, proved over `RunLines`.
- `conductor.dfy` (module `Conductor`): the class `Conductor`.

The chart file is given as its sequence of lines. The keyword constants (`CMTPREFIX`, `DELIMITER`, `NOTEKEY`,
`NAMEKEY`, `BPMKEY`) come from a header that is not part of this model. They form a `Keys` value, each non-empty.
The openFrameworks conversions `ofToInt` and `ofToFloat` are the two function fields of a `Numerics` value. Both are
passed in through a `ParseContext`.

### Where the chart format's written description and the code differ (the model follows the code)

- The blank and comment tests read the raw line, before spaces are removed. A line `"  #x"` is therefore tokenised
  when the comment prefix is `"#"`.
- The note keyword token is the note's own first argument, because the note is pushed before the token is handed on.
  `convert` therefore reads the divisor from argument 1 and the other fields from arguments 2 to 7. A note needs eight
  tokens, all on its own line.
- Every delimiter-terminated token is handed to the line's notes, keyword tokens included.
- A note that never reaches eight arguments is not dropped. It stays in the beatmap unconverted, with its arguments.
- Only delimiter-terminated tokens are classified. A keyword in the text after the last delimiter declares nothing.
- The name and bpm flags are reset at every line. When one line sets both, the bpm reads the text after the name
  transformation has inserted its spaces.
- The loader calls `convert()` without the running position. The model takes it as the `lastNum` of the context and
  does not state a running sum over the notes.
- The final `return beatMaps.at(0)` of `beatMapMenu` cannot be reached after the range check, and the model proves this.

## Model

| member | source | states |
|---|---|---|
| ChartText.Find | src/BeatMapHandler.cpp:106 | a position `find` answers is an occurrence of the delimiter |
| ChartText.FindIsFirst | src/BeatMapHandler.cpp:106 | `find` answers the first occurrence, and npos only when the delimiter does not occur |
| ChartText.FindFirst | src/BeatMapHandler.cpp:106 | an occurrence with none before it is what `find` answers |
| ChartText.Tokens | src/BeatMapHandler.cpp:106-123 | every line yields at least one token (the text after the last delimiter) |
| ChartText.TokensHaveNoDelimiter | src/BeatMapHandler.cpp:106-123 | no token handed to `pb_Element` contains the delimiter |
| ChartText.JoinTokens | src/BeatMapHandler.cpp:106-123 | the tokens joined with the delimiter give back the stripped line |
| ChartText.TokensJoin | src/BeatMapHandler.cpp:106-123 | conversely, tokenising the join of separable tokens gives back those tokens |
| ChartText.TokensStep | src/BeatMapHandler.cpp:106-118 | one loop turn: the text before the first delimiter is the next token and the rest is tokenised alone |
| ChartText.RemoveSpaces | src/BeatMapHandler.cpp:100-102 | the stripped line holds no space and is no longer than the line |
| ChartText.RemoveSpacesAppend | src/BeatMapHandler.cpp:100-102 | removing spaces works piece by piece, so the other characters keep their order |
| ChartText.RemoveSpacesOfSpaceless | src/BeatMapHandler.cpp:100-102 | a line without spaces is left unchanged |
| ChartText.SpacedLength | src/BeatMapHandler.cpp:127-136 | the name grows by exactly one character per upper-case character past index 0 |
| ChartText.SpacedChangesOnlySpaces | src/BeatMapHandler.cpp:127-136 | only spaces are inserted: with spaces removed, the name is the token |
| ChartText.SpacedPlacement | src/BeatMapHandler.cpp:127-136 | the first character stays first; each upper-case character past index 0 is preceded by a space; each space precedes an upper-case character and is not first |
| ChartText.SpacedPrefixStep | src/BeatMapHandler.cpp:129-135 | transforming one more character appends exactly that character's piece |
| Notes.NoteTypeOrdinal | include/NoteInfo.h:19-22 | a note type's ordinal is 0 or 1 |
| Notes.NoteTypeOrdinals | include/NoteInfo.h:19-22 | `BUTTON` is 0, `AXIS` is 1, and no other integer names a note type |
| Notes.NoteButtonOrdinal | include/NoteInfo.h:34-50 | a button's ordinal is its position in the declaration order |
| Notes.NoteButtonOrdinals | include/NoteInfo.h:34-50 | `BUTTON_A` is 0 through `BUTTON_EMPTY` at 14, each ordinal naming one button |
| Notes.Reciprocal | include/NoteInfo.h:93 | for a non-zero divisor, `frac` times the divisor is 1 |
| Notes.ConvertNeedsEightArgs | include/NoteInfo.h:92-100 | `convert` completes exactly when there are at least eight arguments, and otherwise reports the first missing index |
| Notes.ConvertFieldMapping | include/NoteInfo.h:93-103 | argument 1 is the divisor of `frac`; `noteNum` is `frac + lastNum`; arguments 2 to 7 give offset, type, button, xS, yS, angle; the arguments are released |
| Notes.ConvertKeeps | include/NoteInfo.h:92-104 | `convert` never changes lineNum, bpm, rest, restSize or targetBeat, and keeps the arguments when it throws |
| Notes.NewNote | include/NoteInfo.h:124 | a new record has the given line number, no arguments, `frac` 1, not a rest, rest size 1 |
| Notes.NoteInfo.Empty | include/NoteInfo.h:123 | `NoteInfo()` sets exactly the defaulted fields: frac 1, not a rest, rest size 1, no arguments |
| Notes.NoteInfo.constructor | include/NoteInfo.h:124 | `NoteInfo(lineNumber)` stores the line number on top of the defaults |
| Notes.NoteInfo.Convert | include/NoteInfo.h:92-104 | succeeds exactly with at least eight arguments; every field ends as `Converted` gives, including the partial assignment when `at` throws |
| Notes.NoteInfo.Assign | include/NoteInfo.h:106-121 | copies the twelve listed fields from the source record, and targetBeat and args keep their old values |
| BeatMapHandler.PushElement | src/BeatMapHandler.cpp:73-85 | the lambda's loop yields `Routed`: the token is fed to each note of the current line and to no other |
| BeatMapHandler.StripSpaces | src/BeatMapHandler.cpp:100-102 | the strip loop yields the line with every space removed |
| BeatMapHandler.ProcessToken | src/BeatMapHandler.cpp:107-117 | one tokenizer turn: keyword tests in order (a note keyword appends a new note first), then the token is pushed |
| BeatMapHandler.ScanLine | src/BeatMapHandler.cpp:106-119 | the tokenizer loop processes exactly the delimiter-terminated tokens, in order, and leaves the last token |
| BeatMapHandler.NameLoopStep | src/BeatMapHandler.cpp:129-135 | one turn of the name loop extends the transformed prefix by one source character |
| BeatMapHandler.InsertNameSpaces | src/BeatMapHandler.cpp:127-136 | the name loop yields `Spaced` of the last token |
| BeatMapHandler.SetNoteParameters | src/BeatMapHandler.cpp:57-153 | the loader's result is `Parse` of the chart's lines |
| BeatMapHandler.BeatMapHandler.constructor | src/BeatMapHandler.cpp:7-18 | one beatmap per chart, in chart order, each the one its chart parses to |
| BeatMapHandler.BeatMapHandler.BeatMapMenu | src/BeatMapHandler.cpp:171-179 | a number is accepted exactly when `1 <= i <= size`, and then the `i`-th beatmap (from 1) is chosen |
| ChartProperties.LineTokens | src/BeatMapHandler.cpp:106-123 | a tokenised line has at least one token |
| ChartProperties.FeedShape | src/BeatMapHandler.cpp:76-81 | feeding a note appends the token; the eighth argument stamps the current tempo and converts the note, releasing its arguments; the line number never changes |
| ChartProperties.FeedKeepsTempo | src/BeatMapHandler.cpp:78-80 | a fed note carries either no tempo yet or the tempo of its line |
| ChartProperties.RoutedShape | src/BeatMapHandler.cpp:73-85 | pushing a token keeps the note count and line numbers, feeds the notes of the current line and leaves every other note unchanged |
| ChartProperties.RoutedKeepsTempo | src/BeatMapHandler.cpp:73-85 | pushing a token keeps every note of the line consistent with the line's tempo |
| ChartProperties.DeclaredShape | src/BeatMapHandler.cpp:106-119 | a line's tokens append one note per note keyword, numbered with the line, and leave notes of other lines unchanged |
| ChartProperties.DeclaredFlags | src/BeatMapHandler.cpp:106-119 | the name (bpm) flag is set exactly when some delimiter-terminated token begins with the name (bpm) keyword |
| ChartProperties.LineFlags | src/BeatMapHandler.cpp:106-115 | on a tokenised line, the flags raised are the line's name and bpm directives |
| ChartProperties.ContentLineNotes | src/BeatMapHandler.cpp:96-123 | a tokenised line keeps earlier notes as they were and appends its own notes, each numbered with the line and consistent with its tempo |
| ChartProperties.LineStepExtends | src/BeatMapHandler.cpp:96-148 | every line advances the counter by one and only appends notes; a skipped line changes nothing else |
| ChartProperties.RunLinesShape | src/BeatMapHandler.cpp:57-153 | after a chart the counter is one past the last line, the notes are ordered by line, and there is one per note keyword |
| ChartProperties.LineCounter | src/BeatMapHandler.cpp:58-148 | the counter starts at 1 and advances once per line, skipped lines included |
| ChartProperties.FinishedLinesAreFinal | src/BeatMapHandler.cpp:89-149 | the notes of the lines read so far are a prefix of the final notes: later lines never change or remove them |
| ChartProperties.NoteFitsLater | src/BeatMapHandler.cpp:89-149 | reading further lines does not change the line and tempo a note belongs to |
| ChartProperties.NotesComeFromTheirLines | src/BeatMapHandler.cpp:57-153 | every note belongs to a tokenised line of the chart and carries no tempo or the default tempo in force when its line was read |
| ChartProperties.LineStepName | src/BeatMapHandler.cpp:127-138 | a line changes the name exactly when it has a name directive, to its last token spaced |
| ChartProperties.LineStepTempo | src/BeatMapHandler.cpp:141-144 | a line changes the default tempo exactly when it has a bpm directive, to the integer read from its last token |
| ChartProperties.NameNeedsDirective | src/BeatMapHandler.cpp:127-138 | with no name directive in the chart the name stays empty |
| ChartProperties.LastNameDirectiveWins | src/BeatMapHandler.cpp:127-138 | the name comes from the chart's last name directive |
| Conductor.Conductor.CalcTotalBeats | include/Conductor.h:47-49 | beats times 60 equals seconds times bpm; it reads no field |
| Conductor.Conductor.constructor | include/Conductor.h:53-57 | stores bpm, length and offset as given |
| Conductor.Conductor.WholeMinutes | include/Conductor.h:47-49 | a song of whole minutes has minutes × bpm beats (so 60 s gives bpm beats and 0 s gives none) |
| Conductor.Conductor.TotalBeatsAdd | include/Conductor.h:47-49 | the beat count is additive in the length |
| Conductor.Conductor.TotalBeatsMonotone | include/Conductor.h:47-49 | at a non-negative tempo a longer song has no fewer beats |

## Left out

- Reading the chart file (`ifstream`, `getline`, `eof`): the chart is given as its sequence of lines.
- `getBeatMapDirectories`: this is filesystem enumeration, so the constructor takes the charts' lines directly.
- The constructor's debug printing and `beatMapMenu`'s console output, screen clearing and `cin`: these are I/O only.
- BeatMapHandler.BeatMapHandler.BeatMapMenu: models one selection for a given number; a rejected number gives None instead of the `goto` retry, since the retry only re-reads the console.
- `ofToInt`, `ofToFloat`, `ofToString`: these belong to a foreign library, so the first two are uninterpreted function parameters and the third is used only for printing.
- include/OptionsMenu.h: GUI code whose methods have no bodies here.
- `Conductor::startTimer`, `refreshMembers`, `calcCurrentBeat`, `calcBeatsInMs`: they are declared without bodies and are driven by the wall clock.
- `ChronoTimePoint` and `ChronoMs`: the header that defines them is not part of this model, so they are integers of milliseconds.
- Conductor.Conductor.constructor: does not state that the timing fields stay uninitialised, because a Dafny constructor's unassigned fields are simply unconstrained.
- Conductor.Conductor.CalcTotalBeats: works over reals, so it does not model `double` rounding or the narrowing of the result to `float`.
- Notes.NoteInfo.Convert: reals replace `float`, so rounding is not modelled. The `NoteType`/`NoteButton` casts keep the integer (an out-of-range value is not an enumerator), and `NoteTypeOf`/`NoteButtonOf` name it when it is in range.
- Notes.Reciprocal: states nothing for a zero divisor, which the source divides by unguarded (an infinity); the model returns 0 there.
- Notes.NewNote: the pure record uses 0 for the fields the C++ leaves uninitialised. The class constructors leave them unconstrained.
- BeatMapHandler.SetNoteParameters: the lowercase `noteInfo` type the loader uses is in a header that is not part of this model. Its notes are modelled with `NoteInfo`'s fields and `convert(lastNum)`, and `lastNum` is a parameter of the context.
- No running sum of note positions is modelled, because the loader does not pass one to `convert`.
- `isupper` is the C locale's (`'A'` to `'Z'`); characters are Dafny `char`, with no encoding.
