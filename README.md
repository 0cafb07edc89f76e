# openform core in Dafny

openform turns text form descriptions (Qt Designer `.ui` XML) into
windows. The forms are driven by shell commands. This project models
four parts of the engine and proves properties of the model:

- **The command template parser** (`command_parser.dfy`, module
  `CommandParser`). It reads a template such as `echo {edit.text}`.
  - Every `{widget.property[.element]}` is replaced by the text of that
    property of the current form. A command that cannot be resolved is
    put back between its braces.
  - `\{` is a literal brace. A brace that is never closed is kept as
    written.
  - Finally the markup escapes `[[` and `]]` become `<` and `>`.
  - The scanner `Parse` is proved equal to a one-pass reference reading,
    `Reference`. The resolver is proved against `Resolved`.
- **The preprocessor** (`preprocessor.dfy`, module `Preprocess`).
  - Every line of a form description is trimmed and cut at its first `#`.
  - `#include "file"` is replaced by the preprocessed content of the
    file.
  - A process-wide list records where each file was included from, so
    that a file including itself stops.
- **The trigger** (`trigger.dfy`, module `Triggers`). It binds a signal
  of a form object to a command template and an action.
  - `execute` runs the resolved command. Its standard output becomes the
    next form.
  - `return` hands the resolved command back.
- **The trigger registry** (`trigger_registry.dfy`, module `Registry`).
  It is the process-wide map from object name to signal name to trigger.
  - Creating the triggers of a form normalises each signal name.
  - It skips events it cannot bind and skips an event whose key was seen
    earlier in the same pass. The loader's key is the object name and
    signal name concatenated; trigger creation takes the key scheme as a
    parameter, so both that key and the pair of names it stands for are
    modelled (see Findings).
  - It replaces what was registered for that object and signal before.

`strings.dfy` (module `Strings`) holds the string operations these rely
on. They are Qt's whitespace test, `trimmed`, `simplified`, `indexOf`, a
split on a separator, joining and decimal formatting.

The form seen by the parser is a map from widget name to the ordered
property list of that widget's form description. The file system of the
preprocessor is a map from file name to content, with `None` for a file
that exists but cannot be opened. Process spawning, signal emission and
diagnostics of a trigger are recorded as an event log.

## Model

| member | source | states |
|---|---|---|
| CommandParser.Parse | src/inputcommandparser.cpp:44-111 | The character loop with its four variables computes `ParsedInput`: with no form or no input the input itself, otherwise the markup escapes applied to the one-pass reference reading of the template. |
| CommandParser.ParsedInput | src/inputcommandparser.cpp:44-111 | Empty input or a missing form gives back the input unchanged. Otherwise the scanner's result equals `Brackets(Reference(...))`, the reference reading proved to agree with the scanner at every step. |
| CommandParser.ScanFollowsReference | src/inputcommandparser.cpp:57-103 | From any position where the scanner is idle, what it still produces is the reference reading of the rest of the input. This covers escapes, closed commands, unterminated commands and plain text. |
| CommandParser.BadResult | src/inputcommandparser.cpp:116-119 | The sentinel is the command between an opening and a closing brace, and nothing else. |
| CommandParser.ParseCommand | src/inputcommandparser.cpp:124-194 | Without a form the command comes back as the sentinel. Otherwise the result is `Resolved` of the command. |
| CommandParser.SplitCommand | src/inputcommandparser.cpp:136-152 | The token loop yields `Split` on `.`. Every separator closes a token, even an empty one, and a final empty token is dropped. |
| CommandParser.CommandNames | src/inputcommandparser.cpp:154-177 | The widget name is the text before the first `.` and the property name the text up to the next one. Either one empty, an unknown widget or a widget without a form description gives the sentinel. Otherwise the property list of that widget is searched. |
| CommandParser.NoSeparatorIsBad | src/inputcommandparser.cpp:154-167 | A command without `.` names no property and resolves to the sentinel. |
| CommandParser.ParseProperty | src/inputcommandparser.cpp:199-386 | The property loop returns the text of the first property with the requested name, chosen by its kind, and the sentinel when there is none. |
| CommandParser.FindProperty | src/inputcommandparser.cpp:205-210 | The found position holds the requested name and no earlier property does; `None` means no property has that name. |
| CommandParser.FirstMatchWins | src/inputcommandparser.cpp:205-376 | Properties after the first one with the requested name are never consulted. |
| CommandParser.Dispatch | src/inputcommandparser.cpp:211-378 | Palette, brush and unknown kinds give the sentinel. A composite kind gives the sentinel without a third token or with an element name it lacks, and otherwise that element's text. |
| CommandParser.Element | src/inputcommandparser.cpp:391-1011 | A composite value has an element exactly when the lower-cased name is one of its kind's element names. |
| CommandParser.ColorElement | src/inputcommandparser.cpp:391-427 | A colour has exactly the elements red, green and blue. |
| CommandParser.FontElement | src/inputcommandparser.cpp:432-503 | A font has exactly its ten named elements. |
| CommandParser.IconSetElement | src/inputcommandparser.cpp:508-569 | An icon set has exactly its eight named pixmap elements. |
| CommandParser.PointElement | src/inputcommandparser.cpp:574-605 | A point has exactly the elements x and y. |
| CommandParser.RectElement | src/inputcommandparser.cpp:610-651 | A rectangle has exactly the elements x, y, width and height. |
| CommandParser.SizePolicyElement | src/inputcommandparser.cpp:656-697 | A size policy has exactly its four named elements. |
| CommandParser.SizeElement | src/inputcommandparser.cpp:702-733 | A size has exactly the elements width and height. |
| CommandParser.ParseStringList | src/inputcommandparser.cpp:738-755 | The loop joins the items with commas, with no comma after the last one. |
| CommandParser.DateElement | src/inputcommandparser.cpp:760-796 | A date has exactly the elements year, month and day. |
| CommandParser.TimeElement | src/inputcommandparser.cpp:801-837 | A time has exactly the elements hour, minute and second. |
| CommandParser.DateTimeElement | src/inputcommandparser.cpp:842-893 | A date-time has exactly the six date and time elements. |
| CommandParser.PointFElement | src/inputcommandparser.cpp:898-929 | A floating point has exactly the elements x and y. |
| CommandParser.RectFElement | src/inputcommandparser.cpp:934-975 | A floating rectangle has exactly the elements x, y, width and height. |
| CommandParser.SizeFElement | src/inputcommandparser.cpp:980-1011 | A floating size has exactly the elements width and height. |
| CommandParser.ElementCaseInsensitive | src/inputcommandparser.cpp:405 | The element token is compared without regard to letter case, and tokens after it do not matter. |
| CommandParser.ReferencePlain | src/inputcommandparser.cpp:90-96 | Text without an opening brace is copied unchanged. |
| CommandParser.ReferencePrefix | src/inputcommandparser.cpp:90-96 | Plain text before the rest of a template is copied in front of the reading of the rest. |
| CommandParser.NoCommandOnlyBrackets | src/inputcommandparser.cpp:44-111 | A template without an opening brace only gets the markup escapes with a form, and comes back unchanged without one. |
| CommandParser.EscapedBraceIsLiteral | src/inputcommandparser.cpp:57-74 | `\{x}` reads as `{x}` whatever the form holds. |
| CommandParser.CommandRegion | src/inputcommandparser.cpp:76-88 | A closed command contributes exactly its resolution, without its braces. An opening brace inside it is part of the command. |
| CommandParser.UnterminatedCommandKept | src/inputcommandparser.cpp:99-103 | A command never closed is kept as written, brace included. |
| CommandParser.BracketsLeaveNoPairs | src/inputcommandparser.cpp:107-108 | After the escapes no `[[` or `]]` remains, and applying them again changes nothing. |
| CommandParser.BracketsOfPairFree | src/inputcommandparser.cpp:107-108 | Text without `[[` or `]]` is left unchanged by the escapes. |
| CommandParser.MoreTokens | src/inputcommandparser.cpp:136-156 | In `w.v.rest` the first two tokens are `w` and `v`. |
| CommandParser.SingleCommand | src/inputcommandparser.cpp:44-111 | A template that is one command reads as that command's resolution when it holds no markup escape. |
| CommandParser.TextExample | src/inputcommandparser.cpp:44-111 | With a button whose text is OK, `{btn.text}` reads as OK. |
| CommandParser.GreenExample | src/inputcommandparser.cpp:391-427 | With a button coloured (10, 20, 30), `{btn.color.green}` reads as 20. |
| CommandParser.AlphaExample | src/inputcommandparser.cpp:420-424 | `{btn.color.alpha}` names an element a colour lacks and comes back as written. |
| Strings.SplitJoin | src/inputcommandparser.cpp:136-152 | Splitting a joined list gives the list back when no piece holds the separator and the last is not empty. |
| Strings.JoinSplit | src/inputcommandparser.cpp:136-152 | Rejoining the tokens of a command gives back the command, less a final separator. No token holds a separator. |
| Strings.ReplacePairRemoves | src/inputcommandparser.cpp:107-108 | After replacing every `cc` with another character, no `cc` is left. |
| Strings.ReplacePairKeeps | src/inputcommandparser.cpp:107-108 | Replacing `[[` creates no `]]`, so the second replacement finishes the job. |
| Strings.TrimKeepsNonSpaces | src/preprocessor.cpp:65 | Trimming removes only whitespace, and is empty exactly for a blank line. |
| Strings.SimplifiedKeepsNonSpaces | src/uiloader.cpp:138 | Simplifying removes and merges only whitespace, and is empty exactly for a blank signal. |
| Strings.IndexOf | src/preprocessor.cpp:67-69 | The position found holds the character and no earlier one does. `None` means it does not occur. |
| Strings.NatTextInjective | src/preprocessor.cpp:125 | Distinct numbers have distinct decimal texts. |
| Preprocess.PreProcessor.Process | src/preprocessor.cpp:48-95 | The line loop produces `ProcessedText` and leaves the include list as it says. Each line is processed in turn and followed by a newline, and empty data gives nothing. |
| Preprocess.PreProcessor.ProcessLine | src/preprocessor.cpp:65-88 | The character loop produces `ProcessedLine`: the trimmed line up to its first `#`, plus the include expansion when `#include` starts there. |
| Preprocess.PreProcessor.ProcessInclude | src/preprocessor.cpp:101-138 | The output and the new include list are those of `Included`. |
| Preprocess.PreProcessor.FindIncludeFileName | src/preprocessor.cpp:144-208 | The scan returns `IncludeFileName` of the directive: the text between the first two quotes after the keyword, or nothing when a quote is missing. |
| Preprocess.PreProcessor.ProcessFile | src/preprocessor.cpp:22-33 | Processing an opened file records its name and content and yields `ProcessedText` for them. |
| Preprocess.PreProcessor.ProcessText | src/preprocessor.cpp:38-43 | Processing a text keeps the file name and yields `ProcessedText` for the text. |
| Preprocess.PreProcessor.ClearIncludeList | src/preprocessor.cpp:213-216 | The shared include list is empty afterwards. |
| Preprocess.ReloadText | src/windowhandler.cpp:80-90 | Setting a form from text uses a fresh preprocessor, which has no file name, so includes are attributed to the text itself; the include list is emptied first, and the result is the text processed from an empty list. |
| Preprocess.IncludedKeeps | src/preprocessor.cpp:101-138 | An include never removes an entry from the list of included files, including entries the nested processing touches, and afterwards a readable file has an entry, whether it was expanded or found already included. |
| Preprocess.TextKeeps | src/preprocessor.cpp:48-95 | Processing a text never removes an entry from the list of included files; only clearing the list does. |
| Preprocess.DifferentLineKeys | src/preprocessor.cpp:125 | Include places on different lines of the same origin differ. |
| Preprocess.IncludedFromAnotherLine | src/preprocessor.cpp:125-131 | A file already included from one line is expanded again when included from another line. |
| Preprocess.QuotedNameFound | src/preprocessor.cpp:152-176 | In `#include pre"name"post` the name is found whatever stray text surrounds the quotes. |
| Preprocess.MissingCloseQuote | src/preprocessor.cpp:179-183 | A directive whose closing quote is missing names no file. |
| Preprocess.NoQuoteNoName | src/preprocessor.cpp:152-176 | A directive without quotes names no file. |
| Preprocess.CommentDropped | src/preprocessor.cpp:67-85 | A line is cut at its first `#` when no include starts there, and the list is untouched. |
| Preprocess.IncludeExpanded | src/preprocessor.cpp:72-82 | An include directive after a line's text is replaced by its expansion. |
| Preprocess.PlainText | src/preprocessor.cpp:48-95 | A text without `#` comes out as its lines trimmed, each followed by a newline, and the include list is untouched. |
| Preprocess.OutputEndsLine | src/preprocessor.cpp:51-54 | The output is empty exactly for empty data, and otherwise ends with a newline. |
| Preprocess.SelfInclusionText | src/preprocessor.cpp:125-137 | A file consisting of an include of itself is processed as its own include from its line 1, followed by a newline. |
| Preprocess.SelfInclusionStops | src/preprocessor.cpp:125-137 | A file that includes itself, included from elsewhere, expands twice and is then stopped by the include list however deep nesting may go. The result is four newlines, and the list records the file's own line 1. |
| Triggers.Trigger.constructor | src/trigger.cpp:14-37 | Without an object the action stays empty and nothing is reported. Otherwise the action is set as `SetAction` does. |
| Triggers.Trigger.SetAction | src/trigger.cpp:39-47 | The action becomes `CoercedAction` of the given one. An action that is neither empty nor supported is reported, and nothing else changes. |
| Triggers.CoercedAction | src/trigger.cpp:41-46 | The coerced action is always execute or return, and is return exactly when return was asked for. |
| Triggers.ActionCoercion | src/trigger.cpp:41-46 | Only supported actions are kept as given. Only the empty and the supported actions are accepted silently. |
| Triggers.Trigger.Handle | src/trigger.cpp:49-84 | A trigger handles its signal exactly when its command is non-empty and it has a window. It then stores the parsed command. Execute clears the output buffer and asks for the process; return hands the parsed command back. An unhandled signal changes nothing. |
| Triggers.CText | src/trigger.cpp:94 | The text a chunk adds is its longest prefix without NUL, cut at the first NUL. |
| Triggers.Trigger.ReadFromStdout | src/trigger.cpp:89-95 | The buffer grows by the chunk's text and stays the concatenation of every chunk read since it was cleared. |
| Triggers.Trigger.Finished | src/trigger.cpp:100-121 | A finished process reports a crash, a non-zero exit code or missing output, in that order, and otherwise changes the form to its output. |
| Triggers.FinishChangesUi | src/trigger.cpp:100-121 | The form changes exactly when the process exited normally with code 0 and wrote something, and the new form is that output. |
| Triggers.Trigger.Error | src/trigger.cpp:126-164 | A process error is reported with its reason. |
| Triggers.ErrorMessagesDistinct | src/trigger.cpp:129-161 | Each named error has a reason of its own; the unknown error and any other code share one. |
| Triggers.ExecuteRun | src/trigger.cpp:49-121 | An executing trigger asks for the resolved command to be run. After two chunks of output and a normal exit, the form becomes their text. |
| Triggers.ReturnRun | src/trigger.cpp:49-84 | A returning trigger hands back the resolved command and runs nothing. A trigger without a window does nothing. |
| Registry.TriggerRegistry.DeleteAll | src/uiloader.cpp:31-41 | Every trigger is deleted. |
| Registry.TriggerRegistry.DeleteObject | src/uiloader.cpp:46-57 | The triggers of one object are deleted, and nothing else. |
| Registry.DeleteObjectOnly | src/uiloader.cpp:46-57 | Deleting an object removes exactly its entry and is a no-op for an unknown object. |
| Registry.TriggerRegistry.DeleteSignal | src/uiloader.cpp:62-78 | The trigger of one signal of one object is deleted, and nothing else. |
| Registry.DeleteSignalOnly | src/uiloader.cpp:62-78 | Deleting a signal removes exactly that entry. The object keeps its possibly empty map, and an absent object or signal changes nothing. |
| Registry.RegisterOnly | src/uiloader.cpp:172-175 | Registering sets exactly one entry and leaves every other entry alone. |
| Registry.NormalizeSignal | src/uiloader.cpp:144-161 | The loop builds `Normalized` of the signal: the signal without whitespace, with `()` appended unless it ends in it. |
| Registry.NormalizedShape | src/uiloader.cpp:144-161 | A normalised signal name ends in `()` and holds no whitespace. |
| Registry.NormalizedIdempotent | src/uiloader.cpp:144-161 | Normalising twice is normalising once. |
| Registry.NormalizedOfSimplified | src/uiloader.cpp:137-161 | Simplifying a signal first does not change its normalised name, and a signal is skipped as blank exactly when it is all whitespace. |
| Registry.Candidates | src/uiloader.cpp:111-161 | Every event that gets bound has a named, existing object, a command, and a normalised signal name. |
| Registry.TriggerRegistry.CreateTriggers | src/uiloader.cpp:84-180 | The registry becomes `Created` of the description under the given key scheme; the loader's own is `Concatenated`. Nothing happens without a window or a description; otherwise one pass runs over the events that pass every check. |
| Registry.TriggerRegistry.CreateEventTriggers | src/uiloader.cpp:134-178 | The event loop of one object advances the pass exactly as the fold over that object's bindable events does. An event whose key is in the pass's set of seen keys is skipped, as at lines 163-170. |
| Registry.FoldEntry | src/uiloader.cpp:134-178 | For either key scheme, one pass binds a signal of an object to the first candidate with that signal's key, if that candidate is for the same object and signal. When the first candidate is for another pair with the same key, or the key was seen before, the old entry stays. The key is seen afterwards exactly when some candidate has it. |
| Registry.CreatedEntry | src/uiloader.cpp:84-180 | After creating triggers under either key scheme, a signal of an object is bound to the first candidate with its key when that candidate is for the same object and signal, and keeps its old binding otherwise. No object is removed. |
| Registry.PairedCreatedEntry | src/uiloader.cpp:84-180 | With paired keys, each signal of each object is bound to its first candidate in the description, replacing the old binding. Every other entry and every object is kept. |
| Registry.ConcatenatedAsIntended | src/uiloader.cpp:163-170 | When no two candidates for different object and signal pairs concatenate to the same text, concatenated keys bind every entry exactly as paired keys do. |
| Registry.TriggerRegistry.Load | src/uiloader.cpp:326-348 | Only a `ui` root, in any letter case, deletes every trigger. An `update` root with a window keeps them, or fails without a shown form, and anything else fails. |
| Registry.OnlyNewUiClears | src/uiloader.cpp:326-348 | The outcome is a new form exactly for a `ui` root, and an update exactly for an `update` root with a window and a shown form. |
| Registry.ConcatenatedKeysCollide | src/uiloader.cpp:163-170 | With keys made by concatenating object and signal name, object `a` with signal `bc()` hides object `ab` with signal `c()`. With paired keys both are bound. |

## Left out

- Diagnostics printed to standard error are not modelled in the parser, resolver, preprocessor or registry. This includes the "ignored elements" report of `findIncludeFileName`. Only the trigger keeps its diagnostics, as events.
- Building the form description of a widget (`UiLoader::widgetByName`, `createDom`) is abstracted as a map from widget name to property list. Reading XML in `load` is reduced to the name of the root element.
- Floating-point properties (float, double, PointF, RectF, SizeF) carry the text they format to. `QString::number` on doubles is not modelled.
- Lower-casing of element names and root names covers ASCII letters only.
- Reading one character past the end of a template (`input[i + 1]` on the last character) is taken as not being `{`.
- CommandParser: `CommandHandler::parse`, through which the trigger calls the parser, is not part of this model. The trigger calls the parser directly.
- Preprocess.PreProcessor.Process: nested inclusion is bounded by a fuel argument. When the fuel runs out, an include records its place but expands to nothing. `SelfInclusionStops` shows that a self-inclusion stops on its own with two levels of fuel.
- Preprocess.PreProcessor.ProcessFile: opening the file, text-mode reading and the UTF-8 and Latin-1 conversions of `process(QFile*)` and `process(QString)` are not modelled. A file is its name and its content as a string, and a file that cannot be opened is `None`.
- Preprocess.Lines: a lone carriage return is not a line break. `\r\n` line ends are removed by trimming.
- Preprocess.PreProcessor.FindIncludeFileName: the scan returns as soon as the closing quote is read. The source breaks out only when more text follows, but at the end of the line its loop ends anyway, so the name is the same.
- Triggers.Trigger.Handle: starting the process, connecting its signals (connected again on every execution) and the signal connections in the constructor are not modelled. They appear as a `SpawnRequested` event.
- Triggers.Trigger.ReadFromStdout: the bytes of a chunk are taken as characters. Decoding them is not modelled; only the cut at the first NUL is.
- Registry.TriggerRegistry.CreateTriggers: the registry holds each trigger's command and coerced action, not a trigger object. Deleting a trigger object is removing its entry. Which form objects exist is a set of names.

## Findings

| source | as written | input that shows it | evidently intended | confidence | as-written member | corrected member |
|---|---|---|---|---|---|---|
| src/uiloader.cpp:163-170 | The key that detects a repeated event is the object name and signal name concatenated. | Object `a` with signal `bc()`, then object `ab` with signal `c()`: both keys are `abc()`, so the second trigger is dropped as a duplicate. | An event is a duplicate only when an earlier one has the same object and the same signal. | medium, not executed | Registry.ConcatenatedKeysCollide | Registry.PairedCreatedEntry |
