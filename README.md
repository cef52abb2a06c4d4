# story-maker-js: the generation handler and the window's decisions

story-maker-js is an Electron application. It asks a Gemini chat model for a story
part by part, narrates the story with the edge-tts program, and keeps a history
of its runs. This project models, in Dafny, the logic of its two scripts.

- **The main process (main.js:92-212).** The `start-process` handler does the
  following, in order:
  - It checks the stored settings: the API key first, then the edge-tts path.
  - It names the run folder from the project name and an ISO timestamp.
  - It substitutes the title and the language into the chosen template.
  - It runs the multi-turn loop. The loop stops at the first reply holding
    `END` or at part 30.
  - It cleans every part and accumulates the story.
  - It writes the story and the description.
  - It turns the story into narration text and runs edge-tts.
  - It records the run in the history, newest first and cut to twenty entries.
  - It maps every error to `{ success: false, error }`.
- **The window (renderer.js).** The script:
  - checks the form and builds the request;
  - classifies each log line as error, success or info;
  - builds the template drop-down from the keys of the prompt file, or shows a
    toast when the file does not read;
  - lists the history, with a notice when it is empty, and gives each entry a
    button whose inline handler opens that run's folder.

## Modules

| module | file | what it holds |
|---|---|---|
| `Wrappers` | wrappers.dfy | `Option` |
| `JsStrings` | js_strings.dfy | JavaScript's `indexOf`, `includes`, `replace` with a string pattern (including the `$` substitutions), the line terminators and `trim` |
| `PartCleanup` | cleanup.dfy | the removal of `END`, the three regular-expression clean-ups and the narration text |
| `RunSetup` | run_setup.dfy | the model name, the timestamp, the folder name and path, and the first prompt |
| `StoryLoop` | story_loop.dfy | the chat session (a class), the loop as a function and as a method, and the progress lines |
| `History` | history.dfy | the history update and the settings store (a class) |
| `StoryPipeline` | pipeline.dfy | the whole handler: `Handle`, a function of its inputs, and `StartProcess`, the step-by-step method proved equal to it |
| `Renderer` | renderer.dfy | the request, the log severity, the drop-down, the history list and the `Window` class holding the page's state |

The outside world becomes parameters:

- **The chat provider** is a `Responder`. It gives the reply (a text or an error
  message) to the conversation sent so far.
- **The file system and edge-tts** are an `Environment` that says which calls
  fail and with what message.
- **The clock** is a `Clock` of two ISO strings.
- **The settings** are a `Store` object.

The handler's calls on the world come back as a list of `Effect`s, in the
order they are made.

## Model

| member | source | states |
|---|---|---|
| JsStrings.IndexOfFrom | main.js:142 | the result is the first index at or after `from` where the pattern occurs, or none when it occurs nowhere after it |
| JsStrings.IncludesIffOccurs | main.js:142 | `includes` holds exactly when the pattern occurs at some index |
| JsStrings.Expand | main.js:131-133 | the text `replace` inserts for a string pattern; a replacement without `$` is inserted literally |
| JsStrings.ReplaceFirst | main.js:131-133 | without an occurrence the text is returned unchanged; with one, and a replacement without `$`, the length changes by the replacement's length less the pattern's |
| JsStrings.ReplaceFirstAt | main.js:131-133 | a string-pattern `replace` changes only the first occurrence and keeps the text before and after it |
| JsStrings.ReplaceFirstAbsent | main.js:131-133 | without an occurrence, `replace` leaves the text unchanged |
| JsStrings.Trim | main.js:153 | the trimmed text is empty exactly when the input is all whitespace; otherwise it is the slice between the whitespace prefix and suffix, and it neither starts nor ends with whitespace |
| JsStrings.TrimIdempotent | main.js:153 | trimming twice is trimming once |
| PartCleanup.RemoveEndMarker | main.js:142-143 | a reply without `END` is kept as it is; one with `END` loses exactly three characters |
| PartCleanup.RemoveEndMarkerFirstOnly | main.js:142-143 | only the first `END` is deleted; everything around it is kept |
| PartCleanup.BlankTitleLines | main.js:147 | blanking title lines never lengthens the text |
| PartCleanup.BlankTitleLinesStep | main.js:147 | the first line is emptied exactly when it starts with the title heading; its terminator is kept and the rest is blanked alike |
| PartCleanup.BlankTitleLinesLast | main.js:147 | a text without line terminators is emptied exactly when it starts with the title heading |
| PartCleanup.BlankTitleLinesKeepsBreaks | main.js:147 | blanking the `**Title**:` lines keeps every line terminator, in order |
| PartCleanup.BlankTitleLinesNoHeading | main.js:147 | a text in which no line starts with a title heading is left unchanged |
| PartCleanup.BlankTitleLinesIdempotent | main.js:147 | blanking title lines a second time changes nothing |
| PartCleanup.InstructionLength | main.js:149-152 | a match of the instruction phrase stays within the text and is 38 to 41 characters long (the phrase, two optional quotes and an optional period); 0 means no match |
| PartCleanup.RemoveMatchesFrom | main.js:148-152 | deleting every match from index `from` on leaves at most the rest of the text |
| PartCleanup.RemoveMatches | main.js:148-152 | deleting every match of a pattern never lengthens the text |
| PartCleanup.RemoveMatchesFromLength | main.js:148-152 | a global deletion never lengthens the text, and keeps its length exactly when the search finds nothing |
| PartCleanup.RemoveMatchesUnchangedIff | main.js:148-152 | deleting every `{LANGUAGE}` or every instruction phrase leaves the text as it was if and only if the pattern matches nowhere in it |
| PartCleanup.InstructionMatched | main.js:149-152 | a non-zero length means the whole phrase starts there: the words in any ASCII case, each quote only where a listed quote character stands, and the period taken exactly when one follows |
| PartCleanup.InstructionRecognised | main.js:149-152 | the instruction phrase is matched whole in every form: in any case, with or without each quote and with or without the final period |
| PartCleanup.LanguageRemovalCanLeaveOne | main.js:148 | the deletion is one pass: `{LANG{LANGUAGE}UAGE}` comes out as `{LANGUAGE}` |
| PartCleanup.CleanPart | main.js:146-153 | the cleaned part is empty or neither starts nor ends with whitespace |
| PartCleanup.StripStars | main.js:184 | no `*` is left and the text does not grow |
| PartCleanup.QuotesToApostrophes | main.js:185 | no `"` is left; every other character is kept in place |
| PartCleanup.AudioText | main.js:183-185 | the narration text holds neither `*` nor `"` |
| PartCleanup.AudioTextConcat | main.js:183-185 | the narration text of a concatenation is the concatenation of the narration texts |
| PartCleanup.AudioTextChar | main.js:183-185 | character by character: `*` goes, `"` becomes `'`, and anything else is kept |
| RunSetup.SelectedModel | main.js:112 | an empty model name falls back to `gemini-2.0-flash`; any other name is kept |
| RunSetup.DashSeparators | main.js:118-120 | every `:` and `.` becomes `-`; every other character is kept |
| RunSetup.Timestamp | main.js:118-121 | the stamp has at most 19 characters and holds no `:` and no `.` |
| RunSetup.TimestampOfInstant | main.js:118-121 | for an ISO instant, the stamp is the date, `T`, and the hours, minutes and seconds separated by `-` |
| RunSetup.TimestampSameSecond | main.js:118-121 | two runs get the same stamp exactly when they start in the same second |
| RunSetup.FolderName | main.js:122 | the folder name is the project name, `_` and the stamp, each at its own place |
| RunSetup.FolderNameInjective | main.js:122 | with a 19-character stamp, the folder name gives back the project name and the stamp |
| RunSetup.JoinPath | main.js:123 | the joined path ends with the name and starts with a non-empty directory, with nothing between them or exactly one backslash |
| RunSetup.RunFolder | main.js:118-123 | the run folder is at least as long as its folder name; under a directory it is at most the directory, one separator and the folder name |
| RunSetup.RunFolderEnds | main.js:118-123 | the run folder ends with the project name, `_` and the stamp |
| RunSetup.FirstPrompt | main.js:131-133 | a template with neither placeholder is sent as it is |
| RunSetup.FirstPromptShape | main.js:131-133 | only the first `{TITLE}` and then the first `{LANGUAGE}` are replaced; later occurrences survive |
| StoryLoop.Chat.SendMessage | main.js:140 | the message is appended to the conversation, and the reply answers the whole conversation |
| StoryLoop.Messages | main.js:135-160 | the messages of n turns: the prompt first, then `Continue` only |
| StoryLoop.PartText | main.js:141-153 | the text a reply contributes is empty or neither starts nor ends with whitespace |
| StoryLoop.Accumulate | main.js:155 | an empty part leaves the story as it was; a non-empty one is appended after the story and followed by `\n\n` |
| StoryLoop.Story | main.js:155 | the story is empty or ends with the `\n\n` separator |
| StoryLoop.StoryFrom | main.js:138-161 | every part before the last continues; the loop ends at a provider error, or at a text reply that holds `END` or is part 30; a finished loop's story is the accumulation of its parts |
| StoryLoop.RunLoop | main.js:134-161 | a run's loop takes 1 to 30 parts, every part before the last continues, an abort carries the error of its last reply, and a finished loop's story is the accumulation of all its parts |
| StoryLoop.LoopStopsAtFirstStop | main.js:156 | the loop stops at the first part that does not continue, or at part 30 |
| StoryLoop.StopsAfterFirstEnd | main.js:142-156 | the first reply holding `END` finishes the story at that part |
| StoryLoop.ThirtyPartsWithoutEnd | main.js:156 | without `END` and without errors, the story has exactly thirty parts |
| StoryLoop.AbortsAtFirstError | main.js:138-161 | a provider error aborts the loop at that part with its message |
| StoryLoop.MessagesSent | main.js:135-160 | the loop sends between 1 and 30 messages: the prompt, then at most 29 `Continue` |
| StoryLoop.StoryStep | main.js:155 | an empty cleaned part leaves the story as it was; a non-empty one is appended followed by `\n\n` |
| StoryLoop.StoryFromText | main.js:141-160 | a text reply either ends the loop with that part or hands the accumulated story to the next part |
| StoryLoop.NatToString | main.js:139 | the decimal text of the part number: digits only, with no leading zero, whose value is the number |
| StoryLoop.LineTextEndsWithValue | main.js:114-115 | the project-start and model lines, and the failure line of main.js:209, end with their value verbatim |
| StoryLoop.PartLogs | main.js:139 | one progress line per part, numbered from 1 |
| StoryLoop.CleanReply | main.js:141-153 | the method's result is whether the reply holds `END` and its cleaned text |
| StoryLoop.Turn | main.js:139-160 | one pass of the loop body: it sends one message, then either stops with the loop's outcome or leaves the loop's outcome unchanged with the story carried to the next part |
| StoryLoop.GenerateStory | main.js:134-161 | the loop method ends as the loop function does, having sent exactly its messages and logged one progress line per part |
| History.PushCapped | main.js:196-203 | the new entry comes first, the old entries follow in order, and the list is cut to twenty |
| History.PushCappedKeepsBound | main.js:203 | a list of at most twenty stays within twenty; the oldest entry drops out exactly when the list was full |
| History.PushAllNewestFirst | main.js:196-204 | after any number of runs, the history holds the newest twenty entries, newest first |
| History.Store.RecordRun | main.js:196-204 | the stored list becomes the capped, newest-first update of the old one |
| StoryPipeline.DescriptionPrompt | main.js:171 | the description request carries the title verbatim at its fixed place |
| StoryPipeline.TtsCommand | main.js:188 | the command starts with the quoted edge-tts path and ends with the voice |
| StoryPipeline.Abort | main.js:207-211 | a failure returns the error's message, sends the failure line last, and leaves the history as it was |
| StoryPipeline.Handle | main.js:92-212 | a failure leaves the history unchanged and ends with its failure line; a success records the run's entry first, cut to twenty |
| StoryPipeline.Generate | main.js:134-161 | after the loop, a failure leaves the history alone; the calls made so far are kept; 1 to 31 messages go out and the first is the prompt; an edge-tts error fails the run |
| StoryPipeline.AfterStory | main.js:163-177 | from the story file on: a failure leaves the history alone and ends with its failure line, a success records the entry; at most one more message goes out and the calls made so far are kept |
| StoryPipeline.Narrate | main.js:179-187 | from the narration file on: a failure leaves the history alone, a success records the entry; no message goes out, the calls made so far are kept, and an edge-tts error fails the run |
| StoryPipeline.Speak | main.js:188-206 | running edge-tts: no message goes out; an edge-tts error fails the run and leaves the history alone; a success records the run's entry, cut to twenty |
| StoryPipeline.MissingKeyFailsFirst | main.js:105-106 | without an API key the run fails with the key message, whatever the edge-tts path, before any folder or message |
| StoryPipeline.MissingTtsPathFails | main.js:108-109 | with a key but no edge-tts path the run fails with the path message, before any folder or message |
| StoryPipeline.FolderBeforeMessages | main.js:105-140 | a run that sends a message had both settings, created its folder first, and sent the substituted prompt first |
| StoryPipeline.HandleSucceeded | main.js:105-136 | a successful run passed every check, and its story phase starts from the three opening log lines and the substituted prompt |
| StoryPipeline.GenerateSucceeded | main.js:134-161 | a successful run's loop finished, with its messages and part logs |
| StoryPipeline.AfterStorySucceeded | main.js:163-177 | both file writes succeeded; the story file holds the story, and the description file holds the provider's reply unchanged |
| StoryPipeline.NarrateSucceeded | main.js:179-206 | the narration write and edge-tts succeeded; the narration file, the edge-tts command, the deletion, the opening of the folder and the history entry, in order |
| StoryPipeline.SuccessfulRun | main.js:92-206 | a successful run had every file-system call and edge-tts succeed; its messages, log lines and calls, in order |
| StoryPipeline.FolderFailureFails | main.js:114-124 | a failed `ensureDir` fails the run with its message after the two opening lines; only the folder call was made and nothing was sent |
| StoryPipeline.TemplateFailureFails | main.js:130-133 | a template that is not a string fails the run with its `TypeError` after the story line; no message was sent |
| StoryPipeline.LoopFailureFails | main.js:138-161 | a provider error in the loop fails the run with that message, after the parts logged and the messages sent so far; no file is written |
| StoryPipeline.StoryWriteFailureFails | main.js:163-164 | a failed write of story.txt fails the run with its message; the description is never asked for |
| StoryPipeline.DescriptionFailureFails | main.js:165-172 | a provider error on the description request fails the run with that message; only story.txt was written |
| StoryPipeline.DescribedRunGoesOn | main.js:171-180 | once the description has come back, the run writes description.txt and either fails with that write's error or goes on to the narration |
| StoryPipeline.DescriptionWriteFailureFails | main.js:173-176 | a failed write of description.txt fails the run with its message; the narration is never started |
| StoryPipeline.AudioTextWriteFailureFails | main.js:180-187 | a failed write of the narration text fails the run with its message; edge-tts is never run |
| StoryPipeline.TtsFailureFails | main.js:188-189 | an edge-tts error fails the run with its message after every earlier call; nothing is deleted or opened |
| StoryPipeline.TtsFailureLeavesTextFile | main.js:187-190 | when edge-tts fails the run fails, and the narration text file is never deleted |
| StoryPipeline.StartProcess | main.js:92-212 | the step-by-step handler returns what `Handle` gives and leaves the store's history as `Handle` says |
| Renderer.TemplateOf | renderer.js:207 | the template is text exactly when the prompt file's value is a string; a missing key gives the `TypeError` of reading `replace` of undefined |
| Renderer.BuildRequest | renderer.js:190-213 | no request exactly when a required field is empty; otherwise the fields are carried verbatim and the template is the prompt file's value |
| Renderer.Lower | renderer.js:291-298 | lowering keeps the length and lowers each character |
| Renderer.Classify | renderer.js:289-301 | error exactly when an error word occurs; success exactly when no error word and a success word occur; info otherwise |
| Renderer.LowerIdempotent | renderer.js:291-298 | lowering twice is lowering once |
| Renderer.ClassifyIgnoresCase | renderer.js:289-301 | a message and its lowered form are classified alike |
| Renderer.FailureLineIsError | renderer.js:290-295 | the handler's failure line is an error line, whatever the message |
| Renderer.ReadyLineIsSuccess | renderer.js:296-300 | the closing line of a successful run gets the check icon |
| Renderer.PartLineIsInfo | renderer.js:289-301 | every progress line of the loop is an info line |
| Renderer.Shown | renderer.js:277-305 | the log area shows each received line, in order, with its severity |
| Renderer.RunEndsWithVerdictLine | renderer.js:289-301 | the last line shown for a run is an error line if it failed and a success line if it succeeded |
| Renderer.OptionList | renderer.js:156-164 | the placeholder option, then one option per key in key order |
| Renderer.AutoSelectsFirstTemplate | renderer.js:166-169 | loading a file selects its first key; with no key the selection is empty and no request is built |
| Renderer.EscapeBackslashes | renderer.js:335-337 | the escaped path is never shorter than the path |
| Renderer.EscapeBackslashesChar | renderer.js:335-337 | a backslash becomes two; every other character, quotes and line breaks included, is kept |
| Renderer.EscapeBackslashesConcat | renderer.js:335-337 | the escaping of a concatenation is the concatenation of the escapings, so with the previous row it doubles every backslash of any path and changes nothing else |
| Renderer.ReadQuotedLeavesSuffix | renderer.js:335 | reading the button's single-quoted literal gives a value and leaves a strict suffix of the text unread |
| Renderer.EscapeBackslashesRoundTrip | renderer.js:335-337 | for a path without `'` and line breaks, the JavaScript literal written with the doubled backslashes reads back as the path |
| Renderer.ApostropheEndsLiteral | renderer.js:335-337 | as written, the literal ends at the first apostrophe of any path; the rest of the path follows as source text where the call expects `)`, so the handler does not compile (or runs that text when it happens to be valid) |
| Renderer.QuoteInPathBreaksLiteral | renderer.js:335-337 | with an apostrophe in the path, the literal ends early: `a'b` reads as `a`, with `b')` left as stray source text |
| Renderer.EscapeForLiteral | renderer.js:335-337 | the corrected literal escaping is never shorter than the path |
| Renderer.EscapeForLiteralRoundTrip | renderer.js:335-337 | whatever the path, its escaped form followed by the closing quote reads back as the path, and the rest is left unread |
| Renderer.EscapeAgreesWithoutQuotes | renderer.js:335-337 | without `'` and line breaks, the corrected literal escaping equals the original one |
| Renderer.UpToQuote | renderer.js:325-338 | the `onclick` value the HTML parser takes is a prefix of the text, holds no double quote, and stops only at a double quote |
| Renderer.AttributeEndsAtQuote | renderer.js:335-338 | a path text without `"` is the whole attribute value up to the quote the markup closes it with |
| Renderer.DecodeAmp | renderer.js:325-338 | the parser decodes `&amp;` in the attribute to `&` |
| Renderer.DecodeQuot | renderer.js:325-338 | the parser decodes `&quot;` in the attribute to `"` |
| Renderer.DecodeApos | renderer.js:325-338 | the parser decodes `&#39;` in the attribute to `'` |
| Renderer.DecodeChar | renderer.js:325-338 | every character other than `&` reaches JavaScript as it is |
| Renderer.DecodePlain | renderer.js:325-338 | an attribute value without `&` reaches JavaScript unchanged |
| Renderer.PlainAttribute | renderer.js:325-338 | for a path text without `&` and `"`, what the button reads is the JavaScript literal of that text |
| Renderer.EscapeBackslashesKeepsAbsent | renderer.js:335-337 | doubling backslashes adds no `&`, `"` or other character that was not in the path |
| Renderer.ReferenceInPathEndsLiteral | renderer.js:325-338 | as written, a folder whose name spells `&#39;` (project `x&#39;y`) reaches JavaScript with an apostrophe there: the literal ends before it and the rest breaks the handler |
| Renderer.AmpersandReferenceRenamesFolder | renderer.js:325-338 | as written, a folder whose name spells `&amp;` (project `R&amp;D`) is read as a name with a bare `&`, which is not the run's folder |
| Renderer.EscapeForAttributeNoQuote | renderer.js:325-338 | the corrected attribute encoding holds no double quote, so it cannot end the attribute early |
| Renderer.DecodeAttributeChar | renderer.js:325-338 | decoding gives back each character the attribute encoding wrote |
| Renderer.DecodeEscapedAttribute | renderer.js:325-338 | decoding undoes the attribute encoding of any text, whatever follows it |
| Renderer.HistoryView | renderer.js:314-343 | an empty history shows only the notice; otherwise there is one item per run, in order, whose button literal is the backslash doubling of its path |
| Renderer.HistoryButtonsOpenTheirFolder | renderer.js:320-338 | in the list as written, after the attribute's decoding the k-th button's literal reads back as the k-th run's path when that path holds no apostrophe, no line break, no `&` and no `"` |
| Renderer.HistoryButtonStopsAtApostrophe | renderer.js:320-338 | in the list as written, the literal of a path with an apostrophe (and no `&` or `"`) ends at the first apostrophe, and the rest of the path is left as source text that breaks the handler |
| Renderer.CorrectedHistoryView | renderer.js:314-343 | the same list, with every button's path escaped for the literal and then encoded for the attribute |
| Renderer.CorrectedButtonsOpenTheirFolder | renderer.js:320-338 | with the corrected escaping, the k-th button reads back as the k-th run's path after the attribute's decoding and the literal's, whatever the path |
| Renderer.Window.LoadPromptsFromFile | renderer.js:150-173 | a file that reads replaces the data, the displayed path and the drop-down, and selects the first template, and every template offered is then a key of the data; a null read only adds the toast |
| Renderer.Window.ChooseTemplate | renderer.js:187 | the chosen template's key is what the form sends |
| Renderer.Window.OnLogUpdate | renderer.js:277-305 | the line is appended with the severity its words give |
| Renderer.Window.ReceiveLogs | renderer.js:277-305 | the lines are appended in order as `Shown` gives them |
| Renderer.Window.StartProcess | renderer.js:183-225 | an incomplete form only alerts; otherwise the log area is cleared and then shows the run's lines, followed by a failure alert or the success toast |
| Renderer.Window.LoadHistory | renderer.js:309-344 | the list becomes the history view as written: the notice, or one item per run with the backslash-doubled path |

## Left out

- Electron windows, the auto-updater, dialogs, `read-json` and the DOM are
  left out. A prompt file that reads is a `JsonDoc`: its keys in order and a
  value per key. A null read is `None`.
- The Gemini client is a `Responder`: a function from the conversation to a
  reply. A thrown client error is a `ProviderError` reply with its message.
- `sleep` (main.js:158, 169) only delays, so it is left out.
- `console.error` (main.js:208) and `shell.openPath` are effects with no result. `openPath` is recorded as an `Effect`.
- The deletion of the temporary narration file (main.js:190) is recorded as an
  `Effect`. Its failure is swallowed, so it has no outcome in `Environment`.
- The clock is two ISO strings given as parameters.
- The log timestamp and `toLocaleString` (renderer.js:284, 331-333) are left
  out: they depend on the locale and the clock.
- The start button's label and state, the log placeholder, the toast timers
  and the animation delay are DOM presentation, so they are left out.
- Renderer.LowerChar: `toLowerCase` is modelled for ASCII and for the
  Cyrillic capitals U+0400-U+042F and U+0490 only. Other characters are kept
  as they are. None of them lowers to a letter of the four severity words, so
  the classification is unaffected.
- PartCleanup.AsciiLower: the `i` flag is modelled as ASCII case folding. A
  regular expression without the `u` flag folds non-ASCII letters too, but the
  patterns hold only ASCII letters.
- RunSetup.JoinPath: `path.join` is modelled as the Windows join of a
  directory and one segment. Normalisation is left out: `.` and `..`,
  repeated separators, and the turning of every `/` into `\`. So
  RunSetup.RunFolderEnds states the unnormalised path: for a project name
  such as `a/b` the real path ends `a\b_…`, not `a/b_…`.
- Renderer.DecodeReferences decodes only `&amp;`, `&quot;` and `&#39;`, the
  references the paths here spell or the corrected encoding writes; any other
  `&` gives `None`. It is not a full HTML character-reference decoder.
- Renderer.HistoryButtonsOpenTheirFolder and
  Renderer.HistoryButtonStopsAtApostrophe: stated for paths without `&` and
  `"`. For a path that spells a reference, Renderer.ReferenceInPathEndsLiteral
  and Renderer.AmpersandReferenceRenamesFolder state what the button reads
  instead. A raw `"` in a path ends the attribute; what the rest of the markup
  then does is left out.
- Renderer.ReadQuoted reads only the escapes the two escapings produce (`\\`,
  `\'`, `\n`, `\r`). It is not a full JavaScript literal reader.
- Prompt-file values are strings, `null` or other values. Only whether the
  value is a string matters to main.js:131. A prompt file whose top level is
  not an object is left out.
- The title and project name are inserted into the history item's HTML
  unescaped. The model keeps them as plain fields; markup injection is left
  out.
- The handler's concurrency is left out. `start-process` can run twice at
  once, and the log lines of two runs can interleave. The model treats one run
  at a time, with its log lines arriving before its answer.
- The quote class at main.js:185 holds two plain `"` characters, so only `"`
  becomes `'`. Curly quotes are kept.

## Findings

| source | as written | input that shows it | evidently intended | confidence | as-written member | corrected member |
|---|---|---|---|---|---|---|
| renderer.js:335-337 | the path goes into a single-quoted JavaScript literal inside an `onclick` attribute with only backslashes doubled | project name `a'b`, so the run folder holds an apostrophe: the literal ends after `a`, and the stray `b')` breaks the handler | escape `'` and the line terminators too, so the literal reads back as the path | not executed | Renderer.QuoteInPathBreaksLiteral | Renderer.CorrectedButtonsOpenTheirFolder |
| renderer.js:325-338 | the literal sits in a double-quoted attribute set through `innerHTML`, whose character references the HTML parser decodes, but `&` and `"` are not encoded | project name `x&#39;y`: the handler's source holds `x'y`, so the literal ends after `x`; project name `R&amp;D`: the button asks for a folder named with `R&D` | encode `&` and `"` for the attribute after escaping the literal | not executed | Renderer.ReferenceInPathEndsLiteral | Renderer.CorrectedButtonsOpenTheirFolder |

The window's history list (Renderer.HistoryView, Renderer.Window.LoadHistory)
keeps the escaping as written. Renderer.HistoryButtonStopsAtApostrophe
generalises the counterexample to every path holding an apostrophe.
Renderer.ReferenceInPathEndsLiteral and Renderer.AmpersandReferenceRenamesFolder
do the same for paths that spell a character reference.
Renderer.CorrectedHistoryView is the same list with the corrected escaping:
Renderer.EscapeForLiteral for the literal, then Renderer.EscapeForAttribute
for the attribute. Renderer.EscapeForLiteralRoundTrip and
Renderer.DecodeEscapedAttribute prove that each layer reads back, and
Renderer.CorrectedButtonsOpenTheirFolder puts them together for every path.
