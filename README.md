# pecho core, modelled in Dafny

pecho is a desktop meeting recorder. It records the microphone and, if
allowed, the system audio. It transcribes the recording with a local
speech-recognition model (Whisper, run through transformers) and can
summarize the transcript with a local chat model served by Ollama. The
model-selection hook also probes the graphics card's memory and stores the
byte count (modelled as `ModelSelection.GpuVram`); the page does not use it.

This project models the deterministic rules around those services and
proves what they promise:

- `system_info.dfy`, module `SystemInfo`: the graphics-memory probe.
  - The vendor tool's `<MiB>, <name>` lines become a name-keyed table that keeps insertion order.
  - The first dedicated controller is chosen.
  - That controller's reported memory is corrected by two-way substring name matching, with a fallback to the first table entry.
- `recording.dfy`, module `Recording`: the recording session.
  - Covers start, data events, pause, resume, the one-second timer, stop and transcription of the collected audio.
  - Each step is a function on a `Session` value, and the promised properties are proved about those functions.
  - The `Recorder` class holds the hook's state and refs as fields. Its methods update them in place and are proved to perform exactly those steps.
- `model_selection.dfy`, module `ModelSelection`: the chat-model picker.
  - Loading resolves the selection against the remembered name, and selecting remembers the choice.
  - Both run over the `Storage.LocalStorage` key-value store.
- `language_helpers.dfy` and `whisper_helpers.dfy`: the language and speech-model tables, their lookups with fallbacks, and the stored preferences.
- `home_page.dfy`, module `HomePage`: the page's own logic.
  - The `m:ss` duration display, with a parser that reads it back.
  - The Markdown export and its file name.
  - The handlers that guard and reset the summary state around recording and summarizing.
- `ollama_service.dfy` and `whisper_service.dfy`: the main-process services.
  - The chat request and its error wrapping.
  - The projection of the model list.
  - The transcriber pipeline, loaded once and then kept.

Three support modules hold shared definitions:

- `common.dfy`: `Option`, `Result`, and what a `catch` clause receives.
- `js_strings.dfy`: the JavaScript string operations the core relies on, such as `trim`, `split`, `includes`, `parseInt`, `toString` and `padStart`, with their facts.
- `storage.dfy`: `localStorage`.

Calls into code outside the core are parameters of the operations. These are the subprocess, the system-information library, the Ollama client, the transformers loader, the browser's audio decoding and the calls between processes. Each call's result is an input: a value or a thrown failure. Device grants are success or failure outcomes. The current time enters only as the two date strings of the export.

## Behaviour that follows the code

In these places the code does something a reader might not expect; the model follows the code:

- Transcription always loads `Xenova/whisper-tiny.en` and always passes the language `english`. It does not use the stored speech-model or language preference, and no model is reloaded when the preference changes (`WhisperService.Transcriber`).
- The chat request names no output language. Its system prompt is fixed.
- The vendor tool is consulted when the platform is `linux` and *any* controller's vendor contains `nvidia`. The correction then applies only when the chosen controller is NVIDIA (`SystemInfo.GetGPUVRAM`).
- A controller with no bus id at all passes the bus-id test. Only the empty bus id is rejected (`SystemInfo.Qualifies`).
- The fallback to the first table entry fires whenever the value still equals the reported one. That includes a match whose value happens to equal it (`SystemInfo.EqualMatchIsOverridden`, `SystemInfo.EqualMatchExample`).
- Matching vendors is a substring test, so `ati` inside "Corporation" counts as a graphics vendor (`SystemInfo.CorporationCountsAsGpuVendor`).
- A microphone failure leaves the session where it was, not reset. A recorder that cannot be set up leaves the streams already acquired held (`Recording.StartFailures`).
- Starting again while recording leaves the old interval running unheld, so the duration keeps growing after the next stop (`Recording.RestartWhileRecordingLeaksTimer`). The page offers start only while not recording, and every sequence of offered events keeps exactly one interval running while recording and none otherwise (`Recording.OfferedRunsStayNominal`).

## Model

| member | source | states |
|---|---|---|
| `SystemInfo.Set` | src/services/system-info-service.ts:26 | `map.set`: the name then reads back the new value; the names already listed keep their order and at most the new name is added at the end, so the first inserted name stays first |
| `SystemInfo.SetKeepsOthers` | src/services/system-info-service.ts:26 | `map.set` of one name leaves every other name's value as it was |
| `SystemInfo.SetWellFormed` | src/services/system-info-service.ts:26 | `map.set` keeps each name listed once and exactly the listed names holding values |
| `SystemInfo.ParseLine` | src/services/system-info-service.ts:24-25 | a parsed line's name is one comma-free field; `SystemInfo.ParseFormattedLine` states what it yields |
| `SystemInfo.ParseFormattedLine` | src/services/system-info-service.ts:19-26 | each line `<MiB>, <name>` the tool prints (name without commas or surrounding blanks) reads back as name ↦ MiB·1024·1024 |
| `SystemInfo.ParseEach` | src/services/system-info-service.ts:23-24 | one result per output line, each line parsed on its own, in order |
| `SystemInfo.BuildLookup` | src/services/system-info-service.ts:22-27 | every name reads back the value of the last line naming it: a later line with the same name overwrites |
| `SystemInfo.BuildFirst` | src/services/system-info-service.ts:22-27 | the first name in the table is that of the first line that parses, even when later lines overwrite its value |
| `SystemInfo.NothingParsed` | src/services/system-info-service.ts:22-27 | with no parsable line, the table is empty |
| `SystemInfo.BuildWellFormed` | src/services/system-info-service.ts:22-27 | the table built from any lines lists each name once and exactly the listed names hold values |
| `SystemInfo.TableOf` | src/services/system-info-service.ts:19-29 | the table of the tool's output lines is well formed in that sense |
| `SystemInfo.FillTable` | src/services/system-info-service.ts:22-27 | the loop, updating `vramMap` in place one line at a time, ends with exactly the table of setting every parsed line in order |
| `SystemInfo.GetNvidiaVRAMMap` | src/services/system-info-service.ts:12-34 | a failed tool run gives no table; otherwise exactly the table of the trimmed output's newline-separated lines |
| `SystemInfo.FindDedicatedGPU` | src/services/system-info-service.ts:53-70 | the `for`/`break` scan finds the first controller with positive memory, a non-empty vendor, a bus id other than "" and a vendor containing nvidia, amd, ati or intel; or reports that none qualifies |
| `SystemInfo.Qualifies` | src/services/system-info-service.ts:58-65 | the five tests of the controller filter; an NVIDIA controller with positive memory and a bus id other than "" always passes them |
| `SystemInfo.HasNvidiaGPU` | src/services/system-info-service.ts:42-44 | the left-to-right `some` scan holds exactly when some controller's lower-cased vendor contains "nvidia" |
| `SystemInfo.FirstMatch` | src/services/system-info-service.ts:82-87 | the first table position, in insertion order, whose name includes the GPU name or is included in it; no earlier position matches; none when no position matches |
| `SystemInfo.FirstMatchAt` | src/services/system-info-service.ts:82-87 | the loop breaks at position i exactly when i matches and no earlier position does |
| `SystemInfo.Corrected` | src/services/system-info-service.ts:82-92 | the corrected memory is the reported memory or the value of some table entry; an empty table leaves the reported memory |
| `SystemInfo.CorrectVRAM` | src/services/system-info-service.ts:82-92 | the matching loop and the fallback, updating `vram` in place, give the first match's value, then the first entry's value if the result still equals the reported memory and that value is non-zero |
| `SystemInfo.GetGPUVRAM` | src/services/system-info-service.ts:36-106 | a library failure gives null without running the tool; the tool runs exactly on linux with some NVIDIA controller; null exactly when no controller qualifies; otherwise the first qualifying controller's name (or "Unknown GPU") and memory in bytes, corrected only for an NVIDIA controller with a table |
| `SystemInfo.Profile` | src/services/system-info-service.ts:72-98 | the answer's name is never empty, and its memory is the reported MiB times 1024·1024 or the value of an entry of the tool's table |
| `SystemInfo.ProfileUncorrected` | src/services/system-info-service.ts:72-79 | with no table, or a vendor other than NVIDIA, the answer is the reported MiB times 1024·1024 and the model name or "Unknown GPU" |
| `SystemInfo.ExactNameMatch` | src/services/system-info-service.ts:82-87 | an entry named exactly like the GPU with a value other than the reported one, after no earlier match, is the answer |
| `SystemInfo.NoMatchFallsBackToFirst` | src/services/system-info-service.ts:88-92 | with no matching name, the answer is the first entry's value when it is non-zero, else the reported value |
| `SystemInfo.EqualMatchIsOverridden` | src/services/system-info-service.ts:89-92 | a match whose value equals the reported one is replaced by the first entry's non-zero value |
| `SystemInfo.EqualMatchExample` | src/services/system-info-service.ts:82-92 | concretely: a 4096 MiB "GeForce GTX 1650" listed after an 8192 MiB "Quadro P4000" is answered with 8192 MiB |
| `SystemInfo.TwoEntries` | src/services/system-info-service.ts:26 | setting two different names into an empty map gives a well-formed two-entry map in that order, each name holding its own value |
| `SystemInfo.CorporationCountsAsGpuVendor` | src/services/system-info-service.ts:53-65 | "Microsoft Corporation" passes the vendor test through the substring "ati" |
| `JsStrings.SplitJoin` | src/services/system-info-service.ts:19-24 | splitting on a separator undoes joining pieces that do not contain it |
| `JsStrings.JoinSplit` | src/services/system-info-service.ts:19-24 | joining the pieces of a split restores the string |
| `JsStrings.IncludesIff` | src/services/system-info-service.ts:83 | `s.includes(t)` holds exactly when `t` occurs at some position of `s` |
| `JsStrings.Includes` | src/services/system-info-service.ts:83 | `s.includes(t)` can hold only when `t` is no longer than `s`; `JsStrings.IncludesIff` states exactly when it holds |
| `JsStrings.Split` | src/services/system-info-service.ts:19-24 | `split(sep)` gives at least one piece and no piece contains the separator; `JsStrings.SplitJoin` and `JsStrings.JoinSplit` state the round trips |
| `JsStrings.ParseInt` | src/services/system-info-service.ts:25 | `parseInt` of a string without any digit is `NaN`; `JsStrings.ParseIntOfNatToString` states what it reads from digits |
| `JsStrings.ToLower` | src/services/system-info-service.ts:61-64 | `toLowerCase` keeps the length and lower-cases each character on its own |
| `JsStrings.ParseIntOfNatToString` | src/services/system-info-service.ts:25 | `parseInt` reads a natural number's decimal digits back, whatever non-digit text follows them |
| `JsStrings.TrimDropsWhitespace` | src/services/system-info-service.ts:19 | `trim()` drops only whitespace, before and after the slice it keeps |
| `JsStrings.Trim` | src/services/system-info-service.ts:19 | `trim()` leaves no whitespace at either end of its result |
| `JsStrings.TrimKeepsOut` | src/services/system-info-service.ts:24 | a character absent from a string is absent from its trim, so a trimmed field still has no comma |
| `JsStrings.TrimEmptyIff` | src/routes/index.tsx:118 | `trim()` gives "" exactly for all-whitespace strings |
| `JsStrings.HasContentIff` | src/routes/index.tsx:118 | a string has a non-whitespace character exactly when its trim is non-empty |
| `JsStrings.DecimalValueOfNatToString` | src/routes/index.tsx:69-71 | `toString()` of a natural number reads back as that number |
| `JsStrings.PadStart` | src/routes/index.tsx:71 | `padStart(width, fill)` keeps a string that is long enough, and otherwise fills it on the left to exactly `width` |
| `Recording.BlobAppend` | src/hooks/useRecording.ts:103-115 | the blob of the chunks followed by one more chunk is the earlier blob followed by that chunk's bytes |
| `Recording.AfterStart` | src/hooks/useRecording.ts:33-132 | start clears the transcript, the duration and the chunks; unless it gets a running recorder it leaves recording, paused, the recorder and the intervals as they were; a full start records unpaused with the note only when system audio was declined, and adds one interval; from a nominal idle session the result is nominal |
| `Recording.StartFailures` | src/hooks/useRecording.ts:44-131 | a microphone failure changes only the resets and sets the failure's message or "Failed to start recording"; once the microphone is held the mic and mixed streams are held and the system stream only if granted; a recorder failure reports its own message |
| `Recording.AfterData` | src/hooks/useRecording.ts:103-107 | a chunk is appended at the end only when non-empty, nothing else changes, and the blob grows by exactly the chunk's bytes |
| `Recording.AfterPause` | src/hooks/useRecording.ts:206-217 | with a recorder, recording and not paused: paused, the recorder paused if it was recording, the held interval cleared; otherwise no change; from a nominal session no interval remains |
| `Recording.AfterResume` | src/hooks/useRecording.ts:219-229 | with a recorder, recording and paused: unpaused, the recorder resumed if it was paused, one more interval; otherwise no change; nominal sessions stay nominal |
| `Recording.AfterTick` | src/hooks/useRecording.ts:120-122 | each second adds one per live interval; in a nominal session that is exactly 1 while recording unpaused and 0 when paused or stopped |
| `Recording.StopBlob` | src/hooks/useRecording.ts:110-115 | a blob goes to transcription exactly when a recorder that is not inactive is stopped, and it is the concatenation of all collected chunks in order |
| `Recording.AfterStop` | src/hooks/useRecording.ts:172-204 | stop leaves the session neither recording nor paused, with no held interval and all three streams released; the recorder ref is nulled when it was stopped; duration, chunks, transcript and error are kept |
| `Recording.Transcription` | src/hooks/useRecording.ts:134-162 | a decoding failure or a transcription failure gives its message or "Failed to transcribe audio"; otherwise the text transcribed from channel 0 of the decoded audio |
| `Recording.AfterTranscription` | src/hooks/useRecording.ts:134-170 | success sets the transcript and clears the error; failure sets the error and keeps the transcript; either way transcribing is over and nothing else changes |
| `Recording.OfferedRunsStayNominal` | src/hooks/useRecording.ts:33-229 | any sequence of events in which start comes only while not recording keeps a nominal session nominal, with one interval running exactly while recording unpaused |
| `Recording.RestartWhileRecordingLeaksTimer` | src/hooks/useRecording.ts:120-122 | a second start while recording overwrites the timer ref, so after the next stop the duration still grows by one per second |
| `Recording.RunAppend` | src/hooks/useRecording.ts:33-229 | running one sequence of events and then another is running the two sequences joined |
| `Recording.SampleSession` | src/hooks/useRecording.ts:103-229 | start, chunk a, an empty chunk, a second, pause, a paused second, resume, chunk b, a second: the duration is 2 and stop hands over exactly a followed by b |
| `Recording.InitialIsNominal` | src/hooks/useRecording.ts:18-31 | the state on mount is nominal with no interval running |
| `Recording.Recorder.constructor` | src/hooks/useRecording.ts:18-31 | the hook's initial state and refs |
| `Recording.Recorder.Start` | src/hooks/useRecording.ts:33-132 | the in-place start performs `AfterStart` |
| `Recording.Recorder.ScheduleTimer` | src/hooks/useRecording.ts:120-122 | a new interval is held in the ref; one already held keeps running unheld |
| `Recording.Recorder.ResetForStart` | src/hooks/useRecording.ts:35-38 | the error, transcript, duration and chunks are cleared, nothing else |
| `Recording.Recorder.CaptureStreams` | src/hooks/useRecording.ts:52-94 | the microphone and mixed streams are held, the system stream if granted, else the note is the error |
| `Recording.Recorder.LaunchRecorder` | src/hooks/useRecording.ts:100-125 | the recorder runs, an interval is scheduled, the session records unpaused |
| `Recording.Recorder.DataAvailable` | src/hooks/useRecording.ts:103-107 | the in-place push performs `AfterData` |
| `Recording.Recorder.Pause` | src/hooks/useRecording.ts:206-217 | the in-place pause performs `AfterPause` |
| `Recording.Recorder.Resume` | src/hooks/useRecording.ts:219-229 | the in-place resume performs `AfterResume` |
| `Recording.Recorder.Tick` | src/hooks/useRecording.ts:120-122 | one second of the clock performs `AfterTick` |
| `Recording.Recorder.Stop` | src/hooks/useRecording.ts:172-204 | the in-place stop performs `AfterStop` and returns the blob the stop handler transcribes |
| `Recording.Recorder.ReleaseStreams` | src/hooks/useRecording.ts:186-199 | the three streams are released and nothing else changes |
| `Recording.Recorder.ProcessAudioBlob` | src/hooks/useRecording.ts:134-170 | the in-place transcription performs `AfterTranscription` |
| `Recording.Recorder.SetTranscript` | src/hooks/useRecording.ts:20 | only the transcript changes |
| `ModelSelection.Resolve` | src/hooks/useModelSelection.ts:33-43 | the remembered name when it is set and listed, else the first listed model; no new selection exactly when the list is empty; whatever is picked is listed |
| `ModelSelection.UnlistedCacheReplaced` | src/hooks/useModelSelection.ts:35-43 | a remembered name missing from a non-empty list gives way to the first listed model |
| `ModelSelection.GpuVram` | src/hooks/useModelSelection.ts:30 | the probe's bytes, or null exactly when the probe found no GPU |
| `ModelSelection.FirstFailure` | src/hooks/useModelSelection.ts:22-25 | the load fails exactly when one of the two calls fails, reporting the listing's failure first |
| `ModelSelection.Picker.constructor` | src/hooks/useModelSelection.ts:6-10 | nothing selected or listed, no memory figure, loading, no error |
| `ModelSelection.Picker.LoadModels` | src/hooks/useModelSelection.ts:16-52 | on failure only the error changes (its message or "Failed to load models") and the store is untouched; on success the list and memory figure are replaced, the selection resolved, the store written only when the first model is taken, and with a non-empty list the selection is listed and stored; loading ends either way |
| `ModelSelection.Picker.SelectModel` | src/hooks/useModelSelection.ts:54-57 | the name is selected and stored under "pecho-selected-model", listed or not; nothing else changes |
| `LanguageHelpers.Find` | src/helpers/language-helpers.ts:43-45 | `find` gives an entry of the table with that code, or none when no entry has it |
| `LanguageHelpers.FindEntry` | src/helpers/language-helpers.ts:43-45 | in a table with distinct codes, looking up entry i's code gives entry i |
| `LanguageHelpers.SupportedCodesDistinct` | src/helpers/language-helpers.ts:7-21 | the thirteen codes are pairwise distinct |
| `LanguageHelpers.SupportedEntriesNamed` | src/helpers/language-helpers.ts:7-21 | every entry has a non-empty speech-engine name and display name, so the lookups never fall back for a supported code |
| `LanguageHelpers.LookupSupported` | src/helpers/language-helpers.ts:42-54 | a supported code gives its own entry's speech-engine name and display name |
| `LanguageHelpers.LookupUnsupported` | src/helpers/language-helpers.ts:42-54 | any other code gives "english" and "English" |
| `LanguageHelpers.WhisperLanguageCode` | src/helpers/language-helpers.ts:42-47 | the answer is always the speech-engine name of some supported language |
| `LanguageHelpers.LanguageName` | src/helpers/language-helpers.ts:49-54 | the answer is always the display name of some supported language |
| `LanguageHelpers.TranscriberLanguage` | src/helpers/language-helpers.ts:26-28 | the stored code, or "en" when absent or empty; never empty |
| `LanguageHelpers.SummaryLanguage` | src/helpers/language-helpers.ts:34-36 | the stored code, or "en" when absent or empty; never empty |
| `LanguageHelpers.SetTranscriberLanguage` | src/helpers/language-helpers.ts:30-32 | the code reads back (the empty code as "en") and the summary language is unchanged |
| `LanguageHelpers.SetSummaryLanguage` | src/helpers/language-helpers.ts:38-40 | the code reads back (the empty code as "en") and the transcriber language is unchanged |
| `Storage.LocalStorage.GetItem` | src/helpers/language-helpers.ts:27 | `getItem` gives the stored string exactly when the key is stored, and null otherwise |
| `Storage.LocalStorage.SetItem` | src/helpers/language-helpers.ts:31 | `setItem` stores the value under the key, which then reads it back, and every other key reads as before |
| `WhisperHelpers.WhisperModelsTable` | src/helpers/whisper-helpers.ts:13-32 | exactly three entries, tiny, base and small in that order, with distinct ids |
| `WhisperHelpers.GetWhisperModel` | src/helpers/whisper-helpers.ts:36-39 | the stored string, or the tiny model when nothing or "" is stored; never empty |
| `WhisperHelpers.StoredModelReturnedAsIs` | src/helpers/whisper-helpers.ts:38 | a stored non-empty value is returned unchanged, even one that is not a known id |
| `WhisperHelpers.SetWhisperModel` | src/helpers/whisper-helpers.ts:41-43 | the next read gives the model back |
| `OllamaService.WrapError` | src/services/ollama-service.ts:51-53 | the message starts with the prefix |
| `OllamaService.WrapErrorRecoversCause` | src/services/ollama-service.ts:19-24 | after the prefix comes the cause's message, or "Unknown error" for a thrown non-error |
| `OllamaService.Project` | src/services/ollama-service.ts:14-18 | same length and order, each entry keeping exactly name, modified time and size |
| `OllamaService.GetAvailableModels` | src/services/ollama-service.ts:11-25 | the projected list, or the failure wrapped with "Failed to fetch Ollama models: " |
| `OllamaService.SummaryRequest` | src/services/ollama-service.ts:27-46 | model defaults to "llama3.2"; exactly a system message with the fixed prompt then a user message whose content is the fixed prefix followed by the transcript; not streamed |
| `OllamaService.SummaryRequestInjective` | src/services/ollama-service.ts:42 | the request carries the transcript verbatim: equal requests mean equal transcripts |
| `OllamaService.SummarizeTranscript` | src/services/ollama-service.ts:27-55 | the reply's content, or the failure wrapped with "Failed to summarize transcript: " |
| `OllamaService.CheckOllamaConnection` | src/services/ollama-service.ts:57-65 | true exactly when listing succeeds |
| `WhisperService.AudioBufferToFloat32Array` | src/services/whisper-service.ts:46-52 | channel 0 of the buffer |
| `WhisperService.Transcriber.constructor` | src/services/whisper-service.ts:4 | no pipeline held, nothing loaded yet |
| `WhisperService.Transcriber.InitializeWhisper` | src/services/whisper-service.ts:6-22 | a held pipeline is returned without loading; otherwise the tiny English model is loaded once, and held only if the load succeeds |
| `WhisperService.Transcriber.TranscribeAudio` | src/services/whisper-service.ts:24-43 | the text of the held pipeline run without timestamps in English, or the load or inference failure wrapped with "Failed to transcribe audio: "; a held pipeline is never reloaded, and with none held exactly the freshly loaded pipeline is held and run, while a failed load gives the wrapped error |
| `WhisperService.TranscribeTwice` | src/services/whisper-service.ts:6-43 | once a pipeline is held, later transcriptions never call the loader |
| `HomePage.TwoDigitsOf` | src/routes/index.tsx:71 | below 100, `padStart(2, "0")` of the number gives two digits that read back as the number |
| `HomePage.FormatDuration` | src/routes/index.tsx:68-72 | the display has at least four characters, with the colon third from the end; `HomePage.ParseFormatDuration` states that it reads back as the duration |
| `HomePage.FormatDurationParts` | src/routes/index.tsx:68-72 | the display ends with a colon and two digits below 60, and minutes·60 + seconds is the duration |
| `HomePage.ParseFormatDuration` | src/routes/index.tsx:68-72 | every display reads back as the duration it shows |
| `HomePage.FormatDurationInjective` | src/routes/index.tsx:68-72 | different durations have different displays |
| `HomePage.ExportSummaryIff` | src/routes/index.tsx:142-155 | the summary section is present exactly when the summary is non-empty, between the transcript section and the footer |
| `HomePage.ExportDocument` | src/routes/index.tsx:142-155 | the document starts with "# Meeting Summary\n\n" and ends with "---\n*Generated with Personal Echo*\n" |
| `HomePage.ReplaceSeparators` | src/routes/index.tsx:139 | every ':' and '.' becomes '-', every other character is kept |
| `HomePage.ExportFilename` | src/routes/index.tsx:139-140 | "meeting-summary-", the timestamp with separators replaced, then ".md": no colon and no dot outside the extension |
| `HomePage.CanSummarizeIff` | src/routes/index.tsx:95 | the handlers' guard holds exactly when the trimmed text and the selected name are non-empty |
| `HomePage.CanSummarize` | src/routes/index.tsx:95 | the guard of both summarizing handlers is false for text that is all whitespace |
| `HomePage.Page.constructor` | src/routes/index.tsx:62-66 | no summary, not processing, no error, empty input, not in manual mode |
| `HomePage.Page.HandleStartRecording` | src/routes/index.tsx:74-79 | the summary and its error are cleared and manual mode is left, then the recording starts as `AfterStart` |
| `HomePage.Page.HandleStopRecording` | src/routes/index.tsx:81-85 | stopping, then transcribing the stopped recorder's blob when there is one |
| `HomePage.Page.HandleManualInput` | src/routes/index.tsx:87-92 | an empty input box in manual mode, with no summary or error |
| `HomePage.Page.RunSummary` | src/routes/index.tsx:119-134 | the reply becomes the summary with no error, or the failure's message (or the fallback) becomes the error with the summary kept; processing ends |
| `HomePage.Page.HandleProcessManualInput` | src/routes/index.tsx:94-115 | when allowed, the typed text becomes the transcript before the call; manual mode is left only on success; failure keeps the summary and sets its message or "Failed to process transcript"; otherwise nothing changes |
| `HomePage.Page.HandleGenerateSummary` | src/routes/index.tsx:117-136 | when allowed, the transcript is summarized; failure keeps the summary and sets its message or "Failed to generate summary"; otherwise nothing changes |
| `HomePage.Page.HandleExport` | src/routes/index.tsx:138-155 | the file name and the document built by successive appends are the export file name and document for the current transcript, duration and summary |

## Left out

- Calls between processes are not modelled: the listeners, the context bridge and the channel names. The renderer receives the main-process answers as inputs, and the extra text such a call adds to a rethrown error message is not modelled.
- The settings page, the rendered markup, the icons and the translation setup are not modelled.
- Floating-point samples are not modelled. Decoded audio is a sequence of opaque 32-bit samples per channel, and resampling to 16 kHz belongs to the decoder input.
- Concurrency is not modelled: overlapping handler calls, the order in which two failing calls reject together, and two transcriptions both finding no pipeline. Every operation runs to completion before the next.
- `console` logging is not modelled.
- `SystemInfo.GetNvidiaVRAMMap`: a line whose first field has no digits, or that has no comma, is dropped from the table. The match and the fallback are then computed over the remaining well-formed lines. The code stores such lines instead, and the outcomes differ:
  - A line with no comma gets an `undefined` name (`NaN` memory when it has no digits either). The matching loop's `includes` call on that name throws, and the probe answers null. The model answers with the match or the fallback over the other lines. For output `8192, Quadro` then `4096` and a GeForce reported at 4096 MiB, the code answers null and the model answers 8192 MiB. Empty tool output is one such line, and the code answers null there too.
  - A line with a name but no digits, such as `[N/A], Tesla T4`, is stored with `NaN` memory. When that name is the first match, the code answers `NaN`. When that entry is first and nothing matches, the code keeps the reported memory, because `NaN` is falsy and the fallback is skipped. The model matches and falls back only among the lines with digits.
- `JsStrings.ToLower`: lower-cases ASCII letters only. Vendor strings are compared against ASCII words.
- `Recording.AfterStart`: the microphone outcome also stands for the audio context failing to open. The model does not cover `mediaRecorder.start()` throwing after the recorder ref is set. Nor does it cover two failures that happen after a stream ref is set. Connecting the microphone source can throw after the microphone ref is set, and the code then reports the failure with the microphone stream still held, where the model's microphone failure leaves the streams as they were. Connecting the system audio or stopping its video track can throw after the system ref is set, and the code then shows the system-audio note with the system stream held, where the model's declined capture holds no new system stream.
- `Recording.StopBlob`: the blob is taken when stop is called. A last data event that the recorder fires after `stop()` and before its stop handler runs appears in the model as a `DataAvailable` before `Stop`.
- `Recording.AfterTranscription`: the model shows the state once transcription has finished. The intermediate `isTranscribing = true` and the audio context opened and closed around decoding are not visible.
- `ModelSelection.FirstFailure`: when both calls fail, the listing's failure is reported. In the code, whichever rejection settles first wins.
- `WhisperService.Transcriber.InitializeWhisper`: the loader takes only the model id. The task name and the cache directory are fixed arguments and are not modelled.
- `HomePage.Page.HandleExport`: the download itself (the blob, the object URL and the link click) is not modelled. The current time's two renderings are parameters.
- The page's pause, resume and stop buttons call the recording operations directly; they are modelled there. `loadModels` runs once when the page mounts and is modelled as `ModelSelection.Picker.LoadModels`; the hook also exposes `refreshModels`, which calls it again, but no page uses it.
