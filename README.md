# BiliBili-Transcribe core, modelled in Dafny

This project models the sequential logic of a backend that takes a Bilibili
video id (a "BV number"), downloads the audio, transcribes it with one of three
backends and records each job's progress. It also models the pure helpers the
browser frontend uses to manage the transcription history.

Modules, one per source file, plus three shared helper modules:

- `Outcomes` (helper): `Option`, and `Result` for the value a Python call
  returns or the exception it raises (`Failure` = exception class + `str(e)`).
- `Text` (helper): decimal rendering, Python `strip()` / JavaScript `trim()`,
  ASCII lower-casing, substring search, `split` and `join`.
- `Host` (helper): the process environment (`Environment` class over a
  `map<string, string>`) and the filesystem (`Disk` class over sets of files
  and directories).
- `Utils` (utils.py): the progress store as a class with a
  `map<string, Record>` field. It supports `Update` (last write wins), `Get`
  and `Cleanup` (the one-hour sweep, run as a loop over a snapshot of the
  keys). The module also has the BV-id validator, the enabled-backend flags
  and the maximum video duration.
- `SubtitleUtils` (subtitle_utils.py, and the copy of `format_time` and
  `generate_srt` at utils.py:60-75, which differs only in importing
  `datetime` inside the function and is modelled once): `format_time` on integer microseconds
  below one day, and `generate_srt` as the loop that accumulates SRT blocks.
- `CloudFasterWhisper` (cloud_faster_whisper.py): result normalisation,
  saving, overriding and restoring the proxy variables, the three-attempt
  connect loop, and `transcribe` with its `finally`.
- `TranscriptionService` (transcription_service.py): the factory, and the
  local and OpenAI backends' construction checks and `transcribe`.
- `Services` (services.py): `download_bilibili_audio` with its progress
  protocol, `transcribe_audio`, and `cleanup_files`.
- `Routes` (routes.py): the branch logic of `/api/transcribe`,
  `/api/progress` and `/api/export_srt`, and the `temp_files_to_delete`
  bookkeeping.
- `History` (frontend/src/App.js): history add, delete, update and bulk
  delete, checkbox selection, search filter, pagination, tag parsing, the
  Chinese character count and the timestamp label.

Time is an integer parameter `now` (seconds) for the progress store. Subtitle
times are whole microseconds. The frontend's sentence times are whole seconds.
Every foreign call is a parameter holding its outcome, either a value or a
`Failure`. The foreign calls are yt_dlp's `extract_info`, faster-whisper's
model, the OpenAI client, gradio's `Client` and `predict`, and `json.loads`.
Whether the operating system allows a deletion is a boolean parameter (or a
set of permitted paths).

The model follows the code as written, also where it behaves in ways a
reader might not expect:

- `format_time` prints unpadded hours. It prints `0:00:01,500` for 1.5 s,
  not `00:00:01,500`, and gives `H:MM` for a whole number of seconds (see
  Findings).
- `_process_transcription` aborts the whole call when one segment lacks
  `start`, `end` or `text`. It does not skip that segment. It also has no
  branch for a dictionary-shaped result: a dictionary is "some other type"
  and raises ValueError.
- In `/api/transcribe`, `transcribe_audio` never raises. The handler's
  `except` branch is therefore reached only through its own
  `Exception("转写失败")`, so the recorded detail is always
  `"转写失败: 转写失败"` (`Routes.TranscriptionFailedMessage`).
- Nothing in the code ever adds a name to `temp_files_to_delete`; the model
  keeps the two functions that remove names from it.

## Model

| member | source | states |
|---|---|---|
| `Utils.ProgressStore.Update` | utils.py:18-24 | the record for the key becomes exactly `{status, details, now}`; every other key is unchanged (last write wins); the call is one more write in the log, replayed over the old mapping |
| `Utils.ProgressStore.Get` | utils.py:26-28 | returns the stored record when the key is present, and the empty answer otherwise; changes nothing |
| `Utils.ProgressStore.Cleanup` | utils.py:30-35 | the loop over a key snapshot leaves exactly `Swept(old entries, now)` |
| `Utils.Swept` | utils.py:31-35 | a record stays iff `now - timestamp <= 3600`, so a record exactly one hour old survives; no key is added and survivors are unchanged |
| `Utils.SweptIdempotent` | utils.py:33-35 | a second sweep at the same time removes nothing more |
| `Utils.SweptCompose` | utils.py:33-35 | an earlier sweep followed by a later one equals the later sweep alone |
| `Utils.FreshWriteSurvives` | utils.py:18-24 | a record written at `t` survives a sweep at `now` iff `now <= t + 3600` |
| `Utils.ReplayedLastWins` | utils.py:18-24 | over a whole history of writes, a key holds the record of the last write that names it, whatever other keys were written before or after |
| `Utils.ReplayedUntouched` | utils.py:18-24 | a key none of the writes names keeps its old record, or stays absent |
| `Utils.ReplayedSnoc` | utils.py:18-24 | one more `update_progress` call is one more overwrite of the replayed map |
| `Utils.ReplayedAppend` | utils.py:18-24 | replaying two runs of `update_progress` calls one after the other equals replaying them joined |
| `Utils.ReplayedSince` | utils.py:18-24 | two consecutive stretches of calls compose: the mapping is the original with every write since the start replayed over it |
| `Utils.ValidateBvId` | utils.py:54-58 | succeeds, returning the id unchanged, iff it is "BV" + 10 ASCII letters or digits with at most one final newline (Python `$`); otherwise ValueError "无效的BV号" |
| `Utils.ValidateIdempotent` | utils.py:54-58 | a validated id validates again to the same result |
| `Utils.EnvFlag` | utils.py:88 | a flag is on iff its variable is unset or lower-cases to "true" |
| `Utils.GetEnabledTranscribers` | utils.py:86-91 | each of the three flags follows its own variable, default "true" |
| `Utils.ParseInt` | utils.py:94 | `int(s)` succeeds iff `s` is an optional sign followed by at least one digit |
| `Utils.GetMaxVideoDuration` | utils.py:93-94 | 3600 when `MAX_VIDEO_DURATION` is unset, else `int()` of its value, which may raise ValueError |
| `Utils.MaxVideoDurationReadsDecimal` | utils.py:94 | a limit written in decimal, with or without a minus sign, is read back exactly |
| `SubtitleUtils.FormatTimeShape` | subtitle_utils.py:3-5 | `format_time` (`str(timedelta)` with `.` replaced by `,` and the last three characters cut) is `H:MM:SS,mmm` (unpadded hours, milliseconds truncated) when there is a sub-second part, and `H:MM` otherwise |
| `SubtitleUtils.FormatTimeFractionExample` | subtitle_utils.py:3-5 | 1.5 s renders as `0:00:01,500` |
| `SubtitleUtils.GenerateSrt` | subtitle_utils.py:7-17 | the loop yields the stripped concatenation of blocks numbered 1, 2, ..., each being index, `start --> end` and stripped text; an empty transcript gives "" and the result never begins or ends with whitespace |
| `SubtitleUtils.AccumulateBlocks` | subtitle_utils.py:9-15 | after the loop the accumulated text is exactly the blocks of every segment in order, numbered from 1, each followed by a blank line |
| `SubtitleUtils.BlocksJoined` | subtitle_utils.py:10-15 | the accumulated text is the blocks joined by one blank line, followed by one blank line |
| `SubtitleUtils.JoinedBlocksStart` | subtitle_utils.py:10-15 | numbering starts at 1: the text starts with "1", a newline and a timestamp digit |
| `SubtitleUtils.SrtLayout` | subtitle_utils.py:8-17 | for a non-empty transcript, the SRT text is the blank-line-joined blocks with only trailing whitespace removed, and it starts with block 1 |
| `SubtitleUtils.FormatTimeWholeSecondCounterexample` | subtitle_utils.py:5 | 0 s and 1 s both render as `0:00` |
| `SubtitleUtils.WholeSecondsUnderAMinute` | subtitle_utils.py:5 | every whole number of seconds below one minute renders as `0:00`: the seconds are lost |
| `SubtitleUtils.SrtWholeSecondExample` | subtitle_utils.py:5 | the SubRip timestamps of the same two times are `00:00:00,000` and `00:00:01,000` |
| `SubtitleUtils.FractionUnderTenSeconds` | subtitle_utils.py:3-5 | a time below ten seconds with a sub-second part renders as `0:00:0s,mmm`, hours unpadded and milliseconds truncated |
| `SubtitleUtils.SrtTimestamp` | subtitle_utils.py:3-5 | the intended SubRip timestamp is 12 characters, `HH:MM:SS,mmm` |
| `SubtitleUtils.SrtTimestampRoundTrip` | subtitle_utils.py:3-5 | reading the intended timestamp back gives the time truncated to milliseconds |
| `CloudFasterWhisper.TimeField` | cloud_faster_whisper.py:61-62 | `float(segment[key])` succeeds iff the segment is a record whose field `key` is a number or a string `float()` accepts, and gives that value; a non-record raises the subscript TypeError of its type, a missing key KeyError `'key'`, a rejected string ValueError "could not convert string to float: ...", and null TypeError |
| `CloudFasterWhisper.TextField` | cloud_faster_whisper.py:63 | `segment['text'].strip()` succeeds iff the field is a string, and gives it stripped; a non-record raises the subscript TypeError, a missing key KeyError `'text'`, and any other value AttributeError "'<type>' object has no attribute 'strip'" |
| `CloudFasterWhisper.ConvertItem` | cloud_faster_whisper.py:60-64 | a segment converts iff all three fields convert; start and end are kept and the text is stripped |
| `CloudFasterWhisper.ConvertAllOk` | cloud_faster_whisper.py:58-65 | the conversion succeeds iff every segment converts, and then holds each segment's conversion at its own index: same length, same order |
| `CloudFasterWhisper.ConvertAllErr` | cloud_faster_whisper.py:59-64 | a failed conversion carries the error of the first segment that fails; nothing partial is returned |
| `CloudFasterWhisper.ItemsOf` | cloud_faster_whisper.py:48-59 | a string that does not parse, or a value that is neither a string nor a list, is a ValueError; a list, or a text that decodes to an array, is taken as it is; a text that decodes to an object or a string is iterated as its keys or characters, all strings; one that decodes to a number, boolean or null raises TypeError "'<type>' object is not iterable" |
| `CloudFasterWhisper.ProcessTranscription` | cloud_faster_whisper.py:47-65 | returns exactly `Normalize(result)`; an unparsable string raises ValueError "无法解析转写结果" and any type other than a string or list raises ValueError |
| `CloudFasterWhisper.ConvertSegments` | cloud_faster_whisper.py:58-65 | the appending loop returns exactly `ConvertAll`: every segment converted in order, or the first failing segment's error |
| `CloudFasterWhisper.FirstFailureUnique` | cloud_faster_whisper.py:59-64 | the error reported is that of the first failing segment |
| `CloudFasterWhisper.Overridden` | cloud_faster_whisper.py:18-19 | both proxy variables hold the proxy URL and every other variable is unchanged |
| `CloudFasterWhisper.RestoreKey` | cloud_faster_whisper.py:69-77 | a non-empty saved value is put back; otherwise the key is removed; other keys are untouched |
| `CloudFasterWhisper.RestoreIdempotent` | cloud_faster_whisper.py:67-77 | restoring twice equals restoring once |
| `CloudFasterWhisper.RestoreFrame` | cloud_faster_whisper.py:67-77 | restoring touches no variable other than the two proxy keys |
| `CloudFasterWhisper.OverrideThenRestore` | cloud_faster_whisper.py:15-19 | override followed by restore gives back the original environment, except that a proxy variable that was set to "" comes back unset |
| `CloudFasterWhisper.CloudFasterWhisperTranscriber.constructor` | cloud_faster_whisper.py:11-19 | with the proxy on, the two old values are saved and both variables are set to the proxy URL; with it off, the environment is untouched |
| `CloudFasterWhisper.CloudFasterWhisperTranscriber.Connect` | cloud_faster_whisper.py:21-29 | between 1 and 3 attempts, stopping at the first success; after the third failure the proxy is restored and the error names the last reason |
| `CloudFasterWhisper.CloudFasterWhisperTranscriber.RestoreProxySettings` | cloud_faster_whisper.py:67-77 | the environment becomes `Restored(old, ...)` for this instance's saved values |
| `CloudFasterWhisper.CloudFasterWhisperTranscriber.Transcribe` | cloud_faster_whisper.py:31-45 | a missing file raises FileNotFoundError with the environment untouched; otherwise the result is normalised or the service's error, and the proxy is restored either way |
| `CloudFasterWhisper.NewCloudFasterWhisper` | cloud_faster_whisper.py:11-29 | construction succeeds iff one of the three attempts connects. An instance with the proxy on remembers the two old proxy values and leaves both variables set to the proxy URL; with the proxy off the environment is untouched. A failure raises the error naming the third attempt's reason, and leaves the environment as override followed by restore (proxy on) or untouched (proxy off) |
| `TranscriptionService.ParseBackend` | transcription_service.py:90-99 | only the exact names "faster_whisper", "openai" and "cloud_faster_whisper" name a backend |
| `TranscriptionService.BackendNameRoundTrip` | transcription_service.py:90-97 | every backend's name selects that backend |
| `TranscriptionService.SelectBackend` | transcription_service.py:89-99 | an unknown name raises "Unsupported transcriber type: name"; "faster_whisper" without a non-empty model path raises ValueError before any construction |
| `TranscriptionService.NewFasterWhisper` | transcription_service.py:20-32 | construction succeeds iff the path is a directory and the model loads; a non-directory raises ValueError "Invalid model path: ..." |
| `TranscriptionService.Extracted` | transcription_service.py:46-53 | same count and order; start, end and text copied unchanged, with no stripping |
| `TranscriptionService.FasterWhisperTranscribe` | transcription_service.py:34-56 | a missing file raises FileNotFoundError before the model runs; otherwise the loop returns `Extracted(segments)` or the model's error |
| `TranscriptionService.NewOpenAI` | transcription_service.py:59-64 | construction succeeds iff both the base URL and the key are set and non-empty |
| `TranscriptionService.OpenAITranscribe` | transcription_service.py:69-85 | opening a missing file raises FileNotFoundError; otherwise the service's plain text or its error |
| `TranscriptionService.Construction` | transcription_service.py:88-99 | what the factory builds: a selection error is raised as it is; a successful build is of the backend the name selects; the hosted service is built iff one of its three connection attempts succeeds |
| `TranscriptionService.GetTranscriber` | transcription_service.py:88-99 | builds a backend of the kind `Construction` names, or raises `Construction`'s error; the local and OpenAI backends are built from the model path and the environment; only the hosted service touches the environment, leaving the proxy overridden on success and restored on failure, as `NewCloudFasterWhisper` states |
| `TranscriptionService.BackendOutcome` | transcription_service.py:34-85 | on every backend a missing file raises FileNotFoundError; a transcript is plain text exactly for the OpenAI backend |
| `TranscriptionService.Transcribe` | transcription_service.py:34-85 | the outcome on the built backend is `BackendOutcome` for its kind; the local and OpenAI backends and a missing file leave the environment alone; otherwise the hosted service restores the proxy variables |
| `TranscriptionService.LocalKeepsTextCloudStrips` | transcription_service.py:46-53 | the local backend keeps a text verbatim, while the hosted service strips the same text |
| `Services.DownloadedPath` | services.py:65-68 | the first requested download's `filepath` when the list is non-empty, else (an empty list or `null`) the prepared file name; a missing `requested_downloads` or `filepath` key raises KeyError |
| `Services.DownloadOf` | services.py:59-70 | the returned tuple is (id, title, path, duration or 0) iff the path, `id` and `title` can be read; otherwise the first missing key's KeyError |
| `Services.DurationOrZero` | services.py:59-62 | a missing post-download duration becomes 0 |
| `Services.Reraised` | services.py:71-80 | a downloader error is raised again as ValueError with the same message; any other error is re-raised as it was |
| `Services.TryDownload` | services.py:40-70 | '正在下载音频' is written iff the probe, the limit, the duration gate and the formats check pass; a download error stops after it; otherwise '音频下载完成' follows and the outcome is `DownloadOf` the report, which may still be a KeyError; a success always wrote both statuses |
| `Services.DownloadProtocol` | services.py:18-80 | an invalid id records '下载失败' and returns the all-None tuple; success records the four statuses in order; every later failure ends with '下载失败' and the message and is raised again |
| `Services.DownloadWritesStatuses` | services.py:18-80 | every progress write of a download is keyed by the id and carries one of the five download statuses |
| `Services.DurationGate` | services.py:45-55 | a video strictly longer than the limit is refused with ValueError, and a probe without formats with "未找到可用的音频格式", both recorded as '下载失败' right after the first two statuses, with no '正在下载音频'; otherwise the download starts |
| `Services.RefusedBeforeDownload` | services.py:45-53 | whatever stops the download before it starts (the probe, the limit, the duration gate or the formats check) is an error recorded as '下载失败' right after the first two statuses, with no '正在下载音频' |
| `Services.MissingKeyAfterDownload` | services.py:57-80 | a key missing from the download's report raises KeyError after '音频下载完成'; it is recorded as '下载失败' after the four progress statuses and raised again unchanged |
| `Services.DownloadBilibiliAudio` | services.py:18-80 | the step-by-step writes and result equal those of `DownloadRun` |
| `Services.TryDownloadSteps` | services.py:40-70 | the try block's steps equal `TryDownload`, with their progress writes |
| `Services.FetchSteps` | services.py:55-70 | once the gate has passed: '正在下载音频', the download, '音频下载完成'; outcome and writes equal `TryDownload`'s |
| `Services.TranscriptionNeedsFileAndBackend` | services.py:84-98 | a transcript comes only from an existing file through a backend the type names exactly, and is plain text exactly for "openai"; an unknown type fails with "Unsupported transcriber type: ..." |
| `Services.TranscribeAudio` | services.py:84-98 | the transcript is that of `TranscriptionOutcome` (building the backend, then transcribing), and the failure is its error; the environment becomes `EnvAfter`; progress is keyed by the audio file name; a construction error writes only '转写失败'; otherwise '正在转写音频' then '转写完成' or '转写失败' with the message; nothing is raised |
| `Services.TranscriptionEnvironment` | services.py:88-98 | in the model of `transcribe_audio` no variable but the two proxy variables changes; with the hosted backend and the proxy on they come back as they were (one that held "" comes back unset) when the connection fails or the file exists, and stay pointed at the proxy when it connects but the file is missing (the omitted finalizer would restore them); with any other backend, or the proxy off, the environment is unchanged |
| `Services.RunTranscriber` | services.py:90-98 | once the backend is built: the transcript or failure is the backend's `BackendOutcome`; only the hosted backend, when the file exists, changes the environment, by restoring the proxy variables; '正在转写音频', then '转写完成', or '转写失败' with the message |
| `Services.Conclude` | services.py:92-98 | after '正在转写音频': the transcript is the backend's value and the failure its error; '转写完成' or '转写失败' with the error's message |
| `Services.CleanupFiles` | services.py:100-109 | never raises; removes the file when it exists and deletion is permitted, else leaves the disk as it was |
| `Routes.TranscriberArgument` | routes.py:69 | an absent `transcriber_type` is "faster_whisper", a given one is passed as it is, and `null` reaches the factory as `None` |
| `Routes.HandleTranscribe` | routes.py:64-104 | the answer is `TranscribeResponse`: a missing `bvId` is an uncaught KeyError, a `null` one an uncaught TypeError, an invalid one 400, all with nothing written, deleted or changed in the environment; past validation the store and disk change as `JobEffects` says (earlier writes kept and the progress map the old one with the request's writes replayed over it, so only `update_progress` overwrites; '开始处理' first, no '开始音频转写' before a 400 for a missing file, the audio removed and '处理完成' or '转写失败' last), and the environment becomes `JobEnv`, which is `Services.EnvAfter` when a file was transcribed and unchanged otherwise |
| `Routes.ValidResponse` | routes.py:67-74 | past validation, the answer is the job's answer for the download of that id |
| `Routes.TranscriptReturnedUnchanged` | routes.py:78-104 | once the file is downloaded, the answer carries a transcript exactly when the transcription produced one, and then that transcript as it came, with the title, the id and the duration; otherwise 500 "转写失败: 转写失败" |
| `Routes.NullTranscriberTypeFails` | routes.py:69-104 | a `null` `transcriber_type` makes the factory raise, so a downloaded job answers 500 |
| `Routes.TooLongVideoUncaught` | routes.py:74 | a video over the configured limit makes the download raise ValueError with the limit message, which the handler does not catch |
| `Routes.RunJob` | routes.py:73-104 | the answer is `JobResponse` for the download of the id; the store and disk change as `JobEffects` says (earlier writes kept, the progress map the old one with the job's writes replayed over it), and the environment becomes `JobEnv` |
| `Routes.StartAndDownload` | routes.py:73-74 | the store's earlier writes are kept, '开始处理' is written next, the outcome is that of `download_bilibili_audio`, no write of the call is '开始音频转写', and the progress map is the old one with the call's writes replayed over it |
| `Routes.AfterDownload` | routes.py:74-104 | the answer is `JobResponse` for the download's outcome; an exception from the download propagates and a missing path or file gives 400 '音频下载失败或文件不存在', both with nothing written and nothing deleted; otherwise the transcription path runs and removes the file; on every path earlier writes are kept and the progress map is the old one with the call's writes replayed over it; the environment becomes `JobEnv` |
| `Routes.TranscribeDownloaded` | routes.py:78-104 | the answer is the transcription's transcript unchanged, with the title, id and duration, or 500 "转写失败: 转写失败"; the audio file is removed on both outcomes; the final write is '处理完成' or '转写失败'; earlier writes are kept and the progress map is the old one with the call's writes replayed over it; the environment becomes `Services.EnvAfter` for that file |
| `Routes.DownloadWritesNoTranscriptionStatus` | routes.py:73-76 | no write of a download run is '开始音频转写' |
| `Routes.HandleProgress` | routes.py:106-117 | an invalid id gives 400; a valid one gives 404 exactly when it has no record, else the record |
| `Routes.HandleExportSrt` | routes.py:119-168 | a missing or empty transcript or title gives 400 with nothing generated; a segment list is sent as `<title>.srt`; a plain-text transcript fails inside `generate_srt` on its first character and gives 500 with the prefix and the `str` subscript TypeError message |
| `Routes.TempFileRegistry.DelayedDelete` | routes.py:40-47 | the file is unlinked if present and its name is discarded, unless the unlink raises |
| `Routes.TempFileRegistry.CleanupTempFiles` | routes.py:51-59 | removes every registered file it may delete and leaves the set empty |
| `History.AddToHistory` | frontend/src/App.js:230-233 | the new entry first, then the old history |
| `History.DeleteEntry` | frontend/src/App.js:235-238 | keeps exactly the entries with a different id |
| `History.DeleteEntryAppend` | frontend/src/App.js:235-238 | deleting works piecewise, so survivors keep their order |
| `History.DeleteIdempotent` | frontend/src/App.js:235-238 | deleting twice equals deleting once |
| `History.AddThenDelete` | frontend/src/App.js:230-238 | adding an entry and then deleting its id equals deleting that id from the old history |
| `History.UpdateEntry` | frontend/src/App.js:240-245 | same length; exactly the entries with the updated id are replaced |
| `History.UpdateProperties` | frontend/src/App.js:240-245 | an update keeps the id list, changes nothing outside its id, and is idempotent |
| `History.CheckboxChange` | frontend/src/App.js:153-160 | ticking appends the id even if it is already present; unticking removes every copy and keeps the other ids |
| `History.TickUntick` | frontend/src/App.js:153-160 | ticking then unticking an id removes all its copies and leaves the others |
| `History.BulkDelete` | frontend/src/App.js:415-419 | every entry whose id is ticked is dropped, and the selection is emptied |
| `History.BulkIsRepeatedDelete` | frontend/src/App.js:415-419 | a bulk delete equals one `deleteEntry` per ticked id |
| `History.FilteredHistory` | frontend/src/App.js:373-378 | keeps exactly the entries whose title or id contains the term, ignoring case |
| `History.FilteredAppend` | frontend/src/App.js:373-378 | filtering works piecewise over concatenation, so matching entries keep their order and every copy is kept |
| `History.EmptySearchKeepsAll` | frontend/src/App.js:373-378 | an empty search shows the whole history |
| `History.Page` | frontend/src/App.js:389-392 | page p shows items `[(p-1)*10, p*10)` clipped to the list, and never more than 10 |
| `History.TotalPages` | frontend/src/App.js:394 | `ceil(n/10)`: the smallest page count covering n items |
| `History.FirstPagesPrefix` | frontend/src/App.js:389-394 | the first k pages are the first 10k items |
| `History.PagesCoverHistory` | frontend/src/App.js:389-394 | pages 1..totalPages together are the whole list, each of them is non-empty, and later pages are empty |
| `History.ParseTags` | frontend/src/App.js:712 | every tag is non-empty, has no surrounding whitespace and contains no comma |
| `History.TagsRoundTrip` | frontend/src/App.js:709-712 | showing clean tags joined by ", " and parsing the text back gives the same tags |
| `History.CountChineseCharacters` | frontend/src/App.js:365-370 | counts characters in U+4E00..U+9FA5; never more than the length, and equal to it iff every character is one |
| `History.CountTranscriptIsSum` | frontend/src/App.js:366-369 | the count over the joined texts is the sum of the per-segment counts |
| `History.Pad2` | frontend/src/App.js:43 | `padStart(2, '0')` keeps the value and gives two digits below 100 |
| `History.FormatClock` | frontend/src/App.js:40-44 | `MM:SS`, five characters under 100 minutes |
| `History.ClockRoundTrip` | frontend/src/App.js:40-44 | a label reads back as the time it shows |
| `History.FormatClockInjective` | frontend/src/App.js:40-44 | distinct times give distinct labels |
| `History.FormatTimestampShape` | frontend/src/App.js:39-46 | under 100 minutes the label is `MM:SS - MM:SS` and both times can be read off it |

## Findings

| source | as written | input that shows it | evidently intended | confidence | as-written member | corrected member |
|---|---|---|---|---|---|---|
| subtitle_utils.py:5 (and utils.py:63) | `str(timedelta(...)).replace('.', ',')[:-3]` assumes a `.ffffff` part that `timedelta` omits for whole seconds, and leaves hours unpadded | 0 s and 1 s both give `0:00` | the SubRip timestamp `HH:MM:SS,mmm`, which keeps every millisecond | high (not executed) | `SubtitleUtils.FormatTimeWholeSecondCounterexample` | `SubtitleUtils.SrtTimestampRoundTrip` |

The handlers keep the as-written `FormatTime`, because the model describes
what the backend actually sends. `SrtTimestamp` is the corrected rendering,
and its round-trip lemma proves that it loses nothing below a millisecond.

## Left out

- Locking (`PROGRESS_LOCK`), the `threading.Timer` that reschedules the sweep, `start_cleanup_timer` / `stop_cleanup_timer`, `atexit` and signal handling: they only provide concurrency and process lifecycle. The model runs one operation at a time.
- A progress record without a timestamp (read as 0 by the sweep) cannot arise: `update_progress` always writes one, and so does `ProgressStore.Update`.
- `setup_logging`, `save_srt`, `create_direct_connection`, `ProxiedSession` and all logging: thin library wrappers or output only.
- Flask routing, request parsing, CORS, `send_file`, `after_this_request` and the temporary `.srt` file in `export_srt`. The response is modelled as the content and the download name.
- yt_dlp, faster-whisper's `WhisperModel`, the OpenAI client, gradio's `Client` / `predict` and `json.loads` are foreign calls. Their outcomes are parameters. The fixed decoding options (language, initial prompt, VAD) are passed to them and are not modelled.
- `Services.Info`: a report whose `id`, `title` or `filepath` is present but `null` is not modelled; each of these is either missing or a string. A missing key and a `null` `requested_downloads` are modelled.
- `CloudFasterWhisper.Json`: a decoded JSON object is represented by its number of keys, since iterating it gives its keys, which are strings, and the first one fails the subscript.
- `time.sleep(5)` between connection attempts.
- `Services.EnvAfter`: the model omits the cloud backend's `__del__` (cloud_faster_whisper.py:79-80), which CPython runs when `transcribe_audio` returns and drops its local transcriber. So "the proxy variables stay overridden when the service connects but the file is missing" holds for the model only; in the running program that finalizer restores them too. `/api/transcribe` never reaches this case, because it checks that the file exists before transcribing.
- Float times. Segment times are whole microseconds below one day, so `timedelta(seconds=float)` rounding and the "N days, " and negative forms are not modelled. Frontend times are whole seconds, so the float `% 60` of `formatTimestamp` is not modelled either.
- `Utils.EnvFlag`: lower-casing is modelled on ASCII letters only. No other character lower-cases to one of "t", "r", "u" or "e", so the comparison with "true" comes out the same.
- `CloudFasterWhisper.UseProxy`: lower-casing is modelled on ASCII letters only, as for `Utils.EnvFlag`, and for the same reason the comparison with "true" comes out the same.
- `History.FilteredHistory`: `toLowerCase` is modelled on ASCII letters only; Unicode case mapping is not modelled.
- The sort of the history by date (`new Date(...)`) or by title (`localeCompare`) before pagination. It is locale and date parsing. Pagination is modelled on any list.
- `calculateEstimatedTime`, the progress percentage, polling, React rendering, the clipboard, `localStorage` and `fetch`: UI and I/O.
- `CloudFasterWhisper.TimeField`: what `float()` makes of a string field is carried with the value; Python's float syntax (signs, exponents, `inf`, `nan`, `_`) is not modelled, and neither are negative times. The ValueError message quotes the string with plain single quotes, where Python uses `repr`.
- `CloudFasterWhisper.Value`: JSON booleans, lists and dictionaries as segment fields are not modelled; `float(True)` would succeed, for example.
- `CloudFasterWhisper.SubscriptError`: the TypeError messages for a non-record segment follow CPython 3.11 and later; older versions word them differently.
- `Routes.TranscribeRequest`: only absent, `null` and string fields are modelled. A number given as `bvId` or `transcriber_type`, and a body that is not a JSON object, are not.
- `Host.Disk.Exists`: only files count as existing, while `os.path.exists` is also true for a directory. A directory given as the audio path would get past that check and fail later, inside the backend, with a different error.
- Time within one call: every progress write of one handler call carries the same `now`, while the real timestamps increase during the request. Only the sweep reads timestamps.
- The export's temporary file is written as `utf-8-sig`, which puts a byte-order mark before the text. The model's content is the text before encoding.
- `Utils.ParseInt`: Python's `int()` also accepts surrounding whitespace, `_` digit separators and non-ASCII Unicode decimal digits (`int('٣') == 3`); the model accepts only an optional sign followed by ASCII digits.
