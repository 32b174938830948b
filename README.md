# Videonova core, modelled in Dafny

Videonova is a desktop application that dubs online videos. It downloads a
video with yt-dlp, extracts and merges audio with ffmpeg, and transcribes,
translates and re-voices speech through OpenAI. This project models the
logic of its five core components and proves what they promise:

- **Pipeline** (`pipeline_orchestrator.dfy`) models `PipelineOrchestrator`. It is a class with the job's live
  fields. `Run` sets up the temporary directory, ends `completed` or `failed`, and always
  cleans up. `Run` is `Start` (the `try` and `catch`) followed by `Cleanup` (the `finally`).
  `Cleanup` removes the directory and never touches the outcome.
- **YtDlp** (`ytdlp_service.dfy`) models the yt-dlp service:
  - the `YtDlpError` family and its messages;
  - metadata parsing with defaults;
  - video-only and audio-only classification;
  - choice of the best formats, with the combined fallbacks;
  - the format check;
  - subtitle paths and language resolution;
  - the four download operations over an abstract disk. `DownloadHighQualityComponents` calls two
    methods of the model: `DownloadTracks` for the two track downloads and `DownloadComponentSubtitles`
    for the subtitle call. The outcome of each step is a function of the disk (`MediaOutcome`,
    `TracksOutcome`, `SubtitleEffect`, `SubtitleStage`).
- **FFmpeg** (`ffmpeg_service.dfy`) models the FFmpeg command layer:
  - the binary-path checks;
  - the exact argument vectors, and what ffmpeg reads them as;
  - the `HH:MM:SS.ss` progress parser, whose ratio is capped at 1;
  - the mapping from exit code to result or error;
  - the duration probe.
- **Dependencies** (`dependency_manager.dfy`) models the dependency manager:
  - executability checks;
  - the ordered `missing` list;
  - Python discovery;
  - the `pip list` parser;
  - the case-insensitive split of requested packages into installed and missing;
  - the two settings keys.
- **OpenAi** (`openai_client.dfy`) models the OpenAI adapter:
  - the key check;
  - the translation prompt;
  - the `max_tokens` budget;
  - result shaping;
  - the defaults for text-to-speech;
  - the uniform error wrapping;
  - the two setters.

Shared modules:

- `Shared` holds Option and Result, plus JavaScript truthiness and `||` defaults.
- `Strings` holds the JavaScript string built-ins the code relies on: `trim`, `split`, `toLowerCase`, `includes`,
  digits, and number printing.
- `FileSystem` holds `path.dirname`, `path.join`, and a `Disk` class. The disk is the set of existing paths
  plus the directories whose creation fails.
- `AiServices` holds the value types from `src/shared/ai-services.ts`.

External programs and cloud calls are parameters. Each one is given as the
answer it produces:

- a yt-dlp metadata probe is the raw JSON or the text of its error;
- a download run is its progress events, the files it writes, and its failure;
- an ffmpeg run is its stderr chunks and its exit event;
- an OpenAI call is its answer or its error message;
- `mkdtemp` is the suffix it appended, or the value it threw.

## Model

| member | source | states |
|---|---|---|
| Strings.ContainsIsOccursIn | src/main/services/ytDlpService.ts:121 | `includes` holds exactly when the needle occurs as a contiguous slice |
| Strings.Trim | src/main/services/dependencyManager.ts:93 | `trim` gives the slice of the input left once whitespace is cut from both ends; the result starts and ends with non-whitespace |
| Strings.TrimIdempotent | src/main/services/openAiClient.ts:109 | trimming twice is trimming once |
| Strings.SplitOn | src/main/services/dependencyManager.ts:94 | `split` on one character gives at least one piece, and no piece holds the separator |
| Strings.JoinSplit | src/main/services/dependencyManager.ts:123 | joining the pieces of a split with the separator gives back the input |
| Strings.SplitWithoutSeparator | src/main/services/dependencyManager.ts:94 | a string without the separator splits into itself alone |
| Strings.ToLower | src/main/services/dependencyManager.ts:125 | `toLowerCase` keeps the length and lowers each ASCII capital in place; every other character is kept |
| Strings.FirstToken | src/main/services/dependencyManager.ts:125 | `split(/\s+/)[0]` of a trimmed line is its longest whitespace-free prefix |
| Strings.DigitRun | src/main/services/ffmpegService.ts:57 | `\d+` matches the maximal run of digits |
| Strings.NatToStringValue | src/main/services/ffmpegService.ts:88 | the printed exit code reads back as the number |
| Strings.IntToString | src/main/services/ffmpegService.ts:88 | negative codes print with a leading minus |
| FileSystem.Dirname | src/main/services/ffmpegService.ts:116 | `path.dirname` is `.` for a bare name, `/` for a top-level entry, and otherwise the prefix before the last `/` |
| FileSystem.Join | src/main/services/ytDlpService.ts:391 | `path.join` of a directory and a name is the directory, `/` and the name, with nothing in between; an empty directory gives the name |
| FileSystem.Lineage | src/main/services/ffmpegService.ts:118 | the directories a recursive `mkdirSync` makes sure of: the directory, its parent unless that is `.` or `/`, and only prefixes of the directory |
| FileSystem.Disk.MakeDirectory | src/main/services/ffmpegService.ts:117-119 | recursive `mkdirSync` succeeds iff the directory is not refused; it then adds the directory and its ancestors (`Lineage`); a refusal fails with the EACCES message and changes nothing |
| FileSystem.Disk.RemoveTree | src/main/processing/pipelineOrchestrator.ts:138 | recursive `rm` removes the directory and everything below it, and nothing else |
| FileSystem.WithDirectory | src/main/services/ytDlpService.ts:383-385 | making sure of a directory keeps every path; it adds nothing when the directory exists, and otherwise adds the directory and only its ancestors |
| FileSystem.WithParent | src/main/services/ytDlpService.ts:154-157 | the same for the directory of an output path |
| FileSystem.EnsureParent | src/main/services/ffmpegService.ts:116-119 | the output directory is refused iff it is absent and cannot be made; then the EACCES message is returned and the disk is unchanged; otherwise the disk is `WithParent` of the old one |
| FFmpeg.ValidatePaths | src/main/services/ffmpegService.ts:29-36 | valid iff both binary paths are set; the ffmpeg path is checked first, each with its own message |
| FFmpeg.ExtractAudioArgsMeaning | src/main/services/ffmpegService.ts:121-128 | the extraction vector reads as `-i` video, `-vn`, `-acodec libmp3lame`, `-q:a 2`, `-y`, then the output path as the one positional argument |
| FFmpeg.MergeArgsMeaning | src/main/services/ffmpegService.ts:161-171 | the merge vector has the video as input 0 and the audio as input 1, copies the video, encodes AAC, maps `0:v:0` and `1:a:0`, then `-shortest`, `-y`, and the output path last |
| FFmpeg.FractionValue | src/main/services/ffmpegService.ts:64 | the digits after the point are never negative |
| FFmpeg.ClockAt | src/main/services/ffmpegService.ts:57 | a clock matched at the start of a string has non-negative seconds |
| FFmpeg.ClockOf | src/main/services/ffmpegService.ts:61-69 | the seconds of the clock the digit groups denote are non-negative |
| FFmpeg.FindClock | src/main/services/ffmpegService.ts:57-58 | a leftmost match of `tag(\d+):(\d+):(\d+\.\d+)` exists only where the text contains the tag |
| FFmpeg.ClockAtDigits | src/main/services/ffmpegService.ts:57 | a clock printed as digit groups and followed by a non-digit is matched with exactly those groups |
| FFmpeg.FindClockAtStart | src/main/services/ffmpegService.ts:57 | text that starts with the tag and a clock yields that clock |
| FFmpeg.ReadTaggedClock | src/main/services/ffmpegService.ts:57-58 | `tag` plus a printed clock plus a non-digit is read back as that clock |
| FFmpeg.TwoDigitFraction | src/main/services/ffmpegService.ts:64 | two printed hundredths read back as that many hundredths |
| FFmpeg.PrintedClockSeconds | src/main/services/ffmpegService.ts:61-69 | whole hours, minutes and seconds and two digits of hundredths come to `h*3600 + m*60 + s + cs/100` seconds |
| FFmpeg.ReadPrintedTime | src/main/services/ffmpegService.ts:57-69 | a progress line printed from those numbers is parsed back to exactly that many seconds |
| FFmpeg.ChunkProgress | src/main/services/ffmpegService.ts:57-75 | a value is reported iff the chunk has a `time=` clock, the stream so far has a `Duration: ` clock, and the total is positive; the value is then `min(elapsed / total, 1)` and lies in [0, 1] |
| FFmpeg.ChunkProgressValue | src/main/services/ffmpegService.ts:71-73 | the reported value is the elapsed share of the duration while elapsed is below it, and exactly 1 from then on |
| FFmpeg.ProgressTrace | src/main/services/ffmpegService.ts:52-76 | at most one value per chunk, each in [0, 1] |
| FFmpeg.ProgressTraceReports | src/main/services/ffmpegService.ts:52-76 | the trace holds one value per reporting chunk, in arrival order; the k-th is the progress of the k-th reporting chunk against the stream received up to and including it |
| FFmpeg.ExecuteFFmpeg | src/main/services/ffmpegService.ts:41-97 | nothing is spawned without both binary paths; the result is the whole accumulated stderr iff the exit code is 0; any other exit is an `FFmpegError` carrying the code and the stderr; a spawn error has its own message; progress is the trace when asked for |
| FFmpeg.ExtractAudio | src/main/services/ffmpegService.ts:106-132 | a missing video or a refused output directory is rejected before any spawn, with no progress reported and the disk unchanged; the output directory is created when absent; it spawns exactly the extraction vector; resolves to the output path iff ffmpeg exits 0; once the video exists and the directory is writable: invalid binary paths are rejected unchanged with nothing spawned, a non-zero exit is the `FFmpegError` "FFmpeg process exited with code N" with the stderr, a start failure is "Failed to start FFmpeg process: …", and the progress relayed is the `ProgressTrace` of the stderr when a callback is given |
| FFmpeg.MergeAudioVideo | src/main/services/ffmpegService.ts:142-175 | the video is checked before the audio, so with both missing the video is reported; a missing file or a refused output directory reports no progress and leaves the disk unchanged; then as for extraction, with the merge vector: the same pass-through of invalid paths, exit-code and start-failure errors, and the same progress trace |
| FFmpeg.ParseUnsigned | src/main/services/ffmpegService.ts:211 | a number read without a sign is non-negative |
| FFmpeg.DecimalOf | src/main/services/ffmpegService.ts:211 | a decimal's value is non-negative |
| FFmpeg.ParseDecimalOfDigits | src/main/services/ffmpegService.ts:211 | `parseFloat` of printed `whole.fraction` gives that decimal |
| FFmpeg.GetVideoDuration | src/main/services/ffmpegService.ts:182-226 | the binary paths are checked first, then the file; ffprobe runs with the duration vector; resolves iff exit 0 and the trimmed stdout parses, with that number; other exits are `FFmpegError`s with the stderr; exit 0 with unparsable stdout is "Could not parse duration from ffprobe output"; a start failure is "Failed to start ffprobe process: …" |
| FFmpeg.Drain | src/main/services/ffmpegService.ts:198-207 | accumulating the `data` events gives the concatenation of the chunks |
| OpenAi.ConfigFor | src/main/services/openAiClient.ts:32-36 | the SDK client has the key, a 60000 ms timeout and 2 retries |
| OpenAi.Wrap | src/main/services/openAiClient.ts:74-78 | a wrapped error's message is the prefix followed by the cause's message |
| OpenAi.TranscriptionOf | src/main/services/openAiClient.ts:59-72 | a string answer gives `{text}` alone; a verbose answer keeps text and language, and its segments one for one and in order, with id, start, end and text |
| OpenAi.SourceClause | src/main/services/openAiClient.ts:93-95 | ` from <source>` only for a non-empty source language |
| OpenAi.TranslatePromptLayout | src/main/services/openAiClient.ts:91-97 | `TranslatePrompt` starts with the target clause and ends with the instruction and the unchanged text; it names the source iff one is given, and is exactly head, target, instruction and text when none is |
| OpenAi.MaxTokens | src/main/services/openAiClient.ts:106 | the budget is at most 4096, at most twice the text's length, and equal to one of them |
| OpenAi.TranslatedText | src/main/services/openAiClient.ts:109 | missing content gives `''`; otherwise the content trimmed at both ends, a slice of it |
| OpenAi.TranslatedTextStable | src/main/services/openAiClient.ts:109 | shaping an already shaped translation changes nothing |
| OpenAi.SpeechRequestFor | src/main/services/openAiClient.ts:139-145 | the model defaults to `tts-1` and the speed to 1.0 when unset or falsy, so neither is empty or zero; voice and text pass through; mp3 |
| OpenAi.SpeechRequestKeepsOptions | src/main/services/openAiClient.ts:140-143 | a set model and a non-zero speed are used as given |
| OpenAi.OpenAIClient.constructor | src/main/services/openAiClient.ts:25 | a new client translates with `gpt-4o-mini` |
| OpenAi.OpenAIClient.Create | src/main/services/openAiClient.ts:27-37 | refused with `OpenAI API key is required` iff the key is absent or empty |
| OpenAi.OpenAIClient.Transcribe | src/main/services/openAiClient.ts:45-80 | a missing file fails before any request; otherwise `whisper-1` is asked for `verbose_json` in the given language; every failure carries the transcription prefix |
| OpenAi.OpenAIClient.Translate | src/main/services/openAiClient.ts:89-122 | one request to the current default model, with the translator role, the prompt, temperature 0.3 and the token budget; the result echoes both languages; failures are wrapped |
| OpenAi.OpenAIClient.Synthesize | src/main/services/openAiClient.ts:131-158 | the output directory is created when absent; the speech request is `SpeechRequestFor`; success writes and returns the output path; failures are wrapped |
| OpenAi.OpenAIClient.SetApiKey | src/main/services/openAiClient.ts:164-170 | the client is rebuilt with the new key and the same timeout and retries; the model stays |
| OpenAi.OpenAIClient.SetDefaultModel | src/main/services/openAiClient.ts:176-178 | only the translation model changes |
| Dependencies.Settings.Set | src/main/services/settingsManager.ts:37 | setting a key changes that key alone |
| Dependencies.GetDependencyPaths | src/main/services/dependencyManager.ts:29-36 | bundled ffmpeg and yt-dlp paths, and the Python and SoundTouch paths from their settings keys |
| Dependencies.IsExecutable | src/main/services/dependencyManager.ts:41-49 | an unset or empty path is never executable; any other path is exactly when the system says so |
| Dependencies.ValidateDependencies | src/main/services/dependencyManager.ts:54-82 | FFmpeg and yt-dlp are listed iff not executable; Python and Soundtouch are listed iff set and not executable; names appear in fixed order without repeats; valid iff nothing is missing; unset optional tools never invalidate |
| Dependencies.MissingNamesMeaning | src/main/services/dependencyManager.ts:57-79 | the names reported are exactly the missing tools, once each, in the order FFmpeg, yt-dlp, Python, Soundtouch; the list is empty iff none is missing |
| Dependencies.FirstLine | src/main/services/dependencyManager.ts:94 | `split('\n')[0]` is the prefix up to the first line feed |
| Dependencies.PickedPythonAsWritten | src/main/services/dependencyManager.ts:93-94 | the pick as written: a prefix of the trimmed listing without a line feed, ending at the first line feed or at the end |
| Dependencies.PickedPython | src/main/services/dependencyManager.ts:93-94 | the picked interpreter path has no line feed and no whitespace at its ends |
| Dependencies.PickedPythonKeepsCarriageReturn | src/main/services/dependencyManager.ts:91-96 | on a CRLF listing, the pick as written keeps the carriage return |
| Dependencies.PickedPythonFirstPath | src/main/services/dependencyManager.ts:93-96 | a first path ended by LF or CRLF is picked exactly |
| Dependencies.FindPythonPath | src/main/services/dependencyManager.ts:87-106 | the platform's lookup command runs; the pick as written is stored under the Python key and returned iff the lookup succeeds and that path exists; otherwise settings are unchanged |
| Dependencies.PipRowName | src/main/services/dependencyManager.ts:125 | a row's name has no whitespace and is lower case |
| Dependencies.ParsePipList | src/main/services/dependencyManager.ts:122-125 | the first two lines are dropped, and every other line gives its lower-cased first word, in order |
| Dependencies.PipRowNameOf | src/main/services/dependencyManager.ts:125 | a row `Name  version` gives the name in lower case |
| Dependencies.ListedIgnoresCase | src/main/services/dependencyManager.ts:131 | a package and its lower-cased name match alike |
| Dependencies.Select | src/main/services/dependencyManager.ts:127-136 | each selected package was requested and is listed (or not) as asked |
| Dependencies.SelectPartition | src/main/services/dependencyManager.ts:127-136 | the two lists together are the request, counted with multiplicity; a package is installed iff listed and missing iff not |
| Dependencies.SelectInOrder | src/main/services/dependencyManager.ts:127-136 | each side keeps request order and multiplicity: its k-th package is the k-th request that belongs on that side |
| Dependencies.CheckPythonPackages | src/main/services/dependencyManager.ts:111-144 | with no Python path or a failed `pip list`, all packages are missing; otherwise packages are split in request order by case-insensitive match; the lists together are the request |
| Dependencies.KeyFor | src/main/services/dependencyManager.ts:18-21 | Python's path is stored under `dependencies.pythonPath` and SoundTouch's under `dependencies.soundtouchPath` |
| Dependencies.KeysDistinct | src/main/services/dependencyManager.ts:18-21 | the Python and SoundTouch keys differ |
| Dependencies.SetDependencyPath | src/main/services/dependencyManager.ts:149-158 | only the chosen tool's key is written |
| Dependencies.InitializeDependencies | src/main/services/dependencyManager.ts:163-175 | Python is looked for, with the pick as written, only when its path is unset; then FFmpeg, yt-dlp, Python (as the lookup left it) and Soundtouch are listed iff missing, once each and in that order; valid iff none is |
| YtDlp.Message | src/main/services/ytDlpService.ts:22-48 | each subclass's message is its prefix followed by its argument |
| YtDlp.ErrorText | src/main/services/ytDlpService.ts:124 | `String(error)` of the family is the name, `: `, and the message |
| YtDlp.DurationOr | src/main/services/ytDlpService.ts:439 | an absent duration is 0 |
| YtDlp.ParseVideoInfo | src/main/services/ytDlpService.ts:433-458 | text fields default to `''`, duration to 0, formats to `[]`; each raw format gives one format in order with its fields carried over; the language becomes `originalLanguage` |
| YtDlp.GetVideoInfo | src/main/services/ytDlpService.ts:116-126 | the parsed metadata on success; on failure `InvalidUrlError` iff the error text mentions `invalid URL`, else a `YtDlpError` quoting it |
| YtDlp.BothKinds | src/main/services/ytDlpService.ts:317-324 | a format passes both filters iff both its codecs are `'no'` |
| YtDlp.VideoOnly | src/main/services/ytDlpService.ts:317-319 | the filter keeps exactly the video-only formats, each as often as it occurs and in list order: its k-th element is the list's k-th video-only format |
| YtDlp.AudioOnly | src/main/services/ytDlpService.ts:322-324 | the filter keeps exactly the audio-only formats, each as often as it occurs and in list order |
| YtDlp.FirstMax | src/main/services/ytDlpService.ts:335-348 | a stable sort by decreasing key puts first the earliest position holding the largest key |
| YtDlp.BestFormatsFallback | src/main/services/ytDlpService.ts:327-332 | with no video-only or no audio-only format, the choice is exactly `bestvideo+bestaudio/best` and `bestaudio/best` |
| YtDlp.ChosenVideo | src/main/services/ytDlpService.ts:335-347 | the format `BestFormats` picks for video is a video-only format of the list, the one at the top after the sort |
| YtDlp.BestVideoChoice | src/main/services/ytDlpService.ts:316-347 | with both kinds present, the video id `BestFormats` returns is that of the video-only format at position m, or `bestvideo` when that id is empty; no video-only format has a larger area, and every earlier one has a smaller area |
| YtDlp.BestAudioChoice | src/main/services/ytDlpService.ts:316-349 | the audio id is that of the audio-only format at position m, or `bestaudio` when that id is empty; no audio-only format has more channels, and every earlier one has fewer |
| YtDlp.HasFormat | src/main/services/ytDlpService.ts:147 | `some` holds iff a format has exactly that id |
| YtDlp.BestVideoAvailable | src/main/services/ytDlpService.ts:147-151 | the chosen video id always passes `FormatAvailable`, the format check |
| YtDlp.IdAvailable | src/main/services/ytDlpService.ts:147-149 | the id of any listed format, or `bestvideo` in place of a missing one, passes `FormatAvailable` |
| YtDlp.GetBestFormats | src/main/services/ytDlpService.ts:312-353 | the choice on the parsed formats, or the metadata error wrapped as `Failed to determine best formats: ` |
| YtDlp.StripExtension | src/main/services/ytDlpService.ts:265 | `/\.[^/.]+$/` removal leaves the path, or cuts exactly a final dot and a non-empty run without dots or slashes |
| YtDlp.StripExtensionOf | src/main/services/ytDlpService.ts:265 | a path ending in such an extension loses exactly it |
| YtDlp.SubtitlePath | src/main/services/ytDlpService.ts:265-266 | the subtitle path is the stripped base followed by `.<lang>.srt` |
| YtDlp.SubtitlePathStrips | src/main/services/ytDlpService.ts:265-266 | stripping a subtitle path gives the base with `.<lang>` |
| YtDlp.TargetLanguage | src/main/services/ytDlpService.ts:252-256 | `auto` resolves to the video's language or `en`; any other language is kept |
| YtDlp.OriginalLanguageResolves | src/main/services/ytDlpService.ts:409 | asking for the video's language or `auto` ends at its language or `en` |
| YtDlp.Percents | src/main/services/ytDlpService.ts:167-171 | each progress event reports its percent, or 0 |
| YtDlp.MediaOutcome | src/main/services/ytDlpService.ts:152-183 | once the format is settled, a download succeeds iff its directory is not refused and the run succeeds; success adds the directory, its missing ancestors and the run's files; the disk only ever grows |
| YtDlp.DownloadMedia | src/main/services/ytDlpService.ts:138-184 | metadata errors pass through unchanged; `FormatNotAvailableError` iff the code is neither listed nor mentions `best`; a refused directory is wrapped; then the exact vector runs; result and disk are `MediaOutcome`: the output path, or `DownloadFailedError` |
| YtDlp.DownloadAudio | src/main/services/ytDlpService.ts:195-235 | downloads the chosen audio id with the same vector; result and disk are `MediaOutcome` with the audio messages; never a format error |
| YtDlp.SubtitleEffect | src/main/services/ytDlpService.ts:268-297 | the disk after the subtitle runs keeps the directory; a failed regular run adds nothing more; otherwise its files are added |
| YtDlp.DownloadSubtitles | src/main/services/ytDlpService.ts:245-303 | no run happens iff `auto` cannot be resolved or the directory is refused, and then nothing changes; otherwise the regular run comes first, and the automatic run iff the regular run succeeded without the file; the disk is `SubtitleEffect`; the expected path is returned iff every run made succeeded and the file exists; never an error |
| YtDlp.TracksOutcomeMeaning | src/main/services/ytDlpService.ts:387-405 | both tracks download iff neither directory is refused and both runs succeed; a failed video run is `DownloadFailedError` with its text; every file a successful run wrote stays; never a format error |
| YtDlp.TracksProgress | src/main/services/ytDlpService.ts:390-405 | when both tracks download, the events relayed are every video-run event tagged `video` followed by every audio-run event tagged `audio`; a refused video directory relays none |
| YtDlp.DownloadTracks | src/main/services/ytDlpService.ts:387-405 | the video track, then the audio track; the error and the disk are exactly `TracksOutcome` and the events relayed are exactly `TracksProgress` |
| YtDlp.SubtitleStage | src/main/services/ytDlpService.ts:407-414 | the subtitle stage leaves the disk unchanged when the directory is refused, and never removes a path |
| YtDlp.DownloadComponentSubtitles | src/main/services/ytDlpService.ts:407-414 | subtitles are asked for in the video's language (`auto`, so English, when it has none); the disk is `SubtitleStage`; a found path is the expected file and exists; a path is found iff `SubtitleFound`: the directory is not refused, the regular run succeeds, the automatic run (made only when the file is still missing) succeeds, and the file exists afterwards; a failed regular run finds none |
| YtDlp.DownloadHighQualityComponents | src/main/services/ytDlpService.ts:368-427 | a failed probe or a refused directory ends it with the disk unchanged; otherwise it succeeds iff `TracksOutcome` has no error, and fails with that error and that disk when it has one; success writes `<basename>.video.mp4` and `<basename>.audio.m4a`, leaves the disk at `SubtitleStage`, finds subtitles iff `SubtitleFound` on the disk after the tracks, and relays exactly `TracksProgress` followed by one subtitles event, at 100 when found and 0 when not; a failed track relays `TracksProgress` alone, and a failed probe or directory relays nothing; never a format error |
| Pipeline.ErrorMessageOf | src/main/processing/pipelineOrchestrator.ts:109 | an `Error`'s message, else the value's text |
| Pipeline.TempDirPrefix | src/main/processing/pipelineOrchestrator.ts:90 | `path.join(os.tmpdir(), 'videonova-job-')` is `<tmpdir>/videonova-job-`, or `videonova-job-` alone for an empty directory; never empty |
| Pipeline.PipelineOrchestrator.constructor | src/main/processing/pipelineOrchestrator.ts:38-42 | a new job is `idle` at step `idle`, with no error, no result and no temporary directory |
| Pipeline.PipelineOrchestrator.Create | src/main/processing/pipelineOrchestrator.ts:49-73 | refused iff the URL, the output folder or the key is empty, checked in that order with their messages; languages are not checked |
| Pipeline.PipelineOrchestrator.Run | src/main/processing/pipelineOrchestrator.ts:78-119 | ends `completed` iff the temporary directory was created, otherwise `failed` with the thrown message; the step always ends at cleaning up; the result path stays unset; the directory is removed and forgotten unless its removal failed |
| Pipeline.PipelineOrchestrator.Start | src/main/processing/pipelineOrchestrator.ts:79-111 | the part of `run` before `finally`: `completed` with the new directory on disk and remembered, or `failed` with the thrown message and nothing created; no result path |
| Pipeline.PipelineOrchestrator.Cleanup | src/main/processing/pipelineOrchestrator.ts:132-149 | status, step, error and result never change; without a directory nothing happens; a successful removal forgets the directory; a failed one keeps it |

## Findings

| source | as written | input that shows it | evidently intended | confidence | as-written member | corrected member |
|---|---|---|---|---|---|---|
| src/main/services/dependencyManager.ts:93-96 | `output.trim().split('\n')[0]` keeps the carriage return of a CRLF listing, so `existsSync` checks a name ending in `\r` | `where python` listing `C:\py\python.exe\r\nC:\wa\python.exe` (two interpreters on Windows) | the first listed path, `C:\py\python.exe` | medium, not executed | Dependencies.PickedPythonKeepsCarriageReturn | Dependencies.PickedPythonFirstPath |

`Dependencies.PickedPythonAsWritten` is the pick as the code writes it, and
`FindPythonPath` and `InitializeDependencies` use it. `Dependencies.PickedPython`
also trims the line; it is the corrected pick, and `PickedPythonFirstPath` is
proved about it. With a single interpreter, or with LF line endings, the two
agree.

## Code and design description

The code is followed where it differs from the project's design description:

- The design promises that a completed job has a result path naming an existing file. The code never
  sets `_resultPath`, because the media stages are still placeholder comments
  (src/main/processing/pipelineOrchestrator.ts:95-101). So `Run` promises that the result path stays unset.
- The design promises a non-empty error message on failure. The code copies `error.message`, which may be
  empty. So `Run` promises only that the message is the thrown one.

## Left out

- Process spawning, network access and OpenAI SDK calls. Each is an oracle parameter, as described above.
- Scheduling of promises and stream `data` events. A stream is a list of chunks, delivered in order.
- Console logging, and the warning `initializeDependencies` prints.
- IEEE floating point. Timestamps, durations, speeds and ratios are exact reals, and `Math.min` is exact.
- Pipeline.PipelineOrchestrator: the download, extraction, transcription, translation, synthesis and merge
  stages are not modelled. They are only comments in the code.
- Pipeline.PipelineOrchestrator: the service fields the constructor stores are not modelled, because no code
  uses them.
- Pipeline.PipelineOrchestrator: the `status`, `currentStep`, `errorMessage` and `resultPath` getters are not
  separate members. They are the fields themselves.
- Pipeline.PipelineOrchestrator.Cleanup: a removal that fails part-way is not modelled. A failed removal
  leaves the disk unchanged.
- FFmpeg.GetVideoDuration: `parseFloat` accepts exponents and `Infinity`. The model does not, so
  `1.5e2` reads as 1.5 here.
- FFmpeg.ExtractAudio: the model does not distinguish a synchronous throw (a refused directory or missing
  binaries) from a rejected promise. Both are failures.
- FFmpeg.MergeAudioVideo: as for ExtractAudio.
- FFmpeg.ExecuteFFmpeg: an exit code of 0 and a `close` after an `error` event are one event each. The model
  does not consider both arriving.
- Strings.Trim: whitespace is the ASCII set. Unicode spaces are not trimmed.
- Strings.ToLower: only ASCII letters change case.
- FileSystem.Disk.MakeDirectory: a refusal is decided for the requested directory as a whole. An ancestor that
  cannot be created is not modelled separately.
- FileSystem.Dirname: path normalisation is not modelled. The model assumes no trailing or doubled slashes
  and no `..`.
- FileSystem.Join: path normalisation is not modelled either.
- OpenAi.MaxTokens: the text's length counts characters, not UTF-16 code units.
- OpenAi.OpenAIClient.Synthesize: the audio bytes and a failing file write are not modelled.
- OpenAi.OpenAIClient.SetApiKey: the SDK's own rejection of a missing key is not modelled.
- OpenAi.TruthySpeed: a NaN speed is treated as set.
- YtDlp.MediaOutcome, YtDlp.DownloadMedia, YtDlp.DownloadAudio, YtDlp.TracksOutcome, YtDlp.DownloadSubtitles: files written by a yt-dlp run that fails are not added to the disk.
- YtDlp.DownloadHighQualityComponents: every metadata probe within one operation is assumed to return the
  same answer.
- YtDlp.DownloadMedia: the files yt-dlp writes are a parameter. The result is the output path whatever was
  written, as in the code.
- Dependencies.Settings: the electron-store schema and its persistence are not modelled. The store is a map of
  strings.
- The YtDlpService constructor, `getDependencyPaths`'s use of the yt-dlp wrapper's default binary path, and the
  demucs and SoundTouch wrappers are not modelled.
- The renderer and the Electron bootstrap are not modelled.
