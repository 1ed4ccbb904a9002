# Winston transcription core, modelled in Dafny

Winston is a Discord bot. A user hands it a YouTube or Reddit video link
with `/transcribe`, and the bot:

- queues a job for the link;
- downloads the audio with yt-dlp;
- converts it with ffmpeg to a mono 16 kHz WAV;
- sends the WAV to a local whisper speech-to-text (STT) server that it starts on demand;
- posts the transcript back to the channel, inline or as a file.

A helper module starts and supervises subprocesses. It also writes crash logs.

This project models that core and proves properties of it:

- `sources.dfy` (module `MediaSources`) holds the two media-source
  strategies of `cogs/Winston.py`:
  - link recognition (the YouTube regular expression, the Reddit host check);
  - media-id extraction and job creation;
  - the yt-dlp command;
  - the first-match resolution that `/transcribe` performs.
- `source_properties.dfy` (module `SourceProperties`) proves what the
  strategies do for every accepted link. It also proves the resolution of
  each documented link form: youtu.be, watch, shorts, reddit.com comments
  and v.redd.it.
- `pipeline.dfy` (module `Pipeline`) holds the value-level parts of the worker:
  - job tickets and `list.remove`;
  - the download and WAV paths and the ffmpeg command;
  - the "time taken" text;
  - the inline-or-file delivery rule.
- `winston.dfy` (module `Winston`) holds the cog as a class:
  - the fields `queue`, `pendingJobs`, `activeJobs`, `stt`, `sttBusy` and `sttLastUsed`;
  - the `/transcribe` and `/queue` commands;
  - one tick of the worker loop, with the world's answers passed in;
  - the lazy STT start, the busy bracket, the idle sweep and `cog_unload`.
- `supervisor.dfy` (module `Supervisor`) holds `utils/utils.py`:
  - free-port retry and the ignored exit codes;
  - the program name and the timestamped log path;
  - the crash and start-up-failure logs, written by a `LogFile` class;
  - the whole `start_subprocess` supervision as one function.
- `strings.dfy`, `urls.dfy`, `paths.dfy` and `wrappers.dfy` hold the parts
  of the Python standard library the core relies on:
  - string methods and decimal numerals;
  - `urlparse` and `parse_qs`;
  - `os.path.join`, `basename` and `splitext`;
  - an `Option` type.

Time is an integer number of seconds supplied by the caller.

Python compares job objects by identity. Each job therefore carries a ticket
number that is issued once, which gives the same identity.

Each `async with self._stt_lock` block runs as one atomic step, and so does
each worker tick. Other coroutines may run during an `await`; those
interleavings are not explored.

## Model

| member | source | states |
|---|---|---|
| `MediaSources.YouTubeCanHandle` | cogs/Winston.py:48-49 | a link has the YouTube shape exactly when it starts with one of the twelve texts the prefix `(https?://)?(www.)?` followed by `youtube.com/` or `youtu.be/` can match and the rest is `.+$`: at least one character and no line feed, except one final line feed (a carriage return is an ordinary character) |
| `MediaSources.YouTubePrefixes` | cogs/Winston.py:10 | taking the optional groups greedily finds a prefix exactly when some choice of them does, and every matching choice leaves the same rest, so the pattern never needs to backtrack |
| `MediaSources.SearchShorts` | cogs/Winston.py:59-61 | finds a shorts id exactly when some suffix of the link starts with `youtube.com/shorts/` followed by 11 id characters; the id is the 11 characters after the marker at the leftmost such position |
| `MediaSources.SearchMarkedId` | cogs/Winston.py:62-63 | finds an id exactly when some suffix starts with `v=` or `youtu.be/` followed by 11 id characters; the id is the 11 characters after the marker at the leftmost such position |
| `MediaSources.SearchShortsSkips` | cogs/Winston.py:59 | dropping a prefix that holds no 'y' never changes the shorts search result |
| `MediaSources.ExtractVideoId` | cogs/Winston.py:51-63 | off youtu.be hosts a found id is never empty; an id that does not come from the `v` query value is 11 id characters |
| `MediaSources.YouTubeCreateJob` | cogs/Winston.py:65-78 | a job exists exactly when a non-empty id is extracted; it then carries that id, the canonical watch URL and the thumbnail URL of the id |
| `MediaSources.ReplaceNonWordRuns` | cogs/Winston.py:116 | `re.sub(r"\W+", "_", s)` gives only word characters and is empty exactly for empty input |
| `MediaSources.WordsKept` | cogs/Winston.py:116 | a string of word characters only is left unchanged |
| `MediaSources.ReplaceRun` | cogs/Winston.py:116 | for word characters `a`, a non-empty run `x` of non-word characters and a rest `b` that is empty or starts with a word character, `a + x + b` becomes `a`, one '_', then the replacement of `b`: words are kept and each whole run becomes one '_' |
| `MediaSources.RunFirst` | cogs/Winston.py:116 | a leading non-word run, up to the next word character, becomes a single '_' in front of the replacement of the rest |
| `MediaSources.SanitisedName` | cogs/Winston.py:115-117 | the fallback name is never empty and holds only word characters. It is "reddit" when the path stripped of '/' is empty, and otherwise that stripped path with its non-word runs replaced |
| `MediaSources.RedditName` | cogs/Winston.py:100-117 | whichever rule chooses it, the name is never empty and never holds a '/'; which rule applies, in which order, is stated by `CommentsSegment`, `VRedditFirstSegment` and `FallbackLinkResolves` |
| `MediaSources.RedditMediaId` | cogs/Winston.py:100-117 | every Reddit media id is "reddit_" followed by a non-empty name without '/' |
| `MediaSources.RedditHostIgnoresCase` | cogs/Winston.py:95-98 | a link is a Reddit link exactly when the last characters of its host, lower-cased one by one, read `reddit.com` or `v.redd.it` |
| `MediaSources.RedditCreateJob` | cogs/Winston.py:119-129 | a Reddit job always exists, keeps the link as its canonical URL and has no thumbnail |
| `MediaSources.CreateJob` | cogs/Winston.py:21-22 | a created job names the strategy that made it and the requester |
| `MediaSources.BuildYtdlpCmd` | cogs/Winston.py:80-89 | the yt-dlp argv has nine entries: `yt-dlp.exe` joined to the working directory, best audio extracted to mp3, output to the audio path, then the canonical URL |
| `MediaSources.FirstAccepted` | cogs/Winston.py:232-236 | the scan stops at the first source accepted, and every earlier source was refused |
| `MediaSources.FirstHandler` | cogs/Winston.py:232-236 | the chosen strategy can handle the link and no earlier registered strategy can |
| `MediaSources.Resolve` | cogs/Winston.py:231-262 | Unsupported exactly when no strategy handles the link; Malformed exactly when the first handler makes no job; otherwise the job that handler made |
| `Urls.Parse` | cogs/Winston.py:52 | `urlparse` gives a network location without '/', '?' or '#', a path without '?' or '#', and a query without '#' |
| `Urls.ParseSkipsUnsafe` | cogs/Winston.py:52 | a tab, carriage return or line feed anywhere in a link does not change how it parses |
| `Urls.QueryFirst` | cogs/Winston.py:56-58 | a value found for a query parameter is never empty and holds no '&'; there is none exactly when no '&'-separated pair gives the parameter a non-empty value, which is when `"v" in query` fails |
| `Urls.QueryFirstLeading` | cogs/Winston.py:56-58 | a query that starts with the pair `key=v`, `v` non-empty, gives `v` with '+' read as a space for the key read the same way, whatever pairs follow, so the first value wins |
| `Urls.QueryFirstSkips` | cogs/Winston.py:56-58 | a leading pair that does not give `name` a non-empty value is passed over: the answer is that of the rest of the query |
| `Urls.QueryFirstOtherKey` | cogs/Winston.py:56-58 | a one-pair query whose key does not read as `name` gives `name` no value |
| `Urls.NamesValueOf` | cogs/Winston.py:56-58 | the pair `key=v` gives the key, '+' read as a space, a value exactly when `v` is not empty, as `parse_qs` drops blank values |
| `Urls.PlusFree` | cogs/Winston.py:56 | `parse_qs`'s '+'-to-space replacement leaves text without '+' as it is |
| `Strings.SplitJoin` | cogs/Winston.py:103 | joining the parts of `str.split` with the separator gives the string back |
| `SourceProperties.AcceptedJobShape` | cogs/Winston.py:45-129 | every accepted job has a non-empty media id. A YouTube job came from a YouTube-shaped link and points at the watch page and thumbnail of its id. A Reddit job came from a link YouTube refused and Reddit accepts, keeps that link, has no thumbnail and an id starting with "reddit_" |
| `SourceProperties.ShortLinkResolves` | cogs/Winston.py:53-54 | `https://youtu.be/<id>` resolves to the YouTube job of `<id>` for any non-empty id of id characters |
| `SourceProperties.ShortLinkLineFeedResolves` | cogs/Winston.py:48-54 | `https://youtu.be/<id>` followed by a line feed still has the YouTube shape, and resolves to the job of `<id>` without the line feed |
| `SourceProperties.WatchLinkResolves` | cogs/Winston.py:55-58 | the canonical watch URL of an 11-character id resolves to the job of that id |
| `SourceProperties.ShortsLinkResolves` | cogs/Winston.py:59-61 | `https://www.youtube.com/shorts/<id>` resolves to the job of its 11-character id |
| `SourceProperties.ShortsQueryLinkResolves` | cogs/Winston.py:55-61 | `https://www.youtube.com/shorts/<id>?<q>`, where no pair of `q` gives `v` a value, still resolves to the job of the 11-character id in the path |
| `SourceProperties.ShareLinkResolves` | cogs/Winston.py:55-61 | the share form `https://www.youtube.com/shorts/<id>?feature=share` resolves to the job of `<id>` |
| `SourceProperties.YouTubeFormsAgree` | cogs/Winston.py:51-78 | the youtu.be, watch and shorts forms of one video give the same job |
| `SourceProperties.CanonicalUrlIsStable` | cogs/Winston.py:65-78 | resolving the canonical URL of a YouTube job gives the same job back |
| `Strings.SplitConcat` | cogs/Winston.py:103 | splitting `a + sep + b` gives the parts of `a` followed by the parts of `b` |
| `Strings.NonEmptyConcat` | cogs/Winston.py:103 | dropping the empty parts of two lists of parts one after the other drops them from each |
| `SourceProperties.VRedditFirstSegment` | cogs/Winston.py:106-107 | on v.redd.it, the path `/<video><rest>` is named `<video>` for any rest that is empty or starts with '/', however many segments it holds |
| `SourceProperties.CommentsSegment` | cogs/Winston.py:110-113 | off v.redd.it, the path `<p>/comments/<post><rest>` is named `<post>` whenever no segment of `p` is "comments" and the rest is empty or starts with '/'; the first "comments" segment wins, not the last segment |
| `SourceProperties.ResolveRedditCom` | cogs/Winston.py:95-129 | every `https://www.reddit.com<path>` link is Reddit's, keeps the link and is named "reddit_" plus the name the rules off v.redd.it give the path |
| `SourceProperties.CommentsLinkResolves` | cogs/Winston.py:110-113 | `https://www.reddit.com<p>/comments/<post><rest>` gives the job `reddit_<post>`, with any path before "comments" that holds no "comments" segment and any segments after the post id |
| `SourceProperties.VRedditLinkResolves` | cogs/Winston.py:106-107 | `https://v.redd.it/<video><rest>` gives the job `reddit_<video>` for any rest that is empty or starts with '/' |
| `SourceProperties.FallbackLinkResolves` | cogs/Winston.py:110-117 | a reddit.com link with no "comments" segment is named by the last rule: "reddit_" plus the sanitised path |
| `SourceProperties.SubredditLinkResolves` | cogs/Winston.py:115-117 | `https://www.reddit.com/r/<sub>` names no post, so its job takes the fallback name `reddit_r_<sub>` |
| `SourceProperties.UnsupportedExample` | cogs/Winston.py:238-249 | a link on another host is refused as unsupported |
| `SourceProperties.EmptyShortLinkIsMalformed` | cogs/Winston.py:251-261 | `https://youtu.be//` matches the YouTube pattern but yields an empty id, so it is reported as malformed |
| `Supervisor.FreePort` | utils/utils.py:12-18 | a port is found exactly when one of the first six probes returned a non-zero port, and that port is the one returned; otherwise the error reads "Unable to allocate port" |
| `Supervisor.GetFreePort` | utils/utils.py:12-18 | the retry loop probes at most six times, returns the first non-zero answer with all earlier answers zero, and gives up only after six probes |
| `Supervisor.OnExit` | utils/utils.py:36-60 | debug mode reports every non-zero exit and writes no log; quiet mode logs and reports exactly the codes outside {0, -15, 1, 3221225786} |
| `Supervisor.DebugReportsMore` | utils/utils.py:36-60 | debug mode reports every crash quiet mode reports, and reports more exactly for codes -15, 1 and 3221225786 |
| `Supervisor.BaseName` | utils/utils.py:25-26 | the program name has no separator and is never empty. It is "subprocess" when there is no file name; otherwise it starts the file name, is shorter than it exactly when the file name has an extension, and then ends just before the final dot |
| `Paths.Stem` | utils/utils.py:26 | `splitext(name)[0]` starts the name, is empty only for an empty name, and is shorter exactly when some dot follows a character that is not a dot; the cut is then at the final dot, and what is left is not only dots |
| `Paths.StemDropsExtension` | utils/utils.py:26 | `<base>.<ext>` loses exactly its extension when the extension has no dot and the base is not only dots, as for `python3.11.exe` |
| `Paths.BasenameOfJoin` | utils/utils.py:26 | the base name of a directory joined to a separator-free name is that name |
| `Supervisor.ProgramName` | utils/utils.py:32 | the program is named after the first argv entry, or after `str(cmd)` when there is no argv |
| `Supervisor.Str` | utils/utils.py:54 | the command line logged is the command text itself, or for an argument list a bracketed rendering |
| `Supervisor.BaseNameOfProgramFile` | utils/utils.py:25-26 | `dir/stem.ext` is named `stem` |
| `Supervisor.BaseNameOfDirectory` | utils/utils.py:25-26 | a path ending in '/' has no file name, so its program is called "subprocess" |
| `Supervisor.Timestamp` | utils/utils.py:22-23 | a timestamp is 16 characters with '-' between year, month, day, hour and minute |
| `Supervisor.Field` | utils/utils.py:22-23 | a zero-padded strftime field has exactly its width, holds only digits and reads back as its number |
| `Supervisor.TimestampRoundTrip` | utils/utils.py:22-23 | `%Y-%m-%d-%H-%M` reads back as the minute it was made from |
| `Supervisor.TimestampInjective` | utils/utils.py:22-23 | different minutes give different timestamps |
| `Supervisor.LogPath` | utils/utils.py:52 | the log path is the log directory joined to the log name |
| `Supervisor.LogPathNamesRun` | utils/utils.py:52 | the file name of a log path starts with the timestamp of its minute, then '-', then the program name, then ".log" |
| `Supervisor.LogFile.Write` | utils/utils.py:54-59 | each write appends its text to the file |
| `Supervisor.WriteCrashLog` | utils/utils.py:53-59 | the six writes leave the file holding the rendered crash log |
| `Supervisor.WriteStartupLog` | utils/utils.py:67-70 | the three writes leave the file holding the rendered start-up failure log |
| `Supervisor.CrashLogLayout` | utils/utils.py:54-59 | the crash log holds the command, exit code, stdout and stderr sections in that order, each body right after its header; missing output is written as nothing |
| `Supervisor.StartupLogLayout` | utils/utils.py:68-70 | the start-up failure log holds the command section, then the error text under its header |
| `Supervisor.Supervise` | utils/utils.py:31-72 | a spawn failure writes the start-up log, reports "(failed to start)" and re-raises; an exit writes and reports as `OnExit` says, to the log path of that minute |
| `Supervisor.CleanExitIsSilent` | utils/utils.py:36-60 | exit code 0 leaves no log and no report in either mode |
| `Supervisor.QuietLogsWhatItReports` | utils/utils.py:51-60 | in quiet mode a crash is logged exactly when it is reported |
| `Pipeline.Remove` | cogs/Winston.py:320-323 | `list.remove` drops exactly the first equal entry and keeps the others in order |
| `Pipeline.RemoveKeepsIncreasing` | cogs/Winston.py:352 | removing a job keeps the rest in submission order |
| `Pipeline.RemoveAppended` | cogs/Winston.py:320-352 | appending a job that was not there and then removing it gives the list back |
| `Pipeline.HeadNotActive` | cogs/Winston.py:320-323 | the job at the head of the queue is not already active |
| `Pipeline.ActiveNotQueued` | cogs/Winston.py:155-158 | no job is both active and still queued |
| `Pipeline.FfmpegCmd` | cogs/Winston.py:357-368 | ffmpeg overwrites, reads the audio file, and writes mono 16 kHz WAV to the WAV path |
| `Pipeline.ArtifactNames` | cogs/Winston.py:330-358 | for a media id without '/', the audio file is named `<id>.mp3` and the WAV file `<id>_16k.wav` |
| `Pipeline.ConversionReadsDownload` | cogs/Winston.py:330-368 | ffmpeg reads the file that yt-dlp writes, and writes a different file |
| `Pipeline.ArtifactPaths` | cogs/Winston.py:329-358 | a job's audio and WAV files differ, and two media ids not starting with '/' share an audio file only when they are equal |
| `Pipeline.ElapsedText` | cogs/Winston.py:420-423 | the time text is at least two characters and ends in 's'; its fields are pinned by `ElapsedRoundTrip` and `ElapsedTextIsOnlyReading` against a reader that accepts only `divmod`'s fields |
| `Pipeline.ElapsedTextIsOnlyReading` | cogs/Winston.py:420-423 | any text the reader maps to a number of seconds is exactly the text written for it: minutes `elapsed / 60` when positive, seconds `elapsed % 60`, both without leading zeros |
| `Strings.NumeralUnique` | cogs/Winston.py:423 | a numeral without leading zeros is the decimal text of its value, so `{mins}` and `{secs}` have one spelling each |
| `Pipeline.ElapsedRoundTrip` | cogs/Winston.py:420-423 | the "time taken" text reads back as the elapsed seconds |
| `Pipeline.ElapsedShowsMinutes` | cogs/Winston.py:423 | the text shows minutes exactly from 60 seconds on |
| `Pipeline.DeliveryOf` | cogs/Winston.py:442-454 | the transcript goes inline exactly when it is at most 1000 characters; otherwise the file `./transcripts/<id>.txt` is attached as `<id>.txt` |
| `Pipeline.AttachmentIsSavedFile` | cogs/Winston.py:425-449 | the attached file's name is the base name of the saved transcript file |
| `Winston.StartClient` | cogs/Winston.py:209-222 | a client starts exactly when a free port is found and its process spawns; it listens on 127.0.0.1 at `/inference` on the port the free-port search returned (a non-zero probed answer) and logs to `./logs/subprocesses` |
| `Winston.DeliveredIffAllSucceed` | cogs/Winston.py:316-457 | a job is delivered exactly when both subprocesses exit 0, the server is up, the WAV is read, the transcription returns and the file is saved. The message then carries a time text that reads back as the elapsed seconds, and the transcript goes inline exactly when it is at most 1000 characters |
| `Winston.HandledFailures` | cogs/Winston.py:341-415 | a download or conversion failure is reported exactly when that step exits non-zero after every earlier step succeeded and its stderr decodes; a transcription failure exactly when every earlier step succeeded and `stt.transcribe` raised |
| `Winston.EarlyExitsIgnoreLaterSteps` | cogs/Winston.py:340-388 | once the download or conversion fails, the job's outcome is fixed whatever the later steps would do |
| `Winston.RunningServerIsReused` | cogs/Winston.py:205-207 | with a server already running, the port probes and the spawn never affect the outcome |
| `Winston.WinstonCog.constructor` | cogs/Winston.py:145-183 | the cog starts with YouTube then Reddit registered, empty lists and no server |
| `Winston.WinstonCog.Transcribe` | cogs/Winston.py:231-276 | the reply is the resolution of the link; an accepted job is appended to the queue and the pending list under a fresh identity; nothing else changes |
| `Winston.WinstonCog.Submit` | cogs/Winston.py:232-262 | the checks before queueing give exactly the resolution of the link |
| `Winston.WinstonCog.FindHandler` | cogs/Winston.py:232-236 | the `for ... break` scan stops at the first strategy that can handle the link |
| `Winston.WinstonCog.Enqueue` | cogs/Winston.py:275-276 | the new job goes to the back of the queue and of the pending list |
| `Winston.WinstonCog.QueueSizes` | cogs/Winston.py:279-294 | `/queue` counts the queued and active jobs, and reports an empty queue exactly when both lists are empty |
| `Winston.WinstonCog.EnsureSttRunning` | cogs/Winston.py:200-227 | a running server is left alone. Otherwise a client is started on a free port and marked used after the warm-up; a port or spawn failure raises and changes nothing |
| `Winston.WinstonCog.RunTranscription` | cogs/Winston.py:401-418 | a missing client fails like a failed transcription, and the `finally` always clears `busy` and records the use time |
| `Winston.WinstonCog.Finish` | cogs/Winston.py:456 | a handled exit removes the job from the active list and keeps the invariant |
| `Winston.WinstonCog.TakeNext` | cogs/Winston.py:320-323 | the oldest queued job leaves the queue and the pending list and is appended to the active list; removing it again gives the old active list |
| `Winston.WinstonCog.RunJob` | cogs/Winston.py:328-457 | the steps of one active job end with the exit `PipelineExit` gives. A handled exit removes the job from the active list and a crash leaves it there. The queue and the ticket counter are unchanged. A job that stops before the server step leaves the server fields unchanged. One that reaches it reuses a running server or starts a new one. If the server is then available and the WAV file was read, the server ends not busy and last used at the end of the attempt. Otherwise (port or spawn failure, unreadable WAV) the busy flag is unchanged and the last use is the warm-up time when a server was just started, else unchanged |
| `Winston.WinstonCog.WorkerTick` | cogs/Winston.py:316-457 | an empty queue changes nothing. Otherwise the oldest job moves from pending to active and ends as the pipeline decides. A handled exit (download, conversion or transcription failure, or delivery) removes it from active; an uncaught error, including stderr that is not valid UTF-8 after a failed step, leaves it there. The server fields follow `RunJob`: unchanged before the server step, not busy and used at the attempt's end after a transcription attempt, and otherwise busy flag unchanged and last use set only by a fresh start's warm-up |
| `Winston.WinstonCog.IdleSweep` | cogs/Winston.py:459-484 | the server is closed exactly when `IdleExpired` holds: it is present, not busy, has a recorded last use, and has been idle for at least 300 seconds. Then both the client and its last use are cleared |
| `Winston.WinstonCog.SweepLocked` | cogs/Winston.py:477-484 | under the lock, the server is closed exactly when it is still present and not busy |
| `Winston.WinstonCog.Unload` | cogs/Winston.py:486-490 | unloading closes the server exactly when one is running |

## Left out

- Discord itself is not modelled: embeds, their texts and colours, mentions,
  ephemeral flags and the `interaction` object. A requester is an opaque number.
- asyncio scheduling is left out. Each lock block and each worker tick is
  atomic, so races between the idle sweep and an `await` in the worker are
  not explored.
- The behaviour of `tasks.loop` after an uncaught exception is not modelled.
  A crashed tick is reported as `Crashed`, and the job stays in the active list.
- Real processes, sockets and files are passed in as answers (`TickInputs`,
  the port probes, `Run`). These include the exit codes, whether a spawn
  raised, whether the WAV file was read and whether the transcript was saved.
  `os.makedirs`, base64 encoding and failures of `channel.send` are not modelled.
- utils/STT.py (the whisper client and its HTTP call) is not part of this
  model. `stt.transcribe` is an answer that is either a transcript or an error.
- The clock (`time.perf_counter`, `datetime.now`) is an integer supplied by
  the caller. The five-second warm-up sleep (`_stt_warmup_seconds`) is not
  modelled as a duration: `warmedAt`, the clock value after the sleep, is an
  answer, and nothing ties it to the clock before the sleep.
- `urlparse` is modelled for the links the bot sees. It removes every tab,
  carriage return and line feed first, as Python 3.10 and later do. It does
  not model stripping of leading spaces and other control characters, IPv6 netloc
  validation, or percent-decoding in `parse_qs`: `QueryFirst` takes the
  first non-blank value of a key with each '+' read as a space, as
  `parse_qs` does, but keeps `%XX` escapes as they are, in keys and values.
- Winston.WinstonCog.WorkerTick: does not consult `BuildYtdlpCmd` or
  `FfmpegCmd`. A tick takes the two subprocesses' exit codes as answers, so
  the command arguments never affect the modelled outcome. What the two
  commands say is stated on their own, and `ConversionReadsDownload` ties them together.
- `str.lower` and the regex class `\w` are ASCII-only here. Python's are Unicode-aware.
- `repr` of the argument list is modelled as quoting each item with single
  quotes, without Python's escaping rules.
- `os.path` follows POSIX with '/' as the only separator.
- The STT configuration (model files, prompt, beam size) is not modelled,
  because only the server process reads it.
- Supervisor.CrashLogLayout: states that the exit-code section holds
  `IntToString(code)`. That this numeral reads back as the code is the
  separate lemma `Strings.IntRoundTrip`.
- Media ids are used as file names, but the code does not make them safe
  for that. A youtu.be link with an inner '/' gives an id containing '/',
  and a `v` query value may even start with '/'. The model follows the code.
  `Pipeline.ArtifactPaths`, `Pipeline.ArtifactNames` and `Pipeline.AttachmentIsSavedFile` state their
  properties only for ids without such a leading or inner '/'.
