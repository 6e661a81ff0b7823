# ffmpeg-docker core, modelled in Dafny

This project models the core of ffmpeg-docker. That service wraps ffmpeg behind an HTTP API. Each request starts one ffmpeg process that does one of these:

- sends a media file to an SRT listener;
- records an SRT, UDP or DeckLink source to a file;
- plays audio over test bars to UDP or RTMP;
- plays a UDP stream or test bars out to a DeckLink card.

The model covers four parts:

- **The job registry** (`JobManager`). It is a map from the hash of an endpoint to a job record, bounded by a queue size.
  - `start` checks the queue size, then refuses a duplicate key.
  - `update` overlays a patch on the record.
  - `end` optionally sends SIGINT, stamps the end time, removes the entry, and asks for the thumbnail to be deleted and evicted from the cache.
  - `Registry` is a class whose methods change the map in place. The functions `Admit`, `UpdateJobs`/`UpdateReply` and `Ending` give the same transitions on values, and the lemmas are stated about them.
- **The overlay composer** (`FilterText`). It builds the list of `drawtext`/`scrolltext` filters: two centre lines, two top-right lines and a timecode. Each filter keeps its font, colours, size and integer position.
- **The playlist helper** (`Ffconcat`). It covers:
  - parsing a playlist into media names;
  - writing a playlist from names;
  - `add` and `remove`.
- **The eight ffmpeg services.** Each service file has:
  - `CommandFor`, the ffmpeg invocation as a pure function of the options and the job;
  - `Build` and `MainCommand`, which make the same builder calls as the source, in the same order;
  - `Process`, the whole request: registration, the command, and the response;
  - `OnEvent`, the handlers for `start`, `progress`, `stderr`, `end` and `error`, including the decision to relaunch.

  The builder is fluent-ffmpeg, modelled in `Ffmpeg`. `Pipeline` holds the option strings, URL templates and defaults the services share. It also holds the closing filter and thumbnail blocks, the registration step and the event dispatcher.

Several quirks of the source are modelled as written:

- The SRT output URL of the file sender ends in `&maxbw==`, with the doubled `=`.
- The second centre line scrolls with the top-level `scrolling` flag; the other lines use `overlay.scrolling`.
- Fonts and colours are read from different levels of the options, as the source reads them.
- Some services add a thumbnail output unless `thumbnail` is `false`. Others add one only when `thumbnail` is truthy.

The source and its description disagree in two places; the model follows the code:

- `start` checks the queue size before the duplicate key, so a full queue is reported even for a key that is already running.
- When `end` is asked to signal and `process.kill` throws (which it always does when no pid was recorded), the job stays registered and no cleanup happens.

## Model

| member | source | states |
|---|---|---|
| JobManager.AdmitChecksCapacityFirst | utils/jobManager.js:9-26 | at or above the queue size `start` reports a full queue, whatever the key |
| JobManager.AdmitRefusesDuplicate | utils/jobManager.js:11-23 | below the queue size a key already present is refused as already running |
| JobManager.AdmitAddsOneEntry | utils/jobManager.js:11-20 | a successful start adds exactly one entry under the hashed key, numbered one past the old size, with the given name and tags, and leaves the rest unchanged |
| JobManager.AdmitPreservesConsistency | utils/jobManager.js:8-27 | `start` keeps the registry within the queue size with every record under its own id |
| JobManager.LookupAfterAdmit | utils/jobManager.js:59-66 | `get` after a successful start finds the job just created |
| JobManager.UpdateOverlaysPatch | utils/jobManager.js:29-32 | on a present key the patch's fields win, the other fields and every other entry stay, and the merged record is returned |
| JobManager.UpdateMissingKey | utils/jobManager.js:33-35 | on a missing key `update` returns the error object and changes nothing |
| JobManager.UpdatePreservesConsistency | utils/jobManager.js:29-36 | `update` keeps the registry invariant |
| JobManager.EndRemovesExactlyOne | utils/jobManager.js:38-53 | ending a present job removes exactly its key, returns it stamped with end time and duration, and asks for the signal, if any, then the thumbnail deletion and cache eviction |
| JobManager.EndSignalFailureKeepsJob | utils/jobManager.js:42-44 | when the signal cannot be sent, `end` throws before any cleanup and the entry stays |
| JobManager.EndWithoutKillSendsNoSignal | utils/jobManager.js:42-44 | without `kill` no signal is sent |
| JobManager.EndMissingKey | utils/jobManager.js:54-56 | on a missing key `end` returns the error object and changes nothing |
| JobManager.EndTwice | utils/jobManager.js:38-57 | a second `end` of the same key finds nothing, so cleanup happens at most once |
| JobManager.EndPreservesConsistency | utils/jobManager.js:38-57 | `end` keeps the registry invariant |
| JobManager.StartAfterEnd | utils/jobManager.js:8-57 | once `end` has removed a job, with or without a delivered kill signal, a new start for its key succeeds |
| JobManager.RunStaysWithinCapacity | utils/jobManager.js:5-57 | any sequence of start, update and end calls keeps at most the queue size of jobs, one per key |
| JobManager.Registry.constructor | utils/jobManager.js:5-6 | an empty registry whose queue size is the configured one, or 5 |
| JobManager.Registry.Start | utils/jobManager.js:8-27 | the new map and the returned job or error are those of `Admit`; the invariant holds |
| JobManager.Registry.Update | utils/jobManager.js:29-36 | the new map and the reply are those of `UpdateJobs`/`UpdateReply` |
| JobManager.Registry.End | utils/jobManager.js:38-57 | the new map, the reply and the effects appended are those of `Ending` |
| JobManager.Registry.Get | utils/jobManager.js:59-66 | the job under the hash of the endpoint exactly when there is one, live and keyed by its id |
| JobManager.Registry.GetById | utils/jobManager.js:68-74 | the job under the given key exactly when there is one |
| JobManager.Registry.GetAll | utils/jobManager.js:76-78 | the registry's whole map: every live job, each under its own id, at most the queue size of them |
| JobManager.DuplicateStartScenario | utils/jobManager.js:8-23 | two starts for one endpoint: job number 1, then "already running" |
| JobManager.CapacityScenario | utils/jobManager.js:8-57 | with queue size 1 a second endpoint is refused while the first runs and accepted after it ends |
| FilterText.FontSize | utils/filter-text.js:8 | the overlay's font size when set, 50 otherwise, never 0 |
| FilterText.ComposeTextFilters | utils/filter-text.js:7-105 | the pushed list equals `TextFilters`, including the early stop when there is no overlay |
| FilterText.PushTopRight | utils/filter-text.js:45-78 | appends exactly the top-right lines that are set |
| FilterText.AtMostFiveFilters | utils/filter-text.js:9-104 | at most five filters, none without an overlay |
| FilterText.ScrollingFlags | utils/filter-text.js:11-100 | centre line 1 and the timecode scroll with `overlay.scrolling`, line 2 with the top-level flag, the top-right lines never |
| FilterText.FullOverlayOrder | utils/filter-text.js:11-100 | with every field set, the five lines in order centre 1, centre 2, top-right 1, top-right 2, timecode |
| FilterText.Positions | utils/filter-text.js:24-98 | each line's position and size as integer parts of 0.4, 0.6, 1.2 and 1.8 font sizes and half the size |
| FilterText.ComposedLayout | utils/filter-text.js:11-100 | in the composed list only centred lines scroll; every right-inset line is a plain drawtext at half size, 0.4 sizes from the edge, measured from the top; every centred line is full size and placed about the centre |
| FilterText.DefaultSizeOffsets | utils/filter-text.js:8-98 | at the default size the offsets are 30, 60 and 90, the top-right size 25 and the inset 20 |
| FilterText.DefaultCentreLineStyle | utils/filter-text.js:20-24 | the default style string of centre line 1: white at size 50 on a half-transparent black box, 30 above the centre |
| FilterText.TimecodeShift | utils/filter-text.js:79-100 | the timecode is the last filter and is shifted by 3600 seconds per unit of offset |
| Ffconcat.Split | utils/ffconcat.js:9 | at least one piece, none containing the separator |
| Ffconcat.LastSegmentOfPath | utils/ffconcat.js:13-14 | the last `/` segment of a path ending in a plain name is that name |
| Ffconcat.Parse | utils/ffconcat.js:7-23 | the loop gathers the last segment of every non-empty, non-comment line, in order |
| Ffconcat.Set | utils/ffconcat.js:37-54 | the loop writes the header and one entry per item, in order |
| Ffconcat.ParseSetRoundTrip | utils/ffconcat.js:7-54 | parsing what `set` wrote gives back the items, for plain names |
| Ffconcat.Add | utils/ffconcat.js:56-74 | the result is that of appending the entry to what was read, then parsing and rewriting |
| Ffconcat.AddAppendsItem | utils/ffconcat.js:56-67 | adding a plain name to a readable playlist appends it to the items, and the rewritten text parses back to them |
| Ffconcat.AddFalsyItem | utils/ffconcat.js:60-67 | an empty item leaves the items as parsed |
| Ffconcat.AddToMissingPlaylist | utils/ffconcat.js:58-64 | adding to a playlist that cannot be read yields the items `false` and the new item |
| Ffconcat.CorrectedAddOutcome | utils/ffconcat.js:56-67 | an unreadable playlist treated as empty yields just the new item; otherwise as written |
| Ffconcat.Remove | utils/ffconcat.js:76-97 | the loop drops the lines that are the item's path and keeps the last segment of the other kept lines; nothing when the playlist cannot be read |
| Ffconcat.RemoveFromPlaylist | utils/ffconcat.js:76-91 | removing from a playlist `set` wrote drops every occurrence of the item and keeps the others in order |
| Ffmpeg.NewCommand | services/file-srt.js:29 | a new command has no input and one output without a target |
| Ffmpeg.Command.AddInput | services/audio-udp.js:32-35 | the new input is appended and the outputs are untouched |
| Ffmpeg.Command.InputOptions | services/file-srt.js:31 | options are appended to the current input only |
| Ffmpeg.Command.InputFormat | services/decklink-file.js:34 | the format is set on the current input only |
| Ffmpeg.Command.AddOutput | services/udp-file.js:40-47 | fills in the target of a target-less current output, otherwise appends a new output |
| Ffmpeg.Command.OutputOptions | services/file-srt.js:41-42 | options are appended to the current output only |
| Ffmpeg.Command.VideoFilters | services/file-srt.js:55-57 | filters are appended to the current output only |
| Ffmpeg.OptionsBeforeTarget | services/audio-udp.js:36-38 | output options given before the first target belong to the output that target names |
| Ffmpeg.OptionsAfterTarget | services/file-srt.js:59-62 | after a further target, options go to the new output only |
| Pipeline.LoopFlag | services/file-srt.js:14-17 | `-stream_loop -1` exactly when the input repeats, `-stream_loop 0` otherwise |
| Pipeline.ThumbnailFrequency | services/file-srt.js:62 | the configured frequency when set, 1 otherwise |
| Pipeline.VbrBlock | services/file-srt.js:46-53 | no options without VBR; with VBR the mux rate and the 500K buffer |
| Pipeline.SegmentBlock | services/srt-file.js:46-51 | no options without a chunk size; otherwise seven, starting `-f segment`, with the size in decimal |
| Pipeline.SegmentTimeReadsBack | services/srt-file.js:49 | the segment time reads back as the chunk size |
| Pipeline.LatencyParam | services/file-srt.js:35 | an absent or zero latency gives 250000, otherwise the latency times 1000 |
| Pipeline.LatencyInMicroseconds | services/file-srt.js:35 | a positive latency is written as its digits followed by three zeros |
| Pipeline.FileRequestFor | services/srt-file.js:24-28 | the file is `output.file`, or the job id when that is unset; format and chunk size are passed on |
| Pipeline.Sidecar | services/file-srt.js:59-67 | one thumbnail output when the thumbnail is on, none otherwise |
| Pipeline.Close | services/file-srt.js:55-67 | the filters go on the main output, then the thumbnail output follows with the same filters |
| Pipeline.LaunchOutcome | services/file-srt.js:21-106 | a command runs exactly when registration succeeds; the job reported is the new one, or the one already running under the key |
| Pipeline.SecondLaunchRefused | utils/jobManager.js:9-23 | while a command runs under a key, a second request for that key runs nothing and reports the running job |
| Pipeline.Handle | services/file-srt.js:69-97 | the registry changes and the relaunch decision are those of `AfterEvent` |
| Pipeline.RestartOnlyOnTransientError | services/file-srt.js:89-97 | a relaunch happens only for services that relaunch, only on an error, and exactly when its text is an I/O error or a failed conversion |
| Pipeline.EventsNeverSignal | services/file-srt.js:69-97 | no handler sends a signal; only the ended job's thumbnail is deleted and evicted; other jobs are untouched; the invariant holds |
| Pipeline.EventEffects | services/srt-file.js:69-98 | end and error remove the job; start records the command line, pid, options and, where stored, the file; progress is recorded only where listened for |
| Pipeline.LateEventsChangeNothing | services/file-srt.js:69-97 | events after end or error change no job |
| Pipeline.TransientTexts | services/file-srt.js:93 | ffmpeg's I/O-error and conversion-failed messages are transient; an empty one is not |
| FileSrt.Build | services/file-srt.js:27-67 | the built command is `CommandFor` |
| FileSrt.MainCommand | services/file-srt.js:14-53 | one looped media-file input; the SRT output with preset, MPEG-TS, bitrate and VBR options |
| FileSrt.Process | services/file-srt.js:12-107 | registry and response are those of `Launching` with this service's key, name, tags and command |
| FileSrt.OnEvent | services/file-srt.js:69-97 | no file stored, progress tracked, relaunch on transient errors |
| FileSrt.CommandShape | services/file-srt.js:29-67 | loop flag first; the SRT target; the 500K buffer exactly with VBR; the thumbnail output exactly when not switched off, with the same filters |
| FileSrt.DefaultOutputUrl | services/file-srt.js:32-40 | with nothing set, the URL carries 1316, 250000, caller, 64, 104, live and `maxbw==-1` |
| SrtFile.Build | services/srt-file.js:24-67 | the built command is `CommandFor` |
| SrtFile.MainCommand | services/srt-file.js:32-51 | the SRT input with the passphrase when set; the file output with the segment options |
| SrtFile.Process | services/srt-file.js:13-108 | registry and response are those of `Launching` for the SRT source |
| SrtFile.OnEvent | services/srt-file.js:69-98 | the recording's path stored, no progress, relaunch on transient errors |
| SrtFile.CommandShape | services/srt-file.js:24-67 | the recording goes to the path for `output.file` or the job id; segmented exactly when a chunk size is set; thumbnail unless switched off |
| SrtFile.SegmentedRecording | services/srt-file.js:46-51 | a set chunk size gives segments of that length |
| SrtFile.PassphraseOnlyWhenSet | services/srt-file.js:40 | the URL gains `&passphrase=` exactly when a passphrase is set |
| SrtFile.RecorderRefusedWhileSenderRuns | services/srt-file.js:18-22 | a sender and a recorder on the same address and port share a key: the recorder is refused while the sender runs |
| UdpFile.Build | services/udp-file.js:24-63 | the built command is `CommandFor` |
| UdpFile.MainCommand | services/udp-file.js:32-47 | the UDP input; the segment options given before the file target land on it |
| UdpFile.Process | services/udp-file.js:13-104 | registry and response are those of `Launching` for the UDP source |
| UdpFile.OnEvent | services/udp-file.js:65-94 | the recording's path stored, no progress, relaunch on transient errors |
| UdpFile.CommandShape | services/udp-file.js:24-63 | the file target, segmented exactly with a chunk size; a thumbnail only when asked for, so an absent setting gives none here and one in the SRT recorder |
| UdpFile.SegmentedRecording | services/udp-file.js:40-47 | a set chunk size gives segments of that length |
| UdpFile.DefaultInputUrl | services/udp-file.js:33-37 | the default packet size 1316 and buffer 65535 |
| UdpFile.UdpRecorderRefusedWhileSrtRecorderRuns | services/udp-file.js:18-22 | an SRT and a UDP recorder on the same address and port share a key: the second is refused |
| AudioUdp.Build | services/audio-udp.js:30-74 | the built command is `CommandFor` |
| AudioUdp.MainCommand | services/audio-udp.js:14-60 | the audio file then the lavfi pattern; the UDP output opens with the options given before its target |
| AudioUdp.Process | services/audio-udp.js:12-118 | registry and response are those of `Launching` for the UDP destination |
| AudioUdp.OnEvent | services/audio-udp.js:76-108 | no file, progress tracked, relaunch on transient errors |
| AudioUdp.CommandShape | services/audio-udp.js:31-74 | two inputs in order with the loop flag on the audio; `-ar 48000` and `-shortest` first on the output; thumbnail unless switched off |
| AudioUdp.VbrOnlyWhenSet | services/audio-udp.js:43-60 | the 500K buffer appears exactly when VBR is on |
| AudioUdp.DefaultJitterBuffer | services/audio-udp.js:45 | the reorder queue holds 25 packets unless set |
| AudioRtmp.Build | services/audio-rtmp.js:32-58 | the built command is `CommandFor` |
| AudioRtmp.MainCommand | services/audio-rtmp.js:15-42 | the same two inputs; the RTMP output with FLV muxing and the bitrate |
| AudioRtmp.Process | services/audio-rtmp.js:13-99 | registry and response are those of `Launching` under the RTMP address |
| AudioRtmp.OnEvent | services/audio-rtmp.js:60-89 | no file, progress tracked, relaunch on transient errors |
| AudioRtmp.CommandShape | services/audio-rtmp.js:33-58 | the UDP sender's inputs; exactly four output options, no VBR; a thumbnail only when asked for |
| AudioRtmp.PortDoesNotSeparateStreams | services/audio-rtmp.js:23-29 | two requests differing only in port share a key: the second is refused |
| UdpDecklink.Build | services/udp-decklink.js:22-63 | the built command is `CommandFor` |
| UdpDecklink.MainCommand | services/udp-decklink.js:24-49 | the UDP input; the DeckLink options given before the card target land on it |
| UdpDecklink.Process | services/udp-decklink.js:12-103 | registry and response are those of `Launching` for the output card |
| UdpDecklink.OnEvent | services/udp-decklink.js:65-93 | no file, no progress, relaunch on transient errors |
| UdpDecklink.CommandShape | services/udp-decklink.js:24-63 | real-time UDP input; the card as target with `-f decklink` and `-async 1` last; thumbnail unless switched off |
| UdpDecklink.DefaultVolume | services/udp-decklink.js:43 | a quarter volume unless set |
| UdpDecklink.RelaunchesOnTransientError | services/udp-decklink.js:84-93 | relaunch exactly on an error with a transient text |
| DecklinkFile.Build | services/decklink-file.js:24-67 | the built command is `CommandFor` |
| DecklinkFile.MainCommand | services/decklink-file.js:32-51 | the card input in the decklink format; segment options before the file target |
| DecklinkFile.Process | services/decklink-file.js:13-102 | registry and response are those of `Launching` for the input card |
| DecklinkFile.OnEvent | services/decklink-file.js:69-92 | the recording's path stored, no progress, never a relaunch |
| DecklinkFile.CommandShape | services/decklink-file.js:32-67 | the card is the only input, with the duplex mode (`unset` by default) last; the file target, segmented exactly with a chunk size |
| DecklinkFile.SegmentedRecording | services/decklink-file.js:44-51 | a set chunk size gives segments of that length |
| DecklinkFile.NeverRelaunches | services/decklink-file.js:89-92 | no event relaunches the recorder; an error still ends its job |
| DecklinkFile.CaptureKeyDiffersFromPlayoutKey | services/decklink-file.js:18 | a capture key (`-in`) never equals a playout key (`-out`) |
| BarsDecklink.Build | services/bars-decklink.js:22-53 | the built command is `CommandFor` |
| BarsDecklink.MainCommand | services/bars-decklink.js:24-39 | the pattern and the tone; the DeckLink options given before the card target land on it |
| BarsDecklink.Process | services/bars-decklink.js:12-87 | registry and response are those of `Launching` for the output card |
| BarsDecklink.OnEvent | services/bars-decklink.js:55-77 | no file, no progress, never a relaunch |
| BarsDecklink.CommandShape | services/bars-decklink.js:24-53 | pattern then tone; the card target with the UDP player's options except `-async 1`; thumbnail unless switched off |
| BarsDecklink.DefaultSources | services/bars-decklink.js:25-27 | SMPTE HD bars and a 1000 Hz tone unless set |
| BarsDecklink.BarsRefusedWhileCardPlays | services/bars-decklink.js:17-20 | bars and the UDP player share a card's key: bars are refused while the player runs |
| BarsDecklink.NeverRelaunches | services/bars-decklink.js:74-77 | no event relaunches the generator |

## Left out

- I/O is not modelled. The playlist file is read by the caller and written by no one: `Ffconcat` takes what was read and returns the text to write. Thumbnail deletion and cache eviction are recorded as effects, not performed. The ffmpeg process is not run: `Process` returns the invocation it would run.
- The time and signalling inputs are parameters. The clock is a `now` argument. Whether `process.kill` succeeds is the `delivered` argument of `end`. The MD5 digest is an arbitrary fixed function of the registry.
- Several helpers are not part of this model; each becomes a parameter or a symbol:
  - `filterCombine` is the `combine` parameter. It gives `None` when its result is not an array, and its result is typed as a list of text filters.
  - `getFilePath` and `getRtmpAddress` are parameters.
  - `parse` (text substitution) appears as the template a filter would show.
  - `setCodec` is treated as leaving the command unchanged.
  - `filterImage` is imported but never called by the services.
- Pipeline.AfterEvent: the relaunch is returned as a decision, not performed. A relaunch is another `Process` call with the same options.
- Concurrency and ordering are not modelled: `process` is `async`, and the `start` handler writes `response.job` after the response may already have been returned. `Process` reports the job as `get` finds it when `process` returns.
- Floating point is not modelled. Font sizes are whole numbers, and `parseInt(fontSize * 0.6)` is the integer part of `fontSize * 6 / 10`, without binary rounding. The timecode's `Date.now() / 1000` is kept symbolic as a clock with a shift. `Math.floor` of the progress percentage is done by the caller.
- Options are typed. Missing required fields (an undefined `file` or `cardName`) and non-string values are not modelled. An absent string is the empty string, which is what the source's `||` defaults distinguish.
- Pipeline.Launching: a throw after `start` and before `command.run()` is not modelled. In the file-to-SRT sender an undefined input `file` reaches `path.join` inside the `try`, after `start` (services/file-srt.js:21-30). In the DeckLink player, capture and bars services an undefined `cardName` gives the key `undefined-out` or `undefined-in` and then an undefined card input or target. In these cases the source registers the job, sets `errors`, and runs nothing. The entry then has no pid, so every later `end` with kill throws, and the entry holds a queue slot until the service restarts. The two audio services are different: they join the audio file path before the `try` and before `start` (services/audio-udp.js:21-24, services/audio-rtmp.js:22-26), so an undefined `file` makes `process` reject with no job registered, no `errors` set and no response. In the model a command runs exactly when `start` succeeds.
- JobManager.Lookup / JobManager.Ending: the jobs live in a plain object looked up by truthiness, but the model's map treats an id naming an inherited `Object.prototype` member (`constructor`, `toString`, `__proto__`) as absent. In the source, `end` with kill on such an id throws from `process.kill(undefined)`, `getbyId` returns the inherited member, and `update` adds an own key that breaks the invariant. `EndMissingKey`, `UpdateMissingKey` and `Registry.GetById` hold only for other ids. Hashed endpoint keys are hex digests and never such names; only the kill route passes a caller's id.
- JobManager.Patch: a patch names only `command`, `pid`, `options`, `file` and `progress`, and `None` stands for an absent key. The source's spread accepts any field, and a key whose value is `undefined` or `NaN` still overrides the stored value. Examples are `pid` after a failed spawn and `Math.floor(undefined)` progress. `Event.Start` carries a whole pid. `UpdatePreservesConsistency` keeps `jobId` only because a patch cannot name it.
- `path.join` is concatenation with `/`. Its normalisation is left out, so the round-trip lemmas require plain names.
- fluent-ffmpeg splits an option string such as `-f mpegts` into words. The model keeps each option string as it is given.
- Ffconcat exceptions: the only failure modelled is the one an unreadable playlist causes. `remove` then returns `None`, standing for `false`. `add` with a falsy item then returns `AddResult(None, None, None)`, standing for `{raw: false, items: false}`, and nothing is written. `parse` and `set` cannot throw on the typed text and names of the model.
- Ffconcat.getItems (utils/ffconcat.js:99-109) is not modelled separately. It is `get` followed by `Parse`.
- The `logger` calls and `ffmpeg.setFfmpegPath` have no effect in the model.

## Findings

| source | as written | input that shows it | evidently intended | confidence | as-written member | corrected member |
|---|---|---|---|---|---|---|
| utils/ffconcat.js:58-64 | `add` appends the new entry to whatever `get` returned, and `get` returns the boolean `false` when the playlist file cannot be read | `add("new", "clip.mp4")` with no file `new.ffconcat`: the text is `false` followed by the entry, which parses to the items `["false", "clip.mp4"]` | a missing playlist is an empty one, and the new playlist holds just `clip.mp4` | not executed | Ffconcat.AddToMissingPlaylist | Ffconcat.CorrectedAddOutcome |
