/** What the eight services share: the option strings and URL templates
    with their defaults, the thumbnail sidecar and filter blocks that end
    every command, the registration step that precedes the command, and the
    dispatch of the running process's lifecycle events to the registry. */
module Pipeline {
  import opened Wrappers
  import opened Strings
  import opened Paths
  import opened Config
  import opened FilterText
  import opened Ffmpeg
  import opened JobManager

  /** The helpers whose source is not part of this model, as parameters:
      the application directory, `getFilePath`, `getRtmpAddress` and
      `filterCombine` (`None` when its result is not an array). */
  datatype Env = Env(
    root: string,
    filePath: FileRequest -> string,
    rtmpAddress: (string, string) -> string,
    combine: seq<TextFilter> -> Option<seq<TextFilter>>)

  /** The argument of `getFilePath`. */
  datatype FileRequest = FileRequest(file: string, format: string, chunks: nat)

  /** The object `process` returns: the options, the job `get` finds under
      the service's key, the error registration threw, and the command that
      was run (`None` when none was). */
  datatype Response = Response(options: Options, job: Option<Job>, errors: Option<StartError>, launched: Option<Invocation>)

  // ---------------------------------------------------------------------
  // option strings

  /** `-stream_loop -1` for a repeated input, `-stream_loop 0` otherwise. */
  function LoopFlag(repeat: bool): (flag: string)
    ensures flag == "-stream_loop -1" <==> repeat
    ensures flag == "-stream_loop 0" <==> !repeat
  {
    if repeat then "-stream_loop -1" else "-stream_loop 0"
  }

  /** `options.thumbnail !== false`. */
  predicate ThumbnailEnabled(t: Thumbnail) {
    t != ThumbnailFlag(false)
  }

  /** `options.thumbnail` is truthy. */
  predicate ThumbnailRequested(t: Thumbnail) {
    t.ThumbnailSettings? || t == ThumbnailFlag(true)
  }

  /** `options.thumbnail.frequency || 1`. */
  function ThumbnailFrequency(t: Thumbnail): (f: string)
    ensures f != ""
    ensures t.ThumbnailSettings? && t.frequency != "" ==> f == t.frequency
    ensures !(t.ThumbnailSettings? && t.frequency != "") ==> f == "1"
  {
    if t.ThumbnailSettings? then OrElse(t.frequency, "1") else "1"
  }

  function ThumbnailOptions(t: Thumbnail): seq<string> {
    ["-r " + ThumbnailFrequency(t), "-update 1"]
  }

  /** `output.bitrate || "5M"`. */
  function Bitrate(e: Endpoint): string {
    OrElse(e.bitrate, "5M")
  }

  /** The variable-bitrate block: minimum and maximum rate, a mux rate equal
      to the bitrate and a 500K buffer. */
  function VbrOptions(e: Endpoint, vbr: Vbr): seq<string> {
    ["-minrate " + OrElse(vbr.minBitrate, "5M"), "-maxrate " + OrElse(vbr.maxBitrate, "5M"),
     "-muxrate " + Bitrate(e), "-bufsize 500K"]
  }

  /** The VBR block when `output.vbr` is set, nothing otherwise. */
  function VbrBlock(e: Endpoint): (opts: seq<string>)
    ensures e.vbr.None? <==> opts == []
    ensures e.vbr.Some? ==> "-bufsize 500K" in opts && "-muxrate " + Bitrate(e) in opts
  {
    if e.vbr.Some? then VbrOptions(e, e.vbr.value) else []
  }

  /** The three `outputOptions` calls that cut the recording into chunks. */
  function SegmentOptions(chunkSize: nat): seq<string> {
    ["-f", "segment"] + ["-segment_time", NatToString(chunkSize)] + ["-reset_timestamps", "1", "-y"]
  }

  /** The segment block when `output.chunkSize` is set, nothing otherwise. */
  function SegmentBlock(e: Endpoint): (opts: seq<string>)
    ensures e.chunkSize == 0 <==> opts == []
    ensures e.chunkSize != 0 ==> |opts| == 7 && opts[0..2] == ["-f", "segment"] && opts[3] == NatToString(e.chunkSize)
  {
    if e.chunkSize != 0 then SegmentOptions(e.chunkSize) else []
  }

  /** The chunk length in the segment block reads back as the configured
      chunk size. */
  lemma SegmentTimeReadsBack(e: Endpoint)
    requires e.chunkSize != 0
    ensures var opts := SegmentBlock(e);
      && opts[2] == "-segment_time"
      && (forall i | 0 <= i < |opts[3]| :: IsDigit(opts[3][i]))
      && DigitsValue(opts[3]) == e.chunkSize
  {
    DigitsValueOfNatToString(e.chunkSize);
  }

  /** `${address}:${port}`. */
  function HostPort(e: Endpoint): string {
    e.address + ":" + e.port
  }

  /** `parseInt(latency) * 1000 || "250000"`: a latency in milliseconds
      becomes microseconds; an absent (NaN) or zero latency gives 250000. */
  function LatencyParam(latency: Option<int>): (s: string)
    ensures latency.None? || latency.value == 0 ==> s == "250000"
    ensures latency.Some? && latency.value != 0 ==> s == IntToString(latency.value * 1000)
  {
    if latency.Some? && latency.value != 0 then IntToString(latency.value * 1000) else "250000"
  }

  /** A positive latency in milliseconds is written in microseconds: its
      digits followed by three zeros. */
  lemma LatencyInMicroseconds(ms: nat)
    requires ms > 0
    ensures LatencyParam(Some(ms)) == NatToString(ms) + "0" + "0" + "0"
  {
    NatToStringTimesTen(ms);
    NatToStringTimesTen(ms * 10);
    NatToStringTimesTen(ms * 10 * 10);
    assert ms * 1000 == ms * 10 * 10 * 10;
  }

  /** The SRT URL both SRT services build, up to the transport type. */
  function SrtUrl(e: Endpoint): string {
    "srt://" + HostPort(e) + "?pkt_size=" + OrElse(e.packetSize, "1316") + "&latency=" + LatencyParam(e.latency)
      + "&mode=" + OrElse(e.mode, "caller") + "&ipttl=" + OrElse(e.ttl, "64") + "&iptos=" + OrElse(e.tos, "104")
      + "&transtype=" + OrElse(e.transtype, "live")
  }

  /** The UDP URL of udp-file, audio-udp and udp-decklink. */
  function UdpUrl(e: Endpoint): string {
    "udp://" + HostPort(e) + "?pkt_size=" + OrElse(e.packetSize, "1316") + "&buffer_size=" + OrElse(e.buffer, "65535")
  }

  /** The lavfi test pattern source, `smptehdbars` unless `input.type` says
      otherwise. */
  function PatternSource(e: Endpoint): string {
    OrElse(e.pattern, "smptehdbars") + "=rate=25:size=1920x1080"
  }

  /** The output options both services that play out to a DeckLink card
      give: UYVY 1080 video, 16 audio channels, the volume (0.25 unless set)
      and low-delay muxing. */
  function DecklinkArgs(e: Endpoint): seq<string> {
    ["-pix_fmt uyvy422", "-s 1920x1080", "-ac 16", "-f decklink", "-af volume=" + OrElse(e.volume, "0.25"),
     "-flags low_delay", "-bufsize 0", "-muxdelay 0"]
  }

  /** The request to `getFilePath`: `output.file`, or the job id when it is
      unset. */
  function FileRequestFor(o: Options, job: Job): (r: FileRequest)
    ensures o.output.file != "" ==> r.file == o.output.file
    ensures o.output.file == "" ==> r.file == job.jobId
    ensures r.format == o.output.format && r.chunks == o.output.chunkSize
  {
    FileRequest(OrElse(o.output.file, job.jobId), o.output.format, o.output.chunkSize)
  }

  /** The overlay filters after `filterCombine`. */
  function Filters(env: Env, o: Options): Option<seq<TextFilter>> {
    env.combine(TextFilters(o.text))
  }

  // ---------------------------------------------------------------------
  // the closing blocks of every command

  /** The filters `videoFilters` receives: none unless `filterCombine` gave
      an array. */
  function FilterList(filters: Option<seq<TextFilter>>): seq<TextFilter> {
    filters.GetOr([])
  }

  /** The thumbnail sidecar: when it is on, one output writing a PNG named
      after the job into the thumbnail directory, rewritten at the thumbnail
      frequency, with the same filters as the main output. */
  function Sidecar(root: string, jobId: string, thumbnail: bool, t: Thumbnail, filters: Option<seq<TextFilter>>): (s: seq<Output>)
    ensures |s| == (if thumbnail then 1 else 0)
  {
    if thumbnail then [Output(Some(ThumbnailPath(root, jobId)), ThumbnailOptions(t), FilterList(filters))] else []
  }

  /** The two blocks every service ends its command with: the filters on the
      main output, then the thumbnail output with the filters again. */
  method Close(c: Command, root: string, jobId: string, thumbnail: bool, t: Thumbnail, filters: Option<seq<TextFilter>>)
    returns (d: Command)
    requires c.earlierOutputs == [] && c.currentOutput.target.Some?
    ensures d.View() == Invocation(c.View().inputs,
                                   [c.currentOutput.(videoFilters := c.currentOutput.videoFilters + FilterList(filters))]
                                   + Sidecar(root, jobId, thumbnail, t, filters))
  {
    var main := c.currentOutput.(videoFilters := c.currentOutput.videoFilters + FilterList(filters));
    d := c;
    if filters.Some? {
      d := d.VideoFilters(filters.value);
    } else {
      assert c.currentOutput.videoFilters + [] == c.currentOutput.videoFilters;
    }
    assert d.currentOutput == main && d.earlierOutputs == [] && d.View().inputs == c.View().inputs;
    if thumbnail {
      d := d.AddOutput(ThumbnailPath(root, jobId));
      d := d.OutputOptions(ThumbnailOptions(t));
      assert [] + ThumbnailOptions(t) == ThumbnailOptions(t);
      if filters.Some? {
        d := d.VideoFilters(filters.value);
        assert [] + filters.value == filters.value;
      }
      assert d.earlierOutputs == [main];
    }
  }

  // ---------------------------------------------------------------------
  // registration

  /** The outcome of the registration step and what follows it. */
  datatype Launch = Launch(jobs: map<string, Job>, job: Option<Job>, errors: Option<StartError>, launched: Option<Invocation>)

  /** `start` under the service's key; when it succeeds the command `build`
      makes for the new job is run, when it throws the error is reported and
      nothing is run; either way the job is then looked up under the key. */
  function Launching(jobs: map<string, Job>, capacity: nat, id: string, name: string, tags: seq<string>, now: int,
                     build: Job -> Invocation): Launch
  {
    match Admit(jobs, capacity, id, name, tags, now)
    case Started(job, after) => Launch(after, Lookup(after, id), None, Some(build(job)))
    case Refused(e) => Launch(jobs, Lookup(jobs, id), Some(e), None)
  }

  /** A command runs exactly when registration succeeds; the job returned is
      then the one just registered, under the key, with the service's name
      and tags. When registration is refused nothing changes, the error is
      reported, and the job returned is the one already running under the
      key, if any (always, for a duplicate). */
  lemma LaunchOutcome(jobs: map<string, Job>, capacity: nat, id: string, name: string, tags: seq<string>, now: int,
                      build: Job -> Invocation)
    ensures var l := Launching(jobs, capacity, id, name, tags, now, build);
      && (l.launched.Some? <==> l.errors.None?)
      && (l.errors.None? <==> |jobs| < capacity && id !in jobs)
      && (l.errors.None? ==>
            && l.job.Some? && l.job.value.jobId == id && l.job.value.jobName == name && l.job.value.tags == tags
            && l.job.value.jobNumber == |jobs| + 1
            && l.launched == Some(build(l.job.value))
            && l.jobs == jobs[id := l.job.value])
      && (l.errors.Some? ==> l.jobs == jobs && l.job == Lookup(jobs, id))
      && (l.errors == Some(AlreadyRunning) ==> l.job == Some(jobs[id]))
  {
  }

  /** While a command runs under a key, a second request for the same key,
      whichever service makes it, runs nothing, changes nothing and reports
      the job already running. */
  lemma {:induction false} SecondLaunchRefused(jobs: map<string, Job>, capacity: nat, id: string,
                                               name: string, tags: seq<string>, now: int, build: Job -> Invocation,
                                               name2: string, tags2: seq<string>, later: int, build2: Job -> Invocation)
    requires Launching(jobs, capacity, id, name, tags, now, build).launched.Some?
    ensures var first := Launching(jobs, capacity, id, name, tags, now, build);
      var second := Launching(first.jobs, capacity, id, name2, tags2, later, build2);
      second.errors.Some? && second.launched.None? && second.jobs == first.jobs && second.job == first.job
  {
    var first := Launching(jobs, capacity, id, name, tags, now, build);
    LaunchOutcome(jobs, capacity, id, name, tags, now, build);
    LaunchOutcome(first.jobs, capacity, id, name2, tags2, later, build2);
  }

  // ---------------------------------------------------------------------
  // lifecycle events

  /** The events a running command emits. `Progress` carries the percentage
      already rounded down. */
  datatype Event = Start(commandLine: string, pid: int) | Progress(percent: int) | Stderr(line: string) | Finished | Failed(message: string)

  /** Which handlers a service registers: whether `start` stores the output
      file path, whether there is a `progress` handler, and whether an
      `error` relaunches the service. */
  datatype Wiring = Wiring(storesFile: bool, tracksProgress: bool, restartsOnIoError: bool)

  const IoErrorText := "Input/output error"
  const ConversionFailedText := "Conversion failed!"

  /** The error texts taken for network trouble worth a relaunch. */
  predicate IsTransient(message: string) {
    Contains(message, IoErrorText) || Contains(message, ConversionFailedText)
  }

  /** What the `start` handler stores: the command line, the pid, the options
      and, for the services that record to a file, the file path. */
  function StartPatch(w: Wiring, o: Options, file: string, commandLine: string, pid: int): Patch {
    Patch(Some(commandLine), Some(pid), Some(o), if w.storesFile then Some(file) else None, None)
  }

  datatype EventStep = EventStep(jobs: map<string, Job>, emitted: seq<Effect>, restart: bool)

  /** The registry after one event for the job `jobId`: `start` and
      `progress` update it, `end` and `error` end it without a signal, and an
      `error` with a transient text asks for a relaunch where the service
      does that. */
  function AfterEvent(jobs: map<string, Job>, w: Wiring, jobId: string, o: Options, file: string, e: Event, now: int): EventStep {
    match e
    case Start(commandLine, pid) => EventStep(UpdateJobs(jobs, jobId, StartPatch(w, o, file, commandLine, pid)), [], false)
    case Progress(percent) =>
      if w.tracksProgress then EventStep(UpdateJobs(jobs, jobId, Patch(None, None, None, None, Some(percent))), [], false)
      else EventStep(jobs, [], false)
    case Stderr(_) => EventStep(jobs, [], false)
    case Finished =>
      var s := Ending(jobs, jobId, false, true, now);
      EventStep(s.jobs, s.emitted, false)
    case Failed(message) =>
      var s := Ending(jobs, jobId, false, true, now);
      EventStep(s.jobs, s.emitted, w.restartsOnIoError && IsTransient(message))
  }

  /** Dispatches one event to the handler the service registered. */
  method Handle(registry: Registry, w: Wiring, jobId: string, o: Options, file: string, e: Event, now: int)
    returns (restart: bool)
    requires registry.Valid()
    modifies registry
    ensures registry.Valid()
    ensures var s := AfterEvent(old(registry.jobs), w, jobId, o, file, e, now);
      registry.jobs == s.jobs && registry.effects == old(registry.effects) + s.emitted && restart == s.restart
  {
    restart := false;
    match e {
      case Start(commandLine, pid) =>
        var _ := registry.Update(jobId, StartPatch(w, o, file, commandLine, pid));
      case Progress(percent) =>
        if w.tracksProgress {
          var _ := registry.Update(jobId, Patch(None, None, None, None, Some(percent)));
        }
      case Stderr(_) =>
      case Finished =>
        var _ := registry.End(jobId, false, true, now);
      case Failed(message) =>
        var _ := registry.End(jobId, false, true, now);
        if w.restartsOnIoError && (Contains(message, IoErrorText) || Contains(message, ConversionFailedText)) {
          restart := true;
        }
    }
  }

  /** A relaunch happens only for a service that restarts, only on an error
      event, and exactly when the error text is transient. */
  lemma RestartOnlyOnTransientError(jobs: map<string, Job>, w: Wiring, jobId: string, o: Options, file: string, e: Event, now: int)
    ensures AfterEvent(jobs, w, jobId, o, file, e, now).restart
        <==> w.restartsOnIoError && e.Failed? && IsTransient(e.message)
  {
  }

  /** No handler sends a signal: `end` and `error` end the job with `kill`
      false, and the only effects are the thumbnail deletion and the cache
      eviction of the ended job. Other jobs are untouched. */
  lemma EventsNeverSignal(jobs: map<string, Job>, capacity: nat, w: Wiring, jobId: string, o: Options, file: string, e: Event, now: int)
    requires Consistent(jobs, capacity)
    ensures var s := AfterEvent(jobs, w, jobId, o, file, e, now);
      && (forall k | 0 <= k < |s.emitted| :: !s.emitted[k].Interrupt?)
      && (s.emitted == [] || s.emitted == [DeleteFile(ThumbnailFile(jobId)), EvictThumbnail(jobId)])
      && (forall k | k != jobId :: (k in s.jobs <==> k in jobs) && (k in jobs ==> s.jobs[k] == jobs[k]))
      && Consistent(s.jobs, capacity)
  {
    match e {
      case Start(commandLine, pid) =>
        UpdatePreservesConsistency(jobs, capacity, jobId, StartPatch(w, o, file, commandLine, pid));
      case Progress(percent) =>
        UpdatePreservesConsistency(jobs, capacity, jobId, Patch(None, None, None, None, Some(percent)));
      case Stderr(_) =>
      case Finished =>
        EndPreservesConsistency(jobs, capacity, jobId, false, true, now);
      case Failed(_) =>
        EndPreservesConsistency(jobs, capacity, jobId, false, true, now);
    }
  }

  /** `end` and `error` remove the job; the `start` event records the command
      line, the pid, the options and (only where the service stores one) the
      output file; `progress` records the percentage only where the service
      listens for it; stderr lines change nothing. */
  lemma EventEffects(jobs: map<string, Job>, w: Wiring, jobId: string, o: Options, file: string, e: Event, now: int)
    ensures var s := AfterEvent(jobs, w, jobId, o, file, e, now);
      && ((e.Finished? || e.Failed?) ==> jobId !in s.jobs)
      && (e.Start? && jobId in jobs ==>
            && jobId in s.jobs
            && s.jobs[jobId].command == Some(e.commandLine) && s.jobs[jobId].pid == Some(e.pid)
            && s.jobs[jobId].options == Some(o)
            && s.jobs[jobId].file == (if w.storesFile then Some(file) else jobs[jobId].file)
            && s.jobs[jobId].progress == jobs[jobId].progress)
      && (e.Progress? && jobId in jobs ==>
            jobId in s.jobs && s.jobs[jobId].progress == (if w.tracksProgress then Some(e.percent) else jobs[jobId].progress))
      && (e.Stderr? ==> s.jobs == jobs && s.emitted == [])
      && (jobId !in jobs ==> s.jobs == jobs && s.emitted == [])
  {
  }

  /** Events that arrive after the job has ended find nothing to update:
      once `end` or `error` has run, a later event changes no job. */
  lemma {:induction false} LateEventsChangeNothing(jobs: map<string, Job>, w: Wiring, jobId: string, o: Options, file: string,
                                                  last: Event, now: int, late: Event, later: int)
    requires last.Finished? || last.Failed?
    ensures var s := AfterEvent(jobs, w, jobId, o, file, last, now);
      AfterEvent(s.jobs, w, jobId, o, file, late, later).jobs == s.jobs
  {
    var s := AfterEvent(jobs, w, jobId, o, file, last, now);
    EventEffects(jobs, w, jobId, o, file, last, now);
    assert jobId !in s.jobs;
    EventEffects(s.jobs, w, jobId, o, file, late, later);
  }

  /** The two texts the services relaunch on, inside the messages ffmpeg
      gives, and an empty message, which is not transient. */
  lemma TransientTexts()
    ensures IsTransient("ffmpeg exited with code 1: Input/output error")
    ensures IsTransient("ffmpeg exited with code 1: Conversion failed!")
    ensures !IsTransient("")
  {
    var a := "ffmpeg exited with code 1: Input/output error";
    assert OccursAt(a, IoErrorText, 27);
    var b := "ffmpeg exited with code 1: Conversion failed!";
    assert OccursAt(b, ConversionFailedText, 27);
  }
}
