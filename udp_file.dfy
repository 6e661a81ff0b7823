/** The UDP-to-file recorder: receives an MPEG-TS stream over UDP and
    writes it to a file, optionally cut into chunks. */
module UdpFile {
  import opened Wrappers
  import opened Strings
  import opened Config
  import opened FilterText
  import opened Ffmpeg
  import opened JobManager
  import opened Pipeline
  import SrtFile

  const Tags: seq<string> := ["decode", "file", "udp"]

  /** Stores the recording's path; no progress handler; relaunches on
      transient errors. */
  const Events := Wiring(true, false, true)

  /** The registry key: the UDP source. */
  function Key(o: Options): string {
    HostPort(o.input)
  }

  function Name(o: Options): string {
    "UDP to file udp://" + HostPort(o.input)
  }

  const InputArgs: seq<string> := ["-protocol_whitelist", "srt,udp,rtp", "-stats"]

  /** The recording's path, as `getFilePath` gives it. */
  function FilePath(env: Env, o: Options, job: Job): string {
    env.filePath(FileRequestFor(o, job))
  }

  /** The command the service runs for `job`; the thumbnail output is added
      only when one is asked for. */
  function CommandFor(env: Env, o: Options, job: Job): Invocation {
    var filters := Filters(env, o);
    Invocation([Input(UdpUrl(o.input), None, InputArgs)],
               [Output(Some(FilePath(env, o, job)), SegmentBlock(o.output), FilterList(filters))]
               + Sidecar(env.root, job.jobId, ThumbnailRequested(o.thumbnail), o.thumbnail, filters))
  }

  /** The steps of `process` after registration: the file path, the overlay
      filters, then the command. */
  method Build(env: Env, o: Options, job: Job) returns (command: Command)
    ensures command.View() == CommandFor(env, o, job)
  {
    var filePath := env.filePath(FileRequest(OrElse(o.output.file, job.jobId), o.output.format, o.output.chunkSize));
    var text := ComposeTextFilters(o.text);
    var filters := env.combine(text);
    assert filters == Filters(env, o);
    command := MainCommand(o, filePath);
    command := Close(command, env.root, job.jobId, ThumbnailRequested(o.thumbnail), o.thumbnail, filters);
    assert [] + FilterList(filters) == FilterList(filters);
  }

  /** The UDP input, the segment options, and only then the file output:
      the options land on the output the path then names. */
  method MainCommand(o: Options, filePath: string) returns (command: Command)
    ensures command == Command([], Some(Input(UdpUrl(o.input), None, InputArgs)),
                               [], Output(Some(filePath), SegmentBlock(o.output), []))
  {
    command := NewCommand()
      .AddInput(UdpUrl(o.input))
      .InputOptions(["-protocol_whitelist", "srt,udp,rtp", "-stats"]);
    if o.output.chunkSize != 0 {
      command := command
        .OutputOptions(["-f", "segment"])
        .OutputOptions(["-segment_time", NatToString(o.output.chunkSize)])
        .OutputOptions(["-reset_timestamps", "1", "-y"]);
      assert [] + ["-f", "segment"] == ["-f", "segment"];
    }
    command := command.AddOutput(filePath);
    assert [] + InputArgs == InputArgs;
  }

  /** `process`: register the job, build and run the command, and report
      the job registered under the key. */
  method Process(registry: Registry, env: Env, o: Options, now: int) returns (r: Response)
    requires registry.Valid()
    modifies registry
    ensures registry.Valid() && registry.effects == old(registry.effects)
    ensures var l := Launching(old(registry.jobs), registry.capacity, registry.hash(Key(o)), Name(o), Tags, now,
                               job => CommandFor(env, o, job));
      registry.jobs == l.jobs && r == Response(o, l.job, l.errors, l.launched)
  {
    var started := registry.Start(Key(o), Some(Name(o)), Some(Tags), now);
    var launched: Option<Invocation> := None;
    var errors: Option<StartError> := None;
    match started {
      case Success(job) =>
        var command := Build(env, o, job);
        launched := Some(command.View());
      case Failure(e) =>
        errors := Some(e);
    }
    r := Response(o, registry.Get(Key(o)), errors, launched);
  }

  /** The handlers registered on the command of `job`; `start` records the
      recording's path. */
  method OnEvent(registry: Registry, env: Env, o: Options, job: Job, e: Event, now: int) returns (restart: bool)
    requires registry.Valid()
    modifies registry
    ensures registry.Valid()
    ensures var s := AfterEvent(old(registry.jobs), Events, job.jobId, o, FilePath(env, o, job), e, now);
      registry.jobs == s.jobs && registry.effects == old(registry.effects) + s.emitted && restart == s.restart
  {
    restart := Handle(registry, Events, job.jobId, o, FilePath(env, o, job), e, now);
  }

  // ---------------------------------------------------------------------
  // properties

  /** One UDP input; the recording goes to the path `getFilePath` gives,
      segmented exactly when a chunk size is set; a thumbnail output
      follows only when the thumbnail is asked for, so an absent thumbnail
      setting gives none here while the SRT recorder adds one. */
  lemma CommandShape(env: Env, o: Options, job: Job)
    ensures var c := CommandFor(env, o, job);
      && |c.inputs| == 1 && c.inputs[0].source == UdpUrl(o.input)
      && c.outputs[0].target == Some(FilePath(env, o, job))
      && (c.outputs[0].options == [] <==> o.output.chunkSize == 0)
      && (|c.outputs| == 2 <==> o.thumbnail.ThumbnailSettings? || o.thumbnail == ThumbnailFlag(true))
      && (o.thumbnail == NoThumbnail ==> |c.outputs| == 1 && |SrtFile.CommandFor(env, o, job).outputs| == 2)
  {
  }

  /** A set chunk size cuts the recording into segments of that length,
      although the options are given before the output path. */
  lemma {:induction false} SegmentedRecording(env: Env, o: Options, job: Job)
    requires o.output.chunkSize != 0
    ensures var opts := CommandFor(env, o, job).outputs[0].options;
      && opts[..2] == ["-f", "segment"] && opts[2] == "-segment_time"
      && DigitsValue(opts[3]) == o.output.chunkSize
  {
    SegmentTimeReadsBack(o.output);
  }

  /** With the buffer and packet size unset the input URL carries the
      defaults. */
  lemma DefaultInputUrl(e: Endpoint)
    requires e.packetSize == "" && e.buffer == ""
    ensures UdpUrl(e) == "udp://" + HostPort(e) + "?pkt_size=" + "1316" + "&buffer_size=" + "65535"
  {
  }

  /** An SRT recorder and a UDP recorder for the same address and port share
      the registry key: while one records, the other is refused. */
  lemma {:induction false} UdpRecorderRefusedWhileSrtRecorderRuns(jobs: map<string, Job>, capacity: nat, hash: string -> string,
                                                                  env: Env, srt: Options, udp: Options, now: int, later: int)
    requires HostPort(srt.input) == HostPort(udp.input)
    requires Launching(jobs, capacity, hash(SrtFile.Key(srt)), SrtFile.Name(srt), SrtFile.Tags, now,
                       job => SrtFile.CommandFor(env, srt, job)).launched.Some?
    ensures var first := Launching(jobs, capacity, hash(SrtFile.Key(srt)), SrtFile.Name(srt), SrtFile.Tags, now,
                                   job => SrtFile.CommandFor(env, srt, job));
      var second := Launching(first.jobs, capacity, hash(Key(udp)), Name(udp), Tags, later,
                              job => CommandFor(env, udp, job));
      second.launched.None? && second.errors.Some? && second.jobs == first.jobs
  {
    SecondLaunchRefused(jobs, capacity, hash(SrtFile.Key(srt)), SrtFile.Name(srt), SrtFile.Tags, now,
                        job => SrtFile.CommandFor(env, srt, job), Name(udp), Tags, later,
                        job => CommandFor(env, udp, job));
  }
}
