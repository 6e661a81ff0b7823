/** The SRT-to-file recorder: receives an SRT stream and writes it to a
    file, optionally cut into chunks. */
module SrtFile {
  import opened Wrappers
  import opened Strings
  import opened Config
  import opened FilterText
  import opened Ffmpeg
  import opened JobManager
  import opened Pipeline
  import FileSrt

  const Tags: seq<string> := ["decode", "srt"]

  /** Stores the recording's path; no progress handler; relaunches on
      transient errors. */
  const Events := Wiring(true, false, true)

  /** The registry key: the SRT source. */
  function Key(o: Options): string {
    HostPort(o.input)
  }

  function Name(o: Options): string {
    "SRT to file srt://" + HostPort(o.input)
  }

  /** The SRT input URL, with the passphrase when one is set. */
  function InputUrl(e: Endpoint): string {
    SrtUrl(e) + (if e.passphrase != "" then "&passphrase=" + e.passphrase else "")
  }

  const InputArgs: seq<string> := ["-protocol_whitelist", "srt,udp,rtp", "-stats"]

  /** The recording's path, as `getFilePath` gives it. */
  function FilePath(env: Env, o: Options, job: Job): string {
    env.filePath(FileRequestFor(o, job))
  }

  /** The command the service runs for `job`. */
  function CommandFor(env: Env, o: Options, job: Job): Invocation {
    var filters := Filters(env, o);
    Invocation([Input(InputUrl(o.input), None, InputArgs)],
               [Output(Some(FilePath(env, o, job)), SegmentBlock(o.output), FilterList(filters))]
               + Sidecar(env.root, job.jobId, ThumbnailEnabled(o.thumbnail), o.thumbnail, filters))
  }

  /** The steps of `process` after registration: the file path, the overlay
      filters, then the command. */
  method Build(env: Env, o: Options, job: Job) returns (command: Command)
    ensures command.View() == CommandFor(env, o, job)
  {
    var filePath := env.filePath(FileRequest(OrElse(o.output.file, job.jobId), o.output.format, o.output.chunkSize));
    var text := ComposeTextFilters(o.text);
    var filters := env.combine(text);
    assert filters == Filters(env, o);
    command := MainCommand(o, filePath);
    command := Close(command, env.root, job.jobId, o.thumbnail != ThumbnailFlag(false), o.thumbnail, filters);
    assert [] + FilterList(filters) == FilterList(filters);
  }

  /** The SRT input and the file output with the segment options. */
  method MainCommand(o: Options, filePath: string) returns (command: Command)
    ensures command == Command([], Some(Input(InputUrl(o.input), None, InputArgs)),
                               [], Output(Some(filePath), SegmentBlock(o.output), []))
  {
    var passphrase := "";
    if o.input.passphrase != "" {
      passphrase := "&passphrase=" + o.input.passphrase;
    }
    command := NewCommand()
      .AddInput(SrtUrl(o.input) + passphrase)
      .InputOptions(["-protocol_whitelist", "srt,udp,rtp", "-stats"]);
    command := command.AddOutput(filePath);
    if o.output.chunkSize != 0 {
      command := command
        .OutputOptions(["-f", "segment"])
        .OutputOptions(["-segment_time", NatToString(o.output.chunkSize)])
        .OutputOptions(["-reset_timestamps", "1", "-y"]);
      assert [] + ["-f", "segment"] == ["-f", "segment"];
    }
    assert [] + InputArgs == InputArgs;
  }

  /** `process`: register the job, build and run the command, and report
      the job registered under the key. */
  method Process(registry: Registry, env: Env, o: Options, now: int) returns (r: Response)
    requires registry.Valid()
    modifies registry
    ensures registry.Valid() && registry.effects == old(registry.effects)
    ensures var l := Launching(old(registry.jobs), registry.capacity, registry.hash(Key(o)), Name(o), Tags, now,
                               job => CommandFor(env, o, job));
      registry.jobs == l.jobs && r == Response(o, l.job, l.errors, l.launched)
  {
    var started := registry.Start(Key(o), Some(Name(o)), Some(Tags), now);
    var launched: Option<Invocation> := None;
    var errors: Option<StartError> := None;
    match started {
      case Success(job) =>
        var command := Build(env, o, job);
        launched := Some(command.View());
      case Failure(e) =>
        errors := Some(e);
    }
    r := Response(o, registry.Get(Key(o)), errors, launched);
  }

  /** The handlers registered on the command of `job`; `start` records the
      recording's path. */
  method OnEvent(registry: Registry, env: Env, o: Options, job: Job, e: Event, now: int) returns (restart: bool)
    requires registry.Valid()
    modifies registry
    ensures registry.Valid()
    ensures var s := AfterEvent(old(registry.jobs), Events, job.jobId, o, FilePath(env, o, job), e, now);
      registry.jobs == s.jobs && registry.effects == old(registry.effects) + s.emitted && restart == s.restart
  {
    restart := Handle(registry, Events, job.jobId, o, FilePath(env, o, job), e, now);
  }

  // ---------------------------------------------------------------------
  // properties

  /** One SRT input; the recording goes to the path `getFilePath` gives for
      `output.file` (the job id when unset), segmented exactly when a chunk
      size is set; the thumbnail output follows exactly when the thumbnail
      is not switched off. */
  lemma CommandShape(env: Env, o: Options, job: Job)
    ensures var c := CommandFor(env, o, job);
      && |c.inputs| == 1 && c.inputs[0].source == InputUrl(o.input) && c.inputs[0].format.None?
      && c.outputs[0].target == Some(env.filePath(FileRequestFor(o, job)))
      && FileRequestFor(o, job).file == (if o.output.file != "" then o.output.file else job.jobId)
      && (c.outputs[0].options == [] <==> o.output.chunkSize == 0)
      && (|c.outputs| == 2 <==> o.thumbnail != ThumbnailFlag(false))
  {
  }

  /** A set chunk size cuts the recording into segments of that length. */
  lemma {:induction false} SegmentedRecording(env: Env, o: Options, job: Job)
    requires o.output.chunkSize != 0
    ensures var opts := CommandFor(env, o, job).outputs[0].options;
      && opts[..2] == ["-f", "segment"] && opts[2] == "-segment_time"
      && DigitsValue(opts[3]) == o.output.chunkSize
  {
    SegmentTimeReadsBack(o.output);
  }

  /** The passphrase parameter is added exactly when a passphrase is set,
      at the end of the URL. */
  lemma PassphraseOnlyWhenSet(e: Endpoint)
    ensures InputUrl(e) == SrtUrl(e) <==> e.passphrase == ""
    ensures e.passphrase != "" ==> InputUrl(e)[|SrtUrl(e)|..] == "&passphrase=" + e.passphrase
  {
    if e.passphrase != "" {
      assert |InputUrl(e)| > |SrtUrl(e)|;
    }
  }

  /** A file-to-SRT sender and an SRT-to-file recorder for the same
      address and port share the registry key: while the sender runs, the
      recorder is refused and runs nothing. */
  lemma {:induction false} RecorderRefusedWhileSenderRuns(jobs: map<string, Job>, capacity: nat, hash: string -> string,
                                                          env: Env, sending: Options, recording: Options, now: int, later: int)
    requires HostPort(sending.output) == HostPort(recording.input)
    requires Launching(jobs, capacity, hash(FileSrt.Key(sending)), FileSrt.Name(sending), FileSrt.Tags, now,
                       job => FileSrt.CommandFor(env, sending, job)).launched.Some?
    ensures var first := Launching(jobs, capacity, hash(FileSrt.Key(sending)), FileSrt.Name(sending), FileSrt.Tags, now,
                                   job => FileSrt.CommandFor(env, sending, job));
      var second := Launching(first.jobs, capacity, hash(Key(recording)), Name(recording), Tags, later,
                              job => CommandFor(env, recording, job));
      second.launched.None? && second.errors.Some? && second.jobs == first.jobs
  {
    SecondLaunchRefused(jobs, capacity, hash(FileSrt.Key(sending)), FileSrt.Name(sending), FileSrt.Tags, now,
                        job => FileSrt.CommandFor(env, sending, job), Name(recording), Tags, later,
                        job => CommandFor(env, recording, job));
  }
}
