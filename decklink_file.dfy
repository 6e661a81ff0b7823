/** The DeckLink-to-file recorder: captures a DeckLink card's input and
    writes it to a file, optionally cut into chunks. */
module DecklinkFile {
  import opened Wrappers
  import opened Strings
  import opened Config
  import opened FilterText
  import opened Ffmpeg
  import opened JobManager
  import opened Pipeline
  import UdpDecklink

  const Tags: seq<string> := ["decode", "file", "decklink"]

  /** Stores the recording's path; no progress handler; never relaunches. */
  const Events := Wiring(true, false, false)

  /** The registry key: the input card, suffixed `-in`. */
  function Key(o: Options): string {
    o.input.cardName + "-in"
  }

  function Name(o: Options): string {
    o.input.cardName + " to file"
  }

  /** The capture options, with the duplex mode (`unset` unless set). */
  function InputArgs(e: Endpoint): seq<string> {
    ["-protocol_whitelist", "srt,udp,rtp", "-stats", "-re", "-duplex_mode", OrElse(e.duplexMode, "unset")]
  }

  /** The recording's path, as `getFilePath` gives it. */
  function FilePath(env: Env, o: Options, job: Job): string {
    env.filePath(FileRequestFor(o, job))
  }

  /** The command the service runs for `job`: the card is the input, read
      with the `decklink` format. */
  function CommandFor(env: Env, o: Options, job: Job): Invocation {
    var filters := Filters(env, o);
    Invocation([Input(o.input.cardName, Some("decklink"), InputArgs(o.input))],
               [Output(Some(FilePath(env, o, job)), SegmentBlock(o.output), FilterList(filters))]
               + Sidecar(env.root, job.jobId, ThumbnailEnabled(o.thumbnail), o.thumbnail, filters))
  }

  /** The steps of `process` after registration: the file path, the overlay
      filters, then the command. */
  method Build(env: Env, o: Options, job: Job) returns (command: Command)
    ensures command.View() == CommandFor(env, o, job)
  {
    var filePath := env.filePath(FileRequest(OrElse(o.output.file, job.jobId), o.output.format, o.output.chunkSize));
    var text := ComposeTextFilters(o.text);
    var filters := env.combine(text);
    assert filters == Filters(env, o);
    command := MainCommand(o, filePath);
    command := Close(command, env.root, job.jobId, o.thumbnail != ThumbnailFlag(false), o.thumbnail, filters);
    assert [] + FilterList(filters) == FilterList(filters);
  }

  /** The card input, the segment options, and only then the file output. */
  method MainCommand(o: Options, filePath: string) returns (command: Command)
    ensures command == Command([], Some(Input(o.input.cardName, Some("decklink"), InputArgs(o.input))),
                               [], Output(Some(filePath), SegmentBlock(o.output), []))
  {
    command := NewCommand()
      .AddInput(o.input.cardName)
      .InputFormat("decklink")
      .InputOptions(["-protocol_whitelist", "srt,udp,rtp", "-stats", "-re", "-duplex_mode", OrElse(o.input.duplexMode, "unset")]);
    if o.output.chunkSize != 0 {
      command := command
        .OutputOptions(["-f", "segment"])
        .OutputOptions(["-segment_time", NatToString(o.output.chunkSize)])
        .OutputOptions(["-reset_timestamps", "1", "-y"]);
      assert [] + ["-f", "segment"] == ["-f", "segment"];
    }
    command := command.AddOutput(filePath);
    assert [] + InputArgs(o.input) == InputArgs(o.input);
  }

  /** `process`: register the job, build and run the command, and report
      the job registered under the key. */
  method Process(registry: Registry, env: Env, o: Options, now: int) returns (r: Response)
    requires registry.Valid()
    modifies registry
    ensures registry.Valid() && registry.effects == old(registry.effects)
    ensures var l := Launching(old(registry.jobs), registry.capacity, registry.hash(Key(o)), Name(o), Tags, now,
                               job => CommandFor(env, o, job));
      registry.jobs == l.jobs && r == Response(o, l.job, l.errors, l.launched)
  {
    var started := registry.Start(Key(o), Some(Name(o)), Some(Tags), now);
    var launched: Option<Invocation> := None;
    var errors: Option<StartError> := None;
    match started {
      case Success(job) =>
        var command := Build(env, o, job);
        launched := Some(command.View());
      case Failure(e) =>
        errors := Some(e);
    }
    r := Response(o, registry.Get(Key(o)), errors, launched);
  }

  /** The handlers registered on the command of `job`; `start` records the
      recording's path. */
  method OnEvent(registry: Registry, env: Env, o: Options, job: Job, e: Event, now: int) returns (restart: bool)
    requires registry.Valid()
    modifies registry
    ensures registry.Valid()
    ensures var s := AfterEvent(old(registry.jobs), Events, job.jobId, o, FilePath(env, o, job), e, now);
      registry.jobs == s.jobs && registry.effects == old(registry.effects) + s.emitted && restart == s.restart
  {
    restart := Handle(registry, Events, job.jobId, o, FilePath(env, o, job), e, now);
  }

  // ---------------------------------------------------------------------
  // properties

  /** The card is the single input, in the `decklink` format, with the
      duplex mode as the last option; the recording goes to the path
      `getFilePath` gives, segmented exactly when a chunk size is set. */
  lemma CommandShape(env: Env, o: Options, job: Job)
    ensures var c := CommandFor(env, o, job);
      && c.inputs == [Input(o.input.cardName, Some("decklink"), InputArgs(o.input))]
      && c.inputs[0].options[4..] == ["-duplex_mode", if o.input.duplexMode != "" then o.input.duplexMode else "unset"]
      && c.outputs[0].target == Some(FilePath(env, o, job))
      && (c.outputs[0].options == [] <==> o.output.chunkSize == 0)
      && (|c.outputs| == 2 <==> o.thumbnail != ThumbnailFlag(false))
  {
  }

  /** A set chunk size cuts the recording into segments of that length. */
  lemma {:induction false} SegmentedRecording(env: Env, o: Options, job: Job)
    requires o.output.chunkSize != 0
    ensures var opts := CommandFor(env, o, job).outputs[0].options;
      && opts[..2] == ["-f", "segment"] && opts[2] == "-segment_time"
      && DigitsValue(opts[3]) == o.output.chunkSize
  {
    SegmentTimeReadsBack(o.output);
  }

  /** The recorder is never relaunched, not even after an I/O error, but an
      error still ends its job. */
  lemma {:induction false} NeverRelaunches(jobs: map<string, Job>, env: Env, o: Options, job: Job, e: Event, now: int)
    ensures var s := AfterEvent(jobs, Events, job.jobId, o, FilePath(env, o, job), e, now);
      !s.restart && (e.Failed? ==> job.jobId !in s.jobs)
  {
    RestartOnlyOnTransientError(jobs, Events, job.jobId, o, FilePath(env, o, job), e, now);
    EventEffects(jobs, Events, job.jobId, o, FilePath(env, o, job), e, now);
  }

  /** The unhashed keys of capturing from a card and playing out to a card
      differ: an input key ends in `-in`, an output key in `-out`. */
  lemma CaptureKeyDiffersFromPlayoutKey(capture: Options, playout: Options)
    ensures Key(capture) != UdpDecklink.Key(playout)
  {
    var a := Key(capture);
    var b := UdpDecklink.Key(playout);
    assert a[|a| - 1] == 'n' && b[|b| - 1] == 't';
  }
}
