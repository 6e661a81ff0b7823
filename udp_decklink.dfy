/** The UDP-to-DeckLink player: receives an MPEG-TS stream over UDP and
    plays it out on a DeckLink card. */
module UdpDecklink {
  import opened Wrappers
  import opened Strings
  import opened Config
  import opened FilterText
  import opened Ffmpeg
  import opened JobManager
  import opened Pipeline

  const Tags: seq<string> := ["decode", "udp", "decklink"]

  /** Stores no file; no progress handler; relaunches on transient errors. */
  const Events := Wiring(false, false, true)

  /** The registry key: the output card, suffixed `-out`. */
  function Key(o: Options): string {
    o.output.cardName + "-out"
  }

  function Name(o: Options): string {
    "UDP to " + o.output.cardName
  }

  const InputArgs: seq<string> := ["-protocol_whitelist", "srt,udp,rtp", "-stats", "-re", "-probesize 1M", "-analyzeduration 1M"]

  /** The DeckLink output options, with audio resampling to keep sync. */
  function OutputArgs(e: Endpoint): seq<string> {
    DecklinkArgs(e) + ["-async 1"]
  }

  /** The command the service runs for `job`: the card is the output. */
  function CommandFor(env: Env, o: Options, job: Job): Invocation {
    var filters := Filters(env, o);
    Invocation([Input(UdpUrl(o.input), None, InputArgs)],
               [Output(Some(o.output.cardName), OutputArgs(o.output), FilterList(filters))]
               + Sidecar(env.root, job.jobId, ThumbnailEnabled(o.thumbnail), o.thumbnail, filters))
  }

  /** The builder calls of `process`, in their order: the overlay filters
      are composed first, then the command is built and closed. */
  method Build(env: Env, o: Options, job: Job) returns (command: Command)
    ensures command.View() == CommandFor(env, o, job)
  {
    var text := ComposeTextFilters(o.text);
    var filters := env.combine(text);
    assert filters == Filters(env, o);
    command := MainCommand(o);
    command := Close(command, env.root, job.jobId, o.thumbnail != ThumbnailFlag(false), o.thumbnail, filters);
    assert [] + FilterList(filters) == FilterList(filters);
  }

  /** The UDP input, then the output options, then the card as target. */
  method MainCommand(o: Options) returns (command: Command)
    ensures command == Command([], Some(Input(UdpUrl(o.input), None, InputArgs)),
                               [], Output(Some(o.output.cardName), OutputArgs(o.output), []))
  {
    command := NewCommand()
      .AddInput(UdpUrl(o.input))
      .InputOptions(["-protocol_whitelist", "srt,udp,rtp", "-stats", "-re", "-probesize 1M", "-analyzeduration 1M"])
      .OutputOptions(["-pix_fmt uyvy422", "-s 1920x1080", "-ac 16", "-f decklink",
                      "-af volume=" + OrElse(o.output.volume, "0.25"), "-flags low_delay", "-bufsize 0",
                      "-muxdelay 0", "-async 1"])
      .AddOutput(o.output.cardName);
    assert [] + InputArgs == InputArgs;
    assert [] + OutputArgs(o.output) == OutputArgs(o.output);
  }

  /** `process`: register the job, build and run the command, and report
      the job registered under the key. */
  method Process(registry: Registry, env: Env, o: Options, now: int) returns (r: Response)
    requires registry.Valid()
    modifies registry
    ensures registry.Valid() && registry.effects == old(registry.effects)
    ensures var l := Launching(old(registry.jobs), registry.capacity, registry.hash(Key(o)), Name(o), Tags, now,
                               job => CommandFor(env, o, job));
      registry.jobs == l.jobs && r == Response(o, l.job, l.errors, l.launched)
  {
    var started := registry.Start(Key(o), Some(Name(o)), Some(Tags), now);
    var launched: Option<Invocation> := None;
    var errors: Option<StartError> := None;
    match started {
      case Success(job) =>
        var command := Build(env, o, job);
        launched := Some(command.View());
      case Failure(e) =>
        errors := Some(e);
    }
    r := Response(o, registry.Get(Key(o)), errors, launched);
  }

  /** The handlers registered on the command of `job`. */
  method OnEvent(registry: Registry, o: Options, job: Job, e: Event, now: int) returns (restart: bool)
    requires registry.Valid()
    modifies registry
    ensures registry.Valid()
    ensures var s := AfterEvent(old(registry.jobs), Events, job.jobId, o, "", e, now);
      registry.jobs == s.jobs && registry.effects == old(registry.effects) + s.emitted && restart == s.restart
  {
    restart := Handle(registry, Events, job.jobId, o, "", e, now);
  }

  // ---------------------------------------------------------------------
  // properties

  /** One UDP input read in real time; the card is the target of the first
      output, whose options were given before it; the thumbnail output
      follows exactly when the thumbnail is not switched off. */
  lemma CommandShape(env: Env, o: Options, job: Job)
    ensures var c := CommandFor(env, o, job);
      && |c.inputs| == 1 && c.inputs[0].source == UdpUrl(o.input) && "-re" in c.inputs[0].options
      && c.outputs[0].target == Some(o.output.cardName)
      && c.outputs[0].options[3] == "-f decklink"
      && c.outputs[0].options[|c.outputs[0].options| - 1] == "-async 1"
      && (|c.outputs| == 2 <==> o.thumbnail != ThumbnailFlag(false))
  {
    assert InputArgs[3] == "-re";
  }

  /** Without a volume setting the audio is played at a quarter volume. */
  lemma DefaultVolume(e: Endpoint)
    requires e.volume == ""
    ensures OutputArgs(e)[4] == "-af volume=" + "0.25"
  {
  }

  /** A receiver's restart decision: an error with a transient text
      relaunches it, any other event does not. */
  lemma {:induction false} RelaunchesOnTransientError(jobs: map<string, Job>, o: Options, job: Job, e: Event, now: int)
    ensures AfterEvent(jobs, Events, job.jobId, o, "", e, now).restart <==> e.Failed? && IsTransient(e.message)
  {
    RestartOnlyOnTransientError(jobs, Events, job.jobId, o, "", e, now);
  }
}
