/** The bars-to-DeckLink generator: plays a test pattern and a sine tone
    out on a DeckLink card. */
module BarsDecklink {
  import opened Wrappers
  import opened Strings
  import opened Config
  import opened FilterText
  import opened Ffmpeg
  import opened JobManager
  import opened Pipeline
  import UdpDecklink

  const Tags: seq<string> := ["bars", "decklink"]

  /** Stores no file; no progress handler; never relaunches. */
  const Events := Wiring(false, false, false)

  /** The registry key: the output card, suffixed `-out`. */
  function Key(o: Options): string {
    o.output.cardName + "-out"
  }

  function Name(o: Options): string {
    "Bars to " + o.output.cardName
  }

  /** The lavfi sine tone, 1000 Hz unless `input.frequency` says otherwise. */
  function ToneSource(e: Endpoint): string {
    "sine=frequency=" + OrElse(e.frequency, "1000") + ":sample_rate=48000"
  }

  /** The command the service runs for `job`: pattern and tone in, the card
      out. */
  function CommandFor(env: Env, o: Options, job: Job): Invocation {
    var filters := Filters(env, o);
    Invocation([Input(PatternSource(o.input), None, ["-re", "-f lavfi"]), Input(ToneSource(o.input), None, ["-f lavfi"])],
               [Output(Some(o.output.cardName), DecklinkArgs(o.output), FilterList(filters))]
               + Sidecar(env.root, job.jobId, ThumbnailEnabled(o.thumbnail), o.thumbnail, filters))
  }

  /** The builder calls of `process`, in their order: the overlay filters
      are composed first, then the command is built and closed. */
  method Build(env: Env, o: Options, job: Job) returns (command: Command)
    ensures command.View() == CommandFor(env, o, job)
  {
    var text := ComposeTextFilters(o.text);
    var filters := env.combine(text);
    assert filters == Filters(env, o);
    command := MainCommand(o);
    command := Close(command, env.root, job.jobId, o.thumbnail != ThumbnailFlag(false), o.thumbnail, filters);
    assert [] + FilterList(filters) == FilterList(filters);
  }

  /** The two lavfi inputs, then the output options, then the card. */
  method MainCommand(o: Options) returns (command: Command)
    ensures command == Command([Input(PatternSource(o.input), None, ["-re", "-f lavfi"])],
                               Some(Input(ToneSource(o.input), None, ["-f lavfi"])),
                               [], Output(Some(o.output.cardName), DecklinkArgs(o.output), []))
  {
    command := NewCommand()
      .AddInput(PatternSource(o.input))
      .InputOptions(["-re", "-f lavfi"])
      .AddInput(ToneSource(o.input))
      .InputOptions(["-f lavfi"]);
    assert [] + ["-re", "-f lavfi"] == ["-re", "-f lavfi"];
    assert [] + ["-f lavfi"] == ["-f lavfi"];
    command := command
      .OutputOptions(["-pix_fmt uyvy422", "-s 1920x1080", "-ac 16", "-f decklink",
                      "-af volume=" + OrElse(o.output.volume, "0.25"), "-flags low_delay", "-bufsize 0", "-muxdelay 0"])
      .AddOutput(o.output.cardName);
    assert [] + DecklinkArgs(o.output) == DecklinkArgs(o.output);
  }

  /** `process`: register the job, build and run the command, and report
      the job registered under the key. */
  method Process(registry: Registry, env: Env, o: Options, now: int) returns (r: Response)
    requires registry.Valid()
    modifies registry
    ensures registry.Valid() && registry.effects == old(registry.effects)
    ensures var l := Launching(old(registry.jobs), registry.capacity, registry.hash(Key(o)), Name(o), Tags, now,
                               job => CommandFor(env, o, job));
      registry.jobs == l.jobs && r == Response(o, l.job, l.errors, l.launched)
  {
    var started := registry.Start(Key(o), Some(Name(o)), Some(Tags), now);
    var launched: Option<Invocation> := None;
    var errors: Option<StartError> := None;
    match started {
      case Success(job) =>
        var command := Build(env, o, job);
        launched := Some(command.View());
      case Failure(e) =>
        errors := Some(e);
    }
    r := Response(o, registry.Get(Key(o)), errors, launched);
  }

  /** The handlers registered on the command of `job`. */
  method OnEvent(registry: Registry, o: Options, job: Job, e: Event, now: int) returns (restart: bool)
    requires registry.Valid()
    modifies registry
    ensures registry.Valid()
    ensures var s := AfterEvent(old(registry.jobs), Events, job.jobId, o, "", e, now);
      registry.jobs == s.jobs && registry.effects == old(registry.effects) + s.emitted && restart == s.restart
  {
    restart := Handle(registry, Events, job.jobId, o, "", e, now);
  }

  // ---------------------------------------------------------------------
  // properties

  /** The pattern first, read in real time, the tone second; the card is
      the target of the first output, with the UDP player's options except
      the audio resampling; the thumbnail output follows exactly when the
      thumbnail is not switched off. */
  lemma CommandShape(env: Env, o: Options, job: Job)
    ensures var c := CommandFor(env, o, job);
      && |c.inputs| == 2 && c.inputs[0].source == PatternSource(o.input) && c.inputs[1].source == ToneSource(o.input)
      && c.outputs[0].target == Some(o.output.cardName)
      && c.outputs[0].options + ["-async 1"] == UdpDecklink.OutputArgs(o.output)
      && (|c.outputs| == 2 <==> o.thumbnail != ThumbnailFlag(false))
  {
  }

  /** Without settings the bars are SMPTE HD bars and the tone is 1000 Hz. */
  lemma DefaultSources(e: Endpoint)
    requires e.pattern == "" && e.frequency == ""
    ensures PatternSource(e) == "smptehdbars" + "=rate=25:size=1920x1080"
    ensures ToneSource(e) == "sine=frequency=" + "1000" + ":sample_rate=48000"
  {
  }

  /** Bars and a UDP stream for the same card share the registry key: while
      the UDP player runs on a card, bars for that card are refused. */
  lemma {:induction false} BarsRefusedWhileCardPlays(jobs: map<string, Job>, capacity: nat, hash: string -> string,
                                                     env: Env, playing: Options, bars: Options, now: int, later: int)
    requires playing.output.cardName == bars.output.cardName
    requires Launching(jobs, capacity, hash(UdpDecklink.Key(playing)), UdpDecklink.Name(playing), UdpDecklink.Tags, now,
                       job => UdpDecklink.CommandFor(env, playing, job)).launched.Some?
    ensures var first := Launching(jobs, capacity, hash(UdpDecklink.Key(playing)), UdpDecklink.Name(playing), UdpDecklink.Tags, now,
                                   job => UdpDecklink.CommandFor(env, playing, job));
      var second := Launching(first.jobs, capacity, hash(Key(bars)), Name(bars), Tags, later,
                              job => CommandFor(env, bars, job));
      second.launched.None? && second.errors.Some? && second.jobs == first.jobs
  {
    SecondLaunchRefused(jobs, capacity, hash(UdpDecklink.Key(playing)), UdpDecklink.Name(playing), UdpDecklink.Tags, now,
                        job => UdpDecklink.CommandFor(env, playing, job), Name(bars), Tags, later,
                        job => CommandFor(env, bars, job));
  }

  /** The generator is never relaunched, whatever the error. */
  lemma {:induction false} NeverRelaunches(jobs: map<string, Job>, o: Options, job: Job, e: Event, now: int)
    ensures !AfterEvent(jobs, Events, job.jobId, o, "", e, now).restart
  {
    RestartOnlyOnTransientError(jobs, Events, job.jobId, o, "", e, now);
  }
}
