/** The audio-to-RTMP sender: plays an audio file, optionally looped, over
    a test pattern as an FLV stream to an RTMP server. */
module AudioRtmp {
  import opened Wrappers
  import opened Strings
  import opened Paths
  import opened Config
  import opened FilterText
  import opened Ffmpeg
  import opened JobManager
  import opened Pipeline
  import AudioUdp

  const Tags: seq<string> := ["audio", "file", "rtmp"]

  /** Stores no file; listens for progress; relaunches on transient errors. */
  const Events := Wiring(false, true, true)

  /** The registry key and the output target: the RTMP address that
      `getRtmpAddress` makes from the server address and the stream key. */
  function Key(env: Env, o: Options): string {
    env.rtmpAddress(o.output.address, o.output.key)
  }

  /** The name shows the port, which the key leaves out. */
  function Name(o: Options): string {
    "Audio file to rtmp://" + HostPort(o.output)
  }

  /** The options given before the target, FLV muxing and the bitrate; no
      VBR block. */
  function OutputArgs(e: Endpoint): seq<string> {
    ["-ar 48000"] + ["-shortest"] + ["-f flv"] + ["-b:v " + Bitrate(e)]
  }

  /** The command the service runs for `job`; the thumbnail output is added
      only when one is asked for. */
  function CommandFor(env: Env, o: Options, job: Job): Invocation {
    var filters := Filters(env, o);
    Invocation([AudioUdp.AudioInput(env.root, o), AudioUdp.PatternInput(o)],
               [Output(Some(Key(env, o)), OutputArgs(o.output), FilterList(filters))]
               + Sidecar(env.root, job.jobId, ThumbnailRequested(o.thumbnail), o.thumbnail, filters))
  }

  /** The builder calls of `process`, in their order: the overlay filters
      are composed first, then the command is built and closed. */
  method Build(env: Env, o: Options, job: Job) returns (command: Command)
    ensures command.View() == CommandFor(env, o, job)
  {
    var text := ComposeTextFilters(o.text);
    var filters := env.combine(text);
    assert filters == Filters(env, o);
    command := MainCommand(env, o);
    command := Close(command, env.root, job.jobId, ThumbnailRequested(o.thumbnail), o.thumbnail, filters);
    assert [] + FilterList(filters) == FilterList(filters);
  }

  /** The two inputs and the RTMP output. */
  method MainCommand(env: Env, o: Options) returns (command: Command)
    ensures command == Command([AudioUdp.AudioInput(env.root, o)], Some(AudioUdp.PatternInput(o)),
                               [], Output(Some(Key(env, o)), OutputArgs(o.output), []))
  {
    var repeat := "-stream_loop 0";
    if o.input.repeat {
      repeat := "-stream_loop -1";
    }
    var rtmpAddress := env.rtmpAddress(o.output.address, o.output.key);
    command := NewCommand()
      .AddInput(MediaPath(env.root, o.input.file))
      .InputOptions(["-re", repeat])
      .AddInput(PatternSource(o.input))
      .InputOptions(["-re", "-f lavfi"]);
    assert [] + ["-re", repeat] == ["-re", repeat];
    assert [] + ["-re", "-f lavfi"] == ["-re", "-f lavfi"];
    command := command
      .OutputOptions(["-ar 48000"])
      .OutputOptions(["-shortest"])
      .AddOutput(rtmpAddress)
      .OutputOptions(["-f flv"])
      .OutputOptions(["-b:v " + OrElse(o.output.bitrate, "5M")]);
    assert [] + ["-ar 48000"] == ["-ar 48000"];
  }

  /** `process`: register the job under the RTMP address, build and run the
      command, and report the job registered under that address. */
  method Process(registry: Registry, env: Env, o: Options, now: int) returns (r: Response)
    requires registry.Valid()
    modifies registry
    ensures registry.Valid() && registry.effects == old(registry.effects)
    ensures var l := Launching(old(registry.jobs), registry.capacity, registry.hash(Key(env, o)), Name(o), Tags, now,
                               job => CommandFor(env, o, job));
      registry.jobs == l.jobs && r == Response(o, l.job, l.errors, l.launched)
  {
    var rtmpAddress := env.rtmpAddress(o.output.address, o.output.key);
    var started := registry.Start(rtmpAddress, Some(Name(o)), Some(Tags), now);
    var launched: Option<Invocation> := None;
    var errors: Option<StartError> := None;
    match started {
      case Success(job) =>
        var command := Build(env, o, job);
        launched := Some(command.View());
      case Failure(e) =>
        errors := Some(e);
    }
    r := Response(o, registry.Get(rtmpAddress), errors, launched);
  }

  /** The handlers registered on the command of `job`. */
  method OnEvent(registry: Registry, o: Options, job: Job, e: Event, now: int) returns (restart: bool)
    requires registry.Valid()
    modifies registry
    ensures registry.Valid()
    ensures var s := AfterEvent(old(registry.jobs), Events, job.jobId, o, "", e, now);
      registry.jobs == s.jobs && registry.effects == old(registry.effects) + s.emitted && restart == s.restart
  {
    restart := Handle(registry, Events, job.jobId, o, "", e, now);
  }

  // ---------------------------------------------------------------------
  // properties

  /** The same two inputs as the UDP audio sender; one output to the RTMP
      address, FLV-muxed, with no VBR options even when VBR is asked for;
      the thumbnail output follows only when the thumbnail is asked for. */
  lemma CommandShape(env: Env, o: Options, job: Job)
    ensures var c := CommandFor(env, o, job);
      && c.inputs == AudioUdp.CommandFor(env, o, job).inputs
      && c.outputs[0].target == Some(env.rtmpAddress(o.output.address, o.output.key))
      && c.outputs[0].options == ["-ar 48000", "-shortest", "-f flv", "-b:v " + Bitrate(o.output)]
      && "-bufsize 500K" !in c.outputs[0].options
      && (|c.outputs| == 2 <==> o.thumbnail.ThumbnailSettings? || o.thumbnail == ThumbnailFlag(true))
  {
    assert ("-b:v " + Bitrate(o.output))[2] == ':';
  }

  /** Two requests that differ only in the port go to the same RTMP address:
      while the first runs, the second is refused. */
  lemma {:induction false} PortDoesNotSeparateStreams(jobs: map<string, Job>, capacity: nat, hash: string -> string,
                                                     env: Env, first: Options, second: Options, now: int, later: int)
    requires first.output.address == second.output.address && first.output.key == second.output.key
    requires Launching(jobs, capacity, hash(Key(env, first)), Name(first), Tags, now,
                       job => CommandFor(env, first, job)).launched.Some?
    ensures var one := Launching(jobs, capacity, hash(Key(env, first)), Name(first), Tags, now,
                                 job => CommandFor(env, first, job));
      var two := Launching(one.jobs, capacity, hash(Key(env, second)), Name(second), Tags, later,
                           job => CommandFor(env, second, job));
      two.launched.None? && two.errors.Some? && two.jobs == one.jobs
  {
    SecondLaunchRefused(jobs, capacity, hash(Key(env, first)), Name(first), Tags, now,
                        job => CommandFor(env, first, job), Name(second), Tags, later,
                        job => CommandFor(env, second, job));
  }
}
