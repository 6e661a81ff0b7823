/** The audio-to-UDP sender: plays an audio file, optionally looped, over a
    test pattern as an MPEG-TS stream to a UDP destination. */
module AudioUdp {
  import opened Wrappers
  import opened Strings
  import opened Paths
  import opened Config
  import opened FilterText
  import opened Ffmpeg
  import opened JobManager
  import opened Pipeline

  const Tags: seq<string> := ["audio", "file", "udp"]

  /** Stores no file; listens for progress; relaunches on transient errors. */
  const Events := Wiring(false, true, true)

  /** The registry key: the UDP destination. */
  function Key(o: Options): string {
    HostPort(o.output)
  }

  function Name(o: Options): string {
    "Audio file to udp://" + HostPort(o.output)
  }

  /** The audio file, read in real time, with the loop flag. */
  function AudioInput(root: string, o: Options): Input {
    Input(MediaPath(root, o.input.file), None, ["-re", LoopFlag(o.input.repeat)])
  }

  /** The test pattern the audio plays over. */
  function PatternInput(o: Options): Input {
    Input(PatternSource(o.input), None, ["-re", "-f lavfi"])
  }

  /** The options given before the target, the MPEG-TS block with the
      jitter buffer (25 unless set), the bitrate, then the VBR block. */
  function OutputArgs(e: Endpoint): seq<string> {
    ["-ar 48000"] + ["-shortest"]
    + ["-f mpegts", "-reorder_queue_size " + OrElse(e.jitterBuffer, "25"), "-flags low_delay", "-muxdelay 0"]
    + ["-b:v " + Bitrate(e)] + VbrBlock(e)
  }

  /** The command the service runs for `job`. */
  function CommandFor(env: Env, o: Options, job: Job): Invocation {
    var filters := Filters(env, o);
    Invocation([AudioInput(env.root, o), PatternInput(o)],
               [Output(Some(UdpUrl(o.output)), OutputArgs(o.output), FilterList(filters))]
               + Sidecar(env.root, job.jobId, ThumbnailEnabled(o.thumbnail), o.thumbnail, filters))
  }

  /** The builder calls of `process`, in their order: the overlay filters
      are composed first, then the command is built and closed. */
  method Build(env: Env, o: Options, job: Job) returns (command: Command)
    ensures command.View() == CommandFor(env, o, job)
  {
    var text := ComposeTextFilters(o.text);
    var filters := env.combine(text);
    assert filters == Filters(env, o);
    command := MainCommand(env, o);
    command := Close(command, env.root, job.jobId, o.thumbnail != ThumbnailFlag(false), o.thumbnail, filters);
    assert [] + FilterList(filters) == FilterList(filters);
  }

  /** The two inputs and the UDP output; the sample rate and `-shortest`
      are given before the target and land on it. */
  method MainCommand(env: Env, o: Options) returns (command: Command)
    ensures command == Command([AudioInput(env.root, o)], Some(PatternInput(o)),
                               [], Output(Some(UdpUrl(o.output)), OutputArgs(o.output), []))
  {
    var repeat := "-stream_loop 0";
    if o.input.repeat {
      repeat := "-stream_loop -1";
    }
    command := NewCommand()
      .AddInput(MediaPath(env.root, o.input.file))
      .InputOptions(["-re", repeat])
      .AddInput(PatternSource(o.input))
      .InputOptions(["-re", "-f lavfi"]);
    assert [] + ["-re", repeat] == ["-re", repeat];
    assert command.earlierInputs == [AudioInput(env.root, o)];
    assert [] + ["-re", "-f lavfi"] == ["-re", "-f lavfi"];
    command := command
      .OutputOptions(["-ar 48000"])
      .OutputOptions(["-shortest"])
      .AddOutput(UdpUrl(o.output))
      .OutputOptions(["-f mpegts", "-reorder_queue_size " + OrElse(o.output.jitterBuffer, "25"), "-flags low_delay", "-muxdelay 0"])
      .OutputOptions(["-b:v " + OrElse(o.output.bitrate, "5M")]);
    assert [] + ["-ar 48000"] == ["-ar 48000"];
    ghost var fixed := command.currentOutput.options;
    assert fixed == OutputArgs(o.output)[..|fixed|];
    if o.output.vbr.Some? {
      command := command.OutputOptions(VbrOptions(o.output, o.output.vbr.value));
    } else {
      assert fixed + [] == fixed;
    }
  }

  /** `process`: register the job, build and run the command, and report
      the job registered under the key. */
  method Process(registry: Registry, env: Env, o: Options, now: int) returns (r: Response)
    requires registry.Valid()
    modifies registry
    ensures registry.Valid() && registry.effects == old(registry.effects)
    ensures var l := Launching(old(registry.jobs), registry.capacity, registry.hash(Key(o)), Name(o), Tags, now,
                               job => CommandFor(env, o, job));
      registry.jobs == l.jobs && r == Response(o, l.job, l.errors, l.launched)
  {
    var started := registry.Start(Key(o), Some(Name(o)), Some(Tags), now);
    var launched: Option<Invocation> := None;
    var errors: Option<StartError> := None;
    match started {
      case Success(job) =>
        var command := Build(env, o, job);
        launched := Some(command.View());
      case Failure(e) =>
        errors := Some(e);
    }
    r := Response(o, registry.Get(Key(o)), errors, launched);
  }

  /** The handlers registered on the command of `job`. */
  method OnEvent(registry: Registry, o: Options, job: Job, e: Event, now: int) returns (restart: bool)
    requires registry.Valid()
    modifies registry
    ensures registry.Valid()
    ensures var s := AfterEvent(old(registry.jobs), Events, job.jobId, o, "", e, now);
      registry.jobs == s.jobs && registry.effects == old(registry.effects) + s.emitted && restart == s.restart
  {
    restart := Handle(registry, Events, job.jobId, o, "", e, now);
  }

  // ---------------------------------------------------------------------
  // properties

  /** The audio file comes first, with the loop flag; the lavfi test
      pattern second. The UDP output opens with the sample rate and
      `-shortest`, which were given before its target; the thumbnail output
      follows exactly when the thumbnail is not switched off. */
  lemma CommandShape(env: Env, o: Options, job: Job)
    ensures var c := CommandFor(env, o, job);
      && |c.inputs| == 2
      && c.inputs[0].source == MediaPath(env.root, o.input.file)
      && c.inputs[0].options[1] == (if o.input.repeat then "-stream_loop -1" else "-stream_loop 0")
      && c.inputs[1].source == PatternSource(o.input) && "-f lavfi" in c.inputs[1].options
      && c.outputs[0].target == Some(UdpUrl(o.output))
      && c.outputs[0].options[..2] == ["-ar 48000", "-shortest"]
      && (|c.outputs| == 2 <==> o.thumbnail != ThumbnailFlag(false))
  {
  }

  /** The buffer-size option appears exactly when VBR is on. */
  lemma VbrOnlyWhenSet(e: Endpoint)
    ensures "-bufsize 500K" in OutputArgs(e) <==> e.vbr.Some?
  {
    var fixed := ["-ar 48000"] + ["-shortest"]
      + ["-f mpegts", "-reorder_queue_size " + OrElse(e.jitterBuffer, "25"), "-flags low_delay", "-muxdelay 0"]
      + ["-b:v " + Bitrate(e)];
    assert OutputArgs(e) == fixed + VbrBlock(e);
    assert "-bufsize 500K" !in fixed by {
      assert ("-reorder_queue_size " + OrElse(e.jitterBuffer, "25"))[1] == 'r';
      assert ("-b:v " + Bitrate(e))[2] == ':';
      assert "-bufsize 500K"[1] == 'b' && "-bufsize 500K"[2] == 'u';
    }
  }

  /** Without a jitter-buffer setting the reorder queue holds 25 packets. */
  lemma DefaultJitterBuffer(e: Endpoint)
    requires e.jitterBuffer == ""
    ensures OutputArgs(e)[3] == "-reorder_queue_size " + "25"
  {
  }
}
