/** The file-to-SRT sender: plays a media file, optionally looped, as an
    MPEG-TS stream to an SRT listener. */
module FileSrt {
  import opened Wrappers
  import opened Strings
  import opened Paths
  import opened Config
  import opened FilterText
  import opened Ffmpeg
  import opened JobManager
  import opened Pipeline

  const Tags: seq<string> := ["encode", "srt"]

  /** Stores no file; listens for progress; relaunches on transient errors. */
  const Events := Wiring(false, true, true)

  /** The registry key: the SRT destination. */
  function Key(o: Options): string {
    HostPort(o.output)
  }

  function Name(o: Options): string {
    "File to SRT srt://" + HostPort(o.output)
  }

  /** The SRT output URL; the doubled `=` after `maxbw` is the source's. */
  function OutputUrl(e: Endpoint): string {
    SrtUrl(e) + "&maxbw==" + OrElse(e.maxbw, "-1")
  }

  function InputArgs(o: Options): seq<string> {
    [LoopFlag(o.input.repeat), "-protocol_whitelist", "file,udp,rtp", "-stats", "-re"]
  }

  /** Encoder preset, MPEG-TS muxing and the bitrate, then the VBR block. */
  function OutputArgs(e: Endpoint): seq<string> {
    ["-preset " + OrElse(e.encodePreset, "ultrafast"), "-f mpegts"] + ["-b:v " + Bitrate(e)] + VbrBlock(e)
  }

  /** The command the service runs for `job`. */
  function CommandFor(env: Env, o: Options, job: Job): Invocation {
    var filters := Filters(env, o);
    Invocation([Input(MediaPath(env.root, o.input.file), None, InputArgs(o))],
               [Output(Some(OutputUrl(o.output)), OutputArgs(o.output), FilterList(filters))]
               + Sidecar(env.root, job.jobId, ThumbnailEnabled(o.thumbnail), o.thumbnail, filters))
  }

  /** The builder calls of `process`, in their order: the overlay filters
      are composed first, then the command is built and closed. */
  method Build(env: Env, o: Options, job: Job) returns (command: Command)
    ensures command.View() == CommandFor(env, o, job)
  {
    var text := ComposeTextFilters(o.text);
    var filters := env.combine(text);
    assert filters == Filters(env, o);
    command := MainCommand(env, o);
    command := Close(command, env.root, job.jobId, o.thumbnail != ThumbnailFlag(false), o.thumbnail, filters);
    assert [] + FilterList(filters) == FilterList(filters);
  }

  /** The input and the SRT output with its options. */
  method MainCommand(env: Env, o: Options) returns (command: Command)
    ensures command == Command([], Some(Input(MediaPath(env.root, o.input.file), None, InputArgs(o))),
                               [], Output(Some(OutputUrl(o.output)), OutputArgs(o.output), []))
  {
    var repeat := "-stream_loop 0";
    if o.input.repeat {
      repeat := "-stream_loop -1";
    }
    command := NewCommand()
      .AddInput(MediaPath(env.root, o.input.file))
      .InputOptions([repeat, "-protocol_whitelist", "file,udp,rtp", "-stats", "-re"])
      .AddOutput(OutputUrl(o.output))
      .OutputOptions(["-preset " + OrElse(o.output.encodePreset, "ultrafast"), "-f mpegts"])
      .OutputOptions(["-b:v " + OrElse(o.output.bitrate, "5M")]);
    if o.output.vbr.Some? {
      command := command.OutputOptions(VbrOptions(o.output, o.output.vbr.value));
    }
    assert [] + InputArgs(o) == InputArgs(o);
    assert [] + ["-preset " + OrElse(o.output.encodePreset, "ultrafast"), "-f mpegts"]
      == ["-preset " + OrElse(o.output.encodePreset, "ultrafast"), "-f mpegts"];
  }

  /** `process`: register the job, build and run the command, and report
      the job registered under the key. */
  method Process(registry: Registry, env: Env, o: Options, now: int) returns (r: Response)
    requires registry.Valid()
    modifies registry
    ensures registry.Valid() && registry.effects == old(registry.effects)
    ensures var l := Launching(old(registry.jobs), registry.capacity, registry.hash(Key(o)), Name(o), Tags, now,
                               job => CommandFor(env, o, job));
      registry.jobs == l.jobs && r == Response(o, l.job, l.errors, l.launched)
  {
    var started := registry.Start(Key(o), Some(Name(o)), Some(Tags), now);
    var launched: Option<Invocation> := None;
    var errors: Option<StartError> := None;
    match started {
      case Success(job) =>
        var command := Build(env, o, job);
        launched := Some(command.View());
      case Failure(e) =>
        errors := Some(e);
    }
    r := Response(o, registry.Get(Key(o)), errors, launched);
  }

  /** The handlers registered on the command of `job`. */
  method OnEvent(registry: Registry, o: Options, job: Job, e: Event, now: int) returns (restart: bool)
    requires registry.Valid()
    modifies registry
    ensures registry.Valid()
    ensures var s := AfterEvent(old(registry.jobs), Events, job.jobId, o, "", e, now);
      registry.jobs == s.jobs && registry.effects == old(registry.effects) + s.emitted && restart == s.restart
  {
    restart := Handle(registry, Events, job.jobId, o, "", e, now);
  }

  // ---------------------------------------------------------------------
  // properties

  /** One input (the media file with the loop flag first), the SRT output
      with its options and the filters, and the thumbnail output exactly
      when the thumbnail is not switched off. */
  lemma CommandShape(env: Env, o: Options, job: Job)
    ensures var c := CommandFor(env, o, job);
      && |c.inputs| == 1 && c.inputs[0].source == MediaPath(env.root, o.input.file)
      && c.inputs[0].options[0] == (if o.input.repeat then "-stream_loop -1" else "-stream_loop 0")
      && (|c.outputs| == 2 <==> o.thumbnail != ThumbnailFlag(false))
      && c.outputs[0].target == Some(OutputUrl(o.output))
      && ("-bufsize 500K" in c.outputs[0].options <==> o.output.vbr.Some?)
      && (o.thumbnail != ThumbnailFlag(false) ==>
            c.outputs[1].target == Some(ThumbnailPath(env.root, job.jobId))
            && c.outputs[1].options == ["-r " + ThumbnailFrequency(o.thumbnail), "-update 1"]
            && c.outputs[1].videoFilters == c.outputs[0].videoFilters)
  {
    var e := o.output;
    var fixed := ["-preset " + OrElse(e.encodePreset, "ultrafast"), "-f mpegts", "-b:v " + Bitrate(e)];
    assert "-bufsize 500K" !in fixed by {
      assert ("-preset " + OrElse(e.encodePreset, "ultrafast"))[..2] == "-p";
      assert ("-b:v " + Bitrate(e))[..2] == "-b";
      assert "-bufsize 500K"[..2] == "-b";
      assert "-bufsize 500K"[2] != ("-b:v " + Bitrate(e))[2];
    }
  }

  /** With every optional field unset, the output URL carries the default
      packet size, latency, mode, TTL, TOS, transport type and bandwidth. */
  lemma DefaultOutputUrl(e: Endpoint)
    requires e.packetSize == "" && e.latency.None? && e.mode == "" && e.ttl == "" && e.tos == ""
    requires e.transtype == "" && e.maxbw == ""
    ensures OutputUrl(e) == "srt://" + HostPort(e) + "?pkt_size=" + "1316" + "&latency=" + "250000" + "&mode=" + "caller"
      + "&ipttl=" + "64" + "&iptos=" + "104" + "&transtype=" + "live" + "&maxbw==" + "-1"
  {
  }
}
