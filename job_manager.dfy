/** The job registry: a map from a hashed endpoint to the record of the job
    serving it, bounded by a queue size. `Registry` is the mutable registry
    the services share; the functions `Admit`, `UpdateJobs`/`UpdateReply`
    and `Ending` give the same transitions on plain values, and the lemmas
    state what they guarantee. */
module JobManager {
  import opened Wrappers
  import opened Config
  import opened Paths

  const DefaultQueueSize: nat := 5
  const DefaultName := "FFmpeg Process"
  const DefaultType: seq<string> := ["default"]
  const QueueFullMessage := "Job queue is full, cancel a job or wait to one is finished before starting another."
  const AlreadyRunningMessage := "Job is already running."
  const NotFoundMessage := "Job does not exist."

  /** A job record. `tags` is the source's `type`; the optional fields are
      those a job gains later (from `update` and `end`). Times are
      milliseconds supplied by the caller. */
  datatype Job = Job(
    jobNumber: nat,
    jobId: string,
    started: int,
    jobName: string,
    tags: seq<string>,
    command: Option<string>,
    pid: Option<int>,
    options: Option<Options>,
    file: Option<string>,
    progress: Option<int>,
    ended: Option<int>,
    duration: Option<int>)

  /** The fields an `update` call may carry; `None` means the key is absent
      from the patch object. */
  datatype Patch = Patch(
    command: Option<string>,
    pid: Option<int>,
    options: Option<Options>,
    file: Option<string>,
    progress: Option<int>)

  /** The two errors `start` throws. */
  datatype StartError = QueueFull | AlreadyRunning {
    function Message(): string {
      match this
      case QueueFull => QueueFullMessage
      case AlreadyRunning => AlreadyRunningMessage
    }
  }

  /** What `update` and `end` give back: the job, the `{error}` object for a
      missing key, or (for `end` only) the exception `process.kill` threw. */
  datatype Reply = Found(job: Job) | NotFound(error: string) | SignalThrew

  /** Effects `end` has on the world outside the map, in the order it has
      them: SIGINT to the job's process, the thumbnail file deletion and the
      thumbnail cache eviction. */
  datatype Effect = Interrupt(pid: int) | DeleteFile(path: string) | EvictThumbnail(jobId: string)

  datatype StartOutcome = Started(job: Job, jobs: map<string, Job>) | Refused(error: StartError)

  datatype EndStep = EndStep(reply: Reply, jobs: map<string, Job>, emitted: seq<Effect>)

  function NewJob(number: nat, id: string, now: int, name: string, tags: seq<string>): Job {
    Job(number, id, now, name, tags, None, None, None, None, None, None, None)
  }

  /** The registry invariant: within capacity, every record keyed by its own
      id, none of them ended, and job numbers between 1 and the capacity. */
  ghost predicate Consistent(jobs: map<string, Job>, capacity: nat) {
    && |jobs| <= capacity
    && forall id | id in jobs ::
         jobs[id].jobId == id && jobs[id].ended.None? && 1 <= jobs[id].jobNumber <= capacity
  }

  function Lookup(jobs: map<string, Job>, id: string): Option<Job> {
    if id in jobs then Some(jobs[id]) else None
  }

  /** `start` on the key `id` (the hash of the endpoint): the queue size is
      checked first, the duplicate key second. */
  function Admit(jobs: map<string, Job>, capacity: nat, id: string, name: string, tags: seq<string>, now: int): StartOutcome {
    if |jobs| < capacity then
      if id !in jobs then
        var job := NewJob(|jobs| + 1, id, now, name, tags);
        Started(job, jobs[id := job])
      else Refused(AlreadyRunning)
    else Refused(QueueFull)
  }

  /** `{ ...old, ...patch }`: a field the patch carries wins. */
  function Override<T>(current: Option<T>, patched: Option<T>): Option<T> {
    if patched.Some? then patched else current
  }

  function Merge(job: Job, p: Patch): Job {
    job.(command := Override(job.command, p.command),
         pid := Override(job.pid, p.pid),
         options := Override(job.options, p.options),
         file := Override(job.file, p.file),
         progress := Override(job.progress, p.progress))
  }

  function UpdateJobs(jobs: map<string, Job>, id: string, p: Patch): map<string, Job> {
    if id in jobs then jobs[id := Merge(jobs[id], p)] else jobs
  }

  function UpdateReply(jobs: map<string, Job>, id: string, p: Patch): Reply {
    if id in jobs then Found(Merge(jobs[id], p)) else NotFound(NotFoundMessage)
  }

  /** `end(id, kill)`. `delivered` is the operating system's answer to the
      signal: `process.kill` throws when the process cannot be signalled, and
      always when no pid was recorded. A throw leaves everything as it was. */
  function Ending(jobs: map<string, Job>, id: string, kill: bool, delivered: bool, now: int): EndStep {
    if id !in jobs then EndStep(NotFound(NotFoundMessage), jobs, [])
    else
      var job := jobs[id];
      if kill && (job.pid.None? || !delivered) then EndStep(SignalThrew, jobs, [])
      else
        var done := job.(ended := Some(now), duration := Some(now - job.started));
        var signal := if kill then [Interrupt(job.pid.value)] else [];
        EndStep(Found(done), jobs - {id}, signal + [DeleteFile(ThumbnailFile(job.jobId)), EvictThumbnail(job.jobId)])
  }

  lemma RemoveOneKey(jobs: map<string, Job>, id: string)
    requires id in jobs
    ensures |jobs - {id}| == |jobs| - 1
  {
    assert (jobs - {id}).Keys == jobs.Keys - {id};
    assert |jobs.Keys - {id}| == |jobs.Keys| - 1;
  }

  // ---------------------------------------------------------------------
  // start

  /** At or above capacity `start` reports a full queue, even for a key that
      is already running: the capacity check comes first. */
  lemma AdmitChecksCapacityFirst(jobs: map<string, Job>, capacity: nat, id: string, name: string, tags: seq<string>, now: int)
    requires |jobs| >= capacity
    ensures Admit(jobs, capacity, id, name, tags, now) == Refused(QueueFull)
  {
  }

  /** Below capacity, a key already present is refused as a running job. */
  lemma AdmitRefusesDuplicate(jobs: map<string, Job>, capacity: nat, id: string, name: string, tags: seq<string>, now: int)
    requires |jobs| < capacity && id in jobs
    ensures Admit(jobs, capacity, id, name, tags, now) == Refused(AlreadyRunning)
  {
  }

  /** A successful start adds exactly one entry, under `id`, numbered one
      past the old size, and leaves every other entry as it was. */
  lemma AdmitAddsOneEntry(jobs: map<string, Job>, capacity: nat, id: string, name: string, tags: seq<string>, now: int)
    requires |jobs| < capacity && id !in jobs
    ensures Admit(jobs, capacity, id, name, tags, now).Started?
    ensures var r := Admit(jobs, capacity, id, name, tags, now);
      && r.job.jobNumber == |jobs| + 1 && r.job.jobId == id
      && r.job.jobName == name && r.job.tags == tags && r.job.started == now
      && r.jobs.Keys == jobs.Keys + {id} && |r.jobs| == |jobs| + 1
      && r.jobs[id] == r.job
      && forall k | k in jobs :: r.jobs[k] == jobs[k]
  {
  }

  /** `start` never takes the registry past its capacity and keeps its
      invariant. */
  lemma AdmitPreservesConsistency(jobs: map<string, Job>, capacity: nat, id: string, name: string, tags: seq<string>, now: int)
    requires Consistent(jobs, capacity)
    ensures Admit(jobs, capacity, id, name, tags, now).Started? ==>
      Consistent(Admit(jobs, capacity, id, name, tags, now).jobs, capacity)
  {
  }

  /** `get` after a successful `start` finds the job it created. */
  lemma LookupAfterAdmit(jobs: map<string, Job>, capacity: nat, id: string, name: string, tags: seq<string>, now: int)
    requires Admit(jobs, capacity, id, name, tags, now).Started?
    ensures var r := Admit(jobs, capacity, id, name, tags, now); Lookup(r.jobs, id) == Some(r.job)
  {
  }

  // ---------------------------------------------------------------------
  // update

  /** `update` on a present key: the patch's fields win, the others and the
      job's identity stay, and no other key is touched or added. */
  lemma UpdateOverlaysPatch(jobs: map<string, Job>, id: string, p: Patch)
    requires id in jobs
    ensures var js := UpdateJobs(jobs, id, p);
      && js.Keys == jobs.Keys
      && (forall k | k in jobs && k != id :: js[k] == jobs[k])
      && UpdateReply(jobs, id, p) == Found(js[id])
      && js[id].jobId == jobs[id].jobId && js[id].jobNumber == jobs[id].jobNumber
      && js[id].started == jobs[id].started && js[id].ended == jobs[id].ended
      && (p.pid.Some? ==> js[id].pid == p.pid) && (p.pid.None? ==> js[id].pid == jobs[id].pid)
      && (p.command.Some? ==> js[id].command == p.command) && (p.command.None? ==> js[id].command == jobs[id].command)
      && (p.progress.Some? ==> js[id].progress == p.progress) && (p.progress.None? ==> js[id].progress == jobs[id].progress)
      && (p.file.Some? ==> js[id].file == p.file) && (p.file.None? ==> js[id].file == jobs[id].file)
      && (p.options.Some? ==> js[id].options == p.options) && (p.options.None? ==> js[id].options == jobs[id].options)
  {
  }

  /** `update` on a missing key answers with the error object and changes
      nothing. */
  lemma UpdateMissingKey(jobs: map<string, Job>, id: string, p: Patch)
    requires id !in jobs
    ensures UpdateJobs(jobs, id, p) == jobs && UpdateReply(jobs, id, p) == NotFound(NotFoundMessage)
  {
  }

  lemma UpdatePreservesConsistency(jobs: map<string, Job>, capacity: nat, id: string, p: Patch)
    requires Consistent(jobs, capacity)
    ensures Consistent(UpdateJobs(jobs, id, p), capacity)
  {
  }

  // ---------------------------------------------------------------------
  // end

  /** `end` of a present job that is not signalled, or signalled
      successfully, removes exactly that key, returns the record stamped with
      its end time and duration, and then asks for its thumbnail to be
      deleted and evicted; the signal, when asked for, comes first. */
  lemma EndRemovesExactlyOne(jobs: map<string, Job>, id: string, kill: bool, delivered: bool, now: int)
    requires id in jobs
    requires !kill || (jobs[id].pid.Some? && delivered)
    ensures var s := Ending(jobs, id, kill, delivered, now);
      && s.jobs == jobs - {id} && |s.jobs| == |jobs| - 1
      && s.reply == Found(jobs[id].(ended := Some(now), duration := Some(now - jobs[id].started)))
      && s.emitted == (if kill then [Interrupt(jobs[id].pid.value)] else [])
                      + [DeleteFile(ThumbnailFile(jobs[id].jobId)), EvictThumbnail(jobs[id].jobId)]
  {
    RemoveOneKey(jobs, id);
  }

  /** When the signal cannot be sent (no pid recorded, or the system refuses)
      `end` throws before cleaning up: the entry stays and the thumbnail is
      not deleted. */
  lemma EndSignalFailureKeepsJob(jobs: map<string, Job>, id: string, delivered: bool, now: int)
    requires id in jobs && (jobs[id].pid.None? || !delivered)
    ensures Ending(jobs, id, true, delivered, now) == EndStep(SignalThrew, jobs, [])
  {
  }

  /** Without `kill`, `end` never signals. */
  lemma EndWithoutKillSendsNoSignal(jobs: map<string, Job>, id: string, delivered: bool, now: int)
    ensures forall e | e in Ending(jobs, id, false, delivered, now).emitted :: !e.Interrupt?
  {
  }

  /** `end` on a missing key answers with the error object and changes
      nothing. */
  lemma EndMissingKey(jobs: map<string, Job>, id: string, kill: bool, delivered: bool, now: int)
    requires id !in jobs
    ensures Ending(jobs, id, kill, delivered, now) == EndStep(NotFound(NotFoundMessage), jobs, [])
  {
  }

  /** A second `end` of the same key finds nothing: the job is returned once
      and its thumbnail deleted at most once. */
  lemma EndTwice(jobs: map<string, Job>, id: string, kill: bool, delivered: bool, now: int, kill2: bool, delivered2: bool, later: int)
    requires Ending(jobs, id, kill, delivered, now).reply.Found?
    ensures var s := Ending(jobs, id, kill, delivered, now);
      Ending(s.jobs, id, kill2, delivered2, later) == EndStep(NotFound(NotFoundMessage), s.jobs, [])
  {
  }

  lemma EndPreservesConsistency(jobs: map<string, Job>, capacity: nat, id: string, kill: bool, delivered: bool, now: int)
    requires Consistent(jobs, capacity)
    ensures Consistent(Ending(jobs, id, kill, delivered, now).jobs, capacity)
  {
    if id in jobs {
      RemoveOneKey(jobs, id);
    }
  }

  /** Once a job has ended, by a handler (`kill` false) or by a user's kill
      request whose signal was delivered, a new `start` for the same key
      succeeds. */
  lemma StartAfterEnd(jobs: map<string, Job>, capacity: nat, id: string, kill: bool, delivered: bool, now: int,
                      name: string, tags: seq<string>, later: int)
    requires Consistent(jobs, capacity) && Ending(jobs, id, kill, delivered, now).reply.Found?
    ensures var s := Ending(jobs, id, kill, delivered, now);
      Admit(s.jobs, capacity, id, name, tags, later).Started?
  {
    RemoveOneKey(jobs, id);
  }

  // ---------------------------------------------------------------------
  // any sequence of calls

  datatype Op =
    | StartOp(id: string, name: string, tags: seq<string>, now: int)
    | UpdateOp(id: string, patch: Patch)
    | EndOp(id: string, kill: bool, delivered: bool, now: int)

  function Step(jobs: map<string, Job>, capacity: nat, op: Op): map<string, Job> {
    match op
    case StartOp(id, name, tags, now) =>
      (match Admit(jobs, capacity, id, name, tags, now)
       case Started(_, js) => js
       case Refused(_) => jobs)
    case UpdateOp(id, p) => UpdateJobs(jobs, id, p)
    case EndOp(id, kill, delivered, now) => Ending(jobs, id, kill, delivered, now).jobs
  }

  function Run(jobs: map<string, Job>, capacity: nat, ops: seq<Op>): map<string, Job>
    decreases |ops|
  {
    if ops == [] then jobs else Run(Step(jobs, capacity, ops[0]), capacity, ops[1..])
  }

  /** For any sequence of `start`, `update` and `end` calls the registry
      stays within capacity, with at most one live record per key. */
  lemma {:induction false} RunStaysWithinCapacity(jobs: map<string, Job>, capacity: nat, ops: seq<Op>)
    requires Consistent(jobs, capacity)
    ensures Consistent(Run(jobs, capacity, ops), capacity)
    ensures |Run(jobs, capacity, ops)| <= capacity
    decreases |ops|
  {
    if ops != [] {
      var op := ops[0];
      match op {
        case StartOp(id, name, tags, now) => AdmitPreservesConsistency(jobs, capacity, id, name, tags, now);
        case UpdateOp(id, p) => UpdatePreservesConsistency(jobs, capacity, id, p);
        case EndOp(id, kill, delivered, now) => EndPreservesConsistency(jobs, capacity, id, kill, delivered, now);
      }
      RunStaysWithinCapacity(Step(jobs, capacity, op), capacity, ops[1..]);
    }
  }

  // ---------------------------------------------------------------------
  // the registry object

  class Registry {
    /** `maxQueueSize`. */
    const capacity: nat
    /** The MD5 digest of an endpoint string, taken as an arbitrary fixed
        function. */
    const hash: string -> string
    /** The module-level `jobs` object. */
    var jobs: map<string, Job>
    /** The signals and file operations `end` has asked for so far. */
    var effects: seq<Effect>

    ghost predicate Valid()
      reads this
    {
      Consistent(jobs, capacity)
    }

    /** `process.env.QUEUE_SIZE || 5`: an unset or empty variable gives 5. */
    constructor (queueSize: Option<nat>, hash: string -> string)
      ensures Valid()
      ensures capacity == queueSize.GetOr(DefaultQueueSize) && this.hash == hash
      ensures jobs == map[] && effects == []
    {
      capacity := queueSize.GetOr(DefaultQueueSize);
      this.hash := hash;
      jobs := map[];
      effects := [];
    }

    method Start(output: string, name: Option<string>, tags: Option<seq<string>>, now: int) returns (r: Result<Job, StartError>)
      requires Valid()
      modifies this
      ensures Valid() && effects == old(effects)
      ensures match Admit(old(jobs), capacity, hash(output), name.GetOr(DefaultName), tags.GetOr(DefaultType), now)
        case Started(job, js) => r == Success(job) && jobs == js
        case Refused(e) => r == Failure(e) && jobs == old(jobs)
    {
      AdmitPreservesConsistency(jobs, capacity, hash(output), name.GetOr(DefaultName), tags.GetOr(DefaultType), now);
      var queueSize := |jobs|;
      if queueSize < capacity {
        var h := hash(output);
        if h !in jobs {
          var job := NewJob(|jobs| + 1, h, now, name.GetOr(DefaultName), tags.GetOr(DefaultType));
          jobs := jobs[h := job];
          r := Success(job);
        } else {
          r := Failure(AlreadyRunning);
        }
      } else {
        r := Failure(QueueFull);
      }
    }

    method Update(id: string, p: Patch) returns (r: Reply)
      requires Valid()
      modifies this
      ensures Valid() && effects == old(effects)
      ensures jobs == UpdateJobs(old(jobs), id, p) && r == UpdateReply(old(jobs), id, p)
    {
      UpdatePreservesConsistency(jobs, capacity, id, p);
      if id in jobs {
        jobs := jobs[id := Merge(jobs[id], p)];
        r := Found(jobs[id]);
      } else {
        r := NotFound(NotFoundMessage);
      }
    }

    method End(id: string, kill: bool, delivered: bool, now: int) returns (r: Reply)
      requires Valid()
      modifies this
      ensures Valid()
      ensures var s := Ending(old(jobs), id, kill, delivered, now);
        r == s.reply && jobs == s.jobs && effects == old(effects) + s.emitted
    {
      EndPreservesConsistency(jobs, capacity, id, kill, delivered, now);
      if id in jobs {
        var job := jobs[id];
        if kill {
          if job.pid.None? || !delivered {
            r := SignalThrew;
            return;
          }
          effects := effects + [Interrupt(job.pid.value)];
        }
        job := job.(ended := Some(now), duration := Some(now - job.started));
        jobs := jobs - {id};
        effects := effects + [DeleteFile(ThumbnailFile(job.jobId)), EvictThumbnail(job.jobId)];
        r := Found(job);
      } else {
        r := NotFound(NotFoundMessage);
      }
    }

    /** `get(output)`: the job for the endpoint `output`, if any. */
    function Get(output: string): (r: Option<Job>)
      reads this
      requires Valid()
      ensures r.Some? <==> hash(output) in jobs
      ensures r.Some? ==> r.value == jobs[hash(output)] && r.value.jobId == hash(output) && r.value.ended.None?
    {
      Lookup(jobs, hash(output))
    }

    /** `getbyId(id)`: the job stored under the key `id`, if any. */
    function GetById(id: string): (r: Option<Job>)
      reads this
      requires Valid()
      ensures r.Some? <==> id in jobs
      ensures r.Some? ==> r.value == jobs[id] && r.value.jobId == id && r.value.ended.None?
    {
      Lookup(jobs, id)
    }

    /** `getAll()`: every live job, each under its own id. */
    function GetAll(): (r: map<string, Job>)
      reads this
      requires Valid()
      ensures r == jobs
      ensures |r| <= capacity
      ensures forall id | id in r :: r[id].jobId == id && r[id].ended.None?
    {
      jobs
    }
  }

  // ---------------------------------------------------------------------
  // scenarios a caller can rely on

  /** Two starts for the same endpoint on an empty registry: the first is job
      number 1, the second is refused as already running. */
  method DuplicateStartScenario(hash: string -> string, now: int) returns (first: Result<Job, StartError>, second: Result<Job, StartError>)
    ensures first.Success? && first.value.jobNumber == 1 && first.value.jobId == hash("10.0.0.5:9000")
    ensures first.value.jobName == "test" && first.value.tags == ["srt"]
    ensures second == Failure(AlreadyRunning)
  {
    var registry := new Registry(None, hash);
    first := registry.Start("10.0.0.5:9000", Some("test"), Some(["srt"]), now);
    second := registry.Start("10.0.0.5:9000", Some("test"), Some(["srt"]), now);
  }

  /** With a queue size of 1: a second endpoint is refused while the first
      runs and accepted once the first has ended. */
  method CapacityScenario(hash: string -> string, now: int) returns (a: Result<Job, StartError>, b: Result<Job, StartError>, endA: Reply, b2: Result<Job, StartError>)
    ensures a.Success? && b == Failure(QueueFull)
    ensures endA.Found? && endA.job.jobId == hash("a") && endA.job.ended == Some(now)
    ensures b2.Success? && b2.value.jobNumber == 1 && b2.value.jobName == DefaultName && b2.value.tags == DefaultType
  {
    var registry := new Registry(Some(1), hash);
    a := registry.Start("a", None, None, now);
    b := registry.Start("b", None, None, now);
    endA := registry.End(hash("a"), false, true, now);
    b2 := registry.Start("b", None, None, now);
  }
}
