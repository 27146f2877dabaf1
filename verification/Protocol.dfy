/**
 * The reconciler as a step system. Every remote call of a pass is one step; between the steps of a pass other
 * parties act, the cache catches up, and passes on other keys run.
 */
module Protocol {
  import opened Prelude
  import opened Types
  import Names
  import Finalizers
  import Sinks
  import Resources
  import opened Jobs
  import opened Remotes

  /** The call that an in-flight pass makes next. */
  datatype Pc =
    | AtSink
    | AtGetService
    | AtCreateService
    | AtGetJob(url: string)
    | AtUpdateJob(url: string)
    | AtCreateJob(url: string)
    | AtDeleteJob
    | AtReread
    | AtWrite(next: Source)

  /** An in-flight pass: the object read first, the private copy, and the error to be returned. */
  datatype Pass = Pass(pc: Pc, original: Source, csr: Source, err: Option<Error>)

  /** All that a pass on one key touches. job is the job stored under the name of the source. */
  datatype KeyState = KeyState(remote: Remote, job: Option<Job>, pass: Option<Pass>)

  datatype Action =
    | Env(env: EnvAction)
    | Begin
    | Look(fetched: Sinks.Fetched)
    | Reply(reply: Reply)

  function JobNameOf(o: Source): string {
    Names.JobName(o.spec.project, o.spec.location, o.meta.name)
  }

  /** A pass goes on to its next call, or it is over and has returned this error, if any. */
  datatype Course = Going(pass: Pass) | Over(err: Option<Error>)

  function InFlight(c: Course): Option<Pass> {
    if c.Going? then Some(c.pass) else None
  }

  function Returned(c: Course): Option<Option<Error>> {
    if c.Over? then Some(c.err) else None
  }

  /** What one call of a pass leaves of the stores of its key, and where it leaves the pass. */
  datatype Move = Move(remote: Remote, job: Option<Job>, course: Course)

  function Moved(m: Move): KeyState {
    KeyState(m.remote, m.job, InFlight(m.course))
  }

  /** The end of reconcileCloudSchedulerSource: the pass is over, or its changes are to be written back. */
  function Finish(p: Pass, csr: Source, err: Option<Error>): Course {
    if Untouched(p.original, csr) then Over(err) else Going(Pass(AtReread, p.original, csr, err))
  }

  /** The copy after addFinalizer and the assignment of SinkURI. */
  function Prepared(o: Source, uri: string): Source {
    WithFinalizers(o, Finalizers.Add(o.meta.finalizers)).(status := o.status.(sinkURI := uri))
  }

  function WithJob(o: Source, job: string): Source {
    o.(status := o.status.(job := job))
  }

  function AfterSink(p: Pass, uri: Result<string>): Course {
    if Deleting(p.csr) then Going(p.(pc := AtDeleteJob))
    else match uri
      case Err(e) => Finish(p, p.csr, Some(e))
      case Ok(u) => Going(p.(pc := AtGetService, csr := Prepared(p.csr, u)))
  }

  function AfterService(p: Pass, s: Resources.Service): Course {
    if s.domain == "" then Finish(p, p.csr, Some(NoDomain)) else Going(p.(pc := AtGetJob(Sinks.HttpUrl(s.domain))))
  }

  function AfterJob(p: Pass, r: Result<Job>): Course {
    match r
    case Ok(j) => Finish(p, WithJob(p.csr, j.name), None)
    case Err(e) => Finish(p, p.csr, Some(e))
  }

  /** The object that update sends: the second read with the status and the finalizers of the copy. */
  function Merged(base: Source, csr: Source): Source {
    WithFinalizers(base, csr.meta.finalizers).(status := csr.status)
  }

  function AfterReread(p: Pass, cached: Option<Source>): Course {
    if cached.None? then Over(Some(NotFound))
    else if cached.value.status == p.csr.status && cached.value.meta == p.csr.meta then Over(p.err)
    else Going(p.(pc := AtWrite(Merged(cached.value, p.csr))))
  }

  /** Does the reply to an Update request let it take effect, as far as the network goes? */
  predicate Lands(reply: Reply) {
    reply.Answer? || reply.applied
  }

  function ServiceStep(ks: KeyState, p: Pass, image: string, reply: Reply): Move
    requires p.pc.AtCreateService?
  {
    var made := Resources.MakeService(p.csr, image);
    var svc := if ks.remote.svc.None? && Lands(reply) then Some(made) else ks.remote.svc;
    Move(
      ks.remote.(svc := svc),
      ks.job,
      if reply.Fault? then Finish(p, p.csr, Some(ServiceCall))
      else if ks.remote.svc.Some? then Finish(p, p.csr, Some(ServiceExists))
      else AfterService(p, made))
  }

  function GetJobStep(ks: KeyState, p: Pass, reply: Reply): Move
    requires p.pc.AtGetJob?
  {
    var wanted := CreateJobProto(JobNameOf(p.csr), p.csr.spec, p.pc.url);
    Move(
      ks.remote,
      ks.job,
      if reply.Fault? then Finish(p, p.csr, Some(JobCall))
      else match ks.job
        case None => Going(p.(pc := AtCreateJob(p.pc.url)))
        case Some(existing) =>
          if !existing.target.Http? then Finish(p, p.csr, Some(MissingHttpTarget))
          else if Agrees(existing, wanted) then AfterJob(p, Ok(existing))
          else Going(p.(pc := AtUpdateJob(p.pc.url))))
  }

  function WriteJobStep(ks: KeyState, p: Pass, out: JobOutcome): Move {
    Move(ks.remote, out.stored, AfterJob(p, out.result))
  }

  function DeleteJobStep(ks: KeyState, p: Pass, reply: Reply): Move {
    var (stored, err) := DeleteJob(ks.job, reply);
    Move(
      ks.remote,
      stored,
      if err.Some? then Finish(p, p.csr, err)
      else Finish(p, WithFinalizers(p.csr, Finalizers.Remove(p.csr.meta.finalizers)), None))
  }

  function UpdateStep(ks: KeyState, p: Pass, reply: Reply): Move
    requires p.pc.AtWrite?
  {
    Move(
      if Lands(reply) then Update(ks.remote, p.pc.next) else ks.remote,
      ks.job,
      Over(
        if reply.Fault? then Some(UpdateCall)
        else if Accepts(ks.remote, p.pc.next) then p.err
        else if Current(ks.remote).None? then Some(NotFound)
        else Some(Conflict)))
  }

  /** One call of an in-flight pass. A reply of the wrong kind changes nothing. */
  function ReplyStep(ks: KeyState, p: Pass, image: string, reply: Reply): Move {
    match p.pc
    case AtSink => Move(ks.remote, ks.job, Going(p))
    case AtGetService =>
      Move(
        ks.remote,
        ks.job,
        if reply.Fault? then Finish(p, p.csr, Some(ServiceCall))
        else if ks.remote.svc.Some? then AfterService(p, ks.remote.svc.value)
        else Going(p.(pc := AtCreateService)))
    case AtCreateService => ServiceStep(ks, p, image, reply)
    case AtGetJob(_) => GetJobStep(ks, p, reply)
    case AtUpdateJob(url) =>
      WriteJobStep(ks, p, UpdateJob(ks.job, CreateJobProto(JobNameOf(p.csr), p.csr.spec, url), reply))
    case AtCreateJob(url) =>
      WriteJobStep(ks, p, CreateJob(ks.job, CreateJobProto(JobNameOf(p.csr), p.csr.spec, url), reply))
    case AtDeleteJob => DeleteJobStep(ks, p, reply)
    case AtReread =>
      Move(ks.remote, ks.job, if reply.Fault? then Over(Some(ListerCall)) else AfterReread(p, Cached(ks.remote)))
    case AtWrite(_) => UpdateStep(ks, p, reply)
  }

  function SinkStep(ks: KeyState, p: Pass, fetched: Sinks.Fetched): Move {
    Move(ks.remote, ks.job, AfterSink(p, Sinks.GetSinkURI(p.csr.spec.sink, fetched)))
  }

  /** One step on key k. The work queue starts no second pass on a key that is in flight. */
  function KeyStep(k: Key, image: string, ks: KeyState, a: Action): KeyState {
    match a
    case Env(e) => ks.(remote := EnvStep(k, ks.remote, e))
    case Begin =>
      if ks.pass.Some? || Cached(ks.remote).None? then ks
      else var o := Cached(ks.remote).value; ks.(pass := Some(Pass(AtSink, o, o, None)))
    case Look(fetched) =>
      if ks.pass.None? || !ks.pass.value.pc.AtSink? then ks else Moved(SinkStep(ks, ks.pass.value, fetched))
    case Reply(reply) =>
      if ks.pass.None? then ks else Moved(ReplyStep(ks, ks.pass.value, image, reply))
  }

  /** What the work queue hears of the step: the error that a pass returns which ends with it, or None for success. */
  function Report(image: string, ks: KeyState, a: Action): Option<Option<Error>> {
    if ks.pass.None? then None
    else
      var p := ks.pass.value;
      match a
      case Look(fetched) => if p.pc.AtSink? then Returned(SinkStep(ks, p, fetched).course) else None
      case Reply(reply) => Returned(ReplyStep(ks, p, image, reply).course)
      case _ => None
  }

  function KeyRun(k: Key, image: string, ks: KeyState, actions: seq<Action>): KeyState
    decreases |actions|
  {
    if actions == [] then ks else KeyRun(k, image, KeyStep(k, image, ks, actions[0]), actions[1..])
  }

  /** All that the work queue hears over several steps. */
  function Reports(k: Key, image: string, ks: KeyState, actions: seq<Action>): seq<Option<Error>>
    decreases |actions|
  {
    if actions == [] then []
    else
      var r := Report(image, ks, actions[0]);
      (if r.Some? then [r.value] else []) + Reports(k, image, KeyStep(k, image, ks, actions[0]), actions[1..])
  }

  // ----- the hypotheses on the other parties -----

  /** Where the jobs of a source live. */
  datatype Place = Place(project: string, location: string)

  predicate Placed(pl: Place, spec: Spec) {
    spec.project == pl.project && spec.location == pl.location
  }

  function JobAt(k: Key, pl: Place): string {
    Names.JobName(pl.project, pl.location, k.name)
  }

  /**
   * The steps that other parties may take on a source: project and location are fixed, since a job is found
   * again only under its name; and the controller's own finalizer is added and removed by the controller alone.
   */
  predicate EnvAllowed(pl: Place, r: Remote, e: EnvAction) {
    match e
    case Create(spec, _, finalizers) => Placed(pl, spec) && FINALIZER_NAME !in finalizers
    case Edit(spec, _) => Placed(pl, spec)
    case SetFinalizers(finalizers) => Current(r).Some? ==> (Guarded(Current(r)) <==> FINALIZER_NAME in finalizers)
    case _ => true
  }

  predicate Allowed(pl: Place, ks: KeyState, a: Action) {
    a.Env? ==> EnvAllowed(pl, ks.remote, a.env)
  }

  predicate KeyAllowed(k: Key, image: string, pl: Place, ks: KeyState, actions: seq<Action>)
    decreases |actions|
  {
    actions == [] ||
    (Allowed(pl, ks, actions[0]) && KeyAllowed(k, image, pl, KeyStep(k, image, ks, actions[0]), actions[1..]))
  }
}
