/** The Cloud Scheduler job of a source, and the compare-then-write that keeps it up to date. */
module Jobs {
  import opened Prelude
  import opened Types

  datatype HttpTarget = HttpTarget(uri: string, httpMethod: int, body: string, headers: map<string, string>)

  datatype Target = Http(http: HttpTarget) | OtherTarget | NoTarget

  datatype Job = Job(name: string, description: string, schedule: string, timeZone: string, target: Target)

  /** The answer to one remote call: truthful, or an error after which the call may or may not have taken effect. */
  datatype Reply = Answer | Fault(applied: bool)

  const HTTP_METHOD_VALUE: map<string, int> := map[
    "HTTP_METHOD_UNSPECIFIED" := 0,
    "POST" := 1,
    "GET" := 2,
    "HEAD" := 3,
    "PUT" := 4,
    "DELETE" := 5,
    "PATCH" := 6,
    "OPTIONS" := 7]

  function HttpMethod(spec: Spec): int {
    if spec.httpMethod != "" && spec.httpMethod in HTTP_METHOD_VALUE then HTTP_METHOD_VALUE[spec.httpMethod] else 1
  }

  /** createJobProto. */
  function CreateJobProto(name: string, spec: Spec, target: string): Job {
    Job(
      name,
      "",
      spec.schedule,
      if spec.timeZone != "" then spec.timeZone else "UTC",
      Http(HttpTarget(target, HttpMethod(spec), spec.body, map[])))
  }

  /** The names of the methods, each in the place of its number. */
  const METHOD_NAMES := ["HTTP_METHOD_UNSPECIFIED", "POST", "GET", "HEAD", "PUT", "DELETE", "PATCH", "OPTIONS"]

  /** A job that does what the spec asks for: every defaulted field reads back as the spec's own, or as the default. */
  predicate Fits(job: Job, spec: Spec) {
    && job.schedule == spec.schedule
    && job.timeZone == (if spec.timeZone == "" then "UTC" else spec.timeZone)
    && job.target.Http?
    && job.target.http.body == spec.body
    && 0 <= job.target.http.httpMethod < |METHOD_NAMES|
    && METHOD_NAMES[job.target.http.httpMethod] == (if spec.httpMethod in METHOD_NAMES then spec.httpMethod else "POST")
  }

  /** A job that does what the spec asks for under this name and at this target, and carries nothing else. */
  predicate Describes(job: Job, name: string, spec: Spec, target: string) {
    && Fits(job, spec)
    && job.name == name && job.description == ""
    && job.target.http.uri == target && job.target.http.headers == map[]
  }

  /** The number that a spec's method gets is the one under which it reads back. */
  lemma MethodReadsBack(spec: Spec)
    ensures 0 <= HttpMethod(spec) < |METHOD_NAMES|
    ensures METHOD_NAMES[HttpMethod(spec)] == if spec.httpMethod in METHOD_NAMES then spec.httpMethod else "POST"
    ensures forall n :: 0 <= n < |METHOD_NAMES| && METHOD_NAMES[n] == METHOD_NAMES[HttpMethod(spec)] ==>
              n == HttpMethod(spec)
  {
    MethodsNamed();
  }

  /** The table of method numbers and the list of their names are each other's inverse. */
  lemma MethodsNamed()
    ensures forall m :: m in HTTP_METHOD_VALUE ==>
              0 <= HTTP_METHOD_VALUE[m] < |METHOD_NAMES| && METHOD_NAMES[HTTP_METHOD_VALUE[m]] == m
    ensures forall n :: 0 <= n < |METHOD_NAMES| ==>
              METHOD_NAMES[n] in HTTP_METHOD_VALUE && HTTP_METHOD_VALUE[METHOD_NAMES[n]] == n
  {
  }

  /** createJobProto makes the one job that describes the spec. */
  lemma ProtoDescribes(job: Job, name: string, spec: Spec, target: string)
    ensures Describes(job, name, spec, target) <==> job == CreateJobProto(name, spec, target)
  {
    MethodReadsBack(spec);
  }

  /** The four fields that reconcileJob compares. */
  predicate Agrees(existing: Job, wanted: Job)
    requires existing.target.Http? && wanted.target.Http?
  {
    && wanted.schedule == existing.schedule
    && wanted.timeZone == existing.timeZone
    && wanted.target.http.body == existing.target.http.body
    && wanted.target.http.httpMethod == existing.target.http.httpMethod
  }

  /** The fields that reconcileJob does not look at. */
  predicate RestAgrees(existing: Job, wanted: Job)
    requires existing.target.Http? && wanted.target.Http?
  {
    && wanted.name == existing.name
    && wanted.description == existing.description
    && wanted.target.http.uri == existing.target.http.uri
    && wanted.target.http.headers == existing.target.http.headers
  }

  /** The job stored under one name, and what the caller is told. */
  datatype JobOutcome = JobOutcome(stored: Option<Job>, result: Result<Job>)

  /** CreateJob on the job service: an existing job is never overwritten. */
  function CreateJob(stored: Option<Job>, job: Job, reply: Reply): JobOutcome {
    match reply
    case Answer => if stored.Some? then JobOutcome(stored, Err(JobExists)) else JobOutcome(Some(job), Ok(job))
    case Fault(applied) => JobOutcome(if applied && stored.None? then Some(job) else stored, Err(JobCall))
  }

  /** UpdateJob without a field mask: the whole job is replaced, and a missing job is an error. */
  function UpdateJob(stored: Option<Job>, job: Job, reply: Reply): JobOutcome {
    match reply
    case Answer => if stored.None? then JobOutcome(stored, Err(JobMissing)) else JobOutcome(Some(job), Ok(job))
    case Fault(applied) => JobOutcome(if applied && stored.Some? then Some(job) else stored, Err(JobCall))
  }

  /** DeleteJob: a job that is already gone counts as deleted. */
  function DeleteJob(stored: Option<Job>, reply: Reply): (Option<Job>, Option<Error>) {
    match reply
    case Answer => (None, None)
    case Fault(applied) => (if applied then None else stored, Some(JobCall))
  }

  /** reconcileJob, with the replies to its GetJob, UpdateJob and CreateJob calls. */
  function ReconcileJob(stored: Option<Job>, wanted: Job, get: Reply, update: Reply, create: Reply): JobOutcome
    requires wanted.target.Http?
  {
    if get.Fault? then JobOutcome(stored, Err(JobCall))
    else match stored
      case Some(existing) =>
        if !existing.target.Http? then JobOutcome(stored, Err(MissingHttpTarget))
        else if Agrees(existing, wanted) then JobOutcome(stored, Ok(existing))
        else UpdateJob(stored, wanted, update)
      case None => CreateJob(stored, wanted, create)
  }

  /**
   * What a successful reconcileJob leaves behind: a job that agrees with the wanted one on the name and the four
   * compared fields. It is the very job that an unconditional put would leave exactly when the job was written,
   * or the fields nobody compares agreed before. Also where it fails, it leaves the stored job or the wanted one.
   */
  lemma CompareThenWrite(stored: Option<Job>, wanted: Job, get: Reply, update: Reply, create: Reply)
    requires wanted.target.Http?
    requires stored.Some? ==> stored.value.name == wanted.name
    ensures var out := ReconcileJob(stored, wanted, get, update, create);
            out.stored == stored || out.stored == Some(wanted)
    ensures var out := ReconcileJob(stored, wanted, get, update, create);
            out.result.Ok? ==>
              && out.stored == Some(out.result.value)
              && out.stored.value.name == wanted.name
              && out.stored.value.target.Http?
              && Agrees(out.stored.value, wanted)
              && (out.stored == Some(wanted) <==>
                    (stored.Some? && Agrees(stored.value, wanted) ==> RestAgrees(stored.value, wanted)))
  {
  }

  /** The four fields are all that a spec says of its job. */
  lemma AgreesIsFits(job: Job, name: string, spec: Spec, target: string)
    requires job.target.Http?
    ensures Agrees(job, CreateJobProto(name, spec, target)) <==> Fits(job, spec)
  {
    MethodReadsBack(spec);
  }

  /** reconcileJob succeeds exactly when no call that it makes fails and an existing job has an HTTP target. */
  lemma ReconcileJobSucceeds(stored: Option<Job>, wanted: Job, get: Reply, update: Reply, create: Reply)
    requires wanted.target.Http?
    ensures ReconcileJob(stored, wanted, get, update, create).result.Ok? <==>
            && get.Answer?
            && (stored.None? ==> create.Answer?)
            && (stored.Some? ==> stored.value.target.Http? && (Agrees(stored.value, wanted) || update.Answer?))
  {
  }

  /** Once a job agrees, every later reconcileJob leaves it as it is, also when the target has moved. */
  lemma ReconcileJobSettles(stored: Option<Job>, name: string, spec: Spec, target: string, moved: string,
                            get: Reply, update: Reply, create: Reply, get': Reply, update': Reply, create': Reply)
    ensures var out := ReconcileJob(stored, CreateJobProto(name, spec, target), get, update, create);
            out.result.Ok? ==>
              ReconcileJob(out.stored, CreateJobProto(name, spec, moved), get', update', create').stored == out.stored
  {
  }

  /**
   * An edit of the spec reaches the job that was made for the earlier spec: reconcileJob leaves the very job that
   * describes the new spec and target, exactly when the target has stayed or the job does not fit the new spec. In
   * all other cases the job stays as it is: a target that moves alone is not carried over.
   */
  lemma EditReachesJob(existing: Job, name: string, before: Spec, was: string, after: Spec, target: string)
    requires Describes(existing, name, before, was)
    ensures var out := ReconcileJob(Some(existing), CreateJobProto(name, after, target), Answer, Answer, Answer);
            && out.stored.Some? && out.result == Ok(out.stored.value)
            && (Describes(out.stored.value, name, after, target) <==> was == target || !Fits(existing, after))
            && (Describes(out.stored.value, name, after, target) || out.stored == Some(existing))
  {
    AgreesIsFits(existing, name, after, target);
    ProtoDescribes(CreateJobProto(name, after, target), name, after, target);
  }
}
