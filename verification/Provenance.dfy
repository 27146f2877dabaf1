/** Where the Services and the jobs come from: which pass made them, and from what. */
module Provenance {
  import opened Prelude
  import opened Types
  import Sinks
  import opened Resources
  import opened Jobs
  import Remotes
  import opened Protocol
  import opened Invariants
  import opened Cluster
  import Safety

  /** The version of the source that a pass read first, and what that pass found out on its way. */
  datatype Origin = Origin(version: nat, found: string)

  /**
   * A monitor of the steps on one key. It notes the URI to which the running pass resolved its sink and the domain
   * of the Service that it found; and, for the Service and the job that are stored now, the pass that wrote them.
   */
  datatype Ledger = Ledger(uri: Option<string>, domain: Option<string>, service: Option<Origin>, job: Option<Origin>)

  const BLANK := Ledger(None, None, None, None)

  function NoteUri(ks: KeyState, a: Action, uri: Option<string>): Option<string> {
    if a.Begin? && ks.pass.None? then None
    else if a.Look? && ks.pass.Some? && ks.pass.value.pc.AtSink? then
      var r := Sinks.GetSinkURI(ks.pass.value.csr.spec.sink, a.fetched);
      if r.Ok? then Some(r.value) else None
    else uri
  }

  function NoteDomain(ks: KeyState, a: Action, domain: Option<string>): Option<string> {
    if a.Begin? && ks.pass.None? then None
    else if a == Reply(Answer) && ks.pass.Some? && ks.pass.value.pc.AtGetService? then
      if ks.remote.svc.Some? then Some(ks.remote.svc.value.domain) else None
    else domain
  }

  /** Whatever a step of a pass changes in a store was written by that pass, from what it had found. */
  function NoteWrite<T(==)>(a: Action, before: Option<T>, after: Option<T>, origin: Option<Origin>,
                            pass: Option<Pass>, found: Option<string>): Option<Origin>
  {
    if after.None? then None
    else if a.Env? || after == before then origin
    else if pass.Some? && found.Some? then Some(Origin(pass.value.original.meta.resourceVersion, found.value))
    else None
  }

  function Note(k: Key, image: string, ks: KeyState, a: Action, l: Ledger): Ledger {
    var ks' := KeyStep(k, image, ks, a);
    Ledger(
      NoteUri(ks, a, l.uri),
      NoteDomain(ks, a, l.domain),
      NoteWrite(a, ks.remote.svc, ks'.remote.svc, l.service, ks.pass, l.uri),
      NoteWrite(a, ks.job, ks'.job, l.job, ks.pass, l.domain))
  }

  function NoteRun(k: Key, image: string, ks: KeyState, actions: seq<Action>, l: Ledger): Ledger
    decreases |actions|
  {
    if actions == [] then l
    else NoteRun(k, image, KeyStep(k, image, ks, actions[0]), actions[1..], Note(k, image, ks, actions[0], l))
  }

  /** The live source that the server held as the version from which something was made. */
  ghost predicate Stood(h: seq<Option<Source>>, origin: Option<Origin>) {
    && origin.Some? && origin.value.version < |h|
    && h[origin.value.version].Some? && !Deleting(h[origin.value.version].value)
  }

  /** The Service is the one made from that version and that URI, apart from the domain it was given since. */
  ghost predicate ServiceFrom(h: seq<Option<Source>>, image: string, svc: Service, origin: Option<Origin>) {
    && Stood(h, origin)
    && svc.(domain := "") == MakeService(Prepared(h[origin.value.version].value, origin.value.found), image)
  }

  /** The job is the one made from that version for the Service with that domain. */
  ghost predicate JobFrom(k: Key, pl: Place, h: seq<Option<Source>>, job: Job, origin: Option<Origin>) {
    && Stood(h, origin)
    && origin.value.found != ""
    && job == CreateJobProto(JobAt(k, pl), h[origin.value.version].value.spec, Sinks.HttpUrl(origin.value.found))
  }

  /** A pass that has resolved its sink has that URI in its copy, until it ends. */
  predicate UriNoted(p: Pass, l: Ledger) {
    Committed(p) ==> l.uri == Some(p.csr.status.sinkURI)
  }

  /** A pass that may still make a Service or a job has the URI and the domain that were noted for it. */
  predicate PassNoted(p: Pass, l: Ledger) {
    match p.pc
    case AtGetService => l.uri.Some? && p.csr == Prepared(p.original, l.uri.value)
    case AtCreateService => l.uri.Some? && p.csr == Prepared(p.original, l.uri.value)
    case AtGetJob(url) => l.domain.Some? && l.domain.value != "" && url == Sinks.HttpUrl(l.domain.value)
    case AtUpdateJob(url) => l.domain.Some? && l.domain.value != "" && url == Sinks.HttpUrl(l.domain.value)
    case AtCreateJob(url) => l.domain.Some? && l.domain.value != "" && url == Sinks.HttpUrl(l.domain.value)
    case _ => true
  }

  ghost predicate Accounted(k: Key, image: string, pl: Place, ks: KeyState, l: Ledger) {
    && (ks.pass.Some? ==> PassNoted(ks.pass.value, l) && UriNoted(ks.pass.value, l))
    && (ks.remote.svc.Some? ==> ServiceFrom(ks.remote.hist, image, ks.remote.svc.value, l.service))
    && (ks.job.Some? ==> JobFrom(k, pl, ks.remote.hist, ks.job.value, l.job))
  }

  /** Versions are never rewritten. */
  lemma HistoryKept(k: Key, image: string, ks: KeyState, a: Action)
    ensures ks.remote.hist <= KeyStep(k, image, ks, a).remote.hist
  {
  }

  /** A pass leaves a Service alone, and makes a missing one from its copy. */
  lemma ServiceUnderPass(k: Key, image: string, ks: KeyState, a: Action)
    requires !a.Env?
    ensures var svc := KeyStep(k, image, ks, a).remote.svc;
            && (ks.remote.svc.Some? ==> svc == ks.remote.svc)
            && (ks.remote.svc.None? && svc.Some? ==>
                  && ks.pass.Some? && ks.pass.value.pc.AtCreateService?
                  && svc == Some(MakeService(ks.pass.value.csr, image)))
  {
  }

  /** Others give a Service a domain, or drop it. */
  lemma ServiceUnderOthers(k: Key, image: string, ks: KeyState, a: Action)
    requires a.Env?
    ensures var svc := KeyStep(k, image, ks, a).remote.svc;
            svc.Some? ==> ks.remote.svc.Some? && svc.value.(domain := "") == ks.remote.svc.value.(domain := "")
  {
  }

  /** A step that changes the job to another one is an UpdateJob or a CreateJob of the running pass. */
  lemma JobUnderPass(k: Key, image: string, ks: KeyState, a: Action)
    ensures var job := KeyStep(k, image, ks, a).job;
            job.Some? && job != ks.job ==>
              && !a.Env? && ks.pass.Some? && (ks.pass.value.pc.AtUpdateJob? || ks.pass.value.pc.AtCreateJob?)
              && job.value == CreateJobProto(JobNameOf(ks.pass.value.csr), ks.pass.value.csr.spec, ks.pass.value.pc.url)
  {
  }

  lemma ServiceNoted(k: Key, image: string, pl: Place, ks: KeyState, a: Action, l: Ledger)
    requires Inv(k, pl, ks) && Accounted(k, image, pl, ks, l)
    ensures var ks' := KeyStep(k, image, ks, a);
            ks'.remote.svc.Some? ==>
              ServiceFrom(ks'.remote.hist, image, ks'.remote.svc.value, Note(k, image, ks, a, l).service)
  {
    HistoryKept(k, image, ks, a);
    if a.Env? {
      ServiceUnderOthers(k, image, ks, a);
    } else {
      ServiceUnderPass(k, image, ks, a);
    }
  }

  lemma JobNoted(k: Key, image: string, pl: Place, ks: KeyState, a: Action, l: Ledger)
    requires Inv(k, pl, ks) && Accounted(k, image, pl, ks, l)
    ensures var ks' := KeyStep(k, image, ks, a);
            ks'.job.Some? ==> JobFrom(k, pl, ks'.remote.hist, ks'.job.value, Note(k, image, ks, a, l).job)
  {
    HistoryKept(k, image, ks, a);
    JobUnderPass(k, image, ks, a);
    if ks.pass.Some? {
      JobNameOfCopy(k, pl, ks.remote, ks.pass.value);
    }
  }

  lemma PassStaysNoted(k: Key, image: string, pl: Place, ks: KeyState, a: Action, l: Ledger)
    requires Inv(k, pl, ks) && (ks.pass.Some? ==> PassNoted(ks.pass.value, l))
    ensures var ks' := KeyStep(k, image, ks, a);
            ks'.pass.Some? ==> PassNoted(ks'.pass.value, Note(k, image, ks, a, l))
  {
    if a.Reply? && ks.pass.Some? { ReplyNoted(ks, ks.pass.value, image, a.reply, l); }
  }

  lemma ReplyNoted(ks: KeyState, p: Pass, image: string, reply: Reply, l: Ledger)
    requires ks.pass == Some(p) && PassNoted(p, l)
    ensures var pass := Moved(ReplyStep(ks, p, image, reply)).pass;
            pass.Some? ==> PassNoted(pass.value, l.(domain := NoteDomain(ks, Reply(reply), l.domain)))
  {
  }

  lemma UriStaysNoted(k: Key, image: string, pl: Place, ks: KeyState, a: Action, l: Ledger)
    requires Inv(k, pl, ks) && (ks.pass.Some? ==> UriNoted(ks.pass.value, l))
    ensures var ks' := KeyStep(k, image, ks, a);
            ks'.pass.Some? ==> UriNoted(ks'.pass.value, Note(k, image, ks, a, l))
  {
    if a.Reply? && ks.pass.Some? { UriOutlivesReply(ks, ks.pass.value, image, a.reply); }
  }

  lemma UriOutlivesReply(ks: KeyState, p: Pass, image: string, reply: Reply)
    requires ks.pass == Some(p) && (p.pc.AtDeleteJob? ==> Deleting(p.original))
    ensures var pass := Moved(ReplyStep(ks, p, image, reply)).pass;
            pass.Some? && Committed(pass.value) ==>
              Committed(p) && pass.value.csr.status.sinkURI == p.csr.status.sinkURI
  {
  }

  lemma StepAccounts(k: Key, image: string, pl: Place, ks: KeyState, a: Action, l: Ledger)
    requires Inv(k, pl, ks) && Accounted(k, image, pl, ks, l)
    ensures Accounted(k, image, pl, KeyStep(k, image, ks, a), Note(k, image, ks, a, l))
  {
    PassStaysNoted(k, image, pl, ks, a, l);
    UriStaysNoted(k, image, pl, ks, a, l);
    ServiceNoted(k, image, pl, ks, a, l);
    JobNoted(k, image, pl, ks, a, l);
  }

  lemma {:induction false} RunAccounts(k: Key, image: string, pl: Place, ks: KeyState, actions: seq<Action>, l: Ledger)
    requires Inv(k, pl, ks) && KeyAllowed(k, image, pl, ks, actions) && Accounted(k, image, pl, ks, l)
    ensures Accounted(k, image, pl, KeyRun(k, image, ks, actions), NoteRun(k, image, ks, actions, l))
    decreases |actions|
  {
    if actions != [] {
      StepKeeps(k, image, pl, ks, actions[0]);
      StepAccounts(k, image, pl, ks, actions[0], l);
      RunAccounts(k, image, pl, KeyStep(k, image, ks, actions[0]), actions[1..], Note(k, image, ks, actions[0], l));
    }
  }

  /** What the monitor has noted for k by the end of a run. */
  function Noted(cfg: Config, s0: State, trace: seq<Label>, k: Key): Ledger
    requires k in cfg.places && k in s0.remotes
  {
    NoteRun(k, cfg.image, View(cfg, s0, k), Project(trace, k), BLANK)
  }

  lemma ReachedAccounts(cfg: Config, s0: State, trace: seq<Label>, s: State, k: Key)
    requires Safety.Reaches(cfg, s0, trace, s) && k in cfg.places
    ensures k in s0.remotes && k in s.remotes
    ensures Accounted(k, cfg.image, cfg.places[k], View(cfg, s, k), Noted(cfg, s0, trace, k))
  {
    InitInv(cfg, s0);
    AllowedProjects(cfg, s0, trace);
    RunProjects(cfg, s0, trace, k);
    RunAccounts(k, cfg.image, cfg.places[k], View(cfg, s0, k), Project(trace, k), BLANK);
  }

  /**
   * Service history. In every reachable state a Service is the one that its maker made: its environment and its
   * command line both name the URI to which that pass had resolved its sink; its owner and its account are those of
   * the version that the pass had read; and no step of the controller changes it.
   */
  lemma ServiceHistory(cfg: Config, s0: State, trace: seq<Label>, s: State, k: Key)
    requires Safety.Reaches(cfg, s0, trace, s) && k in cfg.places && k in s0.remotes && k in s.remotes
    requires s.remotes[k].svc.Some?
    ensures var svc, origin := s.remotes[k].svc.value, Noted(cfg, s0, trace, k).service;
            && Stood(s.remotes[k].hist, origin)
            && var o := s.remotes[k].hist[origin.value.version].value;
               && EnvValue(svc.env, "SINK") == Some(origin.value.found) == SinkFlag(svc.args)
               && |svc.env| == 1 == |svc.args|
               && svc.labels == map["receive-adapter" := "cloudschedulersource"]
               && svc.owners == [OwnerRef(o.meta.name, o.meta.uid, true)]
               && svc.serviceAccountName == o.spec.serviceAccountName && svc.image == cfg.image
               && Key(svc.namespace, svc.name) == KeyOf(o) == k
    ensures forall a: Action :: !a.Env? ==>
              KeyStep(k, cfg.image, View(cfg, s, k), a).remote.svc == s.remotes[k].svc
  {
    ReachedAccounts(cfg, s0, trace, s, k);
    Safety.ReachedInv(cfg, s0, trace, s, k);
    var h, svc, origin := s.remotes[k].hist, s.remotes[k].svc.value, Noted(cfg, s0, trace, k).service.value;
    assert EntryOk(k, cfg.places[k], origin.version, h[origin.version]);
    MakeServiceSink(Prepared(h[origin.version].value, origin.found), cfg.image);
    forall a: Action | !a.Env? ensures KeyStep(k, cfg.image, View(cfg, s, k), a).remote.svc == Some(svc) {
      ServiceUnderPass(k, cfg.image, View(cfg, s, k), a);
    }
  }

  /**
   * In any run, an Update that lands for a pass on a live source leaves in the status the URI to which that very pass
   * had resolved the sink, whether or not the rest of the pass has failed.
   */
  lemma SinkReported(cfg: Config, s0: State, trace: seq<Label>, s: State, k: Key, a: Action)
    requires Safety.Reaches(cfg, s0, trace, s) && k in cfg.places && k in s0.remotes && k in s.remotes
    requires Safety.UpdateLands(View(cfg, s, k), a) && !Deleting(s.passes[k].original)
    ensures var o := Remotes.Current(KeyStep(k, cfg.image, View(cfg, s, k), a).remote);
            o.Some? && Noted(cfg, s0, trace, k).uri == Some(o.value.status.sinkURI)
  {
    ReachedAccounts(cfg, s0, trace, s, k);
    ReachedGuarded(cfg, s0, trace, s, k, a);
    Safety.SafeWrites(cfg, s0, trace, s, k, a);
  }

  lemma ReachedGuarded(cfg: Config, s0: State, trace: seq<Label>, s: State, k: Key, a: Action)
    requires Safety.Reaches(cfg, s0, trace, s) && k in cfg.places && k in s.remotes
    requires Safety.UpdateLands(View(cfg, s, k), a) && !Deleting(s.passes[k].original)
    ensures Remotes.Current(KeyStep(k, cfg.image, View(cfg, s, k), a).remote).Some?
  {
    Safety.ReachedInv(cfg, s0, trace, s, k);
    LandingGuards(k, cfg.places[k], View(cfg, s, k));
  }

  /**
   * Job history. In every reachable state a job says what the version asked for that the pass had read that created
   * or updated it last: its schedule, its time zone or UTC, its body, and its method or POST. It calls the root of
   * the domain that this pass had found on the Service, and carries nothing else.
   */
  lemma JobHistory(cfg: Config, s0: State, trace: seq<Label>, s: State, k: Key)
    requires Safety.Reaches(cfg, s0, trace, s) && k in cfg.places && k in s0.remotes && k in s.remotes
    requires JobAt(k, cfg.places[k]) in s.jobs
    ensures var job, origin := s.jobs[JobAt(k, cfg.places[k])], Noted(cfg, s0, trace, k).job;
            && Stood(s.remotes[k].hist, origin)
            && var spec := s.remotes[k].hist[origin.value.version].value.spec;
               && job.name == JobAt(k, cfg.places[k]) && job.description == ""
               && job.schedule == spec.schedule
               && job.timeZone == (if spec.timeZone == "" then "UTC" else spec.timeZone)
               && job.target.Http? && job.target.http.body == spec.body && job.target.http.headers == map[]
               && 0 <= job.target.http.httpMethod < |METHOD_NAMES|
               && METHOD_NAMES[job.target.http.httpMethod]
                    == (if spec.httpMethod in METHOD_NAMES then spec.httpMethod else "POST")
               && origin.value.found != "" && Sinks.RootOf(job.target.http.uri, origin.value.found)
  {
    ReachedAccounts(cfg, s0, trace, s, k);
    var job, origin := s.jobs[JobAt(k, cfg.places[k])], Noted(cfg, s0, trace, k).job.value;
    var spec := s.remotes[k].hist[origin.version].value.spec;
    ProtoDescribes(job, JobAt(k, cfg.places[k]), spec, Sinks.HttpUrl(origin.found));
    Sinks.OneRoot(job.target.http.uri, origin.found);
  }
}
