/** Passes without interference: how much they write, where they come to rest, and how a deletion ends. */
module Convergence {
  import opened Prelude
  import opened Types
  import opened Finalizers
  import opened Sinks
  import Resources
  import opened Jobs
  import opened Remotes
  import opened Protocol
  import opened Passes

  /** Nobody else acts during the pass. Its own calls may still fail, with or without effect. */
  predicate Calm(sc: Script) {
    sc.beforeGet == [] && sc.beforeCreate == [] && sc.beforeReread == [] && sc.beforeWrite == []
  }

  predicate NoFaults(sc: Script) {
    && sc.list.Answer? && sc.getService.Answer? && sc.createService.Answer?
    && sc.getJob.Answer? && sc.updateJob.Answer? && sc.createJob.Answer? && sc.deleteJob.Answer?
    && sc.reread.Answer? && sc.write.Answer?
  }

  /** The cache has caught up with the API server. */
  function CaughtUp(st: Stores): Stores {
    if st.remote.hist == [] then st else st.(remote := st.remote.(pos := |st.remote.hist| - 1))
  }

  /** One pass that starts with a current cache. */
  function Work(k: Key, image: string, st: Stores, sc: Script): Stores {
    ReconcileKey(k, image, CaughtUp(st), sc).stores
  }

  /** The stores agree on what is the current version, and the job under the source's name bears that name. */
  predicate Ready(st: Stores) {
    && st.remote.hist != []
    && (Current(st.remote).Some? ==>
          && Current(st.remote).value.meta.resourceVersion == |st.remote.hist| - 1
          && Current(st.remote).value.meta.finalizers == Stored(Items(Current(st.remote).value.meta.finalizers))
          && (st.job.Some? ==> st.job.value.name == JobNameOf(Current(st.remote).value)))
  }

  predicate Live(st: Stores) {
    Ready(st) && Current(st.remote).Some? && !Deleting(Current(st.remote).value)
  }

  function Src(st: Stores): Source
    requires Current(st.remote).Some?
  {
    Current(st.remote).value
  }

  // ----- what one pass does -----

  lemma ServiceKeepsSource(k: Key, image: string, r: Remote, csr: Source, sc: Script)
    requires Calm(sc)
    ensures var out := ReconcileService(k, image, r, csr, sc);
            && out.remote.hist == r.hist && out.remote.pos == r.pos
            && (r.svc.Some? ==> out.remote.svc == r.svc)
            && (out.result.Ok? ==> out.remote.svc == Some(out.result.value))
            && (r.svc.Some? && sc.getService.Answer? ==> out.result == Ok(r.svc.value))
  {
  }

  /** The copy of a pass differs from the source in the finalizers, the SinkURI and the job field alone. */
  lemma LiveCopy(k: Key, image: string, st: Stores, uri: string, sc: Script)
    requires Live(st) && Calm(sc)
    ensures var o := Src(st);
            var out := ReconcileLive(k, image, st, o, uri, sc);
            && out.stores.remote.hist == st.remote.hist && out.stores.remote.pos == st.remote.pos
            && (out.csr == Prepared(o, uri) || out.csr == WithJob(Prepared(o, uri), JobNameOf(o)))
  {
    var o := Src(st);
    var p := Prepared(o, uri);
    ServiceKeepsSource(k, image, st.remote, p, sc);
    assert JobNameOf(p) == JobNameOf(o);
  }

  /** update with a current cache: the copy is stored, unless a call fails on the way. */
  lemma CalmWrite(k: Key, r: Remote, csr: Source, sc: Script)
    requires Calm(sc) && r.hist != [] && r.pos == |r.hist| - 1 && Current(r).Some?
    requires Current(r).value.meta.resourceVersion == |r.hist| - 1
    requires csr.spec == Current(r).value.spec
    requires csr.meta == Current(r).value.meta.(finalizers := csr.meta.finalizers)
    requires !Untouched(Current(r).value, csr)
    ensures WriteBack(k, r, csr, sc).0
         == if sc.reread.Answer? && Lands(sc.write) then Append(r, Admitted(r, csr)) else r
  {
    assert Merged(Current(r).value, csr) == csr;
  }

  function Stamped(o: Source, v: nat): Source {
    o.(meta := o.meta.(resourceVersion := v, finalizers := Stored(Items(o.meta.finalizers))))
  }

  /** A calm pass on a live source, in one formula. */
  lemma CalmLive(k: Key, image: string, st: Stores, sc: Script, uri: string)
    requires Live(st) && Calm(sc) && sc.list.Answer? && GetSinkURI(Src(st).spec.sink, sc.fetched) == Ok(uri)
    ensures var out := ReconcileLive(k, image, CaughtUp(st), Src(st), uri, sc);
            var st' := Work(k, image, st, sc);
            && st'.job == out.stores.job
            && st'.remote.svc == out.stores.remote.svc
            && st'.remote.hist == st.remote.hist +
                 (if !Untouched(Src(st), out.csr) && sc.reread.Answer? && Lands(sc.write)
                  then [Some(Stamped(out.csr, |st.remote.hist|))] else [])
  {
    var up := CaughtUp(st);
    LiveCopy(k, image, up, uri, sc);
    var out := ReconcileLive(k, image, up, Src(st), uri, sc);
    if !Untouched(Src(st), out.csr) {
      CalmWrite(k, out.stores.remote, out.csr, sc);
    }
  }

  /** A pass that cannot list the source or resolve its sink does nothing. */
  lemma CalmBlocked(k: Key, image: string, st: Stores, sc: Script)
    requires Live(st)
    requires sc.list.Fault? || GetSinkURI(Src(st).spec.sink, sc.fetched).Err?
    ensures Work(k, image, st, sc) == CaughtUp(st)
  {
  }

  // ----- the bound on writes -----

  /** The finalizers and the SinkURI of the source are as a pass with this URI leaves them. */
  predicate HeadOk(o: Source, uri: string) {
    Items(Add(o.meta.finalizers)) == Items(o.meta.finalizers) && o.status.sinkURI == uri
  }

  /** Has the stored job what reconcileJob looks for? The target URI plays no part. */
  predicate JobSettled(job: Option<Job>, o: Source) {
    job.Some? && (job.value.target.Http? ==> Agrees(job.value, CreateJobProto(JobNameOf(o), o.spec, "")))
  }

  /** How many more Updates of the source are to come at most. */
  function UpdatesLeft(st: Stores, uri: string): nat
    requires Live(st)
  {
    (if HeadOk(Src(st), uri) then 0 else 1) + (if Src(st).status.job == JobNameOf(Src(st)) then 0 else 1)
  }

  function JobWritesLeft(st: Stores): nat
    requires Live(st)
  {
    if JobSettled(st.job, Src(st)) then 0 else 1
  }

  function ServiceCreatesLeft(st: Stores): nat {
    if st.remote.svc.Some? then 0 else 1
  }

  /** Every resolution of the sink that succeeds gives this URI. */
  predicate Steady(sc: Script, sink: Option<ObjectRef>, uri: string) {
    Calm(sc) && (GetSinkURI(sink, sc.fetched).Ok? ==> GetSinkURI(sink, sc.fetched).value == uri)
  }

  datatype Event = Attempt(script: Script) | Domain(domain: string)

  function Apply(k: Key, image: string, st: Stores, e: Event): Stores {
    match e
    case Attempt(sc) => Work(k, image, st, sc)
    case Domain(d) => st.(remote := EnvStep(k, st.remote, GainDomain(d)))
  }

  function ApplyAll(k: Key, image: string, st: Stores, es: seq<Event>): Stores
    decreases |es|
  {
    if es == [] then st else ApplyAll(k, image, Apply(k, image, st, es[0]), es[1..])
  }

  predicate SteadyEvent(e: Event, sink: Option<ObjectRef>, uri: string) {
    e.Attempt? ==> Steady(e.script, sink, uri)
  }

  /** The writes that take effect over a series of events. */
  datatype Tally = Tally(serviceCreates: nat, jobWrites: nat, updates: int)

  function Count(k: Key, image: string, st: Stores, es: seq<Event>): Tally
    decreases |es|
  {
    if es == [] then Tally(0, 0, 0)
    else
      var st' := Apply(k, image, st, es[0]);
      var rest := Count(k, image, st', es[1..]);
      Tally(
        rest.serviceCreates + (if st.remote.svc.None? && st'.remote.svc.Some? then 1 else 0),
        rest.jobWrites + (if st'.job != st.job then 1 else 0),
        rest.updates + |st'.remote.hist| - |st.remote.hist|)
  }

  /** A pass writes a job only if the stored one does not settle it, and what it writes does. */
  lemma JobProgress(stored: Option<Job>, o: Source, url: string, get: Reply, update: Reply, create: Reply)
    requires stored.Some? ==> stored.value.name == JobNameOf(o)
    ensures var out := ReconcileJob(stored, CreateJobProto(JobNameOf(o), o.spec, url), get, update, create);
            && (out.stored != stored ==> !JobSettled(stored, o) && JobSettled(out.stored, o))
            && (out.stored.Some? ==> out.stored.value.name == JobNameOf(o))
  {
  }

  /** The service and the job parts of a calm pass. */
  lemma StoresProgress(k: Key, image: string, st: Stores, uri: string, sc: Script)
    requires Live(st) && Calm(sc)
    ensures var o := Src(st);
            var out := ReconcileLive(k, image, st, o, uri, sc);
            && (out.stores.job != st.job ==> !JobSettled(st.job, o) && JobSettled(out.stores.job, o))
            && (out.stores.job.Some? ==> out.stores.job.value.name == JobNameOf(o))
            && (st.remote.svc.Some? ==> out.stores.remote.svc == st.remote.svc)
  {
    var o := Src(st);
    var p := Prepared(o, uri);
    ServiceKeepsSource(k, image, st.remote, p, sc);
    var svc := ReconcileService(k, image, st.remote, p, sc);
    assert JobNameOf(p) == JobNameOf(o) && p.spec == o.spec;
    if svc.result.Ok? {
      JobProgress(st.job, o, HttpUrl(svc.result.value.domain), sc.getJob, sc.updateJob, sc.createJob);
    }
  }

  /** Writing the copy back settles the finalizers and the SinkURI, or else the job field. */
  lemma UpdateProgress(o: Source, uri: string, csr: Source, v: nat)
    requires csr == Prepared(o, uri) || csr == WithJob(Prepared(o, uri), JobNameOf(o))
    requires !Untouched(o, csr)
    ensures var o' := Stamped(csr, v);
            && JobNameOf(o') == JobNameOf(o) && HeadOk(o', uri)
            && (o.status.job == JobNameOf(o) ==> o'.status.job == JobNameOf(o'))
            && (HeadOk(o, uri) ==> o.status.job != JobNameOf(o) && o'.status.job == JobNameOf(o'))
  {
    FinalizerAlgebra(o.meta.finalizers);
    Membership(csr.meta.finalizers);
    SameSetSameLists(csr.meta.finalizers, Stored(Items(csr.meta.finalizers)));
  }

  /** One event: what it writes is no longer left to be written. */
  lemma EventProgress(k: Key, image: string, st: Stores, e: Event, uri: string)
    requires Live(st) && SteadyEvent(e, Src(st).spec.sink, uri)
    ensures var st' := Apply(k, image, st, e);
            && Live(st')
            && Src(st').spec == Src(st).spec
            && |st'.remote.hist| - |st.remote.hist| + UpdatesLeft(st', uri) <= UpdatesLeft(st, uri)
            && (if st'.job != st.job then 1 else 0) + JobWritesLeft(st') <= JobWritesLeft(st)
            && (st.remote.svc.Some? ==> st'.remote.svc.Some?)
  {
    if e.Attempt? {
      var sc := e.script;
      if sc.list.Fault? || GetSinkURI(Src(st).spec.sink, sc.fetched).Err? {
        CalmBlocked(k, image, st, sc);
      } else {
        PassProgress(k, image, st, sc, uri);
      }
    }
  }

  /** What is left to be written after a pass that leaves st' behind and may have written its copy back. */
  lemma WriteProgress(st: Stores, st': Stores, csr: Source, uri: string, wrote: bool)
    requires Live(st)
    requires csr == Prepared(Src(st), uri) || csr == WithJob(Prepared(Src(st), uri), JobNameOf(Src(st)))
    requires wrote ==> !Untouched(Src(st), csr)
    requires st'.remote.hist == st.remote.hist + if wrote then [Some(Stamped(csr, |st.remote.hist|))] else []
    requires st'.job.Some? ==> st'.job.value.name == JobNameOf(Src(st))
    requires st'.job != st.job ==> !JobSettled(st.job, Src(st)) && JobSettled(st'.job, Src(st))
    ensures Live(st') && Src(st').spec == Src(st).spec
    ensures |st'.remote.hist| - |st.remote.hist| + UpdatesLeft(st', uri) <= UpdatesLeft(st, uri)
    ensures (if st'.job != st.job then 1 else 0) + JobWritesLeft(st') <= JobWritesLeft(st)
    ensures wrote || Untouched(Src(st), csr) ==> Src(st').status.sinkURI == uri
  {
    if wrote {
      UpdateProgress(Src(st), uri, csr, |st.remote.hist|);
      Membership(csr.meta.finalizers);
      assert Src(st') == Stamped(csr, |st.remote.hist|);
    } else {
      assert Src(st') == Src(st);
    }
  }

  /** The copy of a calm pass on a live source, and what the pass leaves behind. */
  lemma LivePass(k: Key, image: string, st: Stores, sc: Script, uri: string) returns (csr: Source)
    requires Live(st) && Calm(sc) && sc.list.Answer? && GetSinkURI(Src(st).spec.sink, sc.fetched) == Ok(uri)
    ensures csr == Prepared(Src(st), uri) || csr == WithJob(Prepared(Src(st), uri), JobNameOf(Src(st)))
    ensures var st' := Work(k, image, st, sc);
            && st'.remote.hist == st.remote.hist +
                 (if !Untouched(Src(st), csr) && sc.reread.Answer? && Lands(sc.write)
                  then [Some(Stamped(csr, |st.remote.hist|))] else [])
            && (st'.job != st.job ==> !JobSettled(st.job, Src(st)) && JobSettled(st'.job, Src(st)))
            && (st'.job.Some? ==> st'.job.value.name == JobNameOf(Src(st)))
            && (st.remote.svc.Some? ==> st'.remote.svc == st.remote.svc)
  {
    CalmLive(k, image, st, sc, uri);
    LiveCopy(k, image, CaughtUp(st), uri, sc);
    StoresProgress(k, image, CaughtUp(st), uri, sc);
    csr := ReconcileLive(k, image, CaughtUp(st), Src(st), uri, sc).csr;
  }

  lemma PassProgress(k: Key, image: string, st: Stores, sc: Script, uri: string)
    requires Live(st) && Calm(sc) && sc.list.Answer? && GetSinkURI(Src(st).spec.sink, sc.fetched) == Ok(uri)
    ensures var st' := Work(k, image, st, sc);
            && Live(st')
            && Src(st').spec == Src(st).spec
            && |st'.remote.hist| - |st.remote.hist| + UpdatesLeft(st', uri) <= UpdatesLeft(st, uri)
            && (if st'.job != st.job then 1 else 0) + JobWritesLeft(st') <= JobWritesLeft(st)
            && (st.remote.svc.Some? ==> st'.remote.svc == st.remote.svc)
            && (NoFaults(sc) ==> Src(st').status.sinkURI == uri)
  {
    var csr := LivePass(k, image, st, sc, uri);
    WriteProgress(st, Work(k, image, st, sc), csr, uri,
                  !Untouched(Src(st), csr) && sc.reread.Answer? && Lands(sc.write));
  }

  /**
   * The write bound. From any live source, over any number of passes with a steady sink, whichever of their calls
   * fail, and whatever domains the Service is given in between: at most one Service create, one job write and two
   * Updates of the source take effect.
   */
  lemma {:induction false} WriteBound(k: Key, image: string, st: Stores, es: seq<Event>, uri: string)
    requires Live(st) && forall e <- es :: SteadyEvent(e, Src(st).spec.sink, uri)
    ensures var t := Count(k, image, st, es);
            && t.serviceCreates <= ServiceCreatesLeft(st) <= 1
            && t.jobWrites <= JobWritesLeft(st) <= 1
            && 0 <= t.updates <= UpdatesLeft(st, uri) <= 2
    ensures Live(ApplyAll(k, image, st, es)) && Src(ApplyAll(k, image, st, es)).spec == Src(st).spec
    decreases |es|
  {
    if es != [] {
      EventProgress(k, image, st, es[0], uri);
      WriteBound(k, image, Apply(k, image, st, es[0]), es[1..], uri);
      HistoryGrows(k, image, st, es[0], uri);
    }
  }

  lemma HistoryGrows(k: Key, image: string, st: Stores, e: Event, uri: string)
    requires Live(st) && SteadyEvent(e, Src(st).spec.sink, uri)
    ensures |Apply(k, image, st, e).remote.hist| >= |st.remote.hist|
  {
    if e.Attempt? {
      if e.script.list.Fault? || GetSinkURI(Src(st).spec.sink, e.script.fetched).Err? {
        CalmBlocked(k, image, st, e.script);
      } else {
        CalmLive(k, image, st, e.script, uri);
      }
    }
  }

  // ----- fixed points -----

  /** A live source with which every pass is content. */
  predicate Settled(st: Stores, uri: string) {
    && Live(st)
    && HeadOk(Src(st), uri)
    && st.remote.svc.Some? && st.remote.svc.value.domain != ""
    && JobSettled(st.job, Src(st)) && st.job.value.target.Http?
    && Src(st).status.job == JobNameOf(Src(st))
  }

  /** The fixed point is reached once the job is right and the finished copy is on the server. */
  lemma WriteSettles(st: Stores, st': Stores, uri: string)
    requires Live(st)
    requires var csr := WithJob(Prepared(Src(st), uri), JobNameOf(Src(st)));
             st'.remote.hist == st.remote.hist +
               if Untouched(Src(st), csr) then [] else [Some(Stamped(csr, |st.remote.hist|))]
    requires JobSettled(st'.job, Src(st)) && st'.job.value.target.Http? && st'.job.value.name == JobNameOf(Src(st))
    requires st'.remote.svc.Some? && st'.remote.svc.value.domain != ""
    ensures Settled(st', uri)
  {
    var o := Src(st);
    var csr := WithJob(Prepared(o, uri), JobNameOf(o));
    if Untouched(o, csr) {
      assert Src(st') == o;
    } else {
      UpdateProgress(o, uri, csr, |st.remote.hist|);
      Membership(csr.meta.finalizers);
      assert Src(st') == Stamped(csr, |st.remote.hist|);
    }
  }

  /** With a Service that has a domain, and without faults, only a job that has no HTTP target stops a pass. */
  lemma FaultlessLive(k: Key, image: string, st: Stores, uri: string, sc: Script)
    requires Live(st) && Calm(sc) && NoFaults(sc)
    requires st.remote.svc.Some? && st.remote.svc.value.domain != ""
    ensures var o := Src(st);
            var out := ReconcileLive(k, image, st, o, uri, sc);
            && out.stores.remote.svc == st.remote.svc
            && if st.job.Some? && !st.job.value.target.Http? then out.stores.job == st.job
               else
                 && out.csr == WithJob(Prepared(o, uri), JobNameOf(o))
                 && JobSettled(out.stores.job, o) && out.stores.job.value.target.Http?
                 && out.stores.job.value.name == JobNameOf(o)
  {
    var o := Src(st);
    ServiceKeepsSource(k, image, st.remote, Prepared(o, uri), sc);
    var url := HttpUrl(st.remote.svc.value.domain);
    CompareThenWrite(st.job, CreateJobProto(JobNameOf(o), o.spec, url), Answer, Answer, Answer);
  }

  lemma FaultlessPass(k: Key, image: string, st: Stores, sc: Script, uri: string)
    requires Live(st) && Calm(sc) && NoFaults(sc) && GetSinkURI(Src(st).spec.sink, sc.fetched) == Ok(uri)
    requires st.remote.svc.Some? && st.remote.svc.value.domain != ""
    requires st.job.Some? ==> st.job.value.target.Http?
    ensures var o, st' := Src(st), Work(k, image, st, sc);
            var csr := WithJob(Prepared(o, uri), JobNameOf(o));
            && st'.remote.hist == st.remote.hist +
                 (if Untouched(o, csr) then [] else [Some(Stamped(csr, |st.remote.hist|))])
            && st'.remote.svc == st.remote.svc
            && JobSettled(st'.job, o) && st'.job.value.target.Http? && st'.job.value.name == JobNameOf(o)
  {
    assert Src(CaughtUp(st)) == Src(st);
    CalmLive(k, image, st, sc, uri);
    FaultlessLive(k, image, CaughtUp(st), uri, sc);
  }

  /**
   * Once the Service has a domain, a single pass without faults reaches a fixed point; unless there is a job under
   * the source's name that has no HTTP target.
   */
  lemma OnePassSettles(k: Key, image: string, st: Stores, sc: Script, uri: string)
    requires Live(st) && Calm(sc) && NoFaults(sc) && GetSinkURI(Src(st).spec.sink, sc.fetched) == Ok(uri)
    requires st.remote.svc.Some? && st.remote.svc.value.domain != ""
    ensures Settled(Work(k, image, st, sc), uri) <==> (st.job.Some? ==> st.job.value.target.Http?)
  {
    if st.job.Some? ==> st.job.value.target.Http? {
      FaultlessPass(k, image, st, sc, uri);
      WriteSettles(st, Work(k, image, st, sc), uri);
    } else {
      CalmLive(k, image, st, sc, uri);
      FaultlessLive(k, image, CaughtUp(st), uri, sc);
    }
  }

  /** Any number of passes, one after the other. */
  function Works(k: Key, image: string, st: Stores, scs: seq<Script>): Stores
    decreases |scs|
  {
    if scs == [] then st else Works(k, image, Work(k, image, st, scs[0]), scs[1..])
  }

  // ----- sources that are being deleted -----

  predicate Doomed(st: Stores) {
    Ready(st) && Current(st.remote).Some? && Deleting(Src(st))
  }

  /** Whether the sink resolves or not, a source that is being deleted is cleaned up. */
  lemma DeletingPass(k: Key, image: string, st: Stores, o: Source, sc: Script)
    requires sc.list.Answer? && Cached(st.remote) == Some(o) && Deleting(o)
    ensures ReconcileKey(k, image, st, sc) == FinishPass(k, o, ReconcileDeleting(st, o, sc), sc)
  {
  }

  /** A calm pass on a source that is being deleted, in one formula. The sink plays no part. */
  lemma CalmDeleting(k: Key, image: string, st: Stores, sc: Script)
    requires Doomed(st) && Calm(sc) && sc.list.Answer?
    ensures var o := Src(st);
            var csr := WithFinalizers(o, Remove(o.meta.finalizers));
            var st' := Work(k, image, st, sc);
            && st'.job == DeleteJob(st.job, sc.deleteJob).0
            && st'.remote.svc == st.remote.svc
            && st'.remote.hist == st.remote.hist +
                 (if sc.deleteJob.Answer? && !Untouched(o, csr) && sc.reread.Answer? && Lands(sc.write)
                  then [Admitted(st.remote, csr)] else [])
  {
    var o := Src(st);
    var csr := WithFinalizers(o, Remove(o.meta.finalizers));
    var up := CaughtUp(st);
    DeletingPass(k, image, up, o, sc);
    if !Untouched(o, csr) {
      CalmWrite(k, up.remote, csr, sc);
    }
  }

  /** The pass gets its job deleted and its Update through. */
  predicate CleansUp(sc: Script) {
    sc.list.Answer? && sc.deleteJob.Answer? && sc.reread.Answer? && Lands(sc.write)
  }

  /** The source is gone or released by the controller, and its job is gone. */
  predicate CleanedUp(st: Stores) {
    && Ready(st) && !Guarded(Current(st.remote)) && st.job.None?
    && (Current(st.remote).Some? ==> Deleting(Src(st)))
  }

  /** The entry that the cleaned-up copy leaves on the server. */
  lemma CleanedEntry(st: Stores, csr: Source)
    requires Doomed(st) && csr == WithFinalizers(Src(st), Remove(Src(st).meta.finalizers))
    ensures !Guarded(Some(csr)) && !Guarded(Admitted(st.remote, csr))
    ensures Admitted(st.remote, csr).Some? ==>
              var o := Admitted(st.remote, csr).value;
              Deleting(o) && o.meta.resourceVersion == |st.remote.hist| && JobNameOf(o) == JobNameOf(Src(st))
              && o.meta.finalizers == Stored(Items(o.meta.finalizers))
  {
    Membership(Src(st).meta.finalizers);
    Membership(csr.meta.finalizers);
  }

  lemma CleaningPass(k: Key, image: string, st: Stores, sc: Script)
    requires Doomed(st) && Guarded(Current(st.remote)) && Calm(sc)
    ensures var st' := Work(k, image, st, sc);
            if CleansUp(sc) then CleanedUp(st') else Doomed(st') && Guarded(Current(st'.remote))
  {
    var o := Src(st);
    CleanedEntry(st, WithFinalizers(o, Remove(o.meta.finalizers)));
    if sc.list.Answer? { CalmDeleting(k, image, st, sc); }
  }

  lemma StillCleanedUp(st: Stores, st': Stores)
    requires CleanedUp(st) && Current(st.remote).Some? && st'.job.None?
    requires var csr := WithFinalizers(Src(st), Remove(Src(st).meta.finalizers));
             st'.remote.hist == st.remote.hist || st'.remote.hist == st.remote.hist + [Admitted(st.remote, csr)]
    ensures CleanedUp(st')
  {
    CleanedEntry(st, WithFinalizers(Src(st), Remove(Src(st).meta.finalizers)));
  }

  lemma CleanedPass(k: Key, image: string, st: Stores, sc: Script)
    requires CleanedUp(st) && Calm(sc)
    ensures CleanedUp(Work(k, image, st, sc))
  {
    if Current(st.remote).Some? && sc.list.Answer? {
      CalmDeleting(k, image, st, sc);
      StillCleanedUp(st, Work(k, image, st, sc));
    } else {
      assert Work(k, image, st, sc) == CaughtUp(st);
    }
  }

  lemma {:induction false} CleanedPasses(k: Key, image: string, st: Stores, scs: seq<Script>)
    requires CleanedUp(st) && forall sc <- scs :: Calm(sc)
    ensures CleanedUp(Works(k, image, st, scs))
    decreases |scs|
  {
    if scs != [] {
      CleanedPass(k, image, st, scs[0]);
      CleanedPasses(k, image, Work(k, image, st, scs[0]), scs[1..]);
    }
  }

  /**
   * Deletion ends with the last fault. However often the job service, the lister and the API server have failed
   * before, with or without effect, and whether or not the sink resolves: a deleted source is cleaned up - its job
   * gone, its finalizer dropped - exactly when some pass has got its DeleteJob and its Update through.
   */
  lemma {:induction false} DeletionTerminates(k: Key, image: string, st: Stores, scs: seq<Script>)
    requires Doomed(st) && Guarded(Current(st.remote)) && forall sc <- scs :: Calm(sc)
    ensures CleanedUp(Works(k, image, st, scs)) <==> exists sc <- scs :: CleansUp(sc)
    decreases |scs|
  {
    if scs != [] {
      var st' := Work(k, image, st, scs[0]);
      CleaningPass(k, image, st, scs[0]);
      assert scs == [scs[0]] + scs[1..];
      if CleansUp(scs[0]) {
        CleanedPasses(k, image, st', scs[1..]);
      } else {
        DeletionTerminates(k, image, st', scs[1..]);
      }
    }
  }

  // ----- what a pass does not repair -----

  /** A moved sink reaches the status of the source, but never a Service that exists already. */
  lemma MovedSinkIsKept(k: Key, image: string, st: Stores, sc: Script, uri: string, moved: string)
    requires Live(st) && Calm(sc) && NoFaults(sc) && GetSinkURI(Src(st).spec.sink, sc.fetched) == Ok(moved)
    requires uri != moved && st.remote.svc.Some? && Resources.EnvValue(st.remote.svc.value.env, "SINK") == Some(uri)
    ensures var st' := Work(k, image, st, sc);
            && Current(st'.remote).Some? && Src(st').status.sinkURI == moved
            && st'.remote.svc.Some? && Resources.EnvValue(st'.remote.svc.value.env, "SINK") == Some(uri)
  {
    PassProgress(k, image, st, sc, moved);
  }
}
