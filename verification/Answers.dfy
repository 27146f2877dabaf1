/** What a pass answers to the work queue, and what it has done by then. */
module Answers {
  import opened Prelude
  import opened Types
  import opened Finalizers
  import opened Sinks
  import opened Jobs
  import opened Remotes
  import opened Protocol
  import opened Invariants
  import opened Cluster
  import opened Passes
  import opened Convergence
  import Orphans
  import Safety

  // ----- update -----

  /** The second read has what the copy has, in status and metadata: there is nothing to write. */
  predicate UpToDate(cached: Option<Source>, csr: Source) {
    cached.Some? && cached.value.status == csr.status && cached.value.meta == csr.meta
  }

  /** The server holds the version that the second read found. */
  predicate StillThere(cached: Option<Source>, current: Option<Source>) {
    cached.Some? && current.Some? && current.value.meta.resourceVersion == cached.value.meta.resourceVersion
  }

  /** What the server holds after it has stored the cached object with the status and the finalizers of the copy. */
  predicate Overwritten(e: Option<Source>, cached: Source, csr: Source, version: nat) {
    match e
    case Some(o) =>
      && o.spec == cached.spec && o.status == csr.status
      && o.meta.resourceVersion == version
      && Items(o.meta.finalizers) == Items(csr.meta.finalizers)
      && o.meta.(resourceVersion := 0, finalizers := NilSlice)
           == cached.meta.(resourceVersion := 0, finalizers := NilSlice)
      && !(Deleting(o) && Items(o.meta.finalizers) == [])
    case None => Deleting(cached) && Items(csr.meta.finalizers) == []
  }

  /**
   * update succeeds exactly when its two calls are answered, so far as it makes them, and there was nothing to write
   * or the server still held the version of the second read; whatever others do before either call. If it succeeds,
   * then it wrote what it was to write. If it fails though both calls are answered, then it wrote nothing.
   */
  lemma UpdateAnswers(k: Key, r: Remote, csr: Source, sc: Script)
    ensures var r1 := Drift(k, r, sc.beforeReread);
            var r2 := Drift(k, r1, sc.beforeWrite);
            var (r', err) := WriteBack(k, r, csr, sc);
            && (err.None? <==>
                  && sc.reread.Answer?
                  && (UpToDate(Cached(r1), csr) || (sc.write.Answer? && StillThere(Cached(r1), Current(r2)))))
            && (err.None? ==>
                  if UpToDate(Cached(r1), csr) then r' == r1
                  else
                    && |r'.hist| == |r2.hist| + 1 && r'.hist[..|r2.hist|] == r2.hist && r'.pos == r2.pos
                    && Overwritten(Current(r'), Cached(r1).value, csr, |r2.hist|))
            && (err.Some? && sc.reread.Answer? && sc.write.Answer? ==> r' == if Cached(r1).None? then r1 else r2)
            && (sc.reread.Answer? && sc.write.Answer? ==>
                  && (err == Some(NotFound) <==>
                        Cached(r1).None? || (!UpToDate(Cached(r1), csr) && Current(r2).None?))
                  && (err == Some(Conflict) <==>
                        Cached(r1).Some? && !UpToDate(Cached(r1), csr)
                        && Current(r2).Some? && !StillThere(Cached(r1), Current(r2))))
  {
    var f := csr.meta.finalizers;
    assert Items(Stored(Items(f))) == Items(f);
  }

  /** What the work queue hears of a pass: the error of update if update fails, and else that of the reconciliation. */
  lemma PassAnswers(k: Key, image: string, st: Stores, sc: Script)
    requires sc.list.Answer? && Cached(st.remote).Some?
    ensures var o, out := Cached(st.remote).value, ReconcileKey(k, image, st, sc);
            var rec := ReconcileSource(k, image, st, o, sc);
            var written := WriteBack(k, rec.stores.remote, rec.csr, sc);
            && (out.err.None? <==> rec.err.None? && (Untouched(o, rec.csr) || written.1.None?))
            && (!Untouched(o, rec.csr) && written.1.Some? ==> out.err == written.1)
            && (Untouched(o, rec.csr) || written.1.None? ==> out.err == rec.err)
  {
  }

  /** A key that is not in the cache is done with, and a cache that cannot be read is an error; nothing is touched. */
  lemma UncachedAnswers(k: Key, image: string, st: Stores, sc: Script)
    requires sc.list.Fault? || Cached(st.remote).None?
    ensures var out := ReconcileKey(k, image, st, sc);
            out.stores == st && (out.err.None? <==> sc.list.Answer?)
  {
  }

  // ----- passes that nobody disturbs -----

  /** The reconciliation of a live source succeeds only if it leaves the finished copy, the job and the Service. */
  lemma LiveSucceeds(k: Key, image: string, st: Stores, uri: string, sc: Script)
    requires Live(st) && Calm(sc) && ReconcileLive(k, image, st, Src(st), uri, sc).err.None?
    ensures var o := Src(st);
            var out := ReconcileLive(k, image, st, o, uri, sc);
            && out.csr == WithJob(Prepared(o, uri), JobNameOf(o))
            && JobSettled(out.stores.job, o) && out.stores.job.value.target.Http?
            && out.stores.job.value.name == JobNameOf(o)
            && out.stores.remote.svc.Some? && out.stores.remote.svc.value.domain != ""
  {
    var o := Src(st);
    ServiceKeepsSource(k, image, st.remote, Prepared(o, uri), sc);
    assert JobNameOf(Prepared(o, uri)) == JobNameOf(o);
  }

  /** A calm update of a live source succeeds exactly when its two calls are answered. */
  lemma CalmUpdateAnswers(k: Key, r: Remote, csr: Source, sc: Script)
    requires Calm(sc) && r.hist != [] && r.pos == |r.hist| - 1 && Current(r).Some? && !Untouched(Current(r).value, csr)
    ensures WriteBack(k, r, csr, sc).1.None? <==> sc.reread.Answer? && sc.write.Answer?
  {
    UpdateAnswers(k, r, csr, sc);
    assert !UpToDate(Cached(r), csr);
  }

  /** A pass on a live source that reports success has settled it. */
  lemma LiveAnswers(k: Key, image: string, st: Stores, sc: Script)
    requires Live(st) && Calm(sc) && ReconcileKey(k, image, CaughtUp(st), sc).err.None?
    ensures var uri := GetSinkURI(Src(st).spec.sink, sc.fetched);
            uri.Ok? && Settled(Work(k, image, st, sc), uri.value)
  {
    var up, o := CaughtUp(st), Src(st);
    var uri := GetSinkURI(o.spec.sink, sc.fetched);
    PassAnswers(k, image, up, sc);
    if uri.Ok? {
      CalmLive(k, image, st, sc, uri.value);
      LiveSucceeds(k, image, up, uri.value, sc);
      LiveCopy(k, image, up, uri.value, sc);
      var out := ReconcileLive(k, image, up, o, uri.value, sc);
      if !Untouched(o, out.csr) { CalmUpdateAnswers(k, out.stores.remote, out.csr, sc); }
      WriteSettles(st, Work(k, image, st, sc), uri.value);
    }
  }

  /** Without faults, the only things that keep a pass on a live source from success are a Service and a job. */
  lemma FaultlessReconcile(k: Key, image: string, st: Stores, uri: string, sc: Script)
    requires Live(st) && Calm(sc) && NoFaults(sc)
    ensures ReconcileLive(k, image, st, Src(st), uri, sc).err ==
            if st.remote.svc.None? || st.remote.svc.value.domain == "" then Some(NoDomain)
            else if st.job.Some? && !st.job.value.target.Http? then Some(MissingHttpTarget)
            else None
  {
    var p := Prepared(Src(st), uri);
    ServiceKeepsSource(k, image, st.remote, p, sc);
    if st.remote.svc.Some? && st.remote.svc.value.domain != "" {
      var wanted := CreateJobProto(JobNameOf(p), p.spec, HttpUrl(st.remote.svc.value.domain));
      ReconcileJobSucceeds(st.job, wanted, Answer, Answer, Answer);
    }
  }

  /**
   * Without faults, a pass on a live source whose sink resolves succeeds exactly when it settles the source, and that
   * is when the Service has a domain and an existing job has an HTTP target. Otherwise its error says which is amiss.
   */
  lemma FaultlessAnswers(k: Key, image: string, st: Stores, sc: Script, uri: string)
    requires Live(st) && Calm(sc) && NoFaults(sc) && GetSinkURI(Src(st).spec.sink, sc.fetched) == Ok(uri)
    ensures var err := ReconcileKey(k, image, CaughtUp(st), sc).err;
            && (err.None? <==> Settled(Work(k, image, st, sc), uri))
            && err == if st.remote.svc.None? || st.remote.svc.value.domain == "" then Some(NoDomain)
                      else if st.job.Some? && !st.job.value.target.Http? then Some(MissingHttpTarget)
                      else None
  {
    var up, o := CaughtUp(st), Src(st);
    assert Src(up) == o;
    PassAnswers(k, image, up, sc);
    FaultlessReconcile(k, image, up, uri, sc);
    LiveCopy(k, image, up, uri, sc);
    var out := ReconcileLive(k, image, up, o, uri, sc);
    if !Untouched(o, out.csr) { CalmUpdateAnswers(k, out.stores.remote, out.csr, sc); }
    if st.remote.svc.Some? && st.remote.svc.value.domain != "" {
      OnePassSettles(k, image, st, sc, uri);
    } else {
      Undomained(k, image, st, sc, uri);
    }
  }

  lemma Undomained(k: Key, image: string, st: Stores, sc: Script, uri: string)
    requires Live(st) && Calm(sc) && NoFaults(sc) && GetSinkURI(Src(st).spec.sink, sc.fetched) == Ok(uri)
    requires st.remote.svc.Some? ==> st.remote.svc.value.domain == ""
    ensures !Settled(Work(k, image, st, sc), uri)
  {
    CalmLive(k, image, st, sc, uri);
    ServiceKeepsSource(k, image, CaughtUp(st).remote, Prepared(Src(st), uri), sc);
  }

  /** The finalizers are as removeFinalizer leaves them. */
  ghost predicate Trimmed(o: Source) {
    Ascending(Items(o.meta.finalizers)) && FINALIZER_NAME !in Items(o.meta.finalizers)
  }

  /**
   * A pass on a deleted source succeeds exactly when its DeleteJob is answered and, unless the finalizers are as they
   * should be already, the two calls of update; whether or not the sink resolves. If so, the source is cleaned up.
   */
  lemma DeletingAnswers(k: Key, image: string, st: Stores, sc: Script)
    requires Doomed(st) && Calm(sc)
    ensures var err := ReconcileKey(k, image, CaughtUp(st), sc).err;
            && (err.None? <==>
                  && sc.list.Answer? && sc.deleteJob.Answer?
                  && (Trimmed(Src(st)) || (sc.reread.Answer? && sc.write.Answer?)))
            && (err.None? ==> CleanedUp(Work(k, image, st, sc)))
  {
    var up, o := CaughtUp(st), Src(st);
    if sc.list.Answer? {
      var csr := WithFinalizers(o, Remove(o.meta.finalizers));
      DeletingPass(k, image, up, o, sc);
      RemoveFixed(o.meta.finalizers);
      SortedIsAscending(Items(o.meta.finalizers));
      if !Untouched(o, csr) { CalmUpdateAnswers(k, up.remote, csr, sc); }
      CalmDeleting(k, image, st, sc);
      CleanedEntry(st, csr);
    }
  }

  // ----- any interleaving -----

  /**
   * A pass that is done with a live source and has no error has its job in place, and its job's name in its copy. Any
   * other pass has the job name in its copy that it had read.
   */
  predicate Earned(k: Key, pl: Place, ks: KeyState) {
    ks.pass.Some? ==>
      var p := ks.pass.value;
      if (p.pc.AtReread? || p.pc.AtWrite?) && p.err.None? && !Deleting(p.original)
      then ks.job.Some? && Fits(ks.job.value, p.original.spec) && p.csr.status.job == JobAt(k, pl)
      else p.csr.status.job == p.original.status.job
  }

  /** What a pass that reports success leaves: its job and the finalizer for a live source, no job for a deleted one. */
  predicate Delivered(p: Pass, landed: bool, ks': KeyState) {
    if Deleting(p.original) then ks'.job.None? && (landed ==> !Guarded(Current(ks'.remote)))
    else ks'.job.Some? && Fits(ks'.job.value, p.original.spec) && Guarded(Current(ks'.remote))
  }

  lemma SinkEarns(k: Key, image: string, pl: Place, ks: KeyState, fetched: Fetched)
    requires Earned(k, pl, ks)
    ensures Earned(k, pl, KeyStep(k, image, ks, Look(fetched)))
    ensures Report(image, ks, Look(fetched)) != Some(None)
  {
  }

  lemma ServiceEarns(k: Key, image: string, pl: Place, ks: KeyState, p: Pass, reply: Reply)
    requires Earned(k, pl, ks) && ks.pass == Some(p) && (p.pc.AtGetService? || p.pc.AtCreateService?)
    ensures var m := ReplyStep(ks, p, image, reply);
            Earned(k, pl, Moved(m)) && m.course != Over(None)
  {
  }

  /** The three calls to the job service that may complete a reconciliation. */
  lemma JobEarns(k: Key, image: string, pl: Place, ks: KeyState, p: Pass, reply: Reply)
    requires Inv(k, pl, ks) && Earned(k, pl, ks) && ks.pass == Some(p)
    requires p.pc.AtGetJob? || p.pc.AtUpdateJob? || p.pc.AtCreateJob?
    ensures var m := ReplyStep(ks, p, image, reply);
            Earned(k, pl, Moved(m)) && (m.course == Over(None) ==> Delivered(p, false, Moved(m)))
  {
    var m := ReplyStep(ks, p, image, reply);
    var wanted := CreateJobProto(JobNameOf(p.csr), p.csr.spec, p.pc.url);
    var out := if p.pc.AtUpdateJob? then UpdateJob(ks.job, wanted, reply)
               else if p.pc.AtCreateJob? then CreateJob(ks.job, wanted, reply)
               else if ks.job.Some? then JobOutcome(ks.job, Ok(ks.job.value)) else JobOutcome(ks.job, Err(JobCall));
    JobNameOfCopy(k, pl, ks.remote, p);
    ProtoDescribes(wanted, JobNameOf(p.csr), p.csr.spec, p.pc.url);
    if ks.job.Some? && ks.job.value.target.Http? {
      AgreesIsFits(ks.job.value, JobNameOf(p.csr), p.csr.spec, p.pc.url);
    }
    if m.course == Over(None) {
      Orphans.NothingToWrite(k, pl, ks, WithJob(p.csr, out.result.value.name));
    }
  }

  lemma DeleteEarns(k: Key, image: string, pl: Place, ks: KeyState, p: Pass, reply: Reply)
    requires Inv(k, pl, ks) && Earned(k, pl, ks) && ks.pass == Some(p) && p.pc.AtDeleteJob?
    ensures var m := ReplyStep(ks, p, image, reply);
            Earned(k, pl, Moved(m)) && (m.course == Over(None) ==> Delivered(p, false, Moved(m)))
  {
  }

  lemma RereadEarns(k: Key, image: string, pl: Place, ks: KeyState, p: Pass, reply: Reply)
    requires Inv(k, pl, ks) && Earned(k, pl, ks) && ks.pass == Some(p) && p.pc.AtReread?
    ensures var m := ReplyStep(ks, p, image, reply);
            Earned(k, pl, Moved(m)) && m.course != Over(None)
  {
    if Cached(ks.remote).Some? { Orphans.RereadDiffers(k, pl, ks); }
  }

  lemma WriteEarns(k: Key, image: string, pl: Place, ks: KeyState, p: Pass, reply: Reply)
    requires Inv(k, pl, ks) && Earned(k, pl, ks) && ks.pass == Some(p) && p.pc.AtWrite?
    ensures var m := ReplyStep(ks, p, image, reply);
            m.course == Over(None) ==> Safety.UpdateLands(ks, Reply(reply)) && Delivered(p, true, Moved(m))
  {
    if reply.Answer? && Accepts(ks.remote, p.pc.next) { LandingGuards(k, pl, ks); }
  }

  lemma ReplyEarns(k: Key, image: string, pl: Place, ks: KeyState, p: Pass, reply: Reply)
    requires Inv(k, pl, ks) && Earned(k, pl, ks) && ks.pass == Some(p)
    ensures var m := ReplyStep(ks, p, image, reply);
            && Earned(k, pl, Moved(m))
            && (m.course == Over(None) ==> Delivered(p, Safety.UpdateLands(ks, Reply(reply)), Moved(m)))
  {
    match p.pc
    case AtSink =>
    case AtDeleteJob => DeleteEarns(k, image, pl, ks, p, reply);
    case AtReread => RereadEarns(k, image, pl, ks, p, reply);
    case AtWrite(_) => WriteEarns(k, image, pl, ks, p, reply);
    case AtGetService => ServiceEarns(k, image, pl, ks, p, reply);
    case AtCreateService => ServiceEarns(k, image, pl, ks, p, reply);
    case _ => JobEarns(k, image, pl, ks, p, reply);
  }

  lemma StepEarns(k: Key, image: string, pl: Place, ks: KeyState, a: Action)
    requires Inv(k, pl, ks) && Earned(k, pl, ks)
    ensures Earned(k, pl, KeyStep(k, image, ks, a))
    ensures Report(image, ks, a) == Some(None) ==>
              Delivered(ks.pass.value, Safety.UpdateLands(ks, a), KeyStep(k, image, ks, a))
  {
    match a
    case Env(_) =>
    case Begin =>
    case Look(fetched) => SinkEarns(k, image, pl, ks, fetched);
    case Reply(reply) =>
      if ks.pass.Some? { ReplyEarns(k, image, pl, ks, ks.pass.value, reply); }
  }

  lemma {:induction false} RunEarns(k: Key, image: string, pl: Place, ks: KeyState, actions: seq<Action>)
    requires Inv(k, pl, ks) && Earned(k, pl, ks) && KeyAllowed(k, image, pl, ks, actions)
    ensures Earned(k, pl, KeyRun(k, image, ks, actions))
    decreases |actions|
  {
    if actions != [] {
      StepKeeps(k, image, pl, ks, actions[0]);
      StepEarns(k, image, pl, ks, actions[0]);
      RunEarns(k, image, pl, KeyStep(k, image, ks, actions[0]), actions[1..]);
    }
  }

  lemma ReachedEarned(cfg: Config, s0: State, trace: seq<Label>, s: State, k: Key)
    requires Safety.Reaches(cfg, s0, trace, s) && k in cfg.places
    ensures k in s.remotes && Earned(k, cfg.places[k], View(cfg, s, k))
  {
    InitInv(cfg, s0);
    AllowedProjects(cfg, s0, trace);
    RunProjects(cfg, s0, trace, k);
    RunEarns(k, cfg.image, cfg.places[k], View(cfg, s0, k), Project(trace, k));
  }

  /**
   * Success is never an empty word. In any run, whatever happens in between and however stale the cache: when a pass
   * reports success on a live source, then the job is there and fits the spec that the pass had read, and the source
   * is on the server with the finalizer; and when it reports success on a deleted source, the job is gone, and so is
   * the finalizer if the pass ended with an Update.
   */
  lemma SuccessMeans(cfg: Config, s0: State, trace: seq<Label>, s: State, l: Label)
    requires Safety.Reaches(cfg, s0, trace, s) && LabelAllowed(cfg, s, l)
    ensures l.key in Next(cfg, s, l).remotes
    ensures var k, ks := l.key, View(cfg, s, l.key);
            Report(cfg.image, ks, l.act) == Some(None) ==>
              ks.pass.Some? && Delivered(ks.pass.value, Safety.UpdateLands(ks, l.act), View(cfg, Next(cfg, s, l), k))
  {
    var k := l.key;
    InitInv(cfg, s0);
    RunInv(cfg, s0, trace);
    ReachedEarned(cfg, s0, trace, s, k);
    StepFrame(cfg, s, l, k);
    StepEarns(k, cfg.image, cfg.places[k], View(cfg, s, k), l.act);
  }

  /**
   * Every claim is earned. In any run, an Update that lands leaves in the status the job name that its pass had read,
   * or the name of the source's own job while that job is there and fits the spec that the pass had read. A pass that
   * has failed claims no job, and withdraws none.
   */
  lemma ClaimsEarned(cfg: Config, s0: State, trace: seq<Label>, s: State, k: Key, a: Action)
    requires Safety.Reaches(cfg, s0, trace, s) && k in cfg.places && k in s.remotes
    requires Safety.UpdateLands(View(cfg, s, k), a)
    ensures var p, o := s.passes[k], Current(KeyStep(k, cfg.image, View(cfg, s, k), a).remote);
            var n := JobAt(k, cfg.places[k]);
            o.Some? ==>
              if p.err.Some? || Deleting(p.original) then o.value.status.job == p.original.status.job
              else o.value.status.job == n && n in s.jobs && Fits(s.jobs[n], p.original.spec)
  {
    ReachedEarned(cfg, s0, trace, s, k);
    Safety.SafeWrites(cfg, s0, trace, s, k, a);
  }
}
