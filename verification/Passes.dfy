/**
 * A whole pass of the reconciler, as one function of the stores and of everything that happens to it on the way;
 * and the proof that it is a run of the step system.
 */
module Passes {
  import opened Prelude
  import opened Types
  import Finalizers
  import Sinks
  import Resources
  import opened Jobs
  import opened Remotes
  import opened Protocol

  /**
   * What a pass meets: the replies to its calls, and the steps of other parties before each call that looks at the
   * API server, the cache or the Service. Calls to the job service look at none of these, so what happens around
   * them is part of the next such interval.
   */
  datatype Script = Script(
    list: Reply,
    fetched: Sinks.Fetched,
    beforeGet: seq<EnvAction>, getService: Reply,
    beforeCreate: seq<EnvAction>, createService: Reply,
    getJob: Reply, updateJob: Reply, createJob: Reply, deleteJob: Reply,
    beforeReread: seq<EnvAction>, reread: Reply,
    beforeWrite: seq<EnvAction>, write: Reply)

  /** The stores that belong to one key. */
  datatype Stores = Stores(remote: Remote, job: Option<Job>)

  datatype ServiceOutcome = ServiceOutcome(remote: Remote, result: Result<Resources.Service>)

  /** Create on the Services of the cluster: an existing Service is never overwritten. */
  function CreateService(r: Remote, made: Resources.Service, reply: Reply): ServiceOutcome {
    var stored := if r.svc.None? && Lands(reply) then r.(svc := Some(made)) else r;
    match reply
    case Fault(_) => ServiceOutcome(stored, Err(ServiceCall))
    case Answer => if r.svc.Some? then ServiceOutcome(r, Err(ServiceExists)) else ServiceOutcome(stored, Ok(made))
  }

  /** reconcileService. */
  function ReconcileService(k: Key, image: string, r: Remote, csr: Source, sc: Script): ServiceOutcome {
    var r1 := Drift(k, r, sc.beforeGet);
    if sc.getService.Fault? then ServiceOutcome(r1, Err(ServiceCall))
    else if r1.svc.Some? then ServiceOutcome(r1, Ok(r1.svc.value))
    else CreateService(Drift(k, r1, sc.beforeCreate), Resources.MakeService(csr, image), sc.createService)
  }

  datatype Reconciled = Reconciled(stores: Stores, csr: Source, err: Option<Error>)

  /** reconcileCloudSchedulerSource on a source that is being deleted. */
  function ReconcileDeleting(st: Stores, csr: Source, sc: Script): Reconciled {
    var (stored, err) := DeleteJob(st.job, sc.deleteJob);
    Reconciled(
      st.(job := stored),
      if err.Some? then csr else WithFinalizers(csr, Finalizers.Remove(csr.meta.finalizers)),
      err)
  }

  /** The part of reconcileCloudSchedulerSource that follows the lookup of the Service. */
  function ReconcileWithDomain(st: Stores, csr: Source, svc: Resources.Service, sc: Script): Reconciled {
    if svc.domain == "" then Reconciled(st, csr, Some(NoDomain))
    else
      var wanted := CreateJobProto(JobNameOf(csr), csr.spec, Sinks.HttpUrl(svc.domain));
      WithOutcome(st, csr, ReconcileJob(st.job, wanted, sc.getJob, sc.updateJob, sc.createJob))
  }

  /** What becomes of the stores and the copy once the job has been reconciled. */
  function WithOutcome(st: Stores, csr: Source, out: JobOutcome): Reconciled {
    match out.result
    case Err(e) => Reconciled(st.(job := out.stored), csr, Some(e))
    case Ok(j) => Reconciled(st.(job := out.stored), WithJob(csr, j.name), None)
  }

  /** The part of reconcileCloudSchedulerSource that follows the assignment of SinkURI. */
  function ReconcilePrepared(k: Key, image: string, st: Stores, prepared: Source, sc: Script): Reconciled {
    WithService(st, prepared, ReconcileService(k, image, st.remote, prepared, sc), sc)
  }

  /** What becomes of the stores and the copy once the Service has been reconciled. */
  function WithService(st: Stores, csr: Source, out: ServiceOutcome, sc: Script): Reconciled {
    match out.result
    case Err(e) => Reconciled(st.(remote := out.remote), csr, Some(e))
    case Ok(svc) => ReconcileWithDomain(st.(remote := out.remote), csr, svc, sc)
  }

  function ReconcileLive(k: Key, image: string, st: Stores, csr: Source, uri: string, sc: Script): Reconciled {
    ReconcilePrepared(k, image, st, Prepared(csr, uri), sc)
  }

  /** reconcileCloudSchedulerSource. */
  function ReconcileSource(k: Key, image: string, st: Stores, csr: Source, sc: Script): Reconciled {
    var uri := Sinks.GetSinkURI(csr.spec.sink, sc.fetched);
    if uri.Err? && !Deleting(csr) then Reconciled(st, csr, Some(uri.error))
    else if Deleting(csr) then ReconcileDeleting(st, csr, sc)
    else ReconcileLive(k, image, st, csr, uri.value, sc)
  }

  /** The API server's answer to an Update. */
  function SendUpdate(r: Remote, next: Source, reply: Reply): (Remote, Option<Error>) {
    match reply
    case Fault(applied) => (if applied then Update(r, next) else r, Some(UpdateCall))
    case Answer =>
      if Accepts(r, next) then (Update(r, next), None)
      else (r, Some(if Current(r).None? then NotFound else Conflict))
  }

  /** update, from its look into the cache on. */
  function WriteOver(k: Key, r: Remote, csr: Source, sc: Script): (Remote, Option<Error>) {
    if sc.reread.Fault? then (r, Some(ListerCall))
    else match Cached(r)
      case None => (r, Some(NotFound))
      case Some(cached) =>
        if cached.status == csr.status && cached.meta == csr.meta then (r, None)
        else SendUpdate(Drift(k, r, sc.beforeWrite), Merged(cached, csr), sc.write)
  }

  /** update. */
  function WriteBack(k: Key, r: Remote, csr: Source, sc: Script): (Remote, Option<Error>) {
    WriteOver(k, Drift(k, r, sc.beforeReread), csr, sc)
  }

  datatype PassOutcome = PassOutcome(stores: Stores, err: Option<Error>)

  /** Reconcile, once the source has been reconciled: the copy is written back if it has changed. */
  function FinishPass(k: Key, original: Source, out: Reconciled, sc: Script): PassOutcome {
    if Untouched(original, out.csr) then PassOutcome(out.stores, out.err)
    else
      var (r, err) := WriteBack(k, out.stores.remote, out.csr, sc);
      PassOutcome(out.stores.(remote := r), if err.Some? then err else out.err)
  }

  /** Reconcile, from the first look into the cache on. */
  function ReconcileKey(k: Key, image: string, st: Stores, sc: Script): PassOutcome {
    if sc.list.Fault? then PassOutcome(st, Some(ListerCall))
    else match Cached(st.remote)
      case None => PassOutcome(st, None)
      case Some(original) =>
        FinishPass(k, original, ReconcileSource(k, image, st, original, sc), sc)
  }

  /** The copy of a pass keeps its name. */
  lemma CopyKeepsKey(k: Key, image: string, st: Stores, csr: Source, sc: Script)
    ensures KeyOf(ReconcileSource(k, image, st, csr, sc).csr) == KeyOf(csr)
  {
  }

  // ----- a pass is a run of the step system -----

  function Envs(es: seq<EnvAction>): seq<Action> {
    if es == [] then [] else [Env(es[0])] + Envs(es[1..])
  }

  /** The steps of other parties before the next call of a pass. */
  function Before(pc: Pc, sc: Script): seq<EnvAction> {
    match pc
    case AtGetService => sc.beforeGet
    case AtCreateService => sc.beforeCreate
    case AtReread => sc.beforeReread
    case AtWrite(_) => sc.beforeWrite
    case _ => []
  }

  /** The next call of a pass. */
  function Call(pc: Pc, sc: Script): Action {
    match pc
    case AtSink => Look(sc.fetched)
    case AtGetService => Reply(sc.getService)
    case AtCreateService => Reply(sc.createService)
    case AtGetJob(_) => Reply(sc.getJob)
    case AtUpdateJob(_) => Reply(sc.updateJob)
    case AtCreateJob(_) => Reply(sc.createJob)
    case AtDeleteJob => Reply(sc.deleteJob)
    case AtReread => Reply(sc.reread)
    case AtWrite(_) => Reply(sc.write)
  }

  function Turn(pc: Pc, sc: Script): seq<Action> {
    Envs(Before(pc, sc)) + [Call(pc, sc)]
  }

  /** All that happens from a state with a pass in flight to the end of that pass, in at most n calls. */
  function TurnsToEnd(k: Key, image: string, ks: KeyState, sc: Script, n: nat): seq<Action>
    decreases n
  {
    if n == 0 || ks.pass.None? then []
    else
      var t := Turn(ks.pass.value.pc, sc);
      t + TurnsToEnd(k, image, KeyRun(k, image, ks, t), sc, n - 1)
  }

  /** The longest pass makes seven calls, from the lookup of the sink to the Update. */
  const LONGEST_PASS: nat := 7

  /** The steps of a whole pass. */
  function PassActions(k: Key, image: string, ks: KeyState, sc: Script): seq<Action> {
    if sc.list.Fault? then [] else [Begin] + TurnsToEnd(k, image, KeyStep(k, image, ks, Begin), sc, LONGEST_PASS)
  }

  lemma {:induction false} KeyRunAppend(k: Key, image: string, ks: KeyState, t: seq<Action>, u: seq<Action>)
    ensures KeyRun(k, image, ks, t + u) == KeyRun(k, image, KeyRun(k, image, ks, t), u)
    decreases |t|
  {
    if t == [] {
      assert t + u == u;
    } else {
      assert (t + u)[1..] == t[1..] + u;
      KeyRunAppend(k, image, KeyStep(k, image, ks, t[0]), t[1..], u);
    }
  }

  lemma RunOne(k: Key, image: string, ks: KeyState, a: Action)
    ensures KeyRun(k, image, ks, [a]) == KeyStep(k, image, ks, a)
  {
    assert [a][1..] == [];
  }

  lemma {:induction false} RunEnvs(k: Key, image: string, ks: KeyState, es: seq<EnvAction>)
    ensures KeyRun(k, image, ks, Envs(es)) == ks.(remote := Drift(k, ks.remote, es))
    decreases |es|
  {
    if es != [] {
      assert Envs(es)[1..] == Envs(es[1..]);
      RunEnvs(k, image, KeyStep(k, image, ks, Env(es[0])), es[1..]);
    }
  }

  lemma {:induction false} ReportsAppend(k: Key, image: string, ks: KeyState, t: seq<Action>, u: seq<Action>)
    ensures Reports(k, image, ks, t + u)
         == Reports(k, image, ks, t) + Reports(k, image, KeyRun(k, image, ks, t), u)
    decreases |t|
  {
    if t == [] {
      assert t + u == u;
    } else {
      assert (t + u)[1..] == t[1..] + u;
      ReportsAppend(k, image, KeyStep(k, image, ks, t[0]), t[1..], u);
    }
  }

  lemma ReportOne(k: Key, image: string, ks: KeyState, a: Action)
    ensures var r := Report(image, ks, a); Reports(k, image, ks, [a]) == if r.Some? then [r.value] else []
  {
    assert [a][1..] == [];
  }

  lemma {:induction false} EnvsReportNothing(k: Key, image: string, ks: KeyState, es: seq<EnvAction>)
    ensures Reports(k, image, ks, Envs(es)) == []
    decreases |es|
  {
    if es != [] {
      assert Envs(es)[1..] == Envs(es[1..]);
      EnvsReportNothing(k, image, KeyStep(k, image, ks, Env(es[0])), es[1..]);
    }
  }

  function Idle(st: Stores): KeyState {
    KeyState(st.remote, st.job, None)
  }

  function StoresOf(ks: KeyState): Stores {
    Stores(ks.remote, ks.job)
  }

  /** Where a pass ends, and what the work queue has heard by then. */
  datatype End = End(state: KeyState, heard: seq<Option<Error>>)

  function Ended(out: PassOutcome): End {
    End(Idle(out.stores), [out.err])
  }

  /** The end of a pass that is in flight in ks and has at most n calls to go. */
  function EndOf(k: Key, image: string, ks: KeyState, sc: Script, n: nat): End {
    var t := TurnsToEnd(k, image, ks, sc, n);
    End(KeyRun(k, image, ks, t), Reports(k, image, ks, t))
  }

  /** The end of a pass that has just moved. */
  function EndFrom(k: Key, image: string, m: Move, sc: Script, n: nat): End {
    var end := EndOf(k, image, Moved(m), sc, n);
    end.(heard := (if m.course.Over? then [m.course.err] else []) + end.heard)
  }

  function CallMove(image: string, ks: KeyState, p: Pass, sc: Script): Move {
    if p.pc.AtSink? then SinkStep(ks, p, sc.fetched) else ReplyStep(ks, p, image, Call(p.pc, sc).reply)
  }

  /** One call of the pass, and then the rest. */
  lemma EndOfTurn(k: Key, image: string, ks: KeyState, sc: Script, n: nat)
    requires ks.pass.Some? && n > 0
    ensures var p := ks.pass.value;
            var drifted := ks.(remote := Drift(k, ks.remote, Before(p.pc, sc)));
            EndOf(k, image, ks, sc, n) == EndFrom(k, image, CallMove(image, drifted, p, sc), sc, n - 1)
  {
    var p := ks.pass.value;
    var es, a := Envs(Before(p.pc, sc)), Call(p.pc, sc);
    var drifted := ks.(remote := Drift(k, ks.remote, Before(p.pc, sc)));
    KeyRunAppend(k, image, ks, es, [a]);
    RunEnvs(k, image, ks, Before(p.pc, sc));
    RunOne(k, image, drifted, a);
    EndAfterCall(k, image, ks, drifted, sc, n);
    EnvsReportNothing(k, image, ks, Before(p.pc, sc));
    ReportsAppend(k, image, ks, es, [a]);
    ReportOne(k, image, drifted, a);
  }

  lemma EndAfterCall(k: Key, image: string, ks: KeyState, drifted: KeyState, sc: Script, n: nat)
    requires ks.pass.Some? && n > 0
    requires var pc := ks.pass.value.pc;
             KeyRun(k, image, ks, Turn(pc, sc)) == KeyStep(k, image, drifted, Call(pc, sc))
    ensures var t, ks' := Turn(ks.pass.value.pc, sc), KeyStep(k, image, drifted, Call(ks.pass.value.pc, sc));
            var end := EndOf(k, image, ks', sc, n - 1);
            EndOf(k, image, ks, sc, n) == end.(heard := Reports(k, image, ks, t) + end.heard)
  {
    var t, ks' := Turn(ks.pass.value.pc, sc), KeyStep(k, image, drifted, Call(ks.pass.value.pc, sc));
    var rest := TurnsToEnd(k, image, ks', sc, n - 1);
    KeyRunAppend(k, image, ks, t, rest);
    ReportsAppend(k, image, ks, t, rest);
  }

  /** The end of a pass that is about to send its Update. */
  lemma EndAtWrite(k: Key, image: string, ks: KeyState, p: Pass, sc: Script, n: nat)
    requires ks.pass == Some(p) && p.pc.AtWrite? && n >= 1
    ensures var (r, err) := SendUpdate(Drift(k, ks.remote, sc.beforeWrite), p.pc.next, sc.write);
            EndOf(k, image, ks, sc, n)
              == Ended(PassOutcome(StoresOf(ks).(remote := r), if err.Some? then err else p.err))
  {
    EndOfTurn(k, image, ks, sc, n);
  }

  lemma EndAtReread(k: Key, image: string, ks: KeyState, sc: Script, n: nat)
    requires ks.pass.Some? && ks.pass.value.pc.AtReread? && n >= 2
    ensures var p := ks.pass.value;
            var (r, err) := WriteBack(k, ks.remote, p.csr, sc);
            EndOf(k, image, ks, sc, n)
              == Ended(PassOutcome(StoresOf(ks).(remote := r), if err.Some? then err else p.err))
  {
    EndOfTurn(k, image, ks, sc, n);
    var m := ReplyStep(ks.(remote := Drift(k, ks.remote, sc.beforeReread)), ks.pass.value, image, sc.reread);
    if m.course.Going? {
      EndAtWrite(k, image, Moved(m), m.course.pass, sc, n - 1);
    }
  }

  lemma EndAtFinish(k: Key, image: string, m: Move, p: Pass, csr: Source, err: Option<Error>, sc: Script, n: nat)
    requires m.course == Finish(p, csr, err) && n >= 2
    ensures EndFrom(k, image, m, sc, n)
         == Ended(FinishPass(k, p.original, Reconciled(Stores(m.remote, m.job), csr, err), sc))
  {
    if m.course.Going? {
      EndAtReread(k, image, Moved(m), sc, n);
    }
  }

  /** The end of a pass that is about to create or to update its job. */
  lemma EndAtWriteJob(k: Key, image: string, ks: KeyState, p: Pass, sc: Script, n: nat)
    requires ks.pass == Some(p) && (p.pc.AtCreateJob? || p.pc.AtUpdateJob?) && n >= 3
    ensures var wanted := CreateJobProto(JobNameOf(p.csr), p.csr.spec, p.pc.url);
            var out := if p.pc.AtCreateJob? then CreateJob(ks.job, wanted, sc.createJob)
                       else UpdateJob(ks.job, wanted, sc.updateJob);
            EndOf(k, image, ks, sc, n) == Ended(FinishPass(k, p.original, WithOutcome(StoresOf(ks), p.csr, out), sc))
  {
    var wanted := CreateJobProto(JobNameOf(p.csr), p.csr.spec, p.pc.url);
    EndOfTurn(k, image, ks, sc, n);
    EndAfterJob(k, image, ks, p, if p.pc.AtCreateJob? then CreateJob(ks.job, wanted, sc.createJob)
                                 else UpdateJob(ks.job, wanted, sc.updateJob), sc, n - 1);
  }

  /** The end of a pass that is about to look up its job. */
  lemma EndAtGetJob(k: Key, image: string, ks: KeyState, p: Pass, sc: Script, n: nat)
    requires ks.pass == Some(p) && p.pc.AtGetJob? && n >= 4
    ensures var wanted := CreateJobProto(JobNameOf(p.csr), p.csr.spec, p.pc.url);
            EndOf(k, image, ks, sc, n)
              == Ended(FinishPass(k, p.original, WithOutcome(StoresOf(ks), p.csr,
                   ReconcileJob(ks.job, wanted, sc.getJob, sc.updateJob, sc.createJob)), sc))
  {
    EndOfTurn(k, image, ks, sc, n);
    var m := GetJobStep(ks, p, sc.getJob);
    if m.course.Going? && (m.course.pass.pc.AtCreateJob? || m.course.pass.pc.AtUpdateJob?) {
      EndAtWriteJob(k, image, Moved(m), m.course.pass, sc, n - 1);
    } else if sc.getJob.Fault? {
      EndAtFinish(k, image, m, p, p.csr, Some(JobCall), sc, n - 1);
    } else if !ks.job.value.target.Http? {
      EndAtFinish(k, image, m, p, p.csr, Some(MissingHttpTarget), sc, n - 1);
    } else {
      EndAtFinish(k, image, m, p, WithJob(p.csr, ks.job.value.name), None, sc, n - 1);
    }
  }

  /** The end of a pass that has its Service. */
  lemma EndAfterService(k: Key, image: string, m: Move, p: Pass, svc: Resources.Service, sc: Script, n: nat)
    requires m.course == AfterService(p, svc) && n >= 4
    ensures EndFrom(k, image, m, sc, n)
         == Ended(FinishPass(k, p.original, ReconcileWithDomain(Stores(m.remote, m.job), p.csr, svc, sc), sc))
  {
    if svc.domain == "" {
      EndAtFinish(k, image, m, p, p.csr, Some(NoDomain), sc, n);
    } else {
      EndAtGetJob(k, image, Moved(m), m.course.pass, sc, n);
    }
  }

  lemma EndAfterJob(k: Key, image: string, ks: KeyState, p: Pass, out: JobOutcome, sc: Script, n: nat)
    requires n >= 2
    ensures EndFrom(k, image, WriteJobStep(ks, p, out), sc, n)
         == Ended(FinishPass(k, p.original, WithOutcome(StoresOf(ks), p.csr, out), sc))
  {
    var m := WriteJobStep(ks, p, out);
    match out.result
    case Err(e) => EndAtFinish(k, image, m, p, p.csr, Some(e), sc, n);
    case Ok(j) => EndAtFinish(k, image, m, p, WithJob(p.csr, j.name), None, sc, n);
  }

  /** The end of a pass that has found no Service. */
  lemma EndAtCreateService(k: Key, image: string, ks: KeyState, p: Pass, sc: Script)
    requires ks.pass == Some(p) && p.pc.AtCreateService?
    ensures var r, made := Drift(k, ks.remote, sc.beforeCreate), Resources.MakeService(p.csr, image);
            var out := CreateService(r, made, sc.createService);
            EndOf(k, image, ks, sc, 5)
              == Ended(FinishPass(k, p.original, WithService(StoresOf(ks), p.csr, out, sc), sc))
  {
    EndOfTurn(k, image, ks, sc, 5);
    var r := Drift(k, ks.remote, sc.beforeCreate);
    var m := ServiceStep(ks.(remote := r), p, image, sc.createService);
    if sc.createService.Fault? {
      EndAtFinish(k, image, m, p, p.csr, Some(ServiceCall), sc, 4);
    } else if r.svc.Some? {
      EndAtFinish(k, image, m, p, p.csr, Some(ServiceExists), sc, 4);
    } else {
      EndAfterService(k, image, m, p, Resources.MakeService(p.csr, image), sc, 4);
    }
  }

  /** The end of a pass on a live source. */
  lemma EndLive(k: Key, image: string, ks: KeyState, p: Pass, uri: string, sc: Script)
    requires ks.pass == Some(Pass(AtGetService, p.original, Prepared(p.csr, uri), p.err))
    ensures EndOf(k, image, ks, sc, 6)
         == Ended(FinishPass(k, p.original, ReconcileLive(k, image, StoresOf(ks), p.csr, uri, sc), sc))
  {
    EndOfTurn(k, image, ks, sc, 6);
    var q := ks.pass.value;
    var r := Drift(k, ks.remote, sc.beforeGet);
    var m := ReplyStep(ks.(remote := r), q, image, sc.getService);
    if sc.getService.Fault? {
      EndAtFinish(k, image, m, q, q.csr, Some(ServiceCall), sc, 5);
    } else if r.svc.Some? {
      EndAfterService(k, image, m, q, r.svc.value, sc, 5);
    } else {
      EndAtCreateService(k, image, Moved(m), m.course.pass, sc);
    }
  }

  /** The end of a pass on a source that is being deleted. */
  lemma EndDeleting(k: Key, image: string, ks: KeyState, p: Pass, sc: Script)
    requires ks.pass == Some(p) && p.pc.AtDeleteJob?
    ensures EndOf(k, image, ks, sc, 6)
         == Ended(FinishPass(k, p.original, ReconcileDeleting(StoresOf(ks), p.csr, sc), sc))
  {
    var m, out := DeleteJobStep(ks, p, sc.deleteJob), ReconcileDeleting(StoresOf(ks), p.csr, sc);
    assert EndOf(k, image, ks, sc, 6) == EndFrom(k, image, m, sc, 5) by {
      EndOfTurn(k, image, ks, sc, 6);
      assert ks.(remote := Drift(k, ks.remote, [])) == ks;
    }
    assert m.course == Finish(p, out.csr, out.err) && Stores(m.remote, m.job) == out.stores;
    EndAtFinish(k, image, m, p, out.csr, out.err, sc, 5);
  }

  lemma EndFromSink(k: Key, image: string, ks: KeyState, p: Pass, sc: Script)
    requires ks.pass == Some(p) && p.pc.AtSink?
    ensures EndOf(k, image, ks, sc, LONGEST_PASS)
         == Ended(FinishPass(k, p.original, ReconcileSource(k, image, StoresOf(ks), p.csr, sc), sc))
  {
    EndOfTurn(k, image, ks, sc, LONGEST_PASS);
    var uri := Sinks.GetSinkURI(p.csr.spec.sink, sc.fetched);
    var m := SinkStep(ks, p, sc.fetched);
    if Deleting(p.csr) {
      EndDeleting(k, image, Moved(m), p.(pc := AtDeleteJob), sc);
    } else if uri.Err? {
      EndAtFinish(k, image, m, p, p.csr, Some(uri.error), sc, 6);
    } else {
      EndLive(k, image, Moved(m), p, uri.value, sc);
    }
  }

  /**
   * A whole pass is a run of the step system: for every script, the steps that the script lays out lead from the
   * idle stores to the stores that the pass leaves behind, with no pass in flight; and if they begin a pass, the one
   * thing that the work queue hears of them is the error that the pass returns, or its success.
   */
  lemma PassIsRun(k: Key, image: string, st: Stores, sc: Script)
    ensures var out := ReconcileKey(k, image, st, sc);
            && KeyRun(k, image, Idle(st), PassActions(k, image, Idle(st), sc)) == Idle(out.stores)
            && Reports(k, image, Idle(st), PassActions(k, image, Idle(st), sc))
                 == if sc.list.Answer? && Cached(st.remote).Some? then [out.err] else []
  {
    var ks := Idle(st);
    var ks1 := KeyStep(k, image, ks, Begin);
    if !sc.list.Fault? {
      var turns := TurnsToEnd(k, image, ks1, sc, LONGEST_PASS);
      KeyRunAppend(k, image, ks, [Begin], turns);
      ReportsAppend(k, image, ks, [Begin], turns);
      RunOne(k, image, ks, Begin);
      ReportOne(k, image, ks, Begin);
      if ks1.pass.Some? {
        EndFromSink(k, image, ks1, ks1.pass.value, sc);
      }
    }
  }
}
