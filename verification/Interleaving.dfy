/** Convergence, quiescence and deletion in runs of the cluster, with all other sources interleaved. */
module Interleaving {
  import opened Prelude
  import opened Types
  import Sinks
  import opened Remotes
  import opened Protocol
  import opened Cluster
  import Safety
  import Provenance
  import opened Passes
  import opened Convergence
  import FixedPoints
  import Answers
  import Deployment

  /** One event, step by step: a pass starts with a current cache, and a Service may be given a domain. */
  function EventActions(k: Key, image: string, st: Stores, e: Event): seq<Action> {
    match e
    case Domain(d) => [Env(GainDomain(d))]
    case Attempt(sc) =>
      [Env(Sync(if st.remote.hist == [] then 0 else |st.remote.hist| - 1))]
        + PassActions(k, image, Idle(CaughtUp(st)), sc)
  }

  function SeriesActions(k: Key, image: string, st: Stores, es: seq<Event>): seq<Action>
    decreases |es|
  {
    if es == [] then []
    else EventActions(k, image, st, es[0]) + SeriesActions(k, image, Apply(k, image, st, es[0]), es[1..])
  }

  function Attempts(scs: seq<Script>): seq<Event> {
    if scs == [] then [] else [Attempt(scs[0])] + Attempts(scs[1..])
  }

  lemma {:induction false} AttemptsWork(k: Key, image: string, st: Stores, scs: seq<Script>)
    ensures ApplyAll(k, image, st, Attempts(scs)) == Works(k, image, st, scs)
    decreases |scs|
  {
    if scs != [] {
      assert Attempts(scs)[1..] == Attempts(scs[1..]);
      AttemptsWork(k, image, Work(k, image, st, scs[0]), scs[1..]);
    }
  }

  lemma StepSane(k: Key, image: string, ks: KeyState, a: Action)
    requires Sane(ks.remote)
    ensures Sane(KeyStep(k, image, ks, a).remote)
  {
  }

  lemma {:induction false} RunSane(k: Key, image: string, ks: KeyState, actions: seq<Action>)
    requires Sane(ks.remote)
    ensures Sane(KeyRun(k, image, ks, actions).remote)
    decreases |actions|
  {
    if actions != [] {
      StepSane(k, image, ks, actions[0]);
      RunSane(k, image, KeyStep(k, image, ks, actions[0]), actions[1..]);
    }
  }

  lemma EventRuns(k: Key, image: string, st: Stores, e: Event)
    requires Sane(st.remote)
    ensures KeyRun(k, image, Idle(st), EventActions(k, image, st, e)) == Idle(Apply(k, image, st, e))
    ensures Sane(Apply(k, image, st, e).remote)
  {
    match e
    case Domain(d) =>
      RunOne(k, image, Idle(st), Env(GainDomain(d)));
    case Attempt(sc) =>
      var sync := Env(Sync(|st.remote.hist| - 1));
      KeyRunStep(k, image, Idle(st), sync, PassActions(k, image, Idle(CaughtUp(st)), sc));
      assert KeyStep(k, image, Idle(st), sync) == Idle(CaughtUp(st));
      PassIsRun(k, image, CaughtUp(st), sc);
      RunSane(k, image, Idle(st), EventActions(k, image, st, e));
  }

  lemma {:induction false} SeriesRuns(k: Key, image: string, st: Stores, es: seq<Event>)
    requires Sane(st.remote)
    ensures KeyRun(k, image, Idle(st), SeriesActions(k, image, st, es)) == Idle(ApplyAll(k, image, st, es))
    decreases |es|
  {
    if es != [] {
      var st' := Apply(k, image, st, es[0]);
      EventRuns(k, image, st, es[0]);
      SeriesRuns(k, image, st', es[1..]);
      KeyRunAppend(k, image, Idle(st), EventActions(k, image, st, es[0]), SeriesActions(k, image, st', es[1..]));
    }
  }

  /** What the stores hold for one key. */
  function StoresIn(cfg: Config, s: State, k: Key): Stores
    requires k in cfg.places && k in s.remotes
  {
    StoresOf(View(cfg, s, k))
  }

  /**
   * A run of the cluster in which exactly these events happen to k, each undisturbed by others who act on k; on all
   * other sources, whatever is allowed happens at any time in between.
   */
  ghost predicate Undergoes(cfg: Config, s: State, trace: seq<Label>, k: Key, es: seq<Event>) {
    && DistinctJobs(cfg) && ClusterInv(cfg, s) && RunAllowed(cfg, s, trace)
    && k in cfg.places && k !in s.passes
    && Project(trace, k) == SeriesActions(k, cfg.image, StoresIn(cfg, s, k), es)
  }

  lemma SeriesInCluster(cfg: Config, s: State, trace: seq<Label>, k: Key, es: seq<Event>)
    requires Undergoes(cfg, s, trace, k, es)
    ensures k in Run(cfg, s, trace).remotes
    ensures View(cfg, Run(cfg, s, trace), k) == Idle(ApplyAll(k, cfg.image, StoresIn(cfg, s, k), es))
    ensures Ready(StoresIn(cfg, s, k))
  {
    assert View(cfg, s, k) == Idle(StoresIn(cfg, s, k));
    Deployment.InvReady(k, cfg.places[k], View(cfg, s, k));
    RunProjects(cfg, s, trace, k);
    SeriesRuns(k, cfg.image, StoresIn(cfg, s, k), es);
  }

  /** The write bound in the cluster: over any number of passes on k, the source gets at most two new versions. */
  lemma WriteBoundInCluster(cfg: Config, s: State, trace: seq<Label>, k: Key, es: seq<Event>, uri: string)
    requires Undergoes(cfg, s, trace, k, es)
    requires var cur := Current(s.remotes[k]);
             cur.Some? && !Deleting(cur.value) && forall e <- es :: SteadyEvent(e, cur.value.spec.sink, uri)
    ensures k in Run(cfg, s, trace).remotes
    ensures |s.remotes[k].hist| <= |Run(cfg, s, trace).remotes[k].hist| <= |s.remotes[k].hist| + 2
    ensures var t := Count(k, cfg.image, StoresIn(cfg, s, k), es); t.serviceCreates <= 1 && t.jobWrites <= 1
  {
    var st := StoresIn(cfg, s, k);
    SeriesInCluster(cfg, s, trace, k, es);
    WriteBound(k, cfg.image, st, es, uri);
    UpdatesCounted(k, cfg.image, st, es);
  }

  lemma {:induction false} UpdatesCounted(k: Key, image: string, st: Stores, es: seq<Event>)
    ensures Count(k, image, st, es).updates == |ApplyAll(k, image, st, es).remote.hist| - |st.remote.hist|
    decreases |es|
  {
    if es != [] {
      UpdatesCounted(k, image, Apply(k, image, st, es[0]), es[1..]);
    }
  }

  /** A live source whose sink resolves to this URI, and whose Service has a domain. */
  predicate SettlesNext(st: Stores, sc: Script, uri: string) {
    && Live(st) && Sinks.GetSinkURI(Src(st).spec.sink, sc.fetched) == Ok(uri)
    && st.remote.svc.Some? && st.remote.svc.value.domain != ""
  }

  /**
   * One pass settles a source of the cluster, if its Service has a domain. No condition on the job is left: every
   * job in a reachable state is one that createJobProto made, and those have HTTP targets.
   */
  lemma OnePassSettlesInCluster(cfg: Config, s0: State, before: seq<Label>, s: State, trace: seq<Label>, k: Key,
                                sc: Script, uri: string)
    requires Safety.Reaches(cfg, s0, before, s) && Undergoes(cfg, s, trace, k, [Attempt(sc)])
    requires Calm(sc) && NoFaults(sc)
    ensures k in Run(cfg, s, trace).remotes
    ensures SettlesNext(StoresIn(cfg, s, k), sc, uri) ==> Settled(StoresIn(cfg, Run(cfg, s, trace), k), uri)
  {
    var st := StoresIn(cfg, s, k);
    SeriesInCluster(cfg, s, trace, k, [Attempt(sc)]);
    OneAttempt(k, cfg.image, st, sc);
    Provenance.ReachedAccounts(cfg, s0, before, s, k);
    if SettlesNext(st, sc, uri) {
      OnePassSettles(k, cfg.image, st, sc, uri);
    }
  }

  /** Once settled, a source of the cluster stays as it is over any number of passes. */
  lemma QuiescenceInCluster(cfg: Config, s: State, trace: seq<Label>, k: Key, scs: seq<Script>, uri: string)
    requires Undergoes(cfg, s, trace, k, Attempts(scs))
    ensures k in Run(cfg, s, trace).remotes
    ensures Settled(StoresIn(cfg, s, k), uri)
            && (forall sc <- scs :: Steady(sc, Current(s.remotes[k]).value.spec.sink, uri)) ==>
              CaughtUp(StoresIn(cfg, Run(cfg, s, trace), k)) == CaughtUp(StoresIn(cfg, s, k))
  {
    var st := StoresIn(cfg, s, k);
    SeriesInCluster(cfg, s, trace, k, Attempts(scs));
    AttemptsWork(k, cfg.image, st, scs);
    if Settled(st, uri) && forall sc <- scs :: Steady(sc, Src(st).spec.sink, uri) {
      FixedPoints.Quiescence(k, cfg.image, st, scs, uri);
    }
  }

  /** A deleted source of the cluster is cleaned up exactly when some pass gets its DeleteJob and its Update through. */
  lemma DeletionTerminatesInCluster(cfg: Config, s: State, trace: seq<Label>, k: Key, scs: seq<Script>)
    requires Undergoes(cfg, s, trace, k, Attempts(scs)) && forall sc <- scs :: Calm(sc)
    ensures k in Run(cfg, s, trace).remotes
    ensures Guarded(Current(s.remotes[k])) && Deleting(Current(s.remotes[k]).value) ==>
              (CleanedUp(StoresIn(cfg, Run(cfg, s, trace), k)) <==> exists sc <- scs :: CleansUp(sc))
  {
    SeriesInCluster(cfg, s, trace, k, Attempts(scs));
    AttemptsWork(k, cfg.image, StoresIn(cfg, s, k), scs);
    if Guarded(Current(s.remotes[k])) && Deleting(Current(s.remotes[k]).value) {
      DeletionTerminates(k, cfg.image, StoresIn(cfg, s, k), scs);
    }
  }

  // ----- what passes report -----

  lemma OneAttempt(k: Key, image: string, st: Stores, sc: Script)
    ensures ApplyAll(k, image, st, [Attempt(sc)]) == Work(k, image, st, sc)
    ensures SeriesActions(k, image, st, [Attempt(sc)]) == EventActions(k, image, st, Attempt(sc))
  {
    assert [Attempt(sc)][1..] == [];
    assert SeriesActions(k, image, Work(k, image, st, sc), []) == [];
  }

  lemma AttemptHeard(k: Key, image: string, st: Stores, sc: Script)
    requires Sane(st.remote)
    ensures Reports(k, image, Idle(st), EventActions(k, image, st, Attempt(sc)))
         == if sc.list.Answer? && Current(st.remote).Some?
            then [ReconcileKey(k, image, CaughtUp(st), sc).err] else []
  {
    var up := Idle(CaughtUp(st));
    HeardLater(k, image, Idle(st), Env(Sync(|st.remote.hist| - 1)), up, PassActions(k, image, up, sc));
    PassIsRun(k, image, CaughtUp(st), sc);
  }

  lemma HeardLater(k: Key, image: string, ks: KeyState, a: Action, ks': KeyState, rest: seq<Action>)
    requires ks.pass.None? && KeyStep(k, image, ks, a) == ks'
    ensures Reports(k, image, ks, [a] + rest) == Reports(k, image, ks', rest)
  {
    assert ([a] + rest)[1..] == rest;
  }

  /** What the work queue hears of one pass on k in a run of the cluster is what ReconcileKey returns. */
  lemma PassHeard(cfg: Config, s: State, trace: seq<Label>, k: Key, sc: Script)
    requires Undergoes(cfg, s, trace, k, [Attempt(sc)])
    ensures k in Run(cfg, s, trace).remotes
    ensures var st := StoresIn(cfg, s, k);
            && StoresIn(cfg, Run(cfg, s, trace), k) == Work(k, cfg.image, st, sc)
            && Reports(k, cfg.image, View(cfg, s, k), Project(trace, k))
                 == if sc.list.Answer? && Current(st.remote).Some?
                    then [ReconcileKey(k, cfg.image, CaughtUp(st), sc).err] else []
  {
    var st := StoresIn(cfg, s, k);
    SeriesInCluster(cfg, s, trace, k, [Attempt(sc)]);
    OneAttempt(k, cfg.image, st, sc);
    AttemptHeard(k, cfg.image, st, sc);
  }

  /**
   * In a run of the cluster, a pass on k that nobody disturbs and that reports success has settled a live source,
   * and has cleaned up a deleted one.
   */
  lemma SuccessInCluster(cfg: Config, s: State, trace: seq<Label>, k: Key, sc: Script)
    requires Undergoes(cfg, s, trace, k, [Attempt(sc)]) && Calm(sc)
    ensures k in Run(cfg, s, trace).remotes
    ensures var st, st' := StoresIn(cfg, s, k), StoresIn(cfg, Run(cfg, s, trace), k);
            Reports(k, cfg.image, View(cfg, s, k), Project(trace, k)) == [None] ==>
              && Current(st.remote).Some?
              && if Deleting(Src(st)) then CleanedUp(st')
                 else var uri := Sinks.GetSinkURI(Src(st).spec.sink, sc.fetched); uri.Ok? && Settled(st', uri.value)
  {
    var st := StoresIn(cfg, s, k);
    PassHeard(cfg, s, trace, k, sc);
    SeriesInCluster(cfg, s, trace, k, [Attempt(sc)]);
    if sc.list.Answer? && Current(st.remote).Some? && ReconcileKey(k, cfg.image, CaughtUp(st), sc).err.None? {
      if Deleting(Src(st)) {
        Answers.DeletingAnswers(k, cfg.image, st, sc);
      } else {
        Answers.LiveAnswers(k, cfg.image, st, sc);
      }
    }
  }

  // ----- there are such runs -----

  predicate CalmEvent(e: Event) {
    e.Attempt? ==> Calm(e.script)
  }

  lemma {:induction false} SeriesHarmless(k: Key, image: string, pl: Place, st: Stores, es: seq<Event>)
    requires forall e <- es :: CalmEvent(e)
    ensures forall a <- SeriesActions(k, image, st, es) :: Deployment.Harmless(pl, a)
    decreases |es|
  {
    if es != [] {
      assert CalmEvent(es[0]);
      if es[0].Attempt? {
        Deployment.HarmlessPass(k, image, pl, Idle(CaughtUp(st)), es[0].script);
      }
      SeriesHarmless(k, image, pl, Apply(k, image, st, es[0]), es[1..]);
    }
  }

  /** From every state of the cluster, every idle source may undergo every such series. */
  lemma SeriesPossible(cfg: Config, s: State, k: Key, es: seq<Event>)
    requires DistinctJobs(cfg) && ClusterInv(cfg, s) && k in cfg.places && k !in s.passes
    requires forall e <- es :: CalmEvent(e)
    ensures Undergoes(cfg, s, Deployment.On(k, SeriesActions(k, cfg.image, StoresIn(cfg, s, k), es)), k, es)
  {
    var actions := SeriesActions(k, cfg.image, StoresIn(cfg, s, k), es);
    SeriesHarmless(k, cfg.image, cfg.places[k], StoresIn(cfg, s, k), es);
    Deployment.HarmlessAllowed(k, cfg.image, cfg.places[k], View(cfg, s, k), actions);
    Deployment.ActionsInCluster(cfg, s, k, actions);
    Deployment.ProjectOn(k, actions, k);
  }
}
