/** A run that leaves a job without its source. */
module Orphaning {
  import opened Prelude
  import opened Types
  import Finalizers
  import Resources
  import opened Remotes
  import opened Protocol
  import opened Cluster
  import opened Orphans
  import opened Passes
  import Deployment
  import opened Scenarios

  const TWO := ONE.(meta := ONE.meta.(labels := map["x" := "y"], resourceVersion := 2))
  const MADE := Resources.MakeService(Prepared(ONE, URI), IMAGE)
  const WITHDOMAIN := MADE.(domain := "d")

  /** A user labels the source while its first pass is about to write; then deletes it while the second one is. */
  const RELABEL := Edit(SPEC, map["x" := "y"])
  const DELETE := Delete(7)

  const H1 := [None, Some(ONE)]
  const H2 := H1 + [Some(TWO)]
  const S1 := Stores(Remote(H1, 1, None), None)
  const S2 := Stores(Remote(H2, 2, Some(WITHDOMAIN)), None)
  const LEFT := Stores(Remote(H2 + [None], 2, Some(WITHDOMAIN)), Some(JOB))

  /** The first pass makes the Service, but its write back meets a conflict. */
  lemma FirstPass()
    ensures ReconcileKey(K, IMAGE, S1, Meanwhile([RELABEL])).stores == Stores(Remote(H2, 1, Some(MADE)), None)
  {
    var r := S1.remote.(svc := Some(MADE));
    var out := ReconcileSource(K, IMAGE, S1, ONE, Meanwhile([RELABEL]));
    assert out.csr == Prepared(ONE, URI) && out.stores == Stores(r, None);
    Finalizers.Membership(ONE.meta.finalizers);
    assert !Untouched(ONE, out.csr);
    DriftOne(r, RELABEL);
    assert EnvStep(K, r, RELABEL).hist == H2;
  }

  /** The second pass creates the job, but the source is gone before its write back. */
  lemma SecondPass()
    ensures ReconcileKey(K, IMAGE, S2, Meanwhile([DELETE])).stores == LEFT
  {
    var out := ReconcileSource(K, IMAGE, S2, TWO, Meanwhile([DELETE]));
    assert out.csr == WithJob(Prepared(TWO, URI), JOB.name) && out.stores == S2.(job := Some(JOB));
    Finalizers.Membership(TWO.meta.finalizers);
    assert !Untouched(TWO, out.csr);
    DriftOne(S2.remote, DELETE);
    assert EnvStep(K, S2.remote, DELETE).hist == H2 + [None];
  }

  const BORN := [Env(Create(SPEC, map[], [])), Env(Sync(1))]
  const OPENED := [Env(GainDomain("d")), Env(Sync(2))]

  /** All that happens to the source: it is created, reconciled, given a domain, and reconciled again. */
  function OrphanActions(): seq<Action> {
    BORN + PassActions(K, IMAGE, Idle(S1), Meanwhile([RELABEL]))
      + OPENED + PassActions(K, IMAGE, Idle(S2), Meanwhile([DELETE]))
  }

  lemma FirstLegs()
    ensures Leg(KeyState(EMPTY_REMOTE, None, None), BORN + PassActions(K, IMAGE, Idle(S1), Meanwhile([RELABEL])),
                Idle(Stores(Remote(H2, 1, Some(MADE)), None)))
  {
    var ks := KeyState(EMPTY_REMOTE, None, None);
    assert EnvStep(K, EMPTY_REMOTE, BORN[0].env).hist == H1;
    StepsLeg(ks, BORN[0], BORN[1]);
    FirstPass();
    PassLeg(S1, Meanwhile([RELABEL]));
    Legs(ks, BORN, Idle(S1), PassActions(K, IMAGE, Idle(S1), Meanwhile([RELABEL])),
         Idle(Stores(Remote(H2, 1, Some(MADE)), None)));
  }

  lemma SecondLegs(ks: KeyState, t: seq<Action>)
    requires Leg(ks, t, Idle(Stores(Remote(H2, 1, Some(MADE)), None)))
    ensures Leg(ks, t + OPENED + PassActions(K, IMAGE, Idle(S2), Meanwhile([DELETE])), Idle(LEFT))
  {
    var mid := Idle(Stores(Remote(H2, 1, Some(MADE)), None));
    StepsLeg(mid, OPENED[0], OPENED[1]);
    Legs(ks, t, mid, OPENED, Idle(S2));
    SecondPass();
    PassLeg(S2, Meanwhile([DELETE]));
    Legs(ks, t + OPENED, Idle(S2), PassActions(K, IMAGE, Idle(S2), Meanwhile([DELETE])), Idle(LEFT));
  }

  lemma OrphanState(s: State)
    requires ClusterInv(CFG, s) && View(CFG, s, K) == Idle(LEFT)
    ensures JobAt(K, PLACE) in s.jobs && Current(s.remotes[K]).None? && s.passes == map[]
    ensures !AllCovered(CFG, s)
  {
    assert !Covered(View(CFG, s, K));
    assert Lookup(s.passes, K).None?;
    assert s.passes.Keys <= {K};
  }

  /**
   * Orphans do occur. In this allowed run not a single call fails, but the first write of the finalizer is lost
   * twice: to a user who edits a label, and to a user who then deletes the source. The run ends with the job alone,
   * and with neither a source nor a pass that could clean it up.
   */
  lemma OrphanedJob()
    ensures var t := Deployment.On(K, OrphanActions());
            var s := Run(CFG, START, t);
            && DistinctJobs(CFG) && Init(CFG, START) && RunAllowed(CFG, START, t)
            && JobAt(K, PLACE) in s.jobs && K in s.remotes && Current(s.remotes[K]).None? && s.passes == map[]
            && !CoveredThroughout(CFG, START, t) && !NoFirstWriteLost(CFG, START, t)
  {
    var t := Deployment.On(K, OrphanActions());
    FirstLegs();
    SecondLegs(KeyState(EMPTY_REMOTE, None, None), BORN + PassActions(K, IMAGE, Idle(S1), Meanwhile([RELABEL])));
    LegInCluster(OrphanActions(), Idle(LEFT));
    OrphanState(Run(CFG, START, t));
    UncoveredEnd(CFG, START, t);
    NoOrphanedJobs(CFG, START, t);
  }

  lemma {:induction false} UncoveredEnd(cfg: Config, s: State, t: seq<Label>)
    requires !AllCovered(cfg, Run(cfg, s, t))
    ensures !CoveredThroughout(cfg, s, t)
    decreases |t|
  {
    if t != [] {
      UncoveredEnd(cfg, Next(cfg, s, t[0]), t[1..]);
    }
  }
}
