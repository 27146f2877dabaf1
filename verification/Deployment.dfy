/** Whole passes among all the sources of a cluster. */
module Deployment {
  import opened Types
  import Remotes
  import opened Protocol
  import Invariants
  import opened Cluster
  import opened Passes
  import Convergence

  function On(k: Key, actions: seq<Action>): seq<Label> {
    if actions == [] then [] else [Label(k, actions[0])] + On(k, actions[1..])
  }

  lemma {:induction false} ProjectOn(k: Key, actions: seq<Action>, l: Key)
    ensures Project(On(k, actions), l) == if k == l then actions else []
    ensures forall x <- On(k, actions) :: x.key == k
  {
    if actions != [] {
      ProjectOn(k, actions[1..], l);
      assert On(k, actions)[1..] == On(k, actions[1..]);
      assert actions == [actions[0]] + actions[1..];
    }
  }

  /** Steps that other parties may take whatever the state. */
  predicate Harmless(pl: Place, a: Action) {
    a.Env? ==> match a.env
               case Create(spec, _, finalizers) => Placed(pl, spec) && FINALIZER_NAME !in finalizers
               case Edit(spec, _) => Placed(pl, spec)
               case SetFinalizers(_) => false
               case _ => true
  }

  lemma {:induction false} HarmlessAllowed(k: Key, image: string, pl: Place, ks: KeyState, t: seq<Action>)
    requires forall a <- t :: Harmless(pl, a)
    ensures KeyAllowed(k, image, pl, ks, t)
    decreases |t|
  {
    if t != [] {
      assert t[0] in t;
      HarmlessAllowed(k, image, pl, KeyStep(k, image, ks, t[0]), t[1..]);
    }
  }

  ghost predicate HarmlessDrift(pl: Place, es: seq<Remotes.EnvAction>) {
    forall e <- es :: Harmless(pl, Env(e))
  }

  ghost predicate HarmlessScript(pl: Place, sc: Script) {
    && HarmlessDrift(pl, sc.beforeGet) && HarmlessDrift(pl, sc.beforeCreate)
    && HarmlessDrift(pl, sc.beforeReread) && HarmlessDrift(pl, sc.beforeWrite)
  }

  lemma {:induction false} HarmlessEnvs(pl: Place, es: seq<Remotes.EnvAction>)
    requires HarmlessDrift(pl, es)
    ensures forall a <- Envs(es) :: Harmless(pl, a)
  {
    if es != [] {
      assert es == [es[0]] + es[1..];
      HarmlessEnvs(pl, es[1..]);
    }
  }

  lemma {:induction false} HarmlessTurns(k: Key, image: string, pl: Place, ks: KeyState, sc: Script, n: nat)
    requires HarmlessScript(pl, sc)
    ensures forall a <- TurnsToEnd(k, image, ks, sc, n) :: Harmless(pl, a)
    decreases n
  {
    if n > 0 && ks.pass.Some? {
      var pc := ks.pass.value.pc;
      HarmlessEnvs(pl, Before(pc, sc));
      var t := Turn(pc, sc);
      assert Harmless(pl, Call(pc, sc));
      HarmlessTurns(k, image, pl, KeyRun(k, image, ks, t), sc, n - 1);
    }
  }

  lemma HarmlessPass(k: Key, image: string, pl: Place, ks: KeyState, sc: Script)
    requires HarmlessScript(pl, sc)
    ensures forall a <- PassActions(k, image, ks, sc) :: Harmless(pl, a)
  {
    HarmlessTurns(k, image, pl, KeyStep(k, image, ks, Begin), sc, LONGEST_PASS);
  }

  /**
   * In every reachable state, a whole pass on an idle source, whatever allowed steps others take meanwhile, is a
   * run of the cluster: it leaves behind what ReconcileKey says, and touches no other source.
   */
  lemma PassInCluster(cfg: Config, s: State, k: Key, sc: Script)
    requires DistinctJobs(cfg) && ClusterInv(cfg, s) && k in cfg.places && k !in s.passes
    requires KeyAllowed(k, cfg.image, cfg.places[k], View(cfg, s, k), PassActions(k, cfg.image, View(cfg, s, k), sc))
    ensures var t := On(k, PassActions(k, cfg.image, View(cfg, s, k), sc));
            && RunAllowed(cfg, s, t)
            && ClusterInv(cfg, Run(cfg, s, t))
            && View(cfg, Run(cfg, s, t), k) == Idle(ReconcileKey(k, cfg.image, StoresOf(View(cfg, s, k)), sc).stores)
            && forall l :: l in cfg.places && l != k ==> View(cfg, Run(cfg, s, t), l) == View(cfg, s, l)
  {
    var ks := View(cfg, s, k);
    var actions := PassActions(k, cfg.image, ks, sc);
    ActionsInCluster(cfg, s, k, actions);
    PassIsRun(k, cfg.image, StoresOf(ks), sc);
  }

  lemma ActionsInCluster(cfg: Config, s: State, k: Key, actions: seq<Action>)
    requires DistinctJobs(cfg) && ClusterInv(cfg, s) && k in cfg.places
    requires KeyAllowed(k, cfg.image, cfg.places[k], View(cfg, s, k), actions)
    ensures var t := On(k, actions);
            && RunAllowed(cfg, s, t)
            && ClusterInv(cfg, Run(cfg, s, t))
            && View(cfg, Run(cfg, s, t), k) == KeyRun(k, cfg.image, View(cfg, s, k), actions)
            && forall l :: l in cfg.places && l != k ==> View(cfg, Run(cfg, s, t), l) == View(cfg, s, l)
  {
    var t := On(k, actions);
    forall l | l in cfg.places
      ensures KeyAllowed(l, cfg.image, cfg.places[l], View(cfg, s, l), Project(t, l))
    {
      ProjectOn(k, actions, l);
    }
    ProjectOn(k, actions, k);
    AllowedProjects(cfg, s, t);
    RunInv(cfg, s, t);
    forall l | l in cfg.places
      ensures View(cfg, Run(cfg, s, t), l) ==
              if l == k then KeyRun(k, cfg.image, View(cfg, s, k), actions) else View(cfg, s, l)
    {
      ProjectOn(k, actions, l);
      RunProjects(cfg, s, t, l);
    }
  }

  /** The stores of a reachable idle source are ready for the convergence theorems. */
  lemma InvReady(k: Key, pl: Place, ks: KeyState)
    requires Invariants.Inv(k, pl, ks)
    ensures Convergence.Ready(StoresOf(ks))
  {
    var h := ks.remote.hist;
    assert Invariants.EntryOk(k, pl, |h| - 1, h[|h| - 1]);
  }
}
