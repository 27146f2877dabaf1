/** One source of one cluster, and how runs on it are put together from legs. */
module Scenarios {
  import opened Prelude
  import opened Types
  import Sinks
  import opened Jobs
  import opened Remotes
  import opened Protocol
  import opened Cluster
  import opened Passes
  import opened Deployment

  const K := Key("ns", "n")
  const PLACE := Place("p", "l")
  const IMAGE := "adapter"
  const CFG := Config(map[K := PLACE], IMAGE)
  const START := State(map[K := EMPTY_REMOTE], map[], map[])
  const SPEC := Spec("", "p", "l", "* * * * *", "", "", "", Some(ObjectRef("v1", "Channel", "c")))

  /** A pass whose calls all succeed, while others do this before its second read. */
  function Meanwhile(es: seq<EnvAction>): Script {
    Script(Answer, Sinks.Decoded(Some("h")), [], Answer, [], Answer,
           Answer, Answer, Answer, Answer, es, Answer, [], Answer)
  }

  const QUIET := Meanwhile([])

  /** The source as of version v: with these finalizers, this status and this deletion timestamp. */
  function At(v: nat, finalizers: seq<string>, status: Status, deleted: Option<nat>): Option<Source> {
    Some(Source(Meta("ns", "n", 1, v, deleted, map[], Stored(finalizers)), SPEC, status))
  }

  const URI := Sinks.HttpUrl("h")
  const NEW := Status("", "")
  const SERVED := Status("", URI)
  const DONE := Status(JobAt(K, PLACE), URI)

  const ONE := NewSource(K, 1, SPEC, map[], [])
  const JOB := CreateJobProto(JobAt(K, PLACE), SPEC, Sinks.HttpUrl("d"))

  lemma DriftOne(r: Remote, a: EnvAction)
    ensures Drift(K, r, [a]) == EnvStep(K, r, a)
  {
    assert [a][1..] == [];
  }

  lemma {:induction false} AllowedAppend(ks: KeyState, t: seq<Action>, u: seq<Action>)
    requires KeyAllowed(K, IMAGE, PLACE, ks, t) && KeyAllowed(K, IMAGE, PLACE, KeyRun(K, IMAGE, ks, t), u)
    ensures KeyAllowed(K, IMAGE, PLACE, ks, t + u)
    decreases |t|
  {
    if t == [] {
      assert t + u == u;
    } else {
      assert (t + u)[1..] == t[1..] + u;
      AllowedAppend(KeyStep(K, IMAGE, ks, t[0]), t[1..], u);
    }
  }

  /** A leg of the run: allowed from one state, and leading to the next. */
  ghost predicate Leg(ks: KeyState, t: seq<Action>, ks': KeyState) {
    KeyAllowed(K, IMAGE, PLACE, ks, t) && KeyRun(K, IMAGE, ks, t) == ks'
  }

  lemma Legs(ks: KeyState, t: seq<Action>, mid: KeyState, u: seq<Action>, end: KeyState)
    requires Leg(ks, t, mid) && Leg(mid, u, end)
    ensures Leg(ks, t + u, end)
  {
    AllowedAppend(ks, t, u);
    KeyRunAppend(K, IMAGE, ks, t, u);
  }

  lemma StepLeg(ks: KeyState, a: Action)
    requires Allowed(PLACE, ks, a)
    ensures Leg(ks, [a], KeyStep(K, IMAGE, ks, a))
  {
    RunOne(K, IMAGE, ks, a);
    assert [a][1..] == [];
  }

  lemma StepsLeg(ks: KeyState, a: Action, b: Action)
    requires Allowed(PLACE, ks, a) && Allowed(PLACE, KeyStep(K, IMAGE, ks, a), b)
    ensures Leg(ks, [a, b], KeyStep(K, IMAGE, KeyStep(K, IMAGE, ks, a), b))
  {
    var ks' := KeyStep(K, IMAGE, ks, a);
    StepLeg(ks, a);
    StepLeg(ks', b);
    Legs(ks, [a], ks', [b], KeyStep(K, IMAGE, ks', b));
    assert [a] + [b] == [a, b];
  }

  lemma PassLeg(st: Stores, sc: Script)
    requires HarmlessScript(PLACE, sc)
    ensures Leg(Idle(st), PassActions(K, IMAGE, Idle(st), sc), Idle(ReconcileKey(K, IMAGE, st, sc).stores))
  {
    PassIsRun(K, IMAGE, st, sc);
    HarmlessPass(K, IMAGE, PLACE, Idle(st), sc);
    HarmlessAllowed(K, IMAGE, PLACE, Idle(st), PassActions(K, IMAGE, Idle(st), sc));
  }

  /** The legs of one source, put together, are a run of the cluster. */
  lemma LegInCluster(t: seq<Action>, end: KeyState)
    requires Leg(KeyState(EMPTY_REMOTE, None, None), t, end)
    ensures DistinctJobs(CFG) && Init(CFG, START) && RunAllowed(CFG, START, On(K, t))
    ensures ClusterInv(CFG, Run(CFG, START, On(K, t))) && View(CFG, Run(CFG, START, On(K, t)), K) == end
  {
    InitInv(CFG, START);
    assert View(CFG, START, K) == KeyState(EMPTY_REMOTE, None, None);
    ActionsInCluster(CFG, START, K, t);
  }
}
