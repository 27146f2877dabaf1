/** A run in which the cleaned-up copy of a deleted source lands on the source that was created in its place. */
module Crossing {
  import opened Prelude
  import opened Types
  import opened Finalizers
  import Sinks
  import Resources
  import opened Jobs
  import opened Remotes
  import opened Protocol
  import opened Cluster
  import opened Safety
  import opened Passes
  import Deployment
  import opened Scenarios

  const BOTH := ["a", FINALIZER_NAME]

  const H1 := [None, At(1, ["a"], NEW, None)]
  const H2 := H1 + [At(2, BOTH, SERVED, None)]
  const H3 := H2 + [At(3, BOTH, DONE, None)]
  const H4 := H3 + [At(4, BOTH, DONE, Some(7))]
  const H5 := H4 + [At(5, ["a"], DONE, Some(7))]
  const H6 := H5 + [At(6, ["a", "a"], DONE, Some(7))]
  const H8 := H6 + [None, Some(NewSource(K, 8, SPEC, map[], []))]

  const ADAPTER := Resources.MakeService(Prepared(H1[1].value, URI), IMAGE)
  const WITHDOMAIN := ADAPTER.(domain := "d")

  lemma Lists()
    ensures Add(Slice(["a"])) == Slice(BOTH) && Add(Slice(BOTH)) == Slice(BOTH)
    ensures Remove(Slice(BOTH)) == Slice(["a"]) && Remove(Slice(["a", "a"])) == Slice(["a"])
  {
    assert ["a"][1..] == [] && ["a", "a"][1..] == ["a"] && BOTH[1..] == [FINALIZER_NAME] && [FINALIZER_NAME][1..] == [];
    assert Less("a", FINALIZER_NAME) && |FINALIZER_NAME| != |"a"|;
    assert Canon(["a"]) == ["a"] && Canon([FINALIZER_NAME]) == [FINALIZER_NAME];
    assert Canon(BOTH) == BOTH;
    assert Insert(FINALIZER_NAME, ["a"]) == BOTH && Insert(FINALIZER_NAME, BOTH) == BOTH;
    assert Without([FINALIZER_NAME], FINALIZER_NAME) == Without([], FINALIZER_NAME) == [];
    assert Without(["a"], FINALIZER_NAME) == ["a"] + Without([], FINALIZER_NAME) == ["a"];
    assert Without(BOTH, FINALIZER_NAME) == ["a"] + Without([FINALIZER_NAME], FINALIZER_NAME) == ["a"];
    assert Without(["a", "a"], FINALIZER_NAME) == ["a"] + Without(["a"], FINALIZER_NAME) == ["a", "a"];
  }

  /** The first pass makes the Service and writes the finalizer; there is no domain yet. */
  lemma PassOne()
    ensures ReconcileKey(K, IMAGE, Stores(Remote(H1, 1, None), None), QUIET).stores
         == Stores(Remote(H2, 1, Some(ADAPTER)), None)
  {
    Lists();
    var o, st := H1[1].value, Stores(Remote(H1, 1, None), None);
    var out := ReconcileSource(K, IMAGE, st, o, QUIET);
    assert out.csr == Prepared(o, URI) && out.stores == Stores(Remote(H1, 1, Some(ADAPTER)), None);
    assert !Untouched(o, out.csr);
    assert Admitted(out.stores.remote, Merged(o, out.csr)) == H2[2];
  }

  /** The second pass creates the job and reports it. */
  lemma PassTwo()
    ensures ReconcileKey(K, IMAGE, Stores(Remote(H2, 2, Some(WITHDOMAIN)), None), QUIET).stores
         == Stores(Remote(H3, 2, Some(WITHDOMAIN)), Some(JOB))
  {
    Lists();
    var o, st := H2[2].value, Stores(Remote(H2, 2, Some(WITHDOMAIN)), None);
    var out := ReconcileSource(K, IMAGE, st, o, QUIET);
    assert out.csr == WithJob(Prepared(o, URI), JOB.name) && out.stores == st.(job := Some(JOB));
    assert !Untouched(o, out.csr);
    assert Admitted(st.remote, Merged(o, out.csr)) == H3[3];
  }

  /** After the user has deleted the source, the third pass deletes the job and drops the finalizer. */
  lemma PassThree()
    ensures ReconcileKey(K, IMAGE, Stores(Remote(H4, 4, Some(WITHDOMAIN)), Some(JOB)), QUIET).stores
         == Stores(Remote(H5, 4, Some(WITHDOMAIN)), None)
  {
    Lists();
    var o, st := H4[4].value, Stores(Remote(H4, 4, Some(WITHDOMAIN)), Some(JOB));
    var out := ReconcileSource(K, IMAGE, st, o, QUIET);
    assert out.csr == WithFinalizers(o, Slice(["a"])) && out.stores == st.(job := None);
    assert !Untouched(o, out.csr);
    assert Admitted(st.remote, Merged(o, out.csr)) == H5[5];
  }

  const NAMETWICE := [Env(SetFinalizers(["a", "a"])), Env(Sync(6))]

  const S1 := Stores(Remote(H1, 1, None), None)
  const S2 := Stores(Remote(H2, 2, Some(WITHDOMAIN)), None)
  const S4 := Stores(Remote(H4, 4, Some(WITHDOMAIN)), Some(JOB))
  const S6 := Stores(Remote(H6, 6, Some(WITHDOMAIN)), None)

  const BORN := [Env(Create(SPEC, map[], ["a"])), Env(Sync(1))]
  const OPENED := [Env(GainDomain("d")), Env(Sync(2))]
  const DELETED := [Env(Delete(7)), Env(Sync(4))]

  lemma Born()
    ensures Leg(KeyState(EMPTY_REMOTE, None, None), BORN, Idle(S1))
  {
    var ks := KeyState(EMPTY_REMOTE, None, None);
    assert EnvStep(K, EMPTY_REMOTE, BORN[0].env).hist == H1;
    StepsLeg(ks, BORN[0], BORN[1]);
  }

  lemma Opened()
    ensures Leg(Idle(Stores(Remote(H2, 1, Some(ADAPTER)), None)), OPENED, Idle(S2))
  {
    StepsLeg(Idle(Stores(Remote(H2, 1, Some(ADAPTER)), None)), OPENED[0], OPENED[1]);
  }

  lemma Deleted()
    ensures Leg(Idle(Stores(Remote(H3, 2, Some(WITHDOMAIN)), Some(JOB))), DELETED, Idle(S4))
  {
    var st := Stores(Remote(H3, 2, Some(WITHDOMAIN)), Some(JOB));
    assert Admitted(st.remote, H3[3].value.(meta := H3[3].value.meta.(deletionTimestamp := Some(7)))) == H4[4];
    assert EnvStep(K, st.remote, Delete(7)).hist == H4;
    StepsLeg(Idle(st), DELETED[0], DELETED[1]);
  }

  lemma NamedTwice()
    ensures Leg(Idle(Stores(Remote(H5, 4, Some(WITHDOMAIN)), None)), NAMETWICE, Idle(S6))
  {
    var st := Stores(Remote(H5, 4, Some(WITHDOMAIN)), None);
    assert Admitted(st.remote, WithFinalizers(H5[5].value, Slice(["a", "a"]))) == H6[6];
    assert EnvStep(K, st.remote, SetFinalizers(["a", "a"])).hist == H6;
    StepsLeg(Idle(st), NAMETWICE[0], NAMETWICE[1]);
  }

  // ----- the fourth pass, step by step -----

  const OLD := H6[6].value
  const COPY := WithFinalizers(OLD, Slice(["a"]))
  const READING := Pass(AtReread, OLD, COPY, None)
  const REBORN := Remote(H8, 8, Some(WITHDOMAIN))
  const NEXT := Merged(H8[8].value, COPY)

  const CLEANING := [Begin, Look(Sinks.Decoded(Some("h")))]
  const REMADE := [Env(SetFinalizers([])), Env(Create(SPEC, map[], []))]

  lemma Cleaning()
    ensures Leg(Idle(S6), CLEANING + [Reply(Answer)], KeyState(S6.remote, None, Some(READING)))
  {
    Lists();
    var ks := KeyState(S6.remote, None, Some(Pass(AtDeleteJob, OLD, OLD, None)));
    assert KeyStep(K, IMAGE, KeyStep(K, IMAGE, Idle(S6), Begin), Look(Sinks.Decoded(Some("h")))) == ks;
    StepsLeg(Idle(S6), CLEANING[0], CLEANING[1]);
    assert !Untouched(OLD, COPY);
    assert KeyStep(K, IMAGE, ks, Reply(Answer)) == KeyState(S6.remote, None, Some(READING));
    StepLeg(ks, Reply(Answer));
    Legs(Idle(S6), CLEANING, ks, [Reply(Answer)], KeyState(S6.remote, None, Some(READING)));
  }

  lemma Remade()
    ensures Leg(KeyState(S6.remote, None, Some(READING)), REMADE + [Env(Sync(8))],
                KeyState(REBORN, None, Some(READING)))
  {
    var ks := KeyState(S6.remote, None, Some(READING));
    assert Admitted(S6.remote, WithFinalizers(OLD, Slice([]))).None?;
    var gone := EnvStep(K, S6.remote, SetFinalizers([]));
    assert gone.hist == H6 + [None];
    var back := EnvStep(K, gone, Create(SPEC, map[], []));
    assert back.hist == H8;
    StepsLeg(ks, REMADE[0], REMADE[1]);
    StepLeg(ks.(remote := back), Env(Sync(8)));
    Legs(ks, REMADE, ks.(remote := back), [Env(Sync(8))], KeyState(REBORN, None, Some(READING)));
  }

  /** The second read finds the new source, and the Update that carries the old status to it lands. */
  lemma Landed()
    ensures var ks := KeyState(REBORN, None, Some(READING));
            var ks' := KeyState(Append(REBORN, Admitted(REBORN, NEXT)), None, None);
            Leg(ks, [Reply(Answer), Reply(Answer)], ks') && !StatusGuarded(Current(ks'.remote))
  {
    var ks := KeyState(REBORN, None, Some(READING));
    assert KeyStep(K, IMAGE, ks, Reply(Answer)) == ks.(pass := Some(READING.(pc := AtWrite(NEXT))));
    StepsLeg(ks, Reply(Answer), Reply(Answer));
    assert FINALIZER_NAME !in ["a"];
  }

  /** The whole run: four passes, and what users and others do between their calls. */
  function CrossingActions(): seq<Action> {
    var a1, a2 := PassActions(K, IMAGE, Idle(S1), QUIET), PassActions(K, IMAGE, Idle(S2), QUIET);
    var a3 := PassActions(K, IMAGE, Idle(S4), QUIET);
    BORN + a1 + OPENED + a2 + DELETED + a3 + NAMETWICE
      + (CLEANING + [Reply(Answer)]) + (REMADE + [Env(Sync(8))]) + [Reply(Answer), Reply(Answer)]
  }

  lemma CrossingLegs() returns (end: KeyState)
    ensures Leg(KeyState(EMPTY_REMOTE, None, None), CrossingActions(), end) && !StatusGuarded(Current(end.remote))
  {
    var ks0 := KeyState(EMPTY_REMOTE, None, None);
    var a1, a2 := PassActions(K, IMAGE, Idle(S1), QUIET), PassActions(K, IMAGE, Idle(S2), QUIET);
    var a3 := PassActions(K, IMAGE, Idle(S4), QUIET);
    Born();
    PassOne();
    PassLeg(S1, QUIET);
    Legs(ks0, BORN, Idle(S1), a1, Idle(Stores(Remote(H2, 1, Some(ADAPTER)), None)));
    Opened();
    Legs(ks0, BORN + a1, Idle(Stores(Remote(H2, 1, Some(ADAPTER)), None)), OPENED, Idle(S2));
    PassTwo();
    PassLeg(S2, QUIET);
    var mid := BORN + a1 + OPENED;
    Legs(ks0, mid, Idle(S2), a2, Idle(Stores(Remote(H3, 2, Some(WITHDOMAIN)), Some(JOB))));
    Deleted();
    Legs(ks0, mid + a2, Idle(Stores(Remote(H3, 2, Some(WITHDOMAIN)), Some(JOB))), DELETED, Idle(S4));
    PassThree();
    PassLeg(S4, QUIET);
    Legs(ks0, mid + a2 + DELETED, Idle(S4), a3, Idle(Stores(Remote(H5, 4, Some(WITHDOMAIN)), None)));
    NamedTwice();
    Legs(ks0, mid + a2 + DELETED + a3, Idle(Stores(Remote(H5, 4, Some(WITHDOMAIN)), None)), NAMETWICE, Idle(S6));
    end := LastLegs(ks0, mid + a2 + DELETED + a3 + NAMETWICE);
  }

  lemma LastLegs(ks0: KeyState, t: seq<Action>) returns (end: KeyState)
    requires Leg(ks0, t, Idle(S6))
    ensures Leg(ks0, t + (CLEANING + [Reply(Answer)]) + (REMADE + [Env(Sync(8))]) + [Reply(Answer), Reply(Answer)], end)
    ensures !StatusGuarded(Current(end.remote))
  {
    var cleaning, remade := CLEANING + [Reply(Answer)], REMADE + [Env(Sync(8))];
    Cleaning();
    Legs(ks0, t, Idle(S6), cleaning, KeyState(S6.remote, None, Some(READING)));
    Remade();
    Legs(ks0, t + cleaning, KeyState(S6.remote, None, Some(READING)), remade, KeyState(REBORN, None, Some(READING)));
    Landed();
    end := KeyState(Append(REBORN, Admitted(REBORN, NEXT)), None, None);
    Legs(ks0, t + cleaning + remade, KeyState(REBORN, None, Some(READING)), [Reply(Answer), Reply(Answer)], end);
  }

  /**
   * Status soundness does fail. In this allowed run, in which no call fails, a deleted source is held back by a
   * foreign finalizer that is listed twice; the fourth pass tidies that list, but meanwhile the source is let go and
   * created again. The new source reports a job that is gone, and lacks the controller's finalizer.
   */
  lemma CrossedStatus()
    ensures var t := Deployment.On(K, CrossingActions());
            && DistinctJobs(CFG) && Init(CFG, START) && RunAllowed(CFG, START, t)
            && !StatusThroughout(CFG, START, t) && !NeverCrosses(CFG, START, t)
  {
    var t := Deployment.On(K, CrossingActions());
    var end := CrossingLegs();
    LegInCluster(CrossingActions(), end);
    UnguardedEnd(CFG, START, t);
    StatusSound(CFG, START, t);
  }

  lemma {:induction false} UnguardedEnd(cfg: Config, s: State, t: seq<Label>)
    requires !AllStatusGuarded(cfg, Run(cfg, s, t))
    ensures !StatusThroughout(cfg, s, t)
    decreases |t|
  {
    if t != [] {
      UnguardedEnd(cfg, Next(cfg, s, t[0]), t[1..]);
    }
  }
}
