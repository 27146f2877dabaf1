/** A run in which a stale pass takes away a source that a foreign finalizer is holding. */
module Overwriting {
  import opened Prelude
  import opened Types
  import Finalizers
  import Sinks
  import Resources
  import opened Jobs
  import opened Remotes
  import opened Protocol
  import opened Cluster
  import opened ForeignFinalizers
  import opened Passes
  import opened Deployment
  import opened Scenarios

  /** The source that is created in place of the first one: another incarnation, with a foreign finalizer. */
  const FIVE := NewSource(K, 5, SPEC, map[], ["a"])
  const HELD := FIVE.(meta := FIVE.meta.(resourceVersion := 6, deletionTimestamp := Some(8)))

  const H1 := [None, Some(ONE)]
  const H2 := H1 + [At(2, [FINALIZER_NAME], SERVED, None)]
  const H3 := H2 + [At(3, [FINALIZER_NAME], SERVED, Some(7))]
  const H4 := H3 + [None]
  const H6 := H4 + [Some(FIVE), Some(HELD)]

  const ADAPTER := Resources.MakeService(Prepared(ONE, URI), IMAGE)
  const S1 := Stores(Remote(H1, 1, None), None)
  const S3 := Stores(Remote(H3, 3, Some(ADAPTER)), None)
  const S6 := Stores(Remote(H6, 3, Some(ADAPTER)), None)

  lemma Lists()
    ensures Finalizers.Add(NilSlice) == Slice([FINALIZER_NAME])
    ensures Finalizers.Remove(Slice([FINALIZER_NAME])) == Slice([])
  {
    assert [FINALIZER_NAME][1..] == [];
    assert Finalizers.Without([FINALIZER_NAME], FINALIZER_NAME) == Finalizers.Without([], FINALIZER_NAME) == [];
  }

  /** The first pass makes the Service and writes the finalizer. */
  lemma PassOne()
    ensures ReconcileKey(K, IMAGE, S1, QUIET).stores == Stores(Remote(H2, 1, Some(ADAPTER)), None)
  {
    Lists();
    var out := ReconcileSource(K, IMAGE, S1, ONE, QUIET);
    assert out.csr == Prepared(ONE, URI) && out.stores == Stores(S1.remote.(svc := Some(ADAPTER)), None);
    assert !Untouched(ONE, out.csr);
    assert Admitted(out.stores.remote, Merged(ONE, out.csr)) == H2[2];
  }

  /** After the user has deleted the source, the second pass drops the finalizer, and the source is gone. */
  lemma PassTwo()
    ensures ReconcileKey(K, IMAGE, S3, QUIET).stores == Stores(Remote(H4, 3, Some(ADAPTER)), None)
  {
    Lists();
    var o := H3[3].value;
    var out := ReconcileSource(K, IMAGE, S3, o, QUIET);
    assert out.csr == WithFinalizers(o, Slice([])) && out.stores == S3;
    assert !Untouched(o, out.csr);
    assert Admitted(S3.remote, Merged(o, out.csr)).None?;
  }

  const BORN := [Env(Create(SPEC, map[], [])), Env(Sync(1))]
  const DELETED := [Env(Delete(7)), Env(Sync(3))]
  const REPLACED := [Env(Create(SPEC, map[], ["a"])), Env(Delete(8))]

  lemma Born()
    ensures Leg(KeyState(EMPTY_REMOTE, None, None), BORN, Idle(S1))
  {
    var ks := KeyState(EMPTY_REMOTE, None, None);
    assert EnvStep(K, EMPTY_REMOTE, BORN[0].env).hist == H1;
    StepsLeg(ks, BORN[0], BORN[1]);
  }

  lemma Deleted()
    ensures Leg(Idle(Stores(Remote(H2, 1, Some(ADAPTER)), None)), DELETED, Idle(S3))
  {
    var st := Stores(Remote(H2, 1, Some(ADAPTER)), None);
    assert Admitted(st.remote, H2[2].value.(meta := H2[2].value.meta.(deletionTimestamp := Some(7)))) == H3[3];
    assert EnvStep(K, st.remote, Delete(7)).hist == H3;
    StepsLeg(Idle(st), DELETED[0], DELETED[1]);
  }

  /** The source is created again, with a foreign finalizer, and deleted; the cache still shows the first one. */
  lemma Replaced()
    ensures Leg(Idle(Stores(Remote(H4, 3, Some(ADAPTER)), None)), REPLACED, Idle(S6))
  {
    var st := Stores(Remote(H4, 3, Some(ADAPTER)), None);
    var back := EnvStep(K, st.remote, REPLACED[0].env);
    assert back.hist == H4 + [Some(FIVE)];
    assert Admitted(back, FIVE.(meta := FIVE.meta.(deletionTimestamp := Some(8)))) == Some(HELD);
    assert EnvStep(K, back, Delete(8)).hist == H6;
    StepsLeg(Idle(st), REPLACED[0], REPLACED[1]);
  }

  // ----- the third pass, step by step -----

  const OLD := H3[3].value
  const COPY := WithFinalizers(OLD, Slice([]))
  const READING := Pass(AtReread, OLD, COPY, None)
  const WRITING := Pass(AtWrite(Merged(HELD, COPY)), OLD, COPY, None)

  const CLEANING := [Begin, Look(Sinks.Decoded(Some("h")))]
  const REREADING := [Env(Sync(6)), Reply(Answer)]

  lemma Cleaning()
    ensures Leg(Idle(S6), CLEANING + [Reply(Answer)], KeyState(S6.remote, None, Some(READING)))
  {
    Lists();
    var ks := KeyState(S6.remote, None, Some(Pass(AtDeleteJob, OLD, OLD, None)));
    assert KeyStep(K, IMAGE, KeyStep(K, IMAGE, Idle(S6), Begin), Look(Sinks.Decoded(Some("h")))) == ks;
    StepsLeg(Idle(S6), CLEANING[0], CLEANING[1]);
    assert !Untouched(OLD, COPY);
    StepLeg(ks, Reply(Answer));
    Legs(Idle(S6), CLEANING, ks, [Reply(Answer)], KeyState(S6.remote, None, Some(READING)));
  }

  lemma Rereading()
    ensures Leg(KeyState(S6.remote, None, Some(READING)), REREADING,
                KeyState(S6.remote.(pos := 6), None, Some(WRITING)))
  {
    StepsLeg(KeyState(S6.remote, None, Some(READING)), REREADING[0], REREADING[1]);
  }

  /** All but the last step: three passes, and what a user does between them and within the third. */
  function StalePassActions(): seq<Action> {
    BORN + PassActions(K, IMAGE, Idle(S1), QUIET) + DELETED + PassActions(K, IMAGE, Idle(S3), QUIET) + REPLACED
      + (CLEANING + [Reply(Answer)]) + REREADING
  }

  lemma StalePassLegs()
    ensures Leg(KeyState(EMPTY_REMOTE, None, None), StalePassActions(),
                KeyState(S6.remote.(pos := 6), None, Some(WRITING)))
  {
    var ks0 := KeyState(EMPTY_REMOTE, None, None);
    var a1, a2 := PassActions(K, IMAGE, Idle(S1), QUIET), PassActions(K, IMAGE, Idle(S3), QUIET);
    Born();
    PassOne();
    PassLeg(S1, QUIET);
    Legs(ks0, BORN, Idle(S1), a1, Idle(Stores(Remote(H2, 1, Some(ADAPTER)), None)));
    Deleted();
    Legs(ks0, BORN + a1, Idle(Stores(Remote(H2, 1, Some(ADAPTER)), None)), DELETED, Idle(S3));
    PassTwo();
    PassLeg(S3, QUIET);
    var mid := BORN + a1 + DELETED;
    Legs(ks0, mid, Idle(S3), a2, Idle(Stores(Remote(H4, 3, Some(ADAPTER)), None)));
    Replaced();
    Legs(ks0, mid + a2, Idle(Stores(Remote(H4, 3, Some(ADAPTER)), None)), REPLACED, Idle(S6));
    Cleaning();
    Legs(ks0, mid + a2 + REPLACED, Idle(S6), CLEANING + [Reply(Answer)], KeyState(S6.remote, None, Some(READING)));
    Rereading();
    Legs(ks0, mid + a2 + REPLACED + (CLEANING + [Reply(Answer)]), KeyState(S6.remote, None, Some(READING)),
         REREADING, KeyState(S6.remote.(pos := 6), None, Some(WRITING)));
  }

  /** The last step: the Update is accepted, and the source that is held goes away. */
  lemma LastStep()
    ensures var ks := KeyState(S6.remote.(pos := 6), None, Some(WRITING));
            && Current(ks.remote) == Some(HELD) && Deleting(HELD) && "a" in ForeignOf(Some(HELD))
            && KeyStep(K, IMAGE, ks, Reply(Answer)) == KeyState(ks.remote.(hist := H6 + [None]), None, None)
            && OverwritesForeign(ks, Reply(Answer))
  {
    assert "a" != FINALIZER_NAME by { assert |"a"| != |FINALIZER_NAME|; }
    assert "a" in ["a"];
  }

  lemma {:induction false} LastStepOverwrites(cfg: Config, s: State, t: seq<Label>, l: Label)
    requires var s' := Run(cfg, s, t);
             l.key in cfg.places && l.key in s'.remotes && OverwritesForeign(View(cfg, s', l.key), l.act)
    ensures !NeverOverwritesForeign(cfg, s, t + [l])
    decreases |t|
  {
    if t != [] {
      assert (t + [l])[1..] == t[1..] + [l];
      LastStepOverwrites(cfg, Next(cfg, s, t[0]), t[1..], l);
    } else {
      assert t + [l] == [l];
    }
  }

  lemma {:induction false} OnAppend(k: Key, t: seq<Action>, u: seq<Action>)
    ensures On(k, t + u) == On(k, t) + On(k, u)
  {
    if t == [] {
      assert t + u == u;
    } else {
      assert (t + u)[1..] == t[1..] + u;
      OnAppend(k, t[1..], u);
    }
  }

  lemma LegOverwrites(t: seq<Action>, ks: KeyState, a: Action)
    requires Leg(KeyState(EMPTY_REMOTE, None, None), t, ks) && !a.Env? && OverwritesForeign(ks, a)
    ensures var u := On(K, t + [a]);
            && DistinctJobs(CFG) && Init(CFG, START) && RunAllowed(CFG, START, u)
            && K in Run(CFG, START, u).remotes && View(CFG, Run(CFG, START, u), K) == KeyStep(K, IMAGE, ks, a)
            && !ForeignThroughout(CFG, START, u) && !NeverOverwritesForeign(CFG, START, u)
  {
    LegInCluster(t, ks);
    LastStepOverwrites(CFG, START, On(K, t), Label(K, a));
    OnAppend(K, t, [a]);
    assert On(K, [a]) == [Label(K, a)] by { assert [a][1..] == []; }
    StepLeg(ks, a);
    Legs(KeyState(EMPTY_REMOTE, None, None), t, ks, [a], KeyStep(K, IMAGE, ks, a));
    LegInCluster(t + [a], KeyStep(K, IMAGE, ks, a));
    ForeignRuns(CFG, START, On(K, t + [a]));
  }

  /**
   * Foreign finalizers do get lost. In this allowed run no call fails. The source is created, reconciled, deleted and
   * cleaned up; another one takes its place, and is deleted too, but held by a foreign finalizer. A pass that still
   * reads the first one from the cache, and sees the second one only when it reads again, takes the second one away.
   */
  lemma ForeignLost()
    ensures var t := On(K, StalePassActions() + [Reply(Answer)]);
            && DistinctJobs(CFG) && Init(CFG, START) && RunAllowed(CFG, START, t)
            && K in Run(CFG, START, t).remotes && Run(CFG, START, t).remotes[K].hist == H6 + [None]
            && Deleting(HELD) && H6[6] == Some(HELD) && "a" in ForeignOf(H6[6])
            && !ForeignThroughout(CFG, START, t) && !NeverOverwritesForeign(CFG, START, t)
  {
    StalePassLegs();
    LastStep();
    LegOverwrites(StalePassActions(), KeyState(S6.remote.(pos := 6), None, Some(WRITING)), Reply(Answer));
  }
}
