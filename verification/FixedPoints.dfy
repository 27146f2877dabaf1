/** Sources at rest: no pass on them sends a request that writes, and none changes the stores. */
module FixedPoints {
  import opened Prelude
  import opened Types
  import Finalizers
  import Sinks
  import opened Protocol
  import opened Passes
  import opened Convergence

  /** The calls that only read; and, where a job is to be cleaned up, DeleteJob. */
  predicate Permitted(pc: Pc, cleaning: bool) {
    pc.AtSink? || pc.AtGetService? || pc.AtGetJob? || (cleaning && pc.AtDeleteJob?)
  }

  /** Whether or not they are answered, all calls of passes in these steps are permitted. */
  predicate Silent(k: Key, image: string, ks: KeyState, actions: seq<Action>, cleaning: bool)
    decreases |actions|
  {
    actions != [] ==>
      && (actions[0].Reply? && ks.pass.Some? ==> Permitted(ks.pass.value.pc, cleaning))
      && Silent(k, image, KeyStep(k, image, ks, actions[0]), actions[1..], cleaning)
  }

  /** A permitted call, with nothing before it, and then the rest. */
  lemma SilentTurn(k: Key, image: string, ks: KeyState, sc: Script, n: nat, cleaning: bool)
    requires ks.pass.Some? && n > 0 && Before(ks.pass.value.pc, sc) == [] && Permitted(ks.pass.value.pc, cleaning)
    requires var ks' := KeyStep(k, image, ks, Call(ks.pass.value.pc, sc));
             Silent(k, image, ks', TurnsToEnd(k, image, ks', sc, n - 1), cleaning)
    ensures Silent(k, image, ks, TurnsToEnd(k, image, ks, sc, n), cleaning)
  {
    var a := Call(ks.pass.value.pc, sc);
    var rest := TurnsToEnd(k, image, KeyStep(k, image, ks, a), sc, n - 1);
    assert Turn(ks.pass.value.pc, sc) == [a];
    RunOne(k, image, ks, a);
    assert ([a] + rest)[1..] == rest;
  }

  /** The steps of a pass that has begun, behind its Begin. */
  lemma SilentPass(k: Key, image: string, ks: KeyState, sc: Script, cleaning: bool)
    requires var ks1 := KeyStep(k, image, ks, Begin);
             Silent(k, image, ks1, TurnsToEnd(k, image, ks1, sc, LONGEST_PASS), cleaning)
    ensures Silent(k, image, ks, PassActions(k, image, ks, sc), cleaning)
  {
    var turns := TurnsToEnd(k, image, KeyStep(k, image, ks, Begin), sc, LONGEST_PASS);
    assert ([Begin] + turns)[1..] == turns;
  }

  /** All these passes, each with a current cache, are silent. */
  predicate AllSilent(k: Key, image: string, st: Stores, scs: seq<Script>, cleaning: bool)
    decreases |scs|
  {
    scs != [] ==>
      && Silent(k, image, Idle(CaughtUp(st)), PassActions(k, image, Idle(CaughtUp(st)), scs[0]), cleaning)
      && AllSilent(k, image, Work(k, image, st, scs[0]), scs[1..], cleaning)
  }

  // ----- live sources -----

  lemma SettledPass(k: Key, image: string, st: Stores, sc: Script, uri: string)
    requires Settled(st, uri) && Steady(sc, Src(st).spec.sink, uri)
    ensures Work(k, image, st, sc) == CaughtUp(st)
  {
    if sc.list.Fault? || Sinks.GetSinkURI(Src(st).spec.sink, sc.fetched).Err? {
      CalmBlocked(k, image, st, sc);
    } else {
      var up, o := CaughtUp(st), Src(st);
      var p := Prepared(o, uri);
      ServiceKeepsSource(k, image, up.remote, p, sc);
      assert Untouched(o, p) && Untouched(o, WithJob(p, st.job.value.name));
    }
  }

  /** From the lookup of the job on: it is as it should be. */
  lemma SettledAtGetJob(k: Key, image: string, ks: KeyState, sc: Script, uri: string, n: nat)
    requires Settled(StoresOf(ks), uri) && ks.pass.Some? && ks.pass.value.pc.AtGetJob? && n > 0
    requires var o := Src(StoresOf(ks)); ks.pass.value.original == o && ks.pass.value.csr == Prepared(o, uri)
    ensures Silent(k, image, ks, TurnsToEnd(k, image, ks, sc, n), false)
  {
    var p := ks.pass.value;
    assert Untouched(p.original, p.csr) && Untouched(p.original, WithJob(p.csr, ks.job.value.name));
    assert KeyStep(k, image, ks, Reply(sc.getJob)).pass.None?;
    SilentTurn(k, image, ks, sc, n, false);
  }

  lemma SettledAtGetService(k: Key, image: string, ks: KeyState, sc: Script, uri: string, n: nat)
    requires Settled(StoresOf(ks), uri) && ks.pass.Some? && ks.pass.value.pc.AtGetService? && n > 1 && Calm(sc)
    requires var o := Src(StoresOf(ks)); ks.pass.value.original == o && ks.pass.value.csr == Prepared(o, uri)
    ensures Silent(k, image, ks, TurnsToEnd(k, image, ks, sc, n), false)
  {
    var p := ks.pass.value;
    var ks' := KeyStep(k, image, ks, Reply(sc.getService));
    assert Untouched(p.original, p.csr);
    if sc.getService.Answer? {
      SettledAtGetJob(k, image, ks', sc, uri, n - 1);
    }
    SilentTurn(k, image, ks, sc, n, false);
  }

  lemma SettledSilent(k: Key, image: string, st: Stores, sc: Script, uri: string)
    requires Settled(st, uri) && Steady(sc, Src(st).spec.sink, uri)
    ensures Silent(k, image, Idle(CaughtUp(st)), PassActions(k, image, Idle(CaughtUp(st)), sc), false)
  {
    if sc.list.Answer? {
      var ks1 := KeyStep(k, image, Idle(CaughtUp(st)), Begin);
      var ks2 := KeyStep(k, image, ks1, Look(sc.fetched));
      if Sinks.GetSinkURI(Src(st).spec.sink, sc.fetched).Ok? {
        SettledAtGetService(k, image, ks2, sc, uri, LONGEST_PASS - 1);
      }
      SilentTurn(k, image, ks1, sc, LONGEST_PASS, false);
      SilentPass(k, image, Idle(CaughtUp(st)), sc, false);
    }
  }

  /**
   * Quiescence: at a fixed point, any number of passes, whichever of their calls fail, send no request that writes,
   * and leave the stores as they are.
   */
  lemma {:induction false} Quiescence(k: Key, image: string, st: Stores, scs: seq<Script>, uri: string)
    requires Settled(st, uri) && forall sc <- scs :: Steady(sc, Src(st).spec.sink, uri)
    ensures AllSilent(k, image, st, scs, false)
    ensures CaughtUp(Works(k, image, st, scs)) == CaughtUp(st)
    decreases |scs|
  {
    if scs != [] {
      SettledSilent(k, image, st, scs[0], uri);
      SettledPass(k, image, st, scs[0], uri);
      Quiescence(k, image, Work(k, image, st, scs[0]), scs[1..], uri);
    }
  }

  // ----- sources that are being deleted -----

  /** A source whose controller is done with it, although others still hold it back. */
  predicate Released(st: Stores) {
    Doomed(st) && Items(Finalizers.Remove(Src(st).meta.finalizers)) == Items(Src(st).meta.finalizers) && st.job.None?
  }

  lemma ReleasedSilent(k: Key, image: string, st: Stores, sc: Script)
    requires Released(st)
    ensures Silent(k, image, Idle(CaughtUp(st)), PassActions(k, image, Idle(CaughtUp(st)), sc), true)
  {
    if sc.list.Answer? {
      var o := Src(st);
      var ks1 := KeyStep(k, image, Idle(CaughtUp(st)), Begin);
      var ks2 := KeyStep(k, image, ks1, Look(sc.fetched));
      assert ks2.pass == Some(Pass(AtDeleteJob, o, o, None));
      assert Untouched(o, o) && Untouched(o, WithFinalizers(o, Finalizers.Remove(o.meta.finalizers)));
      assert KeyStep(k, image, ks2, Reply(sc.deleteJob)).pass.None?;
      SilentTurn(k, image, ks2, sc, LONGEST_PASS - 1, true);
      SilentTurn(k, image, ks1, sc, LONGEST_PASS, true);
      SilentPass(k, image, Idle(CaughtUp(st)), sc, true);
    }
  }

  /**
   * Quiescence while others hold a deleted source back: any number of passes send no request that writes but a
   * DeleteJob for the job that is gone already, and leave the stores as they are.
   */
  lemma {:induction false} DeletingQuiescence(k: Key, image: string, st: Stores, scs: seq<Script>)
    requires Released(st) && forall sc <- scs :: Calm(sc)
    ensures AllSilent(k, image, st, scs, true)
    ensures CaughtUp(Works(k, image, st, scs)) == CaughtUp(st)
    decreases |scs|
  {
    if scs != [] {
      ReleasedSilent(k, image, st, scs[0]);
      if scs[0].list.Answer? { CalmDeleting(k, image, st, scs[0]); }
      var st' := Work(k, image, st, scs[0]);
      assert CaughtUp(st') == CaughtUp(st);
      DeletingQuiescence(k, image, st', scs[1..]);
    }
  }

  /**
   * The same rests on the outer comparison: removeFinalizer turns a nil list into an empty one, which differs for
   * the strict comparison inside update but not for the one that decides whether update is called.
   */
  lemma NilListIsUntouched(o: Source)
    requires o.meta.finalizers.NilSlice?
    ensures var csr := WithFinalizers(o, Finalizers.Remove(o.meta.finalizers));
            csr.meta != o.meta && Untouched(o, csr)
  {
  }
}
