/** The finalizers of other parties: which writes of the controller keep them, and which runs do. */
module ForeignFinalizers {
  import opened Prelude
  import opened Types
  import opened Finalizers
  import opened Remotes
  import opened Protocol
  import Invariants
  import opened Cluster
  import opened Safety

  /** The foreign finalizers that a server entry carries; an object that is gone carries none. */
  ghost function ForeignOf(e: Option<Source>): set<string> {
    if e.None? then {} else Foreign(e.value.meta.finalizers)
  }

  lemma ForeignOfCopy(f: Strings, g: Strings)
    requires g == Add(f) || g == Remove(f)
    ensures Foreign(g) == Foreign(f)
  {
    AddCorrect(f);
    RemoveCorrect(f);
  }

  /** An Update that lands leaves the foreign finalizers that its pass read first, also where it removes the object. */
  lemma LandedForeign(k: Key, image: string, pl: Place, ks: KeyState, a: Action)
    requires Invariants.Inv(k, pl, ks) && UpdateLands(ks, a)
    ensures ForeignOf(Current(KeyStep(k, image, ks, a).remote)) == Foreign(ks.pass.value.original.meta.finalizers)
  {
    Invariants.WriteAccepted(k, pl, ks);
    var f := ks.pass.value.csr.meta.finalizers;
    assert Items(Stored(Items(f))) == Items(f);
    ForeignOfCopy(ks.pass.value.original.meta.finalizers, f);
  }

  /**
   * An Update that lands keeps the foreign finalizers exactly when the server still holds those that the pass read
   * first. Otherwise it brings back old ones, loses new ones, or takes away a source that new ones are holding.
   */
  lemma ForeignConserved(cfg: Config, s0: State, trace: seq<Label>, s: State, k: Key, a: Action)
    requires Reaches(cfg, s0, trace, s) && k in cfg.places && k in s.remotes
    requires UpdateLands(View(cfg, s, k), a)
    ensures var before := Current(s.remotes[k]);
            var after := Current(KeyStep(k, cfg.image, View(cfg, s, k), a).remote);
            ForeignOf(after) == ForeignOf(before) <==>
              Foreign(s.passes[k].original.meta.finalizers) == ForeignOf(before)
  {
    ReachedInv(cfg, s0, trace, s, k);
    LandedForeign(k, cfg.image, cfg.places[k], View(cfg, s, k), a);
  }

  // ----- whole runs -----

  /** The landing Update of a pass whose first read shows other foreign finalizers than the server holds. */
  ghost predicate OverwritesForeign(ks: KeyState, a: Action) {
    UpdateLands(ks, a) && Foreign(ks.pass.value.original.meta.finalizers) != ForeignOf(Current(ks.remote))
  }

  lemma ForeignStep(k: Key, image: string, pl: Place, ks: KeyState, a: Action)
    requires Invariants.Inv(k, pl, ks) && !a.Env?
    ensures ForeignOf(Current(KeyStep(k, image, ks, a).remote)) == ForeignOf(Current(ks.remote)) <==>
            !OverwritesForeign(ks, a)
  {
    if UpdateLands(ks, a) {
      LandedForeign(k, image, pl, ks, a);
    } else {
      OnlyWritesChangeHistory(k, image, ks, a);
    }
  }

  /** Does this step leave the foreign finalizers of every source to the other parties? */
  ghost predicate LeavesForeign(cfg: Config, s: State, l: Label) {
    !l.act.Env? ==>
      forall k :: k in cfg.places && k in s.remotes && k in Next(cfg, s, l).remotes ==>
        ForeignOf(Current(Next(cfg, s, l).remotes[k])) == ForeignOf(Current(s.remotes[k]))
  }

  /** Over the whole run, foreign finalizers change by the steps of other parties alone. */
  ghost predicate ForeignThroughout(cfg: Config, s: State, trace: seq<Label>)
    decreases |trace|
  {
    trace != [] ==> LeavesForeign(cfg, s, trace[0]) && ForeignThroughout(cfg, Next(cfg, s, trace[0]), trace[1..])
  }

  ghost predicate NeverOverwritesForeign(cfg: Config, s: State, trace: seq<Label>)
    decreases |trace|
  {
    trace != [] ==>
      && (trace[0].key in cfg.places && trace[0].key in s.remotes ==>
            !OverwritesForeign(View(cfg, s, trace[0].key), trace[0].act))
      && NeverOverwritesForeign(cfg, Next(cfg, s, trace[0]), trace[1..])
  }

  lemma ForeignNext(cfg: Config, s: State, l: Label)
    requires DistinctJobs(cfg) && ClusterInv(cfg, s) && LabelAllowed(cfg, s, l)
    ensures LeavesForeign(cfg, s, l) <==> !OverwritesForeign(View(cfg, s, l.key), l.act)
  {
    if !l.act.Env? {
      ForeignStep(l.key, cfg.image, cfg.places[l.key], View(cfg, s, l.key), l.act);
      StepFrame(cfg, s, l, l.key);
      forall k | k in cfg.places && k != l.key
        ensures ForeignOf(Current(Next(cfg, s, l).remotes[k])) == ForeignOf(Current(s.remotes[k]))
      {
        StepFrame(cfg, s, l, k);
      }
    }
  }

  lemma {:induction false} ForeignFrom(cfg: Config, s: State, trace: seq<Label>)
    requires DistinctJobs(cfg) && ClusterInv(cfg, s) && RunAllowed(cfg, s, trace)
    ensures ForeignThroughout(cfg, s, trace) <==> NeverOverwritesForeign(cfg, s, trace)
    decreases |trace|
  {
    if trace != [] {
      ForeignNext(cfg, s, trace[0]);
      NextInv(cfg, s, trace[0]);
      ForeignFrom(cfg, Next(cfg, s, trace[0]), trace[1..]);
    }
  }

  /**
   * Foreign finalizers over runs: they change by the steps of other parties alone, exactly when no Update lands
   * whose pass read other foreign finalizers first than the server holds by then.
   */
  lemma ForeignRuns(cfg: Config, s: State, trace: seq<Label>)
    requires DistinctJobs(cfg) && Init(cfg, s) && RunAllowed(cfg, s, trace)
    ensures ForeignThroughout(cfg, s, trace) <==> NeverOverwritesForeign(cfg, s, trace)
  {
    InitInv(cfg, s);
    ForeignFrom(cfg, s, trace);
  }

  /** Version u has other foreign finalizers than the version before it. */
  ghost predicate EditsForeign(h: seq<Option<Source>>, u: nat) {
    0 < u < |h| && ForeignOf(h[u - 1]) != ForeignOf(h[u])
  }

  /** Two versions differ in their foreign finalizers only if a version from the one to the other edits them. */
  lemma {:induction false} EditBetween(h: seq<Option<Source>>, v: nat, w: nat)
    requires v <= w < |h| && ForeignOf(h[v]) != ForeignOf(h[w])
    ensures exists u :: v < u <= w && EditsForeign(h, u)
    decreases w - v
  {
    if ForeignOf(h[w - 1]) != ForeignOf(h[w]) {
      assert EditsForeign(h, w);
    } else {
      EditBetween(h, v, w - 1);
    }
  }

  lemma OverwrittenAfterEdit(k: Key, pl: Place, ks: KeyState, a: Action)
    requires Invariants.Inv(k, pl, ks) && OverwritesForeign(ks, a)
    ensures var p := ks.pass.value;
            exists u :: p.original.meta.resourceVersion < u <= p.pc.next.meta.resourceVersion
                        && EditsForeign(ks.remote.hist, u)
  {
    var h, v := ks.remote.hist, ks.pass.value.original.meta.resourceVersion;
    AcceptedKey(k, pl, ks);
    assert h[v] == Some(ks.pass.value.original);
    EditBetween(h, v, |h| - 1);
  }

  /**
   * Foreign finalizers are overwritten only if some version edits them that is later than the one that the pass
   * read first, and not later than the one that it read second: without such an edit they are safe.
   */
  lemma EditedBetweenReads(cfg: Config, s0: State, trace: seq<Label>, s: State, k: Key, a: Action)
    requires Reaches(cfg, s0, trace, s) && k in cfg.places && k in s.remotes
    requires OverwritesForeign(View(cfg, s, k), a)
    ensures var p := s.passes[k];
            exists u :: p.original.meta.resourceVersion < u <= p.pc.next.meta.resourceVersion
                        && EditsForeign(s.remotes[k].hist, u)
  {
    ReachedInv(cfg, s0, trace, s, k);
    OverwrittenAfterEdit(k, cfg.places[k], View(cfg, s, k), a);
  }
}
