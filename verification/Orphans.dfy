/** No job outlives its source: in which runs this holds, and how it fails in the others. */
module Orphans {
  import opened Prelude
  import opened Types
  import Finalizers
  import opened Jobs
  import opened Remotes
  import opened Protocol
  import opened Invariants
  import opened Cluster

  /**
   * A job is covered while its source is on the server with the finalizer, or while a pass is in flight that has
   * added the finalizer to its copy and is yet to write it.
   */
  predicate Covered(ks: KeyState) {
    ks.job.Some? ==> Guarded(Current(ks.remote)) || (ks.pass.Some? && Committed(ks.pass.value))
  }

  /** The end of a pass whose write back fails: the second read finds nothing, or the Update does not land. */
  predicate WriteFails(ks: KeyState, a: Action) {
    && a.Reply? && ks.pass.Some?
    && match ks.pass.value.pc
       case AtReread => a.reply.Fault? || Cached(ks.remote).None?
       case AtWrite(next) => !Lands(a.reply) || !Accepts(ks.remote, next)
       case _ => false
  }

  /**
   * The write that was to put the finalizer on the server for the first time is lost. The pass read the source
   * without the finalizer, the server still has no finalizer, and the job is already there.
   */
  predicate LosesFirstWrite(ks: KeyState, a: Action) {
    && WriteFails(ks, a)
    && !Deleting(ks.pass.value.original)
    && !Guarded(Some(ks.pass.value.original))
    && !Guarded(Current(ks.remote))
    && ks.job.Some?
  }

  /** A live source that a pass read with the finalizer is still on the server with the finalizer. */
  lemma GuardEndures(k: Key, pl: Place, ks: KeyState)
    requires Inv(k, pl, ks) && ks.pass.Some?
    requires !Deleting(ks.pass.value.original) && Guarded(Some(ks.pass.value.original))
    ensures Guarded(Current(ks.remote))
    ensures Current(ks.remote).value.meta.uid == ks.pass.value.original.meta.uid
  {
    var h, o := ks.remote.hist, ks.pass.value.original;
    var v, last := o.meta.resourceVersion, |h| - 1;
    if v < last && Dropped(h, v, last) {
      NotSeenDeleting(k, pl, h, v);
      assert false;
    }
  }

  /** A version that is not being deleted comes before every deletion of its incarnation. */
  lemma NotSeenDeleting(k: Key, pl: Place, h: seq<Option<Source>>, v: nat)
    requires HistOk(k, pl, h) && v < |h| && h[v].Some? && !Deleting(h[v].value)
    ensures !SeenDeleting(h, v, h[v].value.meta.uid)
  {
    forall q | 0 <= q <= v && h[q].Some? && h[q].value.meta.uid == h[v].value.meta.uid ensures !Deleting(h[q].value) {
      assert EntryOk(k, pl, q, h[q]);
      if q < v { assert Follows(h, q, v); }
    }
  }

  lemma EnvCover(k: Key, pl: Place, r: Remote, e: EnvAction)
    requires HistOk(k, pl, r.hist) && EnvAllowed(pl, r, e)
    ensures Guarded(Current(EnvStep(k, r, e))) <==> Guarded(Current(r))
  {
    if Current(r).Some? {
      assert EntryOk(k, pl, |r.hist| - 1, Current(r));
      assert Items(Stored(Items(Current(r).value.meta.finalizers))) == Items(Current(r).value.meta.finalizers);
    }
  }

  /** A pass that ends without writing its copy back has found the finalizer where it put it. */
  lemma NothingToWrite(k: Key, pl: Place, ks: KeyState, csr: Source)
    requires Inv(k, pl, ks) && ks.pass.Some? && Committed(ks.pass.value)
    requires Untouched(ks.pass.value.original, csr)
    requires csr.meta.finalizers == Finalizers.Add(ks.pass.value.original.meta.finalizers)
    ensures Guarded(Current(ks.remote))
  {
    Finalizers.Membership(ks.pass.value.original.meta.finalizers);
    GuardEndures(k, pl, ks);
  }

  /** The second read never finds the copy already there: a pass that has changes to write sends an Update. */
  lemma RereadDiffers(k: Key, pl: Place, ks: KeyState)
    requires Inv(k, pl, ks) && ks.pass.Some? && ks.pass.value.pc.AtReread? && Cached(ks.remote).Some?
    ensures AfterReread(ks.pass.value, Cached(ks.remote)).Going?
  {
    var p, c := ks.pass.value, Cached(ks.remote).value;
    assert EntryOk(k, pl, ks.remote.pos, ks.remote.hist[ks.remote.pos]);
    if c.meta.resourceVersion == p.original.meta.resourceVersion {
      assert c == p.original;
    }
  }

  /** Coverage is lost by exactly one kind of step. */
  lemma CoverStep(k: Key, image: string, pl: Place, ks: KeyState, a: Action)
    requires Inv(k, pl, ks) && Allowed(pl, ks, a) && Covered(ks)
    ensures Covered(KeyStep(k, image, ks, a)) <==> !LosesFirstWrite(ks, a)
  {
    match a
    case Env(e) => EnvCover(k, pl, ks.remote, e);
    case Begin =>
    case Look(_) =>
    case Reply(reply) =>
      if ks.pass.Some? {
        match ks.pass.value.pc
        case AtSink =>
        case AtDeleteJob =>
        case AtReread => RereadCover(k, image, pl, ks, reply);
        case AtWrite(_) => WriteCover(k, image, pl, ks, reply);
        case _ => WorkCover(k, image, pl, ks, reply);
      }
  }

  lemma RereadCover(k: Key, image: string, pl: Place, ks: KeyState, reply: Reply)
    requires Inv(k, pl, ks) && Covered(ks) && ks.pass.Some? && ks.pass.value.pc.AtReread?
    ensures Covered(KeyStep(k, image, ks, Reply(reply))) <==> !LosesFirstWrite(ks, Reply(reply))
  {
    var p := ks.pass.value;
    if Cached(ks.remote).Some? {
      RereadDiffers(k, pl, ks);
    }
    if !Deleting(p.original) && Guarded(Some(p.original)) {
      GuardEndures(k, pl, ks);
    }
  }

  lemma WriteCover(k: Key, image: string, pl: Place, ks: KeyState, reply: Reply)
    requires Inv(k, pl, ks) && Covered(ks) && ks.pass.Some? && ks.pass.value.pc.AtWrite?
    ensures Covered(KeyStep(k, image, ks, Reply(reply))) <==> !LosesFirstWrite(ks, Reply(reply))
  {
    var p := ks.pass.value;
    if Lands(reply) && Accepts(ks.remote, p.pc.next) {
      LandingGuards(k, pl, ks);
    } else if !Deleting(p.original) && Guarded(Some(p.original)) {
      GuardEndures(k, pl, ks);
    }
  }

  lemma WorkCover(k: Key, image: string, pl: Place, ks: KeyState, reply: Reply)
    requires Inv(k, pl, ks) && ks.pass.Some? && Committed(ks.pass.value)
    requires !ks.pass.value.pc.AtReread? && !ks.pass.value.pc.AtWrite?
    ensures Covered(KeyStep(k, image, ks, Reply(reply)))
  {
    var p := ks.pass.value;
    var ks' := KeyStep(k, image, ks, Reply(reply));
    if ks'.pass.None? {
      if Untouched(p.original, p.csr) {
        NothingToWrite(k, pl, ks, p.csr);
      } else {
        var name :| Untouched(p.original, WithJob(p.csr, name));
        NothingToWrite(k, pl, ks, WithJob(p.csr, name));
      }
    }
  }

  // ----- whole runs -----

  ghost predicate AllCovered(cfg: Config, s: State) {
    forall k :: k in cfg.places && k in s.remotes ==> Covered(View(cfg, s, k))
  }

  /** Every state of the run has all its jobs covered. */
  ghost predicate CoveredThroughout(cfg: Config, s: State, trace: seq<Label>)
    decreases |trace|
  {
    AllCovered(cfg, s) && (trace != [] ==> CoveredThroughout(cfg, Next(cfg, s, trace[0]), trace[1..]))
  }

  /** No step of the run loses a first write. */
  predicate NoFirstWriteLost(cfg: Config, s: State, trace: seq<Label>)
    decreases |trace|
  {
    trace != [] ==>
      && (trace[0].key in cfg.places && trace[0].key in s.remotes ==>
            !LosesFirstWrite(View(cfg, s, trace[0].key), trace[0].act))
      && NoFirstWriteLost(cfg, Next(cfg, s, trace[0]), trace[1..])
  }

  lemma CoverNext(cfg: Config, s: State, l: Label)
    requires DistinctJobs(cfg) && ClusterInv(cfg, s) && LabelAllowed(cfg, s, l) && AllCovered(cfg, s)
    ensures AllCovered(cfg, Next(cfg, s, l)) <==> !LosesFirstWrite(View(cfg, s, l.key), l.act)
  {
    CoverStep(l.key, cfg.image, cfg.places[l.key], View(cfg, s, l.key), l.act);
    StepFrame(cfg, s, l, l.key);
    forall k | k in cfg.places && k != l.key ensures Covered(View(cfg, Next(cfg, s, l), k)) {
      StepFrame(cfg, s, l, k);
    }
  }

  lemma {:induction false} CoveredRuns(cfg: Config, s: State, trace: seq<Label>)
    requires DistinctJobs(cfg) && ClusterInv(cfg, s) && RunAllowed(cfg, s, trace) && AllCovered(cfg, s)
    ensures CoveredThroughout(cfg, s, trace) <==> NoFirstWriteLost(cfg, s, trace)
    decreases |trace|
  {
    if trace != [] {
      var s' := Next(cfg, s, trace[0]);
      CoverNext(cfg, s, trace[0]);
      if AllCovered(cfg, s') {
        NextInv(cfg, s, trace[0]);
        CoveredRuns(cfg, s', trace[1..]);
      }
    }
  }

  /**
   * No orphaned jobs. Under any interleaving of users, cache, Services, workers and failing calls, every job is
   * covered in every state of a run, exactly when the run loses no first write of the finalizer.
   */
  lemma NoOrphanedJobs(cfg: Config, s: State, trace: seq<Label>)
    requires DistinctJobs(cfg) && Init(cfg, s) && RunAllowed(cfg, s, trace)
    ensures CoveredThroughout(cfg, s, trace) <==> NoFirstWriteLost(cfg, s, trace)
  {
    InitInv(cfg, s);
    CoveredRuns(cfg, s, trace);
  }

  /** The write back of a pass fails that read its source alive and without the finalizer. */
  predicate FirstWriteFails(ks: KeyState, a: Action) {
    WriteFails(ks, a) && !Deleting(ks.pass.value.original) && !Guarded(Some(ks.pass.value.original))
  }

  predicate NoFirstWriteFails(cfg: Config, s: State, trace: seq<Label>)
    decreases |trace|
  {
    trace != [] ==>
      && (trace[0].key in cfg.places && trace[0].key in s.remotes ==>
            !FirstWriteFails(View(cfg, s, trace[0].key), trace[0].act))
      && NoFirstWriteFails(cfg, Next(cfg, s, trace[0]), trace[1..])
  }

  lemma {:induction false} FailsWhereLost(cfg: Config, s: State, trace: seq<Label>)
    requires NoFirstWriteFails(cfg, s, trace)
    ensures NoFirstWriteLost(cfg, s, trace)
    decreases |trace|
  {
    if trace != [] {
      FailsWhereLost(cfg, Next(cfg, s, trace[0]), trace[1..]);
    }
  }

  /**
   * The same, told by the failing branches of update alone: if no write back fails of a pass that read its source
   * alive and without the finalizer, then every job is covered in every state of the run.
   */
  lemma CoveredUnlessWriteFails(cfg: Config, s: State, trace: seq<Label>)
    requires DistinctJobs(cfg) && Init(cfg, s) && RunAllowed(cfg, s, trace) && NoFirstWriteFails(cfg, s, trace)
    ensures CoveredThroughout(cfg, s, trace)
  {
    FailsWhereLost(cfg, s, trace);
    NoOrphanedJobs(cfg, s, trace);
  }
}
