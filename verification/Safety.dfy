/** What single writes do to the server, and what whole runs never do. */
module Safety {
  import opened Prelude
  import opened Types
  import Jobs
  import opened Remotes
  import opened Protocol
  import opened Invariants
  import Orphans
  import opened Cluster

  /** The states that runs reach. */
  ghost predicate Reaches(cfg: Config, s0: State, trace: seq<Label>, s: State) {
    DistinctJobs(cfg) && Init(cfg, s0) && RunAllowed(cfg, s0, trace) && s == Run(cfg, s0, trace)
  }

  lemma ReachedInv(cfg: Config, s0: State, trace: seq<Label>, s: State, k: Key)
    requires Reaches(cfg, s0, trace, s) && k in cfg.places
    ensures k in s.remotes && Inv(k, cfg.places[k], View(cfg, s, k))
  {
    InitInv(cfg, s0);
    RunInv(cfg, s0, trace);
  }

  /** The step that lets an Update take effect on the server. */
  predicate UpdateLands(ks: KeyState, a: Action) {
    && a.Reply? && ks.pass.Some? && ks.pass.value.pc.AtWrite?
    && Lands(a.reply) && Accepts(ks.remote, ks.pass.value.pc.next)
  }

  // ----- writes under staleness -----

  /**
   * However stale the cache was, and wherever it moved between the two reads, an Update that lands changes nothing
   * but the status, the finalizers and the resource version; or it takes a deleting source away for good. It
   * does so where the copy has no finalizer left, whatever finalizers the server holds by then.
   */
  lemma SafeWrites(cfg: Config, s0: State, trace: seq<Label>, s: State, k: Key, a: Action)
    requires Reaches(cfg, s0, trace, s) && k in cfg.places && k in s.remotes
    requires UpdateLands(View(cfg, s, k), a)
    ensures var r, p := s.remotes[k], s.passes[k];
            var r' := KeyStep(k, cfg.image, View(cfg, s, k), a).remote;
            && Current(r).Some?
            && r'.hist[..|r.hist|] == r.hist && |r'.hist| == |r.hist| + 1
            && match Current(r')
               case Some(o) =>
                 && o.spec == Current(r).value.spec
                 && o.meta.(finalizers := NilSlice, resourceVersion := 0)
                      == Current(r).value.meta.(finalizers := NilSlice, resourceVersion := 0)
                 && o.status == p.csr.status
                 && Items(o.meta.finalizers) == Items(p.csr.meta.finalizers)
               case None => Deleting(Current(r).value) && Items(p.csr.meta.finalizers) == []
  {
    ReachedInv(cfg, s0, trace, s, k);
    var p := s.passes[k];
    WriteAccepted(k, cfg.places[k], View(cfg, s, k));
    assert Items(Stored(Items(p.csr.meta.finalizers))) == Items(p.csr.meta.finalizers);
  }

  lemma AcceptedKey(k: Key, pl: Place, ks: KeyState)
    requires Inv(k, pl, ks) && ks.pass.Some? && ks.pass.value.pc.AtWrite?
    ensures var next := ks.pass.value.pc.next;
            && next.meta.resourceVersion < |ks.remote.hist|
            && (Accepts(ks.remote, next) <==> next.meta.resourceVersion == |ks.remote.hist| - 1)
  {
    var h, next := ks.remote.hist, ks.pass.value.pc.next;
    assert EntryOk(k, pl, |h| - 1, h[|h| - 1]);
  }

  /** An Update is accepted exactly when the server still holds the version that the second read found. */
  lemma AcceptedIff(cfg: Config, s0: State, trace: seq<Label>, s: State, k: Key)
    requires Reaches(cfg, s0, trace, s) && k in cfg.places && k in s.remotes
    requires k in s.passes && s.passes[k].pc.AtWrite?
    ensures var next := s.passes[k].pc.next;
            var h := s.remotes[k].hist;
            && next.meta.resourceVersion < |h|
            && (Accepts(s.remotes[k], next) <==> next.meta.resourceVersion == |h| - 1)
  {
    ReachedInv(cfg, s0, trace, s, k);
    AcceptedKey(k, cfg.places[k], View(cfg, s, k));
  }

  /** No step of a pass other than a landing Update changes the source on the server. */
  lemma OnlyWritesChangeHistory(k: Key, image: string, ks: KeyState, a: Action)
    requires !a.Env? && !UpdateLands(ks, a)
    ensures KeyStep(k, image, ks, a).remote.hist == ks.remote.hist
  {
  }

  // ----- the finalizer gate -----

  /**
   * A monitor that watches the passes on one key: it is set when the DeleteJob of the running pass is answered
   * with success or NotFound, and cleared when a pass begins.
   */
  predicate Watch(ks: KeyState, a: Action, deleted: bool) {
    if a == Begin && ks.pass.None? then false
    else deleted || (a == Reply(Jobs.Answer) && ks.pass.Some? && ks.pass.value.pc.AtDeleteJob?)
  }

  predicate WatchRun(k: Key, image: string, ks: KeyState, actions: seq<Action>, deleted: bool)
    decreases |actions|
  {
    if actions == [] then deleted
    else WatchRun(k, image, KeyStep(k, image, ks, actions[0]), actions[1..], Watch(ks, actions[0], deleted))
  }

  /** A pass that carries a cleaned-up copy has had its DeleteJob answered. */
  predicate WatchOk(ks: KeyState, deleted: bool) {
    ks.pass.Some? && Deleting(ks.pass.value.original) && (ks.pass.value.pc.AtReread? || ks.pass.value.pc.AtWrite?) ==>
      deleted
  }

  /** The pass that a step leaves in flight is the one before, further on, or one that has just begun. */
  lemma SamePass(k: Key, image: string, ks: KeyState, a: Action)
    requires KeyStep(k, image, ks, a).pass.Some? && !(a.Begin? && ks.pass.None?)
    requires ks.pass.Some? && ks.pass.value.pc.AtDeleteJob? ==> ks.pass.value.csr == ks.pass.value.original
    ensures ks.pass.Some? && KeyStep(k, image, ks, a).pass.value.original == ks.pass.value.original
    ensures var pc, pc' := ks.pass.value.pc, KeyStep(k, image, ks, a).pass.value.pc;
            pc'.AtReread? || pc'.AtWrite? ==>
              pc.AtReread? || pc.AtWrite? || (pc.AtDeleteJob? && a == Reply(Jobs.Answer)) ||
              (!pc.AtDeleteJob? && (pc.AtSink? ==> !Deleting(ks.pass.value.csr)))
  {
  }

  lemma WatchStep(k: Key, image: string, pl: Place, ks: KeyState, a: Action, deleted: bool)
    requires Inv(k, pl, ks) && WatchOk(ks, deleted)
    ensures WatchOk(KeyStep(k, image, ks, a), Watch(ks, a, deleted))
  {
    if KeyStep(k, image, ks, a).pass.Some? && !(a.Begin? && ks.pass.None?) {
      SamePass(k, image, ks, a);
      JobNameOfCopy(k, pl, ks.remote, ks.pass.value);
    }
  }

  lemma {:induction false} WatchKeeps(k: Key, image: string, pl: Place, ks: KeyState, actions: seq<Action>,
                                      deleted: bool)
    requires Inv(k, pl, ks) && KeyAllowed(k, image, pl, ks, actions) && WatchOk(ks, deleted)
    ensures WatchOk(KeyRun(k, image, ks, actions), WatchRun(k, image, ks, actions, deleted))
    decreases |actions|
  {
    if actions != [] {
      StepKeeps(k, image, pl, ks, actions[0]);
      WatchStep(k, image, pl, ks, actions[0], deleted);
      WatchKeeps(k, image, pl, KeyStep(k, image, ks, actions[0]), actions[1..], Watch(ks, actions[0], deleted));
    }
  }

  /**
   * The finalizer gate. A step that takes the controller's finalizer off the server is the landing Update of a pass
   * that read the source as being deleted, whose DeleteJob was answered with success or NotFound in that same pass;
   * and the job is absent when the Update lands.
   */
  lemma FinalizerGate(cfg: Config, s0: State, trace: seq<Label>, s: State, l: Label)
    requires Reaches(cfg, s0, trace, s) && LabelAllowed(cfg, s, l)
    ensures l.key in s0.remotes && l.key in Next(cfg, s, l).remotes
    ensures Guarded(Current(s.remotes[l.key])) && !Guarded(Current(Next(cfg, s, l).remotes[l.key])) ==>
              var k := l.key;
              && UpdateLands(View(cfg, s, k), l.act)
              && Deleting(s.passes[k].original)
              && WatchRun(k, cfg.image, View(cfg, s0, k), Project(trace, k), false)
              && JobAt(k, cfg.places[k]) !in s.jobs
  {
    var k := l.key;
    Watched(cfg, s0, trace, s, k);
    InitInv(cfg, s0);
    RunInv(cfg, s0, trace);
    StepFrame(cfg, s, l, k);
    if Guarded(Current(s.remotes[k])) && !Guarded(Current(Next(cfg, s, l).remotes[k])) {
      GateStep(k, cfg.image, cfg.places[k], View(cfg, s, k), l.act);
    }
  }

  lemma GateStep(k: Key, image: string, pl: Place, ks: KeyState, a: Action)
    requires Inv(k, pl, ks) && Allowed(pl, ks, a)
    requires Guarded(Current(ks.remote)) && !Guarded(Current(KeyStep(k, image, ks, a).remote))
    ensures UpdateLands(ks, a) && Deleting(ks.pass.value.original) && ks.job.None?
  {
    if a.Env? {
      Orphans.EnvCover(k, pl, ks.remote, a.env);
    } else {
      if !UpdateLands(ks, a) { OnlyWritesChangeHistory(k, image, ks, a); }
      LandingGuards(k, pl, ks);
    }
  }

  lemma Watched(cfg: Config, s0: State, trace: seq<Label>, s: State, k: Key)
    requires Reaches(cfg, s0, trace, s) && k in cfg.places
    ensures k in s0.remotes && k in s.remotes
    ensures WatchOk(View(cfg, s, k), WatchRun(k, cfg.image, View(cfg, s0, k), Project(trace, k), false))
  {
    InitInv(cfg, s0);
    AllowedProjects(cfg, s0, trace);
    RunProjects(cfg, s0, trace, k);
    WatchKeeps(k, cfg.image, cfg.places[k], View(cfg, s0, k), Project(trace, k), false);
  }

  /** A DeleteJob that fails ends its pass and leaves the source alone, whatever became of the job. */
  lemma FailedDeleteStops(cfg: Config, s0: State, trace: seq<Label>, s: State, k: Key, applied: bool)
    requires Reaches(cfg, s0, trace, s) && k in cfg.places && k in s.remotes
    requires k in s.passes && s.passes[k].pc.AtDeleteJob?
    ensures var ks' := KeyStep(k, cfg.image, View(cfg, s, k), Reply(Jobs.Fault(applied)));
            ks'.remote == s.remotes[k] && ks'.pass.None?
  {
    ReachedInv(cfg, s0, trace, s, k);
  }

  // ----- no resurrection -----

  /**
   * Once the finalizer of an incarnation has been dropped, every pass that is still on that incarnation, however
   * stale the cache it read, is on its way to delete the job: it is at none of the calls that write one.
   */
  lemma NoResurrection(cfg: Config, s0: State, trace: seq<Label>, s: State, k: Key, v: nat, w: nat)
    requires Reaches(cfg, s0, trace, s) && k in cfg.places && k in s.remotes
    requires v < w < |s.remotes[k].hist| && Dropped(s.remotes[k].hist, v, w)
    requires k in s.passes && s.passes[k].original.meta.uid == s.remotes[k].hist[v].value.meta.uid
    ensures Deleting(s.passes[k].original)
    ensures !s.passes[k].pc.AtCreateJob? && !s.passes[k].pc.AtUpdateJob?
    ensures forall a: Action :: KeyStep(k, cfg.image, View(cfg, s, k), a).job.Some? ==>
              KeyStep(k, cfg.image, View(cfg, s, k), a).job == View(cfg, s, k).job
  {
    ReachedInv(cfg, s0, trace, s, k);
    var h, o := s.remotes[k].hist, s.passes[k].original;
    if !Deleting(o) {
      Orphans.NotSeenDeleting(k, cfg.places[k], h, o.meta.resourceVersion);
      assert false;
    }
    forall a: Action | KeyStep(k, cfg.image, View(cfg, s, k), a).job.Some?
      ensures KeyStep(k, cfg.image, View(cfg, s, k), a).job == View(cfg, s, k).job
    {
      DeletingPassMakesNoJob(k, cfg.image, cfg.places[k], View(cfg, s, k), a);
    }
  }

  lemma DeletingPassMakesNoJob(k: Key, image: string, pl: Place, ks: KeyState, a: Action)
    requires Inv(k, pl, ks) && ks.pass.Some? && Deleting(ks.pass.value.original)
    ensures var ks' := KeyStep(k, image, ks, a); ks'.job.Some? ==> ks'.job == ks.job
  {
  }

  // ----- status -----

  /** A live source that reports a job carries the finalizer. */
  predicate StatusGuarded(e: Option<Source>) {
    e.Some? && e.value.status.job != "" && !Deleting(e.value) ==> Guarded(e)
  }

  /**
   * The write of a cleaned-up copy that lands on a live source. The source that the pass read was being deleted, so
   * this is another incarnation: the source was deleted and created again while the pass was in flight.
   */
  predicate CrossesIncarnations(ks: KeyState, a: Action) {
    && UpdateLands(ks, a)
    && Deleting(ks.pass.value.original)
    && !Deleting(Current(ks.remote).value)
    && ks.pass.value.csr.status.job != ""
  }

  lemma EnvStatus(k: Key, pl: Place, r: Remote, e: EnvAction)
    requires HistOk(k, pl, r.hist) && EnvAllowed(pl, r, e) && StatusGuarded(Current(r))
    ensures StatusGuarded(Current(EnvStep(k, r, e)))
  {
    Orphans.EnvCover(k, pl, r, e);
    assert EntryOk(k, pl, |r.hist| - 1, Current(r));
  }

  /** A live source on which a cleaned-up copy lands is another incarnation. */
  lemma LandsOnOther(k: Key, image: string, pl: Place, ks: KeyState, a: Action)
    requires Inv(k, pl, ks) && UpdateLands(ks, a) && Deleting(ks.pass.value.original)
    requires !Deleting(Current(ks.remote).value)
    ensures Current(ks.remote).value.meta.uid != ks.pass.value.original.meta.uid
  {
    var h, o := ks.remote.hist, ks.pass.value.original;
    var v := o.meta.resourceVersion;
    assert EntryOk(k, pl, v, h[v]);
    if v < |h| - 1 { assert Follows(h, v, |h| - 1); }
  }

  lemma LandedStatus(k: Key, image: string, pl: Place, ks: KeyState, a: Action)
    requires Inv(k, pl, ks) && UpdateLands(ks, a)
    ensures StatusGuarded(Current(KeyStep(k, image, ks, a).remote)) <==> !CrossesIncarnations(ks, a)
  {
    WriteAccepted(k, pl, ks);
    LandingGuards(k, pl, ks);
  }

  lemma StatusStep(k: Key, image: string, pl: Place, ks: KeyState, a: Action)
    requires Inv(k, pl, ks) && Allowed(pl, ks, a) && StatusGuarded(Current(ks.remote))
    ensures StatusGuarded(Current(KeyStep(k, image, ks, a).remote)) <==> !CrossesIncarnations(ks, a)
    ensures CrossesIncarnations(ks, a) ==> Current(ks.remote).value.meta.uid != ks.pass.value.original.meta.uid
  {
    if a.Env? {
      EnvStatus(k, pl, ks.remote, a.env);
    } else if UpdateLands(ks, a) {
      LandedStatus(k, image, pl, ks, a);
      if CrossesIncarnations(ks, a) { LandsOnOther(k, image, pl, ks, a); }
    } else {
      OnlyWritesChangeHistory(k, image, ks, a);
      assert Current(KeyStep(k, image, ks, a).remote) == Current(ks.remote);
    }
  }

  ghost predicate AllStatusGuarded(cfg: Config, s: State) {
    forall k :: k in cfg.places && k in s.remotes ==> StatusGuarded(Current(s.remotes[k]))
  }

  ghost predicate StatusThroughout(cfg: Config, s: State, trace: seq<Label>)
    decreases |trace|
  {
    AllStatusGuarded(cfg, s) && (trace != [] ==> StatusThroughout(cfg, Next(cfg, s, trace[0]), trace[1..]))
  }

  predicate NeverCrosses(cfg: Config, s: State, trace: seq<Label>)
    decreases |trace|
  {
    trace != [] ==>
      && (trace[0].key in cfg.places && trace[0].key in s.remotes ==>
            !CrossesIncarnations(View(cfg, s, trace[0].key), trace[0].act))
      && NeverCrosses(cfg, Next(cfg, s, trace[0]), trace[1..])
  }

  lemma StatusNext(cfg: Config, s: State, l: Label)
    requires DistinctJobs(cfg) && ClusterInv(cfg, s) && LabelAllowed(cfg, s, l) && AllStatusGuarded(cfg, s)
    ensures AllStatusGuarded(cfg, Next(cfg, s, l)) <==> !CrossesIncarnations(View(cfg, s, l.key), l.act)
  {
    StatusStep(l.key, cfg.image, cfg.places[l.key], View(cfg, s, l.key), l.act);
    StepFrame(cfg, s, l, l.key);
    forall k | k in cfg.places && k != l.key ensures StatusGuarded(Current(Next(cfg, s, l).remotes[k])) {
      StepFrame(cfg, s, l, k);
    }
  }

  lemma {:induction false} StatusRuns(cfg: Config, s: State, trace: seq<Label>)
    requires DistinctJobs(cfg) && ClusterInv(cfg, s) && RunAllowed(cfg, s, trace) && AllStatusGuarded(cfg, s)
    ensures StatusThroughout(cfg, s, trace) <==> NeverCrosses(cfg, s, trace)
    decreases |trace|
  {
    if trace != [] {
      var s' := Next(cfg, s, trace[0]);
      StatusNext(cfg, s, trace[0]);
      if AllStatusGuarded(cfg, s') {
        NextInv(cfg, s, trace[0]);
        StatusRuns(cfg, s', trace[1..]);
      }
    }
  }

  /**
   * Status soundness, first half: in every reachable state, a source that reports a job reports the one job name
   * that belongs to it.
   */
  lemma StatusNamesOwnJob(cfg: Config, s0: State, trace: seq<Label>, s: State, k: Key, v: nat)
    requires Reaches(cfg, s0, trace, s) && k in cfg.places && k in s.remotes
    requires v < |s.remotes[k].hist| && s.remotes[k].hist[v].Some?
    ensures var o := s.remotes[k].hist[v].value;
            o.status.job != "" ==> o.status.job == JobNameOf(o) == JobAt(k, cfg.places[k])
  {
    ReachedInv(cfg, s0, trace, s, k);
    assert EntryOk(k, cfg.places[k], v, s.remotes[k].hist[v]);
  }

  /**
   * Status soundness, second half: every live source that reports a job carries the finalizer in every state of a
   * run, exactly when no cleaned-up copy lands on a later incarnation.
   */
  lemma StatusSound(cfg: Config, s: State, trace: seq<Label>)
    requires DistinctJobs(cfg) && Init(cfg, s) && RunAllowed(cfg, s, trace)
    ensures StatusThroughout(cfg, s, trace) <==> NeverCrosses(cfg, s, trace)
  {
    InitInv(cfg, s);
    StatusRuns(cfg, s, trace);
  }
}
