/** What every run keeps, for one key. */
module Invariants {
  import opened Prelude
  import opened Types
  import opened Finalizers
  import Sinks
  import Resources
  import opened Jobs
  import opened Remotes
  import opened Protocol

  predicate JobFieldOk(k: Key, pl: Place, o: Source) {
    o.status.job == "" || o.status.job == JobAt(k, pl)
  }

  /** The entry that the server holds as version v. */
  predicate EntryOk(k: Key, pl: Place, v: nat, e: Option<Source>) {
    e.Some? ==>
      && KeyOf(e.value) == k
      && e.value.meta.resourceVersion == v
      && e.value.meta.uid <= v
      && Placed(pl, e.value.spec)
      && e.value.meta.finalizers == Stored(Items(e.value.meta.finalizers))
      && (Deleting(e.value) ==> Items(e.value.meta.finalizers) != [])
      && JobFieldOk(k, pl, e.value)
  }

  /** An incarnation is created once, is never interrupted, and is never undeleted. */
  predicate Follows(h: seq<Option<Source>>, i: nat, j: nat)
    requires i < |h| && j < |h|
  {
    h[j].Some? && h[j].value.meta.uid <= i ==>
      && h[i].Some?
      && h[i].value.meta.uid == h[j].value.meta.uid
      && (Deleting(h[i].value) ==> h[j].value.meta.deletionTimestamp == h[i].value.meta.deletionTimestamp)
  }

  ghost predicate HistOk(k: Key, pl: Place, h: seq<Option<Source>>) {
    && h != []
    && (forall v :: 0 <= v < |h| ==> EntryOk(k, pl, v, h[v]))
    && (forall i, j :: 0 <= i < j < |h| ==> Follows(h, i, j))
  }

  /** A guarded incarnation has been in the cache: its finalizer was written by a pass that read it there. */
  ghost predicate GuardCached(h: seq<Option<Source>>, pos: nat) {
    forall w :: 0 <= w < |h| && Guarded(h[w]) ==> h[w].value.meta.uid <= pos
  }

  /** The incarnation that was guarded at v is, at w, gone or without the finalizer. */
  predicate Dropped(h: seq<Option<Source>>, v: nat, w: nat)
    requires v < |h| && w < |h|
  {
    Guarded(h[v]) && !(Guarded(h[w]) && h[w].value.meta.uid == h[v].value.meta.uid)
  }

  /** The cache has shown incarnation uid as being deleted, at a version up to b. */
  ghost predicate SeenDeleting(h: seq<Option<Source>>, b: nat, uid: nat) {
    exists q :: 0 <= q <= b && q < |h| && h[q].Some? && h[q].value.meta.uid == uid && Deleting(h[q].value)
  }

  ghost predicate DropsSeen(h: seq<Option<Source>>, b: nat) {
    forall v, w :: 0 <= v < w < |h| && Dropped(h, v, w) ==> SeenDeleting(h, b, h[v].value.meta.uid)
  }

  /** Incarnations younger than the one that a pass works on are not guarded while the pass runs. */
  ghost predicate YoungerUnguarded(h: seq<Option<Source>>, o: Source) {
    forall w :: o.meta.resourceVersion < w < |h| && h[w].Some? && h[w].value.meta.uid != o.meta.uid ==> !Guarded(h[w])
  }

  /** The first read is in the history, and the copy differs from it in status and finalizers only. */
  ghost predicate SnapshotOk(k: Key, pl: Place, r: Remote, p: Pass) {
    var v := p.original.meta.resourceVersion;
    && v < |r.hist| && v <= r.pos
    && r.hist[v] == Some(p.original)
    && p.csr.spec == p.original.spec
    && p.csr.meta == p.original.meta.(finalizers := p.csr.meta.finalizers)
    && JobFieldOk(k, pl, p.csr)
    && YoungerUnguarded(r.hist, p.original)
  }

  /** A pass on a live source that has reached its addFinalizer. */
  predicate Committed(p: Pass) {
    !Deleting(p.original) && !p.pc.AtSink? && !p.pc.AtDeleteJob?
  }

  /** The copy that is about to be written back: guarded, or cleaned up after its job is gone. */
  predicate WriteBackOk(p: Pass, job: Option<Job>) {
    && !Untouched(p.original, p.csr)
    && if Deleting(p.original)
       then p.csr == WithFinalizers(p.original, Remove(p.original.meta.finalizers)) && job.None?
       else p.csr.meta.finalizers == Add(p.original.meta.finalizers)
  }

  ghost predicate PcOk(r: Remote, p: Pass, job: Option<Job>) {
    match p.pc
    case AtSink => p.csr == p.original
    case AtDeleteJob => p.csr == p.original && Deleting(p.original)
    case AtReread => WriteBackOk(p, job)
    case AtWrite(next) =>
      var w := next.meta.resourceVersion;
      && WriteBackOk(p, job)
      && p.original.meta.resourceVersion <= w <= r.pos
      && w < |r.hist| && r.hist[w].Some?
      && next == Merged(r.hist[w].value, p.csr)
    case _ => !Deleting(p.original) && p.csr.meta.finalizers == Add(p.original.meta.finalizers)
  }

  function Bound(ks: KeyState): nat {
    if ks.pass.Some? then ks.pass.value.original.meta.resourceVersion else ks.remote.pos
  }

  ghost predicate Inv(k: Key, pl: Place, ks: KeyState) {
    && HistOk(k, pl, ks.remote.hist)
    && ks.remote.pos < |ks.remote.hist|
    && GuardCached(ks.remote.hist, ks.remote.pos)
    && DropsSeen(ks.remote.hist, Bound(ks))
    && (ks.job.Some? ==> ks.job.value.name == JobAt(k, pl))
    && (ks.pass.Some? ==> SnapshotOk(k, pl, ks.remote, ks.pass.value) && PcOk(ks.remote, ks.pass.value, ks.job))
  }

  // ----- growing the history -----

  /** An entry that may come next. */
  predicate NextOk(k: Key, pl: Place, h: seq<Option<Source>>, e: Option<Source>)
    requires h != []
  {
    var last := h[|h| - 1];
    && EntryOk(k, pl, |h|, e)
    && (e.Some? && last.Some? ==>
          && e.value.meta.uid == last.value.meta.uid
          && (Deleting(last.value) ==> e.value.meta.deletionTimestamp == last.value.meta.deletionTimestamp))
    && (e.Some? && last.None? ==> e.value.meta.uid == |h|)
  }

  lemma HistGrows(k: Key, pl: Place, h: seq<Option<Source>>, e: Option<Source>)
    requires HistOk(k, pl, h) && NextOk(k, pl, h, e)
    ensures HistOk(k, pl, h + [e])
  {
    var g := h + [e];
    var n := |h|;
    forall i, j | 0 <= i < j < |g| ensures Follows(g, i, j) {
      if j < n {
        assert Follows(h, i, j);
      } else if i < n - 1 && e.Some? && e.value.meta.uid <= i && h[n - 1].Some? {
        assert Follows(h, i, n - 1);
      }
    }
    forall v | 0 <= v < |g| ensures EntryOk(k, pl, v, g[v]) {
      assert v < n ==> EntryOk(k, pl, v, h[v]);
    }
  }

  lemma SeenGrows(h: seq<Option<Source>>, b: nat, e: Option<Source>, b': nat, uid: nat)
    requires SeenDeleting(h, b, uid) && b <= b'
    ensures SeenDeleting(h + [e], b', uid) && SeenDeleting(h, b', uid)
  {
    var q :| 0 <= q <= b && q < |h| && h[q].Some? && h[q].value.meta.uid == uid && Deleting(h[q].value);
    assert (h + [e])[q] == h[q];
  }

  lemma DropsSeenLater(h: seq<Option<Source>>, b: nat, b': nat)
    requires DropsSeen(h, b) && b <= b'
    ensures DropsSeen(h, b')
  {
    forall v, w | 0 <= v < w < |h| && Dropped(h, v, w) ensures SeenDeleting(h, b', h[v].value.meta.uid) {
      SeenGrows(h, b, None, b', h[v].value.meta.uid);
    }
  }

  /** A new entry needs a seen deletion only if it takes the finalizer off the last one. */
  lemma DropsGrow(k: Key, pl: Place, h: seq<Option<Source>>, b: nat, e: Option<Source>)
    requires h != [] && DropsSeen(h, b) && NextOk(k, pl, h, e)
    requires Guarded(h[|h| - 1]) && !Guarded(e) ==> SeenDeleting(h, b, h[|h| - 1].value.meta.uid)
    ensures DropsSeen(h + [e], b)
  {
    var g, n := h + [e], |h|;
    forall v, w | 0 <= v < w < |g| && Dropped(g, v, w) ensures SeenDeleting(g, b, g[v].value.meta.uid) {
      var uid := h[v].value.meta.uid;
      if w < n {
        assert Dropped(h, v, w);
      } else if v < n - 1 && Dropped(h, v, n - 1) {
      } else {
        assert Guarded(h[n - 1]) && h[n - 1].value.meta.uid == uid;
      }
      SeenGrows(h, b, e, b, uid);
    }
  }

  // ----- steps of other parties -----

  /** Another party's entry neither adds nor takes away the controller's finalizer. */
  lemma EnvAppendKeeps(k: Key, pl: Place, ks: KeyState, e: Option<Source>)
    requires Inv(k, pl, ks) && NextOk(k, pl, ks.remote.hist, e)
    requires Guarded(e) <==> Guarded(Current(ks.remote))
    ensures Inv(k, pl, ks.(remote := Append(ks.remote, e)))
  {
    var h := ks.remote.hist;
    HistGrows(k, pl, h, e);
    DropsGrow(k, pl, h, Bound(ks), e);
    if ks.pass.Some? {
      PassOutlivesAppend(k, pl, ks, ks.pass.value, e);
    }
  }

  lemma PassOutlivesAppend(k: Key, pl: Place, ks: KeyState, p: Pass, e: Option<Source>)
    requires Inv(k, pl, ks) && ks.pass == Some(p) && NextOk(k, pl, ks.remote.hist, e)
    requires Guarded(e) <==> Guarded(Current(ks.remote))
    ensures var r' := Append(ks.remote, e);
            SnapshotOk(k, pl, r', p) && PcOk(r', p, ks.job)
  {
    assert YoungerUnguarded(ks.remote.hist + [e], p.original);
  }

  /** What another party writes may come next, and keeps the controller's finalizer as it is. */
  lemma EnvEntry(k: Key, pl: Place, r: Remote, a: EnvAction)
    requires HistOk(k, pl, r.hist) && EnvAllowed(pl, r, a)
    requires EnvStep(k, r, a).hist != r.hist
    ensures var r' := EnvStep(k, r, a);
            && |r'.hist| == |r.hist| + 1
            && r' == Append(r, r'.hist[|r.hist|])
            && NextOk(k, pl, r.hist, r'.hist[|r.hist|])
            && (Guarded(r'.hist[|r.hist|]) <==> Guarded(Current(r)))
  {
    assert EntryOk(k, pl, |r.hist| - 1, Current(r));
    var e := EnvStep(k, r, a).hist[|r.hist|];
    if Current(r).Some? { Membership(Current(r).value.meta.finalizers); }
  }

  lemma EnvKeeps(k: Key, pl: Place, ks: KeyState, a: EnvAction)
    requires Inv(k, pl, ks) && EnvAllowed(pl, ks.remote, a)
    ensures Inv(k, pl, ks.(remote := EnvStep(k, ks.remote, a)))
  {
    var r := ks.remote;
    var r' := EnvStep(k, r, a);
    if r'.hist != r.hist {
      EnvEntry(k, pl, r, a);
      EnvAppendKeeps(k, pl, ks, r'.hist[|r.hist|]);
    } else if ks.pass.None? {
      DropsSeenLater(r.hist, r.pos, r'.pos);
    }
  }

  // ----- steps of passes -----

  lemma FinishKeeps(k: Key, pl: Place, ks: KeyState, p: Pass, csr: Source, job: Option<Job>, err: Option<Error>)
    requires Inv(k, pl, ks) && ks.pass == Some(p)
    requires job.Some? ==> job.value.name == JobAt(k, pl)
    requires csr.spec == p.original.spec && JobFieldOk(k, pl, csr)
    requires csr.meta == p.original.meta.(finalizers := csr.meta.finalizers)
    requires !Untouched(p.original, csr) ==> WriteBackOk(Pass(AtReread, p.original, csr, err), job)
    ensures Inv(k, pl, ks.(job := job, pass := InFlight(Finish(p, csr, err))))
  {
    if Untouched(p.original, csr) {
      DropsSeenLater(ks.remote.hist, Bound(ks), ks.remote.pos);
    }
  }

  lemma BeginKeeps(k: Key, image: string, pl: Place, ks: KeyState)
    requires Inv(k, pl, ks)
    ensures Inv(k, pl, KeyStep(k, image, ks, Begin))
  {
    var h, v := ks.remote.hist, ks.remote.pos;
    if ks.pass.None? && h[v].Some? {
      assert EntryOk(k, pl, v, h[v]);
      forall w | v < w < |h| && h[w].Some? && h[w].value.meta.uid != h[v].value.meta.uid ensures !Guarded(h[w]) {
        assert Follows(h, v, w);
      }
    }
  }

  lemma LookKeeps(k: Key, image: string, pl: Place, ks: KeyState, fetched: Sinks.Fetched)
    requires Inv(k, pl, ks)
    ensures Inv(k, pl, KeyStep(k, image, ks, Look(fetched)))
  {
    if ks.pass.Some? && ks.pass.value.pc.AtSink? {
      var p := ks.pass.value;
      var uri := Sinks.GetSinkURI(p.csr.spec.sink, fetched);
      if !Deleting(p.csr) && uri.Err? {
        FinishKeeps(k, pl, ks, p, p.csr, ks.job, Some(uri.error));
      }
    }
  }

  /** The current object with the status and the finalizers of a pass may come next. */
  lemma MergedNext(k: Key, pl: Place, r: Remote, csr: Source)
    requires HistOk(k, pl, r.hist) && Current(r).Some? && JobFieldOk(k, pl, csr)
    ensures NextOk(k, pl, r.hist, Admitted(r, Merged(Current(r).value, csr)))
  {
    assert EntryOk(k, pl, |r.hist| - 1, r.hist[|r.hist| - 1]);
    assert Items(Stored(Items(csr.meta.finalizers))) == Items(csr.meta.finalizers);
  }

  /** The object that an accepted update stores. */
  lemma WriteAccepted(k: Key, pl: Place, ks: KeyState)
    requires Inv(k, pl, ks) && ks.pass.Some? && ks.pass.value.pc.AtWrite?
    requires Accepts(ks.remote, ks.pass.value.pc.next)
    ensures var p := ks.pass.value;
            var cur := Current(ks.remote).value;
            && p.pc.next == Merged(cur, p.csr)
            && p.pc.next.meta.resourceVersion == |ks.remote.hist| - 1
            && |ks.remote.hist| - 1 <= ks.remote.pos
            && NextOk(k, pl, ks.remote.hist, Admitted(ks.remote, p.pc.next))
  {
    var h, p := ks.remote.hist, ks.pass.value;
    var w := p.pc.next.meta.resourceVersion;
    assert EntryOk(k, pl, |h| - 1, h[|h| - 1]);
    assert w == |h| - 1;
    MergedNext(k, pl, ks.remote, p.csr);
  }

  /** The copy that a pass writes back is guarded exactly if the pass saw a live source. */
  lemma WriteBackGuards(p: Pass, job: Option<Job>)
    requires WriteBackOk(p, job)
    ensures Guarded(Some(p.csr)) <==> !Deleting(p.original)
  {
    Membership(p.original.meta.finalizers);
  }

  /** What the API server stores is as guarded as what it was sent. */
  lemma AdmittedGuards(r: Remote, o: Source)
    ensures Guarded(Admitted(r, o)) <==> Guarded(Some(o))
  {
    Membership(o.meta.finalizers);
  }

  /** A pass that is about to change a guarded incarnation has read that very incarnation. */
  lemma SeenByPass(k: Key, pl: Place, ks: KeyState)
    requires Inv(k, pl, ks) && ks.pass.Some? && Deleting(ks.pass.value.original)
    requires Guarded(Current(ks.remote))
    ensures SeenDeleting(ks.remote.hist, Bound(ks), Current(ks.remote).value.meta.uid)
  {
    var p, h := ks.pass.value, ks.remote.hist;
    var v := p.original.meta.resourceVersion;
    assert h[v] == Some(p.original);
    assert v < |h| - 1 ==> Current(ks.remote).value.meta.uid == p.original.meta.uid;
  }

  /** A landing write guards the source, unless its pass has deleted the job of a source that it saw being deleted. */
  lemma LandingGuards(k: Key, pl: Place, ks: KeyState)
    requires Inv(k, pl, ks) && ks.pass.Some? && ks.pass.value.pc.AtWrite?
    requires Accepts(ks.remote, ks.pass.value.pc.next)
    ensures Guarded(Admitted(ks.remote, ks.pass.value.pc.next)) <==> !Deleting(ks.pass.value.original)
    ensures Deleting(ks.pass.value.original) && Guarded(Current(ks.remote)) ==>
              SeenDeleting(ks.remote.hist, Bound(ks), Current(ks.remote).value.meta.uid)
  {
    var p := ks.pass.value;
    WriteBackGuards(p, ks.job);
    AdmittedGuards(ks.remote, p.pc.next);
    if Deleting(p.original) && Guarded(Current(ks.remote)) {
      SeenByPass(k, pl, ks);
    }
  }

  lemma WriteKeeps(k: Key, image: string, pl: Place, ks: KeyState, reply: Reply)
    requires Inv(k, pl, ks) && ks.pass.Some? && ks.pass.value.pc.AtWrite?
    ensures Inv(k, pl, KeyStep(k, image, ks, Reply(reply)))
  {
    var h, next := ks.remote.hist, ks.pass.value.pc.next;
    if Lands(reply) && Accepts(ks.remote, next) {
      WriteAccepted(k, pl, ks);
      LandingGuards(k, pl, ks);
      LandedKeeps(k, pl, ks, Admitted(ks.remote, next));
    } else {
      DropsSeenLater(h, Bound(ks), ks.remote.pos);
    }
  }

  lemma LandedKeeps(k: Key, pl: Place, ks: KeyState, e: Option<Source>)
    requires Inv(k, pl, ks) && |ks.remote.hist| - 1 <= ks.remote.pos && NextOk(k, pl, ks.remote.hist, e)
    requires Guarded(e) ==> Current(ks.remote).Some?
    requires Guarded(Current(ks.remote)) && !Guarded(e) ==>
               SeenDeleting(ks.remote.hist, Bound(ks), Current(ks.remote).value.meta.uid)
    ensures Inv(k, pl, ks.(remote := Append(ks.remote, e), pass := None))
  {
    var h := ks.remote.hist;
    assert EntryOk(k, pl, |h| - 1, h[|h| - 1]);
    HistGrows(k, pl, h, e);
    DropsGrow(k, pl, h, Bound(ks), e);
    DropsSeenLater(h + [e], Bound(ks), ks.remote.pos);
  }

  lemma RereadKeeps(k: Key, image: string, pl: Place, ks: KeyState, reply: Reply)
    requires Inv(k, pl, ks) && ks.pass.Some? && ks.pass.value.pc.AtReread?
    ensures Inv(k, pl, KeyStep(k, image, ks, Reply(reply)))
  {
    var r := ks.remote;
    assert EntryOk(k, pl, r.pos, r.hist[r.pos]);
    if KeyStep(k, image, ks, Reply(reply)).pass.None? {
      DropsSeenLater(r.hist, Bound(ks), r.pos);
    }
  }

  lemma JobNameOfCopy(k: Key, pl: Place, r: Remote, p: Pass)
    requires HistOk(k, pl, r.hist) && SnapshotOk(k, pl, r, p)
    ensures JobNameOf(p.csr) == JobAt(k, pl) && KeyOf(p.csr) == k
    ensures Deleting(p.csr) <==> Deleting(p.original)
  {
    var v := p.original.meta.resourceVersion;
    assert EntryOk(k, pl, v, r.hist[v]);
  }

  lemma AfterJobKeeps(k: Key, pl: Place, ks: KeyState, p: Pass, job: Option<Job>, result: Result<Job>)
    requires Inv(k, pl, ks) && ks.pass == Some(p)
    requires !Deleting(p.original) && p.csr.meta.finalizers == Add(p.original.meta.finalizers)
    requires job.Some? ==> job.value.name == JobAt(k, pl)
    requires result.Ok? ==> result.value.name == JobAt(k, pl)
    ensures Inv(k, pl, ks.(job := job, pass := InFlight(AfterJob(p, result))))
  {
    match result
    case Ok(j) => FinishKeeps(k, pl, ks, p, WithJob(p.csr, j.name), job, None);
    case Err(e) => FinishKeeps(k, pl, ks, p, p.csr, job, Some(e));
  }

  lemma AfterServiceKeeps(k: Key, pl: Place, ks: KeyState, p: Pass, svc: Resources.Service)
    requires Inv(k, pl, ks) && ks.pass == Some(p)
    requires !Deleting(p.original) && p.csr.meta.finalizers == Add(p.original.meta.finalizers)
    ensures Inv(k, pl, ks.(pass := InFlight(AfterService(p, svc))))
  {
    if svc.domain == "" { FinishKeeps(k, pl, ks, p, p.csr, ks.job, Some(NoDomain)); }
  }

  lemma ServiceStepKeeps(k: Key, image: string, pl: Place, ks: KeyState, reply: Reply)
    requires Inv(k, pl, ks) && ks.pass.Some? && ks.pass.value.pc.AtCreateService?
    ensures Inv(k, pl, Moved(ServiceStep(ks, ks.pass.value, image, reply)))
  {
    var p := ks.pass.value;
    var mid := ks.(remote := ServiceStep(ks, p, image, reply).remote);
    assert Inv(k, pl, mid);
    if reply.Fault? {
      FinishKeeps(k, pl, mid, p, p.csr, ks.job, Some(ServiceCall));
    } else if ks.remote.svc.Some? {
      FinishKeeps(k, pl, mid, p, p.csr, ks.job, Some(ServiceExists));
    } else {
      AfterServiceKeeps(k, pl, mid, p, Resources.MakeService(p.csr, image));
    }
  }

  lemma GetJobKeeps(k: Key, pl: Place, ks: KeyState, reply: Reply)
    requires Inv(k, pl, ks) && ks.pass.Some? && ks.pass.value.pc.AtGetJob?
    ensures Inv(k, pl, Moved(GetJobStep(ks, ks.pass.value, reply)))
  {
    var p := ks.pass.value;
    FinishKeeps(k, pl, ks, p, p.csr, ks.job, Some(if reply.Fault? then JobCall else MissingHttpTarget));
    if ks.job.Some? { AfterJobKeeps(k, pl, ks, p, ks.job, Ok(ks.job.value)); }
  }

  lemma WriteJobKeeps(k: Key, image: string, pl: Place, ks: KeyState, reply: Reply)
    requires Inv(k, pl, ks) && ks.pass.Some?
    requires ks.pass.value.pc.AtUpdateJob? || ks.pass.value.pc.AtCreateJob?
    ensures Inv(k, pl, KeyStep(k, image, ks, Reply(reply)))
  {
    var p := ks.pass.value;
    JobNameOfCopy(k, pl, ks.remote, p);
    var wanted := CreateJobProto(JobNameOf(p.csr), p.csr.spec, p.pc.url);
    var out := if p.pc.AtUpdateJob? then UpdateJob(ks.job, wanted, reply) else CreateJob(ks.job, wanted, reply);
    AfterJobKeeps(k, pl, ks, p, out.stored, out.result);
  }

  lemma DeleteKeeps(k: Key, image: string, pl: Place, ks: KeyState, reply: Reply)
    requires Inv(k, pl, ks) && ks.pass.Some? && ks.pass.value.pc.AtDeleteJob?
    ensures Inv(k, pl, KeyStep(k, image, ks, Reply(reply)))
  {
    var p := ks.pass.value;
    var (stored, err) := DeleteJob(ks.job, reply);
    var csr := if err.Some? then p.csr else WithFinalizers(p.csr, Remove(p.csr.meta.finalizers));
    FinishKeeps(k, pl, ks, p, csr, stored, err);
  }

  lemma GetServiceKeeps(k: Key, image: string, pl: Place, ks: KeyState, reply: Reply)
    requires Inv(k, pl, ks) && ks.pass.Some? && ks.pass.value.pc.AtGetService?
    ensures Inv(k, pl, KeyStep(k, image, ks, Reply(reply)))
  {
    var p := ks.pass.value;
    if reply.Fault? {
      FinishKeeps(k, pl, ks, p, p.csr, ks.job, Some(ServiceCall));
    } else if ks.remote.svc.Some? {
      AfterServiceKeeps(k, pl, ks, p, ks.remote.svc.value);
    }
  }

  lemma ReplyKeeps(k: Key, image: string, pl: Place, ks: KeyState, reply: Reply)
    requires Inv(k, pl, ks) && ks.pass.Some?
    ensures Inv(k, pl, KeyStep(k, image, ks, Reply(reply)))
  {
    match ks.pass.value.pc
    case AtSink =>
    case AtDeleteJob => DeleteKeeps(k, image, pl, ks, reply);
    case AtReread => RereadKeeps(k, image, pl, ks, reply);
    case AtWrite(_) => WriteKeeps(k, image, pl, ks, reply);
    case AtCreateService => ServiceStepKeeps(k, image, pl, ks, reply);
    case AtGetJob(_) => GetJobKeeps(k, pl, ks, reply);
    case AtUpdateJob(_) => WriteJobKeeps(k, image, pl, ks, reply);
    case AtCreateJob(_) => WriteJobKeeps(k, image, pl, ks, reply);
    case AtGetService => GetServiceKeeps(k, image, pl, ks, reply);
  }

  /** Every allowed step keeps the invariant. */
  lemma StepKeeps(k: Key, image: string, pl: Place, ks: KeyState, a: Action)
    requires Inv(k, pl, ks) && Allowed(pl, ks, a)
    ensures Inv(k, pl, KeyStep(k, image, ks, a))
  {
    match a
    case Env(e) => EnvKeeps(k, pl, ks, e);
    case Begin => BeginKeeps(k, image, pl, ks);
    case Look(fetched) => LookKeeps(k, image, pl, ks, fetched);
    case Reply(reply) =>
      if ks.pass.Some? { ReplyKeeps(k, image, pl, ks, reply); }
  }
}
