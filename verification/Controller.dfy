/** The reconciler as it runs: objects in memory, an informer's cache of pointers, and the stores behind the clients. */
module Controller {
  import opened Prelude
  import opened Types
  import opened Names
  import opened Finalizers
  import Sinks
  import Resources
  import opened Jobs
  import opened Remotes
  import opened Protocol
  import opened Passes
  import opened Objects

  // ----- sets.String -----

  /** sets.NewString: an entry for every item of the list, which may be nil. */
  method NewString(items: array?<string>) returns (s: set<string>)
    ensures s == if items == null then {} else SetOf(items[..])
  {
    s := {};
    if items != null {
      for i := 0 to items.Length
        invariant s == SetOf(items[..i])
      {
        assert items[..i + 1] == items[..i] + [items[i]];
        s := s + {items[i]};
      }
      assert items[..items.Length] == items[..];
    }
  }

  /** sort.Sort on distinct names. */
  method Sort(xs: seq<string>) returns (sorted: seq<string>)
    ensures ListOf(sorted, SetOf(xs))
  {
    sorted := [];
    for i := 0 to |xs|
      invariant ListOf(sorted, SetOf(xs[..i]))
    {
      InsertCorrect(xs[i], sorted, SetOf(xs[..i]));
      sorted := Insert(xs[i], sorted);
      assert xs[..i + 1] == xs[..i] + [xs[i]];
      assert SetOf(xs[..i + 1]) == SetOf(xs[..i]) + {xs[i]};
    }
    assert xs[..|xs|] == xs;
  }

  /** sets.String.List: the keys in whatever order the map yields them, sorted into a new slice. */
  method List(s: set<string>) returns (res: array<string>)
    ensures fresh(res)
    ensures ListOf(res[..], s) && Ascending(res[..])
  {
    var keys: seq<string> := [];
    var rest := s;
    while rest != {}
      invariant SetOf(keys) + rest == s
      decreases rest
    {
      var key :| key in rest;
      assert SetOf(keys + [key]) == SetOf(keys) + {key};
      keys, rest := keys + [key], rest - {key};
    }
    var sorted := Sort(keys);
    res := new string[|sorted|](i requires 0 <= i < |sorted| => sorted[i]);
    assert res[..] == sorted;
    SortedIsAscending(sorted);
  }

  // ----- the reconciler -----

  ghost predicate Keyed(k: Key, r: Remote) {
    forall v :: 0 <= v < |r.hist| && r.hist[v].Some? ==> KeyOf(r.hist[v].value) == k
  }

  lemma {:induction false} DriftKeyed(k: Key, r: Remote, es: seq<EnvAction>)
    requires Keyed(k, r) && Sane(r)
    ensures Keyed(k, Drift(k, r, es)) && Sane(Drift(k, r, es))
    decreases |es|
  {
    if es != [] {
      var r' := EnvStep(k, r, es[0]);
      assert Current(r).Some? ==> KeyOf(Current(r).value) == k;
      assert Keyed(k, r');
      DriftKeyed(k, r', es[1..]);
    }
  }

  class Reconciler {
    const raImage: string

    /** The API server, the informer's progress, and the Services, by namespace and name. */
    var remotes: map<Key, Remote>

    /** The Cloud Scheduler jobs, by name. */
    var jobs: map<string, Job>

    /** The informer's cache: pointers that are shared with every reader. */
    var indexer: map<string, CloudSchedulerSource>

    /** Every object in the cache, and all that is reached from it. */
    ghost var cacheRepr: set<object>

    /** A cached object, and what it points to, belongs to the cache. */
    ghost predicate Held(c: string)
      requires c in indexer
      reads this`indexer, this`cacheRepr, cacheRepr
    {
      indexer[c] in cacheRepr && indexer[c].Pointers() <= cacheRepr
    }

    /** The cache shows the version of k that the informer has reached. */
    ghost predicate Shows(k: Key)
      requires k in remotes
      requires forall c {:trigger Held(c)} :: c in indexer ==> Held(c)
      reads this`remotes, this`indexer, this`cacheRepr, cacheRepr
    {
      match Cached(remotes[k])
      case None => CacheKey(k) !in indexer
      case Some(o) =>
        && CacheKey(k) in indexer
        && var c := indexer[CacheKey(k)];
           assert Held(CacheKey(k));
           assert c.finalizers != null ==> c.finalizers in c.Pointers();
           assert c.sink != null ==> c.sink in c.Pointers();
           c.Value() == o
    }

    /** A cache key belongs to a source that has a history. */
    predicate Names(c: string)
      reads this`remotes
    {
      SplitKey(c).Some? && SplitKey(c).value in remotes && CacheKey(SplitKey(c).value) == c
    }

    /** The histories are those of namespaced sources, and the informer has a place in each. */
    ghost predicate Tracked(k: Key)
      requires k in remotes
      reads this`remotes
    {
      SlashFree(k.namespace) && SlashFree(k.name) && Sane(remotes[k]) && Keyed(k, remotes[k])
    }

    ghost predicate Valid()
      reads this`remotes, this`indexer, this`cacheRepr, cacheRepr
    {
      && this !in cacheRepr
      && (forall c {:trigger Held(c)} :: c in indexer ==> Held(c))
      && (forall k {:trigger Tracked(k)} :: k in remotes ==> Tracked(k))
      && (forall k {:trigger Shows(k)} :: k in remotes ==> Shows(k))
      && (forall c {:trigger Names(c)} :: c in indexer ==> Names(c))
    }

    function RemoteAt(k: Key): Remote
      reads this`remotes
    {
      if k in remotes then remotes[k] else EMPTY_REMOTE
    }

    /** The stores that belong to a source with this key and this job name. */
    function StoresAt(k: Key, n: string): Stores
      reads this
    {
      Stores(RemoteAt(k), Lookup(jobs, n))
    }

    constructor (image: string)
      ensures Valid() && raImage == image && remotes == map[] && jobs == map[]
    {
      raImage := image;
      remotes, jobs, indexer, cacheRepr := map[], map[], map[], {};
    }

    /** The informer learns of a version of a source: it replaces the pointer in its cache. */
    method Deliver(k: Key, r: Remote, fetched: CloudSchedulerSource)
      requires Valid() && k in remotes
      requires Sane(r) && Keyed(k, r) && Cached(r) == Some(fetched.Value())
      requires this !in fetched.Footprint()
      modifies this
      ensures Valid()
      ensures remotes == old(remotes)[k := r] && jobs == old(jobs)
      ensures cacheRepr == old(cacheRepr) + fetched.Footprint()
    {
      assert Tracked(k);
      remotes, indexer := remotes[k := r], indexer[CacheKey(k) := fetched];
      cacheRepr := cacheRepr + fetched.Footprint();
      OthersKept(k);
      CacheKeySplits(k);
    }

    /** The informer learns that a source is gone: it drops the pointer from its cache. */
    method Forget(k: Key, r: Remote)
      requires Valid() && k in remotes
      requires Sane(r) && Keyed(k, r) && Cached(r).None?
      modifies this
      ensures Valid()
      ensures remotes == old(remotes)[k := r] && jobs == old(jobs) && cacheRepr == old(cacheRepr)
    {
      assert Tracked(k);
      remotes, indexer := remotes[k := r], indexer - {CacheKey(k)};
      OthersKept(k);
    }

    /** When the cache changes at one key, it is as it was everywhere else. */
    twostate lemma OthersKept(k: Key)
      requires old(Valid()) && k in old(remotes) && SlashFree(k.namespace) && SlashFree(k.name)
      requires remotes.Keys == old(remotes).Keys
      requires forall l :: l in remotes && l != k ==> remotes[l] == old(remotes)[l]
      requires forall c :: c != CacheKey(k) ==> Lookup(indexer, c) == Lookup(old(indexer), c)
      requires old(cacheRepr) <= cacheRepr && unchanged(old(cacheRepr))
      ensures forall c {:trigger Held(c)} :: c in indexer && c != CacheKey(k) ==> Held(c)
      ensures forall c {:trigger Names(c)} :: c in indexer && c != CacheKey(k) ==> Names(c)
      ensures forall l {:trigger Tracked(l)} :: l in remotes && l != k ==> Tracked(l)
      ensures (CacheKey(k) in indexer ==> Held(CacheKey(k))) ==>
                forall l {:trigger Shows(l)} :: l in remotes && l != k ==> Shows(l)
    {
      forall c | c in indexer && c != CacheKey(k) ensures Held(c) && Names(c) {
        assert Lookup(indexer, c) == Lookup(old(indexer), c);
        assert old(Held(c)) && old(Names(c));
      }
      forall l | l in remotes && l != k ensures Tracked(l) {
        assert old(Tracked(l));
      }
      if CacheKey(k) in indexer ==> Held(CacheKey(k)) {
        forall l | l in remotes && l != k ensures Shows(l) {
          assert old(Tracked(l)) && old(Shows(l));
          CacheKeyInjective(k, l);
          assert Lookup(indexer, CacheKey(l)) == Lookup(old(indexer), CacheKey(l));
          assert CacheKey(l) in indexer ==> old(Held(CacheKey(l)));
        }
      }
    }

    /** What other parties do to one source; the cache follows, and never writes through its pointers. */
    method Interfere(k: Key, es: seq<EnvAction>)
      requires Valid() && k in remotes
      modifies this
      ensures Valid()
      ensures remotes == old(remotes)[k := Drift(k, old(remotes[k]), es)] && jobs == old(jobs)
      ensures old(cacheRepr) <= cacheRepr && fresh(cacheRepr - old(cacheRepr))
    {
      var r := Drift(k, remotes[k], es);
      assert Tracked(k);
      DriftKeyed(k, remotes[k], es);
      if Cached(r).Some? {
        var fetched := new CloudSchedulerSource.Decoded(Cached(r).value);
        Deliver(k, r, fetched);
      } else {
        Forget(k, r);
      }
    }

    /** The namespace lister's Get: a pointer into the cache. */
    method Get(namespace: string, name: string, reply: Reply) returns (o: CloudSchedulerSource?, err: Option<Error>)
      requires Valid()
      ensures var cached := Cached(RemoteAt(Key(namespace, name)));
              && err == (if reply.Fault? then Some(ListerCall) else if cached.None? then Some(NotFound) else None)
              && (err.Some? <==> o == null)
      ensures o != null ==>
                && Key(namespace, name) in remotes
                && o in cacheRepr && o.Pointers() <= cacheRepr
                && Some(o.Value()) == Cached(remotes[Key(namespace, name)])
                && KeyOf(o.Value()) == Key(namespace, name)
    {
      o, err := null, Some(ListerCall);
      if reply.Answer? {
        var c := namespace + "/" + name;
        var k := Key(namespace, name);
        assert c == CacheKey(k);
        assert k in remotes ==> Shows(k) && Tracked(k);
        if c in indexer {
          assert Names(c) && Held(c);
          assert Tracked(SplitKey(c).value);
          CacheKeyUnique(SplitKey(c).value, k);
          o, err := indexer[c], None;
        } else {
          err := Some(NotFound);
        }
      }
    }

    // ----- the clients of the stores -----

    /** A store of one source moves on, and the cache does not see it yet. */
    method Store(k: Key, r: Remote)
      requires Valid() && k in remotes
      requires Sane(r) && Keyed(k, r) && Cached(r) == Cached(remotes[k])
      modifies this`remotes
      ensures Valid()
      ensures remotes == old(remotes)[k := r]
    {
      remotes := remotes[k := r];
      forall c | c in indexer ensures Held(c) && Names(c) {
        assert old(Held(c)) && old(Names(c));
      }
      forall l | l in remotes ensures Tracked(l) && Shows(l) {
        assert old(Tracked(l)) && old(Shows(l));
      }
    }

    /** The Create request of the serving client. */
    method RequestService(k: Key, made: Resources.Service, reply: Reply) returns (result: Result<Resources.Service>)
      requires Valid() && k in remotes
      modifies this`remotes
      ensures Valid()
      ensures remotes == old(remotes)[k := CreateService(old(remotes[k]), made, reply).remote]
      ensures result == CreateService(old(remotes[k]), made, reply).result
    {
      var out := CreateService(remotes[k], made, reply);
      assert Tracked(k);
      Store(k, out.remote);
      result := out.result;
    }

    /** The Update request of the source client. */
    method RequestUpdate(next: Source, reply: Reply) returns (err: Option<Error>)
      requires Valid() && KeyOf(next) in remotes
      modifies this`remotes
      ensures Valid()
      ensures var k, sent := KeyOf(next), SendUpdate(old(remotes[KeyOf(next)]), next, reply);
              remotes == old(remotes)[k := sent.0] && err == sent.1
    {
      var k := KeyOf(next);
      var sent := SendUpdate(remotes[k], next, reply);
      assert Tracked(k);
      Store(k, sent.0);
      err := sent.1;
    }

    // ----- the reconciler's own methods -----

    method AddFinalizer(csr: CloudSchedulerSource)
      modifies csr`finalizers
      ensures csr.Value() == WithFinalizers(old(csr.Value()), Add(old(csr.FinalizerList())))
      ensures csr.finalizers != null && fresh(csr.finalizers)
    {
      var finalizers := NewString(csr.finalizers);
      finalizers := finalizers + {FINALIZER_NAME};
      var list := List(finalizers);
      AddCorrect(csr.FinalizerList());
      ListUnique(list[..], Items(Add(csr.FinalizerList())), finalizers);
      csr.finalizers := list;
    }

    method RemoveFinalizer(csr: CloudSchedulerSource)
      modifies csr`finalizers
      ensures csr.Value() == WithFinalizers(old(csr.Value()), Remove(old(csr.FinalizerList())))
      ensures csr.finalizers != null && fresh(csr.finalizers)
    {
      var finalizers := NewString(csr.finalizers);
      finalizers := finalizers - {FINALIZER_NAME};
      var list := List(finalizers);
      RemoveCorrect(csr.FinalizerList());
      ListUnique(list[..], Items(Remove(csr.FinalizerList())), finalizers);
      csr.finalizers := list;
    }

    method ReconcileService(csr: CloudSchedulerSource, sc: Script) returns (result: Result<Resources.Service>)
      requires Valid() && KeyOf(csr.Value()) in remotes
      modifies this
      ensures Valid() && jobs == old(jobs)
      ensures old(cacheRepr) <= cacheRepr && fresh(cacheRepr - old(cacheRepr))
      ensures var k := KeyOf(csr.Value());
              var out := Passes.ReconcileService(k, raImage, old(remotes)[k], csr.Value(), sc);
              remotes == old(remotes)[k := out.remote] && result == out.result
    {
      var k := Key(csr.namespace, csr.name);
      Interfere(k, sc.beforeGet);
      if sc.getService.Fault? {
        return Err(ServiceCall);
      }
      var existing := remotes[k].svc;
      if existing.Some? {
        return Ok(existing.value);
      }
      Interfere(k, sc.beforeCreate);
      var ksvc := Resources.MakeService(csr.Value(), raImage);
      result := RequestService(k, ksvc, sc.createService);
    }

    method ReconcileJob(csr: CloudSchedulerSource, target: string, sc: Script) returns (result: Result<Job>)
      requires Valid()
      modifies this`jobs
      ensures Valid()
      ensures var n := JobNameOf(csr.Value());
              var out := Jobs.ReconcileJob(Lookup(old(jobs), n), CreateJobProto(n, csr.SpecValue(), target),
                                      sc.getJob, sc.updateJob, sc.createJob);
              jobs == Assign(old(jobs), n, out.stored) && result == out.result
    {
      var spec := csr.SpecValue();
      var parent := Parent(spec.project, spec.location);
      var jobName := parent + "/jobs/" + csr.name;
      AssignSame(jobs, jobName);
      if sc.getJob.Fault? {
        return Err(JobCall);
      }
      if jobName in jobs {
        var existing := jobs[jobName];
        if !existing.target.Http? {
          return Err(MissingHttpTarget);
        }
        var updated := CreateJobProto(jobName, spec, target);
        var was, now := existing.target.http, updated.target.http;
        if updated.schedule != existing.schedule || updated.timeZone != existing.timeZone
          || now.body != was.body || now.httpMethod != was.httpMethod
        {
          if Lands(sc.updateJob) {
            jobs := jobs[jobName := updated];
          }
          return if sc.updateJob.Answer? then Ok(updated) else Err(JobCall);
        }
        return Ok(existing);
      }
      var created := CreateJobProto(jobName, spec, target);
      if Lands(sc.createJob) {
        jobs := jobs[jobName := created];
      }
      return if sc.createJob.Answer? then Ok(created) else Err(JobCall);
    }

    method DeleteJob(csr: CloudSchedulerSource, sc: Script) returns (err: Option<Error>)
      requires Valid()
      modifies this`jobs
      ensures Valid()
      ensures var n := JobNameOf(csr.Value());
              var out := Jobs.DeleteJob(Lookup(old(jobs), n), sc.deleteJob);
              jobs == Assign(old(jobs), n, out.0) && err == out.1
    {
      var spec := csr.SpecValue();
      var jobName := Parent(spec.project, spec.location) + "/jobs/" + csr.name;
      AssignSame(jobs, jobName);
      if Lands(sc.deleteJob) {
        jobs := jobs - {jobName};
      }
      err := if sc.deleteJob.Fault? then Some(JobCall) else None;
    }

    /** The object that update sends: a copy of the cached one, which takes over the status and the finalizer slice. */
    method Merge(csr: CloudSchedulerSource, desired: CloudSchedulerSource) returns (existing: CloudSchedulerSource)
      ensures fresh(existing) && existing.Value() == Merged(csr.Value(), desired.Value())
    {
      existing := csr.DeepCopy();
      existing.status := desired.status;
      existing.finalizers := desired.finalizers;
    }

    method Update(desired: CloudSchedulerSource, sc: Script) returns (err: Option<Error>)
      requires Valid() && KeyOf(desired.Value()) in remotes
      modifies this
      ensures Valid() && jobs == old(jobs)
      ensures old(cacheRepr) <= cacheRepr && fresh(cacheRepr - old(cacheRepr))
      ensures var k := KeyOf(desired.Value());
              var out := WriteBack(k, old(remotes)[k], desired.Value(), sc);
              remotes == old(remotes)[k := out.0] && err == out.1
    {
      Interfere(Key(desired.namespace, desired.name), sc.beforeReread);
      err := WriteOver(desired, sc);
    }

    /** update, from its look into the cache on. */
    method WriteOver(desired: CloudSchedulerSource, sc: Script) returns (err: Option<Error>)
      requires Valid() && KeyOf(desired.Value()) in remotes
      modifies this
      ensures Valid() && jobs == old(jobs)
      ensures old(cacheRepr) <= cacheRepr && fresh(cacheRepr - old(cacheRepr))
      ensures var k := KeyOf(desired.Value());
              var out := Passes.WriteOver(k, old(remotes)[k], desired.Value(), sc);
              remotes == old(remotes)[k := out.0] && err == out.1
    {
      var csr, getErr := Get(desired.namespace, desired.name, sc.reread);
      if getErr.Some? {
        return getErr;
      }
      if csr.status == desired.status && csr.MetaValue() == desired.MetaValue() {
        return None;
      }
      var existing := Merge(csr, desired);
      err := Send(existing.Value(), sc);
    }

    /** client.Update: the object goes over the wire, while others act. */
    method Send(next: Source, sc: Script) returns (err: Option<Error>)
      requires Valid() && KeyOf(next) in remotes
      modifies this
      ensures Valid() && jobs == old(jobs)
      ensures old(cacheRepr) <= cacheRepr && fresh(cacheRepr - old(cacheRepr))
      ensures var k := KeyOf(next);
              var out := SendUpdate(Drift(k, old(remotes)[k], sc.beforeWrite), next, sc.write);
              remotes == old(remotes)[k := out.0] && err == out.1
    {
      Interfere(KeyOf(next), sc.beforeWrite);
      err := RequestUpdate(next, sc.write);
    }

    /** reconcileCloudSchedulerSource once the Service has been reconciled. */
    method ReconcileWithDomain(csr: CloudSchedulerSource, ksvc: Resources.Service, sc: Script)
      returns (err: Option<Error>)
      requires Valid() && csr !in cacheRepr
      modifies this`jobs, csr`status
      ensures Valid()
      ensures var n := JobNameOf(old(csr.Value()));
              var st := Stores(EMPTY_REMOTE, Lookup(old(jobs), n));
              var out := Passes.ReconcileWithDomain(st, old(csr.Value()), ksvc, sc);
              jobs == Assign(old(jobs), n, out.stores.job) && csr.Value() == out.csr && err == out.err
    {
      AssignSame(jobs, JobNameOf(csr.Value()));
      if ksvc.domain == "" {
        return Some(NoDomain);
      }
      var job := ReconcileJob(csr, Sinks.HttpUrl(ksvc.domain), sc);
      if job.Err? {
        return Some(job.error);
      }
      csr.status := csr.status.(job := job.value.name);
      return None;
    }

    /** reconcileCloudSchedulerSource on a source that is not being deleted, with its sink resolved. */
    method ReconcileLive(csr: CloudSchedulerSource, uri: string, sc: Script) returns (err: Option<Error>)
      requires Valid() && csr !in cacheRepr && KeyOf(csr.Value()) in remotes
      modifies this, csr
      ensures Valid()
      ensures old(cacheRepr) <= cacheRepr && fresh(cacheRepr - old(cacheRepr))
      ensures var k, n := KeyOf(old(csr.Value())), JobNameOf(old(csr.Value()));
              var out := Passes.ReconcileLive(k, raImage, old(StoresAt(k, n)), old(csr.Value()), uri, sc);
              && remotes == old(remotes)[k := out.stores.remote]
              && jobs == Assign(old(jobs), n, out.stores.job)
              && csr.Value() == out.csr && err == out.err
    {
      AddFinalizer(csr);
      csr.status := csr.status.(sinkURI := uri);
      err := ReconcilePrepared(csr, sc);
    }

    /** The part of reconcileCloudSchedulerSource that follows the assignment of SinkURI. */
    method ReconcilePrepared(csr: CloudSchedulerSource, sc: Script) returns (err: Option<Error>)
      requires Valid() && csr !in cacheRepr && KeyOf(csr.Value()) in remotes
      modifies this, csr`status
      ensures Valid()
      ensures old(cacheRepr) <= cacheRepr && fresh(cacheRepr - old(cacheRepr))
      ensures var k, n := KeyOf(old(csr.Value())), JobNameOf(old(csr.Value()));
              var out := Passes.ReconcilePrepared(k, raImage, old(StoresAt(k, n)), old(csr.Value()), sc);
              && remotes == old(remotes)[k := out.stores.remote]
              && jobs == Assign(old(jobs), n, out.stores.job)
              && csr.Value() == out.csr && err == out.err
    {
      AssignSame(jobs, JobNameOf(csr.Value()));
      var ksvc := ReconcileService(csr, sc);
      if ksvc.Err? {
        return Some(ksvc.error);
      }
      err := ReconcileWithDomain(csr, ksvc.value, sc);
    }

    method ReconcileCloudSchedulerSource(csr: CloudSchedulerSource, sc: Script) returns (err: Option<Error>)
      requires Valid() && csr !in cacheRepr && KeyOf(csr.Value()) in remotes
      modifies this, csr
      ensures Valid()
      ensures old(cacheRepr) <= cacheRepr && fresh(cacheRepr - old(cacheRepr))
      ensures var k, n := KeyOf(old(csr.Value())), JobNameOf(old(csr.Value()));
              var out := Passes.ReconcileSource(k, raImage, old(StoresAt(k, n)), old(csr.Value()), sc);
              && remotes == old(remotes)[k := out.stores.remote]
              && jobs == Assign(old(jobs), n, out.stores.job)
              && csr.Value() == out.csr && err == out.err
    {
      AssignSame(jobs, JobNameOf(csr.Value()));
      var deletionTimestamp := csr.deletionTimestamp;
      var uri := Sinks.GetSinkURI(csr.SpecValue().sink, sc.fetched);
      if uri.Err? && deletionTimestamp.None? {
        return Some(uri.error);
      }
      if deletionTimestamp.Some? {
        err := DeleteJob(csr, sc);
        if err.None? {
          RemoveFinalizer(csr);
        }
        return err;
      }
      err := ReconcileLive(csr, uri.value, sc);
    }

    /**
     * Reconcile. For every key and everything that the pass meets, the stores move as ReconcileKey says, no other
     * source is touched, and nothing that can be reached from the cache is written to.
     */
    method Reconcile(key: string, sc: Script) returns (err: Option<Error>)
      requires Valid()
      modifies this
      ensures Valid() && unchanged(old(cacheRepr))
      ensures SplitKey(key).None? ==> err.None? && remotes == old(remotes) && jobs == old(jobs)
      ensures SplitKey(key).Some? ==>
                var k := SplitKey(key).value;
                var cached := Cached(old(RemoteAt(k)));
                var n := if cached.Some? then JobNameOf(cached.value) else "";
                var out := ReconcileKey(k, raImage, old(StoresAt(k, n)), sc);
                && remotes == (if k in old(remotes) then old(remotes)[k := out.stores.remote] else old(remotes))
                && jobs == Assign(old(jobs), n, out.stores.job)
                && err == out.err
    {
      var split := SplitKey(key);
      if split.None? {
        return None;
      }
      err := ReconcileNamed(split.value.namespace, split.value.name, sc);
    }

    method ReconcileNamed(namespace: string, name: string, sc: Script) returns (err: Option<Error>)
      requires Valid()
      modifies this
      ensures Valid()
      ensures var k := Key(namespace, name);
              var cached := Cached(old(RemoteAt(k)));
              var n := if cached.Some? then JobNameOf(cached.value) else "";
              var out := ReconcileKey(k, raImage, old(StoresAt(k, n)), sc);
              && remotes == (if k in old(remotes) then old(remotes)[k := out.stores.remote] else old(remotes))
              && jobs == Assign(old(jobs), n, out.stores.job)
              && err == out.err
    {
      ghost var cached := Cached(RemoteAt(Key(namespace, name)));
      AssignSame(jobs, if cached.Some? then JobNameOf(cached.value) else "");
      var original, getErr := Get(namespace, name, sc.list);
      if getErr == Some(NotFound) {
        return None;
      }
      if getErr.Some? {
        return getErr;
      }
      err := ReconcileObject(original, sc);
    }

    /** Reconcile, with the pointer that the cache has handed out. */
    method ReconcileObject(original: CloudSchedulerSource, sc: Script) returns (err: Option<Error>)
      requires Valid() && original in cacheRepr && original.Pointers() <= cacheRepr
      requires KeyOf(original.Value()) in remotes
      modifies this
      ensures Valid()
      ensures var k, n := KeyOf(original.Value()), JobNameOf(original.Value());
              var rec := Passes.ReconcileSource(k, raImage, old(StoresAt(k, n)), original.Value(), sc);
              var out := FinishPass(k, original.Value(), rec, sc);
              && remotes == old(remotes)[k := out.stores.remote]
              && jobs == Assign(old(jobs), n, out.stores.job)
              && err == out.err
    {
      var csr := original.DeepCopy();
      ghost var rec;
      err, rec := ReconcileCopy(original, csr, sc);
    }

    method ReconcileCopy(original: CloudSchedulerSource, csr: CloudSchedulerSource, sc: Script)
      returns (err: Option<Error>, ghost rec: Reconciled)
      requires Valid() && original != csr && csr !in cacheRepr && csr.Value() == original.Value()
      requires KeyOf(original.Value()) in remotes
      modifies this, csr
      ensures Valid()
      ensures var o := old(original.Value());
              var k, n := KeyOf(o), JobNameOf(o);
              var out := FinishPass(k, o, rec, sc);
              && rec == Passes.ReconcileSource(k, raImage, old(StoresAt(k, n)), o, sc)
              && remotes == old(remotes)[k := out.stores.remote]
              && jobs == Assign(old(jobs), n, out.stores.job)
              && err == out.err
    {
      ghost var o := original.Value();
      ghost var k, n := KeyOf(o), JobNameOf(o);
      rec := Passes.ReconcileSource(k, raImage, StoresAt(k, n), o, sc);
      assert KeyOf(rec.csr) == k by { CopyKeepsKey(k, raImage, StoresAt(k, n), o, sc); }
      err := ReconcileCloudSchedulerSource(csr, sc);
      err := Finish(original, csr, err, sc, o, rec.csr);
    }

    /** The end of Reconcile: the copy is written back if it differs from the original. */
    method Finish(original: CloudSchedulerSource, csr: CloudSchedulerSource, recErr: Option<Error>, sc: Script,
                  ghost was: Source, ghost now: Source)
      returns (err: Option<Error>)
      requires Valid() && was == original.Value() && now == csr.Value() && KeyOf(now) in remotes
      modifies this
      ensures Valid() && jobs == old(jobs)
      ensures var rec := Reconciled(Stores(old(remotes)[KeyOf(now)], None), now, recErr);
              var out := FinishPass(KeyOf(now), was, rec, sc);
              remotes == old(remotes)[KeyOf(now) := out.stores.remote] && err == out.err
    {
      err := recErr;
      if !Untouched(original.Value(), csr.Value()) {
        var updateErr := Update(csr, sc);
        if updateErr.Some? {
          return updateErr;
        }
      }
    }
  }
}
