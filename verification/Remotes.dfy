/**
 * What the world outside the controller holds for one source: its history on the API server, how far the
 * informer's cache has followed that history, and its Knative Service.
 */
module Remotes {
  import opened Prelude
  import opened Types
  import Resources

  /**
   * hist[v] is the source as of resource version v, or None where it does not exist. The API server holds the
   * last entry; the cache holds the entry at pos, which never moves back.
   */
  datatype Remote = Remote(hist: seq<Option<Source>>, pos: nat, svc: Option<Resources.Service>)

  const EMPTY_REMOTE := Remote([None], 0, None)

  predicate Sane(r: Remote) {
    r.hist != [] && r.pos < |r.hist|
  }

  function Current(r: Remote): Option<Source> {
    if r.hist == [] then None else r.hist[|r.hist| - 1]
  }

  function Cached(r: Remote): Option<Source> {
    if r.pos < |r.hist| then r.hist[r.pos] else None
  }

  function Append(r: Remote, e: Option<Source>): Remote {
    r.(hist := r.hist + [e])
  }

  /** What the API server stores for o: a deleting object without finalizers goes away. */
  function Admitted(r: Remote, o: Source): Option<Source> {
    if Deleting(o) && Items(o.meta.finalizers) == [] then None
    else Some(o.(meta := o.meta.(resourceVersion := |r.hist|, finalizers := Stored(Items(o.meta.finalizers)))))
  }

  /** An update is accepted when it carries the resource version of the stored object. */
  predicate Accepts(r: Remote, o: Source) {
    Current(r).Some? && Current(r).value.meta.resourceVersion == o.meta.resourceVersion
  }

  /** The API server's Update: it stores all of o, or rejects it. */
  function Update(r: Remote, o: Source): Remote {
    if Accepts(r, o) then Append(r, Admitted(r, o)) else r
  }

  /** What other parties do. A step that the API server would reject changes nothing. */
  datatype EnvAction =
    | Create(spec: Spec, labels: map<string, string>, finalizers: seq<string>)
    | Edit(spec: Spec, labels: map<string, string>)
    | SetFinalizers(finalizers: seq<string>)
    | Delete(time: nat)
    | Sync(to: nat)
    | GainDomain(domain: string)
    | DropService

  function NewSource(k: Key, uid: nat, spec: Spec, labels: map<string, string>, finalizers: seq<string>): Source {
    Source(Meta(k.namespace, k.name, uid, uid, None, labels, Stored(finalizers)), spec, Status("", ""))
  }

  function EnvStep(k: Key, r: Remote, a: EnvAction): Remote {
    var cur := Current(r);
    match a
    case Create(spec, labels, finalizers) =>
      if cur.Some? then r else Append(r, Some(NewSource(k, |r.hist|, spec, labels, finalizers)))
    case Edit(spec, labels) =>
      if cur.None? then r
      else Append(r, Admitted(r, cur.value.(spec := spec, meta := cur.value.meta.(labels := labels))))
    case SetFinalizers(finalizers) =>
      if cur.None? then r else Append(r, Admitted(r, WithFinalizers(cur.value, Slice(finalizers))))
    case Delete(time) =>
      if cur.None? || Deleting(cur.value) then r
      else Append(r, Admitted(r, cur.value.(meta := cur.value.meta.(deletionTimestamp := Some(time)))))
    case Sync(to) =>
      if r.pos < to < |r.hist| then r.(pos := to) else r
    case GainDomain(domain) =>
      if r.svc.None? then r else r.(svc := Some(r.svc.value.(domain := domain)))
    case DropService =>
      r.(svc := None)
  }

  /** Several such steps, one after the other. */
  function Drift(k: Key, r: Remote, actions: seq<EnvAction>): Remote
    decreases |actions|
  {
    if actions == [] then r else Drift(k, EnvStep(k, r, actions[0]), actions[1..])
  }
}
