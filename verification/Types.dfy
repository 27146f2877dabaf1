/** The entities of the CloudSchedulerSource controller, as values. */
module Types {
  import opened Prelude

  /** The name under which the controller guards its sources. */
  const FINALIZER_NAME := "cloudschedulersource-controller"

  datatype Key = Key(namespace: string, name: string)

  /** A Go string slice: nil and the empty slice are different values. */
  datatype Strings = NilSlice | Slice(elems: seq<string>)

  function Items(s: Strings): seq<string> {
    if s.NilSlice? then [] else s.elems
  }

  /** How the API server hands out a list: an empty one is omitted, and decodes as nil. */
  function Stored(xs: seq<string>): Strings {
    if xs == [] then NilSlice else Slice(xs)
  }

  datatype ObjectRef = ObjectRef(apiVersion: string, kind: string, name: string)

  datatype Spec = Spec(
    serviceAccountName: string,
    project: string,
    location: string,
    schedule: string,
    timeZone: string,
    httpMethod: string,
    body: string,
    sink: Option<ObjectRef>)

  datatype Status = Status(job: string, sinkURI: string)

  datatype Meta = Meta(
    namespace: string,
    name: string,
    uid: nat,
    resourceVersion: nat,
    deletionTimestamp: Option<nat>,
    labels: map<string, string>,
    finalizers: Strings)

  datatype Source = Source(meta: Meta, spec: Spec, status: Status)

  function KeyOf(o: Source): Key {
    Key(o.meta.namespace, o.meta.name)
  }

  predicate Deleting(o: Source) {
    o.meta.deletionTimestamp.Some?
  }

  function WithFinalizers(o: Source, f: Strings): Source {
    o.(meta := o.meta.(finalizers := f))
  }

  /** Does this server entry carry the controller's finalizer? */
  predicate Guarded(o: Option<Source>) {
    o.Some? && FINALIZER_NAME in Items(o.value.meta.finalizers)
  }

  /** equality.Semantic.DeepEqual on metadata: nil and empty lists are the same. */
  predicate SameMeta(a: Meta, b: Meta) {
    a.(finalizers := NilSlice) == b.(finalizers := NilSlice) && Items(a.finalizers) == Items(b.finalizers)
  }

  /** The test that decides whether a pass writes its source back. */
  predicate Untouched(original: Source, csr: Source) {
    original.status == csr.status && SameMeta(original.meta, csr.meta)
  }

  datatype Error =
    | NoSinkRef
    | NoResource
    | SinkFetch
    | SinkDecode
    | NoAddress
    | EmptyHostname
    | ServiceCall
    | ServiceExists
    | NoDomain
    | JobCall
    | JobExists
    | JobMissing
    | MissingHttpTarget
    | ListerCall
    | NotFound
    | UpdateCall
    | Conflict

  datatype Result<+T> = Ok(value: T) | Err(error: Error)
}
