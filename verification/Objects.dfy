/** CloudSchedulerSources as objects that share memory, and the generated deep copies. */
module Objects {
  import opened Prelude
  import opened Types

  class ObjectReference {
    var apiVersion: string
    var kind: string
    var name: string

    constructor (apiVersion: string, kind: string, name: string)
      ensures Value() == ObjectRef(apiVersion, kind, name)
    {
      this.apiVersion, this.kind, this.name := apiVersion, kind, name;
    }

    function Value(): ObjectRef
      reads this
    {
      ObjectRef(apiVersion, kind, name)
    }
  }

  /** A source in memory. The finalizer list and the sink are reached through pointers, which may be nil. */
  class CloudSchedulerSource {
    var namespace: string
    var name: string
    var uid: nat
    var resourceVersion: nat
    var deletionTimestamp: Option<nat>
    var labels: map<string, string>
    var finalizers: array?<string>

    var serviceAccountName: string
    var googleCloudProject: string
    var location: string
    var schedule: string
    var timeZone: string
    var httpMethod: string
    var body: string
    var sink: ObjectReference?

    var status: Status

    /** The zero value. */
    constructor ()
      ensures finalizers == null && sink == null
    {
      namespace, name, uid, resourceVersion, deletionTimestamp, labels := "", "", 0, 0, None, map[];
      finalizers, sink := null, null;
      serviceAccountName, googleCloudProject, location, schedule := "", "", "", "";
      timeZone, httpMethod, body := "", "", "";
      status := Status("", "");
    }

    /** A source decoded from an answer of the API server. */
    constructor Decoded(o: Source)
      ensures fresh(Pointers())
      ensures Value() == o
    {
      namespace, name, uid, resourceVersion := o.meta.namespace, o.meta.name, o.meta.uid, o.meta.resourceVersion;
      deletionTimestamp, labels := o.meta.deletionTimestamp, o.meta.labels;
      serviceAccountName, googleCloudProject, location := o.spec.serviceAccountName, o.spec.project, o.spec.location;
      schedule, timeZone, httpMethod, body := o.spec.schedule, o.spec.timeZone, o.spec.httpMethod, o.spec.body;
      status := o.status;
      var list: array?<string> := null;
      if o.meta.finalizers.Slice? {
        var elems := o.meta.finalizers.elems;
        list := new string[|elems|](i requires 0 <= i < |elems| => elems[i]);
        assert list[..] == elems;
      }
      var ref: ObjectReference? := null;
      if o.spec.sink.Some? {
        ref := new ObjectReference(o.spec.sink.value.apiVersion, o.spec.sink.value.kind, o.spec.sink.value.name);
      }
      finalizers, sink := list, ref;
    }

    /** What is reached through the pointers of this object. */
    ghost function Pointers(): set<object>
      reads this
    {
      (if finalizers == null then {} else {finalizers as object}) + (if sink == null then {} else {sink as object})
    }

    ghost function Footprint(): set<object>
      reads this
    {
      {this as object} + Pointers()
    }

    function FinalizerList(): Strings
      reads this, finalizers
    {
      if finalizers == null then NilSlice else Slice(finalizers[..])
    }

    function MetaValue(): Meta
      reads this, finalizers
    {
      Meta(namespace, name, uid, resourceVersion, deletionTimestamp, labels, FinalizerList())
    }

    function SpecValue(): Spec
      reads this, sink
    {
      Spec(serviceAccountName, googleCloudProject, location, schedule, timeZone, httpMethod, body,
           if sink == null then None else Some(sink.Value()))
    }

    function Value(): Source
      reads this, finalizers, sink
    {
      Source(MetaValue(), SpecValue(), status)
    }

    /** A list of strings in fresh memory; nil stays nil. */
    static method CopyStrings(list: array?<string>) returns (copied: array?<string>)
      ensures copied == null <==> list == null
      ensures copied != null ==> fresh(copied) && copied[..] == list[..]
    {
      copied := null;
      if list != null {
        copied := new string[list.Length](i requires 0 <= i < list.Length reads list => list[i]);
        assert copied[..] == list[..];
      }
    }

    /** ObjectMeta.DeepCopyInto. */
    method DeepCopyMetaInto(out: CloudSchedulerSource)
      requires out != this
      modifies out`namespace, out`name, out`uid, out`resourceVersion, out`deletionTimestamp, out`labels, out`finalizers
      ensures out.MetaValue() == MetaValue()
      ensures out.finalizers != null ==> fresh(out.finalizers)
    {
      out.namespace, out.name, out.uid, out.resourceVersion := namespace, name, uid, resourceVersion;
      out.deletionTimestamp, out.labels := deletionTimestamp, labels;
      var copied := CopyStrings(finalizers);
      out.finalizers := copied;
    }

    /** CloudSchedulerSourceSpec.DeepCopyInto. */
    method DeepCopySpecInto(out: CloudSchedulerSource)
      requires out != this
      modifies out`serviceAccountName, out`googleCloudProject, out`location, out`schedule, out`timeZone
      modifies out`httpMethod, out`body, out`sink
      ensures out.SpecValue() == SpecValue()
      ensures out.sink != null ==> fresh(out.sink)
    {
      out.serviceAccountName, out.googleCloudProject, out.location := serviceAccountName, googleCloudProject, location;
      out.schedule, out.timeZone, out.httpMethod, out.body := schedule, timeZone, httpMethod, body;
      var copied: ObjectReference? := null;
      if sink != null {
        copied := new ObjectReference(sink.apiVersion, sink.kind, sink.name);
      }
      out.sink := copied;
    }

    /** CloudSchedulerSource.DeepCopyInto: the same value, and no memory shared. */
    method DeepCopyInto(out: CloudSchedulerSource)
      requires out != this
      modifies out
      ensures out.Value() == Value() && Value() == old(Value())
      ensures fresh(out.Pointers())
    {
      DeepCopyMetaInto(out);
      DeepCopySpecInto(out);
      out.status := status;
    }

    /** CloudSchedulerSource.DeepCopy. */
    method DeepCopy() returns (out: CloudSchedulerSource)
      ensures fresh(out) && fresh(out.Pointers())
      ensures out.Value() == Value()
    {
      out := new CloudSchedulerSource();
      DeepCopyInto(out);
    }
  }

  /** A list of sources in memory; a nil item array is not the empty one. */
  class CloudSchedulerSourceList {
    var resourceVersion: string
    var items: array?<CloudSchedulerSource?>

    constructor ()
      ensures items == null
    {
      resourceVersion, items := "", null;
    }

    /** Every slot of the item array is filled, as in an array of structs. */
    ghost predicate Filled()
      reads this, items
    {
      items != null ==> forall i :: 0 <= i < items.Length ==> items[i] != null
    }

    /** A slot that holds this value, in this memory. */
    static ghost predicate Holds(slot: CloudSchedulerSource?, value: Source, region: set<object>)
      reads slot, if slot == null then {} else slot.Footprint()
    {
      && slot != null && slot.Footprint() == region
      && (assert slot.finalizers != null ==> slot.finalizers in slot.Pointers();
          assert slot.sink != null ==> slot.sink in slot.Pointers();
          slot.Value() == value)
    }

    /** One slot: a new source, filled by DeepCopyInto. */
    static method CopySlot(item: CloudSchedulerSource, to: array<CloudSchedulerSource?>, i: nat)
      returns (ghost region: set<object>)
      requires i < to.Length
      modifies to
      ensures to[..] == old(to[..])[i := to[i]]
      ensures Holds(to[i], old(item.Value()), region)
      ensures fresh(region)
    {
      var copied := item.DeepCopy();
      to[i] := copied;
      region := copied.Footprint();
    }

    /** The regions are pairwise disjoint parts of the memory in use. */
    static ghost predicate Apart(regions: seq<set<object>>, used: set<object>) {
      && (forall j :: 0 <= j < |regions| ==> regions[j] <= used)
      && (forall j, l :: 0 <= j < l < |regions| ==> regions[j] !! regions[l])
    }

    static lemma ApartGrows(regions: seq<set<object>>, used: set<object>, region: set<object>)
      requires Apart(regions, used) && region !! used
      ensures Apart(regions + [region], used + region)
    {
    }

    /**
     * The loop over the items: each slot holds a source that was copied into fresh memory. The copies have the same
     * values, in the same order, and share no finalizer list or sink with anything that existed before.
     */
    static method DeepCopyItems(from: array<CloudSchedulerSource?>)
      returns (to: array<CloudSchedulerSource?>, ghost regions: seq<set<object>>)
      requires forall i :: 0 <= i < from.Length ==> from[i] != null
      ensures fresh(to) && to.Length == from.Length == |regions|
      ensures forall i :: 0 <= i < from.Length ==> Holds(to[i], old(from[i].Value()), regions[i])
      ensures forall i :: 0 <= i < from.Length ==> fresh(regions[i])
      ensures forall i, j :: 0 <= i < j < from.Length ==> regions[i] !! regions[j]
    {
      to := new CloudSchedulerSource?[from.Length](_ => null);
      regions := [];
      ghost var used: set<object> := {};
      for i := 0 to from.Length
        invariant fresh(to) && fresh(used) && to !in used && |regions| == i
        invariant forall j :: 0 <= j < i ==> Holds(to[j], old(from[j].Value()), regions[j])
        invariant Apart(regions, used)
      {
        ghost var region := CopySlot(from[i], to, i);
        ApartGrows(regions, used, region);
        regions, used := regions + [region], used + region;
      }
    }

    /** Copying the list copies every item; a nil item array stays nil. */
    method DeepCopy() returns (out: CloudSchedulerSourceList)
      requires Filled()
      ensures fresh(out) && out.Filled()
      ensures out.resourceVersion == resourceVersion
      ensures (out.items == null) == (items == null)
      ensures items != null ==>
                && fresh(out.items) && out.items.Length == items.Length
                && forall i :: 0 <= i < items.Length ==>
                     && fresh(out.items[i].Footprint()) && out.items[i].Value() == old(items[i].Value())
      ensures items != null ==> forall i, j :: 0 <= i < j < items.Length ==>
                out.items[i].Footprint() !! out.items[j].Footprint()
    {
      out := new CloudSchedulerSourceList();
      out.resourceVersion := resourceVersion;
      if items != null {
        var copied, _ := DeepCopyItems(items);
        out.items := copied;
      }
    }
  }
}
