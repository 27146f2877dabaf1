# The CloudSchedulerSource controller, modelled and proved in Dafny

A CloudSchedulerSource asks for a Google Cloud Scheduler job that calls a Knative Service, which in turn sends
events to a sink. The controller keeps four stores in agreement: the source objects on the Kubernetes API server, the
informer's cache of them (which lags behind), the Knative Services, and the remote jobs. This project models that
controller at four levels and proves that they agree:

1. `Protocol` and `Cluster`: a step system. Every remote call of a pass is one step, which is answered truthfully or
   fails, and a failing call may or may not have taken effect. Between any two calls users create, edit and delete
   sources, other parties edit their finalizers, the cache moves on, Services gain domains or vanish, and passes on
   other keys run, with any number of workers.
2. `Passes`: a whole pass as one function of the stores and of everything that the pass meets. `PassIsRun` shows
   that it is a run of the step system, and that the work queue hears the same of both; `PassInCluster` places it among all other sources.
3. `Objects` and `Controller`: the code as it runs, on objects that share memory: deep copies, an informer's cache of
   pointers, finalizer slices, and methods that change the stores. Each method is proved equal to its function of
   level 2.
4. What holds of all runs: `Invariants`; `Orphans`, `Safety`, `ForeignFinalizers`, `Provenance` and `Calls`, about
   any interleaving; `Answers`, about the error or the success that a pass reports, and what it has done by then; `Convergence` and `FixedPoints`, about passes that nobody disturbs; and `Interleaving`, which carries
   those over to runs of the cluster in which everything else goes on. `Orphaning`, `Crossing` and `Overwriting` are
   concrete runs in which something desirable fails, put together with `Scenarios`.

`Finalizers`, `Names`, `Sinks`, `Resources`, `Jobs` and `Remotes` are the parts that the levels share.

The hypotheses of the theorems over runs are these:

- `EnvAllowed`: the project and the location of a source never change, and nobody but the controller adds or removes
  the controller's finalizer.
- `EnvAction`: there is no step in which anyone else writes the status of a source, and a new source has an empty one;
  there is none in which anyone else writes a job, and a Service only gains a domain or is dropped.
- `DistinctJobs`: no two sources share a job name. `DistinctJobsIff` says when that is so; job names omit the namespace.
- `Init`: a run starts with no sources, no passes, and no job under the name of a managed source.

Three desirable properties fail without a further condition. For each there is a theorem that gives the exact
condition, and a concrete run, in which no call fails, that violates it:

- A job can outlive its source. The finalizer is put into the copy before the job is made, but it reaches the server
  only at the end of the pass, and that write can be lost (`NoOrphanedJobs`, `OrphanedJob`). The repository's README
  promises that the job is deleted when the source is (README.md:14); the code keeps that promise exactly in the runs
  that lose no such write.
- A live source can report a job without carrying the finalizer: a cleaned-up copy can land on the source that was
  created in place of the deleted one (`StatusSound`, `CrossedStatus`).
- Finalizers of other parties can be overwritten, because `update` takes the finalizers from the first read and the
  version from the second. At worst a pass that still saw the earlier incarnation takes away its successor, which a
  foreign finalizer was holding (`ForeignRuns`, `ForeignLost`).

The same README tells of the Service being made after the job (README.md:19-21). The code makes the Service first, and
the model follows the code.

## Model

| member | source | states |
|---|---|---|
| Orphans.NoOrphanedJobs | pkg/reconciler/cloudschedulersource/cloudschedulersource.go:164-240 | In every state of every run, under any interleaving and any failing calls, each job has its source on the server with the finalizer or a pass in flight that is yet to write it; this holds exactly when no step loses the first write of the finalizer while the job is there. |
| Orphans.CoverStep | pkg/reconciler/cloudschedulersource/cloudschedulersource.go:143-422 | Of all steps of users, cache, Services, workers and failing calls, exactly the lost first write of the finalizer uncovers a job. |
| Orphans.GuardEndures | pkg/reconciler/cloudschedulersource/cloudschedulersource.go:152-164 | If a pass read its source alive and with the finalizer, then the same incarnation is still on the server with the finalizer, however stale that read was. |
| Orphans.RereadDiffers | pkg/reconciler/cloudschedulersource/cloudschedulersource.go:406-421 | Whenever update is called and finds the source, its strict comparison finds a difference: the branch that skips the write is never taken. |
| Orphaning.OrphanedJob | pkg/reconciler/cloudschedulersource/cloudschedulersource.go:164-177 | A concrete run, in which every call succeeds, that ends with a job but no source and no pass. |
| Orphans.CoveredUnlessWriteFails | pkg/reconciler/cloudschedulersource/cloudschedulersource.go:406-419 | Told by the failing branches of update alone: if no write back fails of a pass that read its source alive and without the finalizer, no job is ever uncovered. |
| Safety.FinalizerGate | pkg/reconciler/cloudschedulersource/cloudschedulersource.go:198-206 | Whatever step takes the controller's finalizer off the server is the write of a pass that saw a deletion and had its DeleteJob answered with success or NotFound; and the job is absent at that moment. |
| Safety.FailedDeleteStops | pkg/reconciler/cloudschedulersource/cloudschedulersource.go:362-392 | Any other outcome of DeleteJob ends the pass and leaves the source on the server as it is, even if the job did get deleted. |
| Safety.NoResurrection | pkg/reconciler/cloudschedulersource/cloudschedulersource.go:152-206 | Once an incarnation that carried the finalizer has lost it or is gone, no pass on it creates or updates a job, however stale the cache. |
| Safety.SafeWrites | pkg/reconciler/cloudschedulersource/cloudschedulersource.go:406-419 | An Update that lands keeps spec, deletion timestamp and all metadata but finalizers and version, although status and finalizers stem from an older read than the rest; or it removes a deleting source, which happens only where the copy has no finalizer left, whatever the server holds. |
| Safety.AcceptedIff | pkg/reconciler/cloudschedulersource/cloudschedulersource.go:406-419 | An Update is accepted if and only if the server still holds the version found by the second read. |
| ForeignFinalizers.ForeignConserved | pkg/reconciler/cloudschedulersource/cloudschedulersource.go:394-419 | An Update that lands, also one that removes the object, keeps the foreign finalizers if and only if the server still holds those that the pass read first. |
| ForeignFinalizers.ForeignRuns | pkg/reconciler/cloudschedulersource/cloudschedulersource.go:394-419 | Over a run, foreign finalizers change by other parties' steps alone, exactly when no Update lands whose pass read other ones first. |
| ForeignFinalizers.EditedBetweenReads | pkg/reconciler/cloudschedulersource/cloudschedulersource.go:406-419 | They are overwritten only if some version after the first read, up to the second one, has edited them. |
| Overwriting.ForeignLost | pkg/reconciler/cloudschedulersource/cloudschedulersource.go:406-419 | A concrete run of three passes, in which every call succeeds, whose last write takes away a source that a foreign finalizer is holding. |
| Safety.StatusNamesOwnJob | pkg/reconciler/cloudschedulersource/cloudschedulersource.go:230-240 | Every version of a source that was ever stored reports no job, or its own job's name. |
| Safety.StatusSound | pkg/reconciler/cloudschedulersource/cloudschedulersource.go:198-240 | In every state of a run each live source that reports a job carries the finalizer, exactly when no cleaned-up copy lands on a live source. |
| Safety.StatusStep | pkg/reconciler/cloudschedulersource/cloudschedulersource.go:406-419 | The one kind of step that breaks this is a write that crosses from one incarnation to a later one. |
| Crossing.CrossedStatus | pkg/reconciler/cloudschedulersource/cloudschedulersource.go:406-419 | A concrete run of four passes, in which every call succeeds, after which a live source reports a job and lacks the finalizer. |
| Provenance.ServiceHistory | pkg/reconciler/cloudschedulersource/cloudschedulersource.go:210-257 | In every reachable state a Service is the one that some pass of the run made: SINK and --sink are the URI to which that very pass had resolved its sink, owner and account are those of the live version it had read; and no step of the controller changes it. |
| Provenance.JobHistory | pkg/reconciler/cloudschedulersource/cloudschedulersource.go:221-360 | In every reachable state a job has, field by field, what the live version asked for that was read by the pass that wrote it last: schedule, time zone or UTC, body, and the method that reads back from its number, or POST; it calls the root of the domain that this pass had found, and carries nothing else. |
| Provenance.ServiceUnderPass | pkg/reconciler/cloudschedulersource/cloudschedulersource.go:243-257 | A pass leaves an existing Service alone, and makes a missing one from its own copy. |
| Invariants.StepKeeps | pkg/reconciler/cloudschedulersource/cloudschedulersource.go:143-422 | Every allowed step keeps the invariant that ties history, cache position, job and in-flight pass together, among it: a dropped finalizer implies that the cache has shown the deletion. |
| Invariants.LandingGuards | pkg/reconciler/cloudschedulersource/cloudschedulersource.go:394-419 | A landing write leaves the source guarded if and only if its pass had read a live source; if it takes the finalizer off, the cache had shown that very incarnation being deleted. |
| Cluster.RunInv | pkg/reconciler/cloudschedulersource/cloudschedulersource.go:143-422 | The invariant holds in every state of every run, for all sources at once. |
| Cluster.StepFrame | pkg/reconciler/cloudschedulersource/cloudschedulersource.go:143-178 | A step on one key is that key's own step, and leaves everything of every other key alone. |
| Cluster.RunProjects | pkg/reconciler/cloudschedulersource/cloudschedulersource.go:143-178 | A run of the whole cluster does to each key what that key's own steps do in isolation. |
| Cluster.AllowedProjects | pkg/reconciler/cloudschedulersource/cloudschedulersource.go:143-178 | A run is allowed if and only if it is allowed key by key. |
| Cluster.OrderBetweenKeys | pkg/reconciler/cloudschedulersource/cloudschedulersource.go:143-178 | Any two runs with the same steps on each key, in any order between keys, end in the same state. |
| Cluster.Serialisable | cmd/controller/main.go:40-42 | Any interleaving of the steps on two keys, as by two workers, ends in the same state as all steps on one key followed by all steps on the other. |
| Cluster.DistinctJobsIff | pkg/reconciler/cloudschedulersource/cloudschedulersource.go:260-261 | Job names are distinct exactly when same-named sources never share project and location. |
| Cluster.OtherJobsKept | pkg/reconciler/cloudschedulersource/cloudschedulersource.go:259-392 | No run touches a job under a name that no managed source has. |
| Passes.PassIsRun | pkg/reconciler/cloudschedulersource/cloudschedulersource.go:143-422 | A pass as one function of the stores equals the run of its remote calls as steps, with all that others do in between: it leaves the same stores, and the work queue hears the one error, or the success, that the pass returns. |
| Deployment.PassInCluster | pkg/reconciler/cloudschedulersource/cloudschedulersource.go:143-178 | In every reachable state a whole pass on an idle source is an allowed run of the cluster that leaves behind what the pass function says and touches no other source. |
| Deployment.InvReady | pkg/reconciler/cloudschedulersource/cloudschedulersource.go:143-178 | Every idle source in a reachable state meets the starting condition of the convergence theorems. |
| Convergence.WriteBound | pkg/reconciler/cloudschedulersource/cloudschedulersource.go:161-240 | From any live source, over any number of passes with failing calls, at most one Service create, one job write and two Updates take effect. |
| Convergence.OnePassSettles | pkg/reconciler/cloudschedulersource/cloudschedulersource.go:208-326 | Once the Service has a domain, a single pass without faults reaches the fixed point, from any live source, exactly when there is no existing job without HTTP target. |
| FixedPoints.Quiescence | pkg/reconciler/cloudschedulersource/cloudschedulersource.go:166-173 | At the fixed point any number of passes, with failing calls or not, send no request that writes, do not even call update, and change nothing. |
| FixedPoints.DeletingQuiescence | pkg/reconciler/cloudschedulersource/cloudschedulersource.go:198-206 | While others hold a released source back, any number of passes send no request that writes but DeleteJob for the absent job, and change nothing. |
| FixedPoints.NilListIsUntouched | pkg/reconciler/cloudschedulersource/cloudschedulersource.go:166-167 | The empty list that removeFinalizer makes of a nil one differs strictly, but not for the outer comparison. |
| Convergence.DeletionTerminates | pkg/reconciler/cloudschedulersource/cloudschedulersource.go:180-206 | A deleted source ends up without job and finalizer exactly when some pass has got its DeleteJob and its Update through, however many have failed before, and whether or not the sink resolves. |
| Convergence.MovedSinkIsKept | pkg/reconciler/cloudschedulersource/cloudschedulersource.go:245-250 | A moved sink reaches the status of the source but never an existing Service. |
| Convergence.CalmLive | pkg/reconciler/cloudschedulersource/cloudschedulersource.go:143-241 | What a pass without interference leaves of the history, the job and the Service, whichever calls fail. |
| Convergence.CalmDeleting | pkg/reconciler/cloudschedulersource/cloudschedulersource.go:180-206 | The same for a deleted source, whose sink plays no part. |
| Interleaving.WriteBoundInCluster | pkg/reconciler/cloudschedulersource/cloudschedulersource.go:161-240 | The write bound for one source of a cluster run, with any allowed steps on all other sources in between. |
| Interleaving.OnePassSettlesInCluster | pkg/reconciler/cloudschedulersource/cloudschedulersource.go:208-326 | In reachable states one pass without faults settles a source whose Service has a domain, with no condition on the job. |
| Interleaving.QuiescenceInCluster | pkg/reconciler/cloudschedulersource/cloudschedulersource.go:166-173 | A settled source of a cluster run stays as it is over any number of passes on it. |
| Interleaving.DeletionTerminatesInCluster | pkg/reconciler/cloudschedulersource/cloudschedulersource.go:180-206 | A deleted source of a cluster run is cleaned up exactly when some pass on it gets its DeleteJob and its Update through. |
| Interleaving.SeriesPossible | pkg/reconciler/cloudschedulersource/cloudschedulersource.go:143-178 | From every state that satisfies the invariant, any idle source may undergo any such series of passes: the four theorems above are about runs that exist. |
| Interleaving.PassHeard | pkg/reconciler/cloudschedulersource/cloudschedulersource.go:143-178 | In a run of the cluster, what the work queue hears of one pass on a source is what the pass function returns. |
| Interleaving.SuccessInCluster | pkg/reconciler/cloudschedulersource/cloudschedulersource.go:143-241 | In a run of the cluster, an undisturbed pass that reports success has settled a live source, and cleaned up a deleted one. |
| Answers.UpdateAnswers | pkg/reconciler/cloudschedulersource/cloudschedulersource.go:406-422 | Whatever others do before either call, update succeeds exactly when its calls are answered and there was nothing to write or the server still held the version of the second read; success means that exactly the merged object was stored, and an answered failure that nothing was. |
| Answers.LiveAnswers | pkg/reconciler/cloudschedulersource/cloudschedulersource.go:143-241 | An undisturbed pass on a live source that reports success has resolved its sink and settled the source. |
| Answers.FaultlessAnswers | pkg/reconciler/cloudschedulersource/cloudschedulersource.go:208-240 | Without faults it reports success exactly when it settles the source, that is, when the Service has a domain and an existing job has an HTTP target; otherwise its error says which is amiss. |
| Answers.DeletingAnswers | pkg/reconciler/cloudschedulersource/cloudschedulersource.go:198-206 | A pass on a deleted source reports success exactly when its DeleteJob is answered and, unless there is nothing to trim, both calls of update; the source is then cleaned up. |
| Answers.UncachedAnswers | pkg/reconciler/cloudschedulersource/cloudschedulersource.go:151-159 | A key that is not in the cache is a success, a cache that cannot be read is an error; neither touches anything. |
| Answers.SuccessMeans | pkg/reconciler/cloudschedulersource/cloudschedulersource.go:143-422 | In any run, whatever the interleaving: success on a live source means that the job is there and fits the spec read, and that the source is on the server with the finalizer; success on a deleted one means that the job is gone, and the finalizer too if an Update was sent. |
| Answers.ClaimsEarned | pkg/reconciler/cloudschedulersource/cloudschedulersource.go:230-240 | In any run, an Update that lands for a pass that failed, or on a deleted source, keeps the job name in the status that the pass had read; for any other pass it leaves the source's own job name, while that job is there and fits the spec read. |
| Provenance.SinkReported | pkg/reconciler/cloudschedulersource/cloudschedulersource.go:185-210 | In any run, an Update that lands for a pass on a live source leaves in the status the URI to which that very pass had resolved the sink, also where the rest of the pass has failed. |
| Calls.RequestsJustified | pkg/reconciler/cloudschedulersource/cloudschedulersource.go:243-326 | In every reachable state a pass that is about to create finds nothing there, and one that is about to update finds a job that does not fit; no such request is ever refused. |
| Calls.FaultsReported | pkg/reconciler/cloudschedulersource/cloudschedulersource.go:143-422 | In any run, once a call of a pass has failed, with or without effect, the pass makes no calls but those of update and does not report success. |
| Jobs.CompareThenWrite | pkg/reconciler/cloudschedulersource/cloudschedulersource.go:259-326 | reconcileJob leaves the stored job or the wanted one. After success the stored job has the wanted name and agrees on schedule, time zone, body and method; it equals an unconditional put exactly when it was written or the uncompared fields agreed before. |
| Jobs.EditReachesJob | pkg/reconciler/cloudschedulersource/cloudschedulersource.go:284-303 | An edited spec is carried over in full exactly when the target has stayed or the job does not fit the new spec in one of its four fields; otherwise the job stays as it is. |
| Jobs.ProtoDescribes | pkg/reconciler/cloudschedulersource/cloudschedulersource.go:328-360 | createJobProto makes the one job whose every field reads back as the field of the spec or as its default. |
| Jobs.MethodReadsBack | pkg/reconciler/cloudschedulersource/cloudschedulersource.go:335-341 | The method number reads back to the method of the spec through the inverse table, and to POST for an empty or unknown name. |
| Jobs.ReconcileJobSucceeds | pkg/reconciler/cloudschedulersource/cloudschedulersource.go:275-326 | reconcileJob succeeds exactly when none of the calls that it makes fails and an existing job has an HTTP target. |
| Jobs.ReconcileJobSettles | pkg/reconciler/cloudschedulersource/cloudschedulersource.go:289-303 | A job that agrees is left alone by every later reconcileJob, whatever target and replies it gets. |
| Finalizers.ListUnique | pkg/reconciler/cloudschedulersource/cloudschedulersource.go:394-404 | A set of finalizers has exactly one strictly sorted list. |
| Finalizers.LessIsPrecedes | vendor/k8s.io/apimachinery/pkg/util/sets/string.go:201-203 | The order that sorts the lists is Go's: a proper prefix comes first, and else the smaller character where two strings first differ. |
| Finalizers.AddCorrect | pkg/reconciler/cloudschedulersource/cloudschedulersource.go:394-398 | addFinalizer gives the duplicate-free list, ascending in that order, of the old names and the controller's, whatever order and repetitions there were. |
| Finalizers.RemoveCorrect | pkg/reconciler/cloudschedulersource/cloudschedulersource.go:400-404 | removeFinalizer gives the duplicate-free list, ascending in that order, of the old names without the controller's. |
| Finalizers.AddFixed | pkg/reconciler/cloudschedulersource/cloudschedulersource.go:394-398 | addFinalizer leaves a list as it is if and only if that is sorted, without duplicates, and holds the name. |
| Finalizers.RemoveFixed | pkg/reconciler/cloudschedulersource/cloudschedulersource.go:400-404 | removeFinalizer leaves a list as it is if and only if that is sorted, without duplicates, and lacks the name. |
| Finalizers.FinalizerAlgebra | pkg/reconciler/cloudschedulersource/cloudschedulersource.go:394-404 | Both are idempotent; removing after adding is removing, and adding after removing is adding. |
| Finalizers.SameSetSameLists | pkg/reconciler/cloudschedulersource/cloudschedulersource.go:394-404 | Equal sets of names give equal lists. |
| Names.SplitJoin | pkg/reconciler/cloudschedulersource/cloudschedulersource.go:145 | Slash-free segments survive being joined with slashes and split again. |
| Names.JobNameParses | pkg/reconciler/cloudschedulersource/cloudschedulersource.go:260-261 | A job name reads back as its project, location and name if and only if all three are slash-free. |
| Names.JobNameInjective | pkg/reconciler/cloudschedulersource/cloudschedulersource.go:363-364 | On slash-free segments, equal job names mean equal project, location and name. |
| Names.JobNameCollision | pkg/reconciler/cloudschedulersource/cloudschedulersource.go:260-261 | With slashes, two different paths can share a job name. |
| Names.KeyRoundTrip | pkg/reconciler/cloudschedulersource/cloudschedulersource.go:145-152 | The lister looks up the very key that the work queue handed out if and only if that key holds one slash. |
| Names.SplitKeyCases | pkg/reconciler/cloudschedulersource/cloudschedulersource.go:145-149 | A key is taken for a name alone exactly when it has no slash, and is invalid exactly when it has two. |
| Names.CacheKeySplits | pkg/client/listers/cloudschedulersource/v1alpha1/cloudschedulersource.go:85-86 | The key that the lister builds splits back to its namespace and name if and only if both are slash-free. |
| Names.CacheKeyUnique | pkg/client/listers/cloudschedulersource/v1alpha1/cloudschedulersource.go:85-93 | A lookup with arbitrary strings hits the entry of a slash-free pair only if it asks for that pair. |
| Sinks.GetSinkURI | pkg/reconciler/cloudschedulersource/sinks.go:32-56 | It succeeds if and only if there is a reference to an object that decodes with a non-empty hostname; the URI is plain http, names that host, and ends in the root path. Each failure has its own cause. |
| Sinks.OneRoot | pkg/reconciler/cloudschedulersource/sinks.go:55 | A host has exactly one such URI; the target of a job is built in the same form. |
| Resources.MakeServiceSink | pkg/reconciler/cloudschedulersource/resources/service.go:32-70 | The Service belongs to its source and bears the adapter's label; its one variable SINK and its one argument --sink both read back as the SinkURI; it has no domain yet. |
| Resources.MakeServiceShows | pkg/reconciler/cloudschedulersource/resources/service.go:32-70 | Two Services are equal if and only if key, incarnation, service account, SinkURI and image are. |
| Objects.CloudSchedulerSource.DeepCopyInto | pkg/apis/cloudschedulersource/v1alpha1/zz_generated.deepcopy.go:29-36 | The target has the same value and reaches only fresh memory; the original keeps its value. |
| Objects.CloudSchedulerSource.DeepCopy | pkg/apis/cloudschedulersource/v1alpha1/zz_generated.deepcopy.go:39-46 | A new object of equal value, disjoint from all older memory. |
| Objects.CloudSchedulerSource.DeepCopySpecInto | pkg/apis/cloudschedulersource/v1alpha1/zz_generated.deepcopy.go:90-102 | The spec is copied, with fresh storage for a sink that is not nil; no other field is written. |
| Objects.CloudSchedulerSourceList.DeepCopyItems | pkg/apis/cloudschedulersource/v1alpha1/zz_generated.deepcopy.go:61-67 | The loop gives copies of equal value, in order, in fresh and pairwise disjoint memory. |
| Objects.CloudSchedulerSourceList.DeepCopy | pkg/apis/cloudschedulersource/v1alpha1/zz_generated.deepcopy.go:57-79 | A list of equal values and disjoint memory; a nil item list stays nil and is told from an empty one. |
| Controller.NewString | vendor/k8s.io/apimachinery/pkg/util/sets/string.go:30-36 | The set of the items of a list, which may be nil. |
| Controller.List | vendor/k8s.io/apimachinery/pkg/util/sets/string.go:168-175 | In whatever order the set is enumerated, the result is its one list that ascends in Go's string order, in fresh memory. |
| Controller.Reconciler.Get | pkg/client/listers/cloudschedulersource/v1alpha1/cloudschedulersource.go:85-93 | A pointer into the cache whose object is the version that the informer has reached; NotFound exactly if there is none there. |
| Controller.Reconciler.AddFinalizer | pkg/reconciler/cloudschedulersource/cloudschedulersource.go:394-398 | Only the finalizers of the object change, to a fresh list as Add says. |
| Controller.Reconciler.RemoveFinalizer | pkg/reconciler/cloudschedulersource/cloudschedulersource.go:400-404 | Only the finalizers of the object change, to a fresh list as Remove says. |
| Controller.Reconciler.ReconcileService | pkg/reconciler/cloudschedulersource/cloudschedulersource.go:243-257 | The store of Services and the result are those of the pass function; no other source is touched. |
| Controller.Reconciler.ReconcileJob | pkg/reconciler/cloudschedulersource/cloudschedulersource.go:259-326 | The job under the computed name becomes what the compare-then-write function says; every other job is unchanged. |
| Controller.Reconciler.DeleteJob | pkg/reconciler/cloudschedulersource/cloudschedulersource.go:362-392 | Only the job under the computed name can go, and an absent job counts as success. |
| Controller.Reconciler.Merge | pkg/reconciler/cloudschedulersource/cloudschedulersource.go:414-416 | The object to be sent takes status and finalizers from the copy, all else from the cache, in fresh memory. |
| Controller.Reconciler.Update | pkg/reconciler/cloudschedulersource/cloudschedulersource.go:406-422 | The history and the error are those of the pass function, on every path. |
| Controller.Reconciler.ReconcileCloudSchedulerSource | pkg/reconciler/cloudschedulersource/cloudschedulersource.go:180-241 | All stores, the copy and the error are those of the pass function. |
| Controller.Reconciler.Reconcile | pkg/reconciler/cloudschedulersource/cloudschedulersource.go:143-178 | For every queue key all stores move as the pass function says, no other source is touched, and no object, finalizer list or sink reachable from the cache is written to. |

## Left out

- Convergence.WriteBound: counts the writes that take effect; a request that fails without effect is sent again by a later pass, without bound.
- Convergence.DeletionTerminates: speaks of the passes that are run; that a failed key is queued again is up to the work queue, which is not part of this model.
- Interleaving.WriteBoundInCluster: as for the other theorems of that module, nobody else acts on the source itself during its passes, other than giving its Service a domain between them.
- Cluster.Serialisable: allows any number of workers where the controller has two; that no key is worked on twice at once is the work queue's rule, built into the step that begins a pass.
- Controller.Reconciler.Reconcile: other parties act at four places, before each call that looks at the source, the cache or the Service; the job calls in between look at none of these.
- Safety.SafeWrites: labels stand for all metadata that the controller only passes on; they are values here, so sharing of map memory is not modelled.
- Objects.CloudSchedulerSourceList.DeepCopy: the list's own metadata is its resource version only; copying through nil receivers, DeepCopyObject, and the copies of spec and status on their own are not modelled.
- Moving a changed sink or domain to an existing Service or job, cleaning up after a change of project or location, and telling apart same-named sources in one place: the code does not do these, so the last two are hypotheses and the first is shown not to happen.
- The API server's own validation of finalizers, and its habit of keeping the version of an object that an Update leaves equal: here every accepted Update makes a new version.
- Jobs that third parties edit or delete, edits to Services other than gaining a domain or being dropped, and writes of anyone else to the status of a source.
- A scheduler client that cannot be constructed is a failing first call without effect.
- What a sink reference resolves to is a reply of the cluster; decoding of duck types and the dynamic client are not modelled.
- Strings are sequences of characters in their own order; byte encodings are not modelled, nor is the meaning of cron schedules and time zones.
- The lister's List functions, the generated clients and informers, NewController, the receive adapter and the command-line programs, logging: little branching and no state of the protocol.
