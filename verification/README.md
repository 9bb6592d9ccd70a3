# Verified model of the Bucket operator

The operator provisions object-storage buckets for Kubernetes `Bucket` objects: a bucket, a
credentials group attributed to it, an isolation policy, one access key and a Secret. Many
Buckets are reconciled one pass at a time against one shared project; any call can fail, with or
without effect, listings lag, and the process can stop after any call. What the next pass has to
go by is bucket tags, bucket policy, annotation, status and Secret.

## How it is built

| file | content |
|---|---|
| `Policy.dfy` | the isolation policy as a document tree with deny semantics, the reader sanitizer, reading the workload principal back |
| `Resources.dfy` | provider and cluster state, Bucket accessors, ownership and attribution |
| `Errors.dfy`, `Health.dfy` | how errors are told apart; how long Ready is held through failures |
| `Protocol.dfy` | every write, the other side's rules for it (`Accepts`, `Effect`), the table of what the operator may ask for (`Licensed`), the invariant, and runs as chains of turns |
| `Frames.dfy` | what a step may change and what a pass works towards |
| `Reconciler.dfy` | the reconciler itself, class `BucketReconciler`, from `Reconcile` down to single calls |
| `Runs.dfy`, `Trust.dfy` | whole runs: what holds along every chain; the published credential along every chain |
| `Operation.dfy` | the operator at work: a driver that takes the reconciler through passes, events and restarts and records each step |
| `Courses.dfy` | what holds along every recorded course: convergence, teardown, credential, the bounds on holding Ready |
| `Breaker.dfy`, `KeyReload.dfy` | the two timed state machines |

`BucketReconciler.Write` is the only way to change the world, and its precondition is the licence
of that write in the world as it is at that moment. The passes are verified against it, so every
pass is a chain of licensed calls at every stopping point; the pure lemmas then reason about
chains. Besides its calls a pass keeps ghost records that `Trace` ties to them: the structured 404s
it heard, the keys it left loose, the name it froze, and the status it found. A pass asks `weather`
what becomes of each call: `Storm` may fail any call with any error, with or without effect, and
distort any listing; `Calm` lets every call through, though deleted groups may still be listed. A
process that stops is a pass whose remaining calls all fail without effect. Clock and breaker
admission are parameters of a pass.

Assumptions about the surroundings, all visible in `Happens`, `Outage`, `WriteOutage` and
`GetBucket`: the project starts empty; tags, policies and the admin Secret change only through the
operator; `GetBucket`, tag, policy and key-list reads are current, and a structured 404 of
`GetBucket` and any 404 of the keys endpoint are truthful, while a gateway's 404 page may answer
`GetBucket` and every call that creates or deletes a bucket or a group, whatever there is; distinct
group ids have distinct URNs and ids are not reused; outside events come between passes; namespaces
contain no slash.

Where code and comments differ the code is followed: reading the policy of a bucket without one
yields an empty document and no error.

Some statements hold only under a condition, and the model says which:
- a Ready end means a working credential unless some pass left a loose key, one that was minted
  and neither published nor taken back (`Trust.OrphanedKeyLooksSettled` exhibits a run into such a
  state, `Courses.TidyPassIsClean` says when a pass leaves none), or another Bucket published its
  key to the same Secret, which nothing forbids: the test for 'already provisioned' does not ask
  whose key it finds. `Trust.SharedSecretLooksPublished` exhibits such a run, without any loose
  key; `Trust.IntrusionSpoils` shows that every such call makes the credential fail, and
  `Trust.OwnSecretIsSafe` that there is none while no other Bucket names the same Secret;
- a failure-free pass is refused when the group recorded in status still exists while the bucket
  is not tagged with it (`Groupable`), as `Runs.InterruptedRecreateIsRefused` shows;
  `Runs.RunKeepsTracked` shows this cannot arise without a vanished bucket, as long as the Bucket
  is not being deleted;
- a teardown that lets its object go has removed everything except for what a lagging listing hid
  and what a gateway's 404 page spared: deleting the group and deleting the bucket count any 404 as
  success. `Courses.TeardownIsComplete` is the exact condition over all passes, `Runs.LetGoMeans`
  over one; `Runs.PagesPassForSuccess` exhibits all four combinations of the two calls, and
  `Courses.PlainTeardownIsComplete` shows that nothing else is in the way;
- the doubling cooldown follows the plain schedule exactly for caps below half the Duration range.

## Model

| member | source | states |
|---|---|---|
| `Operation.Operate` | internal/controller/bucket_controller.go:185-234 | any interleaving of passes over any Buckets, under any failures, lost answers, lags and stops, with any admissible outside events and restarts of the process in between, is a course: one recorded step per item, each from the world the one before it left, the first from the world at the start and the last to the world at the end, and each gone as `Reconcile` promises for that item's weather, clock and admission |
| `Operation.CourseIsChain` | internal/controller/bucket_controller.go:185-234 | the turns of a course, one after another, are a chain from its first world to its last, in which every call was licensed at the moment it was made; every lemma below about chains therefore speaks about the operator |
| `Operation.CourseIsSound` | internal/controller/bucket_controller.go:185-234 | every world of a course from a sound one is sound |
| `Operation.RunPass` | internal/controller/bucket_controller.go:185-234 | one pass of the reconciler yields a step that tells its trace, its end, what its last call wrote and what became of the world, in every case Reconcile distinguishes |
| `Runs.AttributionIsExclusive` | internal/controller/bucket_controller.go:983-1134 | at every point of every run from an empty project no two buckets' group tags name the same group and none names the admin group |
| `Runs.OnlyOwnGroupsAreTouched` | internal/controller/bucket_controller.go:1121-1134 | every key minted or deleted and every group deleted by a pass over k belongs to the admin group, to the group attributed to k's own bucket, or to a group made in that same pass |
| `Runs.OneKeyPerGroup` | internal/controller/bucket_controller.go:1183-1227 | no credentials group ever holds more than one key, wherever a pass stops and whichever calls fail with or without effect |
| `Runs.KeyedGroupsAreIsolated` | internal/controller/bucket_controller.go:519-625 | whenever an attributed group holds a key, the bucket's stored policy is the isolation policy of exactly that group and the admin, and what it denies is exactly everything outside the three lists |
| `Runs.RunsConverge` | internal/controller/bucket_controller.go:331-439 | after any run without vanished tagged buckets, a valid, non-cloning Bucket can converge if and only if it does not clone itself, its Secret can be written or needs no write, and its bucket is absent, its own, or untagged and empty |
| `Courses.ConvergeAndRest` | internal/controller/bucket_controller.go:331-439 | of two consecutive failure-free passes from a state that can converge the first ends Ready with everything settled and, if the group's key was the published one before, a working credential; the second makes exactly one write, the status report, and leaves provider and Secrets unchanged |
| `Courses.ReadyMeansWorking` | internal/controller/bucket_controller.go:1183-1227 | in any course, the creation and first pass of k included: a pass over k that ends Ready leaves the Secret's key live in the attributed group, as long as in the steps before it no pass over k left a loose key (one that its calls minted and neither published nor took back), no pass over another Bucket published to the Secret k names, and no event changed k's decided name or Secret reference, put another key into its Secret, or made k anew over a bucket carrying its tags |
| `Courses.TrustHolds` | internal/controller/bucket_controller.go:1183-1227 | through such steps the key in k's group, if there is one, stays the published one at every point |
| `Courses.TidyPassIsClean` | internal/controller/bucket_controller.go:1208-1227 | a failure-free pass leaves no loose key, and where failed calls have no effect a pass leaves one only if the call to take it back failed |
| `Protocol.LooseMeans` | internal/controller/bucket_controller.go:1208-1227 | the loose keys of a run are exactly the workload keys some call minted and no later call published or took back |
| `Trust.PassKeepsTrust` | internal/controller/bucket_controller.go:1380-1428 | a pass over another Bucket that publishes nothing to the Secret k names, and a teardown of k itself, keep the group's key the published one |
| `Trust.CallsKeepNaming` | internal/controller/bucket_controller.go:2142-2170 | no call of the operator changes the name a pass decides on, frozen yet or not, or lets two Buckets share a Secret |
| `Trust.OthersKeepTheCredential` | internal/controller/bucket_controller.go:983-1026 | between two passes over k the key in k's group stays the published one, as long as no call for another Bucket publishes to the Secret k names and every event leaves k's decided name and Secret reference alone and at most loses its Secret, or makes k anew over no bucket that carries its tags |
| `Trust.OwnSecretIsSafe` | internal/controller/bucket_controller.go:1183-1227 | as long as no other Bucket names the same Secret, no call for another Bucket publishes to it |
| `Trust.IntrusionSpoils` | internal/controller/bucket_controller.go:1183-1227 | the condition cannot be dropped: in every run from an empty project, once a call for another Bucket has published to the Secret k names, k has no working credential |
| `Trust.SharedSecretLooksPublished` | internal/controller/bucket_controller.go:1197-1199 | the 'already provisioned' test does not ask whose key the Secret holds: from a settled Bucket with a working credential, the loss of its Secret and another Bucket's pass that mints and publishes its key there, without any loose key, lead to a Bucket that a failure-free pass takes for provisioned and whose credential does not open it |
| `Trust.OrphanedKeyLooksSettled` | internal/controller/bucket_controller.go:1197-1199 | the 'already provisioned' test counts keys only: from a settled Bucket with a working credential, a key lost outside and a stop between minting and publishing its replacement, which leaves that key loose, lead to a settled, Ready Bucket whose Secret holds a dead key |
| `Runs.InterruptedRecreateIsRefused` | internal/controller/bucket_controller.go:1099-1114 | an allowRecreate pass that stops right after creating the bucket cannot converge any more while the recorded group exists |
| `Courses.FinishTeardown` | internal/controller/bucket_controller.go:279-326 | however many teardown passes were cut short, and wherever, one failure-free pass over the object removes bucket, attributed group, keys and Secret and drops the finalizer, even with deleted groups still listed |
| `Courses.TeardownIsComplete` | internal/controller/bucket_controller.go:1526-1592 | once the object is gone, bucket, attributed groups and Secret as they were before the first of any number of teardown passes are gone if and only if no pass let the object go past a bucket that the listing hid or the call to delete it spared, and none deleted the bucket after the call to delete its group spared that |
| `Courses.PlainTeardownIsComplete` | internal/controller/bucket_controller.go:1526-1592 | over passes in whose weather no gateway's 404 page turns up and whose listings do not hide the bucket, the object goes only once all of these are gone, whatever else failed and wherever passes were cut short |
| `Runs.LetGoMeans` | internal/controller/bucket_controller.go:1380-1428 | of a pass that let the object go with its bucket in view: bucket and group each remain if and only if the call to delete it found it and left it in place and no later one removed it, and everything is gone if and only if neither remains |
| `Runs.SurvivorWasSpared` | internal/controller/bucket_controller.go:1567-1592 | an attributed group outlives its bucket in a teardown pass if and only if the call to delete the group spared it; the bucket is never deleted without that call before it |
| `Runs.PagesPassForSuccess` | internal/controller/bucket_controller.go:1526-1592 | from every state in which a teardown is about to go through, each of the two DELETE calls may be spared by a gateway's page and the object still goes; what each left behind is exactly that, and a group whose bucket is gone is named by no bucket any more |
| `Runs.ObjectsGoOnlyByWipe` | internal/controller/bucket_controller.go:1445-1497 | an object or an older version disappears through the operator only by a removal under deletion request, wipeOnDelete, the operator-wide gate and matching ownership tags; a bucket that holds either does not disappear at all |
| `Runs.RecreationIsAuthorised` | internal/controller/bucket_controller.go:655-715 | a bucket comes into being only under the frozen name of a Bucket that is not being deleted, and once it was provisioned only with allowRecreate |
| `Runs.RecreationFollowsAnswer` | internal/controller/bucket_controller.go:655-715 | within a pass, a bucket that was provisioned once is created again only with allowRecreate and after the provider's own structured 404 about it, heard in that same pass while it was gone; nothing else, and no lagging listing, can stand in for that answer |
| `Runs.MissingMeansMissing` | internal/controller/bucket_controller.go:655-715 | the BucketMissing report is stored only of a bucket that is absent at that moment, whatever gateways, 5xx answers and listings said |
| `Runs.PoliciesLetInOnlyGrantees` | internal/controller/bucket_controller.go:1288-1353 | for arbitrary status and annotations: whoever a written policy does not deny is the admin, the bucket's own attributed group, or a group attributed to a bucket owned by a Bucket of this namespace named in grantReadAccess |
| `Runs.GrantedNamesMatchReaders` | internal/controller/bucket_controller.go:562-568 | at the end of a Ready pass status.grantedReadTo names exactly the readers of the policy in force, one name per principal |
| `Runs.CloneGateHolds` | internal/controller/bucket_controller.go:577-624 | in every run from an empty project, from the creation of the Bucket on and as long as its clone is pending, none of its buckets has a policy with a reader and, when the Secret is held back, none of their groups has a key |
| `Runs.PendingCloneAdmitsNobody` | internal/controller/bucket_controller.go:577-624 | however the Bucket came into being, while its clone is pending no call puts a reader into the policy of one of its buckets and, when the Secret is held back, none mints a workload key there or writes its Secret |
| `Runs.CompletionIsFinal` | internal/controller/clone.go:166-291 | once Completed is durable it stays so and no clone Job is created for the Bucket again |
| `Runs.NameIsFrozen` | internal/controller/bucket_controller.go:2142-2170 | once the annotation is persisted, decideBucketName under every naming policy and EffectiveBucketName both yield that name, with the status kept or lost, and every write for the Bucket uses it |
| `Runs.RunKeepsTracked` | internal/controller/bucket_controller.go:1099-1114 | in runs without vanished tagged buckets the recorded group of a Bucket that is not being deleted is attributed as long as it exists, so guardGroupCreate never refuses there |
| `Runs.RunKeepsNoLegacy` | internal/controller/bucket_controller.go:1034-1063 | the operator never leaves a group tag without its URN tag |
| `Protocol.LicensedKeepsInv` | internal/stackitfake/fake.go:528-712 | every call the operator is licensed to make keeps attribution, isolation and key-count invariants under the provider's own rules |
| `Protocol.LicensedKeepsAdmin` | internal/controller/bucket_controller.go:1623-1671 | no licensed call replaces an admin credential that is persisted |
| `Protocol.OutsideKeepsInv` | internal/stackitfake/fake.go:528-712 | edits of Bucket objects, lost Secrets, vanished groups, keys and buckets, and new untagged buckets keep the invariant |
| `Protocol.RunKeepsInv` | internal/controller/bucket_controller.go:185-234 | the invariant holds in every world of every run, at every stopping point |
| `Protocol.CallKeeps` | internal/controller/bucket_controller.go:185-234 | one more call extends a pass's trace (who calls, which groups are rolled back, which answers precede a re-creation, that a group is deleted before its bucket, which keys are loose, the frozen name), keeps the invariant and keeps the admin credential |
| `Protocol.LicenceOutlives` | internal/controller/bucket_controller.go:185-234 | an outside event in the middle of a pass that leaves the Bucket, its grantees, their buckets, its group, Secret and Job and unclaimed groups alone takes no licence away: a call decided on before it is still licensed after it |
| `Protocol.KeepPutTags` | internal/controller/bucket_controller.go:1034-1093 | claiming an empty untagged bucket, or recording an unclaimed or already named group, keeps the invariant |
| `Protocol.KeepPutPolicy` | internal/controller/bucket_controller.go:1359-1374 | writing the policy of the tagged group keeps the invariant |
| `Protocol.KeepMintKey` | internal/controller/bucket_controller.go:1183-1227 | minting into an empty, isolated, attributed group keeps at most one key per group and isolation of keyed groups |
| `Reconciler.BucketReconciler.Reconcile` | internal/controller/bucket_controller.go:185-234 | one pass: Ready means served (keyed isolated group, published Secret, policy readers matching status); the group's key stays the published one unless a key is left loose, loose keys come from lost effects or failed rollbacks only, and where failed calls have no effect a working credential is lost only with phase Failed and Ready False reported, which is the stored status if that last call took; a missing bucket is left alone with all its keys, groups, tags, policy and Secret; a failure is reported with Ready held at most within the grace, except at reading the object, at adding the finalizer and at a terminal write whose answer was lost; failure-free passes end Ready exactly when the Bucket can converge; a teardown only moves downwards, is blocked untouched by a current object that may not be wiped, completes from every removable state, lets the object go only after its Secret and after a bucket in view unless the call to delete that spared it, and is thorough wherever no gateway's 404 page turns up: the bucket never goes before its groups, nor the object before a bucket in view |
| `Reconciler.BucketReconciler.ReconcileNormal` | internal/controller/bucket_controller.go:331-439 | the provisioning half of that contract, with the exact condition for a Ready end and what every other end leaves on record |
| `Reconciler.BucketReconciler.ResolveName` | internal/controller/bucket_controller.go:336-350 | the decided name is frozen in the annotation before anything is created, and a frozen name costs no write |
| `Reconciler.BucketReconciler.Persist` | internal/controller/bucket_controller.go:2161-2170 | the annotation write changes the annotation and nothing else, or nothing |
| `Reconciler.BucketReconciler.MarkProvisioning` | internal/controller/bucket_controller.go:2110-2129 | at most the phase changes, and a settled generation is not touched |
| `Reconciler.BucketReconciler.GuardBucketPresent` | internal/controller/bucket_controller.go:655-715 | passes only if the bucket was never provisioned, is there, or may be re-created and the provider itself said that it is gone; BucketMissing is reported exactly on the provider's own answer, and a stop changes only the status |
| `Reconciler.BucketReconciler.GetBucket` | stackit/client.go:356-365 | a structured 404 is returned only when the call came through and the bucket is absent; a gateway page or any other failure never looks like one |
| `Reconciler.BucketReconciler.BucketExists` | stackit/client.go:356-365 | an answer is truthful; a no is the provider's own structured 404 to a call that came through, and is put on record as such; a gateway page or any other failure is an error, never a no |
| `Reconciler.BucketReconciler.EnsureBucket` | internal/controller/bucket_controller.go:749-778 | success means an owned bucket; without failures it succeeds exactly when the bucket is absent, owned, or untagged and empty; nothing but this bucket's existence and ownership tags changes |
| `Reconciler.BucketReconciler.AdoptOrCollide` | internal/controller/bucket_controller.go:796-824 | an untagged bucket is claimed only when empty, a tagged one must be this Bucket's, and a foreign one is untouched |
| `Reconciler.BucketReconciler.EnsureAdmin` | internal/controller/bucket_controller.go:1623-1671 | the cached or stored credential is used without a write; a bootstrap touches only the admin group and the admin section of the admin Secret |
| `Reconciler.BucketReconciler.DeleteAllKeys` | stackit/client.go:506-526 | only keys of that group go; success leaves none; a missing group or key counts as drained |
| `Reconciler.BucketReconciler.EnsureAdminGroup` | stackit/client.go:487-499 | finds or creates the admin group and touches no workload group |
| `Reconciler.BucketReconciler.ListGroups` | internal/controller/bucket_controller.go:933-948 | a listing may hide groups and show deleted ones, but no id that was never issued |
| `Reconciler.BucketReconciler.GroupExists` | internal/controller/bucket_controller.go:1139-1147 | the keys endpoint answers truthfully; a 404 is a no and anything else is an error |
| `Reconciler.BucketReconciler.ResolveWorkloadGroup` | internal/controller/bucket_controller.go:983-1026 | the returned group is the one tagged on the owned bucket; a bucket that is absent or foreign is not touched; without failures the exact outcome for live tags, dead tags and creation |
| `Reconciler.BucketReconciler.GroupFromTags` | internal/controller/bucket_controller.go:1034-1063 | a live tag decides; a vacant one yields nothing and writes nothing; a missing URN tag is filled in only from the listing |
| `Reconciler.BucketReconciler.GroupFromPolicy` | internal/controller/bucket_controller.go:1070-1093 | the group the bucket's own policy names is adopted only if it is listed, and recorded on the bucket first |
| `Reconciler.BucketReconciler.GuardGroupCreate` | internal/controller/bucket_controller.go:1099-1114 | creation is refused exactly when a recorded group still exists and the bucket was not created in this pass |
| `Reconciler.BucketReconciler.CreateWorkloadGroup` | internal/controller/bucket_controller.go:1121-1134 | a new group is returned only once it is recorded on the bucket; where failed calls have no effect, one that could not be recorded stays only if the call to take it back, the last of all, failed |
| `Reconciler.BucketReconciler.EnsureAccessKeyAndSecret` | internal/controller/bucket_controller.go:1183-1227 | only this group's keys and this Secret change; the published credential stays good if and only if no loose key stands behind it; loose keys come from lost effects or a failed rollback; after the clear every failure is marked as a destroyed credential; the exact condition for success |
| `Reconciler.BucketReconciler.TakeBackKey` | internal/controller/bucket_controller.go:1218-1224 | the key is gone afterwards, or the call to take it back failed and is on record |
| `Reconciler.BucketReconciler.ResolveReadGrants` | internal/controller/bucket_controller.go:1288-1353 | each resolved name stands for the group attributed to that Bucket's own bucket; names are distinct and come from the spec; without failures exactly the grantable ones, in order |
| `Reconciler.BucketReconciler.ResolveGrant` | internal/controller/bucket_controller.go:1300-1350 | one grant resolves to the principal of the grantee's own bucket or to nothing, and touches no other Bucket's view |
| `Reconciler.BucketReconciler.EnsureBucketPolicy` | internal/controller/bucket_controller.go:1359-1374 | afterwards the stored policy is the desired one; an equal one is not rewritten; nothing else changes |
| `Reconciler.BucketReconciler.ApplyPolicy` | internal/controller/bucket_controller.go:562-568 | status.grantedReadTo is recorded next to the write, and keys and Secrets are untouched |
| `Reconciler.BucketReconciler.ProvisionCredentials` | internal/controller/bucket_controller.go:519-625 | attribution, grants, policy, clone, key and Secret in that order: what a success delivers, when a failure-free one succeeds, and when nothing is written |
| `Reconciler.BucketReconciler.CloneThenIssue` | internal/controller/bucket_controller.go:595-617 | the cloning path delivers only after a succeeded Job, with readers and a held key after it |
| `Reconciler.BucketReconciler.EnsureClone` | internal/controller/clone.go:166-291 | continues exactly after a succeeded Job, with completion durable first; touches nothing at the provider, no key and no Secret |
| `Reconciler.BucketReconciler.CompleteClone` | internal/controller/clone.go:258-291 | completion is stored before the Job is removed |
| `Reconciler.BucketReconciler.AbandonClone` | internal/controller/clone.go:233-249 | a failed Job is removed if the call goes through, and the pass fails and says so |
| `Reconciler.BucketReconciler.RecordRotation` | internal/controller/bucket_controller.go:1236-1246 | a handled rotation trigger is no longer pending |
| `Reconciler.BucketReconciler.Conclude` | internal/controller/bucket_controller.go:399-427 | the terminal status is written only over a delivered Bucket; it makes the Bucket served, even if its answer is lost |
| `Reconciler.BucketReconciler.Fail` | internal/controller/bucket_controller.go:1741-1757 | the last call of the pass writes the degraded or failed status, which holds Ready at most within the grace and never moves degradedSince; nothing else changes |
| `Reconciler.BucketReconciler.FailNoRequeue` | internal/controller/bucket_controller.go:1767-1784 | a definitive fault always drops Ready, and the last call of the pass writes so |
| `Reconciler.BucketReconciler.HoldForProvider` | internal/controller/bucket_controller.go:248-273 | a breaker-held visit changes at most the Bucket's health; it writes exactly when there is something new to record |
| `Reconciler.BucketReconciler.ReconcileDelete` | internal/controller/bucket_controller.go:279-326 | the object goes last; until then the teardown can be taken up again |
| `Reconciler.BucketReconciler.Teardown` | internal/controller/bucket_controller.go:1380-1428 | only moves downwards; a listed bucket with a current object and no authorised wipe blocks it before anything is removed; without failures it succeeds exactly when the owned bucket is free of objects and versions or may be wiped; under any weather success means that an owned bucket the listing showed is gone unless the call to delete it met a gateway's 404 page and spared it, and that everything the listing hid is untouched; without such a page its groups are gone whenever the bucket is |
| `Reconciler.BucketReconciler.PrepareForDelete` | internal/controller/bucket_controller.go:1445-1465 | success means no current object is left; without an authorised wipe nothing is touched |
| `Reconciler.BucketReconciler.WipeBucket` | stackit/s3.go:483-520 | only an authorised wipe runs, it only removes, and success leaves neither objects nor versions |
| `Reconciler.BucketReconciler.AssertEmpty` | stackit/s3.go:612-626 | the guard looks at current objects only |
| `Reconciler.BucketReconciler.ReleaseGroup` | internal/controller/bucket_controller.go:1567-1592 | success leaves the attributed group without a key, and gone unless the call to delete it met a gateway's 404 page and spared it; bucket contents are untouched |
| `Reconciler.BucketReconciler.RemoveGroup` | internal/controller/bucket_controller.go:1588-1591 | any 404 counts as success: afterwards the group is gone, or this very call was answered by a gateway's page; every other failure is reported |
| `Reconciler.BucketReconciler.DeleteBucketIfOwned` | internal/controller/bucket_controller.go:1526-1541 | a bucket that is not this Bucket's stays; an owned one goes, without failures exactly when it has neither objects nor versions, and after a success remains only if the call to delete it met a gateway's page |
| `Reconciler.BucketReconciler.RemoveBucket` | internal/controller/bucket_controller.go:1537-1540 | any 404 counts as success: afterwards the bucket is gone, or this very call was answered by a gateway's page; every other failure is reported |
| `Reconciler.BucketReconciler.RemoveSecret` | internal/controller/bucket_controller.go:1723-1731 | the Secret is gone afterwards unless it is the admin Secret, which is never touched |
| `Frames.TeardownIsRestartable` | internal/controller/bucket_controller.go:1380-1428 | from wherever a teardown stopped, nothing new stands in the way of finishing it |
| `Frames.SettledConverges` | internal/controller/bucket_controller.go:331-439 | a settled Bucket meets every condition of a failure-free pass and already has what the pass would write |
| `Health.HeldReadyIsBounded` | internal/controller/bucket_controller.go:1785-1850 | through any sequence of visits that only degrade or fail, with anything in between that leaves the status alone, Ready still true means it was true all along, and from the first visit on degradedSince is set, is unmoved (also from before, if it was set), and is younger than the grace at every visit |
| `Health.FailureEndures` | internal/controller/bucket_controller.go:1785-1815 | the status a failed pass records keeps Ready only on record, unmoved and within the grace |
| `Health.HoldEndures` | internal/controller/bucket_controller.go:248-273 | so does a breaker-held visit, as of the clock reading at which it decides |
| `Courses.EndureOutage` | internal/controller/bucket_controller.go:1741-1898 | in any course in which every pass over k goes on record without success and events leave k and its status alone, k stays and the sequence of its stored statuses keeps that bound, dated by the passes over k: Ready true means degradedSince is stored, unmoved since the first of them, and younger than the grace at each |
| `Courses.HoldOut` | internal/controller/bucket_controller.go:248-273 | in any course in which the breaker holds back every pass over k and those with something to write write it, all passes over k together call for at most two status writes, whatever passes over other Buckets, events and restarts come in between |
| `Health.HoldsWriteAtMostTwice` | internal/controller/bucket_controller.go:248-273 | any sequence of breaker-held visits calls for at most two status writes |
| `Health.DefinitiveFailureDropsReady` | internal/controller/bucket_controller.go:1818-1850 | a destroyed credential or the provider's own refusal drops Ready whatever the grace |
| `Errors.OnlyAnswersDecide` | stackit/errors.go:48-106 | gateway pages, transport failures, 429 and 5xx are never a refusal nor a structured not-found |
| `Breaker.ProviderBreaker.constructor` | internal/controller/breaker.go:87-95 | defaults and lower bound of the cap |
| `Breaker.ProviderBreaker.Allow` | internal/controller/breaker.go:117-132 | holds exactly while the breaker is open and its next probe is not due |
| `Breaker.ProviderBreaker.Failure` | internal/controller/breaker.go:137-169 | implements the history specification, with the wait it returns |
| `Breaker.ProviderBreaker.Success` | internal/controller/breaker.go:172-182 | implements the history specification: any success closes |
| `Breaker.ProviderBreaker.OpenedAt` | internal/controller/breaker.go:186-196 | reports the tripping failure exactly while open |
| `Breaker.OpenIffLastOutcomesFailed` | internal/controller/breaker.go:137-182 | open exactly when the last `threshold` outcomes all failed |
| `Breaker.OpenedByTheTrippingFailure` | internal/controller/breaker.go:145-160 | the opening time is that of the failure that turned a closed breaker open |
| `Breaker.InWindowFailureMovesNothing` | internal/controller/breaker.go:150-156 | a failure inside the window moves neither schedule nor probe count |
| `Breaker.FailedProbeRearms` | internal/controller/breaker.go:150-168 | a failure after the window counts one probe and re-arms from that moment with the next cooldown |
| `Breaker.ProbesAreSpaced` | internal/controller/breaker.go:150-168 | the k-th failed probe comes no earlier than the opening plus the first k cooldowns |
| `Breaker.CooldownScheduleIffCapBelowHalfRange` | internal/controller/breaker.go:150-168 | the cooldown after k failed probes is min(base * 2^k, max) for all k if and only if the cap is below half the Duration range; above it the doubling wraps |
| `KeyReload.Client.Load` | stackit/client.go:174-190 | account, API client and hash come from the same bytes, and exactly usable bytes load |
| `KeyReload.Client.Reload` | stackit/keyreload.go:115-167 | swaps exactly for a candidate that names the same project, built and passed the probe; a rejection changes nothing; which rejections are definitive |
| `KeyReload.KeyReloader.Tick` | stackit/keyreload.go:250-287 | a poll follows the schedule specification, changes the live state only to a proven candidate and never the project |
| `KeyReload.KeyReloader.Settle` | stackit/keyreload.go:291-303 | success clears the backoff |
| `KeyReload.KeyReloader.Reject` | stackit/keyreload.go:307-336 | a definitive rejection doubles the gap of its own content; any other changes neither gap nor content |
| `KeyReload.RunPolls` | stackit/keyreload.go:250-287 | over any polls, contents and answers the project never changes and the live key is the first one or one that was proven; its hash is that of its own bytes |
| `KeyReload.NextIsWellPaced` | stackit/keyreload.go:307-341 | always 1 <= waitIntervals <= M and 0 <= ticksLeft < M |
| `KeyReload.TransientKeepsTheBackoff` | stackit/keyreload.go:307-336 | a non-definitive rejection never changes the gap nor the content it belongs to |
| `KeyReload.OtherContentIsActedOnAtOnce` | stackit/keyreload.go:266-271 | content other than the one backing off is attempted at the next poll |
| `KeyReload.RejectedContentSchedule` | stackit/keyreload.go:307-341 | a constant, definitively rejected content is attempted at exactly the polls that are sums of min(2^i, M) |
| `IsolationPolicy.PolicyMeaning` | stackit/s3.go:217-254 | a request is denied exactly if it touches the bucket and is refused by the three-list reading: admin never, workload outside its list, sanitized readers outside the read list, everyone else always |
| `IsolationPolicy.SanitizeReaderURNs` | stackit/s3.go:262-292 | the loop and sort yield exactly the trimmed readers that are neither empty nor admin nor workload, once each, in order |
| `IsolationPolicy.Sanitized` | stackit/s3.go:262-292 | ascending, and as a set the kept readers |
| `IsolationPolicy.ReaderOrderIsIrrelevant` | stackit/s3.go:262-292 | the document depends only on the set of trimmed readers |
| `IsolationPolicy.ReadersDoNoMoreThanTheOwner` | stackit/s3.go:86-156 | every reader action is a workload action and none of them writes |
| `IsolationPolicy.WorkloadReadsBack` | stackit/s3.go:307-354 | the workload principal reads back from the document in each accepted principal encoding |
| `IsolationPolicy.AmbiguousPrincipalIsRefused` | stackit/s3.go:307-354 | a workload statement naming several principals or none attributes nobody |
| `IsolationPolicy.DesiredIsCanonical` | stackit/s3.go:217-254 | the stored parameters render to the very document the builder produces |
| `IsolationPolicy.DriftCheckIsExact` | stackit/s3.go:360-367 | two written documents are equal exactly when bucket, admin, workload and readers agree |
| `Resources.OwnersDiffer` | internal/controller/bucket_controller.go:861-878 | two Buckets of one namespace never own the same bucket |

## Left out

- JSON and XML text, HTTP, the minio client, the STACKIT SDK, retries inside one call, tokens and keys: calls are outcomes and documents are trees.
- Usage measurement and cost, metrics, events, log lines, messages and progress numbers: they would only add easy members.
- Watches, requeue delays, rate limiting, leader election, flags and wiring.
- Enabling the service: a plain read that can fail; the mode without a service-account key is not modelled.
- Clone details: the Job is keyed by the Bucket rather than by its hashed name; source credentials, size measurement and the staging Secret are reads that can fail; the pod specification and transfer statistics are absent.
- Secret data keys: their validity is one flag of the spec, and a Secret carries the access key id, the bucket name and the owner.
- Group display names are not identities and are reduced to whether they are the admin's; FNV and SHA-256 internals are absent, the content hash being injective.
- The text of a URN: a group's URN is an injective, trimmed rendering of its id.
- Tags other than managed-by, owner and the two group tags: a bucket is untagged when it has none of these.
- Feeding the breaker: a pass takes the breaker's answer as a parameter, and the breaker is verified on its own over every history.
- Operation.Operate: outside events come between passes and not in the middle of one, so a status write that fails because its object has become stale is covered only as one of the failures a call may meet; `Protocol.LicenceOutlives` shows which events would take no licence away there.
- The loss of the admin Secret once it is complete.
- Runs.CloneGateHolds: a Bucket created while a bucket still carries its ownership tags, left over by an earlier Bucket of the same name, starts with whatever policy and key that bucket has; `Runs.PendingCloneAdmitsNobody` covers every call from then on.
- Breaker.ProviderBreaker.Failure: does not model the mutex, since methods of one object run one at a time here.
- Health.HeldReadyIsBounded: a breaker-held visit reads the clock twice and the bound refers to the first reading, at which the code decides whether to write.
- Runs.ObjectsGoOnlyByWipe: counts objects and versions instead of naming them.
