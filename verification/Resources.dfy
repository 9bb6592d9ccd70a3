/**
 What the operator works on: the project at the provider (buckets, credentials groups, access
 keys) and the cluster (Bucket objects, Secrets, clone Jobs).
 */
module Resources {
  import opened Wrappers
  import opened IsolationPolicy

  /******* Names *******/

  datatype ObjKey = ObjKey(ns: string, name: string)

  /** The owner tag of a Bucket: its namespace and name, stable across a restore. */
  function OwnerTag(k: ObjKey): string {
    k.ns + "/" + k.name
  }

  /**
   The URN of a credentials group. The provider derives it from the id, so distinct ids have
   distinct URNs; here the id is rendered in unary.
   */
  function UrnOf(g: nat): (u: string)
    ensures |u| == g + 4 && Trimmed(u)
    ensures u[0] == 'u' && (u[|u| - 1] == ':' || u[|u| - 1] == 'i')
  {
    if g == 0 then "urn:" else UrnOf(g - 1) + "i"
  }

  predicate IsUrn(u: string) {
    |u| >= 4 && u == UrnOf(|u| - 4)
  }

  datatype Naming = Naming(prefix: string, includeNamespace: bool)

  /** The operator-wide configuration. */
  datatype Config = Config(
    ownership: string, adminSecret: ObjKey, region: string, host: string,
    wipeGate: bool, grace: int, naming: Naming)

  /******* Provider *******/

  datatype Tags = Tags(managedBy: string, owner: string, groupId: Option<nat>, groupUrn: string)

  const UNTAGGED := Tags("", "", None, "")

  /** `objects` are the current objects a listing shows, `versions` the older versions and delete markers. */
  datatype CloudBucket = CloudBucket(objects: nat, versions: nat, tags: Tags, policy: Option<Isolation>)

  /** `admin` stands for the display name operator-admin; every other name starts with s3op-. */
  datatype Group = Group(admin: bool, keys: set<nat>)

  /** Ids are never reused: `nextGroup` and `nextKey` only grow. */
  datatype Cloud = Cloud(buckets: map<string, CloudBucket>, groups: map<nat, Group>, nextGroup: nat, nextKey: nat)

  /******* Cluster *******/

  datatype AdminCreds = AdminCreds(accessKey: nat, urn: string, groupId: nat)

  /** A Secret's workload section and its admin section; a write to one leaves the other alone. */
  datatype Secret = Secret(owner: Option<ObjKey>, accessKey: Option<nat>, bucketName: string, admin: Option<AdminCreds>)

  datatype CloneFrom = CloneFrom(hold: bool, host: string, bucket: string)

  datatype Spec = Spec(
    bucketName: string, secretName: string, secretKeysValid: bool, region: string,
    allowRecreate: bool, wipeOnDelete: bool, grants: seq<string>, cloneFrom: Option<CloneFrom>)

  datatype Phase = PhaseUnset | PhaseProvisioning | PhaseReady | PhaseFailed | PhaseDeleting
  datatype Readiness = NoCondition | IsReady | NotReady(missing: bool)
  datatype ClonePhase = CloneNone | CloneRunning | CloneBroken | CloneCompleted

  datatype Status = Status(
    phase: Phase, ready: Readiness, observedGeneration: int,
    resolvedName: string, bucketUrl: string, groupId: Option<nat>, groupUrn: string,
    accessKey: Option<nat>, grantedReadTo: seq<string>, clone: ClonePhase, lastRotation: string,
    degradedSince: Option<int>, unreachable: bool, bucketMissing: bool)

  /** A Bucket object: `resolved` and `rotate` are its two annotations. */
  datatype Bucket = Bucket(
    spec: Spec, status: Status, generation: int, deleting: bool, finalizer: bool, resolved: string, rotate: string)

  datatype JobState = JobRunning | JobSucceeded | JobFailed

  datatype Cluster = Cluster(crs: map<ObjKey, Bucket>, secrets: map<ObjKey, Secret>, jobs: map<ObjKey, JobState>)

  datatype World = World(cloud: Cloud, cluster: Cluster)

  /******* Accessors of a Bucket *******/

  function EffectiveName(b: Bucket): string {
    if b.status.resolvedName != "" then b.status.resolvedName
    else if b.resolved != "" then b.resolved
    else b.spec.bucketName
  }

  function ComposeName(naming: Naming, k: ObjKey, b: Bucket): string {
    (if naming.prefix != "" then naming.prefix + "-" else "") +
    (if naming.includeNamespace then k.ns + "-" else "") +
    b.spec.bucketName
  }

  /** decideBucketName: the name, and whether it was freshly composed. */
  function DecideName(naming: Naming, k: ObjKey, b: Bucket): (string, bool) {
    if b.status.resolvedName != "" then (b.status.resolvedName, false)
    else if b.resolved != "" then (b.resolved, false)
    else if b.status.bucketUrl != "" then (b.spec.bucketName, false)
    else (ComposeName(naming, k, b), true)
  }

  predicate IsLowerAlnum(c: char) {
    'a' <= c <= 'z' || '0' <= c <= '9'
  }

  predicate ValidName(name: string) {
    && 3 <= |name| <= 63
    && IsLowerAlnum(name[0]) && IsLowerAlnum(name[|name| - 1])
    && forall i :: 0 <= i < |name| ==> IsLowerAlnum(name[i]) || name[i] == '.' || name[i] == '-'
  }

  /** A failed phase never goes with Ready true. */
  predicate Coherent(s: Status) {
    s.phase == PhaseFailed ==> s.ready != IsReady
  }

  predicate ClonePending(b: Bucket) {
    b.spec.cloneFrom.Some? && b.status.clone != CloneCompleted
  }

  predicate HoldsSecret(b: Bucket) {
    b.spec.cloneFrom.Some? && b.spec.cloneFrom.value.hold
  }

  function PendingRotation(b: Bucket): string {
    if b.rotate == "" || b.rotate == b.status.lastRotation then "" else b.rotate
  }

  function SecretKey(k: ObjKey, b: Bucket): ObjKey {
    ObjKey(k.ns, b.spec.secretName)
  }

  /** What the API server's schema enforces of every Bucket object. */
  predicate WellFormed(b: Bucket) {
    && |b.spec.bucketName| >= 3
    && forall i, j :: 0 <= i < j < |b.spec.grants| ==> b.spec.grants[i] != b.spec.grants[j]
  }

  /******* Ownership and attribution *******/

  function OwnershipTags(cfg: Config, k: ObjKey): Tags {
    Tags(cfg.ownership, OwnerTag(k), None, "")
  }

  predicate OwnedBy(cfg: Config, tags: Tags, k: ObjKey) {
    tags.managedBy == cfg.ownership && tags.owner == OwnerTag(k)
  }

  /** The Bucket's physical bucket exists and carries its ownership tags. */
  predicate Owns(cfg: Config, w: World, k: ObjKey) {
    && k in w.cluster.crs
    && EffectiveName(w.cluster.crs[k]) in w.cloud.buckets
    && OwnedBy(cfg, w.cloud.buckets[EffectiveName(w.cluster.crs[k])].tags, k)
  }

  function OwnBucket(cfg: Config, w: World, k: ObjKey): CloudBucket
    requires Owns(cfg, w, k)
  {
    w.cloud.buckets[EffectiveName(w.cluster.crs[k])]
  }

  /** What a Bucket can see as its own at the provider. */
  function OwnedView(cfg: Config, w: World, k: ObjKey): Option<CloudBucket> {
    if Owns(cfg, w, k) then Some(OwnBucket(cfg, w, k)) else None
  }

  predicate Attributed(cfg: Config, w: World, k: ObjKey, g: nat) {
    Owns(cfg, w, k) && OwnBucket(cfg, w, k).tags.groupId == Some(g)
  }

  /** A bucket lays claim to a group by its tag or by the workload principal of its policy. */
  predicate Names(b: CloudBucket, g: nat) {
    b.tags.groupId == Some(g) || (b.policy.Some? && b.policy.value.workload == UrnOf(g))
  }

  function AdminOf(cfg: Config, w: World): Option<AdminCreds> {
    if cfg.adminSecret in w.cluster.secrets then w.cluster.secrets[cfg.adminSecret].admin else None
  }

  /** The principal a read grant stands for: the group attributed to the grantee's own bucket. */
  function GranteeUrn(cfg: Config, w: World, k: ObjKey, name: string): Option<string> {
    var grantee := ObjKey(k.ns, name);
    if Owns(cfg, w, grantee) && OwnBucket(cfg, w, grantee).tags.groupId.Some?
    then Some(UrnOf(OwnBucket(cfg, w, grantee).tags.groupId.value))
    else None
  }

  /** The bucket's stored policy isolates group g: it is the policy naming the admin and g as workload. */
  predicate Isolates(cfg: Config, w: World, n: string, g: nat) {
    && n in w.cloud.buckets && AdminOf(cfg, w).Some?
    && w.cloud.buckets[n].policy.Some?
    && var p := w.cloud.buckets[n].policy.value;
       p.bucket == n && p.admin == AdminOf(cfg, w).value.urn && p.workload == UrnOf(g)
  }

  /******* Read grants *******/

  /** A read grant that takes effect: to another Bucket of the namespace, provisioned and not being deleted. */
  predicate Grantable(cfg: Config, w: World, k: ObjKey, name: string) {
    var grantee := ObjKey(k.ns, name);
    && name != k.name && Owns(cfg, w, grantee) && !w.cluster.crs[grantee].deleting
    && OwnBucket(cfg, w, grantee).tags.groupId.Some?
    && OwnBucket(cfg, w, grantee).tags.groupId.value in w.cloud.groups
  }

  function GrantNames(cfg: Config, w: World, k: ObjKey, grants: seq<string>): seq<string> {
    if grants == [] then []
    else GrantNames(cfg, w, k, grants[..|grants| - 1]) +
         if Grantable(cfg, w, k, grants[|grants| - 1]) then [grants[|grants| - 1]] else []
  }

  function UrnsOf(cfg: Config, w: World, k: ObjKey, names: seq<string>): seq<string> {
    seq(|names|,
        i requires 0 <= i < |names| => match GranteeUrn(cfg, w, k, names[i]) case Some(urn) => urn case None => "")
  }

  /** Each name stands for exactly the principal next to it. */
  predicate Stands(cfg: Config, w: World, k: ObjKey, names: seq<string>, urns: seq<string>) {
    && |names| == |urns|
    && (forall i :: 0 <= i < |names| ==> names[i] != k.name && GranteeUrn(cfg, w, k, names[i]) == Some(urns[i]))
    && (forall i, j :: 0 <= i < j < |names| ==> names[i] != names[j])
  }

  lemma OwnerTagInjective(ns: string, a: string, b: string)
    requires OwnerTag(ObjKey(ns, a)) == OwnerTag(ObjKey(ns, b))
    ensures a == b
  {
    assert OwnerTag(ObjKey(ns, a))[|ns| + 1..] == a;
    assert OwnerTag(ObjKey(ns, b))[|ns| + 1..] == b;
  }

  /** Two Buckets of one namespace never own the same bucket. */
  lemma OwnersDiffer(cfg: Config, w: World, a: ObjKey, b: ObjKey)
    requires a.ns == b.ns && a.name != b.name && Owns(cfg, w, a) && Owns(cfg, w, b)
    ensures EffectiveName(w.cluster.crs[a]) != EffectiveName(w.cluster.crs[b])
  {
    if EffectiveName(w.cluster.crs[a]) == EffectiveName(w.cluster.crs[b]) {
      OwnerTagInjective(a.ns, a.name, b.name);
    }
  }
}
