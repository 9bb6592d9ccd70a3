/**
 What a step of a pass may change, said of the world before and after it, and what a pass
 works towards: a served Bucket, a settled one, one that can converge, one that is removed.
 The lemmas carry these from one step to the next.
 */
module Frames {
  import opened Wrappers
  import opened Errors
  import opened IsolationPolicy
  import opened Resources
  import opened Protocol
  import opened Health

  datatype GroupRef = GroupRef(id: nat, urn: string)

  datatype Creds = Creds(group: GroupRef, accessKey: nat, granted: seq<string>)

  /******* Frames and goals *******/

  /** Only keys of group g went. */
  ghost predicate OnlyDrops(w: World, w': World, g: nat) {
    && w'.cluster == w.cluster && w'.cloud.buckets == w.cloud.buckets
    && w'.cloud.nextGroup == w.cloud.nextGroup && w'.cloud.nextKey == w.cloud.nextKey
    && w'.cloud.groups.Keys == w.cloud.groups.Keys
    && (forall h :: h in w.cloud.groups && h != g ==> w'.cloud.groups[h] == w.cloud.groups[h])
    && (g in w.cloud.groups ==>
          w'.cloud.groups[g].admin == w.cloud.groups[g].admin && w'.cloud.groups[g].keys <= w.cloud.groups[g].keys)
  }

  /** No bucket, no workload group or key and no workload Secret changed. */
  ghost predicate SparesWorkloads(cfg: Config, w: World, w': World) {
    && w'.cloud.buckets == w.cloud.buckets && w'.cloud.nextGroup >= w.cloud.nextGroup
    && (forall g :: g in w.cloud.groups && !w.cloud.groups[g].admin ==>
          g in w'.cloud.groups && w'.cloud.groups[g] == w.cloud.groups[g])
    && (forall g :: g in w'.cloud.groups && !w'.cloud.groups[g].admin ==>
          g in w.cloud.groups && !w.cloud.groups[g].admin)
    && (forall g :: 0 <= g < w.cloud.nextGroup ==> (g in w'.cloud.groups <==> g in w.cloud.groups))
    && (forall at :: at != cfg.adminSecret ==> SecretAt(w', at) == SecretAt(w, at))
    && SecretAt(w', cfg.adminSecret).accessKey == SecretAt(w, cfg.adminSecret).accessKey
    && SecretAt(w', cfg.adminSecret).owner == SecretAt(w, cfg.adminSecret).owner
  }

  /** Only the admin group and the admin section of the admin Secret changed. */
  ghost predicate OnlyAdmin(cfg: Config, w: World, w': World) {
    SparesWorkloads(cfg, w, w') && w'.cluster.crs == w.cluster.crs && w'.cluster.jobs == w.cluster.jobs
  }

  /** Only the group tags of bucket n changed, and new groups without keys may have come. */
  ghost predicate OnlyTags(w: World, w': World, n: string) {
    && w'.cluster == w.cluster && w'.cloud.nextKey == w.cloud.nextKey && w'.cloud.nextGroup >= w.cloud.nextGroup
    && w'.cloud.buckets.Keys == w.cloud.buckets.Keys
    && (forall m :: m in w.cloud.buckets && m != n ==> w'.cloud.buckets[m] == w.cloud.buckets[m])
    && (n in w.cloud.buckets ==>
          w'.cloud.buckets[n] == w.cloud.buckets[n].(tags := w'.cloud.buckets[n].tags)
          && w'.cloud.buckets[n].tags.managedBy == w.cloud.buckets[n].tags.managedBy
          && w'.cloud.buckets[n].tags.owner == w.cloud.buckets[n].tags.owner
          && (w'.cloud.buckets[n].tags == w.cloud.buckets[n].tags || w'.cloud.buckets[n].tags.groupUrn != "")
          && (w'.cloud.buckets[n].tags.groupId == w.cloud.buckets[n].tags.groupId || Unkeyed(w', w'.cloud.buckets[n])))
    && (forall g :: g in w.cloud.groups ==> g in w'.cloud.groups && w'.cloud.groups[g] == w.cloud.groups[g])
    && (forall g :: g in w'.cloud.groups && g !in w.cloud.groups ==>
          g >= w.cloud.nextGroup && w'.cloud.groups[g].keys == {})
    && (n in w.cloud.buckets && !TagVacant(w, w.cloud.buckets[n]) ==>
          w'.cloud.buckets[n].tags.groupId == w.cloud.buckets[n].tags.groupId)
  }

  /** Only bucket n was created or claimed. */
  ghost predicate OnlyClaim(cfg: Config, k: ObjKey, w: World, w': World, n: string) {
    && w'.cluster == w.cluster && w'.cloud == w.cloud.(buckets := w'.cloud.buckets)
    && (forall m :: m != n ==> (m in w'.cloud.buckets <==> m in w.cloud.buckets))
    && (forall m :: m in w.cloud.buckets && m != n ==> w'.cloud.buckets[m] == w.cloud.buckets[m])
    && (n in w.cloud.buckets ==>
          && n in w'.cloud.buckets
          && (w'.cloud.buckets[n] == w.cloud.buckets[n]
              || (w.cloud.buckets[n].tags == UNTAGGED
                  && w'.cloud.buckets[n] == w.cloud.buckets[n].(tags := OwnershipTags(cfg, k)))))
    && (n !in w.cloud.buckets && n in w'.cloud.buckets ==>
          w'.cloud.buckets[n] == CloudBucket(0, 0, UNTAGGED, None)
              || w'.cloud.buckets[n] == CloudBucket(0, 0, OwnershipTags(cfg, k), None))
  }

  /** Only the keys of group g and the workload section of the Secret at `at` changed. */
  ghost predicate OnlyKeys(w: World, w': World, g: nat, at: ObjKey) {
    && w'.cloud.buckets == w.cloud.buckets && w'.cluster.crs == w.cluster.crs && w'.cluster.jobs == w.cluster.jobs
    && w'.cloud.nextGroup == w.cloud.nextGroup && w'.cloud.groups.Keys == w.cloud.groups.Keys
    && (forall h :: h in w.cloud.groups && h != g ==> w'.cloud.groups[h] == w.cloud.groups[h])
    && (g in w.cloud.groups ==> w'.cloud.groups[g].admin == w.cloud.groups[g].admin)
    && (forall x :: x != at ==> SecretAt(w', x) == SecretAt(w, x))
    && SecretAt(w', at).admin == SecretAt(w, at).admin
  }

  /** The credential in the Secret still works, as far as the group holds any key at all. */
  predicate SecretLive(w: World, g: nat, at: ObjKey) {
    SecretAt(w, at).accessKey.Some? && g in w.cloud.groups && w.cloud.groups[g].keys != {} ==>
      SecretAt(w, at).accessKey.value in w.cloud.groups[g].keys
  }

  /** A key that was minted and not published stands behind the credential in the Secret. */
  predicate Superseded(w: World, at: ObjKey, loose: set<nat>) {
    loose != {} && SecretAt(w, at).accessKey.Some? && SecretAt(w, at).accessKey.value !in loose
  }

  /** The Secret can be written on behalf of k. */
  predicate SecretFree(w: World, at: ObjKey, k: ObjKey) {
    at in w.cluster.secrets ==> w.cluster.secrets[at].owner.None? || w.cluster.secrets[at].owner == Some(k)
  }

  /** No tag, no name, no grouping and no other Bucket object changed. */
  ghost predicate Steady(w: World, w': World, k: ObjKey) {
    && w'.cloud.buckets.Keys == w.cloud.buckets.Keys && w'.cloud.groups.Keys == w.cloud.groups.Keys
    && (forall n :: n in w.cloud.buckets ==> w'.cloud.buckets[n].tags == w.cloud.buckets[n].tags)
    && k in w.cluster.crs && k in w'.cluster.crs && w'.cluster.crs == w.cluster.crs[k := w'.cluster.crs[k]]
    && w'.cluster.crs[k] == w.cluster.crs[k].(status := w'.cluster.crs[k].status)
    && w'.cluster.crs[k].status.resolvedName == w.cluster.crs[k].status.resolvedName
  }

  /** Beyond that, no key and no Secret changed. */
  ghost predicate KeepsKeys(w: World, w': World, k: ObjKey) {
    Steady(w, w', k) && w'.cloud.groups == w.cloud.groups && w'.cluster.secrets == w.cluster.secrets
  }

  /** The credential in the Secret works: its key is live in the attributed group. */
  predicate KeyWorks(cfg: Config, w: World, k: ObjKey) {
    Owns(cfg, w, k) &&
    var g, key := OwnBucket(cfg, w, k).tags.groupId, SecretAt(w, SecretKey(k, w.cluster.crs[k])).accessKey;
    g.Some? && g.value in w.cloud.groups && key.Some? && key.value in w.cloud.groups[g.value].keys
  }

  /** While the attributed group holds a key, it is the one in the Secret. */
  predicate Sound(cfg: Config, w: World, k: ObjKey) {
    Owns(cfg, w, k) && OwnBucket(cfg, w, k).tags.groupId.Some? ==>
      SecretLive(w, OwnBucket(cfg, w, k).tags.groupId.value, SecretKey(k, w.cluster.crs[k]))
  }

  ghost predicate KeepsCredential(cfg: Config, w: World, w': World, k: ObjKey) {
    (KeyWorks(cfg, w, k) ==> KeyWorks(cfg, w', k)) && (Sound(cfg, w, k) ==> Sound(cfg, w', k))
  }

  /** specGuardError: what no retry can fix. */
  predicate SpecOK(cfg: Config, k: ObjKey, b: Bucket) {
    b.spec.secretKeysValid && SecretKey(k, b) != cfg.adminSecret && b.spec.region == cfg.region
  }

  /** A name can be frozen: the spec is sound and a freshly composed name is a bucket name. */
  predicate Nameable(cfg: Config, k: ObjKey, b: Bucket) {
    SpecOK(cfg, k, b) && (DecideName(cfg.naming, k, b).1 ==> ValidName(DecideName(cfg.naming, k, b).0))
  }

  /** The world with the name of k frozen in its annotation. */
  function Frozen(cfg: Config, w: World, k: ObjKey): World
    requires k in w.cluster.crs
  {
    w.(cluster := w.cluster.(crs := w.cluster.crs[k := w.cluster.crs[k].(resolved := DecideName(cfg.naming,
        k, w.cluster.crs[k]).0)]))
  }

  /** The fields of a status that identify what the Bucket has. */
  predicate SameHoldings(s: Status, s': Status) {
    s'.resolvedName == s.resolvedName && s'.bucketUrl == s.bucketUrl && s'.groupId == s.groupId && s'.clone == s.clone
  }

  /** The Bucket k has the same spec and physical name in both worlds. */
  predicate SameName(w: World, w': World, k: ObjKey) {
    && k in w.cluster.crs && k in w'.cluster.crs && w'.cluster.crs[k].spec == w.cluster.crs[k].spec
    && EffectiveName(w'.cluster.crs[k]) == EffectiveName(w.cluster.crs[k])
  }

  /** Workloads are spared and of the Bucket objects only the health of k changed. */
  ghost predicate OnlyMarks(cfg: Config, w: World, w': World, k: ObjKey) {
    && SparesWorkloads(cfg, w, w') && w'.cluster.jobs == w.cluster.jobs
    && k in w.cluster.crs && k in w'.cluster.crs && w'.cluster.crs == w.cluster.crs[k := w'.cluster.crs[k]]
    && var s, s' := w.cluster.crs[k].status, w'.cluster.crs[k].status;
       && w'.cluster.crs[k] == w.cluster.crs[k].(status := s')
       && SameHoldings(s, s')
  }

  /**
   What the end of a Ready pass leaves behind: a keyed, isolated group attributed to the Bucket's
   own bucket, a published Secret, a policy whose readers are exactly the groups of the Buckets
   in status.grantedReadTo, and a status that says so.
   */
  ghost predicate Served(cfg: Config, w: World, k: ObjKey, readers: seq<string>) {
    && Provisioned(cfg, w, k) && AdminOf(cfg, w).Some?
    && var cr, own := w.cluster.crs[k], OwnBucket(cfg, w, k);
       && !cr.deleting && cr.finalizer && cr.status.phase == PhaseReady
       && cr.status.ready == IsReady && cr.status.observedGeneration == cr.generation
       && cr.status.resolvedName == cr.resolved == EffectiveName(cr) && cr.status.groupId == own.tags.groupId
       && cr.status.accessKey == SecretAt(w, SecretKey(k, cr)).accessKey
       && PendingRotation(cr) == "" && !ClonePending(cr)
       && cr.status.degradedSince.None? && !cr.status.bucketMissing && SpecOK(cfg, k, cr) && WellFormed(cr)
       && Stands(cfg, w, k, cr.status.grantedReadTo, readers)
       && (forall name :: name in cr.status.grantedReadTo ==> name in cr.spec.grants)
       && own.policy ==
           Some(Desired(EffectiveName(cr), AdminOf(cfg, w).value.urn, UrnOf(own.tags.groupId.value), readers))
  }

  /** The same Bucket with its pending rotation, if any, recorded. */
  function Recorded(b: Bucket): Bucket {
    if PendingRotation(b) == "" then b else b.(status := b.status.(lastRotation := b.rotate))
  }

  function ReadyStatus(cfg: Config, b: Bucket, name: string, c: Creds): Status {
    ClearedDegraded(b.status).(
      resolvedName := name, bucketUrl := cfg.host + "/" + name, groupId := Some(c.group.id), groupUrn := c.group.urn,
      accessKey := Some(c.accessKey), grantedReadTo := c.granted, observedGeneration := b.generation,
      phase := PhaseReady,
      ready := IsReady, bucketMissing := false)
  }

  /** Nothing is left to do: every grant that can be resolved is in force as well. */
  ghost predicate Settled(cfg: Config, w: World, k: ObjKey) {
    && k in w.cluster.crs && NoLegacy(w) && !ClonesItself(cfg, w.cluster.crs[k], EffectiveName(w.cluster.crs[k]))
    && var granted := GrantNames(cfg, w, k, w.cluster.crs[k].spec.grants);
       w.cluster.crs[k].status.grantedReadTo == granted && Served(cfg, w, k, UrnsOf(cfg, w, k, granted))
  }

  /** The bucket is tagged with a group that exists. */
  predicate LiveTag(w: World, n: string) {
    n in w.cloud.buckets && w.cloud.buckets[n].tags.groupId.Some?
        && w.cloud.buckets[n].tags.groupId.value in w.cloud.groups
  }

  /** The "already provisioned" test: a credential in the Secret, some key in the group, no rotation asked for. */
  predicate Published(w: World, k: ObjKey, b: Bucket, g: nat) {
    && SecretAt(w, SecretKey(k, b)).accessKey.Some? && PendingRotation(b) == ""
    && g in w.cloud.groups && w.cloud.groups[g].keys != {}
  }

  /** A group can be resolved or created: the tag is good, or nothing speaks against a new group. */
  predicate Groupable(w: World, b: Bucket, n: string, isNew: bool) {
    LiveTag(w, n) || isNew || b.status.groupId.None? || b.status.groupId.value !in w.cloud.groups
  }

  /** The Secret can be written, or holds a credential that needs no replacement. */
  predicate Publishable(w: World, k: ObjKey, b: Bucket, n: string) {
    SecretFree(w, SecretKey(k, b), k) || (LiveTag(w, n) && Published(w, k, b, w.cloud.buckets[n].tags.groupId.value))
  }

  /** A pass can get hold of the bucket: it is there or may be created, and it is this Bucket's or free to take. */
  predicate Obtainable(cfg: Config, w: World, k: ObjKey, b: Bucket, n: string) {
    && (b.status.resolvedName == "" || n in w.cloud.buckets || b.spec.allowRecreate)
    && (n in w.cloud.buckets ==>
          OwnedBy(cfg, w.cloud.buckets[n].tags, k)
              || (w.cloud.buckets[n].tags == UNTAGGED && w.cloud.buckets[n].objects == 0))
  }

  /** Everything a failure-free pass depends on once the name is frozen. */
  predicate Convergeable(cfg: Config, w: World, k: ObjKey, b: Bucket, n: string) {
    && Obtainable(cfg, w, k, b, n) && Groupable(w, b, n, n !in w.cloud.buckets)
    && !ClonesItself(cfg, b, n) && Publishable(w, k, b, n)
  }

  /** The only write was one report of status. */
  ghost predicate OnlyReported(w: World, w': World, h: seq<Turn>, h': seq<Turn>, k: ObjKey) {
    && k in w.cluster.crs && k in w'.cluster.crs && w' == WithStatus(w, k, w'.cluster.crs[k].status)
    && |h'| == |h| + 1 && h'[..|h|] == h && h'[|h|].move.Call? && h'[|h|].move.write.PutStatus?
  }

  /** Under the name a pass over k decides on, the group's key is the published one, if it holds any. */
  predicate Trusted(cfg: Config, w: World, k: ObjKey) {
    k in w.cluster.crs ==> Sound(cfg, Frozen(cfg, w, k), k)
  }

  /** Under the name a pass over k decides on, the published credential works. */
  predicate Works(cfg: Config, w: World, k: ObjKey) {
    k in w.cluster.crs && KeyWorks(cfg, Frozen(cfg, w, k), k)
  }

  /** A wipe is authorised: asked for, enabled, and the bucket is this Bucket's. */
  predicate MayWipe(cfg: Config, w: World, k: ObjKey) {
    Owns(cfg, w, k) && w.cluster.crs[k].spec.wipeOnDelete && cfg.wipeGate
  }

  /** The bucket holds a current object and no wipe is authorised. */
  predicate Guarded(cfg: Config, w: World, k: ObjKey) {
    && k in w.cluster.crs && EffectiveName(w.cluster.crs[k]) in w.cloud.buckets
    && w.cloud.buckets[EffectiveName(w.cluster.crs[k])].objects > 0 && !MayWipe(cfg, w, k)
  }

  /** Nothing stands in the way of removing the bucket: it is gone, free of objects and versions, or may be wiped. */
  predicate Removable(cfg: Config, w: World, k: ObjKey) {
    && k in w.cluster.crs
    && var n := EffectiveName(w.cluster.crs[k]);
       n in w.cloud.buckets ==>
         Owns(cfg, w, k)
             && (MayWipe(cfg, w, k) || (w.cloud.buckets[n].objects == 0 && w.cloud.buckets[n].versions == 0))
  }

  /** Bucket, attributed group, Secret and object are all gone. */
  ghost predicate Removed(cfg: Config, w: World, w': World, k: ObjKey)
    requires k in w.cluster.crs
  {
    var cr := w.cluster.crs[k];
    && k !in w'.cluster.crs && EffectiveName(cr) !in w'.cloud.buckets
    && (forall g: nat :: Attributed(cfg, w, k, g) ==> g !in w'.cloud.groups)
    && (forall g :: 0 <= g < w.cloud.nextGroup && g !in w.cloud.groups ==> g !in w'.cloud.groups)
    && (SecretKey(k, cr) != cfg.adminSecret ==> SecretKey(k, cr) !in w'.cluster.secrets)
  }

  /** The teardown had its own bucket in view, or there was no bucket. */
  predicate InView(cfg: Config, w: World, k: ObjKey, seen: bool)
    requires k in w.cluster.crs
  {
    EffectiveName(w.cluster.crs[k]) in w.cloud.buckets ==> seen && Owns(cfg, w, k)
  }

  /**
   The object of k is gone, and its Secret. A bucket the listing showed is gone too, unless the
   call to delete it left it in place; if the listing hid the bucket, nothing at the provider has
   changed. `Runs.LetGoMeans` says what that makes of bucket and group.
   */
  ghost predicate LetGoOf(cfg: Config, w: World, w': World, k: ObjKey, seen: bool, h: seq<Turn>)
    requires k in w.cluster.crs
  {
    var cr := w.cluster.crs[k];
    && k !in w'.cluster.crs
    && (SecretKey(k, cr) != cfg.adminSecret ==> SecretKey(k, cr) !in w'.cluster.secrets)
    && (forall g :: 0 <= g < w.cloud.nextGroup && g !in w.cloud.groups ==> g !in w'.cloud.groups)
    && (InView(cfg, w, k, seen) && EffectiveName(cr) in w'.cloud.buckets ==> Left(h, DeleteBucket(EffectiveName(cr))))
    && (!seen ==> w'.cloud == w.cloud)
  }

  /** No group attributed to k is left. */
  ghost predicate Vacated(cfg: Config, w: World, w': World, k: ObjKey) {
    forall g: nat :: Attributed(cfg, w, k, g) ==> g !in w'.cloud.groups
  }

  /** How far a teardown of k can have come: only downwards. */
  ghost predicate Releases(cfg: Config, w: World, w': World, k: ObjKey) {
    && k in w.cluster.crs && k in w'.cluster.crs && w'.cluster.crs == w.cluster.crs[k := w'.cluster.crs[k]]
    && w'.cluster.crs[k] == w.cluster.crs[k].(status := w'.cluster.crs[k].status)
    && SameHoldings(w.cluster.crs[k].status, w'.cluster.crs[k].status)
    && w'.cloud.nextGroup >= w.cloud.nextGroup
    && (forall g :: 0 <= g < w.cloud.nextGroup && g !in w.cloud.groups ==> g !in w'.cloud.groups)
    && var n := EffectiveName(w.cluster.crs[k]);
       && (forall g :: Attributed(cfg, w, k, g) ==>
             Attributed(cfg, w', k, g) || g !in w'.cloud.groups || n !in w'.cloud.buckets)
       && (forall m :: m != n ==> (m in w'.cloud.buckets <==> m in w.cloud.buckets))
       && (forall m :: m != n && m in w.cloud.buckets ==> w'.cloud.buckets[m] == w.cloud.buckets[m])
       && (n in w'.cloud.buckets ==> n in w.cloud.buckets && Shrinks(w.cloud.buckets[n], w'.cloud.buckets[n]))
  }

  predicate Shrinks(o: CloudBucket, o': CloudBucket) {
    o'.tags.managedBy == o.tags.managedBy && o'.tags.owner == o.tags.owner
        && o'.objects <= o.objects && o'.versions <= o.versions
  }

  function WithContents(w: World, n: string, objects: nat, versions: nat): World
    requires n in w.cloud.buckets
  {
    w.(cloud := w.cloud.(buckets := w.cloud.buckets[n := w.cloud.buckets[n].(objects := objects,
        versions := versions)]))
  }

  /**
   No clone under way, a name for the admin Secret, no bucket older than the URN tag, and a
   recorded group id that was once issued.
   */
  ghost predicate FairTo(cfg: Config, w: World, b: Bucket) {
    && cfg.adminSecret.ns != "" && !ClonePending(b) && NoLegacy(w)
    && (b.status.groupId.Some? ==> b.status.groupId.value < w.cloud.nextGroup)
  }

  function WithFinalizer(w: World, k: ObjKey): World
    requires k in w.cluster.crs
  {
    w.(cluster := w.cluster.(crs := w.cluster.crs[k := w.cluster.crs[k].(finalizer := true)]))
  }

  predicate Provisionable(w: World, k: ObjKey) {
    k in w.cluster.crs && !w.cluster.crs[k].deleting
  }

  /** The bucket was provisioned once, is gone, and may not be re-created. */
  predicate Missing(w: World, k: ObjKey) {
    && k in w.cluster.crs
    && var cr := w.cluster.crs[k];
       cr.status.resolvedName != "" && cr.status.resolvedName !in w.cloud.buckets && !cr.spec.allowRecreate
  }

  /** The Bucket's name can be frozen and everything else a pass depends on is in place. */
  predicate CanConverge(cfg: Config, w: World, k: ObjKey) {
    && k in w.cluster.crs && Nameable(cfg, k, w.cluster.crs[k])
    && Convergeable(cfg, w, k, w.cluster.crs[k], DecideName(cfg.naming, k, w.cluster.crs[k]).0)
  }

  /** validateCloneSource: the clone would copy the bucket onto itself. */
  predicate ClonesItself(cfg: Config, b: Bucket, name: string) {
    b.spec.cloneFrom.Some? && b.spec.cloneFrom.value.bucket == name && b.spec.cloneFrom.value.host == cfg.host
  }

  function WithKeys(w: World, g: nat, keys: set<nat>): World
    requires g in w.cloud.groups
  {
    w.(cloud := w.cloud.(groups := w.cloud.groups[g := w.cloud.groups[g].(keys := keys)],
        nextKey := w.cloud.nextKey + 1))
  }

  function WithoutKeys(w: World, g: nat): World
    requires g in w.cloud.groups
  {
    w.(cloud := w.cloud.(groups := w.cloud.groups[g := w.cloud.groups[g].(keys := {})]))
  }

  function WithSecret(w: World, at: ObjKey, s: Secret): World {
    w.(cluster := w.cluster.(secrets := w.cluster.secrets[at := s]))
  }

  function WithPolicy(w: World, n: string, p: Isolation): World
    requires n in w.cloud.buckets
  {
    w.(cloud := w.cloud.(buckets := w.cloud.buckets[n := w.cloud.buckets[n].(policy := Some(p))]))
  }

  function WithNewBucket(w: World, n: string): World {
    w.(cloud := w.cloud.(buckets := w.cloud.buckets[n := CloudBucket(0, 0, UNTAGGED, None)]))
  }

  function WithStatus(w: World, k: ObjKey, s: Status): World
    requires k in w.cluster.crs
  {
    w.(cluster := w.cluster.(crs := w.cluster.crs[k := w.cluster.crs[k].(status := s)]))
  }

  /** No bucket predates the URN tag. */
  ghost predicate NoLegacy(w: World) {
    forall n :: n in w.cloud.buckets && w.cloud.buckets[n].tags.groupId.Some? ==> w.cloud.buckets[n].tags.groupUrn != ""
  }

  lemma GrantFrame(cfg: Config, w: World, w': World, k: ObjKey, name: string)
    requires ObjKey(k.ns, name) in w.cluster.crs && OnlyTags(w, w', EffectiveName(w.cluster.crs[ObjKey(k.ns, name)]))
    requires !Owns(cfg, w, ObjKey(k.ns, name)) ==> w' == w
    ensures forall other :: other != name ==>
              OwnedView(cfg, w', ObjKey(k.ns, other)) == OwnedView(cfg, w, ObjKey(k.ns, other))
  {
    if w' != w {
      forall other | other != name
        ensures OwnedView(cfg, w', ObjKey(k.ns, other)) == OwnedView(cfg, w, ObjKey(k.ns, other))
      {
        if Owns(cfg, w, ObjKey(k.ns, other)) {
          OwnersDiffer(cfg, w, ObjKey(k.ns, other), ObjKey(k.ns, name));
        }
        if Owns(cfg, w', ObjKey(k.ns, other)) {
          OwnersDiffer(cfg, w', ObjKey(k.ns, other), ObjKey(k.ns, name));
        }
      }
    }
  }

  lemma StandsOn(cfg: Config, w: World, w': World, k: ObjKey, names: seq<string>, urns: seq<string>, name: string)
    requires Stands(cfg, w, k, names, urns) && name !in names
    requires forall other :: other != name ==>
               OwnedView(cfg, w', ObjKey(k.ns, other)) == OwnedView(cfg, w, ObjKey(k.ns, other))
    ensures Stands(cfg, w', k, names, urns)
  {
    forall i | 0 <= i < |names|
      ensures GranteeUrn(cfg, w', k, names[i]) == Some(urns[i])
    {
      assert OwnedView(cfg, w', ObjKey(k.ns, names[i])) == OwnedView(cfg, w, ObjKey(k.ns, names[i]));
    }
  }

  lemma OwnerTagNotEmpty(k: ObjKey)
    ensures OwnerTag(k) != ""
  {
    assert OwnerTag(k)[|k.ns|] == '/';
  }

  lemma SanitizedAmong(readers: seq<string>, admin: string, workload: string)
    requires forall u :: u in readers ==> Trimmed(u)
    ensures forall u :: u in Sanitized(readers, admin, workload) ==> u in readers
  {
    forall u | u in Sanitized(readers, admin, workload)
      ensures u in readers
    {
      assert u in Elements(Sanitized(readers, admin, workload));
    }
  }

  lemma SavedStatusFits(cfg: Config, w: World, k: ObjKey, s: Status)
    requires StatusFits(cfg, w, k, s)
    ensures StatusFits(cfg, WithStatus(w, k, s), k, s)
  {
  }

  lemma ReaderMayRead(cfg: Config, w: World, k: ObjKey, names: seq<string>, urns: seq<string>, grants: seq<string>,
      u: string)
    requires Stands(cfg, w, k, names, urns) && u in urns && forall name :: name in names ==> name in grants
    ensures Trimmed(u) && MayRead(cfg, w, k, grants, u)
  {
    var i :| 0 <= i < |urns| && urns[i] == u;
    assert names[i] in names;
  }

  lemma RecordedIsUnkeyed(cfg: Config, w: World, n: string, g: nat)
    requires Inv(cfg, w) && n in w.cloud.buckets && MayRecord(w, w.cloud.buckets[n], g)
    ensures w.cloud.buckets[n].tags.groupId == Some(g) || g !in w.cloud.groups || w.cloud.groups[g].keys == {}
  {
    assert BucketOK(cfg, w, n);
  }

  lemma TagsKeepCredential(cfg: Config, w: World, w': World, k: ObjKey, n: string)
    requires Owns(cfg, w, k) && n == EffectiveName(w.cluster.crs[k]) && OnlyTags(w, w', n)
    ensures KeepsCredential(cfg, w, w', k) && (NoLegacy(w) ==> NoLegacy(w'))
  {
  }

  lemma StandsSteady(cfg: Config, w: World, w': World, k: ObjKey, names: seq<string>, urns: seq<string>)
    requires Stands(cfg, w, k, names, urns) && Steady(w, w', k)
    ensures Stands(cfg, w', k, names, urns)
  {
    forall i | 0 <= i < |names|
      ensures GranteeUrn(cfg, w', k, names[i]) == Some(urns[i])
    {
      assert GranteeUrn(cfg, w, k, names[i]) == Some(urns[i]);
      assert ObjKey(k.ns, names[i]) != k;
    }
  }

  lemma KeysKeepCredential(cfg: Config, w: World, w': World, k: ObjKey)
    requires KeepsKeys(w, w', k)
    ensures KeyWorks(cfg, w, k) <==> KeyWorks(cfg, w', k)
    ensures Sound(cfg, w, k) <==> Sound(cfg, w', k)
  {
  }

  /** A step, and then the status write that reports its failure. */
  lemma FailedStep(cfg: Config, u: World, v: World, w: World, k: ObjKey)
    requires Steady(u, v, k) && KeepsKeys(v, w, k)
    ensures Steady(u, w, k) && (KeyWorks(cfg, v, k) <==> KeyWorks(cfg, w, k))
    ensures Sound(cfg, v, k) <==> Sound(cfg, w, k)
  {
    KeysKeepCredential(cfg, v, w, k);
  }

  lemma StandsKeeps(cfg: Config, w: World, w': World, k: ObjKey, names: seq<string>, urns: seq<string>)
    requires Stands(cfg, w, k, names, urns) && KeepsKeys(w, w', k)
    ensures Stands(cfg, w', k, names, urns)
  {
    StandsSteady(cfg, w, w', k, names, urns);
  }

  lemma StillProvisioned(cfg: Config, w: World, w': World, k: ObjKey)
    requires Provisioned(cfg, w, k) && KeepsKeys(w, w', k)
    requires forall g :: Attributed(cfg, w, k, g) ==> Isolates(cfg, w', EffectiveName(w.cluster.crs[k]), g)
    ensures Provisioned(cfg, w', k) && w'.cluster.secrets == w.cluster.secrets
  {
  }

  lemma GrantsKeepCredential(cfg: Config, w: World, w': World, k: ObjKey)
    requires OwnedView(cfg, w', k) == OwnedView(cfg, w, k) && w'.cluster == w.cluster
    requires w'.cloud.groups == w.cloud.groups
    ensures KeyWorks(cfg, w, k) <==> KeyWorks(cfg, w', k)
    ensures Sound(cfg, w, k) <==> Sound(cfg, w', k)
  {
  }

  lemma StandsForUrns(cfg: Config, w: World, k: ObjKey, names: seq<string>, urns: seq<string>)
    requires Stands(cfg, w, k, names, urns)
    ensures urns == UrnsOf(cfg, w, k, names)
  {
  }

  lemma StandsForNone(cfg: Config, w: World, k: ObjKey)
    ensures Stands(cfg, w, k, [], [])
  {
  }

  lemma {:induction false} GrantsSteady(cfg: Config, w: World, w': World, k: ObjKey, grants: seq<string>)
    requires Steady(w, w', k)
    ensures GrantNames(cfg, w', k, grants) == GrantNames(cfg, w, k, grants)
  {
    if grants != [] {
      var last := grants[|grants| - 1];
      GrantsSteady(cfg, w, w', k, grants[..|grants| - 1]);
      assert last != k.name ==> ObjKey(k.ns, last) != k;
      assert Grantable(cfg, w', k, last) <==> Grantable(cfg, w, k, last);
    }
  }

  lemma SteadyLegacy(w: World, w': World, k: ObjKey)
    requires Steady(w, w', k)
    ensures NoLegacy(w) ==> NoLegacy(w')
  {
  }

  lemma GrantsKeep(cfg: Config, w: World, w': World, k: ObjKey, grants: seq<string>)
    requires KeepsKeys(w, w', k)
    ensures GrantNames(cfg, w', k, grants) == GrantNames(cfg, w, k, grants)
    ensures NoLegacy(w) ==> NoLegacy(w')
  {
    GrantsSteady(cfg, w, w', k, grants);
  }

  lemma FrozenIsStill(cfg: Config, w: World, k: ObjKey)
    requires k in w.cluster.crs && w.cluster.crs[k].resolved == DecideName(cfg.naming, k, w.cluster.crs[k]).0
    ensures Frozen(cfg, w, k) == w
  {
    assert w.cluster.crs[k := w.cluster.crs[k]] == w.cluster.crs;
  }

  lemma MarksFrozen(cfg: Config, w: World, v: World, s: Status, k: ObjKey)
    requires k in w.cluster.crs && (v == w || v == Frozen(cfg, w, k))
    requires SameHoldings(w.cluster.crs[k].status, s)
    ensures k in v.cluster.crs
    ensures OnlyMarks(cfg, Frozen(cfg, w, k), Frozen(cfg, v, k), k)
    ensures OnlyMarks(cfg, Frozen(cfg, w, k), Frozen(cfg, WithStatus(v, k, s), k), k)
  {
    FrozenIsStill(cfg, Frozen(cfg, w, k), k);
    assert Frozen(cfg, v, k) == Frozen(cfg, w, k);
    var x := WithStatus(v, k, s);
    assert Frozen(cfg, x, k).cluster.crs == Frozen(cfg, w, k).cluster.crs[k := Frozen(cfg, x, k).cluster.crs[k]];
  }

  lemma StillFits(cfg: Config, w: World, w': World, k: ObjKey, s: Status)
    requires StatusFits(cfg, w, k, s) && w'.cluster.crs == w.cluster.crs && SameHoldings(w.cluster.crs[k].status, s)
    requires s.ready == IsReady ==> w.cluster.crs[k].status.ready == IsReady
    requires s.bucketMissing ==> w.cluster.crs[k].status.bucketMissing
    ensures StatusFits(cfg, w', k, s)
  {
  }

  lemma ClaimKeepsCredential(cfg: Config, w: World, w': World, k: ObjKey, n: string)
    requires k in w.cluster.crs && n == EffectiveName(w.cluster.crs[k]) && OnlyClaim(cfg, k, w, w', n)
    ensures KeepsCredential(cfg, w, w', k)
  {
    OwnerTagNotEmpty(k);
  }

  lemma {:induction false} Concluded(cfg: Config, w: World, w': World, k: ObjKey, s: Status)
    requires k in w.cluster.crs && s.resolvedName == EffectiveName(w.cluster.crs[k]) != ""
    requires w' == w || w' == WithStatus(w, k, s)
    ensures KeyWorks(cfg, w', k) <==> KeyWorks(cfg, w, k)
    ensures Sound(cfg, w', k) <==> Sound(cfg, w, k)
    ensures NoLegacy(w) ==> NoLegacy(w')
    ensures forall grants :: GrantNames(cfg, w', k, grants) == GrantNames(cfg, w, k, grants)
  {
    forall grants
      ensures GrantNames(cfg, w', k, grants) == GrantNames(cfg, w, k, grants)
    {
      GrantsConcluded(cfg, w, w', k, s, grants);
    }
  }

  lemma {:induction false} GrantsConcluded(cfg: Config, w: World, w': World, k: ObjKey, s: Status, grants: seq<string>)
    requires k in w.cluster.crs && (w' == w || w' == WithStatus(w, k, s))
    ensures GrantNames(cfg, w', k, grants) == GrantNames(cfg, w, k, grants)
  {
    if grants != [] {
      var last := grants[|grants| - 1];
      GrantsConcluded(cfg, w, w', k, s, grants[..|grants| - 1]);
      assert last != k.name ==> ObjKey(k.ns, last) != k;
      assert Grantable(cfg, w', k, last) <==> Grantable(cfg, w, k, last);
    }
  }

  lemma StandsConcluded(cfg: Config, w: World, w': World, k: ObjKey, names: seq<string>, urns: seq<string>)
    requires Stands(cfg, w, k, names, urns) && w'.cloud == w.cloud && k in w.cluster.crs && k in w'.cluster.crs
    requires w'.cluster.crs == w.cluster.crs[k := w'.cluster.crs[k]]
    ensures Stands(cfg, w', k, names, urns)
  {
    forall i | 0 <= i < |names|
      ensures GranteeUrn(cfg, w', k, names[i]) == Some(urns[i])
    {
      assert GranteeUrn(cfg, w, k, names[i]) == Some(urns[i]);
      assert ObjKey(k.ns, names[i]) != k;
    }
  }

  lemma MarksKeepCredential(cfg: Config, w: World, w': World, k: ObjKey)
    requires Inv(cfg, w) && Inv(cfg, w') && OnlyMarks(cfg, w, w', k)
    ensures KeyWorks(cfg, w', k) <==> KeyWorks(cfg, w, k)
    ensures Sound(cfg, w', k) <==> Sound(cfg, w, k)
    ensures SparesWorkloads(cfg, w, w')
  {
    hide Inv, SparesWorkloads;
    var cr := w.cluster.crs[k];
    SparedSecret(cfg, w, w', SecretKey(k, cr));
    if Owns(cfg, w, k) && OwnBucket(cfg, w, k).tags.groupId.Some? {
      SparedGroup(cfg, w, w', EffectiveName(cr), OwnBucket(cfg, w, k).tags.groupId.value);
    }
  }

  lemma SparedSecret(cfg: Config, w: World, w': World, at: ObjKey)
    requires SparesWorkloads(cfg, w, w')
    ensures SecretAt(w', at).accessKey == SecretAt(w, at).accessKey && w'.cloud.buckets == w.cloud.buckets
  {
  }

  /** The group on a bucket is a workload group, so it is spared with its keys. */
  lemma SparedGroup(cfg: Config, w: World, w': World, n: string, g: nat)
    requires Inv(cfg, w) && Inv(cfg, w') && SparesWorkloads(cfg, w, w') && n in w.cloud.buckets
    requires w.cloud.buckets[n].tags.groupId == Some(g)
    ensures g in w'.cloud.groups <==> g in w.cloud.groups
    ensures g in w.cloud.groups ==> w'.cloud.groups[g] == w.cloud.groups[g]
  {
    assert BucketOK(cfg, w, n) && BucketOK(cfg, w', n) && Names(w.cloud.buckets[n], g) && Names(w'.cloud.buckets[n], g);
  }

  lemma SettledNow(cfg: Config, w: World, k: ObjKey, readers: seq<string>)
    requires Served(cfg, w, k, readers)
    ensures var cr := w.cluster.crs[k];
            NoLegacy(w) && cr.status.grantedReadTo == GrantNames(cfg, w, k, cr.spec.grants)
            && !ClonesItself(cfg, cr, EffectiveName(cr)) ==>
              Settled(cfg, w, k)
  {
    StandsForUrns(cfg, w, k, w.cluster.crs[k].status.grantedReadTo, readers);
  }

  /** A settled Bucket has everything a pass depends on, and has it already. */
  lemma SettledConverges(cfg: Config, w: World, k: ObjKey)
    ensures Settled(cfg, w, k) ==>
              && k in w.cluster.crs && AdminOf(cfg, w).Some? && Owns(cfg, w, k) && w.cluster.crs[k].finalizer
              && var cr, n := w.cluster.crs[k], EffectiveName(w.cluster.crs[k]);
                 && Nameable(cfg, k, cr) && Convergeable(cfg, w, k, cr, n) && LiveTag(w, n)
                 && Published(w, k, cr, w.cloud.buckets[n].tags.groupId.value)
                 && cr.status.phase == PhaseReady && cr.status.observedGeneration == cr.generation
                 && w.cloud.buckets[n].policy ==
                     Some(Desired(n, AdminOf(cfg, w).value.urn, UrnOf(w.cloud.buckets[n].tags.groupId.value),
                                                            UrnsOf(cfg, w, k, GrantNames(cfg, w, k, cr.spec.grants))))
  {
  }

  lemma MarksConverge(cfg: Config, w: World, w': World, k: ObjKey, b: Bucket, b': Bucket, n: string)
    requires Inv(cfg, w) && Inv(cfg, w') && OnlyMarks(cfg, w, w', k) && SecretKey(k, b) != cfg.adminSecret
    requires b' == b.(status := b'.status) && SameHoldings(b.status, b'.status)
    requires b'.status.lastRotation == b.status.lastRotation
    ensures Obtainable(cfg, w', k, b', n) <==> Obtainable(cfg, w, k, b, n)
    ensures (b.status.groupId.Some? ==> b.status.groupId.value < w.cloud.nextGroup) ==>
              (b'.status.groupId.Some? ==> b'.status.groupId.value < w'.cloud.nextGroup) &&
              (Groupable(w', b', n, n !in w'.cloud.buckets) <==> Groupable(w, b, n, n !in w.cloud.buckets))
    ensures Publishable(w', k, b', n) <==> Publishable(w, k, b, n)
    ensures w'.cloud.buckets == w.cloud.buckets && (NoLegacy(w) ==> NoLegacy(w'))
  {
    hide Inv;
    assert SecretAt(w', SecretKey(k, b)) == SecretAt(w, SecretKey(k, b));
    if n in w.cloud.buckets && w.cloud.buckets[n].tags.groupId.Some? {
      SparedGroup(cfg, w, w', n, w.cloud.buckets[n].tags.groupId.value);
    }
  }

  lemma ClaimConverges(cfg: Config, w: World, w': World, k: ObjKey, b: Bucket, n: string)
    requires OnlyClaim(cfg, k, w, w', n) && n in w'.cloud.buckets
    ensures Groupable(w', b, n, n !in w.cloud.buckets) <==> Groupable(w, b, n, n !in w.cloud.buckets)
    ensures Publishable(w', k, b, n) <==> Publishable(w, k, b, n)
    ensures (NoLegacy(w) ==> NoLegacy(w')) && w'.cloud.nextGroup == w.cloud.nextGroup
  {
  }

  lemma NamingKeeps(cfg: Config, w: World, w': World, k: ObjKey)
    requires w'.cloud == w.cloud && w'.cluster.secrets == w.cluster.secrets
    ensures SparesWorkloads(cfg, w, w')
    ensures SameName(w, w', k) ==>
              (KeyWorks(cfg, w', k) <==> KeyWorks(cfg, w, k)) && (Sound(cfg, w', k) <==> Sound(cfg, w, k))
    ensures NoLegacy(w) ==> NoLegacy(w')
  {
  }

  lemma FrozenIsHarmless(cfg: Config, w: World, k: ObjKey, b: Bucket)
    requires k in w.cluster.crs && b.status == w.cluster.crs[k].status && b.spec == w.cluster.crs[k].spec
    requires b.rotate == w.cluster.crs[k].rotate
    ensures forall n :: Convergeable(cfg, Frozen(cfg, w, k), k, b, n) <==> Convergeable(cfg, w, k, w.cluster.crs[k], n)
    ensures k in Frozen(cfg, w, k).cluster.crs
    ensures Settled(cfg, w, k) ==> Frozen(cfg, w, k) == w
  {
    if Settled(cfg, w, k) {
      FrozenIsStill(cfg, w, k);
    }
  }

  lemma SparesThrough(cfg: Config, u: World, v: World, w: World)
    ensures SparesWorkloads(cfg, u, v) && SparesWorkloads(cfg, v, w) ==> SparesWorkloads(cfg, u, w)
  {
  }

  lemma StatusReleases(cfg: Config, w: World, w': World, s: Status, k: ObjKey)
    requires k in w.cluster.crs && SameHoldings(w.cluster.crs[k].status, s) && (w' == w || w' == WithStatus(w, k, s))
    ensures Releases(cfg, w, w', k)
  {
  }

  lemma ContentsRelease(cfg: Config, w: World, k: ObjKey, n: string, objects: nat, versions: nat)
    requires k in w.cluster.crs && n == EffectiveName(w.cluster.crs[k]) && n in w.cloud.buckets
    requires objects <= w.cloud.buckets[n].objects && versions <= w.cloud.buckets[n].versions
    ensures Releases(cfg, w, WithContents(w, n, objects, versions), k)
  {
  }

  lemma ReleasesCompose(cfg: Config, u: World, v: World, w: World, k: ObjKey)
    requires Releases(cfg, u, v, k) && Releases(cfg, v, w, k)
    requires Inv(cfg, u)
    ensures Releases(cfg, u, w, k)
  {
    forall g: nat | Attributed(cfg, u, k, g)
      ensures Attributed(cfg, w, k, g) || g !in w.cloud.groups
              || EffectiveName(u.cluster.crs[k]) !in w.cloud.buckets
    {
      assert BucketOK(cfg, u, EffectiveName(u.cluster.crs[k])) && Names(OwnBucket(cfg, u, k), g);
    }
  }

  lemma SparesItself(cfg: Config, w: World)
    ensures SparesWorkloads(cfg, w, w)
  {
  }

  lemma MarksRelease(cfg: Config, w: World, w': World, k: ObjKey)
    requires OnlyMarks(cfg, w, w', k)
    ensures Releases(cfg, w, w', k) && SparesWorkloads(cfg, w, w') && w'.cloud.buckets == w.cloud.buckets
  {
  }

  lemma TagsRelease(cfg: Config, w: World, w': World, k: ObjKey, n: string)
    requires k in w.cluster.crs && n == EffectiveName(w.cluster.crs[k]) && OnlyTags(w, w', n)
    requires w'.cloud.groups == w.cloud.groups
    ensures Releases(cfg, w, w', k) && w'.cluster == w.cluster && (n in w'.cloud.buckets <==> n in w.cloud.buckets)
    ensures n in w.cloud.buckets ==> w'.cloud.buckets[n] == w.cloud.buckets[n].(tags := w'.cloud.buckets[n].tags)
  {
    assert w.cluster.crs[k := w.cluster.crs[k]] == w.cluster.crs;
  }

  lemma OwnsThrough(cfg: Config, w: World, w': World, k: ObjKey)
    requires Releases(cfg, w, w', k)
    ensures EffectiveName(w.cluster.crs[k]) in w'.cloud.buckets ==> (Owns(cfg, w', k) <==> Owns(cfg, w, k))
  {
  }

  lemma SparesJobs(cfg: Config, w: World, w': World)
    requires w'.cloud == w.cloud && w'.cluster.secrets == w.cluster.secrets
    ensures SparesWorkloads(cfg, w, w')
  {
  }

  lemma ReleasedAll(cfg: Config, w: World, w': World, k: ObjKey)
    requires Releases(cfg, w, w', k)
    ensures EffectiveName(w'.cluster.crs[k]) == EffectiveName(w.cluster.crs[k])
    ensures w'.cluster.crs[k].spec == w.cluster.crs[k].spec
    ensures forall g :: 0 <= g < w.cloud.nextGroup && g !in w.cloud.groups ==> g !in w'.cloud.groups
  {
  }

  /** A group that is gone stays so. */
  lemma VacatedThrough(cfg: Config, u: World, v: World, w: World, k: ObjKey)
    requires Inv(cfg, u) && Releases(cfg, u, v, k) && Releases(cfg, v, w, k)
    ensures Vacated(cfg, u, v, k) ==> Vacated(cfg, u, w, k)
  {
    forall g: nat | Attributed(cfg, u, k, g) && g !in v.cloud.groups
      ensures g !in w.cloud.groups
    {
      assert BucketOK(cfg, u, EffectiveName(u.cluster.crs[k])) && Names(OwnBucket(cfg, u, k), g);
    }
  }

  /** What was attributed before a step that left the provider alone is attributed after it. */
  lemma AttributedAsBefore(cfg: Config, u: World, v: World, w: World, k: ObjKey)
    requires Releases(cfg, u, v, k) && v.cloud == u.cloud
    ensures Vacated(cfg, v, w, k) ==> Vacated(cfg, u, w, k)
  {
  }

  lemma VacatedAlike(cfg: Config, u: World, v: World, w: World, k: ObjKey)
    requires w.cloud == v.cloud
    ensures Vacated(cfg, u, v, k) ==> Vacated(cfg, u, w, k)
  {
  }

  lemma NoneIsVacated(cfg: Config, w: World, w': World, k: ObjKey)
    requires k in w.cluster.crs
    ensures EffectiveName(w.cluster.crs[k]) !in w.cloud.buckets ==> Vacated(cfg, w, w', k)
  {
  }

  lemma LeftGrows(h: seq<Turn>, h': seq<Turn>, wr: Write)
    requires |h| <= |h'| && h'[..|h|] == h
    ensures Left(h, wr) ==> Left(h', wr)
  {
    assert forall i :: 0 <= i < |h| ==> h'[i] == h[i];
  }

  /** With the recorded group gone and the bucket in place, no group of the Bucket is left. */
  lemma VacantIsVacated(cfg: Config, w: World, w': World, k: ObjKey)
    requires Releases(cfg, w, w', k) && (Owns(cfg, w', k) ==> TagVacant(w', OwnBucket(cfg, w', k)))
    requires EffectiveName(w.cluster.crs[k]) in w'.cloud.buckets
    ensures Vacated(cfg, w, w', k)
  {
  }

  /** Wherever a teardown stops, what stood in nobody's way before stands in nobody's way after. */
  lemma TeardownIsRestartable(cfg: Config, w: World, w': World, k: ObjKey)
    requires Removable(cfg, w, k) && Releases(cfg, w, w', k)
    ensures Removable(cfg, w', k)
  {
  }

  lemma FailureFits(cfg: Config, w: World, k: ObjKey, b: Bucket, e: Error, now: int)
    requires StatusFits(cfg, w, k, b.status)
    ensures var s := AfterFailure(cfg.grace, b, e, now); StatusFits(cfg, w, k, s) && SameHoldings(b.status, s)
  {
  }

  lemma PolicyNamesGroup(cfg: Config, w: World, n: string)
    requires Inv(cfg, w) && n in w.cloud.buckets && w.cloud.buckets[n].policy.Some?
    ensures var u := w.cloud.buckets[n].policy.value.workload;
            && IsUrn(u) && Trimmed(u) && u != ""
            && (|u| - 4 in w.cloud.groups ==> w.cloud.buckets[n].tags.groupId == Some(|u| - 4))
  {
    assert BucketOK(cfg, w, n);
    assert Trimmed(UrnOf(|w.cloud.buckets[n].policy.value.workload| - 4));
  }

  lemma DropsAreAdmin(cfg: Config, w: World, w': World, g: nat)
    requires OnlyDrops(w, w', g) && Inv(cfg, w) && (g in w.cloud.groups ==> w.cloud.groups[g].admin)
    ensures OnlyAdmin(cfg, w, w') && w'.cluster == w.cluster && (g in w'.cloud.groups <==> g in w.cloud.groups)
    ensures g in w'.cloud.groups ==> w'.cloud.groups[g].admin
  {
  }

  lemma TagsKeepOwner(cfg: Config, w: World, w': World, n: string, k: ObjKey)
    requires OnlyTags(w, w', n) && n in w.cloud.buckets
    ensures n in w'.cloud.buckets
    ensures OwnedBy(cfg, w'.cloud.buckets[n].tags, k) <==> OwnedBy(cfg, w.cloud.buckets[n].tags, k)
  {
  }

  lemma OnlyTagsItself(w: World, n: string)
    ensures OnlyTags(w, w, n)
  {
  }

  lemma TagsFit(cfg: Config, w: World, w': World, k: ObjKey, s: Status, n: string)
    requires StatusFits(cfg, w, k, s) && SameHoldings(w.cluster.crs[k].status, s) && OnlyTags(w, w', n)
    requires s.ready == IsReady ==> w.cluster.crs[k].status.ready == IsReady
    requires s.bucketMissing ==> w.cluster.crs[k].status.bucketMissing
    ensures w'.cluster == w.cluster && (n in w'.cloud.buckets <==> n in w.cloud.buckets)
    ensures w.cloud.groups.Keys <= w'.cloud.groups.Keys
    ensures n in w.cloud.buckets
            && (!LiveTag(w, n) || w'.cloud.buckets[n].tags.groupId != w.cloud.buckets[n].tags.groupId) ==>
              Unkeyed(w', w'.cloud.buckets[n])
    ensures StatusFits(cfg, w', k, s)
  {
  }

  /** Recording the attributed group in status is always truthful. */
  lemma GroupFits(cfg: Config, w: World, k: ObjKey, s: Status, g: nat, urn: string)
    requires StatusFits(cfg, w, k, s) && w.cluster.crs[k].resolved != "" && Attributed(cfg, w, k, g)
    ensures StatusFits(cfg, w, k, s.(groupId := Some(g), groupUrn := urn))
  {
  }

  lemma DropsRelease(cfg: Config, w: World, w': World, k: ObjKey, g: nat)
    requires OnlyDrops(w, w', g) && k in w.cluster.crs
    ensures Releases(cfg, w, w', k) && w'.cluster == w.cluster && w'.cloud.buckets == w.cloud.buckets
  {
    assert w.cluster.crs[k := w.cluster.crs[k]] == w.cluster.crs;
  }

  lemma FinalizerIsHarmless(cfg: Config, w: World, k: ObjKey)
    requires k in w.cluster.crs
    ensures var v := WithFinalizer(w, k);
            && SparesWorkloads(cfg, w, v) && (Works(cfg, v, k) <==> Works(cfg, w, k))
            && (Trusted(cfg, v, k) <==> Trusted(cfg, w, k))
            && (NoLegacy(w) <==> NoLegacy(v)) && (CanConverge(cfg, v, k) <==> CanConverge(cfg, w, k))
            && (Missing(v, k) <==> Missing(w, k))
  {
    hide KeyWorks, Sound, NoLegacy, Convergeable;
    var v := WithFinalizer(w, k);
    NamingKeeps(cfg, w, v, k);
    NamingKeeps(cfg, v, w, k);
    NamingKeeps(cfg, Frozen(cfg, w, k), Frozen(cfg, v, k), k);
    FinalizerConverges(cfg, w, k);
  }

  lemma FinalizerConverges(cfg: Config, w: World, k: ObjKey)
    requires k in w.cluster.crs
    ensures var v, cr := WithFinalizer(w, k), w.cluster.crs[k];
            forall n :: Convergeable(cfg, v, k, v.cluster.crs[k], n) <==> Convergeable(cfg, w, k, cr, n)
  {
  }

  lemma StartTrace(cfg: Config, k: ObjKey, w: World)
    ensures Trace(cfg, k, Log(w, [], {}, ""), [], w)
  {
  }

  lemma StoredStatusFits(cfg: Config, w: World, k: ObjKey)
    requires k in w.cluster.crs
    ensures StatusFits(cfg, w, k, w.cluster.crs[k].status)
  {
  }

  lemma OriginIsOlder(cfg: Config, k: ObjKey, log: Log, run: seq<Turn>, w: World)
    requires Trace(cfg, k, log, run, w)
    ensures log.origin.cloud.nextGroup <= w.cloud.nextGroup
  {
  }

  lemma KeysAreFew(cfg: Config, w: World, g: nat)
    requires Inv(cfg, w) && g in w.cloud.groups
    ensures |w.cloud.groups[g].keys| <= 1
  {
    assert GroupOK(w.cloud, g);
  }

  lemma AttributedIsNotAdmin(cfg: Config, w: World, k: ObjKey, g: nat)
    requires Inv(cfg, w) && Attributed(cfg, w, k, g) && g in w.cloud.groups
    ensures !w.cloud.groups[g].admin
  {
    assert BucketOK(cfg, w, EffectiveName(w.cluster.crs[k])) && Names(OwnBucket(cfg, w, k), g);
  }

  lemma InvIgnoresObjects(cfg: Config, w: World, w': World)
    requires Inv(cfg, w) && w'.cloud == w.cloud && w'.cluster.secrets == w.cluster.secrets
    ensures Inv(cfg, w')
  {
    forall n | n in w'.cloud.buckets
      ensures BucketOK(cfg, w', n)
    {
      assert BucketOK(cfg, w, n);
    }
  }

  lemma FrozenMarksKeep(cfg: Config, w: World, w': World, k: ObjKey)
    requires Inv(cfg, w) && Inv(cfg, w') && k in w.cluster.crs && k in w'.cluster.crs
    requires OnlyMarks(cfg, Frozen(cfg, w, k), Frozen(cfg, w', k), k)
    ensures (Trusted(cfg, w', k) <==> Trusted(cfg, w, k)) && (Works(cfg, w', k) <==> Works(cfg, w, k))
  {
    hide Inv, OnlyMarks, Sound, KeyWorks;
    InvIgnoresObjects(cfg, w, Frozen(cfg, w, k));
    InvIgnoresObjects(cfg, w', Frozen(cfg, w', k));
    MarksKeepCredential(cfg, Frozen(cfg, w, k), Frozen(cfg, w', k), k);
  }

  /** Once the name is frozen, the effective name is the decided one. */
  lemma TraceIsFrozen(cfg: Config, k: ObjKey, log: Log, run: seq<Turn>, w: World)
    requires Trace(cfg, k, log, run, w) && log.frozen != ""
    ensures k in w.cluster.crs ==> Frozen(cfg, w, k) == w
  {
    hide Chain;
    if k in w.cluster.crs {
      FrozenIsStill(cfg, w, k);
    }
  }

  lemma MarksKeepTrust(cfg: Config, w: World, w': World, k: ObjKey)
    requires Inv(cfg, w) && Inv(cfg, w') && OnlyMarks(cfg, w, w', k)
    ensures (Trusted(cfg, w', k) <==> Trusted(cfg, w, k)) && (Works(cfg, w', k) <==> Works(cfg, w, k))
  {
    hide Inv, Sound, KeyWorks;
    var f, f' := Frozen(cfg, w, k), Frozen(cfg, w', k);
    assert f'.cluster.crs == f.cluster.crs[k := f'.cluster.crs[k]];
    assert forall at :: SecretAt(f, at) == SecretAt(w, at) && SecretAt(f', at) == SecretAt(w', at);
    assert SparesWorkloads(cfg, f, f');
    FrozenMarksKeep(cfg, w, w', k);
  }

  lemma OnlyObjectsWork(cfg: Config, w: World, k: ObjKey)
    ensures KeyWorks(cfg, w, k) ==> k in w.cluster.crs
  {
  }

  lemma CloneFits(cfg: Config, w: World, k: ObjKey, s: Status, clone: ClonePhase, phase: Phase)
    requires StatusFits(cfg, w, k, s) && (phase == s.phase || phase != PhaseFailed)
    requires if clone == CloneCompleted then k in w.cluster.jobs && w.cluster.jobs[k] == JobSucceeded
             else w.cluster.crs[k].status.clone != CloneCompleted
    requires s.ready == IsReady ==> w.cluster.crs[k].status.ready == IsReady
    ensures StatusFits(cfg, w, k, s.(clone := clone, phase := phase))
  {
  }

  lemma ObjectWent(cfg: Config, w: World, v: World, x: World, w': World, k: ObjKey, seen: bool, h: seq<Turn>)
    requires Releases(cfg, w, x, k) && w'.cloud == x.cloud && w'.cluster.secrets == x.cluster.secrets
    requires k !in w'.cluster.crs && v.cloud == w.cloud
    requires SecretKey(k, w.cluster.crs[k]) != cfg.adminSecret ==> SecretKey(k, w.cluster.crs[k]) !in x.cluster.secrets
    requires var n := EffectiveName(w.cluster.crs[k]); InView(cfg, w, k, seen) && n in x.cloud.buckets ==>
               Left(h, DeleteBucket(n))
    requires !seen ==> x.cloud == v.cloud
    ensures LetGoOf(cfg, w, w', k, seen, h)
    ensures Vacated(cfg, w, x, k) && EffectiveName(w.cluster.crs[k]) !in x.cloud.buckets ==> Removed(cfg, w, w', k)
  {
  }

  lemma PolicyFits(cfg: Config, w: World, w': World, k: ObjKey, s: Status, granted: seq<string>)
    requires StatusFits(cfg, w, k, s) && Steady(w, w', k) && w'.cluster == w.cluster
    requires s.ready == IsReady ==> w.cluster.crs[k].status.ready == IsReady
    requires s.bucketMissing ==> w.cluster.crs[k].status.bucketMissing
    ensures StatusFits(cfg, w', k, s.(grantedReadTo := granted))
  {
  }

  lemma PolicyIsSteady(w: World, w': World, n: string, p: Isolation, k: ObjKey)
    requires k in w.cluster.crs && n in w.cloud.buckets && (w' == w || w' == WithPolicy(w, n, p))
    ensures KeepsKeys(w, w', k)
  {
    assert w.cluster.crs[k := w.cluster.crs[k]] == w.cluster.crs;
  }

  lemma TagNamesUrn(cfg: Config, w: World, n: string)
    requires Inv(cfg, w) && n in w.cloud.buckets
    ensures TagsOK(cfg, w.cloud.buckets[n])
  {
    assert BucketOK(cfg, w, n);
  }

  lemma OneKey(keys: set<nat>, key: nat)
    requires key in keys && |keys| <= 1
    ensures keys == {key}
  {
    assert |keys - {key}| == 0;
    assert keys - {key} == {};
  }

  lemma StatusMarks(cfg: Config, w: World, w': World, s: Status, k: ObjKey)
    requires k in w.cluster.crs && SameHoldings(w.cluster.crs[k].status, s) && (w' == w || w' == WithStatus(w, k, s))
    ensures OnlyMarks(cfg, w, w', k)
  {
  }

  lemma MarksCompose(cfg: Config, u: World, v: World, w: World, k: ObjKey)
    requires OnlyMarks(cfg, u, v, k) && OnlyMarks(cfg, v, w, k)
    ensures OnlyMarks(cfg, u, w, k)
  {
  }

  lemma AdminMarks(cfg: Config, u: World, v: World, w: World, k: ObjKey)
    requires OnlyMarks(cfg, u, v, k) && OnlyAdmin(cfg, v, w)
    ensures OnlyMarks(cfg, u, w, k)
    ensures w.cluster.crs == v.cluster.crs && w.cloud.buckets == v.cloud.buckets && w.cluster.jobs == v.cluster.jobs
  {
    assert w.cluster.crs[k := w.cluster.crs[k]] == w.cluster.crs;
    assert OnlyMarks(cfg, v, w, k);
    MarksCompose(cfg, u, v, w, k);
  }

  lemma KeepsKeysComposes(u: World, v: World, w: World, k: ObjKey)
    requires KeepsKeys(u, v, k) && KeepsKeys(v, w, k)
    ensures KeepsKeys(u, w, k)
  {
  }

  lemma OnlyAdminComposes(cfg: Config, u: World, v: World, w: World)
    requires OnlyAdmin(cfg, u, v) && OnlyAdmin(cfg, v, w)
    ensures OnlyAdmin(cfg, u, w)
  {
  }

  lemma NextGroupIsNew(cfg: Config, w: World)
    requires Inv(cfg, w)
    ensures w.cloud.nextGroup !in w.cloud.groups
    ensures forall n :: n in w.cloud.buckets ==> !Names(w.cloud.buckets[n], w.cloud.nextGroup)
  {
    forall n | n in w.cloud.buckets
      ensures !Names(w.cloud.buckets[n], w.cloud.nextGroup)
    {
      assert BucketOK(cfg, w, n);
    }
  }
}
