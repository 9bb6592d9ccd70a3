/**
 The reconciler as a protocol over a shared provider.

 Every call that changes something outside the process is a `Write`. The provider and the
 cluster accept or refuse it by their own rules (`Accepts`, `Effect`). What the operator may
 ask for is the table `Licensed`: each line is a condition on the world at the very moment of
 the call. The lemmas below show that licensed writes and outside events keep the invariant,
 whatever order they come in and wherever the process stops; module Reconciler shows that the
 operator makes no other writes.
 */
module Protocol {
  import opened Wrappers
  import opened Errors
  import opened IsolationPolicy
  import opened Resources

  /******* Writes *******/

  datatype Write =
    | CreateBucket(name: string)
    | DeleteBucket(name: string)
    | PutTags(name: string, tags: Tags)
    | PutPolicy(name: string, policy: Isolation)
    | RemoveObject(name: string, current: bool)
    | CreateGroup(admin: bool)
    | DeleteGroup(group: nat)
    | MintKey(group: nat)
    | DropKey(group: nat, key: nat)
    | PutSecret(at: ObjKey, key: nat, bucketName: string)
    | DeleteSecret(at: ObjKey)
    | PutAdminSecret(creds: AdminCreds)
    | PutStatus(status: Status)
    | PutMeta(resolved: string, finalizer: bool)
    | CreateJob
    | DeleteJob

  /** The rules of the provider (409, 404, 422) and of the Kubernetes API. */
  predicate Accepts(w: World, k: ObjKey, wr: Write) {
    match wr
    case CreateBucket(n) => n !in w.cloud.buckets
    case DeleteBucket(n) => n in w.cloud.buckets && w.cloud.buckets[n].objects == 0 && w.cloud.buckets[n].versions == 0
    case PutTags(n, _) => n in w.cloud.buckets
    case PutPolicy(n, _) => n in w.cloud.buckets
    case RemoveObject(n, current) =>
      n in w.cloud.buckets && if current then w.cloud.buckets[n].objects > 0 else w.cloud.buckets[n].versions > 0
    case CreateGroup(_) => true
    case DeleteGroup(g) => g in w.cloud.groups && w.cloud.groups[g].keys == {}
    case MintKey(g) => g in w.cloud.groups
    case DropKey(g, key) => g in w.cloud.groups && key in w.cloud.groups[g].keys
    case PutSecret(at, _, _) =>
      at in w.cluster.secrets ==> w.cluster.secrets[at].owner.None? || w.cluster.secrets[at].owner == Some(k)
    case DeleteSecret(at) => at in w.cluster.secrets
    case PutAdminSecret(_) => true
    case PutStatus(_) => k in w.cluster.crs
    case PutMeta(_, _) => k in w.cluster.crs
    case CreateJob => k !in w.cluster.jobs
    case DeleteJob => k in w.cluster.jobs
  }

  function SecretAt(w: World, at: ObjKey): Secret {
    if at in w.cluster.secrets then w.cluster.secrets[at] else Secret(None, None, "", None)
  }

  function Effect(cfg: Config, w: World, k: ObjKey, wr: Write): World
    requires Accepts(w, k, wr)
  {
    var c, u := w.cloud, w.cluster;
    match wr
    case CreateBucket(n) => w.(cloud := c.(buckets := c.buckets[n := CloudBucket(0, 0, UNTAGGED, None)]))
    case DeleteBucket(n) => w.(cloud := c.(buckets := c.buckets - {n}))
    case PutTags(n, t) => w.(cloud := c.(buckets := c.buckets[n := c.buckets[n].(tags := t)]))
    case PutPolicy(n, p) => w.(cloud := c.(buckets := c.buckets[n := c.buckets[n].(policy := Some(p))]))
    case RemoveObject(n, current) =>
      var b := c.buckets[n];
      w.(cloud := c.(buckets := c.buckets[n :=
        if current then b.(objects := b.objects - 1) else b.(versions := b.versions - 1)]))
    case CreateGroup(admin) =>
      w.(cloud := c.(groups := c.groups[c.nextGroup := Group(admin, {})], nextGroup := c.nextGroup + 1))
    case DeleteGroup(g) => w.(cloud := c.(groups := c.groups - {g}))
    case MintKey(g) =>
      w.(cloud := c.(groups := c.groups[g := c.groups[g].(keys := c.groups[g].keys + {c.nextKey})],
          nextKey := c.nextKey + 1))
    case DropKey(g, key) =>
      w.(cloud := c.(groups := c.groups[g := c.groups[g].(keys := c.groups[g].keys - {key})]))
    case PutSecret(at, key, n) =>
      w.(cluster := u.(secrets := u.secrets[at := SecretAt(w,
          at).(owner := Some(k), accessKey := Some(key), bucketName := n)]))
    case DeleteSecret(at) => w.(cluster := u.(secrets := u.secrets - {at}))
    case PutAdminSecret(creds) =>
      w.(cluster := u.(secrets := u.secrets[cfg.adminSecret := SecretAt(w, cfg.adminSecret).(admin := Some(creds))]))
    case PutStatus(s) => w.(cluster := u.(crs := u.crs[k := u.crs[k].(status := s)]))
    case PutMeta(resolved, finalizer) =>
      if u.crs[k].deleting && !finalizer then w.(cluster := u.(crs := u.crs - {k}))
      else w.(cluster := u.(crs := u.crs[k := u.crs[k].(resolved := resolved, finalizer := finalizer)]))
    case CreateJob => w.(cluster := u.(jobs := u.jobs[k := JobRunning]))
    case DeleteJob => w.(cluster := u.(jobs := u.jobs - {k}))
  }

  /******* The invariant *******/

  predicate GroupOK(c: Cloud, g: nat)
    requires g in c.groups
  {
    g < c.nextGroup && |c.groups[g].keys| <= 1 && forall key :: key in c.groups[g].keys ==> key < c.nextKey
  }

  predicate AdminOK(cfg: Config, w: World) {
    AdminOf(cfg, w).Some? ==>
      var a := AdminOf(cfg, w).value;
      && a.urn == UrnOf(a.groupId) && a.groupId < w.cloud.nextGroup
      && (a.groupId in w.cloud.groups ==> w.cloud.groups[a.groupId].admin)
  }

  /** A group a bucket may lay claim to: issued, and not the admin group. */
  predicate Claimable(cfg: Config, w: World, g: nat) {
    && g < w.cloud.nextGroup
    && (g in w.cloud.groups ==> !w.cloud.groups[g].admin)
    && (AdminOf(cfg, w).Some? ==> AdminOf(cfg, w).value.groupId != g)
  }

  ghost predicate ClaimsOK(cfg: Config, w: World, b: CloudBucket) {
    forall g: nat :: Names(b, g) ==> Claimable(cfg, w, g)
  }

  /** A group tag comes with the ownership tags and, unless it predates the URN tag, with the group's URN. */
  predicate TagsOK(cfg: Config, b: CloudBucket) {
    b.tags.groupId.Some? ==>
      b.tags.managedBy == cfg.ownership && (b.tags.groupUrn == "" || b.tags.groupUrn == UrnOf(b.tags.groupId.value))
  }

  /** A policy is one the operator wrote for this bucket; the group it trusts is the tagged one or is gone. */
  predicate PolicyOK(cfg: Config, w: World, n: string, b: CloudBucket) {
    b.policy.Some? ==>
      var p := b.policy.value;
      && p.bucket == n && b.tags.groupId.Some? && IsUrn(p.workload)
      && AdminOf(cfg, w).Some? && p.admin == AdminOf(cfg, w).value.urn
      && (|p.workload| - 4 in w.cloud.groups ==> b.tags.groupId == Some(|p.workload| - 4))
  }

  /** An attributed group holding a key is isolated by the bucket's own policy. */
  predicate KeyedOK(w: World, b: CloudBucket) {
    b.tags.groupId.Some? && b.tags.groupId.value in w.cloud.groups
        && w.cloud.groups[b.tags.groupId.value].keys != {} ==>
      b.policy.Some? && b.policy.value.workload == UrnOf(b.tags.groupId.value)
  }

  ghost predicate BucketOK(cfg: Config, w: World, n: string)
    requires n in w.cloud.buckets
  {
    var b := w.cloud.buckets[n];
    ClaimsOK(cfg, w, b) && TagsOK(cfg, b) && PolicyOK(cfg, w, n, b) && KeyedOK(w, b)
  }

  /** No two buckets lay claim to the same group. */
  ghost predicate Disjoint(buckets: map<string, CloudBucket>) {
    forall g: nat, m, n ::
      m in buckets && n in buckets && Names(buckets[m], g) && Names(buckets[n], g) ==> m == n
  }

  ghost predicate Inv(cfg: Config, w: World) {
    && AdminOK(cfg, w)
    && (forall g :: g in w.cloud.groups ==> GroupOK(w.cloud, g))
    && (forall n :: n in w.cloud.buckets ==> BucketOK(cfg, w, n))
    && Disjoint(w.cloud.buckets)
  }

  /******* What the operator may ask for *******/

  /** A group nobody lays claim to yet and nobody can use yet. */
  ghost predicate Unclaimed(w: World, g: nat) {
    && g in w.cloud.groups && !w.cloud.groups[g].admin && w.cloud.groups[g].keys == {}
    && forall n :: n in w.cloud.buckets ==> !Names(w.cloud.buckets[n], g)
  }

  /** The bucket's recorded group, if any, is gone. */
  predicate TagVacant(w: World, b: CloudBucket) {
    b.tags.groupId.Some? ==> b.tags.groupId.value !in w.cloud.groups
  }

  /** The recorded group holds no key. */
  predicate Unkeyed(w: World, b: CloudBucket) {
    b.tags.groupId.Some? && b.tags.groupId.value in w.cloud.groups ==> w.cloud.groups[b.tags.groupId.value].keys == {}
  }

  /** Whose bucket a pass for k may tag: its own, or that of a Bucket it grants read access to. */
  predicate MayTag(cfg: Config, w: World, k: ObjKey, n: string) {
    Owns(cfg, w, k) &&
    var cr := w.cluster.crs[k];
    (n == EffectiveName(cr)
     || exists name :: name in cr.spec.grants && Owns(cfg, w, ObjKey(k.ns, name))
                       && n == EffectiveName(w.cluster.crs[ObjKey(k.ns, name)]))
  }

  /** Recording group g on a bucket: it is already there, the bucket's own policy names it, or it is new. */
  ghost predicate MayRecord(w: World, b: CloudBucket, g: nat) {
    || b.tags.groupId == Some(g)
    || (TagVacant(w, b) && (Unclaimed(w, g) || (b.policy.Some? && b.policy.value.workload == UrnOf(g))))
  }

  predicate MayRead(cfg: Config, w: World, k: ObjKey, grants: seq<string>, urn: string) {
    exists name :: name in grants && name != k.name && GranteeUrn(cfg, w, k, name) == Some(urn)
  }

  /** The Bucket is provisioned: keyed group, isolating policy, published Secret. */
  predicate Provisioned(cfg: Config, w: World, k: ObjKey) {
    Owns(cfg, w, k) &&
    var cr, b := w.cluster.crs[k], OwnBucket(cfg, w, k);
    && b.tags.groupId.Some? && b.tags.groupId.value in w.cloud.groups
    && w.cloud.groups[b.tags.groupId.value].keys != {}
    && Isolates(cfg, w, EffectiveName(cr), b.tags.groupId.value)
    && SecretAt(w, SecretKey(k, cr)).accessKey.Some?
  }

  /** A status that tells the truth about the world, given the one stored before. */
  predicate StatusFits(cfg: Config, w: World, k: ObjKey, s: Status) {
    k in w.cluster.crs &&
    var cr := w.cluster.crs[k];
    && (|| s.resolvedName == cr.status.resolvedName
        || (cr.status.resolvedName == "" && cr.resolved != ""
            && s.resolvedName == EffectiveName(cr) && Owns(cfg, w, k)))
    && (s.bucketUrl == cr.status.bucketUrl || s.resolvedName != "")
    && (s.groupId == cr.status.groupId
        || (s.groupId.Some? && cr.resolved != "" && Attributed(cfg, w, k, s.groupId.value)))
    && (cr.status.clone == CloneCompleted ==> s.clone == CloneCompleted)
    && (s.clone == CloneCompleted && cr.status.clone != CloneCompleted ==>
          k in w.cluster.jobs && w.cluster.jobs[k] == JobSucceeded)
    && (s.bucketMissing && !cr.status.bucketMissing ==>
          cr.status.resolvedName != "" && cr.status.resolvedName !in w.cloud.buckets)
    && (Coherent(cr.status) ==> Coherent(s))
    && (s.ready == IsReady && cr.status.ready != IsReady ==> Provisioned(cfg, w, k) && !ClonePending(cr.(status := s)))
  }

  ghost predicate Licensed(cfg: Config, w: World, k: ObjKey, wr: Write) {
    k in w.cluster.crs &&
    var cr := w.cluster.crs[k];
    match wr
    // a bucket is created under the frozen name; once it was provisioned, only with allowRecreate
    case CreateBucket(n) =>
      !cr.deleting && cr.resolved != "" && n == EffectiveName(cr)
          && (cr.status.resolvedName == "" || cr.spec.allowRecreate)
    // a bucket is deleted on request, by its owner, once its group holds no key
    case DeleteBucket(n) => cr.deleting && Owns(cfg, w, k)
        && n == EffectiveName(cr) && Unkeyed(w, OwnBucket(cfg, w, k))
    case PutTags(n, t) =>
      n in w.cloud.buckets &&
      var b := w.cloud.buckets[n];
      || (// claiming a bucket: untagged, empty, and this Bucket's by name
           && !cr.deleting && n == EffectiveName(cr) && b.tags == UNTAGGED
           && b.objects == 0 && t == OwnershipTags(cfg, k))
      || (// recording a group
           && MayTag(cfg, w, k, n) && b.tags.managedBy == cfg.ownership && t.groupId.Some?
           && t == b.tags.(groupId := t.groupId, groupUrn := UrnOf(t.groupId.value))
           && MayRecord(w, b, t.groupId.value))
    case PutPolicy(n, p) =>
      && !cr.deleting && Owns(cfg, w, k) && n == EffectiveName(cr) && AdminOf(cfg, w).Some?
      && OwnBucket(cfg, w, k).tags.groupId.Some?
      && p.bucket == n && p.admin == AdminOf(cfg, w).value.urn
      && p.workload == UrnOf(OwnBucket(cfg, w, k).tags.groupId.value)
      && Canonical(p)
      && (forall u :: u in p.readers ==> MayRead(cfg, w, k, cr.spec.grants, u))
      && (ClonePending(cr) ==> p.readers == [])
    case RemoveObject(n, _) =>
      cr.deleting && cr.spec.wipeOnDelete && cfg.wipeGate && Owns(cfg, w, k) && n == EffectiveName(cr)
    case CreateGroup(admin) => admin || (!cr.deleting && Owns(cfg, w, k))
    // a group is deleted when its own bucket goes, or rolled back while nobody else lays claim to it
    case DeleteGroup(g) =>
      || (cr.deleting && Attributed(cfg, w, k, g))
      || (&& !cr.deleting && g in w.cloud.groups && !w.cloud.groups[g].admin
          && forall n :: n in w.cloud.buckets && Names(w.cloud.buckets[n], g) ==> n == EffectiveName(cr))
    // a key is minted into an empty group: the admin's, or the isolated group attributed to this Bucket
    case MintKey(g) =>
      g in w.cloud.groups && w.cloud.groups[g].keys == {} &&
      (|| (w.cloud.groups[g].admin && AdminOf(cfg, w).None?)
       || (&& !cr.deleting && Attributed(cfg, w, k, g) && Isolates(cfg, w, EffectiveName(cr), g)
           && !(ClonePending(cr) && HoldsSecret(cr))))
    case DropKey(g, _) => (g in w.cloud.groups && w.cloud.groups[g].admin) || Attributed(cfg, w, k, g)
    case PutSecret(at, key, n) =>
      && !cr.deleting && at == SecretKey(k, cr) && at != cfg.adminSecret
      && Owns(cfg, w, k) && n == EffectiveName(cr)
      && OwnBucket(cfg, w, k).tags.groupId.Some? && OwnBucket(cfg, w, k).tags.groupId.value in w.cloud.groups
      && key in w.cloud.groups[OwnBucket(cfg, w, k).tags.groupId.value].keys
      && !(ClonePending(cr) && HoldsSecret(cr))
    case DeleteSecret(at) => cr.deleting && at == SecretKey(k, cr) && at != cfg.adminSecret
    case PutAdminSecret(a) =>
      && AdminOf(cfg, w).None? && a.urn == UrnOf(a.groupId)
      && a.groupId in w.cloud.groups && w.cloud.groups[a.groupId].admin
    case PutStatus(s) => StatusFits(cfg, w, k, s)
    // the name that is frozen is the decided one; the finalizer goes only with a deletion
    case PutMeta(resolved, finalizer) =>
      && (resolved == cr.resolved || (!cr.deleting && resolved != "" && resolved == DecideName(cfg.naming, k, cr).0))
      && (finalizer || cr.deleting || !cr.finalizer)
    case CreateJob => !cr.deleting && ClonePending(cr)
    case DeleteJob => true
  }

  /******* Licensed writes keep the invariant *******/

  /** What the per-bucket conditions read besides the bucket itself. */
  predicate SameForBuckets(cfg: Config, w: World, w': World) {
    && AdminOf(cfg, w') == AdminOf(cfg, w) && w'.cloud.nextGroup >= w.cloud.nextGroup
    && (forall g :: g in w'.cloud.groups ==> g in w.cloud.groups && w'.cloud.groups[g].admin == w.cloud.groups[g].admin)
    && (forall g :: g in w'.cloud.groups && w'.cloud.groups[g].keys != {} ==> w.cloud.groups[g].keys != {})
  }

  lemma BucketKept(cfg: Config, w: World, w': World, n: string)
    requires n in w.cloud.buckets && n in w'.cloud.buckets && BucketOK(cfg, w, n) && SameForBuckets(cfg, w, w')
    requires w'.cloud.buckets[n].tags == w.cloud.buckets[n].tags
    requires w'.cloud.buckets[n].policy == w.cloud.buckets[n].policy
    ensures BucketOK(cfg, w', n)
  {
    var b, b' := w.cloud.buckets[n], w'.cloud.buckets[n];
    assert forall g: nat :: Names(b', g) <==> Names(b, g);
  }

  lemma OthersKeepAdmin(cfg: Config, w: World, k: ObjKey, wr: Write)
    requires Accepts(w, k, wr) && Licensed(cfg, w, k, wr) && !wr.PutAdminSecret?
    ensures AdminOf(cfg, Effect(cfg, w, k, wr)) == AdminOf(cfg, w)
  {
  }

  /** Writes that touch neither groups nor tags nor policies of existing buckets. */
  lemma KeepOthers(cfg: Config, w: World, k: ObjKey, wr: Write)
    requires Inv(cfg, w) && Accepts(w, k, wr) && AdminOf(cfg, Effect(cfg, w, k, wr)) == AdminOf(cfg, w)
    requires wr.CreateBucket? || wr.DeleteBucket? || wr.RemoveObject? || wr.PutSecret? || wr.DeleteSecret?
             || wr.PutStatus? || wr.PutMeta? || wr.CreateJob? || wr.DeleteJob?
    ensures Inv(cfg, Effect(cfg, w, k, wr))
  {
    hide Names, Effect;
    var w' := Effect(cfg, w, k, wr);
    OthersSpareTags(cfg, w, k, wr);
    forall n | n in w'.cloud.buckets
      ensures BucketOK(cfg, w', n)
    {
      if n in w.cloud.buckets {
        BucketKept(cfg, w, w', n);
      }
    }
    forall g: nat, m, n | m in w'.cloud.buckets && n in w'.cloud.buckets
        && Names(w'.cloud.buckets[m], g) && Names(w'.cloud.buckets[n], g)
      ensures m == n
    {
      assert m in w.cloud.buckets && n in w.cloud.buckets;
      assert Names(w.cloud.buckets[m], g) && Names(w.cloud.buckets[n], g);
    }
  }

  lemma OthersSpareTags(cfg: Config, w: World, k: ObjKey, wr: Write)
    requires Accepts(w, k, wr)
    requires wr.CreateBucket? || wr.DeleteBucket? || wr.RemoveObject? || wr.PutSecret? || wr.DeleteSecret?
             || wr.PutStatus? || wr.PutMeta? || wr.CreateJob? || wr.DeleteJob?
    ensures var w' := Effect(cfg, w, k, wr);
            && w'.cloud.groups == w.cloud.groups && w'.cloud.nextGroup == w.cloud.nextGroup
            && w'.cloud.nextKey == w.cloud.nextKey
            && forall n :: n in w'.cloud.buckets ==>
                 if n in w.cloud.buckets
                 then w'.cloud.buckets[n].tags == w.cloud.buckets[n].tags
                      && w'.cloud.buckets[n].policy == w.cloud.buckets[n].policy
                      && forall g: nat :: Names(w'.cloud.buckets[n], g) <==> Names(w.cloud.buckets[n], g)
                 else BucketOK(cfg, w', n) && forall g: nat :: !Names(w'.cloud.buckets[n], g)
  {
  }

  lemma KeepPutTags(cfg: Config, w: World, k: ObjKey, wr: Write)
    requires Inv(cfg, w) && Accepts(w, k, wr) && Licensed(cfg, w, k, wr) && wr.PutTags?
    ensures Inv(cfg, Effect(cfg, w, k, wr))
  {
    var w' := Effect(cfg, w, k, wr);
    var b, b' := w.cloud.buckets[wr.name], w'.cloud.buckets[wr.name];
    assert BucketOK(cfg, w, wr.name);
    forall g: nat | Names(b', g) && !Names(b, g)
      ensures Unclaimed(w, g)
    {
    }
    forall n | n in w'.cloud.buckets
      ensures BucketOK(cfg, w', n)
    {
      if n != wr.name {
        BucketKept(cfg, w, w', n);
      } else {
        assert forall g: nat :: Names(b', g) ==> Names(b, g) || Unclaimed(w, g);
        UnclaimedIsClaimable(cfg, w);
      }
    }
    forall g: nat, m, n | m in w'.cloud.buckets && n in w'.cloud.buckets
        && Names(w'.cloud.buckets[m], g) && Names(w'.cloud.buckets[n], g)
      ensures m == n
    {
      if !Unclaimed(w, g) {
        assert Names(w.cloud.buckets[m], g) && Names(w.cloud.buckets[n], g);
      }
    }
  }

  lemma UnclaimedIsClaimable(cfg: Config, w: World)
    requires Inv(cfg, w)
    ensures forall g: nat :: Unclaimed(w, g) ==> Claimable(cfg, w, g)
  {
    forall g: nat | Unclaimed(w, g)
      ensures Claimable(cfg, w, g)
    {
      assert GroupOK(w.cloud, g);
    }
  }

  lemma PolicyWritten(cfg: Config, w: World, k: ObjKey, wr: Write)
    requires Inv(cfg, w) && Accepts(w, k, wr) && Licensed(cfg, w, k, wr) && wr.PutPolicy?
    ensures var w' := Effect(cfg, w, k, wr);
            BucketOK(cfg, w', wr.name) && forall g: nat :: Names(w'.cloud.buckets[wr.name], g) ==>
                Names(w.cloud.buckets[wr.name], g)
  {
    var b, b' := w.cloud.buckets[wr.name], Effect(cfg, w, k, wr).cloud.buckets[wr.name];
    assert BucketOK(cfg, w, wr.name);
    forall g: nat | Names(b', g)
      ensures Names(b, g)
    {
      assert |b'.policy.value.workload| == |UrnOf(b.tags.groupId.value)|;
    }
  }

  lemma KeepPutPolicy(cfg: Config, w: World, k: ObjKey, wr: Write)
    requires Inv(cfg, w) && Accepts(w, k, wr) && Licensed(cfg, w, k, wr) && wr.PutPolicy?
    ensures Inv(cfg, Effect(cfg, w, k, wr))
  {
    hide Licensed;
    var w' := Effect(cfg, w, k, wr);
    PolicyWritten(cfg, w, k, wr);
    forall n | n in w'.cloud.buckets && n != wr.name
      ensures BucketOK(cfg, w', n)
    {
      BucketKept(cfg, w, w', n);
    }
    forall g: nat, m, n | m in w'.cloud.buckets && n in w'.cloud.buckets
        && Names(w'.cloud.buckets[m], g) && Names(w'.cloud.buckets[n], g)
      ensures m == n
    {
      assert Names(w.cloud.buckets[m], g) && Names(w.cloud.buckets[n], g);
    }
  }

  lemma KeepCreateGroup(cfg: Config, w: World, k: ObjKey, wr: Write)
    requires Inv(cfg, w) && Accepts(w, k, wr) && wr.CreateGroup?
    ensures Inv(cfg, Effect(cfg, w, k, wr))
  {
    var w' := Effect(cfg, w, k, wr);
    assert w.cloud.nextGroup !in w.cloud.groups;
    forall g | g in w'.cloud.groups
      ensures GroupOK(w'.cloud, g)
    {
      if g != w.cloud.nextGroup {
        assert GroupOK(w.cloud, g);
      }
    }
    forall n | n in w'.cloud.buckets
      ensures BucketOK(cfg, w', n)
    {
      assert BucketOK(cfg, w, n);
      var b := w.cloud.buckets[n];
      assert !Names(b, w.cloud.nextGroup);
      if b.policy.Some? {
        assert Names(b, |b.policy.value.workload| - 4);
      }
    }
  }

  lemma KeepDeleteGroup(cfg: Config, w: World, k: ObjKey, wr: Write)
    requires Inv(cfg, w) && Accepts(w, k, wr) && wr.DeleteGroup?
    ensures Inv(cfg, Effect(cfg, w, k, wr))
  {
    var w' := Effect(cfg, w, k, wr);
    forall g | g in w'.cloud.groups
      ensures GroupOK(w'.cloud, g)
    {
      assert GroupOK(w.cloud, g);
    }
    forall n | n in w'.cloud.buckets
      ensures BucketOK(cfg, w', n)
    {
      BucketKept(cfg, w, w', n);
    }
  }

  lemma KeepDropKey(cfg: Config, w: World, k: ObjKey, wr: Write)
    requires Inv(cfg, w) && Accepts(w, k, wr) && wr.DropKey?
    ensures Inv(cfg, Effect(cfg, w, k, wr))
  {
    var w' := Effect(cfg, w, k, wr);
    forall g | g in w'.cloud.groups
      ensures GroupOK(w'.cloud, g)
    {
      assert GroupOK(w.cloud, g);
      SubsetIsSmaller(w'.cloud.groups[g].keys, w.cloud.groups[g].keys);
    }
    forall n | n in w'.cloud.buckets
      ensures BucketOK(cfg, w', n)
    {
      BucketKept(cfg, w, w', n);
    }
  }

  lemma KeepMintKey(cfg: Config, w: World, k: ObjKey, wr: Write)
    requires Inv(cfg, w) && Accepts(w, k, wr) && Licensed(cfg, w, k, wr) && wr.MintKey?
    ensures Inv(cfg, Effect(cfg, w, k, wr))
  {
    var w' := Effect(cfg, w, k, wr);
    forall g | g in w'.cloud.groups
      ensures GroupOK(w'.cloud, g)
    {
      assert GroupOK(w.cloud, g);
    }
    forall n | n in w'.cloud.buckets
      ensures BucketOK(cfg, w', n)
    {
      MintedBucket(cfg, w, k, wr, n);
    }
  }

  lemma MintedBucket(cfg: Config, w: World, k: ObjKey, wr: Write, n: string)
    requires Inv(cfg, w) && Accepts(w, k, wr) && Licensed(cfg, w, k, wr) && wr.MintKey? && n in w.cloud.buckets
    ensures BucketOK(cfg, Effect(cfg, w, k, wr), n)
  {
    var b := w.cloud.buckets[n];
    assert BucketOK(cfg, w, n);
    if b.tags.groupId == Some(wr.group) {
      assert Names(b, wr.group);
      if !w.cloud.groups[wr.group].admin {
        assert Names(OwnBucket(cfg, w, k), wr.group);
      }
    }
  }

  lemma SubsetIsSmaller(a: set<nat>, b: set<nat>)
    requires a <= b
    ensures |a| <= |b|
  {
    assert b == a + (b - a);
  }

  lemma KeepPutAdminSecret(cfg: Config, w: World, k: ObjKey, wr: Write)
    requires Inv(cfg, w) && Accepts(w, k, wr) && Licensed(cfg, w, k, wr) && wr.PutAdminSecret?
    ensures Inv(cfg, Effect(cfg, w, k, wr))
  {
    var w' := Effect(cfg, w, k, wr);
    assert GroupOK(w.cloud, wr.creds.groupId);
    forall n | n in w'.cloud.buckets
      ensures BucketOK(cfg, w', n)
    {
      assert BucketOK(cfg, w, n);
    }
  }

  /** Whatever the operator is licensed to do keeps the invariant. */
  lemma LicensedKeepsInv(cfg: Config, w: World, k: ObjKey, wr: Write)
    requires Inv(cfg, w) && Accepts(w, k, wr) && Licensed(cfg, w, k, wr)
    ensures Inv(cfg, Effect(cfg, w, k, wr))
  {
    match wr
    case PutTags(_, _) => KeepPutTags(cfg, w, k, wr);
    case PutPolicy(_, _) => KeepPutPolicy(cfg, w, k, wr);
    case CreateGroup(_) => KeepCreateGroup(cfg, w, k, wr);
    case DeleteGroup(_) => KeepDeleteGroup(cfg, w, k, wr);
    case MintKey(_) => KeepMintKey(cfg, w, k, wr);
    case DropKey(_, _) => KeepDropKey(cfg, w, k, wr);
    case PutAdminSecret(_) => KeepPutAdminSecret(cfg, w, k, wr);
    case _ =>
      OthersKeepAdmin(cfg, w, k, wr);
      KeepOthers(cfg, w, k, wr);
  }

  /** The admin credential, once persisted, is never replaced by a licensed write. */
  lemma LicensedKeepsAdmin(cfg: Config, w: World, k: ObjKey, wr: Write)
    requires Accepts(w, k, wr) && Licensed(cfg, w, k, wr) && AdminOf(cfg, w).Some?
    ensures AdminOf(cfg, Effect(cfg, w, k, wr)) == AdminOf(cfg, w)
  {
  }

  /******* Runs *******/

  /** One step of a run: a call the operator made, and whether it took effect, or something that happened outside. */
  datatype Move = Call(key: ObjKey, write: Write, took: bool) | Outside(next: World)

  datatype Turn = Turn(world: World, move: Move)

  function After(cfg: Config, t: Turn): World
    requires t.move.Call? && t.move.took ==> Accepts(t.world, t.move.key, t.move.write)
  {
    if t.move.Outside? then t.move.next
    else if t.move.took then Effect(cfg, t.world, t.move.key, t.move.write)
    else t.world
  }

  /** What the API server enforces: well-formed Buckets in namespaces that are DNS labels. */
  predicate Schema(w: World) {
    forall k :: k in w.cluster.crs ==> WellFormed(w.cluster.crs[k]) && '/' !in k.ns
  }

  /**
   What may happen outside: users edit, create and remove Bucket objects at will (status and
   annotations included), Secrets other than the admin Secret come and go, workloads write and
   delete objects, groups, keys and whole buckets vanish, untagged buckets appear, Jobs progress.
   Tags, policies and the admin Secret change only through the operator.
   */
  ghost predicate Happens(cfg: Config, w: World, w': World) {
    && AdminOf(cfg, w') == AdminOf(cfg, w)
    && w'.cloud.nextGroup == w.cloud.nextGroup && w'.cloud.nextKey == w.cloud.nextKey
    && (forall g :: g in w'.cloud.groups ==>
          g in w.cloud.groups && w'.cloud.groups[g].admin == w.cloud.groups[g].admin
              && w'.cloud.groups[g].keys <= w.cloud.groups[g].keys)
    && (forall n :: n in w'.cloud.buckets && n in w.cloud.buckets ==>
          (w'.cloud.buckets[n].tags == w.cloud.buckets[n].tags
              && w'.cloud.buckets[n].policy == w.cloud.buckets[n].policy)
          || (w'.cloud.buckets[n].tags == UNTAGGED && w'.cloud.buckets[n].policy == None))
    && (forall n :: n in w'.cloud.buckets && n !in w.cloud.buckets ==>
          w'.cloud.buckets[n].tags == UNTAGGED && w'.cloud.buckets[n].policy == None)
    && Schema(w')
  }

  ghost predicate TurnOK(cfg: Config, t: Turn) {
    match t.move
    case Outside(next) => Happens(cfg, t.world, next)
    case Call(k, wr, took) =>
      (took ==> Accepts(t.world, k, wr)) && (Accepts(t.world, k, wr) ==> Licensed(cfg, t.world, k, wr))
  }

  /** The object x and the bucket it decides on are as they were. */
  predicate SameFor(w: World, w': World, x: ObjKey) {
    && (x in w'.cluster.crs <==> x in w.cluster.crs)
    && (x in w.cluster.crs ==>
          && w'.cluster.crs[x] == w.cluster.crs[x]
          && SameBucket(w, w', EffectiveName(w.cluster.crs[x]))
          && SameBucket(w, w', w.cluster.crs[x].status.resolvedName))
  }

  predicate SameBucket(w: World, w': World, n: string) {
    && (n in w'.cloud.buckets <==> n in w.cloud.buckets)
    && (n in w.cloud.buckets ==> w'.cloud.buckets[n] == w.cloud.buckets[n])
  }

  /** The event changes nothing a pass over k goes by: k, its grantees, their buckets, its group, Secret and Job. */
  ghost predicate Elsewhere(cfg: Config, w: World, w': World, k: ObjKey) {
    && Happens(cfg, w, w') && SameFor(w, w', k)
    && (k in w.cluster.crs ==>
          forall name :: name in w.cluster.crs[k].spec.grants ==> SameFor(w, w', ObjKey(k.ns, name)))
    && (forall g :: g in w.cloud.groups && (w.cloud.groups[g].admin || Attributed(cfg, w, k, g) || Unclaimed(w, g)) ==>
          g in w'.cloud.groups && w'.cloud.groups[g] == w.cloud.groups[g])
    && (k in w.cluster.crs ==>
          var at := SecretKey(k, w.cluster.crs[k]); SecretAt(w', at) == SecretAt(w, at))
    && (k in w'.cluster.jobs <==> k in w.cluster.jobs)
    && (k in w.cluster.jobs ==> w'.cluster.jobs[k] == w.cluster.jobs[k])
  }

  /** An event elsewhere in the middle of a pass takes no licence away: what was decided before may still be done. */
  lemma LicenceOutlives(cfg: Config, w: World, w': World, k: ObjKey, wr: Write)
    requires Elsewhere(cfg, w, w', k) && Licensed(cfg, w, k, wr) && Accepts(w', k, wr)
    ensures Licensed(cfg, w', k, wr)
  {
    hide Schema, StatusFits, MayTag, MayRecord, MayRead, Unclaimed;
    match wr
    case PutStatus(s) => StatusStillFits(cfg, w, w', k, s);
    case PutTags(n, t) => TagsStillLicensed(cfg, w, w', k, n, t);
    case PutPolicy(_, p) => ReadersStillMayRead(cfg, w, w', k);
    case _ =>
  }

  lemma StatusStillFits(cfg: Config, w: World, w': World, k: ObjKey, s: Status)
    requires Elsewhere(cfg, w, w', k) && StatusFits(cfg, w, k, s)
    ensures StatusFits(cfg, w', k, s)
  {
    hide Schema, MayRead;
  }

  lemma TagsStillLicensed(cfg: Config, w: World, w': World, k: ObjKey, n: string, t: Tags)
    requires Elsewhere(cfg, w, w', k) && Licensed(cfg, w, k, PutTags(n, t)) && n in w'.cloud.buckets
    ensures Licensed(cfg, w', k, PutTags(n, t))
  {
    hide Elsewhere, Unclaimed, MayTag, Owns;
    StaysClaimable(cfg, w, w', k);
    if MayTag(cfg, w, k, n) {
      StaysTaggable(cfg, w, w', k, n);
    }
  }

  lemma StaysClaimable(cfg: Config, w: World, w': World, k: ObjKey)
    requires Elsewhere(cfg, w, w', k)
    ensures w'.cloud.groups.Keys <= w.cloud.groups.Keys
    ensures forall g: nat :: Unclaimed(w, g) ==> Unclaimed(w', g)
    ensures k in w.cluster.crs ==> SameFor(w, w', k)
  {
    hide Schema, SameFor;
  }

  lemma StaysTaggable(cfg: Config, w: World, w': World, k: ObjKey, n: string)
    requires Elsewhere(cfg, w, w', k) && MayTag(cfg, w, k, n)
    ensures MayTag(cfg, w', k, n) && SameBucket(w, w', n)
  {
    hide Schema, Happens, Unclaimed, Attributed;
  }

  lemma ReadersStillMayRead(cfg: Config, w: World, w': World, k: ObjKey)
    requires Elsewhere(cfg, w, w', k) && k in w.cluster.crs
    ensures forall u :: MayRead(cfg, w, k, w.cluster.crs[k].spec.grants, u) ==>
              MayRead(cfg, w', k, w.cluster.crs[k].spec.grants, u)
  {
    hide Schema;
    var grants := w.cluster.crs[k].spec.grants;
    forall u | MayRead(cfg, w, k, grants, u)
      ensures MayRead(cfg, w', k, grants, u)
    {
      var name :| name in grants && name != k.name && GranteeUrn(cfg, w, k, name) == Some(u);
      assert GranteeUrn(cfg, w', k, name) == Some(u);
    }
  }

  function WorldAt(run: seq<Turn>, w: World, i: nat): World
    requires i <= |run|
  {
    if i < |run| then run[i].world else w
  }

  /** A run from its first world to w: every turn is in order and leads to the next. */
  ghost predicate Chain(cfg: Config, run: seq<Turn>, w: World) {
    forall i :: 0 <= i < |run| ==>
      TurnOK(cfg, run[i]) && After(cfg, run[i]) == WorldAt(run, w, i + 1)
  }

  lemma ChainGrows(cfg: Config, run: seq<Turn>, t: Turn)
    requires Chain(cfg, run, t.world) && TurnOK(cfg, t)
    ensures Chain(cfg, run + [t], After(cfg, t))
  {
    hide Licensed, Happens, Effect, Accepts;
    var longer, w := run + [t], After(cfg, t);
    forall i | 0 <= i < |longer|
      ensures TurnOK(cfg, longer[i]) && After(cfg, longer[i]) == WorldAt(longer, w, i + 1)
    {
      if i < |run| {
        assert longer[i] == run[i] && After(cfg, run[i]) == WorldAt(run, t.world, i + 1);
      }
    }
  }

  /** Outside a teardown a pass deletes only groups it made itself. */
  predicate RollsBackOwn(origin: World, t: Turn) {
    t.move.Call? && t.move.write.DeleteGroup? && t.move.key in t.world.cluster.crs
        && !t.world.cluster.crs[t.move.key].deleting ==>
      t.move.write.group >= origin.cloud.nextGroup
  }

  /**
   The provider's own structured 404 about a bucket, heard after `at` writes of the pass; `call`
   is the call that was answered.
   */
  datatype Answer = Answer(name: string, error: Error, at: nat, call: nat)

  /**
   A bucket that was provisioned once and is gone is created again only after the provider itself
   said that it is gone.
   */
  predicate FollowsAnswer(answers: seq<Answer>, t: Turn, i: nat) {
    t.move.Call? && t.move.write.CreateBucket? && t.move.write.name !in t.world.cloud.buckets
    && t.move.key in t.world.cluster.crs && t.world.cluster.crs[t.move.key].status.resolvedName != "" ==>
      exists a :: a in answers && a.name == t.move.write.name && a.at <= i
  }

  /** The group or bucket a call is to delete is there. */
  predicate InPlace(w: World, wr: Write) {
    match wr
    case DeleteGroup(g) => g in w.cloud.groups
    case DeleteBucket(n) => n in w.cloud.buckets
    case _ => false
  }

  /** The turn was to delete something that was there, and left it in place. */
  predicate Leaves(t: Turn, wr: Write) {
    t.move.Call? && t.move.write == wr && !t.move.took && InPlace(t.world, wr)
  }

  predicate Deletes(t: Turn, wr: Write) {
    t.move.Call? && t.move.write == wr && t.move.took
  }

  /** Some call was to delete it while it was there, and left it in place. */
  predicate Left(run: seq<Turn>, wr: Write) {
    exists i :: 0 <= i < |run| && Leaves(run[i], wr)
  }

  /** A call that was to delete it while it was there left it in place, and no later one deleted it. */
  ghost predicate Spared(run: seq<Turn>, wr: Write) {
    exists i :: 0 <= i < |run| && Leaves(run[i], wr) && forall j :: i < j < |run| ==> !Deletes(run[j], wr)
  }

  /**
   A bucket is deleted only once its group is gone, or the call to delete the group was made and
   left it in place.
   */
  predicate GroupFirst(run: seq<Turn>, t: Turn, i: nat) {
    t.move.Call? && t.move.write.DeleteBucket? && t.move.write.name in t.world.cloud.buckets
    && !TagVacant(t.world, t.world.cloud.buckets[t.move.write.name]) ==>
      exists j :: 0 <= j < i && j < |run|
          && Leaves(run[j], DeleteGroup(t.world.cloud.buckets[t.move.write.name].tags.groupId.value))
  }

  /** The turn minted `key` into a workload group. */
  predicate Mints(t: Turn, key: nat) {
    && t.move.Call? && t.move.took && t.move.write.MintKey? && t.move.write.group in t.world.cloud.groups
    && !t.world.cloud.groups[t.move.write.group].admin && t.world.cloud.nextKey == key
  }

  /** The turn published `key` or took it back. */
  predicate Secures(t: Turn, key: nat) {
    t.move.Call? && t.move.took && ((t.move.write.PutSecret? || t.move.write.DropKey?) && t.move.write.key == key)
  }

  function LooseAfter(loose: set<nat>, t: Turn): set<nat> {
    if Mints(t, t.world.cloud.nextKey) then loose + {t.world.cloud.nextKey}
        else set key | key in loose && !Secures(t, key)
  }

  /** The workload keys a run has minted and neither published nor taken back. */
  function LooseOf(run: seq<Turn>): set<nat> {
    if run == [] then {} else LooseAfter(LooseOf(run[..|run| - 1]), run[|run| - 1])
  }

  /** A key is loose exactly if some call minted it and no later call published it or took it back. */
  lemma {:induction false} LooseMeans(run: seq<Turn>, key: nat)
    ensures key in LooseOf(run) <==>
              exists i :: 0 <= i < |run| && Mints(run[i], key) && forall j :: i < j < |run| ==> !Secures(run[j], key)
  {
    if run != [] {
      var front, t := run[..|run| - 1], run[|run| - 1];
      LooseMeans(front, key);
      assert forall i :: 0 <= i < |front| ==> front[i] == run[i];
      if Mints(t, key) {
        assert Mints(run[|run| - 1], key);
      }
    }
  }

  /** A call to take `key` back was made and did not take. */
  predicate RollbackFailed(run: seq<Turn>, key: nat) {
    exists i :: 0 <= i < |run| && run[i].move.Call? && run[i].move.write.DropKey?
        && run[i].move.write.key == key && !run[i].move.took
  }

  /** The name of k is frozen as n: annotation persisted, status not in contradiction. */
  predicate FrozenAs(w: World, k: ObjKey, n: string) {
    k in w.cluster.crs ==> w.cluster.crs[k].resolved == n && w.cluster.crs[k].status.resolvedName in {"", n}
  }

  lemma WriteKeepsName(cfg: Config, w: World, k: ObjKey, actor: ObjKey, wr: Write, n: string)
    requires Accepts(w, actor, wr) && Licensed(cfg, w, actor, wr) && FrozenAs(w, k, n) && n != ""
    ensures FrozenAs(Effect(cfg, w, actor, wr), k, n)
  {
  }

  /**
   What is known of a pass besides its calls: where it began, what the provider answered, loose
   keys, the frozen name.
   */
  datatype Log = Log(origin: World, answers: seq<Answer>, loose: set<nat>, frozen: string)

  predicate Fitting(log: Log, t: Turn, i: nat) {
    RollsBackOwn(log.origin, t) && FollowsAnswer(log.answers, t, i)
  }

  /** The calls of one pass over k, from the world it found to the world it leaves. */
  ghost predicate Trace(cfg: Config, k: ObjKey, log: Log, run: seq<Turn>, w: World) {
    && Chain(cfg, run, w) && WorldAt(run, w, 0) == log.origin && log.origin.cloud.nextGroup <= w.cloud.nextGroup
    && (forall i :: 0 <= i < |run| ==> run[i].move.Call? && run[i].move.key == k && Fitting(log, run[i], i))
    && (forall i :: 0 <= i < |run| ==> GroupFirst(run, run[i], i))
    && (forall a :: a in log.answers ==>
          a.at <= |run| && StructuredNotFound(a.error) && a.name !in WorldAt(run, w, a.at).cloud.buckets)
    && log.loose == LooseOf(run) && (log.frozen != "" ==> FrozenAs(w, k, log.frozen))
  }

  lemma IdsGrow(cfg: Config, w: World, k: ObjKey, wr: Write)
    requires Accepts(w, k, wr)
    ensures Effect(cfg, w, k, wr).cloud.nextGroup >= w.cloud.nextGroup
  {
  }

  /** One more call keeps the trace in order, the invariant, and a persisted admin credential. */
  lemma CallKeeps(cfg: Config, k: ObjKey, log: Log, run: seq<Turn>, t: Turn)
    requires Trace(cfg, k, log, run, t.world) && Inv(cfg, t.world) && t.move.Call? && t.move.key == k && TurnOK(cfg, t)
    requires Fitting(log, t, |run|) && GroupFirst(run, t, |run|)
    ensures Trace(cfg, k, log.(loose := LooseAfter(log.loose, t)), run + [t], After(cfg, t)) && Inv(cfg, After(cfg, t))
    ensures AdminOf(cfg, t.world).Some? ==> AdminOf(cfg, After(cfg, t)) == AdminOf(cfg, t.world)
  {
    hide Licensed, Accepts, Effect, Inv, LooseAfter, FrozenAs, FollowsAnswer, RollsBackOwn, GroupFirst;
    var longer, log' := run + [t], log.(loose := LooseAfter(log.loose, t));
    ChainGrows(cfg, run, t);
    assert longer[..|run|] == run;
    forall i | 0 <= i < |longer|
      ensures longer[i].move.Call? && longer[i].move.key == k && Fitting(log', longer[i], i)
      ensures GroupFirst(longer, longer[i], i)
    {
      FittingKept(log, log', longer[i], i);
      GroupFirstKept(run, t, longer[i], i);
      if i < |run| {
        assert longer[i] == run[i];
      }
    }
    forall a | a in log.answers
      ensures a.name !in WorldAt(longer, After(cfg, t), a.at).cloud.buckets
    {
      assert WorldAt(longer, After(cfg, t), a.at) == WorldAt(run, t.world, a.at);
    }
    if t.move.took {
      IdsGrow(cfg, t.world, k, t.move.write);
      LicensedKeepsInv(cfg, t.world, k, t.move.write);
      if AdminOf(cfg, t.world).Some? {
        LicensedKeepsAdmin(cfg, t.world, k, t.move.write);
      }
      if log.frozen != "" {
        WriteKeepsName(cfg, t.world, k, k, t.move.write, log.frozen);
      }
    }
  }

  lemma FittingKept(log: Log, log': Log, t: Turn, i: nat)
    requires log'.origin == log.origin && log.answers <= log'.answers
    ensures Fitting(log, t, i) ==> Fitting(log', t, i)
  {
    assert forall a :: a in log.answers ==> a in log'.answers;
  }

  lemma GroupFirstKept(run: seq<Turn>, next: Turn, t: Turn, i: nat)
    requires i <= |run|
    ensures GroupFirst(run, t, i) ==> GroupFirst(run + [next], t, i)
  {
    assert forall j :: 0 <= j < i ==> (run + [next])[j] == run[j];
  }

  /** Hearing the provider say that a bucket is gone keeps the trace in order. */
  lemma AnswerKeeps(cfg: Config, k: ObjKey, log: Log, run: seq<Turn>, w: World, a: Answer)
    requires Trace(cfg, k, log, run, w) && a.name !in w.cloud.buckets && StructuredNotFound(a.error) && a.at == |run|
    ensures Trace(cfg, k, log.(answers := log.answers + [a]), run, w)
  {
    hide Fitting, Chain, FrozenAs, GroupFirst;
    var log' := log.(answers := log.answers + [a]);
    forall i | 0 <= i < |run|
      ensures Fitting(log', run[i], i)
    {
      FittingKept(log, log', run[i], i);
    }
  }

  /** From the moment the name is frozen the trace keeps it. */
  lemma FreezeKeeps(cfg: Config, k: ObjKey, log: Log, run: seq<Turn>, w: World, n: string)
    requires Trace(cfg, k, log, run, w) && FrozenAs(w, k, n)
    ensures Trace(cfg, k, log.(frozen := n), run, w)
  {
    hide Chain, GroupFirst;
    var log' := log.(frozen := n);
    forall i | 0 <= i < |run|
      ensures Fitting(log', run[i], i)
    {
      FittingKept(log, log', run[i], i);
    }
  }

  lemma OutsideKeepsInv(cfg: Config, w: World, w': World)
    requires Inv(cfg, w) && Happens(cfg, w, w')
    ensures Inv(cfg, w')
  {
    forall g | g in w'.cloud.groups
      ensures GroupOK(w'.cloud, g)
    {
      assert GroupOK(w.cloud, g);
      SubsetIsSmaller(w'.cloud.groups[g].keys, w.cloud.groups[g].keys);
    }
    forall n | n in w'.cloud.buckets
      ensures BucketOK(cfg, w', n)
    {
      var b' := w'.cloud.buckets[n];
      if n in w.cloud.buckets && b'.tags == w.cloud.buckets[n].tags && b'.policy == w.cloud.buckets[n].policy {
        assert BucketOK(cfg, w, n);
        BucketKept(cfg, w, w', n);
      }
    }
    forall g: nat, m, n | m in w'.cloud.buckets && n in w'.cloud.buckets
        && Names(w'.cloud.buckets[m], g) && Names(w'.cloud.buckets[n], g)
      ensures m == n
    {
      assert Names(w.cloud.buckets[m], g) && Names(w.cloud.buckets[n], g);
    }
  }

  /** In every run, every world, at every stopping point, satisfies the invariant. */
  lemma {:induction false} RunKeepsInv(cfg: Config, run: seq<Turn>, w: World, i: nat)
    requires Chain(cfg, run, w) && Inv(cfg, WorldAt(run, w, 0)) && i <= |run|
    ensures Inv(cfg, WorldAt(run, w, i))
  {
    hide Inv, Licensed, Happens, Effect, Accepts;
    if i > 0 {
      RunKeepsInv(cfg, run, w, i - 1);
      var t := run[i - 1];
      assert After(cfg, t) == WorldAt(run, w, i);
      match t.move
      case Outside(next) => OutsideKeepsInv(cfg, t.world, next);
      case Call(k, wr, took) =>
        if took {
          LicensedKeepsInv(cfg, t.world, k, wr);
        }
    }
  }

  /** The project starts empty. */
  const EMPTY_WORLD := World(Cloud(map[], map[], 0, 0), Cluster(map[], map[], map[]))

  lemma EmptyWorldIsFine(cfg: Config)
    ensures Inv(cfg, EMPTY_WORLD)
  {
  }
}
