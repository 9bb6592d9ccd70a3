/**
 Whole runs: many Buckets, passes in any order and under any weather, and outside events in
 between. A run is a chain of turns (module Protocol); `Operate` shows that everything the
 operator does is such a chain, and the lemmas say what holds along every chain.
 */
module Runs {
  import opened Wrappers
  import opened Errors
  import opened IsolationPolicy
  import opened Resources
  import opened Protocol
  import opened Health
  import opened Frames
  import opened Reconciler

  /** A run that started with an empty project. */
  ghost predicate Reachable(cfg: Config, run: seq<Turn>, w: World) {
    Chain(cfg, run, w) && WorldAt(run, w, 0) == EMPTY_WORLD
  }

  lemma ReachableIsSound(cfg: Config, run: seq<Turn>, w: World, i: nat)
    requires Reachable(cfg, run, w) && i <= |run|
    ensures Inv(cfg, WorldAt(run, w, i))
  {
    EmptyWorldIsFine(cfg);
    RunKeepsInv(cfg, run, w, i);
  }

  /******* Groups and keys *******/

  predicate Tagged(w: World, n: string, g: nat) {
    n in w.cloud.buckets && w.cloud.buckets[n].tags.groupId == Some(g)
  }

  /** At every point of every run a group is attributed to at most one bucket, and the admin group to none. */
  lemma AttributionIsExclusive(cfg: Config, run: seq<Turn>, w: World, i: nat)
    requires Reachable(cfg, run, w) && i <= |run|
    ensures var v := WorldAt(run, w, i);
            && (forall g: nat, m, n :: Tagged(v, m, g) && Tagged(v, n, g) ==> m == n)
            && (forall g: nat, n :: Tagged(v, n, g) ==>
                  (g in v.cloud.groups ==> !v.cloud.groups[g].admin)
                      && (AdminOf(cfg, v).Some? ==> AdminOf(cfg, v).value.groupId != g))
  {
    ReachableIsSound(cfg, run, w, i);
    var v := WorldAt(run, w, i);
    forall g: nat, m, n | Tagged(v, m, g) && Tagged(v, n, g)
      ensures m == n
    {
      assert Names(v.cloud.buckets[m], g) && Names(v.cloud.buckets[n], g);
    }
    forall g: nat, n | Tagged(v, n, g)
      ensures Claimable(cfg, v, g)
    {
      assert BucketOK(cfg, v, n) && Names(v.cloud.buckets[n], g);
    }
  }

  /** The group whose keys, or whose existence, a write takes away or adds to. */
  function TouchedGroup(wr: Write): Option<nat> {
    match wr
    case DeleteGroup(g) => Some(g)
    case MintKey(g) => Some(g)
    case DropKey(g, _) => Some(g)
    case _ => None
  }

  /** A pass over k works on the keys and groups of the admin, of its own bucket, or on a group it made itself. */
  lemma OnlyOwnGroupsAreTouched(cfg: Config, k: ObjKey, log: Log, run: seq<Turn>, w: World, i: nat)
    requires Trace(cfg, k, log, run, w) && i < |run| && run[i].move.took && TouchedGroup(run[i].move.write).Some?
    ensures var v, g := run[i].world, TouchedGroup(run[i].move.write).value;
            (g in v.cloud.groups && v.cloud.groups[g].admin)
                || Attributed(cfg, v, k, g) || g >= log.origin.cloud.nextGroup
  {
    assert TurnOK(cfg, run[i]) && Fitting(log, run[i], i);
  }

  /** No group ever holds two keys. */
  lemma OneKeyPerGroup(cfg: Config, run: seq<Turn>, w: World, i: nat, g: nat)
    requires Reachable(cfg, run, w) && i <= |run| && g in WorldAt(run, w, i).cloud.groups
    ensures |WorldAt(run, w, i).cloud.groups[g].keys| <= 1
  {
    ReachableIsSound(cfg, run, w, i);
    assert GroupOK(WorldAt(run, w, i).cloud, g);
  }

  lemma UrnsDiffer(g: nat, h: nat)
    requires g != h
    ensures UrnOf(g) != UrnOf(h)
  {
    assert |UrnOf(g)| != |UrnOf(h)|;
  }

  /**
   While an attributed group holds a key, the bucket's policy is in force for it: what the policy
   denies is everything on the bucket except to the admin, the group's own list and the readers' list.
   */
  lemma KeyedGroupsAreIsolated(cfg: Config, run: seq<Turn>, w: World, i: nat, n: string, g: nat, r: Request)
    requires Reachable(cfg, run, w) && i <= |run| && '*' !in n
    requires var v := WorldAt(run, w, i); Tagged(v, n, g) && g in v.cloud.groups && v.cloud.groups[g].keys != {}
    ensures var v := WorldAt(run, w, i);
            && Isolates(cfg, v, n, g)
            && var p := v.cloud.buckets[n].policy.value;
               Denied(Document(p), r) <==>
                 Covers(n, r.resource)
                     && Refused(AdminOf(cfg, v).value.urn, UrnOf(g), Kept(p.readers, p.admin, p.workload), r)
  {
    ReachableIsSound(cfg, run, w, i);
    var v := WorldAt(run, w, i);
    assert BucketOK(cfg, v, n) && Names(v.cloud.buckets[n], g);
    var p := v.cloud.buckets[n].policy.value;
    UrnsDiffer(AdminOf(cfg, v).value.groupId, g);
    PolicyMeaning(p.bucket, p.admin, p.workload, p.readers, r);
  }

  /******* Objects, buckets and policies: what single calls may do *******/

  /**
   Objects and versions disappear through the operator only by an authorised wipe of a Bucket that
   is being deleted.
   */
  lemma ObjectsGoOnlyByWipe(cfg: Config, run: seq<Turn>, w: World, i: nat, n: string)
    requires Chain(cfg, run, w) && i < |run| && run[i].move.Call? && n in run[i].world.cloud.buckets
    requires var o, v := run[i].world.cloud.buckets[n], WorldAt(run, w, i + 1);
             if n in v.cloud.buckets then v.cloud.buckets[n].objects < o.objects
                 || v.cloud.buckets[n].versions < o.versions
             else o.objects > 0 || o.versions > 0
    ensures var v, k := run[i].world, run[i].move.key;
            && run[i].move.write.RemoveObject? && run[i].move.write.name == n
            && MayWipe(cfg, v, k) && v.cluster.crs[k].deleting
            && n == EffectiveName(v.cluster.crs[k])
            && (n in WorldAt(run, w, i + 1).cloud.buckets
                && WorldAt(run, w, i + 1).cloud.buckets[n].objects < v.cloud.buckets[n].objects ==>
                  run[i].move.write.current)
  {
    assert TurnOK(cfg, run[i]) && After(cfg, run[i]) == WorldAt(run, w, i + 1);
  }

  /** A bucket that was provisioned once comes into being again only where allowRecreate says so. */
  lemma RecreationIsAuthorised(cfg: Config, run: seq<Turn>, w: World, i: nat, n: string)
    requires Chain(cfg, run, w) && i < |run| && run[i].move.Call?
    requires n !in run[i].world.cloud.buckets && n in WorldAt(run, w, i + 1).cloud.buckets
    ensures var cr := run[i].world.cluster.crs[run[i].move.key];
            n == EffectiveName(cr) && !cr.deleting && cr.resolved != ""
                && (cr.status.resolvedName != "" ==> cr.spec.allowRecreate)
  {
    assert TurnOK(cfg, run[i]) && After(cfg, run[i]) == WorldAt(run, w, i + 1);
  }

  /**
   Within a pass, a bucket that was provisioned once is created again only where allowRecreate says
   so and after the provider's own structured 404, heard in that pass while the bucket was gone;
   no gateway page, 5xx, transport failure or listing can stand in for it.
   */
  lemma RecreationFollowsAnswer(cfg: Config, k: ObjKey, log: Log, run: seq<Turn>, w: World, i: nat)
    requires Trace(cfg, k, log, run, w) && i < |run| && run[i].move.took && run[i].move.write.CreateBucket?
    requires k in run[i].world.cluster.crs && run[i].world.cluster.crs[k].status.resolvedName != ""
    ensures run[i].world.cluster.crs[k].spec.allowRecreate
    ensures exists a :: a in log.answers && a.name == run[i].move.write.name && a.at <= i && StructuredNotFound(a.error)
                        && a.name !in WorldAt(run, w, a.at).cloud.buckets
  {
    assert TurnOK(cfg, run[i]) && Fitting(log, run[i], i);
  }

  /** BucketMissing is recorded only of a bucket that is missing, whatever the calls in between answered. */
  lemma MissingMeansMissing(cfg: Config, run: seq<Turn>, w: World, i: nat, k: ObjKey)
    requires Chain(cfg, run, w) && i < |run| && run[i].move.Call?
    requires k in run[i].world.cluster.crs && k in WorldAt(run, w, i + 1).cluster.crs
    requires WorldAt(run, w, i + 1).cluster.crs[k].status.bucketMissing
    requires !run[i].world.cluster.crs[k].status.bucketMissing
    ensures var s := run[i].world.cluster.crs[k].status;
            s.resolvedName != "" && s.resolvedName !in run[i].world.cloud.buckets
  {
    assert TurnOK(cfg, run[i]) && After(cfg, run[i]) == WorldAt(run, w, i + 1);
  }

  /**
   Whoever a freshly written policy does not shut out is the admin, the bucket's own group, or a
   group attributed to a bucket that carries the owner tag of a Bucket named in grantReadAccess.
   */
  lemma PoliciesLetInOnlyGrantees(cfg: Config, run: seq<Turn>, w: World, i: nat, r: Request)
    requires Chain(cfg, run, w) && i < |run| && run[i].move.Call? && run[i].move.took && run[i].move.write.PutPolicy?
    requires Inv(cfg, run[i].world) && '*' !in run[i].move.write.name && Covers(run[i].move.write.name, r.resource)
    requires !Denied(Document(run[i].move.write.policy), r)
    ensures var v, k := run[i].world, run[i].move.key;
            && AdminOf(cfg, v).Some? && k in v.cluster.crs
            && (|| r.principal == AdminOf(cfg, v).value.urn
                || (exists g: nat :: Attributed(cfg, v, k, g) && r.principal == UrnOf(g))
                || MayRead(cfg, v, k, v.cluster.crs[k].spec.grants, r.principal))
  {
    var v, k, p := run[i].world, run[i].move.key, run[i].move.write.policy;
    assert TurnOK(cfg, run[i]);
    var g := OwnBucket(cfg, v, k).tags.groupId.value;
    assert BucketOK(cfg, v, p.bucket) && Names(v.cloud.buckets[p.bucket], g);
    UrnsDiffer(AdminOf(cfg, v).value.groupId, g);
    PolicyMeaning(p.bucket, p.admin, p.workload, p.readers, r);
    assert Attributed(cfg, v, k, g);
    if r.principal != p.admin && r.principal != p.workload {
      CanonicalIsFixed(p);
      assert r.principal in Elements(Sanitized(p.readers, p.admin, p.workload));
    }
  }

  /** At the end of a Ready pass status.grantedReadTo names exactly the policy's readers, one name per principal. */
  lemma GrantedNamesMatchReaders(cfg: Config, w: World, k: ObjKey, readers: seq<string>)
    requires Inv(cfg, w) && Served(cfg, w, k, readers)
    ensures var granted, p := w.cluster.crs[k].status.grantedReadTo, OwnBucket(cfg, w, k).policy.value;
            && |granted| == |readers| && Elements(p.readers) == Elements(readers)
            && (forall i, j :: 0 <= i < j < |readers| ==> readers[i] != readers[j] && granted[i] != granted[j])
            && (forall i :: 0 <= i < |readers| ==>
                  granted[i] in w.cluster.crs[k].spec.grants && GranteeUrn(cfg, w, k, granted[i]) == Some(readers[i]))
  {
    var granted, own := w.cluster.crs[k].status.grantedReadTo, OwnBucket(cfg, w, k);
    forall i, j | 0 <= i < j < |readers|
      ensures readers[i] != readers[j]
    {
      GranteesDiffer(cfg, w, ObjKey(k.ns, granted[i]), ObjKey(k.ns, granted[j]));
    }
    forall i | 0 <= i < |readers|
      ensures Trim(readers[i]) == readers[i] && readers[i] !in {"", own.policy.value.admin, own.policy.value.workload}
      ensures granted[i] in w.cluster.crs[k].spec.grants && GranteeUrn(cfg, w, k, granted[i]) == Some(readers[i])
    {
      assert GranteeUrn(cfg, w, k, granted[i]) == Some(readers[i]) && granted[i] in granted;
      assert k == ObjKey(k.ns, k.name);
      GranteesDiffer(cfg, w, ObjKey(k.ns, granted[i]), k);
      GranteeIsNotAdmin(cfg, w, ObjKey(k.ns, granted[i]));
    }
    assert TrimmedSet(readers) == Elements(readers);
    assert Trim(own.policy.value.admin) == own.policy.value.admin;
    assert Trim(own.policy.value.workload) == own.policy.value.workload;
    assert Kept(readers, own.policy.value.admin, own.policy.value.workload) == Elements(readers);
  }

  lemma GranteesDiffer(cfg: Config, w: World, a: ObjKey, b: ObjKey)
    requires Inv(cfg, w) && a.ns == b.ns && a.name != b.name && Owns(cfg, w, a) && Owns(cfg, w, b)
    requires OwnBucket(cfg, w, a).tags.groupId.Some? && OwnBucket(cfg, w, b).tags.groupId.Some?
    ensures UrnOf(OwnBucket(cfg, w, a).tags.groupId.value) != UrnOf(OwnBucket(cfg, w, b).tags.groupId.value)
  {
    OwnersDiffer(cfg, w, a, b);
    var g, h := OwnBucket(cfg, w, a).tags.groupId.value, OwnBucket(cfg, w, b).tags.groupId.value;
    assert Names(OwnBucket(cfg, w, a), g) && Names(OwnBucket(cfg, w, b), h);
    UrnsDiffer(g, h);
  }

  lemma GranteeIsNotAdmin(cfg: Config, w: World, a: ObjKey)
    requires Inv(cfg, w) && Owns(cfg, w, a) && OwnBucket(cfg, w, a).tags.groupId.Some? && AdminOf(cfg, w).Some?
    ensures UrnOf(OwnBucket(cfg, w, a).tags.groupId.value) != AdminOf(cfg, w).value.urn
  {
    var g := OwnBucket(cfg, w, a).tags.groupId.value;
    assert BucketOK(cfg, w, EffectiveName(w.cluster.crs[a])) && Names(OwnBucket(cfg, w, a), g);
    UrnsDiffer(AdminOf(cfg, w).value.groupId, g);
  }

  /******* Inductions over runs *******/

  /** Operator writes leave every Bucket well-formed. */
  lemma {:induction false} RunKeepsSchema(cfg: Config, run: seq<Turn>, w: World, i: nat)
    requires Chain(cfg, run, w) && Schema(WorldAt(run, w, 0)) && i <= |run|
    ensures Schema(WorldAt(run, w, i))
  {
    hide Licensed, Accepts, Effect, Happens, Schema;
    if i > 0 {
      RunKeepsSchema(cfg, run, w, i - 1);
      var t := run[i - 1];
      assert TurnOK(cfg, t) && After(cfg, t) == WorldAt(run, w, i);
      if t.move.Outside? {
        EventKeepsAdmin(cfg, t.world, t.move.next);
      } else if t.move.took {
        WriteKeepsSchema(cfg, t.world, t.move.key, t.move.write);
      }
    }
  }

  lemma EventKeepsAdmin(cfg: Config, w: World, w': World)
    requires Happens(cfg, w, w')
    ensures AdminOf(cfg, w') == AdminOf(cfg, w) && Schema(w')
  {
  }

  lemma WriteKeepsSchema(cfg: Config, w: World, k: ObjKey, wr: Write)
    requires Schema(w) && Accepts(w, k, wr)
    ensures Schema(Effect(cfg, w, k, wr))
  {
    forall x | x in Effect(cfg, w, k, wr).cluster.crs
      ensures WellFormed(Effect(cfg, w, k, wr).cluster.crs[x]) && '/' !in x.ns
    {
      assert WellFormed(w.cluster.crs[x]);
    }
  }

  /** Namespaces have no slash, so an owner tag identifies its Bucket. */
  lemma OwnerTagIdentifies(a: ObjKey, b: ObjKey)
    requires '/' !in a.ns && '/' !in b.ns && OwnerTag(a) == OwnerTag(b)
    ensures a == b
  {
    var s := OwnerTag(a);
    assert s[|a.ns|] == '/' && s[|b.ns|] == '/';
    assert a.ns == s[..|a.ns|] && b.ns == s[..|b.ns|];
    OwnerTagInjective(a.ns, a.name, b.name);
  }

  /******* The clone gate *******/

  /** No reader in the policy and, while the Secret is held back, no key in the group. */
  predicate Unopened(w: World, b: CloudBucket, hold: bool) {
    (b.policy.Some? ==> b.policy.value.readers == []) && (hold ==> Unkeyed(w, b))
  }

  /** As long as the clone of k is pending, none of its buckets is open to anyone. */
  ghost predicate Gated(cfg: Config, w: World, k: ObjKey) {
    k in w.cluster.crs && ClonePending(w.cluster.crs[k]) ==>
      forall n :: n in w.cloud.buckets && OwnedBy(cfg, w.cloud.buckets[n].tags, k) ==>
        Unopened(w, w.cloud.buckets[n], HoldsSecret(w.cluster.crs[k]))
  }

  lemma PolicyKeepsGate(cfg: Config, w: World, k: ObjKey, actor: ObjKey, wr: Write)
    requires Accepts(w, actor, wr) && Licensed(cfg, w, actor, wr) && wr.PutPolicy? && Gated(cfg, w, k) && '/' !in k.ns
    requires '/' !in actor.ns
    ensures Gated(cfg, Effect(cfg, w, actor, wr), k)
  {
    var w' := Effect(cfg, w, actor, wr);
    if k in w.cluster.crs && ClonePending(w.cluster.crs[k]) {
      forall n | n in w'.cloud.buckets && OwnedBy(cfg, w'.cloud.buckets[n].tags, k)
        ensures Unopened(w', w'.cloud.buckets[n], HoldsSecret(w.cluster.crs[k]))
      {
        assert OwnedBy(cfg, w.cloud.buckets[n].tags, k);
        if n == wr.name {
          OwnerTagIdentifies(k, actor);
        }
      }
    }
  }

  lemma MintKeepsGate(cfg: Config, w: World, k: ObjKey, actor: ObjKey, wr: Write)
    requires Inv(cfg, w) && Accepts(w, actor, wr) && Licensed(cfg, w, actor, wr) && wr.MintKey? && Gated(cfg, w, k)
    requires '/' !in k.ns && '/' !in actor.ns
    ensures Gated(cfg, Effect(cfg, w, actor, wr), k)
  {
    var w' := Effect(cfg, w, actor, wr);
    if k in w.cluster.crs && ClonePending(w.cluster.crs[k]) {
      forall n | n in w'.cloud.buckets && OwnedBy(cfg, w'.cloud.buckets[n].tags, k)
        ensures Unopened(w', w'.cloud.buckets[n], HoldsSecret(w.cluster.crs[k]))
      {
        assert OwnedBy(cfg, w.cloud.buckets[n].tags, k) && BucketOK(cfg, w, n);
        if w.cloud.buckets[n].tags.groupId == Some(wr.group) {
          assert Names(w.cloud.buckets[n], wr.group);
          if !w.cloud.groups[wr.group].admin {
            assert Names(OwnBucket(cfg, w, actor), wr.group);
            OwnerTagIdentifies(k, actor);
          }
        }
      }
    }
  }

  lemma TagsKeepGate(cfg: Config, w: World, k: ObjKey, actor: ObjKey, wr: Write)
    requires Inv(cfg, w) && Accepts(w, actor, wr) && Licensed(cfg, w, actor, wr) && wr.PutTags? && Gated(cfg, w, k)
    ensures Gated(cfg, Effect(cfg, w, actor, wr), k)
  {
    var w' := Effect(cfg, w, actor, wr);
    if k in w.cluster.crs && ClonePending(w.cluster.crs[k]) {
      forall n | n in w'.cloud.buckets && OwnedBy(cfg, w'.cloud.buckets[n].tags, k)
        ensures Unopened(w', w'.cloud.buckets[n], HoldsSecret(w.cluster.crs[k]))
      {
        if n == wr.name {
          assert BucketOK(cfg, w, n);
          if w.cloud.buckets[n].tags != UNTAGGED && wr.tags.groupId.Some? {
            RecordedIsUnkeyed(cfg, w, n, wr.tags.groupId.value);
          }
        }
      }
    }
  }

  lemma WriteKeepsGate(cfg: Config, w: World, k: ObjKey, actor: ObjKey, wr: Write)
    requires Inv(cfg, w) && Accepts(w, actor, wr) && Licensed(cfg, w, actor, wr) && Gated(cfg, w, k) && '/' !in k.ns
    requires '/' !in actor.ns
    ensures Gated(cfg, Effect(cfg, w, actor, wr), k)
  {
    match wr
    case PutPolicy(_, _) => PolicyKeepsGate(cfg, w, k, actor, wr);
    case MintKey(_) => MintKeepsGate(cfg, w, k, actor, wr);
    case PutTags(_, _) => TagsKeepGate(cfg, w, k, actor, wr);
    case _ => OtherKeepsGate(cfg, w, k, actor, wr);
  }

  lemma OtherKeepsGate(cfg: Config, w: World, k: ObjKey, actor: ObjKey, wr: Write)
    requires Inv(cfg, w) && Accepts(w, actor, wr) && Licensed(cfg, w, actor, wr) && Gated(cfg, w, k)
    requires !wr.PutPolicy? && !wr.MintKey? && !wr.PutTags?
    ensures Gated(cfg, Effect(cfg, w, actor, wr), k)
  {
    var w' := Effect(cfg, w, actor, wr);
    OwnerTagNotEmpty(k);
    if k in w'.cluster.crs && ClonePending(w'.cluster.crs[k]) {
      assert ClonePending(w.cluster.crs[k]) && w'.cluster.crs[k].spec == w.cluster.crs[k].spec;
      forall n | n in w'.cloud.buckets && OwnedBy(cfg, w'.cloud.buckets[n].tags, k)
        ensures Unopened(w', w'.cloud.buckets[n], HoldsSecret(w'.cluster.crs[k]))
      {
        assert n in w.cloud.buckets && OwnedBy(cfg, w.cloud.buckets[n].tags, k);
        if Unkeyed(w, w.cloud.buckets[n]) {
          StillUnkeyed(cfg, w, actor, wr, n);
        }
      }
    }
  }

  lemma StillUnkeyed(cfg: Config, w: World, actor: ObjKey, wr: Write, n: string)
    requires Inv(cfg, w) && Accepts(w, actor, wr) && !wr.MintKey? && !wr.PutTags? && n in w.cloud.buckets
    requires Unkeyed(w, w.cloud.buckets[n]) && n in Effect(cfg, w, actor, wr).cloud.buckets
    ensures Unkeyed(Effect(cfg, w, actor, wr), Effect(cfg, w, actor, wr).cloud.buckets[n])
  {
    assert BucketOK(cfg, w, n);
    if w.cloud.buckets[n].tags.groupId.Some? {
      assert Names(w.cloud.buckets[n], w.cloud.buckets[n].tags.groupId.value);
    }
  }

  /** No bucket carries the ownership tags of k. */
  predicate Untaken(cfg: Config, w: World, k: ObjKey) {
    forall n :: n in w.cloud.buckets ==> !OwnedBy(cfg, w.cloud.buckets[n].tags, k)
  }

  /**
   The object k stays what it was made: its clone is pending only if it was before, or if k is made
   with it now and has no bucket.
   */
  predicate KeepsClone(cfg: Config, w: World, w': World, k: ObjKey) {
    k in w'.cluster.crs && ClonePending(w'.cluster.crs[k]) ==>
      if k in w.cluster.crs
      then ClonePending(w.cluster.crs[k]) && HoldsSecret(w.cluster.crs[k]) == HoldsSecret(w'.cluster.crs[k])
      else Untaken(cfg, w', k)
  }

  lemma OutsideKeepsGate(cfg: Config, w: World, w': World, k: ObjKey)
    requires Happens(cfg, w, w') && KeepsClone(cfg, w, w', k) && Gated(cfg, w, k)
    ensures Gated(cfg, w', k)
  {
    OwnerTagNotEmpty(k);
    if k in w'.cluster.crs && ClonePending(w'.cluster.crs[k]) {
      forall n | n in w'.cloud.buckets && OwnedBy(cfg, w'.cloud.buckets[n].tags, k)
        ensures Unopened(w', w'.cloud.buckets[n], HoldsSecret(w'.cluster.crs[k]))
      {
        assert n in w.cloud.buckets && OwnedBy(cfg, w.cloud.buckets[n].tags, k);
      }
    }
  }

  /**
   Readers and, on request, keys stay out of a Bucket's buckets until its clone has completed,
   wherever a pass stops.
   */
  lemma {:induction false} CloneGateHolds(cfg: Config, run: seq<Turn>, w: World, k: ObjKey, i: nat)
    requires Reachable(cfg, run, w) && i <= |run| && '/' !in k.ns
    requires forall j :: 0 <= j < i && run[j].move.Outside? ==> KeepsClone(cfg, run[j].world, run[j].move.next, k)
    ensures Gated(cfg, WorldAt(run, w, i), k)
  {
    hide Licensed, Accepts, Effect, Inv, Happens;
    if i > 0 {
      CloneGateHolds(cfg, run, w, k, i - 1);
      ReachableIsSound(cfg, run, w, i - 1);
      RunKeepsSchema(cfg, run, w, i - 1);
      var t := run[i - 1];
      assert TurnOK(cfg, t) && After(cfg, t) == WorldAt(run, w, i);
      if t.move.Outside? {
        OutsideKeepsGate(cfg, t.world, t.move.next, k);
      } else if t.move.took {
        CallerExists(cfg, t.world, t.move.key, t.move.write);
        WriteKeepsGate(cfg, t.world, k, t.move.key, t.move.write);
      }
    }
  }

  lemma CallerExists(cfg: Config, w: World, k: ObjKey, wr: Write)
    requires Licensed(cfg, w, k, wr)
    ensures k in w.cluster.crs
  {
  }

  /**
   However k came into being: while its clone is pending no call puts a reader into the policy of a
   bucket of k, and, when the Secret is held back, none mints a key into its group or publishes one.
   */
  lemma PendingCloneAdmitsNobody(cfg: Config, run: seq<Turn>, w: World, k: ObjKey, i: nat, n: string)
    requires Chain(cfg, run, w) && i < |run| && run[i].move.Call? && run[i].move.took
    requires Inv(cfg, run[i].world) && Schema(run[i].world) && '/' !in k.ns
    requires k in run[i].world.cluster.crs && ClonePending(run[i].world.cluster.crs[k])
    requires n in run[i].world.cloud.buckets && OwnedBy(cfg, run[i].world.cloud.buckets[n].tags, k)
    ensures run[i].move.write.PutPolicy? && run[i].move.write.name == n ==> run[i].move.write.policy.readers == []
    ensures HoldsSecret(run[i].world.cluster.crs[k]) && run[i].move.write.MintKey? ==>
              run[i].world.cloud.buckets[n].tags.groupId != Some(run[i].move.write.group)
    ensures HoldsSecret(run[i].world.cluster.crs[k]) && run[i].move.key == k ==> !run[i].move.write.PutSecret?
  {
    var v, actor, wr := run[i].world, run[i].move.key, run[i].move.write;
    assert TurnOK(cfg, run[i]);
    if OwnerTag(actor) == OwnerTag(k) {
      OwnerTagIdentifies(actor, k);
    }
    if wr.MintKey? && v.cloud.buckets[n].tags.groupId == Some(wr.group) {
      assert BucketOK(cfg, v, n) && Names(v.cloud.buckets[n], wr.group);
      if !v.cloud.groups[wr.group].admin {
        assert Names(OwnBucket(cfg, v, actor), wr.group);
      }
    }
  }

  predicate Completed(w: World, k: ObjKey) {
    k in w.cluster.crs ==> w.cluster.crs[k].status.clone == CloneCompleted
  }

  /** The object k is not made anew and keeps the record of its completed clone. */
  predicate KeepsCompletion(w: World, w': World, k: ObjKey) {
    k in w'.cluster.crs ==>
      && k in w.cluster.crs
      && (w.cluster.crs[k].status.clone == CloneCompleted ==> w'.cluster.crs[k].status.clone == CloneCompleted)
  }

  /** Once completion is durable it stays so, and no clone Job is created for the Bucket again. */
  lemma {:induction false} CompletionIsFinal(cfg: Config, run: seq<Turn>, w: World, k: ObjKey, i: nat, j: nat)
    requires Chain(cfg, run, w) && i <= j <= |run| && Completed(WorldAt(run, w, i), k)
    requires forall x :: i <= x < j && run[x].move.Outside? ==> KeepsCompletion(run[x].world, run[x].move.next, k)
    ensures Completed(WorldAt(run, w, j), k)
    ensures j < |run| && run[j].move.Call? && run[j].move.key == k && run[j].move.write.CreateJob? ==> !run[j].move.took
  {
    hide Licensed, Accepts, Effect, Happens, Completed;
    if i < j {
      CompletionIsFinal(cfg, run, w, k, i, j - 1);
      var t := run[j - 1];
      assert TurnOK(cfg, t) && After(cfg, t) == WorldAt(run, w, j);
      if t.move.Outside? {
        OutsideKeepsCompletion(t.world, t.move.next, k);
      } else if t.move.took {
        WriteKeepsCompletion(cfg, t.world, k, t.move.key, t.move.write);
      }
    }
    if j < |run| && run[j].move.Call? && run[j].move.key == k && run[j].move.write.CreateJob? && run[j].move.took {
      assert TurnOK(cfg, run[j]);
      JobNeedsPendingClone(cfg, run[j].world, k);
    }
  }

  lemma OutsideKeepsCompletion(w: World, w': World, k: ObjKey)
    requires KeepsCompletion(w, w', k) && Completed(w, k)
    ensures Completed(w', k)
  {
  }

  lemma WriteKeepsCompletion(cfg: Config, w: World, k: ObjKey, actor: ObjKey, wr: Write)
    requires Accepts(w, actor, wr) && Licensed(cfg, w, actor, wr) && Completed(w, k)
    ensures Completed(Effect(cfg, w, actor, wr), k)
  {
  }

  lemma JobNeedsPendingClone(cfg: Config, w: World, k: ObjKey)
    requires Licensed(cfg, w, k, CreateJob)
    ensures !Completed(w, k)
  {
  }

  /******* The frozen name *******/

  /** The annotation is kept; the status may be lost. */
  predicate KeepsAnnotation(w: World, w': World, k: ObjKey) {
    k in w'.cluster.crs ==>
      && k in w.cluster.crs && w'.cluster.crs[k].resolved == w.cluster.crs[k].resolved
      && w'.cluster.crs[k].status.resolvedName in {"", w.cluster.crs[k].status.resolvedName}
  }

  /** Once the annotation is persisted the name stays, under every naming policy and with the status lost. */
  lemma {:induction false} NameIsFrozen(cfg: Config, run: seq<Turn>, w: World, k: ObjKey, n: string, i: nat, j: nat)
    requires Chain(cfg, run, w) && i <= j <= |run| && n != "" && FrozenAs(WorldAt(run, w, i), k, n)
    requires forall x :: i <= x < j && run[x].move.Outside? ==> KeepsAnnotation(run[x].world, run[x].move.next, k)
    ensures var v := WorldAt(run, w, j);
            && FrozenAs(v, k, n)
            && (k in v.cluster.crs ==>
                  EffectiveName(v.cluster.crs[k]) == n
                      && forall naming :: DecideName(naming, k, v.cluster.crs[k]) == (n, false))
    ensures j < |run| && run[j].move.Call? && run[j].move.key == k && run[j].move.took ==>
              NameUsed(run[j].move.write) in {None, Some(n)}
  {
    hide Licensed, Accepts, Effect, Happens;
    if i < j {
      NameIsFrozen(cfg, run, w, k, n, i, j - 1);
      var t := run[j - 1];
      assert TurnOK(cfg, t) && After(cfg, t) == WorldAt(run, w, j);
      if t.move.Call? && t.move.took {
        WriteKeepsName(cfg, t.world, k, t.move.key, t.move.write, n);
      }
    }
    if j < |run| && run[j].move.Call? && run[j].move.key == k && run[j].move.took {
      assert TurnOK(cfg, run[j]);
      WritesUseTheName(cfg, run[j].world, k, run[j].move.write, n);
    }
  }

  lemma WritesUseTheName(cfg: Config, w: World, k: ObjKey, wr: Write, n: string)
    requires Accepts(w, k, wr) && Licensed(cfg, w, k, wr) && FrozenAs(w, k, n) && n != ""
    ensures NameUsed(wr) in {None, Some(n)}
  {
  }

  /**
   The physical name a write for k puts to use: to create, claim, fill, empty or delete a bucket,
   or to publish it.
   */
  function NameUsed(wr: Write): Option<string> {
    match wr
    case CreateBucket(m) => Some(m)
    case DeleteBucket(m) => Some(m)
    case PutPolicy(m, _) => Some(m)
    case RemoveObject(m, _) => Some(m)
    case PutSecret(_, _, m) => Some(m)
    case PutTags(m, t) => if t.groupId.None? then Some(m) else None
    case _ => None
  }

  /******* Convergence in runs where nothing provisioned vanishes *******/

  /**
   Unless the Bucket is being deleted, the recorded group is attributed as long as it exists, and
   a provisioned Bucket has its bucket.
   */
  predicate Tracked(cfg: Config, w: World, k: ObjKey) {
    k in w.cluster.crs ==>
      var cr := w.cluster.crs[k];
      && (cr.status.groupId.Some? ==>
            cr.resolved != "" && cr.status.groupId.value < w.cloud.nextGroup &&
            (cr.status.groupId.value in w.cloud.groups && !cr.deleting ==>
               Attributed(cfg, w, k, cr.status.groupId.value)))
      && (cr.status.resolvedName != "" && !cr.deleting ==> Owns(cfg, w, k))
  }

  /** No tagged bucket vanishes, and k is either as it was or newly made. */
  predicate Benign(w: World, w': World, k: ObjKey) {
    && (forall n :: n in w.cloud.buckets && w.cloud.buckets[n].tags != UNTAGGED ==>
          n in w'.cloud.buckets && w'.cloud.buckets[n].tags == w.cloud.buckets[n].tags)
    && (k in w'.cluster.crs ==>
          var cr' := w'.cluster.crs[k];
          || (cr'.status.groupId.None? && cr'.status.resolvedName == "")
          || (&& k in w.cluster.crs && cr'.resolved == w.cluster.crs[k].resolved
              && (w.cluster.crs[k].deleting ==> cr'.deleting)
              && cr'.status.groupId == w.cluster.crs[k].status.groupId
              && cr'.status.resolvedName == w.cluster.crs[k].status.resolvedName
              && EffectiveName(cr') == EffectiveName(w.cluster.crs[k])))
  }

  lemma OutsideKeepsTracked(cfg: Config, w: World, w': World, k: ObjKey)
    requires Happens(cfg, w, w') && Benign(w, w', k) && Tracked(cfg, w, k)
    ensures Tracked(cfg, w', k)
  {
    OwnerTagNotEmpty(k);
  }

  lemma BucketWriteKeepsTracked(cfg: Config, w: World, k: ObjKey, actor: ObjKey, wr: Write)
    requires Inv(cfg, w) && Accepts(w, actor, wr) && Licensed(cfg, w, actor, wr) && Tracked(cfg, w, k) && '/' !in k.ns
    requires '/' !in actor.ns
    requires wr.CreateBucket? || wr.DeleteBucket? || wr.PutTags? || wr.PutPolicy? || wr.RemoveObject?
    ensures Tracked(cfg, Effect(cfg, w, actor, wr), k)
  {
    hide BucketOK;
    OwnerTagNotEmpty(k);
    if k in w.cluster.crs && Owns(cfg, w, k) && wr.DeleteBucket? && wr.name == EffectiveName(w.cluster.crs[k]) {
      OwnerTagIdentifies(k, actor);
    }
  }

  lemma AttributedIsIssued(cfg: Config, w: World, k: ObjKey)
    requires Inv(cfg, w)
    ensures forall g: nat :: Attributed(cfg, w, k, g) ==> g < w.cloud.nextGroup
  {
    forall g: nat | Attributed(cfg, w, k, g)
      ensures g < w.cloud.nextGroup
    {
      assert BucketOK(cfg, w, EffectiveName(w.cluster.crs[k])) && Names(OwnBucket(cfg, w, k), g);
    }
  }

  lemma ObjectWriteKeepsTracked(cfg: Config, w: World, k: ObjKey, actor: ObjKey, wr: Write)
    requires Inv(cfg, w) && Accepts(w, actor, wr) && Licensed(cfg, w, actor, wr) && Tracked(cfg, w, k)
    requires wr.PutStatus? || wr.PutMeta?
    ensures Tracked(cfg, Effect(cfg, w, actor, wr), k)
  {
    hide Inv, Provisioned;
    AttributedIsIssued(cfg, w, k);
  }

  lemma WriteKeepsTracked(cfg: Config, w: World, k: ObjKey, actor: ObjKey, wr: Write)
    requires Inv(cfg, w) && Accepts(w, actor, wr) && Licensed(cfg, w, actor, wr) && Tracked(cfg, w, k) && '/' !in k.ns
    requires '/' !in actor.ns
    ensures Tracked(cfg, Effect(cfg, w, actor, wr), k)
  {
    hide Inv, Licensed;
    if wr.CreateBucket? || wr.DeleteBucket? || wr.PutTags? || wr.PutPolicy? || wr.RemoveObject? {
      BucketWriteKeepsTracked(cfg, w, k, actor, wr);
    } else if wr.PutStatus? || wr.PutMeta? {
      ObjectWriteKeepsTracked(cfg, w, k, actor, wr);
    }
  }

  lemma {:induction false} RunKeepsTracked(cfg: Config, run: seq<Turn>, w: World, k: ObjKey, i: nat)
    requires Chain(cfg, run, w) && Inv(cfg, WorldAt(run, w, 0)) && Schema(WorldAt(run, w, 0)) && i <= |run|
    requires '/' !in k.ns && Tracked(cfg, WorldAt(run, w, 0), k)
    requires forall j :: 0 <= j < i && run[j].move.Outside? ==> Benign(run[j].world, run[j].move.next, k)
    ensures Tracked(cfg, WorldAt(run, w, i), k)
  {
    hide Licensed, Accepts, Effect, Inv, Tracked, Happens;
    if i > 0 {
      RunKeepsTracked(cfg, run, w, k, i - 1);
      RunKeepsInv(cfg, run, w, i - 1);
      RunKeepsSchema(cfg, run, w, i - 1);
      var t := run[i - 1];
      assert TurnOK(cfg, t) && After(cfg, t) == WorldAt(run, w, i);
      if t.move.Outside? {
        OutsideKeepsTracked(cfg, t.world, t.move.next, k);
      } else if t.move.took {
        CallerExists(cfg, t.world, t.move.key, t.move.write);
        WriteKeepsTracked(cfg, t.world, k, t.move.key, t.move.write);
      }
    }
  }

  /** The operator never leaves a group tag without its URN. */
  lemma {:induction false} RunKeepsNoLegacy(cfg: Config, run: seq<Turn>, w: World, i: nat)
    requires Chain(cfg, run, w) && NoLegacy(WorldAt(run, w, 0)) && i <= |run|
    ensures NoLegacy(WorldAt(run, w, i))
  {
    hide Licensed, Accepts, Effect, Happens, NoLegacy;
    if i > 0 {
      RunKeepsNoLegacy(cfg, run, w, i - 1);
      var t := run[i - 1];
      assert TurnOK(cfg, t) && After(cfg, t) == WorldAt(run, w, i);
      if t.move.Outside? {
        OutsideKeepsNoLegacy(cfg, t.world, t.move.next);
      } else if t.move.took {
        WriteKeepsNoLegacy(cfg, t.world, t.move.key, t.move.write);
      }
    }
  }

  lemma OutsideKeepsNoLegacy(cfg: Config, w: World, w': World)
    requires Happens(cfg, w, w') && NoLegacy(w)
    ensures NoLegacy(w')
  {
  }

  lemma WriteKeepsNoLegacy(cfg: Config, w: World, actor: ObjKey, wr: Write)
    requires Accepts(w, actor, wr) && Licensed(cfg, w, actor, wr) && NoLegacy(w)
    ensures NoLegacy(Effect(cfg, w, actor, wr))
  {
  }

  /**
   Convergence: wherever a run without vanished buckets has got to, a failure-free pass over a
   valid Bucket that is not cloning ends Ready if its bucket is absent, its own, or untagged and
   empty, and its Secret can be written or need not be. The pass itself is `Reconcile`, which
   ends Ready exactly when `CanConverge` holds.
   */
  lemma RunsConverge(cfg: Config, run: seq<Turn>, w: World, k: ObjKey)
    requires Reachable(cfg, run, w) && '/' !in k.ns && cfg.adminSecret.ns != ""
    requires forall j :: 0 <= j < |run| && run[j].move.Outside? ==> Benign(run[j].world, run[j].move.next, k)
    requires Provisionable(w, k) && Nameable(cfg, k, w.cluster.crs[k]) && !ClonePending(w.cluster.crs[k])
    ensures var cr := w.cluster.crs[k];
            var n := DecideName(cfg.naming, k, cr).0;
            && FairTo(cfg, w, cr)
            && (CanConverge(cfg, w, k) <==>
                  && !ClonesItself(cfg, cr, n) && Publishable(w, k, cr, n)
                  && (n in w.cloud.buckets ==>
                        OwnedBy(cfg, w.cloud.buckets[n].tags, k)
                            || (w.cloud.buckets[n].tags == UNTAGGED && w.cloud.buckets[n].objects == 0)))
  {
    EmptyWorldIsFine(cfg);
    RunKeepsTracked(cfg, run, w, k, |run|);
    RunKeepsNoLegacy(cfg, run, w, |run|);
  }

  /** A re-creation that stops right after creating the bucket is refused from then on: the old group still exists. */
  lemma InterruptedRecreateIsRefused(cfg: Config, w: World, k: ObjKey)
    requires CanConverge(cfg, w, k) && w.cluster.crs[k].status.resolvedName != ""
    requires w.cluster.crs[k].status.resolvedName !in w.cloud.buckets
    requires w.cluster.crs[k].status.groupId.Some? && w.cluster.crs[k].status.groupId.value in w.cloud.groups
    ensures var create := CreateBucket(w.cluster.crs[k].status.resolvedName);
            Accepts(w, k, create) && !CanConverge(cfg, Effect(cfg, w, k, create), k)
  {
    var n := w.cluster.crs[k].status.resolvedName;
    assert !LiveTag(Effect(cfg, w, k, CreateBucket(n)), n);
  }

  /******* What a teardown leaves behind *******/

  /** Only calls for k from here on, and k is being deleted as long as it is there. */
  ghost predicate TearsDown(cfg: Config, run: seq<Turn>, w: World, k: ObjKey) {
    && Chain(cfg, run, w) && Inv(cfg, WorldAt(run, w, 0))
    && (forall i :: 0 <= i < |run| ==> run[i].move.Call? && run[i].move.key == k)
    && (k in WorldAt(run, w, 0).cluster.crs ==> WorldAt(run, w, 0).cluster.crs[k].deleting)
  }

  predicate Deleting(w: World, k: ObjKey) {
    k in w.cluster.crs ==> w.cluster.crs[k].deleting
  }

  /** What a call is to delete is not there, and will not come back. */
  predicate GoneForGood(w: World, wr: Write) {
    (wr.DeleteGroup? || wr.DeleteBucket?) && !InPlace(w, wr) && (wr.DeleteGroup? ==> wr.group < w.cloud.nextGroup)
  }

  lemma CallStaysGone(cfg: Config, w: World, k: ObjKey, call: Write, wr: Write)
    requires Accepts(w, k, call) && Licensed(cfg, w, k, call) && Deleting(w, k) && GoneForGood(w, wr)
    ensures Deleting(Effect(cfg, w, k, call), k) && GoneForGood(Effect(cfg, w, k, call), wr)
  {
  }

  lemma CallKeepsDeleting(cfg: Config, w: World, k: ObjKey, call: Write)
    requires Accepts(w, k, call) && Deleting(w, k)
    ensures Deleting(Effect(cfg, w, k, call), k)
  {
  }

  lemma {:induction false} StaysDeleting(cfg: Config, run: seq<Turn>, w: World, k: ObjKey, i: nat)
    requires TearsDown(cfg, run, w, k) && i <= |run|
    ensures Deleting(WorldAt(run, w, i), k)
  {
    hide Licensed, Accepts, Effect, Inv;
    if i > 0 {
      StaysDeleting(cfg, run, w, k, i - 1);
      var t := run[i - 1];
      assert TurnOK(cfg, t) && After(cfg, t) == WorldAt(run, w, i) && t.move.Call? && t.move.key == k;
      if t.move.took {
        CallKeepsDeleting(cfg, t.world, k, t.move.write);
      }
    }
  }

  lemma {:induction false} StaysGone(cfg: Config, run: seq<Turn>, w: World, k: ObjKey, wr: Write, i: nat, j: nat)
    requires TearsDown(cfg, run, w, k) && i <= j <= |run| && GoneForGood(WorldAt(run, w, i), wr)
    ensures GoneForGood(WorldAt(run, w, j), wr)
  {
    hide Licensed, Accepts, Effect, Inv, GoneForGood;
    if i < j {
      StaysGone(cfg, run, w, k, wr, i, j - 1);
      StaysDeleting(cfg, run, w, k, j - 1);
      var t := run[j - 1];
      assert TurnOK(cfg, t) && After(cfg, t) == WorldAt(run, w, j) && t.move.Call? && t.move.key == k;
      if t.move.took {
        CallStaysGone(cfg, t.world, k, t.move.write, wr);
      }
    }
  }

  lemma CallLeavesInPlace(cfg: Config, w: World, k: ObjKey, call: Write, wr: Write)
    requires Accepts(w, k, call) && call != wr && InPlace(w, wr)
    ensures InPlace(Effect(cfg, w, k, call), wr)
  {
  }

  /** What is there stays as long as no call deletes it. */
  lemma {:induction false} StaysInPlace(cfg: Config, run: seq<Turn>, w: World, k: ObjKey, wr: Write, i: nat, j: nat)
    requires TearsDown(cfg, run, w, k) && i <= j <= |run| && InPlace(WorldAt(run, w, i), wr)
    requires forall x :: i <= x < j ==> !Deletes(run[x], wr)
    ensures InPlace(WorldAt(run, w, j), wr)
  {
    hide Licensed, Accepts, Effect, Inv, InPlace;
    if i < j {
      StaysInPlace(cfg, run, w, k, wr, i, j - 1);
      var t := run[j - 1];
      assert TurnOK(cfg, t) && After(cfg, t) == WorldAt(run, w, j) && t.move.Call? && t.move.key == k;
      assert !Deletes(t, wr);
      if t.move.took {
        CallLeavesInPlace(cfg, t.world, k, t.move.write, wr);
      }
    }
  }

  lemma DeletedIsGone(cfg: Config, w: World, k: ObjKey, wr: Write)
    requires Inv(cfg, w) && Accepts(w, k, wr) && (wr.DeleteGroup? || wr.DeleteBucket?)
    ensures GoneForGood(Effect(cfg, w, k, wr), wr)
  {
    if wr.DeleteGroup? {
      assert GroupOK(w.cloud, wr.group);
    }
  }

  /** Something is there at the end of a teardown exactly if a call that was to delete it spared it. */
  lemma SparedMeansLeft(cfg: Config, run: seq<Turn>, w: World, k: ObjKey, wr: Write)
    requires TearsDown(cfg, run, w, k) && (wr.DeleteGroup? || wr.DeleteBucket?)
    ensures Spared(run, wr) <==> Left(run, wr) && InPlace(w, wr)
  {
    hide Licensed, Accepts, Effect, Inv, InPlace, GoneForGood, TearsDown;
    forall i | 0 <= i < |run| && Leaves(run[i], wr) && InPlace(w, wr)
      ensures forall j :: i < j < |run| ==> !Deletes(run[j], wr)
    {
      forall j | i < j < |run|
        ensures !Deletes(run[j], wr)
      {
        if Deletes(run[j], wr) {
          DeletionIsFinal(cfg, run, w, k, wr, j);
        }
      }
    }
    if i :| 0 <= i < |run| && Leaves(run[i], wr) && forall j :: i < j < |run| ==> !Deletes(run[j], wr) {
      assert WorldAt(run, w, i) == run[i].world;
      StaysInPlace(cfg, run, w, k, wr, i, |run|);
    }
  }

  lemma DeletionIsFinal(cfg: Config, run: seq<Turn>, w: World, k: ObjKey, wr: Write, j: nat)
    requires TearsDown(cfg, run, w, k) && j < |run| && Deletes(run[j], wr) && (wr.DeleteGroup? || wr.DeleteBucket?)
    ensures !InPlace(w, wr)
  {
    hide Licensed, Accepts, Effect, Inv;
    RunKeepsInv(cfg, run, w, j);
    var t := run[j];
    assert TurnOK(cfg, t) && After(cfg, t) == WorldAt(run, w, j + 1);
    DeletedIsGone(cfg, t.world, k, wr);
    StaysGone(cfg, run, w, k, wr, j + 1, |run|);
  }

  /** Group g was issued; while it is there, bucket n, if it is there, is tagged with it. */
  predicate TaggedWhileThere(w: World, n: string, g: nat) {
    g < w.cloud.nextGroup && (g in w.cloud.groups && n in w.cloud.buckets ==> Tagged(w, n, g))
  }

  lemma CallKeepsTag(cfg: Config, w: World, k: ObjKey, call: Write, n: string, g: nat)
    requires Accepts(w, k, call) && Licensed(cfg, w, k, call) && Deleting(w, k) && TaggedWhileThere(w, n, g)
    ensures TaggedWhileThere(Effect(cfg, w, k, call), n, g)
    ensures g in Effect(cfg, w, k, call).cloud.groups ==> g in w.cloud.groups
  {
  }

  /** The tag of a bucket stays as long as its group and the bucket do, and no group comes back. */
  lemma {:induction false} StaysTagged(cfg: Config, run: seq<Turn>, w: World, k: ObjKey, n: string, g: nat, i: nat)
    requires TearsDown(cfg, run, w, k) && i <= |run| && TaggedWhileThere(WorldAt(run, w, 0), n, g)
    ensures TaggedWhileThere(WorldAt(run, w, i), n, g)
    ensures g in WorldAt(run, w, i).cloud.groups ==> forall j :: 0 <= j <= i ==> g in WorldAt(run, w, j).cloud.groups
  {
    hide Licensed, Accepts, Effect, TaggedWhileThere, TearsDown, WorldAt, Happens;
    if i > 0 {
      StaysTagged(cfg, run, w, k, n, g, i - 1);
      StaysDeleting(cfg, run, w, k, i - 1);
      CallOfTeardown(cfg, run, w, k, i - 1);
      var t := run[i - 1];
      if t.move.took {
        CallKeepsTag(cfg, t.world, k, t.move.write, n, g);
      }
    }
  }

  lemma CallOfTeardown(cfg: Config, run: seq<Turn>, w: World, k: ObjKey, i: nat)
    requires TearsDown(cfg, run, w, k) && i < |run|
    ensures run[i].move.Call? && run[i].move.key == k && run[i].world == WorldAt(run, w, i)
    ensures TurnOK(cfg, run[i]) && After(cfg, run[i]) == WorldAt(run, w, i + 1)
  {
    hide Inv, Licensed, Accepts, Effect;
  }

  lemma TraceTearsDown(cfg: Config, k: ObjKey, log: Log, run: seq<Turn>, w: World)
    requires Trace(cfg, k, log, run, w) && Inv(cfg, log.origin) && k in log.origin.cluster.crs
    requires log.origin.cluster.crs[k].deleting
    ensures TearsDown(cfg, run, w, k)
    ensures forall g: nat :: Attributed(cfg, log.origin, k, g) ==>
              TaggedWhileThere(log.origin, EffectiveName(log.origin.cluster.crs[k]), g)
  {
    forall g: nat | Attributed(cfg, log.origin, k, g)
      ensures g < log.origin.cloud.nextGroup
    {
      var n := EffectiveName(log.origin.cluster.crs[k]);
      assert BucketOK(cfg, log.origin, n) && Names(log.origin.cloud.buckets[n], g);
    }
  }

  /** A bucket that goes in the course of a teardown goes by a call of it. */
  lemma {:induction false} BucketGoesByCall(cfg: Config, run: seq<Turn>, w: World, k: ObjKey, n: string, i: nat)
    requires TearsDown(cfg, run, w, k) && i <= |run| && n in WorldAt(run, w, 0).cloud.buckets
    ensures n in WorldAt(run, w, i).cloud.buckets || exists j :: 0 <= j < i && Deletes(run[j], DeleteBucket(n))
  {
    if !exists j :: 0 <= j < i && Deletes(run[j], DeleteBucket(n)) {
      StaysInPlace(cfg, run, w, k, DeleteBucket(n), 0, i);
    }
  }

  /**
   A group of the Bucket that is still there after a teardown, although its bucket is gone or the
   call to delete the bucket was made, was spared by the call to delete it.
   */
  lemma SurvivorWasSpared(cfg: Config, k: ObjKey, log: Log, run: seq<Turn>, w: World, g: nat)
    requires Trace(cfg, k, log, run, w) && Inv(cfg, log.origin) && k in log.origin.cluster.crs
    requires log.origin.cluster.crs[k].deleting && Attributed(cfg, log.origin, k, g)
    requires var n := EffectiveName(log.origin.cluster.crs[k]);
             n !in w.cloud.buckets || Left(run, DeleteBucket(n))
    ensures g in w.cloud.groups <==> Spared(run, DeleteGroup(g))
  {
    hide Inv, Chain, Fitting, Attributed, GroupFirst, Spared, TearsDown, LooseOf, FrozenAs;
    TraceTearsDown(cfg, k, log, run, w);
    SparedMeansLeft(cfg, run, w, k, DeleteGroup(g));
    if g in w.cloud.groups {
      var n := EffectiveName(log.origin.cluster.crs[k]);
      StaysTagged(cfg, run, w, k, n, g, |run|);
      BucketWasThere(cfg, log.origin, k, g);
      BucketGoesByCall(cfg, run, w, k, n, |run|);
      var j := DeletionOf(run, w, n);
      DeletionTurn(cfg, run, w, k, n, j);
      StaysTagged(cfg, run, w, k, n, g, j);
      GroupWasFirst(run, j, n, g);
    }
  }

  lemma BucketWasThere(cfg: Config, w: World, k: ObjKey, g: nat)
    requires Attributed(cfg, w, k, g)
    ensures EffectiveName(w.cluster.crs[k]) in w.cloud.buckets
  {
  }

  lemma DeletionOf(run: seq<Turn>, w: World, n: string) returns (j: nat)
    requires Left(run, DeleteBucket(n)) || exists i :: 0 <= i < |run| && Deletes(run[i], DeleteBucket(n))
    ensures j < |run| && (Leaves(run[j], DeleteBucket(n)) || Deletes(run[j], DeleteBucket(n)))
  {
    if i :| 0 <= i < |run| && Leaves(run[i], DeleteBucket(n)) {
      return i;
    }
    var i :| 0 <= i < |run| && Deletes(run[i], DeleteBucket(n));
    return i;
  }

  lemma DeletionTurn(cfg: Config, run: seq<Turn>, w: World, k: ObjKey, n: string, j: nat)
    requires Chain(cfg, run, w) && j < |run|
    requires Leaves(run[j], DeleteBucket(n)) || Deletes(run[j], DeleteBucket(n))
    ensures run[j].move.Call? && run[j].move.write == DeleteBucket(n) && n in run[j].world.cloud.buckets
    ensures WorldAt(run, w, j) == run[j].world
  {
    assert TurnOK(cfg, run[j]);
  }

  lemma GroupWasFirst(run: seq<Turn>, j: nat, n: string, g: nat)
    requires j < |run| && GroupFirst(run, run[j], j) && run[j].move.Call? && run[j].move.write == DeleteBucket(n)
    requires n in run[j].world.cloud.buckets && g in run[j].world.cloud.groups && TaggedWhileThere(run[j].world, n, g)
    ensures Left(run, DeleteGroup(g))
  {
  }

  /**
   What a teardown that let the object go left at the provider, if it had the bucket in view: the
   bucket exactly if the call to delete it spared it, and the group exactly if the call to delete
   that spared it. Everything is gone exactly if neither did. A call that ends well and spares
   what it was to delete is one that met a gateway's 404 page.
   */
  lemma LetGoMeans(cfg: Config, k: ObjKey, log: Log, run: seq<Turn>, w: World, seen: bool)
    requires Trace(cfg, k, log, run, w) && Inv(cfg, log.origin) && k in log.origin.cluster.crs
    requires log.origin.cluster.crs[k].deleting
    requires LetGoOf(cfg, log.origin, w, k, seen, run) && InView(cfg, log.origin, k, seen)
    ensures var n := EffectiveName(log.origin.cluster.crs[k]);
            && (n in w.cloud.buckets <==> Spared(run, DeleteBucket(n)))
            && (forall g: nat :: Attributed(cfg, log.origin, k, g) ==>
                  (g in w.cloud.groups <==> Spared(run, DeleteGroup(g))))
            && (Removed(cfg, log.origin, w, k) <==>
                  && !Spared(run, DeleteBucket(n))
                  && forall g: nat :: Attributed(cfg, log.origin, k, g) ==> !Spared(run, DeleteGroup(g)))
  {
    hide Inv, Trace, Attributed, Spared, TearsDown, Left;
    var n := EffectiveName(log.origin.cluster.crs[k]);
    TraceTearsDown(cfg, k, log, run, w);
    SparedMeansLeft(cfg, run, w, k, DeleteBucket(n));
    forall g: nat | Attributed(cfg, log.origin, k, g)
      ensures g in w.cloud.groups <==> Spared(run, DeleteGroup(g))
    {
      SurvivorWasSpared(cfg, k, log, run, w, g);
    }
  }

  /** The world after one call of k. */
  function Then(cfg: Config, w: World, k: ObjKey, wr: Write, took: bool): World
    requires took ==> Accepts(w, k, wr)
  {
    if took then Effect(cfg, w, k, wr) else w
  }

  lemma OneMore(cfg: Config, k: ObjKey, w: World, run: seq<Turn>, v: World, wr: Write, took: bool)
    requires Trace(cfg, k, Log(w, [], {}, ""), run, v) && Inv(cfg, v) && !wr.MintKey? && !wr.CreateBucket?
    requires (Accepts(v, k, wr) ==> Licensed(cfg, v, k, wr)) && (took ==> Accepts(v, k, wr))
    requires k in v.cluster.crs && v.cluster.crs[k].deleting
    requires GroupFirst(run, Turn(v, Call(k, wr, took)), |run|)
    ensures var longer := run + [Turn(v, Call(k, wr, took))];
            Trace(cfg, k, Log(w, [], {}, ""), longer, Then(cfg, v, k, wr, took))
                && Inv(cfg, Then(cfg, v, k, wr, took))
  {
    hide Inv, Chain, Licensed, Accepts, Effect, LooseOf;
    var t := Turn(v, Call(k, wr, took));
    assert LooseAfter({}, t) == {};
    CallKeeps(cfg, k, Log(w, [], {}, ""), run, t);
  }

  /** Nothing stands in the way of removing bucket, group g and Secret of k; no Job is left, and no key. */
  predicate AboutToGo(cfg: Config, w: World, k: ObjKey, g: nat) {
    && Attributed(cfg, w, k, g) && g in w.cloud.groups && w.cloud.groups[g].keys == {}
    && OwnBucket(cfg, w, k).objects == 0 && OwnBucket(cfg, w, k).versions == 0
    && w.cluster.crs[k].deleting && w.cluster.crs[k].finalizer
    && SecretKey(k, w.cluster.crs[k]) in w.cluster.secrets && SecretKey(k, w.cluster.crs[k]) != cfg.adminSecret
    && k !in w.cluster.jobs
  }

  /**
   The two DELETE calls are judged by their status code alone, so a gateway's 404 page passes for
   success. From every state in which a teardown is about to go through, it also goes through if
   one of them or both meet such a page: the object goes, and bucket or group stays. A group left
   behind without its bucket has nobody that lays claim to it.
   */
  lemma PagesPassForSuccess(cfg: Config, w: World, k: ObjKey, g: nat, groupWent: bool, bucketWent: bool)
    returns (run: seq<Turn>, w': World)
    requires Inv(cfg, w) && AboutToGo(cfg, w, k, g)
    ensures Trace(cfg, k, Log(w, [], {}, ""), run, w') && Inv(cfg, w') && LetGoOf(cfg, w, w', k, true, run)
    ensures |run| == 5 && run[0].move == Call(k, DeleteJob, false) && run[1].move == Call(k, DeleteGroup(g), groupWent)
    ensures run[2].move == Call(k, DeleteBucket(EffectiveName(w.cluster.crs[k])), bucketWent)
    ensures g in w'.cloud.groups <==> !groupWent
    ensures EffectiveName(w.cluster.crs[k]) in w'.cloud.buckets <==> !bucketWent
    ensures Removed(cfg, w, w', k) <==> groupWent && bucketWent
    ensures bucketWent ==> forall n :: n in w'.cloud.buckets ==> !Names(w'.cloud.buckets[n], g)
  {
    hide Inv, Trace, LetGoOf, Removed, Happens, BucketOK;
    var cr := w.cluster.crs[k];
    var n := EffectiveName(cr);
    StartTrace(cfg, k, w);
    OneMore(cfg, k, w, [], w, DeleteJob, false);
    var none := [Turn(w, Call(k, DeleteJob, false))];
    assert [] + none == none;
    var w1 := Then(cfg, w, k, DeleteGroup(g), groupWent);
    OneMore(cfg, k, w, none, w, DeleteGroup(g), groupWent);
    var one := none + [Turn(w, Call(k, DeleteGroup(g), groupWent))];
    var w2 := Then(cfg, w1, k, DeleteBucket(n), bucketWent);
    assert !groupWent ==> Leaves(one[1], DeleteGroup(g));
    OneMore(cfg, k, w, one, w1, DeleteBucket(n), bucketWent);
    var two := one + [Turn(w1, Call(k, DeleteBucket(n), bucketWent))];
    var w3 := Then(cfg, w2, k, DeleteSecret(SecretKey(k, cr)), true);
    OneMore(cfg, k, w, two, w2, DeleteSecret(SecretKey(k, cr)), true);
    var three := two + [Turn(w2, Call(k, DeleteSecret(SecretKey(k, cr)), true))];
    w' := Then(cfg, w3, k, PutMeta(cr.resolved, false), true);
    OneMore(cfg, k, w, three, w3, PutMeta(cr.resolved, false), true);
    run := three + [Turn(w3, Call(k, PutMeta(cr.resolved, false), true))];
    assert !bucketWent ==> Leaves(run[2], DeleteBucket(n));
    WentLikeThis(cfg, w, w', k, g, groupWent, bucketWent, run);
    GroupIsUnclaimed(cfg, w, k, g);
  }

  lemma WentLikeThis(cfg: Config, w: World, w': World, k: ObjKey, g: nat, groupWent: bool, bucketWent: bool,
      run: seq<Turn>)
    requires AboutToGo(cfg, w, k, g)
    requires w' == w.(
        cloud := w.cloud.(
            groups := if groupWent then w.cloud.groups - {g} else w.cloud.groups,
            buckets := if bucketWent then w.cloud.buckets - {EffectiveName(w.cluster.crs[k])} else w.cloud.buckets),
        cluster := w.cluster.(
            crs := w.cluster.crs - {k}, secrets := w.cluster.secrets - {SecretKey(k, w.cluster.crs[k])}))
    requires !bucketWent ==> Left(run, DeleteBucket(EffectiveName(w.cluster.crs[k])))
    ensures LetGoOf(cfg, w, w', k, true, run) && (Removed(cfg, w, w', k) <==> groupWent && bucketWent)
  {
  }

  lemma GroupIsUnclaimed(cfg: Config, w: World, k: ObjKey, g: nat)
    requires Inv(cfg, w) && Attributed(cfg, w, k, g)
    ensures forall n :: n in w.cloud.buckets && n != EffectiveName(w.cluster.crs[k]) ==> !Names(w.cloud.buckets[n], g)
  {
    assert Names(OwnBucket(cfg, w, k), g);
  }
}
