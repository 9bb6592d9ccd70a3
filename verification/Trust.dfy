/**
 The published credential over whole runs: as long as no key is loose and no other Bucket publishes
 to the same Secret, the key a Bucket's group holds is the one in its Secret, whatever passes and
 events come in between.
 */
module Trust {
  import opened Wrappers
  import opened IsolationPolicy
  import opened Resources
  import opened Protocol
  import opened Frames
  import opened Runs

  /** The call published a key of another Bucket to the Secret of k. */
  predicate Intrudes(t: Turn, k: ObjKey) {
    && t.move.Call? && t.move.key != k && t.move.took && t.move.write.PutSecret?
    && k in t.world.cluster.crs && t.move.write.at == SecretKey(k, t.world.cluster.crs[k])
  }

  /** No other Bucket names the same Secret. */
  predicate SecretIsOwn(w: World, k: ObjKey) {
    k in w.cluster.crs ==>
      forall x :: x in w.cluster.crs && x != k ==> SecretKey(x, w.cluster.crs[x]) != SecretKey(k, w.cluster.crs[k])
  }

  /** The name a pass over k decides on. */
  function Decided(cfg: Config, w: World, k: ObjKey): string
    requires k in w.cluster.crs
  {
    DecideName(cfg.naming, k, w.cluster.crs[k]).0
  }

  /** Under the name n, the key of the group attributed to k is the published one. */
  predicate SoundAs(cfg: Config, w: World, k: ObjKey, n: string) {
    k in w.cluster.crs && n in w.cloud.buckets && OwnedBy(cfg, w.cloud.buckets[n].tags, k)
        && w.cloud.buckets[n].tags.groupId.Some? ==>
      SecretLive(w, w.cloud.buckets[n].tags.groupId.value, SecretKey(k, w.cluster.crs[k]))
  }

  predicate Trustworthy(cfg: Config, w: World, k: ObjKey) {
    k in w.cluster.crs ==> SoundAs(cfg, w, k, Decided(cfg, w, k))
  }

  lemma TrustedMeans(cfg: Config, w: World, k: ObjKey)
    requires Schema(w)
    ensures Trusted(cfg, w, k) <==> Trustworthy(cfg, w, k)
  {
    if k in w.cluster.crs {
      assert WellFormed(w.cluster.crs[k]);
      DecidedIsNotEmpty(cfg, k, w.cluster.crs[k]);
      assert EffectiveName(Frozen(cfg, w, k).cluster.crs[k]) == Decided(cfg, w, k);
    }
  }

  lemma DecidedIsNotEmpty(cfg: Config, k: ObjKey, b: Bucket)
    requires WellFormed(b)
    ensures DecideName(cfg.naming, k, b).0 != ""
  {
    assert |ComposeName(cfg.naming, k, b)| >= |b.spec.bucketName|;
  }

  /** No call of the operator changes the name a pass decides on. */
  lemma WriteKeepsDecided(cfg: Config, w: World, k: ObjKey, actor: ObjKey, wr: Write)
    requires Accepts(w, actor, wr) && Licensed(cfg, w, actor, wr) && k in w.cluster.crs
    requires k in Effect(cfg, w, actor, wr).cluster.crs
    ensures var w' := Effect(cfg, w, actor, wr);
            Decided(cfg, w', k) == Decided(cfg, w, k) && w'.cluster.crs[k].spec == w.cluster.crs[k].spec
  {
  }

  /******* Calls for other Buckets *******/

  lemma OtherWriteLeavesSecret(cfg: Config, w: World, k: ObjKey, actor: ObjKey, wr: Write)
    requires Accepts(w, actor, wr) && Licensed(cfg, w, actor, wr) && actor != k
    requires !Intrudes(Turn(w, Call(actor, wr, true)), k)
    ensures var w' := Effect(cfg, w, actor, wr);
            && (k in w'.cluster.crs <==> k in w.cluster.crs)
            && (k in w.cluster.crs ==>
                  w'.cluster.crs[k] == w.cluster.crs[k]
                  && SecretAt(w', SecretKey(k, w.cluster.crs[k])).accessKey
                      in {None, SecretAt(w, SecretKey(k, w.cluster.crs[k])).accessKey})
  {
  }

  lemma OtherWriteLeavesOwner(cfg: Config, w: World, k: ObjKey, actor: ObjKey, wr: Write, n: string, g: nat)
    requires Inv(cfg, w) && Accepts(w, actor, wr) && Licensed(cfg, w, actor, wr) && OwnerTag(k) != OwnerTag(actor)
    requires var w' := Effect(cfg, w, actor, wr); Tagged(w', n, g) && OwnedBy(cfg, w'.cloud.buckets[n].tags, k)
    ensures n in w.cloud.buckets && OwnedBy(cfg, w.cloud.buckets[n].tags, k)
    ensures w.cloud.buckets[n].tags.groupId == Some(g)
            || Unkeyed(Effect(cfg, w, actor, wr), Effect(cfg, w, actor, wr).cloud.buckets[n])
  {
    if n in w.cloud.buckets && w.cloud.buckets[n].tags.groupId != Some(g) {
      RecordedIsUnkeyed(cfg, w, n, g);
    }
  }

  /** The group on a bucket of k is neither the admin's nor attributed to anybody else. */
  lemma OwnGroupIsNobodyElses(cfg: Config, w: World, k: ObjKey, actor: ObjKey, n: string, g: nat)
    requires Inv(cfg, w) && OwnerTag(k) != OwnerTag(actor) && Tagged(w, n, g)
    requires OwnedBy(cfg, w.cloud.buckets[n].tags, k)
    ensures g < w.cloud.nextGroup && (g in w.cloud.groups ==> !w.cloud.groups[g].admin) && !Attributed(cfg, w, actor, g)
  {
    assert BucketOK(cfg, w, n) && Names(w.cloud.buckets[n], g);
    if Attributed(cfg, w, actor, g) {
      assert Names(OwnBucket(cfg, w, actor), g);
    }
  }

  lemma OwnKeysUntouched(cfg: Config, w: World, k: ObjKey, actor: ObjKey, wr: Write, n: string, g: nat)
    requires Inv(cfg, w) && Accepts(w, actor, wr) && Licensed(cfg, w, actor, wr) && OwnerTag(k) != OwnerTag(actor)
    requires Tagged(w, n, g) && OwnedBy(cfg, w.cloud.buckets[n].tags, k)
    ensures var w' := Effect(cfg, w, actor, wr);
            g in w'.cloud.groups ==> g in w.cloud.groups && w'.cloud.groups[g].keys == w.cloud.groups[g].keys
  {
    hide Inv, StatusFits, MayTag, MayRecord, MayRead, Isolates, Provisioned;
    OwnGroupIsNobodyElses(cfg, w, k, actor, n, g);
  }

  lemma OtherWriteKeepsTrust(cfg: Config, w: World, k: ObjKey, actor: ObjKey, wr: Write)
    requires Inv(cfg, w) && Accepts(w, actor, wr) && Licensed(cfg, w, actor, wr) && actor != k && '/' !in k.ns
    requires '/' !in actor.ns && !Intrudes(Turn(w, Call(actor, wr, true)), k)
    requires Trustworthy(cfg, w, k)
    ensures Trustworthy(cfg, Effect(cfg, w, actor, wr), k)
  {
    hide Inv, Licensed, Accepts, Effect;
    var w' := Effect(cfg, w, actor, wr);
    if OwnerTag(k) == OwnerTag(actor) {
      OwnerTagIdentifies(k, actor);
    }
    OtherWriteLeavesSecret(cfg, w, k, actor, wr);
    if k in w'.cluster.crs {
      var n := Decided(cfg, w, k);
      if n in w'.cloud.buckets && OwnedBy(cfg, w'.cloud.buckets[n].tags, k) && w'.cloud.buckets[n].tags.groupId.Some? {
        var g := w'.cloud.buckets[n].tags.groupId.value;
        OtherWriteLeavesOwner(cfg, w, k, actor, wr, n, g);
        if w.cloud.buckets[n].tags.groupId == Some(g) {
          OwnKeysUntouched(cfg, w, k, actor, wr, n, g);
        }
      }
    }
  }

  /******* Outside events *******/

  /**
   Name and Secret reference of k stay and its Secret is at most lost; or k is made anew, and no
   bucket carries its ownership tags.
   */
  predicate KeepsPublished(cfg: Config, w: World, w': World, k: ObjKey) {
    k in w'.cluster.crs ==>
      if k in w.cluster.crs
      then && Decided(cfg, w', k) == Decided(cfg, w, k)
           && w'.cluster.crs[k].spec.secretName == w.cluster.crs[k].spec.secretName
           && SecretAt(w', SecretKey(k, w'.cluster.crs[k])).accessKey
               in {None, SecretAt(w, SecretKey(k, w.cluster.crs[k])).accessKey}
      else Untaken(cfg, w', k)
  }

  lemma SameKeys(a: set<nat>, b: set<nat>)
    requires a <= b && a != {} && |b| <= 1
    ensures a == b
  {
    var x :| x in a;
    assert b - {x} == {} by {
      assert |b - {x}| == |b| - 1;
    }
  }

  lemma OutsideKeepsTrust(cfg: Config, w: World, w': World, k: ObjKey)
    requires Inv(cfg, w) && Happens(cfg, w, w') && KeepsPublished(cfg, w, w', k) && Trustworthy(cfg, w, k)
    ensures Trustworthy(cfg, w', k)
  {
    hide Inv;
    OwnerTagNotEmpty(k);
    if k in w.cluster.crs && k in w'.cluster.crs {
      var n := Decided(cfg, w, k);
      if n in w'.cloud.buckets && OwnedBy(cfg, w'.cloud.buckets[n].tags, k) && w'.cloud.buckets[n].tags.groupId.Some? {
        var g := w'.cloud.buckets[n].tags.groupId.value;
        if g in w'.cloud.groups && w'.cloud.groups[g].keys != {} {
          KeysAreFew(cfg, w, g);
          SameKeys(w'.cloud.groups[g].keys, w.cloud.groups[g].keys);
        }
      }
    }
  }

  /**
   Between two passes over k nothing the operator does for other Buckets spoils the credential of
   k, as long as it publishes none of their keys to the Secret of k.
   */
  lemma {:induction false} OthersKeepTheCredential(cfg: Config, run: seq<Turn>, w: World, k: ObjKey, i: nat)
    requires Chain(cfg, run, w) && Inv(cfg, WorldAt(run, w, 0)) && Schema(WorldAt(run, w, 0)) && i <= |run|
    requires '/' !in k.ns && Trustworthy(cfg, WorldAt(run, w, 0), k)
    requires forall j :: 0 <= j < i ==>
               match run[j].move
               case Outside(next) => KeepsPublished(cfg, run[j].world, next, k)
               case Call(actor, _, _) => actor != k && !Intrudes(run[j], k)
    ensures Trustworthy(cfg, WorldAt(run, w, i), k)
  {
    hide Licensed, Accepts, Effect, Inv, Trustworthy, Happens, KeepsPublished;
    if i > 0 {
      OthersKeepTheCredential(cfg, run, w, k, i - 1);
      RunKeepsInv(cfg, run, w, i - 1);
      RunKeepsSchema(cfg, run, w, i - 1);
      var t := run[i - 1];
      assert TurnOK(cfg, t) && After(cfg, t) == WorldAt(run, w, i);
      if t.move.Outside? {
        OutsideKeepsTrust(cfg, t.world, t.move.next, k);
      } else if t.move.took {
        CallerExists(cfg, t.world, t.move.key, t.move.write);
        OtherWriteKeepsTrust(cfg, t.world, k, t.move.key, t.move.write);
      }
    }
  }

  /******* Teardown of the Bucket itself *******/

  lemma TeardownWriteKeepsSecret(cfg: Config, w: World, k: ObjKey, wr: Write)
    requires Accepts(w, k, wr) && Licensed(cfg, w, k, wr) && w.cluster.crs[k].deleting
    ensures var w' := Effect(cfg, w, k, wr);
            k in w'.cluster.crs ==>
              && w'.cluster.crs[k].deleting
              && SecretAt(w', SecretKey(k, w.cluster.crs[k])).accessKey
                  in {None, SecretAt(w, SecretKey(k, w.cluster.crs[k])).accessKey}
  {
  }

  lemma TeardownWriteKeepsTag(cfg: Config, w: World, k: ObjKey, wr: Write, n: string)
    requires Inv(cfg, w) && Accepts(w, k, wr) && Licensed(cfg, w, k, wr) && w.cluster.crs[k].deleting
    requires n in Effect(cfg, w, k, wr).cloud.buckets
    ensures var w' := Effect(cfg, w, k, wr);
            && n in w.cloud.buckets && w'.cloud.buckets[n].tags.managedBy == w.cloud.buckets[n].tags.managedBy
            && w'.cloud.buckets[n].tags.owner == w.cloud.buckets[n].tags.owner
            && (w'.cloud.buckets[n].tags.groupId == w.cloud.buckets[n].tags.groupId || Unkeyed(w', w'.cloud.buckets[n]))
  {
    hide Inv;
    if wr.PutTags? && wr.name == n && wr.tags.groupId.Some? {
      RecordedIsUnkeyed(cfg, w, n, wr.tags.groupId.value);
    }
  }

  lemma TeardownWriteAddsNoKey(cfg: Config, w: World, k: ObjKey, wr: Write, n: string, g: nat)
    requires Inv(cfg, w) && Accepts(w, k, wr) && Licensed(cfg, w, k, wr) && w.cluster.crs[k].deleting && Tagged(w, n, g)
    ensures var w' := Effect(cfg, w, k, wr); g in w'.cloud.groups ==>
              g in w.cloud.groups && w'.cloud.groups[g].keys <= w.cloud.groups[g].keys
  {
    assert BucketOK(cfg, w, n) && Names(w.cloud.buckets[n], g);
  }

  lemma OwnTeardownWriteKeepsTrust(cfg: Config, w: World, k: ObjKey, wr: Write, n: string)
    requires Inv(cfg, w) && Accepts(w, k, wr) && Licensed(cfg, w, k, wr) && k in w.cluster.crs
    requires w.cluster.crs[k].deleting
    requires SoundAs(cfg, w, k, n)
    ensures var w' := Effect(cfg, w, k, wr);
            SoundAs(cfg, w', k, n) && (k in w'.cluster.crs ==> w'.cluster.crs[k].deleting)
  {
    hide Inv, Licensed, Accepts, Effect;
    var w' := Effect(cfg, w, k, wr);
    TeardownWriteKeepsSecret(cfg, w, k, wr);
    if k in w'.cluster.crs {
      WriteKeepsDecided(cfg, w, k, k, wr);
      if n in w'.cloud.buckets && w'.cloud.buckets[n].tags.groupId.Some? {
        var g := w'.cloud.buckets[n].tags.groupId.value;
        TeardownWriteKeepsTag(cfg, w, k, wr, n);
        if w.cloud.buckets[n].tags.groupId == Some(g) {
          TeardownWriteAddsNoKey(cfg, w, k, wr, n, g);
          if g in w'.cloud.groups && w'.cloud.groups[g].keys != {} {
            KeysAreFew(cfg, w, g);
            SameKeys(w'.cloud.groups[g].keys, w.cloud.groups[g].keys);
          }
        }
      }
    }
  }

  lemma {:induction false} TeardownKeepsTrust(cfg: Config, run: seq<Turn>, w: World, k: ObjKey, n: string, i: nat)
    requires Chain(cfg, run, w) && Inv(cfg, WorldAt(run, w, 0)) && i <= |run|
    requires forall j :: 0 <= j < |run| ==> run[j].move.Call? && run[j].move.key == k
    requires var v := WorldAt(run, w, 0); SoundAs(cfg, v, k, n) && (k in v.cluster.crs ==> v.cluster.crs[k].deleting)
    ensures var v := WorldAt(run, w, i); SoundAs(cfg, v, k, n) && (k in v.cluster.crs ==> v.cluster.crs[k].deleting)
  {
    hide Licensed, Accepts, Effect, Inv, SoundAs;
    if i > 0 {
      TeardownKeepsTrust(cfg, run, w, k, n, i - 1);
      RunKeepsInv(cfg, run, w, i - 1);
      var t := run[i - 1];
      assert TurnOK(cfg, t) && After(cfg, t) == WorldAt(run, w, i) && t.move.Call? && t.move.key == k;
      if t.move.took {
        CallerExists(cfg, t.world, k, t.move.write);
        OwnTeardownWriteKeepsTrust(cfg, t.world, k, t.move.write, n);
      }
    }
  }

  /******* Any pass *******/

  lemma WriteKeepsSecretsApart(cfg: Config, w: World, actor: ObjKey, wr: Write, k: ObjKey)
    requires Accepts(w, actor, wr) && SecretIsOwn(w, k)
    ensures SecretIsOwn(Effect(cfg, w, actor, wr), k)
  {
  }

  /** Calls keep Secrets apart, bring no object into being, and keep the decided name. */
  lemma {:induction false} CallsKeepNaming(cfg: Config, run: seq<Turn>, w: World, k: ObjKey, i: nat)
    requires Chain(cfg, run, w) && i <= |run| && forall j :: 0 <= j < |run| ==> run[j].move.Call?
    ensures var u, v := WorldAt(run, w, 0), WorldAt(run, w, i);
            && (SecretIsOwn(u, k) ==> SecretIsOwn(v, k))
            && (k in v.cluster.crs ==> k in u.cluster.crs && Decided(cfg, v, k) == Decided(cfg, u, k))
  {
    hide Licensed, Accepts, Effect, SecretIsOwn, Decided;
    if i > 0 {
      CallsKeepNaming(cfg, run, w, k, i - 1);
      var t := run[i - 1];
      assert TurnOK(cfg, t) && After(cfg, t) == WorldAt(run, w, i) && t.move.Call?;
      if t.move.took {
        WritesMakeNoObject(cfg, t.world, t.move.key, t.move.write);
        if SecretIsOwn(t.world, k) {
          WriteKeepsSecretsApart(cfg, t.world, t.move.key, t.move.write, k);
        }
        if k in After(cfg, t).cluster.crs {
          WriteKeepsDecided(cfg, t.world, k, t.move.key, t.move.write);
        }
      }
    }
  }

  lemma WritesMakeNoObject(cfg: Config, w: World, k: ObjKey, wr: Write)
    requires Accepts(w, k, wr)
    ensures Effect(cfg, w, k, wr).cluster.crs.Keys <= w.cluster.crs.Keys
  {
  }

  /**
   A pass keeps the trust in k's credential if it is over another Bucket and publishes nothing to
   the Secret of k, or if it is a teardown.
   */
  lemma PassKeepsTrust(cfg: Config, k: ObjKey, actor: ObjKey, log: Log, run: seq<Turn>, w: World)
    requires Trace(cfg, actor, log, run, w) && Inv(cfg, log.origin) && Schema(log.origin) && '/' !in k.ns
    requires Trustworthy(cfg, log.origin, k)
    requires actor != k || (k in log.origin.cluster.crs ==> log.origin.cluster.crs[k].deleting)
    requires forall i :: 0 <= i < |run| ==> !Intrudes(run[i], k)
    ensures Trustworthy(cfg, w, k)
  {
    hide Inv, SoundAs, Licensed, Accepts, Effect, Happens, SecretIsOwn, Fitting, LooseOf, Intrudes, GroupFirst;
    if actor != k {
      OthersKeepTheCredential(cfg, run, w, k, |run|);
    } else {
      CallsKeepNaming(cfg, run, w, k, |run|);
      if k in log.origin.cluster.crs {
        TeardownKeepsTrust(cfg, run, w, k, Decided(cfg, log.origin, k), |run|);
      }
    }
  }

  /******* The Secret of k *******/

  /** A Bucket whose Secret no other Bucket names need not fear that its Secret is overwritten. */
  lemma {:induction false} OwnSecretIsSafe(cfg: Config, run: seq<Turn>, w: World, k: ObjKey, i: nat)
    requires Chain(cfg, run, w) && i < |run| && SecretIsOwn(WorldAt(run, w, 0), k)
    requires forall j :: 0 <= j < i && run[j].move.Outside? && SecretIsOwn(run[j].world, k) ==>
               SecretIsOwn(run[j].move.next, k)
    ensures SecretIsOwn(run[i].world, k) && !Intrudes(run[i], k)
  {
    hide Accepts, Effect, Happens;
    if i > 0 {
      hide Licensed, SecretIsOwn;
      OwnSecretIsSafe(cfg, run, w, k, i - 1);
      var t := run[i - 1];
      assert TurnOK(cfg, t) && After(cfg, t) == WorldAt(run, w, i);
      if t.move.Call? && t.move.took {
        WriteKeepsSecretsApart(cfg, t.world, t.move.key, t.move.write, k);
      }
    }
    assert TurnOK(cfg, run[i]);
    PublishesToOwn(cfg, run[i], k);
  }

  lemma PublishesToOwn(cfg: Config, t: Turn, k: ObjKey)
    requires TurnOK(cfg, t) && SecretIsOwn(t.world, k)
    ensures !Intrudes(t, k)
  {
  }

  /** No key belongs to two groups. */
  predicate KeysApart(w: World) {
    forall g, h :: g in w.cloud.groups && h in w.cloud.groups && g != h ==>
      w.cloud.groups[g].keys !! w.cloud.groups[h].keys
  }

  lemma WriteKeepsKeysApart(cfg: Config, w: World, k: ObjKey, wr: Write)
    requires Inv(cfg, w) && Accepts(w, k, wr) && KeysApart(w)
    ensures KeysApart(Effect(cfg, w, k, wr))
  {
    if wr.MintKey? || wr.CreateGroup? || wr.DropKey? || wr.DeleteGroup? {
      hide Inv;
      KeysAreIssued(cfg, w);
    } else {
      hide Inv, KeysApart;
      assert Effect(cfg, w, k, wr).cloud.groups == w.cloud.groups;
      SameKeysStayApart(w, Effect(cfg, w, k, wr));
    }
  }

  lemma KeysAreIssued(cfg: Config, w: World)
    requires Inv(cfg, w)
    ensures forall g :: g in w.cloud.groups ==> GroupOK(w.cloud, g)
  {
  }

  lemma SameKeysStayApart(w: World, w': World)
    requires KeysApart(w) && w'.cloud.groups == w.cloud.groups
    ensures KeysApart(w')
  {
  }

  lemma {:induction false} RunKeepsKeysApart(cfg: Config, run: seq<Turn>, w: World, i: nat)
    requires Reachable(cfg, run, w) && i <= |run|
    ensures KeysApart(WorldAt(run, w, i))
  {
    hide Licensed, Accepts, Effect, Inv, KeysApart;
    if i == 0 {
      assert KeysApart(EMPTY_WORLD) by {
        EmptyIsApart();
      }
    } else {
      RunKeepsKeysApart(cfg, run, w, i - 1);
      ReachableIsSound(cfg, run, w, i - 1);
      var t := run[i - 1];
      assert TurnOK(cfg, t) && After(cfg, t) == WorldAt(run, w, i);
      if t.move.Outside? {
        OutsideKeepsKeysApart(cfg, t.world, t.move.next);
      } else if t.move.took {
        WriteKeepsKeysApart(cfg, t.world, t.move.key, t.move.write);
      }
    }
  }

  lemma EmptyIsApart()
    ensures KeysApart(EMPTY_WORLD)
  {
  }

  lemma OutsideKeepsKeysApart(cfg: Config, w: World, w': World)
    requires Happens(cfg, w, w') && KeysApart(w)
    ensures KeysApart(w')
  {
  }

  /**
   The condition cannot be dropped: in every run, once another Bucket has published its key to the
   Secret of k, that Secret holds no working credential of k.
   */
  lemma IntrusionSpoils(cfg: Config, run: seq<Turn>, w: World, k: ObjKey, i: nat)
    requires Reachable(cfg, run, w) && i < |run| && Intrudes(run[i], k)
    ensures !KeyWorks(cfg, WorldAt(run, w, i + 1), k)
  {
    ReachableIsSound(cfg, run, w, i);
    RunKeepsKeysApart(cfg, run, w, i);
    var t := run[i];
    assert TurnOK(cfg, t) && After(cfg, t) == WorldAt(run, w, i + 1);
    IntrudedKeyIsForeign(cfg, t.world, k, t.move.key, t.move.write);
  }

  lemma IntrudedKeyIsForeign(cfg: Config, w: World, k: ObjKey, actor: ObjKey, wr: Write)
    requires Inv(cfg, w) && KeysApart(w) && Accepts(w, actor, wr) && Licensed(cfg, w, actor, wr)
    requires Intrudes(Turn(w, Call(actor, wr, true)), k)
    ensures !KeyWorks(cfg, Effect(cfg, w, actor, wr), k)
  {
    if Owns(cfg, w, k) && OwnBucket(cfg, w, k).tags.groupId == OwnBucket(cfg, w, actor).tags.groupId {
      assert Names(OwnBucket(cfg, w, k), OwnBucket(cfg, w, k).tags.groupId.value);
      assert Names(OwnBucket(cfg, w, actor), OwnBucket(cfg, w, k).tags.groupId.value);
      OwnersDiffer(cfg, w, k, actor);
    }
  }

  /******* When trust is lost *******/

  /** A small project: one Bucket whose group holds `keys` and whose Secret holds key 1. */
  function ExampleWorld(k: ObjKey, cfg: Config, keys: set<nat>, nextKey: nat): World {
    var status := Status(PhaseReady, IsReady, 1, "data", "host/data",
        Some(1), UrnOf(1), Some(1), [], CloneNone, "", None, false, false);
    var cr := Bucket(Spec("data", "creds", true, "eu01", false, false, [], None), status, 1, false, true, "data", "");
    var bucket := CloudBucket(0, 0, Tags("operator", OwnerTag(k), Some(1), UrnOf(1)),
        Some(Isolation("data", UrnOf(0), UrnOf(1), [])));
    var secrets := map[
      cfg.adminSecret := Secret(None, None, "", Some(AdminCreds(0, UrnOf(0), 0))),
      ObjKey("ns", "creds") := Secret(Some(k), Some(1), "data", None)];
    World(
      Cloud(map["data" := bucket], map[0 := Group(true, {0}), 1 := Group(false, keys)], 2, nextKey),
      Cluster(map[k := cr], secrets, map[]))
  }

  /**
   A key that is lost outside, and a stop between minting its replacement and publishing it, lead
   from a Bucket that works to one that is settled on a credential that does not.
   */
  lemma OrphanedKeyLooksSettled() returns (cfg: Config, run: seq<Turn>, w: World, k: ObjKey)
    ensures Chain(cfg, run, w) && |run| == 2 && Inv(cfg, run[0].world) && Settled(cfg, run[0].world, k)
    ensures KeyWorks(cfg, run[0].world, k)
    ensures run[0].move.Outside? && run[1].move == Call(k, MintKey(1), true) && LooseOf(run) == {2}
    ensures Inv(cfg, w) && Settled(cfg, w, k) && w.cluster.crs[k].status.ready == IsReady && !KeyWorks(cfg, w, k)
  {
    hide Inv, Settled, Happens, Licensed;
    k := ObjKey("ns", "data");
    cfg := Config("operator", ObjKey("system", "admin"), "eu01", "host", false, 0, Naming("", false));
    var good, keyless := ExampleWorld(k, cfg, {1}, 2), ExampleWorld(k, cfg, {}, 2);
    w := ExampleWorld(k, cfg, {2}, 3);
    ExampleIsSettled(cfg, k, {1}, 2);
    ExampleIsSettled(cfg, k, {2}, 3);
    ExampleTurns(cfg, k);
    run := [Turn(good, Outside(keyless)), Turn(keyless, Call(k, MintKey(1), true))];
    ExampleLoose(run);
  }

  lemma ExampleLoose(run: seq<Turn>)
    requires |run| == 2 && run[0].move.Outside? && Mints(run[1], 2)
    ensures LooseOf(run) == {2}
  {
    assert run[..1] == [run[0]] && run[..1][..0] == [];
    assert LooseOf(run[..1]) == {};
  }

  lemma ExampleTurns(cfg: Config, k: ObjKey)
    requires k == ObjKey("ns", "data")
    requires cfg == Config("operator", ObjKey("system", "admin"), "eu01", "host", false, 0, Naming("", false))
    ensures var keyless := ExampleWorld(k, cfg, {}, 2);
            && Happens(cfg, ExampleWorld(k, cfg, {1}, 2), keyless)
            && Accepts(keyless, k, MintKey(1)) && Licensed(cfg, keyless, k, MintKey(1))
            && Effect(cfg, keyless, k, MintKey(1)) == ExampleWorld(k, cfg, {2}, 3)
  {
    var keyless := ExampleWorld(k, cfg, {}, 2);
    assert keyless.cloud.groups[1].keys + {2} == {2};
    assert keyless.cloud.groups[1 := Group(false, {2})] == map[0 := Group(true, {0}), 1 := Group(false, {2})];
  }

  lemma ExampleIsSettled(cfg: Config, k: ObjKey, keys: set<nat>, nextKey: nat)
    requires k == ObjKey("ns", "data")
    requires cfg == Config("operator", ObjKey("system", "admin"), "eu01", "host", false, 0, Naming("", false))
    requires |keys| == 1 && nextKey >= 1 && forall key :: key in keys ==> key < nextKey
    ensures var w := ExampleWorld(k, cfg, keys, nextKey); Inv(cfg, w) && Settled(cfg, w, k)
  {
    var w := ExampleWorld(k, cfg, keys, nextKey);
    var b := w.cloud.buckets["data"];
    forall g: nat | Names(b, g)
      ensures g == 1
    {
      if g != 1 {
        UrnsDiffer(g, 1);
      }
    }
    UrnsDiffer(0, 1);
    assert BucketOK(cfg, w, "data");
    assert GrantNames(cfg, w, k, []) == [] && Sanitized([], UrnOf(0), UrnOf(1)) == [];
    assert Stands(cfg, w, k, [], []) && UrnsOf(cfg, w, k, []) == [];
  }

  /** A small project: a and b name the same Secret; group 1 of a holds key 1, group 2 of b holds `keys`. */
  function SharedWorld(cfg: Config, a: ObjKey, b: ObjKey, secret: map<ObjKey, Secret>, keys: set<nat>,
      nextKey: nat): World {
    var ready := Status(PhaseReady, IsReady, 1, "data", "host/data",
        Some(1), UrnOf(1), Some(1), [], CloneNone, "", None, false, false);
    var unset := Status(PhaseUnset, NoCondition, 0, "", "", None, "", None, [], CloneNone, "", None, false, false);
    var one := Bucket(Spec("data", "creds", true, "eu01", false, false, [], None), ready, 1, false, true, "data", "");
    var two := Bucket(Spec("more", "creds", true, "eu01", false, false, [], None), unset, 1, false, true, "more", "");
    var data := CloudBucket(0, 0, Tags("operator", OwnerTag(a), Some(1), UrnOf(1)),
        Some(Isolation("data", UrnOf(0), UrnOf(1), [])));
    var more := CloudBucket(0, 0, Tags("operator", OwnerTag(b), Some(2), UrnOf(2)),
        Some(Isolation("more", UrnOf(0), UrnOf(2), [])));
    World(
      Cloud(map["data" := data, "more" := more],
            map[0 := Group(true, {0}), 1 := Group(false, {1}), 2 := Group(false, keys)], 3, nextKey),
      Cluster(map[a := one, b := two],
              secret[cfg.adminSecret := Secret(None, None, "", Some(AdminCreds(0, UrnOf(0), 0)))], map[]))
  }

  /**
   The 'already provisioned' test does not ask whose key the Secret holds. From a settled Bucket
   with a working credential, the loss of its Secret and a pass over another Bucket that names the
   same Secret lead, without any loose key, to a Bucket that a failure-free pass takes for
   provisioned and whose credential does not work.
   */
  lemma SharedSecretLooksPublished() returns (cfg: Config, run: seq<Turn>, w: World, a: ObjKey, b: ObjKey)
    ensures Chain(cfg, run, w) && |run| == 3 && Inv(cfg, run[0].world) && Settled(cfg, run[0].world, a)
    ensures KeyWorks(cfg, run[0].world, a) && Trustworthy(cfg, run[0].world, a)
    ensures run[0].move.Outside? && KeepsPublished(cfg, run[0].world, run[0].move.next, a)
    ensures run[1].move == Call(b, MintKey(2), true)
    ensures run[2].move == Call(b, PutSecret(ObjKey("ns", "creds"), 2, "more"), true) && Intrudes(run[2], a)
    ensures LooseOf(run) == {}
    ensures Inv(cfg, w) && Provisionable(w, a) && FairTo(cfg, w, w.cluster.crs[a]) && CanConverge(cfg, w, a)
    ensures Published(w, a, w.cluster.crs[a], 1) && Attributed(cfg, w, a, 1) && !KeyWorks(cfg, w, a)
  {
    hide Inv, Settled, Happens, Licensed, FairTo, Accepts, Effect, CanConverge, KeyWorks, Trustworthy, KeepsPublished,
      Published, Attributed, Provisionable, Intrudes, SharedWorld, LooseOf, Mints;
    a, b := ObjKey("ns", "data"), ObjKey("ns", "more");
    var at := ObjKey("ns", "creds");
    cfg := Config("operator", ObjKey("system", "admin"), "eu01", "host", false, 0, Naming("", false));
    var good := SharedWorld(cfg, a, b, map[at := Secret(Some(a), Some(1), "data", None)], {}, 2);
    var lost, minted := SharedWorld(cfg, a, b, map[], {}, 2), SharedWorld(cfg, a, b, map[], {2}, 3);
    w := SharedWorld(cfg, a, b, map[at := Secret(Some(b), Some(2), "more", None)], {2}, 3);
    SharedIsSound(cfg, a, b, map[at := Secret(Some(a), Some(1), "data", None)], {}, 2);
    SharedIsSound(cfg, a, b, map[], {}, 2);
    SharedIsSound(cfg, a, b, map[], {2}, 3);
    SharedIsSound(cfg, a, b, map[at := Secret(Some(b), Some(2), "more", None)], {2}, 3);
    SharedIsSettled(cfg, a, b);
    SharedSecretIsLost(cfg, a, b);
    OtherKeyIsMinted(cfg, a, b);
    OtherKeyIsPublished(cfg, a, b);
    SharedIsFair(cfg, a, b);
    run := [Turn(good, Outside(lost)), Turn(lost, Call(b, MintKey(2), true)),
            Turn(minted, Call(b, PutSecret(at, 2, "more"), true))];
    SharedLoose(run);
  }

  lemma SharedLoose(run: seq<Turn>)
    requires |run| == 3 && run[0].move.Outside? && Mints(run[1], 2)
    requires Secures(run[2], 2) && run[2].move.write.PutSecret?
    ensures LooseOf(run) == {}
  {
    assert run[..2][..1] == [run[0]] && run[..1] == [run[0]] && [run[0]][..0] == [];
    assert LooseOf([run[0]]) == {};
    assert LooseOf(run[..2]) == {2};
  }

  lemma SharedIsSound(cfg: Config, a: ObjKey, b: ObjKey, secret: map<ObjKey, Secret>, keys: set<nat>, nextKey: nat)
    requires a == ObjKey("ns", "data") && b == ObjKey("ns", "more")
    requires cfg == Config("operator", ObjKey("system", "admin"), "eu01", "host", false, 0, Naming("", false))
    requires |keys| <= 1 && nextKey >= 2 && forall key :: key in keys ==> key < nextKey
    ensures Inv(cfg, SharedWorld(cfg, a, b, secret, keys, nextKey))
  {
    var w := SharedWorld(cfg, a, b, secret, keys, nextKey);
    forall n, g: nat | n in w.cloud.buckets && Names(w.cloud.buckets[n], g)
      ensures g == if n == "data" then 1 else 2
    {
      assert |UrnOf(g)| == g + 4 && |UrnOf(1)| == 5 && |UrnOf(2)| == 6;
    }
    UrnsDiffer(0, 1);
    UrnsDiffer(0, 2);
    assert BucketOK(cfg, w, "data") && BucketOK(cfg, w, "more");
  }

  lemma SharedIsSettled(cfg: Config, a: ObjKey, b: ObjKey)
    requires a == ObjKey("ns", "data") && b == ObjKey("ns", "more")
    requires cfg == Config("operator", ObjKey("system", "admin"), "eu01", "host", false, 0, Naming("", false))
    ensures var at := ObjKey("ns", "creds");
            var w := SharedWorld(cfg, a, b, map[at := Secret(Some(a), Some(1), "data", None)], {}, 2);
            Settled(cfg, w, a) && KeyWorks(cfg, w, a) && Trustworthy(cfg, w, a)
  {
    var w := SharedWorld(cfg, a, b, map[ObjKey("ns", "creds") := Secret(Some(a), Some(1), "data", None)], {}, 2);
    assert GrantNames(cfg, w, a, []) == [] && Sanitized([], UrnOf(0), UrnOf(1)) == [];
    assert Stands(cfg, w, a, [], []) && UrnsOf(cfg, w, a, []) == [];
  }

  lemma SharedSecretIsLost(cfg: Config, a: ObjKey, b: ObjKey)
    requires a == ObjKey("ns", "data") && b == ObjKey("ns", "more")
    requires cfg == Config("operator", ObjKey("system", "admin"), "eu01", "host", false, 0, Naming("", false))
    ensures var at := ObjKey("ns", "creds");
            var good := SharedWorld(cfg, a, b, map[at := Secret(Some(a), Some(1), "data", None)], {}, 2);
            var lost := SharedWorld(cfg, a, b, map[], {}, 2);
            Happens(cfg, good, lost) && KeepsPublished(cfg, good, lost, a)
  {
  }

  lemma OtherKeyIsMinted(cfg: Config, a: ObjKey, b: ObjKey)
    requires a == ObjKey("ns", "data") && b == ObjKey("ns", "more")
    requires cfg == Config("operator", ObjKey("system", "admin"), "eu01", "host", false, 0, Naming("", false))
    ensures var lost := SharedWorld(cfg, a, b, map[], {}, 2);
            && Accepts(lost, b, MintKey(2)) && Licensed(cfg, lost, b, MintKey(2))
            && Mints(Turn(lost, Call(b, MintKey(2), true)), 2)
            && Effect(cfg, lost, b, MintKey(2)) == SharedWorld(cfg, a, b, map[], {2}, 3)
  {
    var lost, minted := SharedWorld(cfg, a, b, map[], {}, 2), SharedWorld(cfg, a, b, map[], {2}, 3);
    assert lost.cloud.groups[2].keys + {2} == {2};
    assert lost.cloud.groups[2 := Group(false, {2})] == minted.cloud.groups;
  }

  lemma OtherKeyIsPublished(cfg: Config, a: ObjKey, b: ObjKey)
    requires a == ObjKey("ns", "data") && b == ObjKey("ns", "more")
    requires cfg == Config("operator", ObjKey("system", "admin"), "eu01", "host", false, 0, Naming("", false))
    ensures var at, minted := ObjKey("ns", "creds"), SharedWorld(cfg, a, b, map[], {2}, 3);
            && Accepts(minted, b, PutSecret(at, 2, "more")) && Licensed(cfg, minted, b, PutSecret(at, 2, "more"))
            && Intrudes(Turn(minted, Call(b, PutSecret(at, 2, "more"), true)), a)
            && Effect(cfg, minted, b, PutSecret(at, 2, "more")) ==
                SharedWorld(cfg, a, b, map[at := Secret(Some(b), Some(2), "more", None)], {2}, 3)
  {
  }

  lemma SharedIsFair(cfg: Config, a: ObjKey, b: ObjKey)
    requires a == ObjKey("ns", "data") && b == ObjKey("ns", "more")
    requires cfg == Config("operator", ObjKey("system", "admin"), "eu01", "host", false, 0, Naming("", false))
    ensures var at := ObjKey("ns", "creds");
            var w := SharedWorld(cfg, a, b, map[at := Secret(Some(b), Some(2), "more", None)], {2}, 3);
            && Provisionable(w, a) && FairTo(cfg, w, w.cluster.crs[a]) && CanConverge(cfg, w, a)
            && Published(w, a, w.cluster.crs[a], 1) && Attributed(cfg, w, a, 1) && !KeyWorks(cfg, w, a)
  {
  }
}
