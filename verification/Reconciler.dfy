/**
 The Bucket reconciler (internal/controller/bucket_controller.go, internal/controller/clone.go).

 One object of class `BucketReconciler` runs passes over Bucket objects, one at a time. Each
 call to the provider or to Kubernetes asks `weather` what becomes of it: it may fail, with or
 without effect, and listings may lag. A process that stops is one whose remaining calls all
 fail without effect, so a pass under arbitrary weather covers a stop at any call.

 Every write goes through `Write`, whose precondition is the licence of module Protocol.
 */
module Reconciler {
  import opened Wrappers
  import opened Errors
  import opened IsolationPolicy
  import opened Resources
  import opened Protocol
  import opened Health
  import opened Frames

  /** How far a listing lags: entries it hides, and deleted entries it still shows. */
  datatype Lag = Lag(hidden: set<string>, phantom: set<string>,
      hiddenGroups: set<nat>, phantomGroups: set<nat>, phantomAdmins: set<nat>)

  datatype Outcome = Fine(lag: Lag) | Fault(error: Error, effect: bool)

  /** Calm: no failure and no lag, except that deleted groups may still be listed. */
  datatype Weather = Calm(phantoms: set<nat>) | Storm(outcomes: nat -> Outcome)

  /**
   The errors a call may meet. A 404 of the keys endpoint is always truthful, so an injected
   failure is none there.
   */
  function Outage(e: Error): Error {
    match e
    case Api(status, structured) => if status == 404 then Transport else e
    case DataPlane => e
    case Kube => e
    case _ => Transport
  }

  /** Calls about buckets and groups may be answered by a gateway's 404 page, whatever there is. */
  predicate Pageable(wr: Write) {
    wr.CreateBucket? || wr.DeleteBucket? || wr.CreateGroup? || wr.DeleteGroup?
  }

  /** The errors a write may meet besides a refusal. */
  function WriteOutage(wr: Write, e: Error): Error {
    if Pageable(wr) && e == Api(404, false) then e else Outage(e)
  }

  /** The call was answered by a gateway's 404 page. */
  predicate PageAt(weather: Weather, call: nat) {
    weather.Storm? && weather.outcomes(call).Fault? && weather.outcomes(call).error == Api(404, false)
  }

  ghost predicate Paged(weather: Weather) {
    exists call: nat :: PageAt(weather, call)
  }

  /**
   A teardown in whose course no gateway's page turns up is thorough, however far it comes: with the
   bucket its groups are gone, and the object stays until its bucket, if in view, is gone.
   */
  ghost predicate Thorough(cfg: Config, weather: Weather, w: World, w': World, k: ObjKey, seen: bool)
    requires k in w.cluster.crs
  {
    var n := EffectiveName(w.cluster.crs[k]);
    !Paged(weather) ==>
      && (n in w.cloud.buckets && n !in w'.cloud.buckets ==> Vacated(cfg, w, w', k))
      && (k !in w'.cluster.crs && InView(cfg, w, k, seen) ==> n !in w'.cloud.buckets)
  }

  function Refusal(w: World, wr: Write): Error {
    match wr
    case CreateBucket(_) => Api(409, true)
    case DeleteBucket(n) => if n in w.cloud.buckets then Api(409, true) else Api(404, true)
    case DeleteGroup(g) => if g in w.cloud.groups then Api(422, true) else Api(404, true)
    case MintKey(_) => Api(404, true)
    case DropKey(g, _) => if g in w.cloud.groups then Api(404, true) else Api(500, true)
    case PutTags(_, _) => DataPlane
    case PutPolicy(_, _) => DataPlane
    case RemoveObject(_, _) => DataPlane
    case CreateGroup(_) => Transport
    case PutSecret(_, _, _) => AlreadyOwned
    case CreateJob => Kube
    case _ => KubeNotFound
  }

  /** Failed calls have no effect. */
  ghost predicate Tidy(weather: Weather) {
    weather.Storm? ==> forall i: nat :: weather.outcomes(i).Fault? ==> !weather.outcomes(i).effect
  }

  /** Loose keys come from lost effects or failed rollbacks; where effects are not lost, from a failed rollback each. */
  ghost predicate Explained(weather: Weather, loose: set<nat>, h: seq<Turn>) {
    (weather.Calm? ==> loose == {}) && (Tidy(weather) ==> forall key :: key in loose ==> RollbackFailed(h, key))
  }

  lemma ExplainedGrows(weather: Weather, loose: set<nat>, h: seq<Turn>, h': seq<Turn>)
    requires Explained(weather, loose, h) && |h| <= |h'| && h'[..|h|] == h
    ensures Explained(weather, loose, h')
  {
    forall key | key in loose && RollbackFailed(h, key)
      ensures RollbackFailed(h', key)
    {
      var i :| 0 <= i < |h| && h[i].move.Call? && h[i].move.write.DropKey?
          && h[i].move.write.key == key && !h[i].move.took;
      assert h'[i] == h[i];
    }
  }

  /** The write neither mints a workload key nor secures a loose one. */
  predicate KeepsLoose(loose: set<nat>, w: World, wr: Write) {
    match wr
    case MintKey(g) => g in w.cloud.groups ==> w.cloud.groups[g].admin
    case PutSecret(_, key, _) => key !in loose
    case DropKey(_, key) => key !in loose
    case _ => true
  }

  /** An error that says nothing about attribution or a published credential. */
  predicate Plain(e: Error) {
    !e.CredentialDestroyed? && !e.GroupNotAttributable? && !e.BucketNotOwned?
  }

  /** How a pass ends. */
  datatype PassEnd = EndsReady | EndsFailed(error: Error) | EndsWaiting | EndsGone

  datatype Presence = Proceed(recreate: bool) | Stopped(end: PassEnd)
  datatype ProvEnd = Provided(creds: Creds) | Halted(end: PassEnd)
  datatype CloneEnd = Cloned | CloneStops(end: PassEnd)

  class BucketReconciler {
    const cfg: Config
    var world: World
    var admin: Option<AdminCreds>
    var weather: Weather
    var calls: nat
    var now: int
    var self: ObjKey
    var b: Bucket
    ghost var origin: World
    ghost var history: seq<Turn>
    ghost var answers: seq<Answer>
    ghost var loose: set<nat>
    ghost var frozen: string
    ghost var found: Status

    constructor (cfg: Config, world: World)
      requires Inv(cfg, world)
      ensures Valid() && this.cfg == cfg && this.world == world && history == [] && admin == None
    {
      this.cfg, this.world, admin := cfg, world, None;
      weather, calls, now := Calm({}), 0, 0;
      var status := Status(PhaseUnset, NoCondition, 0, "", "", None, "", None, [], CloneNone, "", None, false, false);
      self, b := ObjKey("", ""),
          Bucket(Spec("", "", false, "", false, false, [], None), status, 0, false, false, "", "");
      origin, history, answers, loose, frozen, found := world, [], [], {}, "", status;
    }

    /** The run so far is in order, the world is sound and the cached admin credential is the stored one. */
    ghost predicate Valid()
      reads this
    {
      Trace(cfg, self, Log(origin, answers, loose, frozen), history, world)
          && Inv(cfg, world) && (admin.Some? ==> AdminOf(cfg, world) == admin)
          && forall a :: a in answers ==> CameThrough(a.call)
    }

    /** The call was neither lost nor answered by anyone but the provider. */
    ghost predicate CameThrough(call: nat)
      reads this
    {
      weather.Storm? ==> weather.outcomes(call).Fine?
    }

    /** The object in memory and the stored one agree on everything the pass relies on. */
    ghost predicate InPass()
      reads this
    {
      && Valid() && self in world.cluster.crs && WellFormed(b) && HealthKept()
      && var cr := world.cluster.crs[self];
         && b.spec == cr.spec && b.generation == cr.generation
         && b.deleting == cr.deleting && b.finalizer == cr.finalizer
         && b.resolved == cr.resolved && b.rotate == cr.rotate && b.status.resolvedName == cr.status.resolvedName
         && StatusFits(cfg, world, self, b.status) && (b.status.ready == IsReady ==> cr.status.ready == IsReady)
         && (b.status.bucketMissing ==> cr.status.bucketMissing)
    }

    /** The pass has not touched the record of the Bucket's health. */
    ghost predicate HealthKept()
      reads this
    {
      b.status.degradedSince == found.degradedSince && (b.status.ready == IsReady ==> found.ready == IsReady)
      && (Coherent(found) ==> Coherent(b.status))
    }

    /** The last call of the pass was the write of the status in memory, which is the stored one if the call took. */
    ghost predicate Reported()
      reads this
    {
      && history != []
      && var t := history[|history| - 1];
         && t.move.Call? && t.move.key == self && t.move.write == PutStatus(b.status)
         && (t.move.took ==> self in world.cluster.crs && world.cluster.crs[self].status == b.status)
    }

    /** The pass failed and reported so, holding Ready at most as long as that is allowed. */
    ghost predicate Told(end: PassEnd)
      reads this
    {
      end.EndsFailed? && Reported() && Endures(cfg.grace, found, b.status, now)
    }

    /** A pass that does not come to its end: it waits for a clone, or it failed and said so. */
    ghost predicate Stops(end: PassEnd)
      reads this
    {
      (end.EndsWaiting? && Cloning()) || Told(end)
    }

    /** The clone is pending and its Job is there. */
    ghost predicate Cloning()
      reads this
    {
      self in world.cluster.crs && ClonePending(world.cluster.crs[self]) && self in world.cluster.jobs
    }

    /** The provider itself said in this pass that the bucket is gone. */
    ghost predicate Confirmed(n: string)
      reads this
    {
      exists a :: a in answers && a.name == n && a.at <= |history|
    }

    /** Why a minted key is neither published nor taken back: without lost effects, only by a failed rollback. */
    ghost predicate LooseExplained()
      reads this
    {
      Explained(weather, loose, history)
    }

    /******* Calls *******/

    method Next() returns (o: Outcome)
      modifies `calls
      ensures weather.Calm? ==> o == Fine(Lag({}, {}, {}, weather.phantoms, {}))
      ensures weather.Storm? ==> o == weather.outcomes(old(calls))
      ensures Tidy(weather) && o.Fault? ==> !o.effect
    {
      o := if weather.Calm? then Fine(Lag({}, {}, {}, weather.phantoms, {})) else weather.outcomes(calls);
      calls := calls + 1;
    }

    /** A call fits the pass so far and is licensed. */
    ghost predicate Fits(wr: Write)
      reads this
    {
      && Fitting(Log(origin, answers, loose, frozen), Turn(world, Call(self, wr, true)), |history|)
      && GroupFirst(history, Turn(world, Call(self, wr, true)), |history|)
      && (Accepts(world, self, wr) ==> Licensed(cfg, world, self, wr))
    }

    /** Removing the clone Job fits in anywhere. */
    lemma JobMayGo()
      requires self in world.cluster.crs
      ensures Fits(DeleteJob) && KeepsLoose(loose, world, DeleteJob)
    {
    }

    /** A write: accepted or refused by the other side's rules, or lost on the way there or back. */
    method Write(wr: Write) returns (e: Option<Error>)
      requires Valid() && Fits(wr) && KeepsLoose(loose, world, wr)
      modifies `world, `calls, `history
      ensures Valid()
      ensures e.None? ==> Accepts(old(world), self, wr) && world == Effect(cfg, old(world), self, wr)
      ensures world == old(world) || (Accepts(old(world), self, wr) && world == Effect(cfg, old(world), self, wr))
      ensures weather.Calm? ==> (e.None? <==> Accepts(old(world), self, wr))
      ensures weather.Calm? && e.Some? ==> e.value == Refusal(old(world), wr)
      ensures Tidy(weather) && e.Some? ==> world == old(world)
      ensures e.Some? && (StatusCode(e.value) == 404 || e.value.KubeNotFound?) ==>
                (!Accepts(old(world), self, wr) && e.value == Refusal(old(world), wr))
                || (Pageable(wr) && e.value == Api(404, false) && PageAt(weather, old(calls)))
      ensures e.Some? ==> Plain(e.value)
      ensures |history| == |old(history)| + 1 && history[..|old(history)|] == old(history)
      ensures Ended(old(world), world, history, wr)
    {
      hide Inv, Trace, Licensed, Effect, Tidy, Fitting;
      var o := Next();
      var accepted := Accepts(world, self, wr);
      e := if o.Fault? then Some(WriteOutage(wr, o.error)) else if accepted then None else Some(Refusal(world, wr));
      Arrive(wr, accepted && (o.Fine? || o.effect));
    }

    /** A write that mints a workload key, publishes it or takes it back. */
    method WriteKey(wr: Write) returns (e: Option<Error>)
      requires Valid() && Fits(wr)
      modifies `world, `calls, `history, `loose
      ensures Valid()
      ensures e.None? ==> Accepts(old(world), self, wr) && world == Effect(cfg, old(world), self, wr)
      ensures world == old(world) || (Accepts(old(world), self, wr) && world == Effect(cfg, old(world), self, wr))
      ensures weather.Calm? ==> (e.None? <==> Accepts(old(world), self, wr))
      ensures |history| == |old(history)| + 1 && history[..|old(history)|] == old(history)
      ensures Ended(old(world), world, history, wr)
      ensures Tidy(weather) && e.Some? ==> !history[|history| - 1].move.took
      ensures e.None? ==> history[|history| - 1].move.took
      ensures loose == LooseAfter(old(loose), history[|history| - 1])
    {
      hide Inv, Trace, Licensed, Effect, Tidy, Fitting, LooseAfter;
      var o := Next();
      var accepted := Accepts(world, self, wr);
      e := if o.Fault? then Some(WriteOutage(wr, o.error)) else if accepted then None else Some(Refusal(world, wr));
      ArriveKey(wr, accepted && (o.Fine? || o.effect));
    }

    /** The last call of the pass was wr, and it took exactly if it changed the world as it should. */
    ghost predicate Ended(w: World, w': World, h: seq<Turn>, wr: Write)
      reads this
    {
      && h != []
      && var t := h[|h| - 1];
         && t.world == w && t.move.Call? && t.move.key == self && t.move.write == wr
         && (t.move.took ==> Accepts(w, self, wr) && w' == Effect(cfg, w, self, wr)) && (!t.move.took ==> w' == w)
    }

    /** The call is over: it took effect or it did not. */
    method Arrive(wr: Write, took: bool)
      requires Valid() && Fits(wr) && (took ==> Accepts(world, self, wr)) && KeepsLoose(loose, world, wr)
      modifies `world, `history
      ensures Valid()
      ensures history == old(history) + [Turn(old(world), Call(self, wr, took))]
      ensures took ==> Accepts(old(world), self, wr) && world == Effect(cfg, old(world), self, wr)
      ensures !took ==> world == old(world)
    {
      hide Inv, Trace, Licensed;
      ghost var turn := Turn(world, Call(self, wr, took));
      CallKeeps(cfg, self, Log(origin, answers, loose, frozen), history, turn);
      assert LooseAfter(loose, turn) == loose;
      if took {
        world := Effect(cfg, world, self, wr);
      }
      history := history + [turn];
    }

    method ArriveKey(wr: Write, took: bool)
      requires Valid() && Fits(wr) && (took ==> Accepts(world, self, wr))
      modifies `world, `history, `loose
      ensures Valid()
      ensures history == old(history) + [Turn(old(world), Call(self, wr, took))]
      ensures took ==> Accepts(old(world), self, wr) && world == Effect(cfg, old(world), self, wr)
      ensures !took ==> world == old(world)
      ensures loose == LooseAfter(old(loose), history[|history| - 1])
    {
      hide Inv, Trace, Licensed, LooseAfter;
      ghost var turn := Turn(world, Call(self, wr, took));
      CallKeeps(cfg, self, Log(origin, answers, loose, frozen), history, turn);
      if took {
        world := Effect(cfg, world, self, wr);
      }
      history, loose := history + [turn], LooseAfter(loose, turn);
    }

    method Read() returns (e: Option<Error>)
      modifies `calls
      ensures weather.Calm? ==> e.None?
      ensures weather.Storm? ==> (e.None? <==> weather.outcomes(old(calls)).Fine?)
      ensures e.Some? ==> StatusCode(e.value) != 404 && !e.value.KubeNotFound? && e.value == Outage(e.value)
    {
      var o := Next();
      e := if o.Fault? then Some(Outage(o.error)) else None;
    }

    /**
     The per-bucket control-plane read. A structured 404 is the provider's own answer to this very
     call, which came through; a gateway's 404 page is not.
     */
    method GetBucket(n: string) returns (e: Option<Error>)
      modifies `calls
      ensures e.Some? && StructuredNotFound(e.value) ==> CameThrough(old(calls))
      ensures e.None? ==> n in world.cloud.buckets
      ensures e.Some? && StructuredNotFound(e.value) ==> n !in world.cloud.buckets
      ensures weather.Calm? ==> (e.None? <==> n in world.cloud.buckets)
      ensures weather.Calm? && e.Some? ==> StructuredNotFound(e.value)
      ensures e.Some? ==> e.value.Api? || e.value == Outage(e.value)
    {
      var o := Next();
      if o.Fault? {
        var gateway := o.error.Api? && o.error.status == 404 && !o.error.structured;
        return Some(if gateway then o.error else Outage(o.error));
      }
      return if n in world.cloud.buckets then None else Some(Api(404, true));
    }

    /** BucketExists: only the provider's own 404 counts as no; everything else is a failure to reach it. */
    method BucketExists(n: string) returns (r: Result<bool, Error>)
      requires Valid()
      modifies `calls, `answers
      ensures Valid()
      ensures r.Ok? ==> (r.value <==> n in world.cloud.buckets)
      ensures r.Err? ==> !StructuredNotFound(r.error) && r.error != BucketMissing
      ensures r == Ok(false) ==> Confirmed(n)
      ensures r != Ok(false) ==> answers == old(answers)
      ensures weather.Calm? ==> r.Ok?
    {
      hide Inv, Trace, Tidy;
      ghost var call := calls;
      var e := GetBucket(n);
      if e.Some? {
        if StructuredNotFound(e.value) {
          ghost var answer := Answer(n, e.value, |history|, call);
          AnswerKeeps(cfg, self, Log(origin, answers, loose, frozen), history, world, answer);
          answers := answers + [answer];
          assert answer in answers;
          return Ok(false);
        }
        return Err(e.value);
      }
      return Ok(true);
    }

    /** HasBucket: a project listing, which may lag. */
    method HasBucket(n: string) returns (r: Result<bool, Error>)
      modifies `calls
      ensures weather.Calm? ==> r == Ok(n in world.cloud.buckets)
      ensures r.Err? ==> r.error == Outage(r.error)
    {
      var o := Next();
      if o.Fault? {
        return Err(Outage(o.error));
      }
      return Ok((n in world.cloud.buckets && n !in o.lag.hidden) || n in o.lag.phantom);
    }

    /** newS3Admin needs the bucket's endpoint, so it asks for the bucket. */
    method NewS3Admin(n: string) returns (e: Option<Error>)
      modifies `calls
      ensures e.None? ==> n in world.cloud.buckets
      ensures weather.Calm? ==> (e.None? <==> n in world.cloud.buckets)
      ensures e.Some? ==> e.value.Api? || e.value == Outage(e.value)
    {
      e := GetBucket(n);
    }

    /** The key ids of a group; a 404 says the group is gone. */
    method ListKeys(g: nat) returns (r: Result<set<nat>, Error>)
      modifies `calls
      ensures r.Ok? ==> g in world.cloud.groups && r.value == world.cloud.groups[g].keys
      ensures r.Err? && StatusCode(r.error) == 404 ==> g !in world.cloud.groups
      ensures weather.Calm? ==> (r.Ok? <==> g in world.cloud.groups) && (r.Err? ==> StatusCode(r.error) == 404)
      ensures r.Err? ==> r.error == Api(404, true) || r.error == Outage(r.error)
    {
      var e := Read();
      if e.Some? {
        return Err(e.value);
      }
      return if g in world.cloud.groups then Ok(world.cloud.groups[g].keys) else Err(Api(404, true));
    }

    method GroupExists(g: nat) returns (r: Result<bool, Error>)
      modifies `calls
      ensures r.Ok? ==> (r.value <==> g in world.cloud.groups)
      ensures weather.Calm? ==> r.Ok?
      ensures r.Err? ==> r.error == Outage(r.error)
    {
      var keys := ListKeys(g);
      if keys.Err? {
        if StatusCode(keys.error) == 404 {
          return Ok(false);
        }
        return Err(keys.error);
      }
      return Ok(true);
    }

    /** One listing of the project's groups, by id: it may lag, but shows only ids that were once issued. */
    method ListGroups() returns (r: Result<set<nat>, Error>)
      modifies `calls
      ensures r.Ok? ==> forall g :: g in r.value ==> g in world.cloud.groups || g < world.cloud.nextGroup
      ensures weather.Calm? ==>
                r.Ok? && (forall g :: g in world.cloud.groups ==> g in r.value)
                && (weather.phantoms == {} ==> forall g :: g in r.value ==> g in world.cloud.groups)
      ensures r.Err? ==> r.error == Outage(r.error)
    {
      var o := Next();
      if o.Fault? {
        return Err(Outage(o.error));
      }
      return Ok((world.cloud.groups.Keys - o.lag.hiddenGroups) + set g | g in o.lag.phantomGroups
          && g < world.cloud.nextGroup);
    }

    /** DeleteAllAccessKeys: list, then delete one by one; a missing group or key is already drained. */
    method DeleteAllKeys(g: nat) returns (e: Option<Error>)
      requires Valid() && self in world.cluster.crs && loose == {}
      requires g in world.cloud.groups ==> world.cloud.groups[g].admin || Attributed(cfg, world, self, g)
      modifies `world, `calls, `history
      ensures Valid() && OnlyDrops(old(world), world, g)
      ensures e.None? ==> g in world.cloud.groups ==> world.cloud.groups[g].keys == {}
      ensures weather.Calm? ==> e.None?
      ensures e.Some? ==> Plain(e.value)
      ensures Tidy(weather) && e.Some? ==> world == old(world)
      ensures g in world.cloud.groups ==> world.cloud.groups[g].keys == {} || world == old(world)
      ensures old(g in world.cloud.groups && world.cloud.groups[g].keys == {}) ==>
                world == old(world) && history == old(history)
    {
      hide Inv, Trace, Tidy;
      if g in world.cloud.groups {
        KeysAreFew(cfg, world, g);
      }
      var listed := ListKeys(g);
      if listed.Err? {
        if StatusCode(listed.error) == 404 {
          return None;
        }
        return Some(listed.error);
      }
      var todo := listed.value;
      while todo != {}
        invariant Valid() && OnlyDrops(old(world), world, g) && g in world.cloud.groups
        invariant todo <= old(world.cloud.groups[g].keys)
        invariant world.cloud.groups[g].keys <= todo
        invariant weather.Calm? ==> world.cloud.groups[g].keys == todo
        invariant |todo| <= 1 && (todo != {} ==> world == old(world))
        invariant todo == {} && old(world.cloud.groups[g].keys) == {} ==> world == old(world) && history == old(history)
        decreases |todo|
      {
        var key :| key in todo;
        OneKey(todo, key);
        var failed := DropListed(g, key);
        if failed.Some? {
          return failed;
        }
        todo := todo - {key};
      }
      return None;
    }

    /** One key of a listing; a key that is gone already is no error. */
    method DropListed(g: nat, key: nat) returns (e: Option<Error>)
      requires Valid() && self in world.cluster.crs && loose == {} && g in world.cloud.groups
      requires world.cloud.groups[g].admin || Attributed(cfg, world, self, g)
      modifies `world, `calls, `history
      ensures Valid() && OnlyDrops(old(world), world, g) && g in world.cloud.groups
      ensures world == old(world) || world.cloud.groups[g].keys == old(world.cloud.groups[g].keys) - {key}
      ensures e.None? ==> key !in world.cloud.groups[g].keys
      ensures weather.Calm? ==> e.None? && world.cloud.groups[g].keys == old(world.cloud.groups[g].keys) - {key}
      ensures e.Some? ==> Plain(e.value)
      ensures Tidy(weather) && e.Some? ==> world == old(world)
    {
      hide Inv, Trace, Tidy;
      e := Write(DropKey(g, key));
      if e.Some? && StatusCode(e.value) == 404 {
        return None;
      }
    }

    /******* Admin credential *******/

    method FindAdminGroup() returns (r: Result<Option<nat>, Error>)
      modifies `calls
      ensures r.Ok? && r.value.Some? ==> r.value.value in world.cloud.groups ==> world.cloud.groups[r.value.value].admin
      ensures weather.Calm? ==> r.Ok? && (r.value.Some? ==> r.value.value in world.cloud.groups)
      ensures r.Err? ==> !r.error.CredentialDestroyed?
    {
      var o := Next();
      if o.Fault? {
        return Err(Outage(o.error));
      }
      var found := (set g | g in world.cloud.groups && world.cloud.groups[g].admin && g !in o.lag.hiddenGroups)
                   + (set g | g in o.lag.phantomAdmins && g !in world.cloud.groups);
      if found == {} {
        return Ok(None);
      }
      var g :| g in found;
      return Ok(Some(g));
    }

    /** ensureAdmin: the cached credential, the stored one, or a bootstrap that clears before it mints. */
    method EnsureAdmin() returns (r: Result<AdminCreds, Error>)
      requires Valid() && self in world.cluster.crs && loose == {}
      modifies `world, `calls, `history, `admin
      ensures Valid() && OnlyAdmin(cfg, old(world), world)
      ensures r.Ok? ==> admin == Some(r.value)
      ensures old(AdminOf(cfg, world)).Some? ==> world == old(world) && history == old(history)
      ensures weather.Calm? && cfg.adminSecret.ns != "" ==> r.Ok?
      ensures cfg.adminSecret.ns == "" && old(admin).None? ==> r.Err?
      ensures r.Err? ==> !r.error.CredentialDestroyed?
    {
      if admin.Some? {
        return Ok(admin.value);
      }
      if cfg.adminSecret.ns == "" {
        return Err(SpecFault);
      }
      var e := Read();
      if e.Some? {
        return Err(e.value);
      }
      if AdminOf(cfg, world).Some? {
        admin := AdminOf(cfg, world);
        return Ok(admin.value);
      }
      r := BootstrapAdmin();
    }

    /** EnsureCredentialsGroup for the admin's display name: find, else create. */
    method EnsureAdminGroup() returns (r: Result<nat, Error>)
      requires Valid() && self in world.cluster.crs
      modifies `world, `calls, `history
      ensures Valid() && OnlyAdmin(cfg, old(world), world) && world.cluster == old(world.cluster)
      ensures r.Ok? && r.value in world.cloud.groups ==> world.cloud.groups[r.value].admin
      ensures weather.Calm? ==> r.Ok? && r.value in world.cloud.groups
      ensures r.Err? ==> !r.error.CredentialDestroyed?
    {
      hide Inv, Trace, Tidy;
      NextGroupIsNew(cfg, world);
      var found :- FindAdminGroup();
      if found.Some? {
        return Ok(found.value);
      }
      var gid := world.cloud.nextGroup;
      var failed := Write(CreateGroup(true));
      if failed.Some? {
        return Err(failed.value);
      }
      return Ok(gid);
    }

    method BootstrapAdmin() returns (r: Result<AdminCreds, Error>)
      requires Valid() && self in world.cluster.crs && loose == {} && AdminOf(cfg, world).None?
      modifies `world, `calls, `history, `admin
      ensures Valid() && OnlyAdmin(cfg, old(world), world)
      ensures r.Ok? ==> admin == Some(r.value)
      ensures weather.Calm? ==> r.Ok?
      ensures r.Err? ==> !r.error.CredentialDestroyed?
    {
      hide Inv, Trace, Tidy, OnlyAdmin, Licensed, Accepts, Effect;
      ghost var u := world;
      var gid :- EnsureAdminGroup();
      ghost var v := world;
      var key := MintAdminKey(gid);
      OnlyAdminComposes(cfg, u, v, world);
      if key.Err? {
        return Err(key.error);
      }
      ghost var w := world;
      r := PersistAdmin(AdminCreds(key.value, UrnOf(gid), gid));
      OnlyAdminComposes(cfg, u, w, world);
    }

    /** Clear the admin group, then mint: no key outlives a bootstrap that lost its secret. */
    method MintAdminKey(gid: nat) returns (r: Result<nat, Error>)
      requires Valid() && self in world.cluster.crs && loose == {} && AdminOf(cfg, world).None?
      requires gid in world.cloud.groups ==> world.cloud.groups[gid].admin
      modifies `world, `calls, `history
      ensures Valid() && OnlyAdmin(cfg, old(world), world) && world.cluster == old(world.cluster)
      ensures r.Ok? ==> gid in world.cloud.groups && world.cloud.groups[gid].admin
      ensures weather.Calm? && old(gid in world.cloud.groups) ==> r.Ok?
      ensures r.Err? ==> !r.error.CredentialDestroyed?
    {
      hide Inv, Trace, Tidy, OnlyDrops, OnlyAdmin;
      ghost var w := world;
      var cleared := DeleteAllKeys(gid);
      DropsAreAdmin(cfg, w, world, gid);
      if cleared.Some? {
        return Err(cleared.value);
      }
      ghost var v := world;
      var key := world.cloud.nextKey;
      var minted := MintInto(gid);
      OnlyAdminComposes(cfg, w, v, world);
      if minted.Some? {
        return Err(minted.value);
      }
      return Ok(key);
    }

    method MintInto(gid: nat) returns (e: Option<Error>)
      requires Valid() && self in world.cluster.crs && AdminOf(cfg, world).None?
      requires gid in world.cloud.groups ==> world.cloud.groups[gid].admin && world.cloud.groups[gid].keys == {}
      modifies `world, `calls, `history
      ensures Valid() && OnlyAdmin(cfg, old(world), world) && world.cluster == old(world.cluster)
      ensures e.None? ==> gid in world.cloud.groups && world.cloud.groups[gid].admin
      ensures weather.Calm? && old(gid in world.cloud.groups) ==> e.None?
      ensures e.Some? ==> !e.value.CredentialDestroyed?
    {
      hide Inv, Trace, Tidy;
      e := Write(MintKey(gid));
    }

    method PersistAdmin(creds: AdminCreds) returns (r: Result<AdminCreds, Error>)
      requires Valid() && self in world.cluster.crs && loose == {} && AdminOf(cfg, world).None?
      requires creds.urn == UrnOf(creds.groupId) && creds.groupId in world.cloud.groups
      requires world.cloud.groups[creds.groupId].admin
      modifies `world, `calls, `history, `admin
      ensures Valid() && OnlyAdmin(cfg, old(world), world)
      ensures r.Ok? ==> admin == Some(r.value)
      ensures weather.Calm? ==> r.Ok?
      ensures r.Err? ==> !r.error.CredentialDestroyed?
    {
      hide Inv, Trace, Tidy, OnlyAdmin;
      ghost var w := world;
      var failed := PutAdmin(creds);
      if failed.Some? {
        ghost var v := world;
        DropAdminKey(creds);
        OnlyAdminComposes(cfg, w, v, world);
        return Err(failed.value);
      }
      admin := Some(creds);
      return Ok(creds);
    }

    method PutAdmin(creds: AdminCreds) returns (e: Option<Error>)
      requires Valid() && self in world.cluster.crs && AdminOf(cfg, world).None?
      requires creds.urn == UrnOf(creds.groupId) && creds.groupId in world.cloud.groups
      requires world.cloud.groups[creds.groupId].admin
      modifies `world, `calls, `history
      ensures Valid() && OnlyAdmin(cfg, old(world), world) && world.cloud == old(world.cloud)
      ensures world.cluster.crs == old(world.cluster.crs)
      ensures e.None? ==> AdminOf(cfg, world) == Some(creds)
      ensures weather.Calm? ==> e.None?
      ensures e.Some? ==> !e.value.CredentialDestroyed?
    {
      hide Inv, Trace, Tidy;
      e := Write(PutAdminSecret(creds));
    }

    method DropAdminKey(creds: AdminCreds)
      requires Valid() && loose == {} && self in world.cluster.crs && creds.groupId in world.cloud.groups
      requires world.cloud.groups[creds.groupId].admin
      modifies `world, `calls, `history
      ensures Valid() && OnlyAdmin(cfg, old(world), world)
    {
      hide Inv, Trace, Tidy;
      var _ := Write(DropKey(creds.groupId, creds.accessKey));
    }

    /******* Group attribution *******/

    /** Record a group on a bucket, keeping every other tag. */
    method Stamp(n: string, g: nat) returns (e: Option<Error>)
      requires Valid() && self in world.cluster.crs && n in world.cloud.buckets
      requires MayTag(cfg, world, self, n) && MayRecord(world, world.cloud.buckets[n], g)
      requires world.cloud.buckets[n].tags.managedBy == cfg.ownership
      modifies `world, `calls, `history
      ensures Valid() && OnlyTags(old(world), world, n) && world.cloud.groups == old(world.cloud.groups)
      ensures world.cloud.nextGroup == old(world.cloud.nextGroup)
      ensures e.None? ==>
                world.cloud.buckets[n].tags.groupId == Some(g) && world.cloud.buckets[n].tags.groupUrn == UrnOf(g)
      ensures world.cloud.buckets[n].tags == old(world.cloud.buckets[n].tags)
              || world.cloud.buckets[n].tags.groupId == Some(g)
      ensures weather.Calm? ==> e.None?
      ensures e.Some? ==> Plain(e.value)
    {
      hide Inv, Trace, Tidy;
      var tags := world.cloud.buckets[n].tags.(groupId := Some(g), groupUrn := UrnOf(g));
      RecordedIsUnkeyed(cfg, world, n, g);
      e := Write(PutTags(n, tags));
    }

    /**
     resolveWorkloadGroup for the bucket n of Bucket k: the tagged group while it exists, else the
     group the bucket's own policy names, else (for the Bucket under reconciliation) a new group.
     */
    method ResolveWorkloadGroup(k: ObjKey, n: string, listed: set<nat>, create: bool, isNew: bool)
      returns (r: Result<GroupRef, Error>)
      requires Valid() && self in world.cluster.crs && k in world.cluster.crs
      requires n == EffectiveName(world.cluster.crs[k])
      requires k == self || (Owns(cfg, world, self) && k.ns == self.ns && k.name in world.cluster.crs[self].spec.grants)
      requires create ==> k == self && !world.cluster.crs[self].deleting
      modifies `world, `calls, `history
      ensures Valid() && OnlyTags(old(world), world, n)
      ensures !create ==> world.cloud.groups == old(world.cloud.groups)
      ensures old(n in world.cloud.buckets ==> !OwnedBy(cfg, world.cloud.buckets[n].tags, k)) ==> world == old(world)
      ensures r.Ok? ==>
                && n in world.cloud.buckets && OwnedBy(cfg, world.cloud.buckets[n].tags, k)
                && world.cloud.buckets[n].tags.groupId == Some(r.value.id) && r.value.urn == UrnOf(r.value.id)
      ensures r.Err? ==> !r.error.CredentialDestroyed?
      // the two answers teardown acts on are truthful
      ensures r.Err? && r.error.GroupNotAttributable? ==>
                n in world.cloud.buckets && TagVacant(world, world.cloud.buckets[n]) && world == old(world)
      ensures r.Err? && r.error.BucketNotOwned? ==>
                n in world.cloud.buckets && !OwnedBy(cfg, world.cloud.buckets[n].tags, k) && world == old(world)
      ensures weather.Calm? && !create && old(n in world.cloud.buckets
              && OwnedBy(cfg, world.cloud.buckets[n].tags, k) && world.cloud.groups.Keys <= listed) ==>
                r.Ok? || r.error.GroupNotAttributable?
      // calm weather: exactly when, and without a write when the tag is good
      ensures weather.Calm?
              && old(n in world.cloud.buckets && OwnedBy(cfg, world.cloud.buckets[n].tags, k) && LiveTag(world, n)
                                   && (world.cloud.groups.Keys <= listed
                                       || world.cloud.buckets[n].tags.groupUrn != "")) ==>
                && r.Ok? && LiveTag(world, n) && world.cloud.groups == old(world.cloud.groups)
                && (old(world.cloud.buckets[n].tags.groupUrn) != "" ==> world == old(world) && history == old(history))
      ensures weather.Calm? && old(n in world.cloud.buckets && !OwnedBy(cfg, world.cloud.buckets[n].tags, k)) ==>
                r == Err(BucketNotOwned) && world == old(world) && history == old(history)
      ensures weather.Calm? && weather.phantoms == {} && listed <= old(world.cloud.groups.Keys) && !create &&
              old(n in world.cloud.buckets && OwnedBy(cfg, world.cloud.buckets[n].tags, k) && !LiveTag(world, n)) ==>
                r == Err(GroupNotAttributable) && world == old(world) && history == old(history)
      ensures weather.Calm? && weather.phantoms == {} && listed <= old(world.cloud.groups.Keys) && create &&
              old(n in world.cloud.buckets && OwnedBy(cfg, world.cloud.buckets[n].tags, k) && !LiveTag(world, n)) ==>
                (r.Ok? <==> isNew || !old(b.status.groupId.Some? && b.status.groupId.value in world.cloud.groups))
                && (r.Ok? ==> LiveTag(world, n))
    {
      hide Inv, Trace, Tidy, MayRecord, Licensed, Accepts, Effect, OnlyTags;
      ghost var w := world;
      OnlyTagsItself(w, n);
      var e := NewS3Admin(n);
      if e.Some? {
        return Err(e.value);
      }
      e := Read();
      if e.Some? {
        return Err(e.value);
      }
      var tags := world.cloud.buckets[n].tags;
      if !OwnedBy(cfg, tags, k) {
        return Err(BucketNotOwned);
      }
      var known := FindGroup(n, listed);
      TagsKeepOwner(cfg, w, world, n, k);
      if known.Err? {
        return Err(known.error);
      }
      if known.value.Some? {
        return Ok(known.value.value);
      }
      if !create {
        return Err(GroupNotAttributable);
      }
      var _ :- GuardGroupCreate(isNew);
      r := CreateWorkloadGroup(n);
      TagsKeepOwner(cfg, w, world, n, k);
    }

    /** What the bucket itself says: its tag, else its policy. */
    method FindGroup(n: string, listed: set<nat>) returns (r: Result<Option<GroupRef>, Error>)
      requires Valid() && self in world.cluster.crs && n in world.cloud.buckets && MayTag(cfg, world, self, n)
      requires world.cloud.buckets[n].tags.managedBy == cfg.ownership
      modifies `world, `calls, `history
      ensures Valid() && OnlyTags(old(world), world, n) && world.cloud.groups == old(world.cloud.groups)
      ensures r.Ok? && r.value.Some? ==>
                world.cloud.buckets[n].tags.groupId == Some(r.value.value.id)
                    && r.value.value.urn == UrnOf(r.value.value.id)
      ensures r.Ok? && r.value.None? ==>
                TagVacant(world, world.cloud.buckets[n]) && world == old(world) && history == old(history)
      ensures r.Err? ==> Plain(r.error)
      ensures weather.Calm? && !old(LiveTag(world, n)) ==>
                r.Ok? && (listed <= old(world.cloud.groups.Keys) ==> r.value.None?)
      ensures weather.Calm? && old(LiveTag(world, n)
              && (world.cloud.groups.Keys <= listed || world.cloud.buckets[n].tags.groupUrn != "")) ==>
                && r.Ok? && r.value.Some? && LiveTag(world, n)
                && (old(world.cloud.buckets[n].tags.groupUrn) != "" ==> world == old(world) && history == old(history))
    {
      hide Inv, Trace, Tidy, MayRecord, Licensed, Accepts, Effect, MayTag;
      var byTag :- GroupFromTags(n, listed);
      if byTag.Some? {
        return Ok(byTag);
      }
      r := GroupFromPolicy(n, listed);
    }

    method GroupFromTags(n: string, listed: set<nat>) returns (r: Result<Option<GroupRef>, Error>)
      requires Valid() && self in world.cluster.crs && n in world.cloud.buckets && MayTag(cfg, world, self, n)
      requires world.cloud.buckets[n].tags.managedBy == cfg.ownership
      modifies `world, `calls, `history
      ensures Valid() && OnlyTags(old(world), world, n) && world.cloud.groups == old(world.cloud.groups)
      ensures world.cloud.buckets[n].tags.groupId == old(world.cloud.buckets[n].tags.groupId)
      ensures r.Ok? && r.value.Some? ==>
                world.cloud.buckets[n].tags.groupId == Some(r.value.value.id)
                    && r.value.value.urn == UrnOf(r.value.value.id) && LiveTag(world, n)
      ensures r.Ok? && r.value.None? ==>
                TagVacant(world, world.cloud.buckets[n]) && world == old(world) && history == old(history)
      ensures weather.Calm? && old(!LiveTag(world, n) || world.cloud.buckets[n].tags.groupUrn != "") ==> r.Ok?
      ensures weather.Calm? && old(world.cloud.groups.Keys) <= listed ==> r.Ok?
      ensures old(world.cloud.buckets[n].tags.groupUrn != "") || !old(LiveTag(world, n)) ==>
                world == old(world) && history == old(history)
      ensures r.Err? ==> Plain(r.error)
    {
      hide Inv, Trace, Tidy, MayTag;
      TagNamesUrn(cfg, world, n);
      var tags := world.cloud.buckets[n].tags;
      if tags.groupId.None? {
        return Ok(None);
      }
      var id := tags.groupId.value;
      var present :- GroupExists(id);
      if !present {
        return Ok(None);
      }
      if tags.groupUrn != "" {
        return Ok(Some(GroupRef(id, tags.groupUrn)));
      }
      if id !in listed {
        return Err(AttributionLagging);
      }
      var failed := Stamp(n, id);
      if failed.Some? {
        return Err(failed.value);
      }
      return Ok(Some(GroupRef(id, UrnOf(id))));
    }

    /** The workload principal of a stored policy, read back from the document. */
    method ReadPrincipal(p: Isolation) returns (urn: Option<string>)
      requires Trimmed(p.workload) && p.workload != ""
      ensures urn == Some(p.workload)
    {
      WorkloadReadsBack(p.bucket, p.admin, p.workload, p.readers, p.workload, JString(p.workload));
      urn := WorkloadPrincipal(Document(p));
    }

    method GroupFromPolicy(n: string, listed: set<nat>) returns (r: Result<Option<GroupRef>, Error>)
      requires Valid() && self in world.cluster.crs && n in world.cloud.buckets && MayTag(cfg, world, self, n)
      requires world.cloud.buckets[n].tags.managedBy == cfg.ownership && TagVacant(world, world.cloud.buckets[n])
      modifies `world, `calls, `history
      ensures Valid() && OnlyTags(old(world), world, n) && world.cloud.groups == old(world.cloud.groups)
      ensures r.Ok? && r.value.Some? ==> r.value.value.id in listed
      ensures r.Ok? && r.value.Some? ==>
                world.cloud.buckets[n].tags.groupId == Some(r.value.value.id)
                    && r.value.value.urn == UrnOf(r.value.value.id)
      ensures r.Ok? && r.value.None? ==> world == old(world) && history == old(history)
      ensures weather.Calm? ==> r.Ok?
      ensures weather.Calm? && listed <= old(world.cloud.groups.Keys) ==> r.value.None?
      ensures r.Err? ==> Plain(r.error)
    {
      hide Inv, Trace, Tidy, MayTag;
      if world.cloud.buckets[n].policy.Some? {
        PolicyNamesGroup(cfg, world, n);
      }
      var e := Read();
      if e.Some? {
        return Err(e.value);
      }
      var policy := world.cloud.buckets[n].policy;
      if policy.None? {
        return Ok(None);
      }
      var urn := ReadPrincipal(policy.value);
      if urn.None? || !IsUrn(urn.value) || |urn.value| - 4 !in listed {
        return Ok(None);
      }
      var id := |urn.value| - 4;
      var failed := Stamp(n, id);
      if failed.Some? {
        return Err(failed.value);
      }
      return Ok(Some(GroupRef(id, urn.value)));
    }

    /** guardGroupCreate: a recorded group that still exists means a stale read, so nothing is created. */
    method GuardGroupCreate(isNew: bool) returns (r: Result<(), Error>)
      modifies `calls
      ensures r.Ok? ==> isNew || b.status.groupId.None? || b.status.groupId.value !in world.cloud.groups
      ensures weather.Calm? ==>
                (r.Ok? <==> isNew || b.status.groupId.None? || b.status.groupId.value !in world.cloud.groups)
      ensures r.Err? ==> Plain(r.error)
    {
      if b.status.groupId.None? || isNew {
        return Ok(());
      }
      var present :- GroupExists(b.status.groupId.value);
      if present {
        return Err(AttributionLagging);
      }
      return Ok(());
    }

    /** createWorkloadGroup: create, record on the bucket, and take the group back when recording fails. */
    method CreateWorkloadGroup(n: string) returns (r: Result<GroupRef, Error>)
      requires Valid() && Owns(cfg, world, self) && !world.cluster.crs[self].deleting
      requires n == EffectiveName(world.cluster.crs[self])
      requires TagVacant(world, world.cloud.buckets[n])
      modifies `world, `calls, `history
      ensures Valid() && OnlyTags(old(world), world, n)
      ensures r.Ok? ==>
                && world.cloud.buckets[n].tags.groupId == Some(r.value.id)
                && r.value.urn == UrnOf(r.value.id) && LiveTag(world, n)
      // a group that could not be recorded is taken back, unless that call failed too
      ensures Tidy(weather) && r.Err? && old(world.cloud.nextGroup) in world.cloud.groups ==>
                history != []
                    && history[|history| - 1].move == Call(self, DeleteGroup(old(world.cloud.nextGroup)), false)
      ensures weather.Calm? ==> r.Ok?
      ensures r.Err? ==> Plain(r.error)
    {
      hide Inv, Trace, Tidy, Licensed, Accepts, Effect, Names, StatusFits, CameThrough;
      var id :- NewGroup(n);
      ghost var w := world;
      var failed := Stamp(n, id);
      if failed.Some? {
        DropNewGroup(w, n, id);
        return Err(failed.value);
      }
      return Ok(GroupRef(id, UrnOf(id)));
    }

    method NewGroup(n: string) returns (r: Result<nat, Error>)
      requires Valid() && Owns(cfg, world, self) && !world.cluster.crs[self].deleting
      requires n == EffectiveName(world.cluster.crs[self])
      modifies `world, `calls, `history
      ensures Valid() && OnlyTags(old(world), world, n) && world.cloud.buckets == old(world.cloud.buckets)
      ensures r.Ok? ==>
                && Unclaimed(world, r.value) && r.value >= origin.cloud.nextGroup
                && r.value == old(world.cloud.nextGroup)
                && (TagVacant(old(world), world.cloud.buckets[n]) ==> TagVacant(world, world.cloud.buckets[n]))
      ensures old(world.cloud.nextGroup !in world.cloud.groups) && (Tidy(weather) && r.Err? ==> world == old(world))
      ensures weather.Calm? ==> r.Ok?
      ensures r.Err? ==> Plain(r.error)
    {
      hide Inv, Trace, Tidy;
      var id := world.cloud.nextGroup;
      NextGroupIsNew(cfg, world);
      OriginIsOlder(cfg, self, Log(origin, answers, loose, frozen), history, world);
      var failed := Write(CreateGroup(false));
      if failed.Some? {
        return Err(failed.value);
      }
      return Ok(id);
    }

    /** Best-effort rollback of a group that could not be recorded. */
    method DropNewGroup(ghost w: World, n: string, id: nat)
      requires Valid() && self in world.cluster.crs && !world.cluster.crs[self].deleting
      requires n == EffectiveName(world.cluster.crs[self])
      requires Unclaimed(w, id) && OnlyTags(w, world, n) && world.cloud.groups == w.cloud.groups
      requires id >= origin.cloud.nextGroup
      modifies `world, `calls, `history
      ensures Valid() && (world == old(world)
              || world == old(world).(cloud := old(world.cloud).(groups := old(world.cloud.groups) - {id})))
      ensures id in world.cloud.groups ==>
                history != [] && history[|history| - 1].move == Call(self, DeleteGroup(id), false)
    {
      hide Inv, Trace, Tidy;
      var _ := Write(DeleteGroup(id));
    }

    /******* Status *******/

    /** Status().Update. */
    method SaveStatus() returns (e: Option<Error>)
      requires Valid() && StatusFits(cfg, world, self, b.status)
      modifies `world, `calls, `history
      ensures Valid() && StatusFits(cfg, world, self, b.status)
      ensures self in old(world.cluster.crs)
      ensures world == old(world) || world == WithStatus(old(world), self, b.status)
      ensures e.None? ==> world == WithStatus(old(world), self, b.status)
      ensures weather.Calm? ==> e.None?
      ensures Tidy(weather) && e.Some? ==> world == old(world)
      ensures e.Some? ==> !e.value.CredentialDestroyed?
      ensures old(b.status.resolvedName == world.cluster.crs[self].status.resolvedName) ==>
                KeepsKeys(old(world), world, self)
      ensures |history| == |old(history)| + 1 && history[..|old(history)|] == old(history) && Reported()
      ensures history[|history| - 1].move.took ==> world == WithStatus(old(world), self, b.status)
    {
      hide Inv, Trace, Tidy;
      e := Write(PutStatus(b.status));
      assert world == old(world) || world == WithStatus(old(world), self, b.status);
      SavedStatusFits(cfg, old(world), self, b.status);
    }

    /** fail: record the failure, holding Ready through it while that is allowed. */
    method Fail(e: Error) returns (end: PassEnd)
      requires Valid() && StatusFits(cfg, world, self, b.status) && HealthKept()
      modifies `world, `calls, `history, `b
      ensures Valid() && end == EndsFailed(e) && Told(end) && |history| == |old(history)| + 1
      ensures history[..|old(history)|] == old(history)
      ensures b == old(b).(status := AfterFailure(cfg.grace, old(b), e, now))
      ensures old(b.status.resolvedName == world.cluster.crs[self].status.resolvedName) ==>
                KeepsKeys(old(world), world, self)
      ensures world == old(world) || world == WithStatus(old(world), self, b.status)
      ensures weather.Calm? ==> world == WithStatus(old(world), self, b.status)
    {
      hide Inv, Trace, Tidy, StatusFits, AfterFailure, KeepsKeys;
      FailureFits(cfg, world, self, b, e, now);
      FailureEndures(cfg.grace, b, e, now);
      b := b.(status := AfterFailure(cfg.grace, b, e, now));
      var _ := SaveStatus();
      end := EndsFailed(e);
    }

    /** failNoRequeue: a definitive fault always drops Ready. */
    method FailNoRequeue(e: Error) returns (end: PassEnd)
      requires Valid() && StatusFits(cfg, world, self, b.status)
      modifies `world, `calls, `history, `b
      ensures Valid() && end == EndsFailed(e) && Told(end)
      ensures b == old(b).(status := MarkedFailed(old(b), false))
      ensures old(b.status.resolvedName == world.cluster.crs[self].status.resolvedName) ==>
                KeepsKeys(old(world), world, self)
      ensures world == old(world) || world == WithStatus(old(world), self, b.status)
    {
      hide Inv, Trace, Tidy;
      b := b.(status := MarkedFailed(b, false));
      var _ := SaveStatus();
      end := EndsFailed(e);
    }

    /** fail, seen from the credential's side. */
    method FailStep(e: Error) returns (end: PassEnd)
      requires InPass()
      modifies `world, `calls, `history, `b
      ensures Valid() && end == EndsFailed(e) && Told(end) && KeepsKeys(old(world), world, self)
      ensures KeyWorks(cfg, old(world), self) <==> KeyWorks(cfg, world, self)
      ensures Sound(cfg, old(world), self) <==> Sound(cfg, world, self)
    {
      hide Inv, Trace, Tidy, KeyWorks, Sound;
      end := Fail(e);
      KeysKeepCredential(cfg, old(world), world, self);
    }

    method RejectStep(e: Error) returns (end: PassEnd)
      requires InPass()
      modifies `world, `calls, `history, `b
      ensures Valid() && end == EndsFailed(e) && Told(end) && KeepsKeys(old(world), world, self)
      ensures KeyWorks(cfg, old(world), self) <==> KeyWorks(cfg, world, self)
      ensures Sound(cfg, old(world), self) <==> Sound(cfg, world, self)
    {
      hide Inv, Trace, Tidy, KeyWorks, Sound;
      end := FailNoRequeue(e);
      KeysKeepCredential(cfg, old(world), world, self);
    }

    /** markProvisioning: a best-effort progress hint, skipped once the generation is settled. */
    method MarkProvisioning()
      requires InPass()
      modifies `world, `calls, `history, `b
      ensures InPass()
      ensures b == old(b) || b == old(b).(status := old(b).status.(phase := PhaseProvisioning))
      ensures world == old(world) || world == WithStatus(old(world), self, b.status)
      ensures old(b).status.phase == PhaseReady && old(b).status.observedGeneration == old(b).generation ==>
                b == old(b) && world == old(world) && history == old(history)
    {
      hide Inv, Trace, Tidy;
      var settled := b.status.observedGeneration == b.generation
          && (b.status.phase == PhaseReady || b.status.phase == PhaseFailed);
      if settled || b.status.phase == PhaseProvisioning {
        return;
      }
      b := b.(status := b.status.(phase := PhaseProvisioning));
      var _ := SaveStatus();
    }

    /******* The bucket *******/

    /**
     The bucket may be created: it never was, or it is there, or the provider said that it is gone
     and allowRecreate is set.
     */
    ghost predicate Cleared(name: string)
      reads this
    {
      b.status.resolvedName == "" || name in world.cloud.buckets || (b.spec.allowRecreate && Confirmed(name))
    }

    /**
     guardBucketPresent: a bucket that was provisioned once and that the provider itself reports
     as gone is reported, not re-created, unless spec.allowRecreate says so.
     */
    method GuardBucketPresent(name: string) returns (g: Presence)
      requires InPass() && name == EffectiveName(b)
      modifies `world, `calls, `history, `answers, `b
      ensures Valid() && SameHoldings(old(b.status), b.status)
      ensures g.Proceed? ==>
                && InPass() && world == old(world) && b == old(b) && history == old(history) && Cleared(name)
                && (g.recreate ==> name !in world.cloud.buckets && b.spec.allowRecreate)
      ensures g.Stopped? ==>
                && Told(g.end) && self in old(world.cluster.crs)
                && (world == old(world) || world == WithStatus(old(world), self, b.status))
                // BucketMissing is reported only on the provider's own answer
                && (g.end.error == BucketMissing <==>
                    old(b.status.resolvedName != "" && name !in world.cloud.buckets && !b.spec.allowRecreate)
                        && b.status.bucketMissing
                    && b.status.ready == NotReady(true))
      ensures weather.Calm? ==>
                (g.Proceed? <==>
                    old(b.status.resolvedName == "" || name in world.cloud.buckets || b.spec.allowRecreate))
    {
      hide Inv, Trace, Tidy, Provisioned, StatusFits, WellFormed, Told;
      if b.status.resolvedName == "" {
        return Proceed(false);
      }
      var there := BucketExists(name);
      if there.Err? {
        var end := Fail(there.error);
        return Stopped(end);
      }
      if there.value {
        return Proceed(false);
      }
      if b.spec.allowRecreate {
        return Proceed(true);
      }
      ReportMissing(name);
      return Stopped(EndsFailed(BucketMissing));
    }

    method ReportMissing(name: string)
      requires InPass() && b.status.resolvedName == name != "" && name !in world.cloud.buckets
      modifies `world, `calls, `history, `b
      ensures Valid() && SameHoldings(old(b.status), b.status) && Told(EndsFailed(BucketMissing))
      ensures b.status.bucketMissing && b.status.ready == NotReady(true)
      ensures world == old(world) || world == WithStatus(old(world), self, b.status)
    {
      hide Inv, Trace, Tidy, Provisioned;
      b := b.(status := ClearedDegraded(b.status).(bucketMissing := true));
      b := b.(status := MarkedFailed(b, true));
      var _ := SaveStatus();
    }

    /** ensureBucket: create and tag, or adopt what is ours; reports whether the bucket was created here. */
    method EnsureBucket(name: string) returns (r: Result<bool, Error>)
      requires Opening() && name == EffectiveName(b) && b.resolved != ""
      requires Cleared(name)
      modifies `world, `calls, `history
      ensures Valid() && OnlyClaim(cfg, self, old(world), world, name)
      ensures r.Ok? ==> name in world.cloud.buckets && OwnedBy(cfg, world.cloud.buckets[name].tags, self)
      ensures r.Ok? && r.value ==> old(name !in world.cloud.buckets)
      ensures weather.Calm? ==>
                (r.Ok? <==> old(name in world.cloud.buckets ==>
                    OwnedBy(cfg, world.cloud.buckets[name].tags, self)
                    || (world.cloud.buckets[name].tags == UNTAGGED && world.cloud.buckets[name].objects == 0)))
                && (r.Ok? ==> (r.value <==> old(name !in world.cloud.buckets)))
      ensures old(name in world.cloud.buckets && world.cloud.buckets[name].tags != UNTAGGED) && weather.Calm? ==>
                world == old(world) && history == old(history)
      ensures r.Err? ==> !r.error.CredentialDestroyed?
    {
      hide Inv, Trace, Tidy, Provisioned;
      var listed :- HasBucket(name);
      if listed {
        var adopted :- AdoptOrCollide(name);
        return Ok(false);
      }
      r := CreateAndTag(name);
    }

    method CreateAndTag(name: string) returns (r: Result<bool, Error>)
      requires Opening() && name == EffectiveName(b) && b.resolved != ""
      requires Cleared(name)
      modifies `world, `calls, `history
      ensures Valid() && OnlyClaim(cfg, self, old(world), world, name)
      ensures r.Ok? ==> name in world.cloud.buckets && OwnedBy(cfg, world.cloud.buckets[name].tags, self)
      ensures r.Ok? && r.value ==> old(name !in world.cloud.buckets)
      ensures weather.Calm? && old(name !in world.cloud.buckets) ==> r == Ok(true)
      ensures r.Err? ==> !r.error.CredentialDestroyed?
    {
      hide Inv, Trace, Tidy, Provisioned, Licensed, WellFormed, StatusFits;
      var failed := PutBucket(name);
      if failed.Some? {
        if StatusCode(failed.value) != 409 {
          return Err(failed.value);
        }
        var waited := Read();
        if waited.Some? {
          return Err(waited.value);
        }
        var adopted :- AdoptOrCollide(name);
        return Ok(false);
      }
      r := TagNewBucket(name);
    }

    method PutBucket(name: string) returns (e: Option<Error>)
      requires Opening() && name == EffectiveName(b) && b.resolved != ""
      requires Cleared(name)
      modifies `world, `calls, `history
      ensures Opening()
      ensures world == old(world) || (name !in old(world.cloud.buckets) && world == WithNewBucket(old(world), name))
      ensures e.None? ==> name !in old(world.cloud.buckets) && world == WithNewBucket(old(world), name)
      ensures weather.Calm? ==> (e.None? <==> old(name !in world.cloud.buckets))
      ensures e.Some? ==> Plain(e.value)
    {
      hide Inv, Trace, Tidy, Provisioned, WellFormed, StatusFits;
      ghost var w := world;
      e := Write(CreateBucket(name));
      StillFits(cfg, w, world, self, b.status);
    }

    method TagNewBucket(name: string) returns (r: Result<bool, Error>)
      requires Opening() && name == EffectiveName(b)
      requires name in world.cloud.buckets && world.cloud.buckets[name] == CloudBucket(0, 0, UNTAGGED, None)
      modifies `world, `calls, `history
      ensures Valid() && OnlyClaim(cfg, self, old(world), world, name)
      ensures r.Ok? ==> r.value && OwnedBy(cfg, world.cloud.buckets[name].tags, self)
      ensures weather.Calm? ==> r.Ok?
      ensures r.Err? ==> !r.error.CredentialDestroyed?
    {
      hide Inv, Trace, Tidy;
      var waited := Read();
      if waited.Some? {
        return Err(waited.value);
      }
      var e := NewS3Admin(name);
      if e.Some? {
        return Err(e.value);
      }
      e := Write(PutTags(name, OwnershipTags(cfg, self)));
      if e.Some? {
        return Err(e.value);
      }
      return Ok(true);
    }

    /** adoptOrCollide: an untagged bucket is claimed only when empty; a tagged one must be ours. */
    method AdoptOrCollide(name: string) returns (r: Result<(), Error>)
      requires Opening() && name == EffectiveName(b)
      modifies `world, `calls, `history
      ensures Valid() && OnlyClaim(cfg, self, old(world), world, name)
      ensures r.Ok? ==> name in world.cloud.buckets && OwnedBy(cfg, world.cloud.buckets[name].tags, self)
      ensures weather.Calm? && old(name in world.cloud.buckets) ==>
                (r.Ok? <==> old(OwnedBy(cfg, world.cloud.buckets[name].tags, self)
                                || (world.cloud.buckets[name].tags == UNTAGGED
                                    && world.cloud.buckets[name].objects == 0)))
      ensures old(name in world.cloud.buckets && world.cloud.buckets[name].tags != UNTAGGED) ==>
                world == old(world) && history == old(history)
      ensures r.Err? ==> !r.error.CredentialDestroyed?
    {
      hide Inv, Trace, Tidy;
      var e := NewS3Admin(name);
      if e.Some? {
        return Err(e.value);
      }
      e := Read();
      if e.Some? {
        return Err(e.value);
      }
      var tags := world.cloud.buckets[name].tags;
      if tags == UNTAGGED {
        e := Read();
        if e.Some? {
          return Err(e.value);
        }
        if world.cloud.buckets[name].objects != 0 {
          OwnerTagNotEmpty(self);
          return Err(OwnershipCollision);
        }
        r := ClaimEmpty(name);
        return;
      }
      if OwnedBy(cfg, tags, self) {
        return Ok(());
      }
      return Err(OwnershipCollision);
    }

    method ClaimEmpty(name: string) returns (r: Result<(), Error>)
      requires Opening() && name == EffectiveName(b)
      requires name in world.cloud.buckets && world.cloud.buckets[name].tags == UNTAGGED
      requires world.cloud.buckets[name].objects == 0
      modifies `world, `calls, `history
      ensures Valid() && OnlyClaim(cfg, self, old(world), world, name)
      ensures r.Ok? ==> name in world.cloud.buckets && OwnedBy(cfg, world.cloud.buckets[name].tags, self)
      ensures weather.Calm? ==> r.Ok?
      ensures r.Err? ==> !r.error.CredentialDestroyed?
    {
      hide Inv, Trace, Tidy;
      var e := Write(PutTags(name, OwnershipTags(cfg, self)));
      if e.Some? {
        return Err(e.value);
      }
      return Ok(());
    }

    /******* Policy *******/

    /** ensureBucketPolicy: write the isolation policy unless the stored one is it already. */
    method EnsureBucketPolicy(name: string, g: nat, readers: seq<string>) returns (e: Option<Error>)
      requires Valid() && self in world.cluster.crs && !world.cluster.crs[self].deleting
      requires name == EffectiveName(world.cluster.crs[self])
      requires Attributed(cfg, world, self, g) && admin.Some?
      requires forall u :: u in readers ==>
                 Trimmed(u) && MayRead(cfg, world, self, world.cluster.crs[self].spec.grants, u)
      requires ClonePending(world.cluster.crs[self]) ==> readers == []
      modifies `world, `calls, `history
      ensures Valid()
      ensures var p := Desired(name, admin.value.urn, UrnOf(g), readers);
              && (world == old(world) || (name in old(world.cloud.buckets) && world == WithPolicy(old(world), name, p)))
              && (e.None? ==> name in world.cloud.buckets && world.cloud.buckets[name].policy == Some(p))
              && (weather.Calm? && old(name in world.cloud.buckets && world.cloud.buckets[name].policy == Some(p)) ==>
                    history == old(history))
      ensures weather.Calm? ==> e.None?
      ensures e.Some? ==> !e.value.CredentialDestroyed?
    {
      hide Inv, Trace, Tidy;
      e := NewS3Admin(name);
      if e.Some? {
        return;
      }
      var desired := Desired(name, admin.value.urn, UrnOf(g), readers);
      DesiredIsCanonical(name, admin.value.urn, UrnOf(g), readers);
      SanitizedAmong(readers, admin.value.urn, UrnOf(g));
      var unread := Read();
      if unread.None? && world.cloud.buckets[name].policy == Some(desired) {
        return None;
      }
      e := Write(PutPolicy(name, desired));
    }

    /******* The access key and its Secret *******/

    /**
     ensureAccessKeyAndSecret: leave a published credential alone while its group holds a key, else
     clear, mint and publish.
     */
    method EnsureAccessKeyAndSecret(name: string, g: nat) returns (r: Result<(nat, bool), Error>)
      requires InPass() && !b.deleting && name == EffectiveName(b) && Attributed(cfg, world, self, g) && loose == {}
      requires Isolates(cfg, world, name, g) && SecretKey(self, b) != cfg.adminSecret
      requires !(ClonePending(world.cluster.crs[self]) && HoldsSecret(b))
      modifies `world, `calls, `history, `loose
      ensures Valid() && OnlyKeys(old(world), world, g, SecretKey(self, b)) && LooseExplained()
      ensures r.Ok? ==>
                && SecretAt(world, SecretKey(self, b)).accessKey == Some(r.value.0) && loose == {}
                && g in world.cloud.groups && world.cloud.groups[g].keys != {}
                && (r.value.1 ==>
                    world.cloud.groups[g].keys == {r.value.0} && SecretAt(world, SecretKey(self, b)).bucketName == name)
                && (!r.value.1 ==> world == old(world) && history == old(history))
      // the published credential stays good exactly unless a loose key stands behind it
      ensures old(SecretLive(world, g, SecretKey(self, b))) ==>
                (SecretLive(world, g, SecretKey(self, b)) <==> !Superseded(world, SecretKey(self, b), loose))
      // after the clear, a failure is marked: the published credential is known to be dead
      ensures Tidy(weather) && r.Err? && world != old(world) ==> r.error.CredentialDestroyed?
      ensures weather.Calm? && old(g in world.cloud.groups) ==>
                (r.Ok? <==> old(SecretFree(world, SecretKey(self, b), self) || Published(world, self, b, g)))
      ensures weather.Calm? && old(Published(world, self, b, g)) ==> r.Ok? && !r.value.1
      ensures PendingRotation(b) != "" && r.Ok? ==> r.value.1
    {
      hide Inv, Trace, Tidy, RollbackFailed, Licensed, Accepts, Effect, StatusFits, Provisioned, WellFormed, MayTag,
        HealthKept;
      var at := SecretKey(self, b);
      var unread := Read();
      if unread.Some? {
        return Err(unread.value);
      }
      var listed := ListKeys(g);
      if listed.Err? {
        return Err(listed.error);
      }
      if SecretAt(world, at).accessKey.Some? && listed.value != {} && PendingRotation(b) == "" {
        return Ok((SecretAt(world, at).accessKey.value, false));
      }
      r := ClearAndMint(name, g, at);
    }

    method ClearAndMint(name: string, g: nat, at: ObjKey) returns (r: Result<(nat, bool), Error>)
      requires Valid() && self in world.cluster.crs && Attributed(cfg, world, self, g) && loose == {}
      requires var cr := world.cluster.crs[self];
               && !cr.deleting && name == EffectiveName(cr) && at == SecretKey(self, cr) != cfg.adminSecret
               && Isolates(cfg, world, name, g) && !(ClonePending(cr) && HoldsSecret(cr))
      requires g in world.cloud.groups
      modifies `world, `calls, `history, `loose
      ensures Valid() && OnlyKeys(old(world), world, g, at) && LooseExplained()
      ensures r.Ok? ==>
                && SecretAt(world, at).accessKey == Some(r.value.0) && SecretAt(world, at).bucketName == name
                && g in world.cloud.groups && world.cloud.groups[g].keys == {r.value.0} && r.value.1 && loose == {}
      ensures old(SecretLive(world, g, at)) ==> (SecretLive(world, g, at) <==> !Superseded(world, at, loose))
      ensures Tidy(weather) && r.Err? && world != old(world) ==> r.error.CredentialDestroyed?
      ensures weather.Calm? ==> (r.Ok? <==> old(SecretFree(world, at, self)))
    {
      hide Inv, Trace, Tidy, RollbackFailed, Licensed, Accepts, Effect, StatusFits, Provisioned, WellFormed, MayTag,
        HealthKept;
      var cleared := DeleteAllKeys(g);
      if cleared.Some? {
        return Err(cleared.value);
      }
      r := MintAndPublish(name, g, at);
    }

    method MintAndPublish(name: string, g: nat, at: ObjKey) returns (r: Result<(nat, bool), Error>)
      requires Valid() && self in world.cluster.crs && Attributed(cfg, world, self, g) && loose == {}
      requires var cr := world.cluster.crs[self];
               && !cr.deleting && name == EffectiveName(cr) && at == SecretKey(self, cr) != cfg.adminSecret
               && Isolates(cfg, world, name, g) && !(ClonePending(cr) && HoldsSecret(cr))
      requires g in world.cloud.groups && world.cloud.groups[g].keys == {}
      modifies `world, `calls, `history, `loose
      ensures Valid() && OnlyKeys(old(world), world, g, at) && LooseExplained()
      ensures r.Ok? ==>
                && SecretAt(world, at).accessKey == Some(r.value.0) && SecretAt(world, at).bucketName == name
                && world.cloud.groups[g].keys == {r.value.0} && r.value.1 && loose == {}
      ensures SecretLive(world, g, at) <==> !Superseded(world, at, loose)
      ensures r.Err? ==> r.error.CredentialDestroyed?
      ensures weather.Calm? ==> (r.Ok? <==> old(SecretFree(world, at, self)))
    {
      hide Inv, Trace, Tidy, Licensed, Accepts, Effect, StatusFits, RollbackFailed, CameThrough;
      var key := world.cloud.nextKey;
      var failed := MintWorkloadKey(name, g);
      if failed.Some? {
        return Err(CredentialDestroyed(failed.value));
      }
      failed := PublishSecret(name, g, at, key);
      if failed.Some? {
        TakeBackKey(g, key);
        return Err(CredentialDestroyed(failed.value));
      }
      return Ok((key, true));
    }

    method MintWorkloadKey(name: string, g: nat) returns (e: Option<Error>)
      requires Valid() && self in world.cluster.crs && !world.cluster.crs[self].deleting
      requires name == EffectiveName(world.cluster.crs[self])
      requires Attributed(cfg, world, self, g) && Isolates(cfg, world, name, g) && loose == {}
      requires !(ClonePending(world.cluster.crs[self]) && HoldsSecret(world.cluster.crs[self]))
      requires g in world.cloud.groups && world.cloud.groups[g].keys == {}
      modifies `world, `calls, `history, `loose
      ensures Valid()
      ensures var key := old(world.cloud.nextKey);
              || (loose == {} && world == old(world) && e.Some?)
              || (loose == {key} && world == WithKeys(old(world), g, {key}) && (Tidy(weather) ==> e.None?))
      ensures weather.Calm? ==> e.None?
    {
      hide Inv, Trace, Tidy;
      AttributedIsNotAdmin(cfg, world, self, g);
      e := WriteKey(MintKey(g));
      assert {} + {old(world.cloud.nextKey)} == {old(world.cloud.nextKey)};
    }

    method PublishSecret(name: string, g: nat, at: ObjKey, key: nat) returns (e: Option<Error>)
      requires Valid() && self in world.cluster.crs && !world.cluster.crs[self].deleting
      requires name == EffectiveName(world.cluster.crs[self])
      requires Attributed(cfg, world, self, g) && g in world.cloud.groups && key in world.cloud.groups[g].keys
      requires loose == {key}
      requires at == SecretKey(self, world.cluster.crs[self]) != cfg.adminSecret
      requires !(ClonePending(world.cluster.crs[self]) && HoldsSecret(world.cluster.crs[self]))
      modifies `world, `calls, `history, `loose
      ensures Valid()
      ensures var s := SecretAt(old(world), at).(owner := Some(self), accessKey := Some(key), bucketName := name);
              (loose == {key} && world == old(world) && e.Some?)
                  || (loose == {} && world == WithSecret(old(world), at, s))
      ensures weather.Calm? ==> (e.None? <==> old(SecretFree(world, at, self)))
    {
      hide Inv, Trace, Tidy;
      e := WriteKey(PutSecret(at, key, name));
    }

    /** Roll back a key whose secret could not be published. */
    method TakeBackKey(g: nat, key: nat)
      requires Valid() && Attributed(cfg, world, self, g) && loose <= {key}
      requires g in world.cloud.groups && world.cloud.groups[g].keys == {key}
      modifies `world, `calls, `history, `loose
      ensures Valid()
      ensures || (loose == old(loose) && world == old(world) && RollbackFailed(history, key) && !weather.Calm?)
              || (loose == {} && world == WithoutKeys(old(world), g))
    {
      hide Inv, Trace, Tidy;
      var _ := WriteKey(DropKey(g, key));
      assert {key} - {key} == {};
    }

    /******* Read grants *******/

    /** One spec.grantReadAccess entry: the principal it stands for, or nothing while it does not resolve. */
    method ResolveGrant(name: string, listed: set<nat>) returns (r: Result<Option<string>, Error>)
      requires Valid() && Owns(cfg, world, self) && name in world.cluster.crs[self].spec.grants
      modifies `world, `calls, `history
      ensures Valid() && world.cluster == old(world.cluster) && world.cloud.groups == old(world.cloud.groups)
      ensures world.cloud.buckets.Keys == old(world.cloud.buckets.Keys)
      ensures forall other :: other != name ==>
                OwnedView(cfg, world, ObjKey(self.ns, other)) == old(OwnedView(cfg, world, ObjKey(self.ns, other)))
      ensures name == self.name ==> world == old(world)
      ensures r.Ok? && r.value.Some? ==> name != self.name && GranteeUrn(cfg, world, self, name) == r.value
      ensures r.Err? ==> !r.error.CredentialDestroyed?
      ensures CalmListing(listed) && NoLegacy(old(world)) ==>
                && r.Ok? && world == old(world) && history == old(history)
                && r.value == if Grantable(cfg, world, self, name) then GranteeUrn(cfg, world, self, name) else None
    {
      hide Inv, Trace, Tidy;
      if name == self.name {
        return Ok(None);
      }
      var e := Read();
      if e.Some? {
        return Err(e.value);
      }
      var grantee := ObjKey(self.ns, name);
      if grantee !in world.cluster.crs || world.cluster.crs[grantee].deleting {
        return Ok(None);
      }
      var n := EffectiveName(world.cluster.crs[grantee]);
      var present :- HasBucket(n);
      if !present {
        return Ok(None);
      }
      var group := ResolveWorkloadGroup(grantee, n, listed, false, false);
      GrantFrame(cfg, old(world), world, self, name);
      if group.Err? {
        if group.error == GroupNotAttributable || group.error == BucketNotOwned {
          return Ok(None);
        }
        return Err(group.error);
      }
      return Ok(Some(group.value.urn));
    }

    /** Calm weather and a listing that shows no deleted group. */
    ghost predicate CalmListing(listed: set<nat>)
      reads this
    {
      weather.Calm? && weather.phantoms == {} && listed <= world.cloud.groups.Keys
    }

    /** resolveReadGrants: principals and names of the grants that resolve, in order. */
    method ResolveReadGrants(listed: set<nat>) returns (r: Result<(seq<string>, seq<string>), Error>)
      requires Valid() && Owns(cfg, world, self) && WellFormed(world.cluster.crs[self])
      modifies `world, `calls, `history
      ensures Valid() && world.cluster == old(world.cluster) && world.cloud.groups == old(world.cloud.groups)
      ensures world.cloud.buckets.Keys == old(world.cloud.buckets.Keys)
      ensures OwnedView(cfg, world, self) == old(OwnedView(cfg, world, self))
      ensures r.Ok? ==>
                && Stands(cfg, world, self, r.value.1, r.value.0)
                && forall name :: name in r.value.1 ==> name in world.cluster.crs[self].spec.grants
      ensures r.Err? ==> !r.error.CredentialDestroyed?
      ensures CalmListing(listed) && NoLegacy(old(world)) ==>
                && r.Ok? && world == old(world) && history == old(history)
                && r.value.1 == GrantNames(cfg, world, self, world.cluster.crs[self].spec.grants)
    {
      hide Inv, Trace, Tidy, CameThrough;
      var grants := world.cluster.crs[self].spec.grants;
      var urns: seq<string>, granted: seq<string> := [], [];
      for i := 0 to |grants|
        invariant Valid() && world.cluster == old(world.cluster) && world.cloud.groups == old(world.cloud.groups)
        invariant world.cloud.buckets.Keys == old(world.cloud.buckets.Keys)
        invariant OwnedView(cfg, world, self) == old(OwnedView(cfg, world, self)) && Owns(cfg, world, self)
        invariant Stands(cfg, world, self, granted, urns)
        invariant forall name :: name in granted ==> name in grants[..i]
        invariant old(CalmListing(listed)) && NoLegacy(old(world)) ==>
                    world == old(world) && history == old(history)
                        && granted == GrantNames(cfg, world, self, grants[..i])
      {
        ghost var before := world;
        var urn :- ResolveGrant(grants[i], listed);
        assert self == ObjKey(self.ns, self.name);
        assert grants[..i + 1] == grants[..i] + [grants[i]];
        assert grants[..i + 1][..i] == grants[..i];
        assert grants[i] !in grants[..i];
        StandsOn(cfg, before, world, self, granted, urns, grants[i]);
        if urn.Some? {
          urns := urns + [urn.value];
          granted := granted + [grants[i]];
        }
      }
      assert grants[..|grants|] == grants;
      return Ok((urns, granted));
    }

    /******* The clone *******/

    /** A completed clone in memory is durable. */
    ghost predicate CloneSynced()
      reads this
    {
      self in world.cluster.crs
          && (b.status.clone == CloneCompleted ==> world.cluster.crs[self].status.clone == CloneCompleted)
    }

    /** ensureClone: start the Job, wait for it, or record its end; completion is durable before the Job goes. */
    method EnsureClone() returns (c: CloneEnd)
      requires InPass() && !b.deleting && ClonePending(b) && ClonePending(world.cluster.crs[self])
      modifies `world, `calls, `history, `b
      ensures Valid() && KeepsKeys(old(world), world, self) && world.cloud == old(world.cloud)
      ensures c.Cloned? ==>
                && InPass() && CloneSynced()
                && old(self in world.cluster.jobs && world.cluster.jobs[self] == JobSucceeded)
                && b == old(b).(status := old(b.status).(clone := CloneCompleted))
      ensures c.CloneStops? ==> Stops(c.end)
      ensures weather.Calm? ==>
                (c.Cloned? <==> old(self in world.cluster.jobs && world.cluster.jobs[self] == JobSucceeded))
      ensures weather.Calm? && old(self !in world.cluster.jobs) ==>
                self in world.cluster.jobs && c == CloneStops(EndsWaiting)
    {
      hide Inv, Trace, Tidy, KeepsKeys;
      var e := Read();
      if e.Some? {
        var end := Fail(e.value);
        return CloneStops(end);
      }
      if self !in world.cluster.jobs {
        c := StartClone();
        return;
      }
      match world.cluster.jobs[self] {
        case JobSucceeded =>
          c := CompleteClone();
        case JobFailed =>
          c := AbandonClone();
        case JobRunning =>
          CloneProgress();
          return CloneStops(EndsWaiting);
      }
    }

    /** A failed Job is removed, so that the next pass starts a new one. */
    method AbandonClone() returns (c: CloneEnd)
      requires InPass() && ClonePending(b) && ClonePending(world.cluster.crs[self])
      modifies `world, `calls, `history, `b
      ensures Valid() && KeepsKeys(old(world), world, self) && world.cloud == old(world.cloud)
      ensures c == CloneStops(EndsFailed(CloneFailed)) && Told(c.end)
      ensures weather.Calm? ==> self !in world.cluster.jobs
    {
      hide Inv, Trace, Tidy, KeepsKeys;
      DropJob();
      ghost var w := world;
      b := b.(status := b.status.(clone := CloneBroken));
      var end := Fail(CloneFailed);
      KeepsKeysComposes(old(world), w, world, self);
      return CloneStops(end);
    }

    method StartClone() returns (c: CloneEnd)
      requires InPass() && !b.deleting && ClonePending(b) && ClonePending(world.cluster.crs[self])
      requires self !in world.cluster.jobs
      modifies `world, `calls, `history, `b
      ensures Valid() && KeepsKeys(old(world), world, self) && world.cloud == old(world.cloud)
      ensures c.CloneStops? && Stops(c.end)
      ensures weather.Calm? ==> self in world.cluster.jobs && c.end == EndsWaiting
    {
      hide Inv, Trace, Tidy, Provisioned, Endures, Reported, KeepsKeys, StatusFits, WellFormed;
      ghost var w := world;
      var e := PutJob();
      ghost var v := world;
      if e.Some? {
        var end := Fail(e.value);
        KeepsKeysComposes(w, v, world, self);
        return CloneStops(end);
      }
      CloneProgress();
      KeepsKeysComposes(w, v, world, self);
      return CloneStops(EndsWaiting);
    }

    method PutJob() returns (e: Option<Error>)
      requires InPass() && !b.deleting && ClonePending(world.cluster.crs[self]) && self !in world.cluster.jobs
      requires b.status.clone != CloneCompleted
      modifies `world, `calls, `history
      ensures InPass() && KeepsKeys(old(world), world, self) && world.cloud == old(world.cloud)
      ensures world.cluster.crs == old(world.cluster.crs)
      ensures e.None? ==> self in world.cluster.jobs
      ensures weather.Calm? ==> e.None?
    {
      hide Inv, Trace, Tidy, WellFormed;
      e := Write(CreateJob);
    }

    /** updateCloneProgress: a best-effort status write. */
    method CloneProgress()
      requires InPass() && ClonePending(b) && ClonePending(world.cluster.crs[self])
      modifies `world, `calls, `history, `b
      ensures Valid() && KeepsKeys(old(world), world, self) && world.cloud == old(world.cloud)
      ensures self in world.cluster.crs
      ensures world.cluster.jobs == old(world.cluster.jobs) && ClonePending(world.cluster.crs[self])
    {
      hide Inv, Trace, Tidy, StatusFits, WellFormed;
      CloneFits(cfg, world, self, b.status, CloneRunning, PhaseProvisioning);
      b := b.(status := b.status.(clone := CloneRunning, phase := PhaseProvisioning));
      var _ := SaveStatus();
    }

    method CompleteClone() returns (c: CloneEnd)
      requires InPass() && ClonePending(b) && self in world.cluster.jobs && world.cluster.jobs[self] == JobSucceeded
      modifies `world, `calls, `history, `b
      ensures Valid() && KeepsKeys(old(world), world, self) && world.cloud == old(world.cloud)
      ensures c.Cloned? ==> InPass() && CloneSynced() && b == old(b).(status := old(b.status).(clone := CloneCompleted))
      ensures c.CloneStops? ==> Stops(c.end)
      ensures weather.Calm? ==> c.Cloned?
    {
      hide Inv, Trace, Tidy, KeepsKeys, StatusFits, Endures;
      ghost var u := world;
      var ended := SaveCompletion();
      if ended.Some? {
        return CloneStops(ended.value);
      }
      ghost var w := world;
      DropJob();
      KeepsKeysComposes(u, w, world, self);
      return Cloned;
    }

    /** The completed state must be durable before the Job goes. */
    method SaveCompletion() returns (ended: Option<PassEnd>)
      requires InPass() && ClonePending(b) && self in world.cluster.jobs && world.cluster.jobs[self] == JobSucceeded
      modifies `world, `calls, `history, `b
      ensures Valid() && KeepsKeys(old(world), world, self) && world.cloud == old(world.cloud)
      ensures ended.None? ==>
                InPass() && CloneSynced() && b == old(b).(status := old(b.status).(clone := CloneCompleted))
      ensures ended.Some? ==> Told(ended.value)
      ensures weather.Calm? ==> ended.None?
    {
      hide Inv, Trace, Tidy, KeepsKeys, StatusFits, Endures, Provisioned, Reported;
      ghost var u := world;
      CloneFits(cfg, world, self, b.status, CloneCompleted, b.status.phase);
      b := b.(status := b.status.(clone := CloneCompleted));
      var e := SaveStatus();
      if e.Some? {
        ghost var w := world;
        var end := Fail(e.value);
        KeepsKeysComposes(u, w, world, self);
        return Some(end);
      }
      return None;
    }

    /** deleteCloneArtifacts after the clone has ended: best effort. */
    method DropJob()
      requires InPass() && CloneSynced()
      modifies `world, `calls, `history
      ensures InPass() && CloneSynced() && KeepsKeys(old(world), world, self) && world.cloud == old(world.cloud)
      ensures world.cluster.crs == old(world.cluster.crs) && (weather.Calm? ==> self !in world.cluster.jobs)
    {
      hide Inv, Trace, Tidy, WellFormed;
      var _ := Write(DeleteJob);
    }

    /******* Credentials *******/

    /**
     The Bucket is past attribution: its own bucket is tagged with group g and memory says nothing
     the world does not.
     */
    ghost predicate Attached(name: string, g: nat)
      reads this
    {
      && InPass() && CloneSynced() && !b.deleting && b.resolved != "" && name == EffectiveName(b) && loose == {}
      && Attributed(cfg, world, self, g) && admin.Some? && SecretKey(self, b) != cfg.adminSecret
    }

    method AttributeGroup(name: string, isNew: bool) returns (r: Result<(GroupRef, set<nat>), Error>)
      requires InPass() && loose == {} && CloneSynced() && !b.deleting && b.resolved != "" && name == EffectiveName(b)
      requires Owns(cfg, world, self)
      requires admin.Some? && SecretKey(self, b) != cfg.adminSecret
      requires SameHoldings(world.cluster.crs[self].status, b.status)
      modifies `world, `calls, `history, `b
      ensures Valid() && OnlyTags(old(world), world, name) && StatusFits(cfg, world, self, b.status)
      ensures world.cluster == old(world.cluster) && name in world.cloud.buckets
      ensures !old(LiveTag(world, name)) ==> Unkeyed(world, world.cloud.buckets[name])
      ensures r.Ok? ==>
                && Attached(name, r.value.0.id) && r.value.0.urn == UrnOf(r.value.0.id)
                && b == old(b).(status := old(b.status).(groupId := Some(r.value.0.id), groupUrn := r.value.0.urn))
      ensures r.Err? ==> b == old(b) && !r.error.CredentialDestroyed?
      ensures weather.Calm? && weather.phantoms == {} && NoLegacy(old(world)) ==>
                && (r.Ok? <==> old(Groupable(world, b, name, isNew)))
                && (r.Ok? ==> LiveTag(world, name) && CalmListing(r.value.1))
                && (old(LiveTag(world, name)) ==> world == old(world) && history == old(history))
      ensures KeepsCredential(cfg, old(world), world, self) && (NoLegacy(old(world)) ==> NoLegacy(world))
    {
      hide Inv, Trace, Tidy, Licensed, Accepts, Effect, Provisioned, KeepsCredential, StatusFits, OnlyTags, WellFormed;
      ghost var w := world;
      OnlyTagsItself(w, name);
      TagsKeepCredential(cfg, w, w, self, name);
      r := ResolveOwnGroup(name, isNew);
      TagsKeepCredential(cfg, w, world, self, name);
      TagsFit(cfg, w, world, self, b.status, name);
      if r.Ok? {
        RecordGroup(name, r.value.0);
      }
    }

    method ResolveOwnGroup(name: string, isNew: bool) returns (r: Result<(GroupRef, set<nat>), Error>)
      requires Valid() && Owns(cfg, world, self) && !world.cluster.crs[self].deleting
      requires name == EffectiveName(world.cluster.crs[self])
      modifies `world, `calls, `history
      ensures Valid() && OnlyTags(old(world), world, name) && world.cluster == old(world.cluster)
      ensures name in world.cloud.buckets
      ensures r.Ok? ==> Attributed(cfg, world, self, r.value.0.id) && r.value.0.urn == UrnOf(r.value.0.id)
      ensures r.Err? ==> !r.error.CredentialDestroyed?
      ensures weather.Calm? && weather.phantoms == {} && NoLegacy(old(world)) ==>
                && (r.Ok? <==> old(Groupable(world, b, name, isNew)))
                && (r.Ok? ==> LiveTag(world, name) && r.value.1 <= world.cloud.groups.Keys)
                && (old(LiveTag(world, name)) ==> world == old(world) && history == old(history))
    {
      hide Inv, Trace, Tidy, Licensed, Accepts, Effect;
      var listed :- ListGroups();
      var group :- ResolveWorkloadGroup(self, name, listed, true, isNew);
      return Ok((group, listed));
    }

    /** The group is published in status as soon as it is known. */
    method RecordGroup(name: string, group: GroupRef)
      requires InPass() && loose == {} && CloneSynced() && !b.deleting && b.resolved != "" && name == EffectiveName(b)
      requires Attributed(cfg, world, self, group.id) && admin.Some? && SecretKey(self, b) != cfg.adminSecret
      modifies `b
      ensures Attached(name, group.id)
      ensures b == old(b).(status := old(b.status).(groupId := Some(group.id), groupUrn := group.urn))
    {
      hide Inv, Trace, StatusFits;
      GroupFits(cfg, world, self, b.status, group.id, group.urn);
      b := b.(status := b.status.(groupId := Some(group.id), groupUrn := group.urn));
    }

    method GrantsOf(name: string, g: nat, listed: set<nat>) returns (r: Result<(seq<string>, seq<string>), Error>)
      requires Attached(name, g)
      modifies `world, `calls, `history
      ensures Attached(name, g) && OwnedView(cfg, world, self) == old(OwnedView(cfg, world, self))
      ensures world.cluster == old(world.cluster) && world.cloud.groups == old(world.cloud.groups)
      ensures r.Ok? ==>
                && Stands(cfg, world, self, r.value.1, r.value.0)
                && forall grantee :: grantee in r.value.1 ==> grantee in b.spec.grants
      ensures r.Err? ==> !r.error.CredentialDestroyed?
      ensures CalmListing(listed) && NoLegacy(old(world)) ==>
                && r.Ok? && world == old(world) && history == old(history)
                && r.value.1 == GrantNames(cfg, world, self, b.spec.grants)
    {
      hide Inv, Trace, Tidy, Licensed, Accepts, Effect, Provisioned;
      r := ResolveReadGrants(listed);
      assert OwnedView(cfg, world, self) == old(OwnedView(cfg, world, self));
    }

    /** applyPolicy: the readers are recorded next to the write that makes them so. */
    method ApplyPolicy(name: string, g: nat, readers: seq<string>, granted: seq<string>) returns (e: Option<Error>)
      requires Attached(name, g) && Stands(cfg, world, self, granted, readers)
      requires forall grantee :: grantee in granted ==> grantee in b.spec.grants
      requires ClonePending(b) ==> readers == []
      modifies `world, `calls, `history, `b
      ensures Attached(name, g) && KeepsKeys(old(world), world, self)
      ensures b == old(b).(status := old(b.status).(grantedReadTo := granted))
      ensures e.None? ==> world.cloud.buckets[name].policy == Some(Desired(name, admin.value.urn, UrnOf(g), readers))
      ensures weather.Calm? ==> e.None?
      ensures weather.Calm?
              && old(world.cloud.buckets[name].policy) == Some(Desired(name, admin.value.urn, UrnOf(g), readers)) ==>
                world == old(world) && history == old(history)
      ensures e.Some? ==> !e.value.CredentialDestroyed?
      ensures world.cluster == old(world.cluster) && world.cloud.groups == old(world.cloud.groups)
    {
      hide Inv, Trace, Tidy, Licensed, Accepts, Effect, Provisioned, Stands, MayRead, StatusFits, KeepsKeys, Desired;
      ghost var w := world;
      forall u | u in readers
        ensures Trimmed(u) && MayRead(cfg, world, self, b.spec.grants, u)
      {
        ReaderMayRead(cfg, world, self, granted, readers, b.spec.grants, u);
      }
      b := b.(status := b.status.(grantedReadTo := granted));
      e := EnsureBucketPolicy(name, g, readers);
      PolicyIsSteady(w, world, name, Desired(name, admin.value.urn, UrnOf(g), readers), self);
      PolicyKept(name, g, w, granted);
    }

    lemma PolicyKept(name: string, g: nat, w: World, granted: seq<string>)
      requires KeepsKeys(w, world, self) && world.cluster == w.cluster && Attributed(cfg, w, self, g)
      requires exists s :: StatusFits(cfg, w, self, s) && b.status == s.(grantedReadTo := granted)
      requires b.status.ready == IsReady ==> world.cluster.crs[self].status.ready == IsReady
      requires b.status.bucketMissing ==> world.cluster.crs[self].status.bucketMissing
      ensures StatusFits(cfg, world, self, b.status) && Attributed(cfg, world, self, g)
    {
      var s :| StatusFits(cfg, w, self, s) && b.status == s.(grantedReadTo := granted);
      PolicyFits(cfg, w, world, self, s, granted);
    }

    /** What a pass has to show for itself when it may declare the Bucket ready. */
    ghost predicate Delivered(name: string, c: Creds, readers: seq<string>)
      reads this
    {
      && Attached(name, c.group.id) && !ClonePending(b) && c.group.urn == UrnOf(c.group.id)
      && Provisioned(cfg, world, self) && SecretAt(world, SecretKey(self, b)).accessKey == Some(c.accessKey)
      && Shared(name, c.group.id, c.granted, readers) && b.status.grantedReadTo == c.granted
    }

    /** The policy in force lets in exactly the granted Buckets' groups. */
    ghost predicate Shared(name: string, g: nat, granted: seq<string>, readers: seq<string>)
      reads this
    {
      && name in world.cloud.buckets && admin.Some? && Stands(cfg, world, self, granted, readers)
      && (forall grantee :: grantee in granted ==> grantee in b.spec.grants)
      && world.cloud.buckets[name].policy == Some(Desired(name, admin.value.urn, UrnOf(g), readers))
    }

    /** ensureAccessKeyAndSecret, seen from the credential's side. */
    method IssueKey(name: string, g: nat) returns (r: Result<(nat, bool), Error>)
      requires Attached(name, g) && Isolates(cfg, world, name, g) && !(ClonePending(b) && HoldsSecret(b))
      modifies `world, `calls, `history, `loose
      ensures InPass() && Steady(old(world), world, self) && LooseExplained()
      ensures world.cloud.buckets == old(world.cloud.buckets)
      ensures world.cluster == old(world.cluster).(secrets := world.cluster.secrets)
      ensures r.Ok? ==>
                && Attached(name, g) && Provisioned(cfg, world, self)
                && SecretAt(world, SecretKey(self, b)).accessKey == Some(r.value.0)
                && KeepsCredential(cfg, old(world), world, self)
      ensures old(Sound(cfg, world, self)) && loose == {} ==> Sound(cfg, world, self)
      ensures r.Ok? && (r.value.1 || old(Sound(cfg, world, self))) ==> KeyWorks(cfg, world, self)
      ensures Tidy(weather) && old(KeyWorks(cfg, world, self)) && !KeyWorks(cfg, world, self) ==>
                r.Err? && r.error.CredentialDestroyed?
      ensures weather.Calm? && old(g in world.cloud.groups) ==>
                (r.Ok? <==> old(SecretFree(world, SecretKey(self, b), self) || Published(world, self, b, g)))
      ensures weather.Calm? && old(Published(world, self, b, g)) ==> world == old(world) && history == old(history)
      ensures PendingRotation(b) != "" && r.Ok? ==> r.value.1
    {
      hide Inv, Trace, Tidy, Licensed, Accepts, Effect, RollbackFailed;
      r := EnsureAccessKeyAndSecret(name, g);
    }

    /** The published credential was lost on the way and the Bucket says so. */
    ghost predicate Disclosed(end: PassEnd)
      reads this
    {
      Told(end) && end.error.CredentialDestroyed? && b.status.phase == PhaseFailed && b.status.ready == NotReady(false)
    }

    method IssueCredentials(name: string, group: GroupRef, granted: seq<string>, ghost readers: seq<string>)
      returns (p: ProvEnd)
      requires Attached(name, group.id) && !ClonePending(b) && group.urn == UrnOf(group.id)
      requires Shared(name, group.id, granted, readers) && b.status.grantedReadTo == granted
      modifies `world, `calls, `history, `loose, `b
      ensures Valid() && Steady(old(world), world, self)
      ensures p.Provided? ==>
                && Delivered(name, p.creds, readers) && b == old(b).(status := b.status)
                && p.creds.group == group && p.creds.granted == granted && b == old(b)
                && KeepsCredential(cfg, old(world), world, self)
                && (old(Sound(cfg, world, self)) ==> KeyWorks(cfg, world, self))
      ensures p.Halted? ==> Told(p.end)
      ensures old(Sound(cfg, world, self)) && loose == {} ==> Sound(cfg, world, self)
      ensures LooseExplained()
      ensures Tidy(weather) && old(KeyWorks(cfg, world, self)) && !KeyWorks(cfg, world, self) ==>
                p.Halted? && Disclosed(p.end)
      ensures weather.Calm? && old(group.id in world.cloud.groups) ==>
                (p.Provided? <==>
                    old(SecretFree(world, SecretKey(self, b), self) || Published(world, self, b, group.id)))
      ensures weather.Calm? && old(Published(world, self, b, group.id)) ==>
                world == old(world) && history == old(history)
    {
      hide Inv, Trace, Tidy, Licensed, Accepts, Effect, Sound, KeyWorks, Provisioned, Steady, StatusFits, Reported,
        Endures, Explained;
      ghost var w := world;
      var r := IssueKey(name, group.id);
      StandsSteady(cfg, w, world, self, granted, readers);
      if r.Err? {
        var end := FailIssue(r.error, w);
        return Halted(end);
      }
      return Provided(Creds(group, r.value.0, granted));
    }

    method IssueNow(name: string, group: GroupRef, granted: seq<string>, ghost readers: seq<string>)
      returns (p: ProvEnd)
      requires Attached(name, group.id) && !ClonePending(b) && group.urn == UrnOf(group.id)
      requires Shared(name, group.id, granted, readers) && b.status.grantedReadTo == granted
      modifies `world, `calls, `history, `loose, `b
      ensures Valid() && (NoLegacy(old(world)) ==> NoLegacy(world))
      ensures p.Provided? ==>
                GrantNames(cfg, world, self, b.spec.grants) == GrantNames(cfg, old(world), self, b.spec.grants)
      ensures p.Provided? ==>
                && Delivered(name, p.creds, readers) && b == old(b).(status := b.status)
                && p.creds.group == group && p.creds.granted == granted && b == old(b)
                && KeepsCredential(cfg, old(world), world, self)
                && (old(Sound(cfg, world, self)) ==> KeyWorks(cfg, world, self))
      ensures p.Halted? ==> Told(p.end)
      ensures old(Sound(cfg, world, self)) && loose == {} ==> Sound(cfg, world, self)
      ensures LooseExplained()
      ensures Tidy(weather) && old(KeyWorks(cfg, world, self)) && !KeyWorks(cfg, world, self) ==>
                p.Halted? && Disclosed(p.end)
      ensures weather.Calm? && old(group.id in world.cloud.groups) ==>
                (p.Provided? <==>
                    old(SecretFree(world, SecretKey(self, b), self) || Published(world, self, b, group.id)))
      ensures weather.Calm? && old(Published(world, self, b, group.id)) ==>
                world == old(world) && history == old(history)
    {
      hide Inv, Trace, Tidy, Licensed, Accepts, Effect, Sound, KeyWorks, Provisioned, Steady, StatusFits, Stands,
        NoLegacy, GrantNames, Explained, Reported, Endures, Delivered, Attached, Shared;
      ghost var w := world;
      p := IssueCredentials(name, group, granted, readers);
      SteadyLegacy(w, world, self);
      if p.Provided? {
        GrantsSteady(cfg, w, world, self, b.spec.grants);
      }
    }

    /** fail after an attempt to issue a key. */
    method FailIssue(e: Error, ghost w: World) returns (end: PassEnd)
      requires InPass() && Steady(w, world, self) && LooseExplained()
      modifies `world, `calls, `history, `b
      ensures Valid() && Steady(w, world, self) && LooseExplained() && Told(end)
      ensures world.cluster.jobs == old(world.cluster.jobs)
      ensures e.CredentialDestroyed? ==> Disclosed(end)
      ensures KeyWorks(cfg, world, self) <==> KeyWorks(cfg, old(world), self)
      ensures Sound(cfg, world, self) <==> Sound(cfg, old(world), self)
    {
      hide Inv, Trace, Tidy, Sound, KeyWorks, Provisioned, Steady, StatusFits, WellFormed;
      ghost var v, h := world, history;
      if e.CredentialDestroyed? {
        DefinitiveFailureDropsReady(cfg.grace, b, e, now);
      }
      end := Fail(e);
      FailedStep(cfg, w, v, world, self);
      ExplainedGrows(weather, loose, h, history);
    }

    /** The cloning path: the key first if it is not held back, then the clone, then the readers, then a held key. */
    method CloneThenIssue(name: string, group: GroupRef, granted: seq<string>, readers: seq<string>)
      returns (p: ProvEnd)
      requires Attached(name, group.id) && ClonePending(b) && group.urn == UrnOf(group.id)
      requires Isolates(cfg, world, name, group.id)
      requires Stands(cfg, world, self, granted, readers) && forall grantee :: grantee in granted ==>
                 grantee in b.spec.grants
      modifies `world, `calls, `history, `loose, `b
      ensures Valid()
      ensures p.Provided? ==>
                && Delivered(name, p.creds, readers) && b == old(b).(status := b.status)
                && p.creds.group == group && p.creds.granted == granted
                && old(self in world.cluster.jobs && world.cluster.jobs[self] == JobSucceeded)
                && KeepsCredential(cfg, old(world), world, self)
                && (old(Sound(cfg, world, self)) ==> KeyWorks(cfg, world, self))
      ensures p.Halted? ==> Stops(p.end)
      ensures old(Sound(cfg, world, self)) && loose == {} ==> Sound(cfg, world, self)
      ensures LooseExplained()
      ensures Tidy(weather) && old(KeyWorks(cfg, world, self)) && !KeyWorks(cfg, world, self) ==>
                p.Halted? && Disclosed(p.end)
    {
      hide Inv, Trace, Tidy, Licensed, Accepts, Effect, Sound, KeyWorks, Provisioned, Steady, StatusFits, Stands;
      if HoldsSecret(b) {
        p := FinishClone(name, group, granted, readers, None);
        return;
      }
      ghost var w := world;
      var r := IssueEarly(name, group);
      if r.Err? {
        return Halted(r.error);
      }
      StandsSteady(cfg, w, world, self, granted, readers);
      p := FinishClone(name, group, granted, readers, Some(r.value));
    }

    /** A key that is not held back; a rotation is recorded at once, since the clone keeps the pass from its end. */
    method IssueEarly(name: string, group: GroupRef) returns (r: Result<nat, PassEnd>)
      requires Attached(name, group.id) && ClonePending(b) && !HoldsSecret(b) && Isolates(cfg, world, name, group.id)
      modifies `world, `calls, `history, `loose, `b
      ensures Valid() && Steady(old(world), world, self) && world.cluster.jobs == old(world.cluster.jobs)
      ensures r.Ok? ==>
                && Attached(name, group.id) && ClonePending(b)
                && b == old(b).(status := b.status) && Isolates(cfg, world, name, group.id)
                && Provisioned(cfg, world, self) && SecretAt(world, SecretKey(self, b)).accessKey == Some(r.value)
                && KeepsCredential(cfg, old(world), world, self)
                && (old(Sound(cfg, world, self)) ==> KeyWorks(cfg, world, self))
      ensures r.Err? ==> Told(r.error)
      ensures old(Sound(cfg, world, self)) && loose == {} ==> Sound(cfg, world, self)
      ensures LooseExplained()
      ensures Tidy(weather) && old(KeyWorks(cfg, world, self)) && !KeyWorks(cfg, world, self) ==>
                r.Err? && Disclosed(r.error)
    {
      hide Inv, Trace, Tidy, Licensed, Accepts, Effect, Sound, KeyWorks, Provisioned, Steady, Reported, Endures,
        Explained, StatusFits, WellFormed, HealthKept;
      ghost var w := world;
      var issued := IssueKey(name, group.id);
      if issued.Err? {
        var end := FailIssue(issued.error, w);
        return Err(end);
      }
      RecordEarly(name, group.id);
      return Ok(issued.value.0);
    }

    method RecordEarly(name: string, g: nat)
      requires Attached(name, g)
      modifies `b
      ensures Attached(name, g) && b == Recorded(old(b))
    {
      hide Inv, Trace;
      RecordRotation();
    }

    /** recordPendingRotation: the handled trigger, in memory. */
    method RecordRotation()
      modifies `b
      ensures b == Recorded(old(b))
      ensures PendingRotation(b) == ""
    {
      if PendingRotation(b) != "" {
        b := b.(status := b.status.(lastRotation := PendingRotation(b)));
      }
    }

    method FinishClone(name: string, group: GroupRef, granted: seq<string>, readers: seq<string>, key: Option<nat>)
      returns (p: ProvEnd)
      requires Attached(name, group.id) && ClonePending(b) && group.urn == UrnOf(group.id)
      requires Isolates(cfg, world, name, group.id)
      requires Stands(cfg, world, self, granted, readers) && forall grantee :: grantee in granted ==>
                 grantee in b.spec.grants
      requires key.Some? ==> Provisioned(cfg, world, self) && SecretAt(world, SecretKey(self, b)).accessKey == key
      modifies `world, `calls, `history, `loose, `b
      ensures Valid()
      ensures p.Provided? ==>
                && Delivered(name, p.creds, readers) && b == old(b).(status := b.status)
                && p.creds.group == group && p.creds.granted == granted
                && old(self in world.cluster.jobs && world.cluster.jobs[self] == JobSucceeded)
                && KeepsCredential(cfg, old(world), world, self)
                && (old(if key.Some? then KeyWorks(cfg, world, self) else Sound(cfg, world, self)) ==>
                      KeyWorks(cfg, world, self))
      ensures p.Halted? ==> Stops(p.end)
      ensures old(Sound(cfg, world, self)) && loose == {} ==> Sound(cfg, world, self)
      ensures LooseExplained()
      ensures Tidy(weather) && old(KeyWorks(cfg, world, self)) && !KeyWorks(cfg, world, self) ==>
                p.Halted? && Disclosed(p.end)
    {
      hide Inv, Trace, Tidy, Licensed, Accepts, Effect, Sound, KeyWorks, Steady, Provisioned, KeepsKeys, StatusFits,
        Stands;
      var ended := CloneAndShare(name, group.id, granted, readers);
      if ended.Some? {
        return Halted(ended.value);
      }
      if key.Some? {
        return Provided(Creds(group, key.value, granted));
      }
      p := IssueCredentials(name, group, granted, readers);
    }

    /** The clone, and once it is done the policy with the readers it held back. */
    method CloneAndShare(name: string, g: nat, granted: seq<string>, readers: seq<string>)
      returns (ended: Option<PassEnd>)
      requires Attached(name, g) && ClonePending(b) && Isolates(cfg, world, name, g)
      requires Stands(cfg, world, self, granted, readers) && forall grantee :: grantee in granted ==>
                 grantee in b.spec.grants
      modifies `world, `calls, `history, `b
      ensures Valid()
      ensures KeyWorks(cfg, old(world), self) <==> KeyWorks(cfg, world, self)
      ensures Sound(cfg, old(world), self) <==> Sound(cfg, world, self)
      ensures ended.None? ==>
                && Attached(name, g) && !ClonePending(b)
                && Shared(name, g, granted, readers) && b.status.grantedReadTo == granted
                && b == old(b).(status := b.status) && world.cluster.secrets == old(world.cluster.secrets)
                && (old(Provisioned(cfg, world, self)) ==> Provisioned(cfg, world, self))
                && old(self in world.cluster.jobs && world.cluster.jobs[self] == JobSucceeded)
      ensures ended.Some? ==> Stops(ended.value)
    {
      hide Inv, Trace, Tidy, Licensed, Accepts, Effect, Sound, KeyWorks, Steady, Provisioned, KeepsKeys, Stands;
      ghost var u := world;
      var c := EnsureClone();
      KeysKeepCredential(cfg, u, world, self);
      StandsKeeps(cfg, u, world, self, granted, readers);
      if c.CloneStops? {
        return Some(c.end);
      }
      ghost var v := world;
      var e := ApplyPolicy(name, g, readers, granted);
      KeysKeepCredential(cfg, v, world, self);
      StandsKeeps(cfg, v, world, self, granted, readers);
      if e.Some? {
        var end := FailStep(e.value);
        return Some(end);
      }
      KeepsKeysComposes(u, v, world, self);
      if Provisioned(cfg, u, self) {
        StillProvisioned(cfg, u, world, self);
      }
      return None;
    }

    /** The stored policy is the one a pass would write for group g. */
    ghost predicate PolicyCurrent(name: string, g: nat)
      reads this
    {
      && name in world.cloud.buckets && admin.Some?
      && world.cloud.buckets[name].policy == Some(Desired(name, admin.value.urn, UrnOf(g),
           UrnsOf(cfg, world, self, GrantNames(cfg, world, self, b.spec.grants))))
    }

    /** Grants, policy, clone, key and Secret, for an attributed group. */
    method ShareAndIssue(name: string, group: GroupRef, listed: set<nat>)
      returns (p: ProvEnd, ghost readers: seq<string>)
      requires Attached(name, group.id) && group.urn == UrnOf(group.id)
      modifies `world, `calls, `history, `loose, `b
      ensures Valid()
      ensures p.Provided? ==>
                && Delivered(name, p.creds, readers) && b == old(b).(status := b.status) && p.creds.group == group
                && KeepsCredential(cfg, old(world), world, self)
                && (old(Sound(cfg, world, self)) ==> KeyWorks(cfg, world, self))
      ensures p.Halted? ==> Stops(p.end)
      ensures old(Sound(cfg, world, self)) && loose == {} ==> Sound(cfg, world, self)
      ensures LooseExplained()
      ensures Tidy(weather) && old(KeyWorks(cfg, world, self)) && !KeyWorks(cfg, world, self) ==>
                p.Halted? && Disclosed(p.end)
      ensures old(CalmListing(listed)) && NoLegacy(old(world))
              && old(!ClonePending(b)) && old(group.id in world.cloud.groups) ==>
                && (p.Provided? <==> old(!ClonesItself(cfg, b, name)
                    && (SecretFree(world, SecretKey(self, b), self) || Published(world, self, b, group.id))))
                && (p.Provided? ==> NoLegacy(world) && p.creds.granted == GrantNames(cfg, world, self, b.spec.grants))
                && (old(PolicyCurrent(name, group.id) && Published(world, self, b, group.id)) && p.Provided? ==>
                      world == old(world) && history == old(history))
    {
      hide Inv, Trace, Tidy, Licensed, Accepts, Effect, Sound, KeyWorks, Provisioned, StatusFits, Stands, MayRead,
        NoLegacy, GrantNames, Desired, UrnsOf, WellFormed, KeepsKeys, Reported, Endures, Explained, Delivered, Attached,
        Shared;
      readers := [];
      AttachedIsClean(name, group.id);
      var shared := Share(name, group, listed);
      NothingLoose();
      if shared.Err? {
        return Halted(shared.error), readers;
      }
      var urns, granted := shared.value.0, shared.value.1;
      readers := urns;
      if ClonePending(b) {
        p := CloneThenIssue(name, group, granted, urns);
      } else {
        p := IssueNow(name, group, granted, urns);
      }
    }

    lemma DeliveredIsClean(name: string, c: Creds, readers: seq<string>)
      requires Delivered(name, c, readers)
      ensures loose == {}
    {
    }

    lemma AttachedIsClean(name: string, g: nat)
      requires Attached(name, g)
      ensures loose == {}
    {
    }

    /** The read grants that resolve, and the policy that lets them in unless the clone still holds them back. */
    method Share(name: string, group: GroupRef, listed: set<nat>)
      returns (r: Result<(seq<string>, seq<string>), PassEnd>)
      requires Attached(name, group.id)
      modifies `world, `calls, `history, `b
      ensures Valid()
      ensures KeyWorks(cfg, old(world), self) <==> KeyWorks(cfg, world, self)
      ensures Sound(cfg, old(world), self) <==> Sound(cfg, world, self)
      ensures r.Ok? ==>
                && Attached(name, group.id) && world.cluster == old(world.cluster)
                && world.cloud.groups == old(world.cloud.groups) && Isolates(cfg, world, name, group.id)
                && b == old(b).(status := old(b.status).(grantedReadTo := if ClonePending(b) then [] else r.value.1))
                && Stands(cfg, world, self, r.value.1, r.value.0)
                && (forall grantee :: grantee in r.value.1 ==> grantee in b.spec.grants)
                && (!ClonePending(b) ==> Shared(name, group.id, r.value.1, r.value.0))
      ensures r.Err? ==> Told(r.error)
      ensures old(CalmListing(listed)) && NoLegacy(old(world)) ==>
                && (r.Ok? <==> !ClonesItself(cfg, old(b), name))
                && (r.Ok? ==> NoLegacy(world) && r.value.1 == GrantNames(cfg, world, self, b.spec.grants))
                && (old(PolicyCurrent(name, group.id) && !ClonePending(b)) && r.Ok? ==>
                      world == old(world) && history == old(history))
    {
      hide Inv, Trace, Tidy, Licensed, Accepts, Effect, Sound, KeyWorks, Provisioned, Steady, KeepsKeys, StatusFits,
        Stands, NoLegacy, MayRead, WellFormed, Shared, Reported, Endures, Desired, Explained;
      ghost var w := world;
      var grants := GrantsOf(name, group.id, listed);
      GrantsKeepCredential(cfg, w, world, self);
      if grants.Err? {
        var end := FailStep(grants.error);
        return Err(end);
      }
      StandsForUrns(cfg, world, self, grants.value.1, grants.value.0);
      var e := ApplyGrants(name, group.id, grants.value.0, grants.value.1);
      if e.Some? {
        var end := FailStep(e.value);
        return Err(end);
      }
      if ClonesItself(cfg, b, name) {
        var end := RejectStep(SpecFault);
        return Err(end);
      }
      return Ok(grants.value);
    }

    /** The first policy of a pass: readers stay out while a clone is pending. */
    method ApplyGrants(name: string, g: nat, urns: seq<string>, granted: seq<string>) returns (e: Option<Error>)
      requires Attached(name, g) && Stands(cfg, world, self, granted, urns)
      requires forall grantee :: grantee in granted ==> grantee in b.spec.grants
      modifies `world, `calls, `history, `b
      ensures Attached(name, g) && KeepsKeys(old(world), world, self) && Stands(cfg, world, self, granted, urns)
      ensures world.cluster == old(world.cluster) && world.cloud.groups == old(world.cloud.groups)
      ensures NoLegacy(old(world)) ==> NoLegacy(world)
      ensures KeyWorks(cfg, old(world), self) <==> KeyWorks(cfg, world, self)
      ensures Sound(cfg, old(world), self) <==> Sound(cfg, world, self)
      ensures b == old(b).(status := old(b.status).(grantedReadTo := if ClonePending(b) then [] else granted))
      ensures GrantNames(cfg, world, self, b.spec.grants) == GrantNames(cfg, old(world), self, b.spec.grants)
      ensures e.None? ==> Isolates(cfg, world, name, g) && (!ClonePending(b) ==> Shared(name, g, granted, urns))
      ensures weather.Calm? ==> e.None?
      ensures weather.Calm? && !ClonePending(b)
              && old(world.cloud.buckets[name].policy) == Some(Desired(name, admin.value.urn, UrnOf(g), urns)) ==>
                world == old(world) && history == old(history)
    {
      hide Inv, Trace, Tidy, Licensed, Accepts, Effect, Sound, KeyWorks, Provisioned, Steady, KeepsKeys, StatusFits,
        Stands, NoLegacy, MayRead;
      ghost var v := world;
      var cloning := ClonePending(b);
      StandsForNone(cfg, world, self);
      e := ApplyPolicy(name, g, if cloning then [] else urns, if cloning then [] else granted);
      KeysKeepCredential(cfg, v, world, self);
      StandsKeeps(cfg, v, world, self, granted, urns);
      GrantsKeep(cfg, v, world, self, b.spec.grants);
    }

    method ProvisionCredentials(name: string, isNew: bool) returns (p: ProvEnd, ghost readers: seq<string>)
      requires Opening() && b.resolved != "" && name == EffectiveName(b) && Owns(cfg, world, self)
      requires admin.Some? && SecretKey(self, b) != cfg.adminSecret
      modifies `world, `calls, `history, `loose, `b
      ensures Valid()
      ensures p.Provided? ==> b == old(b).(status := b.status)
      ensures p.Provided? ==>
                Delivered(name, p.creds, readers) && (old(Sound(cfg, world, self)) ==> KeyWorks(cfg, world, self))
      ensures p.Halted? ==> Stops(p.end)
      ensures old(Sound(cfg, world, self)) && loose == {} ==> Sound(cfg, world, self)
      ensures LooseExplained()
      ensures Tidy(weather) && old(KeyWorks(cfg, world, self)) && !KeyWorks(cfg, world, self) ==>
                p.Halted? && Disclosed(p.end)
      ensures old(weather.Calm? && weather.phantoms == {} && !ClonePending(b)) && NoLegacy(old(world)) ==>
                && (p.Provided? <==> old(Groupable(world, b, name, isNew)
                    && !ClonesItself(cfg, b, name) && Publishable(world, self, b, name)))
                && (p.Provided? ==> NoLegacy(world) && p.creds.granted == GrantNames(cfg, world, self, b.spec.grants))
                && (old(LiveTag(world, name) && Published(world, self, b, world.cloud.buckets[name].tags.groupId.value)
                        && PolicyCurrent(name, world.cloud.buckets[name].tags.groupId.value)) && p.Provided? ==>
                      world == old(world) && history == old(history))
    {
      hide Inv, Trace, Tidy, Licensed, Accepts, Effect, Sound, KeyWorks, Provisioned, StatusFits, Stands, NoLegacy,
        MayRead, GrantNames, OnlyTags, Delivered, KeepsKeys, Reported;
      readers := [];
      var group := AttributeGroup(name, isNew);
      if group.Err? {
        ghost var w := world;
        var end := Fail(group.error);
        KeysKeepCredential(cfg, w, world, self);
        return Halted(end), readers;
      }
      p, readers := ShareAndIssue(name, group.value.0, group.value.1);
    }

    /******* A pass *******/

    /** Memory and store agree on name, group and clone. */
    ghost predicate Held()
      reads this
    {
      InPass() && SameHoldings(world.cluster.crs[self].status, b.status) && loose == {}
    }

    /** A provisioning pass that has attributed nothing yet. */
    ghost predicate Opening()
      reads this
    {
      Held() && !b.deleting
    }

    /** A teardown pass. */
    ghost predicate Closing()
      reads this
    {
      Held() && b.deleting
    }

    /** specGuardError, decideBucketName and persistResolvedName: the name is frozen before anything is created. */
    method ResolveName() returns (r: Result<string, PassEnd>)
      requires Opening()
      modifies `world, `calls, `history, `frozen, `b
      ensures Valid()
      ensures r.Ok? ==> frozen == r.value
      ensures r.Ok? ==>
                && Opening() && SpecOK(cfg, self, b) && r.value != ""
                && r.value == DecideName(cfg.naming, self, old(b)).0 == EffectiveName(b)
                && b == old(b).(resolved := r.value) && world == Frozen(cfg, old(world), self)
      ensures r.Ok? && old(b.resolved) == r.value ==> world == old(world) && history == old(history)
      ensures self in world.cluster.crs
      ensures r.Err? ==> Told(r.error) && OnlyMarks(cfg, Frozen(cfg, old(world), self), Frozen(cfg, world, self), self)
      ensures world.cloud == old(world.cloud) && world.cluster.secrets == old(world.cluster.secrets)
      ensures weather.Calm? ==> (r.Ok? <==> Nameable(cfg, self, old(b)))
    {
      hide Inv, Trace, Tidy, Provisioned, OnlyMarks, StatusFits, ValidName, Endures, Reported;
      ghost var w := world;
      if !SpecOK(cfg, self, b) {
        var end := FailNaming(SpecFault, false, w);
        return Err(end);
      }
      var (name, composed) := DecideName(cfg.naming, self, b);
      if composed && !ValidName(name) {
        var end := FailNaming(SpecFault, false, w);
        return Err(end);
      }
      if b.resolved == name {
        FrozenIsStill(cfg, world, self);
        Freeze(name);
        return Ok(name);
      }
      var e := Persist(name);
      if e.Some? {
        var end := FailNaming(e.value, true, w);
        return Err(end);
      }
      b := b.(resolved := name);
      Freeze(name);
      return Ok(name);
    }

    /** From here on the name is known to be frozen. */
    method Freeze(name: string)
      requires Valid() && FrozenAs(world, self, name)
      modifies `frozen
      ensures Valid() && frozen == name
    {
      hide Inv, Trace, FrozenAs;
      FreezeKeeps(cfg, self, Log(origin, answers, loose, frozen), history, world, name);
      frozen := name;
    }

    method FailNaming(e: Error, requeue: bool, ghost w: World) returns (end: PassEnd)
      requires Valid() && StatusFits(cfg, world, self, b.status) && self in w.cluster.crs
      requires world == w || world == Frozen(cfg, w, self)
      requires SameHoldings(w.cluster.crs[self].status, b.status) && HealthKept()
      modifies `world, `calls, `history, `b
      ensures Valid() && end == EndsFailed(e) && Told(end) && self in world.cluster.crs
      ensures OnlyMarks(cfg, Frozen(cfg, w, self), Frozen(cfg, world, self), self)
      ensures world.cloud == old(world.cloud) && world.cluster.secrets == old(world.cluster.secrets)
    {
      hide Inv, Trace, Tidy, Provisioned, StatusFits, OnlyMarks, Frozen;
      ghost var v := world;
      if requeue {
        end := Fail(e);
      } else {
        end := FailNoRequeue(e);
      }
      MarksFrozen(cfg, w, v, b.status, self);
    }

    method Persist(name: string) returns (e: Option<Error>)
      requires Opening() && name != "" && name == DecideName(cfg.naming, self, b).0
      modifies `world, `calls, `history
      ensures Valid() && StatusFits(cfg, world, self, b.status)
      ensures world == old(world) || world == Frozen(cfg, old(world), self)
      ensures e.None? ==> world == Frozen(cfg, old(world), self)
      ensures weather.Calm? ==> e.None?
      ensures e.Some? ==> !e.value.CredentialDestroyed?
    {
      hide Inv, Trace, Tidy, Provisioned;
      e := Write(PutMeta(name, b.finalizer));
    }

    /** Progress marker, admin credential, service and the guard against a vanished bucket. */
    method Prepare(name: string) returns (g: Presence)
      requires Opening() && name == EffectiveName(b)
      modifies `world, `calls, `history, `answers, `b, `admin
      ensures Valid() && OnlyMarks(cfg, old(world), world, self)
      ensures g.Proceed? ==>
                && Opening() && admin.Some? && b == old(b).(status := old(b.status).(phase := b.status.phase))
                && Cleared(name)
      ensures g.Stopped? ==> Told(g.end)
      ensures weather.Calm? && cfg.adminSecret.ns != "" ==>
                (g.Proceed? <==>
                    old(b.status.resolvedName == "" || name in world.cloud.buckets || b.spec.allowRecreate))
      ensures old(b.status.phase == PhaseReady && b.status.observedGeneration == b.generation
              && AdminOf(cfg, world).Some?) && g.Proceed? ==>
                world == old(world) && history == old(history) && b == old(b)
    {
      hide Inv, Trace, Tidy, Provisioned, StatusFits, OnlyMarks;
      ghost var w := world;
      var ended := Equip();
      if ended.Some? {
        return Stopped(ended.value);
      }
      ghost var x := world;
      assert w.cloud.buckets == x.cloud.buckets;
      g := GuardBucketPresent(name);
      StatusMarks(cfg, x, world, b.status, self);
      MarksCompose(cfg, w, x, world, self);
    }

    /** Progress marker, admin credential and service; says how the pass ended if it did. */
    method Equip() returns (ended: Option<PassEnd>)
      requires Opening()
      modifies `world, `calls, `history, `b, `admin
      ensures Valid() && OnlyMarks(cfg, old(world), world, self) && world.cloud.buckets == old(world.cloud.buckets)
      ensures ended.None? ==>
                Opening() && admin.Some? && b == old(b).(status := old(b.status).(phase := b.status.phase))
      ensures ended.Some? ==> Told(ended.value)
      ensures weather.Calm? && cfg.adminSecret.ns != "" ==> ended.None?
      ensures old(b.status.phase == PhaseReady && b.status.observedGeneration == b.generation
              && AdminOf(cfg, world).Some?) && ended.None? ==>
                world == old(world) && history == old(history) && b == old(b)
    {
      hide Inv, Trace, Tidy, Provisioned, StatusFits, OnlyMarks, WellFormed, Endures, Reported;
      ghost var w := world;
      MarkOpening();
      ghost var v := world;
      var creds := AdminForPass();
      MarksCompose(cfg, w, v, world, self);
      if creds.Err? {
        var end := StopHere(creds.error, w);
        return Some(end);
      }
      var e := Read();
      if e.Some? {
        var end := StopHere(e.value, w);
        return Some(end);
      }
      return None;
    }

    method MarkOpening()
      requires Opening()
      modifies `world, `calls, `history, `b
      ensures Opening() && OnlyMarks(cfg, old(world), world, self) && world.cloud == old(world.cloud)
      ensures AdminOf(cfg, world) == AdminOf(cfg, old(world))
      ensures b == old(b).(status := old(b.status).(phase := b.status.phase))
      ensures old(b.status.phase == PhaseReady && b.status.observedGeneration == b.generation) ==>
                b == old(b) && world == old(world) && history == old(history)
    {
      hide Inv, Trace, Tidy, Provisioned, StatusFits, OnlyMarks, WellFormed;
      ghost var w := world;
      MarkProvisioning();
      StatusMarks(cfg, w, world, b.status, self);
    }

    method AdminForPass() returns (r: Result<AdminCreds, Error>)
      requires Held()
      modifies `world, `calls, `history, `admin
      ensures Held() && world.cluster.crs == old(world.cluster.crs) && OnlyMarks(cfg, old(world), world, self)
      ensures world.cloud.buckets == old(world.cloud.buckets)
      ensures r.Ok? ==> admin.Some?
      ensures weather.Calm? && cfg.adminSecret.ns != "" ==> r.Ok?
      ensures old(AdminOf(cfg, world)).Some? ==> world == old(world) && history == old(history)
    {
      hide Inv, Trace, Tidy, Provisioned, StatusFits, OnlyMarks, OnlyAdmin, WellFormed;
      ghost var v := world;
      r := EnsureAdmin();
      StatusMarks(cfg, v, v, v.cluster.crs[self].status, self);
      AdminMarks(cfg, v, v, world, self);
      StillFits(cfg, v, world, self, b.status);
    }

    method StopHere(e: Error, ghost w: World) returns (end: PassEnd)
      requires Opening() && OnlyMarks(cfg, w, world, self)
      modifies `world, `calls, `history, `b
      ensures Valid() && OnlyMarks(cfg, w, world, self) && end == EndsFailed(e) && Told(end)
      ensures world.cloud.buckets == old(world.cloud.buckets)
    {
      hide Inv, Trace, Tidy, Provisioned, StatusFits, OnlyMarks;
      ghost var v := world;
      end := Fail(e);
      StatusMarks(cfg, v, world, b.status, self);
      MarksCompose(cfg, w, v, world, self);
    }

    /** ensureBucket and the bucket's connection data; a collision waits for a human. */
    method Claim(name: string) returns (r: Result<bool, PassEnd>)
      requires Opening() && name == EffectiveName(b) && b.resolved != ""
      requires Cleared(name)
      modifies `world, `calls, `history, `b
      ensures Valid() && KeepsCredential(cfg, old(world), world, self)
      ensures r.Ok? ==>
                && Opening() && b == old(b) && Owns(cfg, world, self)
                && world.cluster == old(world.cluster) && OnlyClaim(cfg, self, old(world), world, name)
                && (r.value ==> old(name !in world.cloud.buckets))
      ensures r.Err? ==> Told(r.error)
      ensures weather.Calm? ==>
                && (r.Ok? <==> old(name in world.cloud.buckets ==>
                      OwnedBy(cfg, world.cloud.buckets[name].tags, self)
                      || (world.cloud.buckets[name].tags == UNTAGGED && world.cloud.buckets[name].objects == 0)))
                && (r.Ok? ==> (r.value <==> old(name !in world.cloud.buckets)))
      ensures weather.Calm? && old(Owns(cfg, world, self)) ==> world == old(world) && history == old(history)
    {
      hide Inv, Trace, Tidy, Provisioned, StatusFits, KeepsCredential, Endures, Reported;
      OwnerTagNotEmpty(self);
      ghost var w := world;
      var created := EnsureBucket(name);
      ClaimKeepsCredential(cfg, w, world, self, name);
      StillFits(cfg, w, world, self, b.status);
      if created.Err? {
        var end := FailClaim(created.error, w, created.error.OwnershipCollision?);
        return Err(end);
      }
      var e := GetBucket(name);
      if e.Some? {
        var end := FailClaim(e.value, w, false);
        return Err(end);
      }
      return Ok(created.value);
    }

    method FailClaim(e: Error, ghost w: World, definitive: bool) returns (end: PassEnd)
      requires Opening() && KeepsCredential(cfg, w, world, self)
      modifies `world, `calls, `history, `b
      ensures Valid() && end == EndsFailed(e) && Told(end) && KeepsCredential(cfg, w, world, self)
    {
      hide Inv, Trace, Tidy, KeyWorks, Sound;
      if definitive {
        end := RejectStep(e);
      } else {
        end := FailStep(e);
      }
    }

    /** The terminal status was written and its answer was lost: if the write took, what it says is so. */
    ghost predicate Declared(end: PassEnd, readers: seq<string>)
      reads this
    {
      && end.EndsFailed? && Reported() && b.status.ready == IsReady && b.status.degradedSince.None?
      && (history[|history| - 1].move.took ==> Served(cfg, world, self, readers))
    }

    /** Success: record what was observed and declare the Bucket ready. */
    method Conclude(name: string, c: Creds, ghost readers: seq<string>) returns (end: PassEnd)
      requires Delivered(name, c, readers) && b.resolved == name && name != "" && SpecOK(cfg, self, b) && b.finalizer
      modifies `world, `calls, `history, `b
      ensures Valid()
      ensures end.EndsReady? ==>
                && Served(cfg, world, self, readers) && b == world.cluster.crs[self]
                && b.spec == old(b.spec) && b.status.grantedReadTo == c.granted
                && EffectiveName(b) == name
      ensures end.EndsReady? || Declared(end, readers)
      ensures weather.Calm? ==> end.EndsReady?
      ensures KeyWorks(cfg, world, self) <==> KeyWorks(cfg, old(world), self)
      ensures Sound(cfg, world, self) <==> Sound(cfg, old(world), self)
      ensures world == old(world) || world == WithStatus(old(world), self, b.status)
      ensures NoLegacy(old(world)) ==> NoLegacy(world)
      ensures GrantNames(cfg, world, self, b.spec.grants) == GrantNames(cfg, old(world), self, b.spec.grants)
      ensures |history| == |old(history)| + 1 && history[..|old(history)|] == old(history) && Reported()
    {
      hide Inv, Trace, Tidy, KeyWorks, Sound, KeepsKeys, StatusFits, Provisioned, Served, Stands, GrantNames;
      ghost var w := world;
      ReadyFits(name, c, readers);
      ReadyServes(name, c, readers);
      RecordRotation();
      b := b.(status := ReadyStatus(cfg, b, name, c));
      var e := SaveStatus();
      Concluded(cfg, w, world, self, b.status);
      if e.Some? {
        return EndsFailed(e.value);
      }
      return EndsReady;
    }

    lemma ReadyFits(name: string, c: Creds, readers: seq<string>)
      requires Delivered(name, c, readers) && b.resolved == name && name != ""
      ensures StatusFits(cfg, world, self, ReadyStatus(cfg, Recorded(b), name, c))
    {
      hide Inv, Trace, Stands, Isolates;
    }

    lemma ReadyRecorded(name: string, c: Creds, readers: seq<string>)
      requires Delivered(name, c, readers) && b.resolved == name && name != "" && SpecOK(cfg, self, b) && b.finalizer
      ensures var w := WithStatus(world, self, ReadyStatus(cfg, Recorded(b), name, c));
              && Recorded(b).(status := ReadyStatus(cfg, Recorded(b), name, c)) == w.cluster.crs[self]
              && Provisioned(cfg, w, self) && AdminOf(cfg, w) == admin
              && PendingRotation(w.cluster.crs[self]) == "" && !ClonePending(w.cluster.crs[self])
              && WellFormed(w.cluster.crs[self]) && SpecOK(cfg, self, w.cluster.crs[self])
    {
      hide Inv, Trace, Stands, StatusFits, Desired, HealthKept;
    }

    lemma ReadyServes(name: string, c: Creds, readers: seq<string>)
      requires Delivered(name, c, readers) && b.resolved == name && name != "" && SpecOK(cfg, self, b) && b.finalizer
      ensures var w := WithStatus(world, self, ReadyStatus(cfg, Recorded(b), name, c));
              Served(cfg, w, self, readers)
                  && Recorded(b).(status := ReadyStatus(cfg, Recorded(b), name, c)) == w.cluster.crs[self]
    {
      hide Inv, Trace, Stands, StatusFits, Desired, HealthKept, WellFormed, SpecOK, ClonePending, PendingRotation;
      ReadyRecorded(name, c, readers);
      StandsConcluded(cfg, world, WithStatus(world, self, ReadyStatus(cfg, Recorded(b), name, c)),
          self, c.granted, readers);
    }

    /** No failure, no deleted group in the listing, no clone under way, and a name for the admin Secret. */
    ghost predicate Fair()
      reads this
    {
      weather == Calm({}) && FairTo(cfg, world, b)
    }

    /** Tag, policy, key and Secret are what a pass would make them. */
    ghost predicate Current(name: string)
      reads this
    {
      && LiveTag(world, name) && Published(world, self, b, world.cloud.buckets[name].tags.groupId.value)
      && PolicyCurrent(name, world.cloud.buckets[name].tags.groupId.value)
    }

    /** A pass over a Bucket whose name is frozen. */
    method Work(name: string) returns (end: PassEnd, ghost readers: seq<string>)
      requires Opening() && name == EffectiveName(b) == b.resolved != "" && SpecOK(cfg, self, b) && b.finalizer
      modifies `world, `calls, `history, `answers, `loose, `b, `admin
      ensures Valid() && (end.EndsReady? || Stops(end) || Declared(end, readers))
      ensures end.EndsReady? ==>
                Served(cfg, world, self, readers) && (old(Sound(cfg, world, self)) ==> KeyWorks(cfg, world, self))
      ensures old(Sound(cfg, world, self)) && loose == {} ==> Sound(cfg, world, self)
      ensures LooseExplained() && (end.EndsReady? ==> loose == {})
      ensures Tidy(weather) && old(KeyWorks(cfg, world, self)) && !KeyWorks(cfg, world, self) ==> Disclosed(end)
      ensures old(b.status.resolvedName != "" && name !in world.cloud.buckets && !b.spec.allowRecreate) ==>
                end.EndsFailed? && SparesWorkloads(cfg, old(world), world)
      ensures old(Fair()) ==>
                && (end.EndsReady? <==> old(Convergeable(cfg, world, self, b, name)))
                && (end.EndsReady? ==> Settled(cfg, world, self))
                && (old(b == world.cluster.crs[self] && Settled(cfg, world, self)) ==>
                      end.EndsReady? && OnlyReported(old(world), world, old(history), history, self))
    {
      hide Inv, Trace, Tidy, KeyWorks, Sound, Reported, Endures, Explained, KeepsKeys, StatusFits, Provisioned, Served,
        Stands, GrantNames, SparesWorkloads, WellFormed, OnlyClaim, OnlyMarks, NoLegacy, Settled, Groupable,
        Publishable, OnlyReported, Desired, UrnsOf;
      readers := [];
      ghost var w, start := world, b;
      SettledConverges(cfg, w, self);
      var g := Prepare(name);
      MarksKeepCredential(cfg, w, world, self);
      NothingLoose();
      if g.Stopped? {
        return g.end, readers;
      }
      MarksConverge(cfg, w, world, self, start, b, name);
      end, readers := ClaimAndDeliver(name);
    }

    method ClaimAndDeliver(name: string) returns (end: PassEnd, ghost readers: seq<string>)
      requires Opening() && name == EffectiveName(b) == b.resolved != "" && SpecOK(cfg, self, b) && b.finalizer
      requires admin.Some?
      requires Cleared(name)
      modifies `world, `calls, `history, `loose, `b
      ensures Valid() && (end.EndsReady? || Stops(end) || Declared(end, readers))
      ensures end.EndsReady? ==>
                Served(cfg, world, self, readers) && (old(Sound(cfg, world, self)) ==> KeyWorks(cfg, world, self))
      ensures old(Sound(cfg, world, self)) && loose == {} ==> Sound(cfg, world, self)
      ensures LooseExplained() && (end.EndsReady? ==> loose == {})
      ensures Tidy(weather) && old(KeyWorks(cfg, world, self)) && !KeyWorks(cfg, world, self) ==> Disclosed(end)
      ensures old(Fair()) ==>
                && (end.EndsReady? <==> old(Convergeable(cfg, world, self, b, name)))
                && (end.EndsReady? ==> Settled(cfg, world, self))
                && (end.EndsReady? && old(Owns(cfg, world, self) && Current(name)) ==>
                      OnlyReported(old(world), world, old(history), history, self))
    {
      hide Inv, Trace, Tidy, KeyWorks, Sound, Reported, Endures, Explained, KeepsKeys, StatusFits, Provisioned, Served,
        Stands, GrantNames, SparesWorkloads, WellFormed, OnlyClaim, OnlyMarks, NoLegacy, Settled, Groupable,
        Publishable, OnlyReported;
      readers := [];
      ghost var v := world;
      var created := Claim(name);
      NothingLoose();
      if created.Err? {
        return created.error, readers;
      }
      ClaimConverges(cfg, v, world, self, b, name);
      end, readers := Deliver(name, created.value);
    }

    method Deliver(name: string, isNew: bool) returns (end: PassEnd, ghost readers: seq<string>)
      requires Opening() && name == EffectiveName(b) == b.resolved != "" && SpecOK(cfg, self, b) && b.finalizer
      requires Owns(cfg, world, self) && admin.Some?
      modifies `world, `calls, `history, `loose, `b
      ensures Valid() && (end.EndsReady? || Stops(end) || Declared(end, readers))
      ensures end.EndsReady? ==>
                Served(cfg, world, self, readers) && (old(Sound(cfg, world, self)) ==> KeyWorks(cfg, world, self))
      ensures old(Sound(cfg, world, self)) && loose == {} ==> Sound(cfg, world, self)
      ensures LooseExplained() && (end.EndsReady? ==> loose == {})
      ensures Tidy(weather) && old(KeyWorks(cfg, world, self)) && !KeyWorks(cfg, world, self) ==> Disclosed(end)
      ensures old(Fair()) ==>
                && (end.EndsReady? <==> old(Groupable(world, b, name, isNew)
                    && !ClonesItself(cfg, b, name) && Publishable(world, self, b, name)))
                && (end.EndsReady? ==> Settled(cfg, world, self))
                && (end.EndsReady? && old(Current(name)) ==>
                      OnlyReported(old(world), world, old(history), history, self))
    {
      hide Inv, Trace, Tidy, KeyWorks, Sound, Endures, Explained, KeepsKeys, StatusFits, Provisioned, Served, Stands,
        GrantNames, WellFormed, NoLegacy, Settled, Groupable, Publishable, PolicyCurrent, Delivered, InPass,
        CloneSynced, Desired;
      var p, urns := ProvisionCredentials(name, isNew);
      readers := urns;
      if p.Halted? {
        return p.end, readers;
      }
      DeliveredIsClean(name, p.creds, readers);
      end := Conclude(name, p.creds, readers);
      NothingLoose();
      if end.EndsReady? {
        SettledNow(cfg, world, self, readers);
      }
    }

    /**
     reconcileNormal, for a Bucket just read.
     - A Ready end leaves the Bucket served, and its credential working if the group's key was the published one before.
     - While no key is loose, the group's key stays the published one.
     - Where failed calls have no effect, a working credential is lost only with a Failed status, reported.
     - A provisioned bucket found missing is left alone, with everything that belongs to it.
     - A failure is reported, holding Ready at most within the grace, unless it is the loss of the terminal answer.
     - Without failures the pass ends Ready exactly when the name can be frozen and the rest is convergeable;
       a settled Bucket gets nothing but a status report.
     */
    method ReconcileNormal() returns (end: PassEnd, ghost readers: seq<string>)
      requires Opening() && b == world.cluster.crs[self] && b.finalizer
      modifies `world, `calls, `history, `answers, `loose, `frozen, `b, `admin
      ensures Valid() && (end.EndsReady? || Stops(end) || Declared(end, readers)) && LooseExplained()
      ensures end.EndsReady? ==> Served(cfg, world, self, readers) && loose == {}
      ensures end.EndsReady? && Trusted(cfg, old(world), self) ==> KeyWorks(cfg, world, self)
      ensures Trusted(cfg, old(world), self) && loose == {} ==> Trusted(cfg, world, self)
      ensures Tidy(weather) && Works(cfg, old(world), self) && !Works(cfg, world, self) ==> Disclosed(end)
      ensures old(Missing(world, self)) ==> end.EndsFailed? && SparesWorkloads(cfg, old(world), world)
      ensures old(Fair()) ==>
                && (end.EndsReady? <==> CanConverge(cfg, old(world), self))
                && (end.EndsReady? ==> Settled(cfg, world, self))
                && (old(Settled(cfg, world, self)) ==>
                      end.EndsReady? && OnlyReported(old(world), world, old(history), history, self))
    {
      hide Inv, Trace, Tidy, KeyWorks, Sound, KeepsKeys, StatusFits, Provisioned, Served, Stands, GrantNames,
        SparesWorkloads, WellFormed, OnlyClaim, OnlyMarks, NoLegacy, Settled, Groupable, Publishable, Obtainable,
        OnlyReported, Frozen, ValidName, Reported, Endures, Explained;
      readers := [];
      ghost var w, start := world, b;
      SettledConverges(cfg, w, self);
      var name := ResolveName();
      NamingKeeps(cfg, w, world, self);
      if name.Err? {
        FrozenMarksKeep(cfg, w, world, self);
        NothingLoose();
        return name.error, readers;
      }
      FrozenIsHarmless(cfg, w, self, b);
      ghost var v := world;
      end, readers := Work(name.value);
      SparesThrough(cfg, w, v, world);
      TraceIsFrozen(cfg, self, Log(origin, answers, loose, frozen), history, world);
      OnlyObjectsWork(cfg, world, self);
    }

    lemma NothingLoose()
      requires loose == {}
      ensures LooseExplained()
    {
    }

    /******* Teardown *******/

    /** bucketOwnedByUs: the tags decide; an untagged bucket is nobody's. */
    method BucketOwned(name: string) returns (r: Result<bool, Error>)
      requires Closing()
      modifies `world, `calls, `history, `admin
      ensures Closing() && OnlyMarks(cfg, old(world), world, self) && world.cluster.crs == old(world.cluster.crs)
      ensures r.Ok? ==> name in world.cloud.buckets && (r.value <==> OwnedBy(cfg, world.cloud.buckets[name].tags, self))
      ensures weather.Calm? && cfg.adminSecret.ns != "" && old(name in world.cloud.buckets) ==> r.Ok?
      ensures old(AdminOf(cfg, world)).Some? ==> world == old(world) && history == old(history)
      ensures r.Ok? ==> AdminOf(cfg, world).Some?
    {
      hide Inv, Trace, Tidy, Provisioned, StatusFits, OnlyMarks, WellFormed;
      var creds :- AdminForPass();
      var e := NewS3Admin(name);
      if e.Some? {
        return Err(e.value);
      }
      e := Read();
      if e.Some? {
        return Err(e.value);
      }
      return Ok(OwnedBy(cfg, world.cloud.buckets[name].tags, self));
    }

    /** assertBucketEmpty: the data-loss guard looks at current objects. */
    method AssertEmpty(name: string) returns (r: Result<(), Error>)
      requires Closing()
      modifies `world, `calls, `history, `admin
      ensures Closing() && OnlyMarks(cfg, old(world), world, self) && world.cluster.crs == old(world.cluster.crs)
      ensures r.Ok? ==> name in world.cloud.buckets && world.cloud.buckets[name].objects == 0
      ensures weather.Calm? && cfg.adminSecret.ns != "" && old(name in world.cloud.buckets) ==>
                (r.Ok? <==> old(world.cloud.buckets[name].objects) == 0)
    {
      hide Inv, Trace, Tidy, Provisioned, StatusFits, OnlyMarks, WellFormed;
      var creds :- AdminForPass();
      var e := NewS3Admin(name);
      if e.Some? {
        return Err(e.value);
      }
      e := Read();
      if e.Some? {
        return Err(e.value);
      }
      if world.cloud.buckets[name].objects != 0 {
        return Err(BucketNotEmpty);
      }
      return Ok(());
    }

    /** wipeBucket: remove every object and version of an owned bucket, on request. */
    method WipeBucket(name: string) returns (r: Result<(), Error>)
      requires Closing() && name == EffectiveName(b) && MayWipe(cfg, world, self)
      modifies `world, `calls, `history, `admin
      ensures Closing() && Releases(cfg, old(world), world, self)
      ensures world.cloud.groups == old(world.cloud.groups)
      ensures r.Ok? ==>
                && name in world.cloud.buckets && world.cloud.buckets[name].objects == 0
                && world.cloud.buckets[name].versions == 0
      ensures name in world.cloud.buckets && world.cloud.buckets[name].tags == old(world.cloud.buckets[name].tags)
      ensures weather.Calm? ==> r.Ok?
    {
      hide Inv, Trace, Tidy, Provisioned, WellFormed, Releases, StatusFits, Endures, Reported, OwnedBy, AdminOf, Names;
      ghost var w := world;
      StatusReleases(cfg, w, w, w.cluster.crs[self].status, self);
      var e := NewS3Admin(name);
      if e.Some? {
        return Err(e.value);
      }
      var _ := SaveStatus();
      StatusReleases(cfg, w, world, b.status, self);
      e := Read();
      if e.Some? {
        return Err(e.value);
      }
      ghost var v := world;
      var removed, objects, versions := RemoveAll(name);
      ContentsRelease(cfg, v, self, name, objects, versions);
      ReleasesCompose(cfg, w, v, world, self);
      return removed;
    }

    method RemoveAll(name: string) returns (r: Result<(), Error>, ghost objects: nat, ghost versions: nat)
      requires Closing() && name == EffectiveName(b) && MayWipe(cfg, world, self)
      modifies `world, `calls, `history
      ensures Closing() && name in old(world.cloud.buckets)
      ensures objects <= old(world.cloud.buckets[name].objects) && versions <= old(world.cloud.buckets[name].versions)
      ensures world == WithContents(old(world), name, objects, versions)
      ensures r.Ok? ==> objects == 0 && versions == 0
      ensures weather.Calm? ==> r.Ok?
    {
      hide Inv, Trace, Tidy, Provisioned, WellFormed;
      objects, versions := world.cloud.buckets[name].objects, world.cloud.buckets[name].versions;
      assert world.cloud.buckets[name := world.cloud.buckets[name]] == world.cloud.buckets;
      while world.cloud.buckets[name].objects > 0 || world.cloud.buckets[name].versions > 0
        invariant Closing() && MayWipe(cfg, world, self)
        invariant objects <= old(world.cloud.buckets[name].objects)
        invariant versions <= old(world.cloud.buckets[name].versions)
        invariant world == WithContents(old(world), name, objects, versions)
        decreases objects + versions
      {
        var current := world.cloud.buckets[name].objects > 0;
        var e := Write(RemoveObject(name, current));
        objects, versions := world.cloud.buckets[name].objects, world.cloud.buckets[name].versions;
        if e.Some? {
          return Err(e.value), objects, versions;
        }
      }
      return Ok(()), objects, versions;
    }

    /** prepareBucketForDelete: an authorised wipe, or else the empty-only guard. */
    method PrepareForDelete(name: string) returns (r: Result<(), Error>)
      requires Closing() && name == EffectiveName(b)
      modifies `world, `calls, `history, `admin
      ensures Closing() && Releases(cfg, old(world), world, self)
      ensures r.Ok? ==> name in world.cloud.buckets && world.cloud.buckets[name].objects == 0
      ensures name in world.cloud.buckets <==> old(name in world.cloud.buckets)
      ensures !old(MayWipe(cfg, world, self)) ==>
                SparesWorkloads(cfg, old(world), world) && world.cluster.crs == old(world.cluster.crs)
                    && world.cloud.buckets == old(world.cloud.buckets)
      ensures weather.Calm? && cfg.adminSecret.ns != "" && old(name in world.cloud.buckets) ==>
                && name in world.cloud.buckets
                && (r.Ok? <==> old(MayWipe(cfg, world, self) || world.cloud.buckets[name].objects == 0))
                && (r.Ok? ==> world.cloud.buckets[name].versions == if old(MayWipe(cfg, world, self)) then 0
                    else old(world.cloud.buckets[name].versions))
    {
      hide Inv, Trace, Tidy, Provisioned, WellFormed, Releases, StatusFits, OnlyMarks, SparesWorkloads;
      ghost var w := world;
      StatusReleases(cfg, w, w, w.cluster.crs[self].status, self);
      SparesItself(cfg, w);
      if b.spec.wipeOnDelete && cfg.wipeGate {
        var owned := BucketOwned(name);
        MarksRelease(cfg, w, world, self);
        if owned.Err? {
          return Err(owned.error);
        }
        if owned.value {
          ghost var v := world;
          r := WipeBucket(name);
          ReleasesCompose(cfg, w, v, world, self);
          return;
        }
      }
      ghost var v := world;
      r := AssertEmpty(name);
      MarksRelease(cfg, v, world, self);
      ReleasesCompose(cfg, w, v, world, self);
      SparesThrough(cfg, w, v, world);
    }

    /** The group of the own bucket holds no key, and is gone unless the call to delete it met a page and spared it. */
    ghost predicate Released()
      reads this
    {
      Owns(cfg, world, self) ==>
        && Unkeyed(world, OwnBucket(cfg, world, self))
        && (TagVacant(world, OwnBucket(cfg, world, self)) || Paged(weather))
        && GroupFirst(history, Turn(world, Call(self, DeleteBucket(EffectiveName(b)), true)), |history|)
    }

    /** releaseWorkloadGroup: the keys and the group the bucket attributes to this Bucket, and no other. */
    method ReleaseGroup(name: string) returns (r: Result<(), Error>)
      requires Closing() && name == EffectiveName(b)
      modifies `world, `calls, `history, `admin
      ensures Closing() && Releases(cfg, old(world), world, self) && world.cluster.crs == old(world.cluster.crs)
      ensures r.Ok? ==> AdminOf(cfg, world).Some? && Released()
      ensures name in world.cloud.buckets <==> old(name in world.cloud.buckets)
      ensures name in world.cloud.buckets ==>
                world.cloud.buckets[name] == old(world.cloud.buckets[name]).(tags := world.cloud.buckets[name].tags)
      ensures weather.Calm? && cfg.adminSecret.ns != "" && old(name in world.cloud.buckets) ==> r.Ok?
    {
      hide Inv, Trace, Tidy, Provisioned, WellFormed, Releases, StatusFits, OnlyMarks, SparesWorkloads, Licensed,
        Accepts, Effect, OnlyTags;
      ghost var w := world;
      var creds := AdminForPass();
      MarksRelease(cfg, w, world, self);
      if creds.Err? {
        return Err(creds.error);
      }
      ghost var v := world;
      var group := GroupToRelease(name);
      ReleasesCompose(cfg, w, v, world, self);
      if group.Err? {
        return Err(group.error);
      }
      if group.value.None? {
        return Ok(());
      }
      ghost var x := world;
      r := DropGroup(group.value.value);
      ReleasesCompose(cfg, w, x, world, self);
    }

    /** The group the bucket attributes to this Bucket; a foreign bucket, or none to attribute, is no error. */
    method GroupToRelease(name: string) returns (r: Result<Option<nat>, Error>)
      requires Closing() && name == EffectiveName(b) && AdminOf(cfg, world).Some?
      modifies `world, `calls, `history
      ensures Closing() && Releases(cfg, old(world), world, self) && world.cluster.crs == old(world.cluster.crs)
      ensures AdminOf(cfg, world).Some?
      ensures r.Ok? && r.value.Some? ==> Attributed(cfg, world, self, r.value.value)
      ensures r.Ok? && r.value.None? && Owns(cfg, world, self) ==> TagVacant(world, OwnBucket(cfg, world, self))
      ensures name in world.cloud.buckets <==> old(name in world.cloud.buckets)
      ensures name in world.cloud.buckets ==>
                world.cloud.buckets[name] == old(world.cloud.buckets[name]).(tags := world.cloud.buckets[name].tags)
      ensures weather.Calm? && old(name in world.cloud.buckets) ==> r.Ok?
    {
      hide Inv, Trace, Tidy, Provisioned, WellFormed, Releases, StatusFits, OnlyMarks, SparesWorkloads, Licensed,
        Accepts, Effect, OnlyTags, Names, GroupFirst;
      ghost var w := world;
      StatusReleases(cfg, w, w, w.cluster.crs[self].status, self);
      var listed :- ListGroups();
      var group := ResolveWorkloadGroup(self, name, listed, false, false);
      TagsRelease(cfg, w, world, self, name);
      StillFits(cfg, w, world, self, b.status);
      if group.Ok? {
        return Ok(Some(group.value.id));
      }
      if group.error.GroupNotAttributable? || group.error.BucketNotOwned? {
        return Ok(None);
      }
      return Err(group.error);
    }

    method DropGroup(g: nat) returns (r: Result<(), Error>)
      requires Closing() && Attributed(cfg, world, self, g)
      modifies `world, `calls, `history
      ensures Closing() && Releases(cfg, old(world), world, self) && world.cluster.crs == old(world.cluster.crs)
      ensures world.cloud.buckets == old(world.cloud.buckets)
      ensures r.Ok? ==> Gone(g)
      ensures weather.Calm? ==> r.Ok? && g !in world.cloud.groups
    {
      hide Inv, Trace, Tidy, Provisioned, WellFormed, StatusFits, Releases, OnlyDrops, Licensed, Accepts, Effect;
      ghost var w := world;
      var cleared := DeleteAllKeys(g);
      DropsRelease(cfg, w, world, self, g);
      StillFits(cfg, w, world, self, b.status);
      if cleared.Some? {
        return Err(cleared.value);
      }
      ghost var v := world;
      var e := RemoveGroup(g);
      ReleasesCompose(cfg, w, v, world, self);
      if e.Some? {
        return Err(e.value);
      }
      return Ok(());
    }

    /** The group is gone, or the last call was to delete it and left it in place, without keys. */
    ghost predicate Gone(g: nat)
      reads this
    {
      g in world.cloud.groups ==>
        && world.cloud.groups[g].keys == {} && history != [] && Leaves(history[|history| - 1], DeleteGroup(g))
        && Paged(weather)
    }

    /** DeleteCredentialsGroup; any 404 passes for deleted, a gateway's page included. */
    method RemoveGroup(g: nat) returns (e: Option<Error>)
      requires Closing() && Attributed(cfg, world, self, g)
      requires g in world.cloud.groups ==> world.cloud.groups[g].keys == {}
      modifies `world, `calls, `history
      ensures Closing() && Releases(cfg, old(world), world, self) && world.cluster.crs == old(world.cluster.crs)
      ensures world.cloud.buckets == old(world.cloud.buckets)
      ensures e.None? ==> Gone(g) && (g in world.cloud.groups ==> PageAt(weather, old(calls)))
      ensures weather.Calm? ==> e.None? && g !in world.cloud.groups
    {
      hide Inv, Trace, Tidy, Provisioned, WellFormed, StatusFits;
      ghost var w := world;
      assert w.cluster.crs[self := w.cluster.crs[self]] == w.cluster.crs;
      e := Write(DeleteGroup(g));
      StillFits(cfg, w, world, self, b.status);
      if e.Some? && StatusCode(e.value) == 404 {
        return None;
      }
    }

    /** deleteBucketIfOwned: a bucket that is not this Bucket's stays. */
    method DeleteBucketIfOwned(name: string) returns (r: Result<(), Error>)
      requires Closing() && name == EffectiveName(b) && AdminOf(cfg, world).Some? && Released()
      modifies `world, `calls, `history, `admin
      ensures Closing() && Releases(cfg, old(world), world, self)
      ensures r.Ok? && name in world.cloud.buckets ==>
                !OwnedBy(cfg, world.cloud.buckets[name].tags, self)
                || (Left(history, DeleteBucket(name)) && Paged(weather))
      ensures weather.Calm? && cfg.adminSecret.ns != "" && old(Owns(cfg, world, self)) ==>
                (r.Ok? <==> old(world.cloud.buckets[name].objects == 0 && world.cloud.buckets[name].versions == 0))
                && (r.Ok? <==> name !in world.cloud.buckets)
    {
      hide Inv, Trace, Tidy, Provisioned, WellFormed, Releases, StatusFits, OnlyMarks, SparesWorkloads;
      ghost var w := world;
      var owned := BucketOwned(name);
      MarksRelease(cfg, w, world, self);
      if owned.Err? {
        return Err(owned.error);
      }
      if !owned.value {
        return Ok(());
      }
      ghost var v := world;
      r := RemoveBucket(name);
      ReleasesCompose(cfg, w, v, world, self);
    }

    /** DeleteBucket; any 404 passes for deleted, a gateway's page included. */
    method RemoveBucket(name: string) returns (r: Result<(), Error>)
      requires Closing() && name == EffectiveName(b) && Owns(cfg, world, self) && Released()
      modifies `world, `calls, `history
      ensures Closing() && Releases(cfg, old(world), world, self)
      ensures r.Ok? && name in world.cloud.buckets ==>
                Left(history, DeleteBucket(name)) && PageAt(weather, old(calls))
      ensures weather.Calm? ==>
                (r.Ok? <==> old(world.cloud.buckets[name].objects == 0 && world.cloud.buckets[name].versions == 0))
                && (r.Ok? <==> name !in world.cloud.buckets)
    {
      hide Inv, Trace, Tidy, Provisioned, WellFormed, StatusFits;
      ghost var w := world;
      assert w.cluster.crs[self := w.cluster.crs[self]] == w.cluster.crs;
      var e := Write(DeleteBucket(name));
      StillFits(cfg, w, world, self, b.status);
      if e.Some? && StatusCode(e.value) != 404 {
        return Err(e.value);
      }
      return Ok(());
    }

    /** deleteSecret: absence is fine, and the admin Secret is never touched. */
    method RemoveSecret() returns (r: Result<(), Error>)
      requires Closing()
      modifies `world, `calls, `history
      ensures Closing() && Releases(cfg, old(world), world, self) && world.cloud == old(world.cloud)
      ensures r.Ok? && SecretKey(self, b) != cfg.adminSecret ==> SecretKey(self, b) !in world.cluster.secrets
      ensures weather.Calm? ==> r.Ok?
      ensures world.cluster.crs == old(world.cluster.crs)
      ensures |history| >= |old(history)| && history[..|old(history)|] == old(history)
    {
      hide Inv, Trace, Tidy, Provisioned, WellFormed, StatusFits;
      ghost var w := world;
      assert w.cluster.crs[self := w.cluster.crs[self]] == w.cluster.crs;
      if SecretKey(self, b) == cfg.adminSecret {
        return Ok(());
      }
      var e := Write(DeleteSecret(SecretKey(self, b)));
      StillFits(cfg, w, world, self, b.status);
      if e.Some? && !e.value.KubeNotFound? {
        return Err(e.value);
      }
      return Ok(());
    }

    /** deleteCloneArtifacts at the start of a teardown: nothing may keep writing into the bucket. */
    method StopClone() returns (r: Result<(), Error>)
      requires Closing()
      modifies `world, `calls, `history
      ensures Closing() && Releases(cfg, old(world), world, self) && world.cloud == old(world.cloud)
      ensures world.cluster.crs == old(world.cluster.crs) && world.cluster.secrets == old(world.cluster.secrets)
      ensures r.Ok? ==> self !in world.cluster.jobs
      ensures weather.Calm? ==> r.Ok?
    {
      hide Inv, Trace, Tidy, Provisioned, WellFormed, StatusFits, Licensed, Fits, KeepsLoose;
      ghost var w := world;
      assert w.cluster.crs[self := w.cluster.crs[self]] == w.cluster.crs;
      JobMayGo();
      var e := Write(DeleteJob);
      StillFits(cfg, w, world, self, b.status);
      if e.Some? && !e.value.KubeNotFound? {
        return Err(e.value);
      }
      e := Read();
      if e.Some? {
        return Err(e.value);
      }
      return Ok(());
    }

    /** The provider's side of a teardown, once the listing has shown the bucket. */
    method ReleaseCloud(name: string) returns (r: Result<(), Error>)
      requires Closing() && name == EffectiveName(b)
      modifies `world, `calls, `history, `admin
      ensures Closing() && Releases(cfg, old(world), world, self)
      ensures r.Ok? && name in world.cloud.buckets ==>
                !OwnedBy(cfg, world.cloud.buckets[name].tags, self)
                || (Left(history, DeleteBucket(name)) && Paged(weather))
      ensures !Paged(weather) && (r.Ok? || (old(name in world.cloud.buckets) && name !in world.cloud.buckets)) ==>
                Vacated(cfg, old(world), world, self)
      ensures old(name in world.cloud.buckets && world.cloud.buckets[name].objects > 0
              && !MayWipe(cfg, world, self)) ==>
                r.Err? && SparesWorkloads(cfg, old(world), world) && world.cluster.crs == old(world.cluster.crs)
      ensures weather.Calm? && cfg.adminSecret.ns != "" && old(Owns(cfg, world, self)) ==>
                (r.Ok? <==> old(MayWipe(cfg, world, self)
                    || (world.cloud.buckets[name].objects == 0 && world.cloud.buckets[name].versions == 0)))
                && (r.Ok? ==> name !in world.cloud.buckets)
    {
      hide Inv, Trace, Tidy, Provisioned, WellFormed, Releases, StatusFits, OnlyMarks, SparesWorkloads, TagVacant,
        Vacated;
      ghost var w := world;
      var prepared := PrepareForDelete(name);
      OwnsThrough(cfg, w, world, self);
      if prepared.Err? {
        return Err(prepared.error);
      }
      ghost var v := world;
      var released := ReleaseGroup(name);
      ReleasesCompose(cfg, w, v, world, self);
      OwnsThrough(cfg, v, world, self);
      if released.Err? {
        return Err(released.error);
      }
      ghost var x := world;
      if !Paged(weather) {
        VacantIsVacated(cfg, w, x, self);
      }
      r := DeleteBucketIfOwned(name);
      VacatedThrough(cfg, w, x, world, self);
      ReleasesCompose(cfg, w, x, world, self);
    }

    /**
     teardown. `seen` is what the listing said about the bucket.
     Whatever fails, the teardown only ever moves downwards, so it can be taken up again; a bucket
     with a current object that may not be wiped blocks it before anything is removed.
     */
    method Teardown() returns (r: Result<(), Error>, ghost seen: bool)
      requires Closing()
      modifies `world, `calls, `history, `admin
      ensures Closing() && Releases(cfg, old(world), world, self)
      ensures seen && old(Guarded(cfg, world, self)) ==>
                r.Err? && SparesWorkloads(cfg, old(world), world) && world.cluster.crs == old(world.cluster.crs)
      ensures r.Ok? && SecretKey(self, b) != cfg.adminSecret ==> SecretKey(self, b) !in world.cluster.secrets
      // an owned bucket the listing showed is gone or its deletion left it in place; what it hid is still there
      ensures r.Ok? && old(InView(cfg, world, self, seen)) && EffectiveName(b) in world.cloud.buckets ==>
                Left(history, DeleteBucket(EffectiveName(b))) && Paged(weather)
      ensures !Paged(weather) && EffectiveName(b) !in world.cloud.buckets
              && (r.Ok? || old(EffectiveName(b) in world.cloud.buckets)) ==>
                Vacated(cfg, old(world), world, self)
      ensures r.Ok? && !seen ==> world.cloud == old(world.cloud)
      ensures weather.Calm? ==> (seen <==> old(EffectiveName(b) in world.cloud.buckets))
      ensures weather.Calm? && cfg.adminSecret.ns != ""
              && old(EffectiveName(b) in world.cloud.buckets ==> Owns(cfg, world, self)) ==>
                && (r.Ok? <==> old(Removable(cfg, world, self)))
                && (r.Ok? ==> EffectiveName(b) !in world.cloud.buckets && Vacated(cfg, old(world), world, self))
    {
      hide Inv, Trace, Tidy, Provisioned, WellFormed, Releases, StatusFits, OnlyMarks, SparesWorkloads, Vacated;
      var name := EffectiveName(b);
      ghost var w := world;
      seen := false;
      var stopped := StopClone();
      SparesJobs(cfg, w, world);
      if stopped.Err? {
        return Err(stopped.error), seen;
      }
      ghost var v := world;
      var listed := HasBucket(name);
      if listed.Err? {
        return Err(listed.error), seen;
      }
      seen := listed.value;
      if listed.value {
        var released := ReleaseCloud(name);
        AttributedAsBefore(cfg, w, v, world, self);
        ReleasesCompose(cfg, w, v, world, self);
        SparesThrough(cfg, w, v, world);
        if released.Err? {
          return Err(released.error), seen;
        }
      }
      OwnsThrough(cfg, w, world, self);
      ghost var x, h := world, history;
      r := RemoveSecret();
      LeftGrows(h, history, DeleteBucket(name));
      NoneIsVacated(cfg, w, x, self);
      VacatedThrough(cfg, w, x, world, self);
      ReleasesCompose(cfg, w, x, world, self);
    }

    /** reconcileDelete: tear down, then let the object go. */
    method ReconcileDelete(admitted: bool) returns (end: PassEnd, ghost seen: bool)
      requires Closing() && b == world.cluster.crs[self]
      modifies `world, `calls, `history, `b, `admin
      ensures Valid() && !end.EndsReady? && (end.EndsWaiting? ==> !admitted)
      ensures end.EndsGone? && old(b.finalizer) ==> self !in world.cluster.crs
      // as long as the object is there, the teardown can be taken up again
      ensures self in world.cluster.crs ==> Releases(cfg, old(world), world, self)
      // the object goes last, after its Secret
      ensures self !in world.cluster.crs ==> LetGoOf(cfg, old(world), world, self, seen, history)
      ensures Thorough(cfg, weather, old(world), world, self, seen)
      ensures seen && old(Guarded(cfg, world, self)) ==>
                end.EndsFailed? && SparesWorkloads(cfg, old(world), world) && self in world.cluster.crs
      ensures weather.Calm? && admitted && cfg.adminSecret.ns != ""
              && old(b.finalizer && (EffectiveName(b) in world.cloud.buckets ==> Owns(cfg, world, self))) ==>
                && (end.EndsGone? <==> old(Removable(cfg, world, self)))
                && (end.EndsGone? ==> Removed(cfg, old(world), world, self))
    {
      hide Inv, Trace, Tidy, Provisioned, WellFormed, Releases, StatusFits, OnlyMarks, SparesWorkloads;
      ghost var w := world;
      seen := false;
      StatusReleases(cfg, w, w, w.cluster.crs[self].status, self);
      SparesItself(cfg, w);
      if !b.finalizer {
        return EndsGone, seen;
      }
      if b.status.phase != PhaseDeleting && b.status.phase != PhaseFailed {
        var e := MarkDeleting();
        StatusReleases(cfg, w, world, b.status, self);
        if e.Some? {
          SparesJobs(cfg, w, world);
          return EndsFailed(e.value), seen;
        }
      }
      if !admitted {
        return EndsWaiting, seen;
      }
      end, seen := TeardownAndLetGo(w);
    }

    method TeardownAndLetGo(ghost w: World) returns (end: PassEnd, ghost seen: bool)
      requires Closing() && Inv(cfg, w) && Releases(cfg, w, world, self) && world.cloud == w.cloud
      requires world.cluster.secrets == w.cluster.secrets
      requires world.cluster.crs[self].spec == w.cluster.crs[self].spec
      requires EffectiveName(world.cluster.crs[self]) == EffectiveName(w.cluster.crs[self])
      modifies `world, `calls, `history, `b, `admin
      ensures Valid() && !end.EndsReady? && !end.EndsWaiting? && (end.EndsGone? ==> self !in world.cluster.crs)
      ensures self in world.cluster.crs ==> Releases(cfg, w, world, self)
      ensures self !in world.cluster.crs ==> LetGoOf(cfg, w, world, self, seen, history)
      ensures Thorough(cfg, weather, w, world, self, seen)
      ensures seen && Guarded(cfg, w, self) ==>
                end.EndsFailed? && SparesWorkloads(cfg, w, world) && self in world.cluster.crs
      ensures weather.Calm? && cfg.adminSecret.ns != ""
              && (EffectiveName(old(b)) in w.cloud.buckets ==> Owns(cfg, w, self)) ==>
                && (end.EndsGone? <==> Removable(cfg, w, self))
                && (end.EndsGone? ==> Removed(cfg, w, world, self))
    {
      hide Inv, Trace, Tidy, Provisioned, WellFormed, Releases, StatusFits, OnlyMarks, SparesWorkloads, LetGoOf,
        Removed, Vacated, Left;
      ghost var v := world;
      SparesJobs(cfg, w, v);
      var done, shown := Teardown();
      seen := shown;
      ReleasesCompose(cfg, w, v, world, self);
      SparesThrough(cfg, w, v, world);
      ghost var x := world;
      ReleasedAll(cfg, w, x, self);
      AttributedAsBefore(cfg, w, v, x, self);
      if done.Err? {
        end := FailTeardown(done.error, w);
        VacatedAlike(cfg, w, x, world, self);
        return;
      }
      ghost var h := history;
      var e := LetGo();
      LeftGrows(h, history, DeleteBucket(EffectiveName(b)));
      VacatedAlike(cfg, w, x, world, self);
      if self !in world.cluster.crs {
        ObjectWent(cfg, w, v, x, world, self, seen, history);
      }
      if e.Some? {
        return EndsFailed(e.value), seen;
      }
      return EndsGone, seen;
    }

    method FailTeardown(e: Error, ghost w: World) returns (end: PassEnd)
      requires Closing() && Inv(cfg, w) && Releases(cfg, w, world, self)
      modifies `world, `calls, `history, `b
      ensures Valid() && end == EndsFailed(e) && self in world.cluster.crs && Releases(cfg, w, world, self)
      ensures world.cloud == old(world.cloud)
      ensures SparesWorkloads(cfg, w, old(world)) ==> SparesWorkloads(cfg, w, world)
    {
      hide Inv, Trace, Tidy, Provisioned, WellFormed, Releases, StatusFits, SparesWorkloads, Endures;
      ghost var x := world;
      end := Fail(e);
      StatusReleases(cfg, x, world, b.status, self);
      ReleasesCompose(cfg, w, x, world, self);
      SparesJobs(cfg, x, world);
      SparesThrough(cfg, w, x, world);
    }

    method MarkDeleting() returns (e: Option<Error>)
      requires Closing() && b.status.phase != PhaseFailed
      modifies `world, `calls, `history, `b
      ensures Closing() && b == old(b).(status := old(b.status).(phase := PhaseDeleting))
      ensures world == old(world) || world == WithStatus(old(world), self, b.status)
      ensures weather.Calm? ==> e.None?
    {
      hide Inv, Trace, Tidy;
      b := b.(status := b.status.(phase := PhaseDeleting));
      e := SaveStatus();
    }

    /** dropFinalizer. */
    method LetGo() returns (e: Option<Error>)
      requires Closing()
      modifies `world, `calls, `history
      ensures Valid() && world.cloud == old(world.cloud) && world.cluster.secrets == old(world.cluster.secrets)
      ensures self in world.cluster.crs ==> world == old(world)
      ensures |history| >= |old(history)| && history[..|old(history)|] == old(history)
      ensures e.None? ==> self !in world.cluster.crs
      ensures weather.Calm? ==> e.None?
    {
      hide Inv, Trace, Tidy, Provisioned, WellFormed, StatusFits;
      e := Write(PutMeta(b.resolved, false));
    }

    /******* Reconcile *******/

    method AddFinalizer() returns (e: Option<Error>)
      requires Opening() && b == world.cluster.crs[self]
      modifies `world, `calls, `history, `b
      ensures Valid() && (world == old(world) || world == WithFinalizer(old(world), self))
      ensures |history| == |old(history)| + 1 && history[|old(history)|].move.Call?
      ensures history[|old(history)|].move.write.PutMeta?
      ensures e.None? ==>
                && Opening() && b == old(b).(finalizer := true) == world.cluster.crs[self]
                && world == WithFinalizer(old(world), self)
      ensures weather.Calm? ==> e.None?
    {
      hide Inv, Trace, Tidy, Provisioned;
      e := Write(PutMeta(b.resolved, true));
      if e.None? {
        b := b.(finalizer := true);
      }
    }

    /** holdForProvider: the breaker is open, so only the Bucket's health is recorded. */
    method HoldForProvider(recorded: int)
      requires Opening() && b == world.cluster.crs[self]
      modifies `world, `calls, `history, `b
      ensures Valid() && OnlyMarks(cfg, old(world), world, self) && world.cloud == old(world.cloud)
      ensures world.cluster.secrets == old(world.cluster.secrets)
      ensures b == old(b).(status := AfterHold(cfg.grace, old(b), now, recorded))
      ensures world == old(world) || world == WithStatus(old(world), self, b.status)
      ensures if HoldNeedsWrite(cfg.grace, old(b.status), now) then Reported()
              && history[..|history| - 1] == old(history)
              else world == old(world) && history == old(history)
    {
      hide Inv, Trace, Tidy, Provisioned, WellFormed, StatusFits, OnlyMarks;
      ghost var w := world;
      FailureFits(cfg, world, self, b, ProviderHeld, recorded);
      StatusMarks(cfg, w, w, b.status, self);
      if HoldNeedsWrite(cfg.grace, b.status, now) {
        b := b.(status := AfterHold(cfg.grace, b, now, recorded));
        var _ := SaveStatus();
        StatusMarks(cfg, w, world, b.status, self);
      }
    }

    /** The same, seen from the credential's side. */
    method Hold(recorded: int)
      requires Opening() && b == world.cluster.crs[self]
      modifies `world, `calls, `history, `b
      ensures Valid() && SparesWorkloads(cfg, old(world), world) && self in world.cluster.crs
      ensures Trusted(cfg, world, self) <==> Trusted(cfg, old(world), self)
      ensures Works(cfg, world, self) <==> Works(cfg, old(world), self)
      ensures b == old(b).(status := AfterHold(cfg.grace, old(b), now, recorded))
      ensures if HoldNeedsWrite(cfg.grace, old(b.status), now) then Reported()
              && history[..|history| - 1] == old(history)
              else world == old(world) && history == old(history)
    {
      hide Inv, Trace, Tidy, WellFormed, StatusFits, OnlyMarks, Trusted, Works, SparesWorkloads, AfterHold, Reported,
        KeyWorks, Sound;
      ghost var v := world;
      HoldForProvider(recorded);
      MarksKeepTrust(cfg, v, world, self);
      MarksKeepCredential(cfg, v, world, self);
    }

    /** Reconcile for a Bucket that is not being deleted: finalizer first, then the breaker, then the pass. */
    method Visit(admitted: bool, recorded: int) returns (end: PassEnd, ghost readers: seq<string>)
      requires Opening() && b == world.cluster.crs[self] && history == []
      modifies `world, `calls, `history, `answers, `loose, `frozen, `b, `admin
      ensures Valid() && LooseExplained()
      ensures admitted ==> end.EndsReady? || Stops(end) || Declared(end, readers) || Unreported(end)
      ensures !admitted ==> (end.EndsWaiting? && Waited(old(b), recorded)) || Unreported(end)
      ensures end.EndsReady? ==> Served(cfg, world, self, readers) && loose == {}
      ensures end.EndsReady? && Trusted(cfg, old(world), self) ==> KeyWorks(cfg, world, self)
      ensures Trusted(cfg, old(world), self) && loose == {} ==> Trusted(cfg, world, self)
      ensures Tidy(weather) && Works(cfg, old(world), self) && !Works(cfg, world, self) ==> Disclosed(end)
      ensures old(Missing(world, self)) ==> !end.EndsReady? && SparesWorkloads(cfg, old(world), world)
      ensures old(Fair()) && admitted ==>
                && (end.EndsReady? <==> old(CanConverge(cfg, world, self)))
                && (end.EndsReady? ==> Settled(cfg, world, self))
                && (old(Settled(cfg, world, self)) ==>
                      end.EndsReady? && OnlyReported(old(world), world, old(history), history, self))
    {
      hide Inv, Trace, Tidy, KeyWorks, Sound, StatusFits, Served, WellFormed, OnlyMarks, NoLegacy, Settled,
        OnlyReported, SparesWorkloads, CanConverge, Frozen, Reported, Endures, Trusted, Works, Missing;
      readers := [];
      ghost var w := world;
      NothingLoose();
      SparesItself(cfg, w);
      SettledConverges(cfg, w, self);
      FinalizerIsHarmless(cfg, w, self);
      if !b.finalizer {
        var e := AddFinalizer();
        if e.Some? {
          return EndsFailed(e.value), readers;
        }
      }
      ghost var v := world;
      if !admitted {
        Hold(recorded);
        SparesThrough(cfg, w, v, world);
        return EndsWaiting, readers;
      }
      end, readers := ReconcileNormal();
      SparesThrough(cfg, w, v, world);
    }

    /** The pass failed before it could report anything: at reading the object, or at adding the finalizer. */
    ghost predicate Unreported(end: PassEnd)
      reads this
    {
      && end.EndsFailed? && weather.Storm?
      && (if history == [] then weather.outcomes(0).Fault?
          else |history| == 1 && history[0].move.Call? && history[0].move.write.PutMeta?)
    }

    /** A breaker-held visit of x: the status it calls for is in memory, and stored or reported if that is news. */
    ghost predicate Waited(x: Bucket, recorded: int)
      reads this
    {
      && b.status == AfterHold(cfg.grace, x, now, recorded) && self in world.cluster.crs
      && if HoldNeedsWrite(cfg.grace, x.status, now) then Reported() && Quiet(history[..|history| - 1])
         else world.cluster.crs[self].status == x.status && Quiet(history)
    }

    /**
     Reconcile: one pass over the Bucket `key`, under any weather. `admitted` is the breaker's
     answer, `time` and `recorded` the clock. The calls made are in `history`, and all of them are
     in order; `loose` are the workload keys they minted and neither published nor took back.
     */
    method Reconcile(key: ObjKey, sky: Weather, time: int, recorded: int, admitted: bool)
      returns (end: PassEnd, ghost readers: seq<string>, ghost seen: bool)
      requires Valid() && (key in world.cluster.crs ==> WellFormed(world.cluster.crs[key]))
      modifies this
      ensures Valid() && self == key && origin == old(world) && weather == sky && now == time && LooseExplained()
      ensures old(key !in world.cluster.crs) ==> world == old(world)
      // a pass that provisions
      ensures end.EndsReady? ==> old(Provisionable(world, key)) && Served(cfg, world, key, readers) && loose == {}
      ensures old(Provisionable(world, key)) ==>
                && (end.EndsReady? && Trusted(cfg, old(world), key) ==> KeyWorks(cfg, world, key))
                && (Trusted(cfg, old(world), key) && loose == {} ==> Trusted(cfg, world, key))
                && (Tidy(sky) && Works(cfg, old(world), key) && !Works(cfg, world, key) ==> Disclosed(end))
                && (old(Missing(world, key)) ==> !end.EndsReady? && SparesWorkloads(cfg, old(world), world))
                && (sky == Calm({}) && admitted && old(FairTo(cfg, world, world.cluster.crs[key])) ==>
                      && (end.EndsReady? <==> old(CanConverge(cfg, world, key)))
                      && (end.EndsReady? ==> Settled(cfg, world, key))
                      && (old(Settled(cfg, world, key)) ==>
                          end.EndsReady? && OnlyReported(old(world), world, [], history, key)))
      // what it leaves on record when it does not end Ready
      ensures old(Provisionable(world, key)) ==>
                && found == old(world.cluster.crs[key].status)
                && (admitted ==> end.EndsReady? || Stops(end) || Declared(end, readers) || Unreported(end))
                && (!admitted ==>
                      (end.EndsWaiting? && Waited(old(world.cluster.crs[key]), recorded)) || Unreported(end))
      // a pass that tears down
      ensures old(key in world.cluster.crs && world.cluster.crs[key].deleting) ==>
                && loose == {} && (end.EndsWaiting? ==> !admitted)
                && (end.EndsGone? && old(world.cluster.crs[key].finalizer) ==> key !in world.cluster.crs)
                && (key in world.cluster.crs ==> Releases(cfg, old(world), world, key))
                && (key !in world.cluster.crs ==> LetGoOf(cfg, old(world), world, key, seen, history))
                && Thorough(cfg, sky, old(world), world, key, seen)
                && (seen && old(Guarded(cfg, world, key)) ==>
                      !end.EndsGone? && SparesWorkloads(cfg, old(world), world) && key in world.cluster.crs)
                && (sky.Calm? && admitted && cfg.adminSecret.ns != ""
                    && old(Removable(cfg, world, key) && world.cluster.crs[key].finalizer) ==>
                      end.EndsGone? && Removed(cfg, old(world), world, key))
    {
      hide Inv, Trace, Tidy, KeyWorks, Sound, StatusFits, Served, NoLegacy, Settled, OnlyReported, SparesWorkloads,
        CanConverge, Frozen, Releases, Reported, Endures, Trusted, Works, Missing, Removed, LetGoOf, WellFormed,
        Guarded, FairTo, Quiet, AfterHold;
      readers, seen := [], false;
      ghost var w := world;
      SparesItself(cfg, w);
      NothingLooseYet(sky);
      if key in w.cluster.crs {
        StatusReleases(cfg, w, w, w.cluster.crs[key].status, key);
      }
      var ended := Begin(key, sky, time);
      if ended.Some? {
        return ended.value, readers, seen;
      }
      if b.deleting {
        end, seen := ReconcileDelete(admitted);
        NothingLoose();
      } else {
        end, readers := Visit(admitted, recorded);
      }
    }

    lemma NothingLooseYet(sky: Weather)
      ensures Explained(sky, {}, [])
    {
    }

    /** A new pass: nothing is known yet, and the object is read. */
    method Begin(key: ObjKey, sky: Weather, time: int) returns (ended: Option<PassEnd>)
      requires Valid() && (key in world.cluster.crs ==> WellFormed(world.cluster.crs[key]))
      modifies this
      ensures Valid() && self == key && weather == sky && now == time && world == old(world) && admin == old(admin)
      ensures origin == world && history == [] && loose == {}
      ensures key in world.cluster.crs ==> found == world.cluster.crs[key].status
      ensures ended.Some? ==> ended.value.EndsFailed? || (ended.value.EndsGone? && key !in world.cluster.crs)
      ensures ended.None? ==> Held() && b == world.cluster.crs[key]
      ensures sky.Calm? && key in world.cluster.crs ==> ended.None?
      ensures ended.Some? && ended.value.EndsFailed? ==> sky.Storm? && sky.outcomes(0).Fault?
    {
      hide Inv, Trace, Tidy, StatusFits, WellFormed;
      Reset(key, sky, time);
      var e := Read();
      if e.Some? {
        return Some(EndsFailed(e.value));
      }
      if key !in world.cluster.crs {
        return Some(EndsGone);
      }
      b := world.cluster.crs[key];
      found := b.status;
      StoredStatusFits(cfg, world, key);
      return None;
    }

    method Reset(key: ObjKey, sky: Weather, time: int)
      requires Valid()
      modifies this
      ensures Valid() && self == key && weather == sky && now == time && world == old(world) && admin == old(admin)
      ensures origin == world && history == [] && loose == {} && calls == 0
      ensures key in world.cluster.crs ==> found == world.cluster.crs[key].status
    {
      hide Inv, Trace, Tidy, Chain;
      StartTrace(cfg, key, world);
      self, weather, now, calls := key, sky, time, 0;
      origin, history, answers, loose, frozen := world, [], [], {}, "";
      if key in world.cluster.crs {
        found := world.cluster.crs[key].status;
      }
    }
  }

  /** No status was written. */
  predicate Quiet(h: seq<Turn>) {
    forall i :: 0 <= i < |h| ==> !(h[i].move.Call? && h[i].move.write.PutStatus?)
  }
}
