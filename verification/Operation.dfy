/**
 The operator at work: a driver that takes the reconciler through any interleaving of passes,
 outside events and restarts, and keeps a record of each step.
 */
module Operation {
  import opened Wrappers
  import opened Errors
  import opened Resources
  import opened Protocol
  import opened Health
  import opened Frames
  import opened Reconciler
  import opened Runs

  /**
   What the operator is taken through: passes, outside events, and restarts of the process, which
   lose the cached admin credential.
   */
  datatype Item =
    | Pass(key: ObjKey, sky: Weather, time: int, recorded: int, admitted: bool)
    | Event(change: World -> World)
    | Restart

  /**
   One item as it went: the world before and after it, and the turns in between. Of a pass, `log`
   is what its trace is tied to, `end` how it ended, `readers` the principals of the policy in
   force after it and `seen` what its listing said about the bucket.
   */
  datatype Step = Step(item: Item, before: World, log: Log, run: seq<Turn>,
      end: PassEnd, readers: seq<string>, seen: bool, after: World)

  /******* What a pass promises *******/

  /** The status the last call of the pass wrote, or tried to. */
  function LastStatus(run: seq<Turn>): Option<Status> {
    if run != [] && run[|run| - 1].move.Call? && run[|run| - 1].move.write.PutStatus?
    then Some(run[|run| - 1].move.write.status) else None
  }

  predicate LastTook(run: seq<Turn>) {
    run != [] && run[|run| - 1].move.Call? && run[|run| - 1].move.took
  }

  /** The last call of the pass was a status write; if it took, that is the stored status. */
  predicate Reports(s: Step)
    requires s.item.Pass?
  {
    && LastStatus(s.run).Some?
    && (LastTook(s.run) ==>
          s.item.key in s.after.cluster.crs && s.after.cluster.crs[s.item.key].status == LastStatus(s.run).value)
  }

  /** The last call declared the Bucket ready, free of degradation. */
  predicate Declares(run: seq<Turn>) {
    LastStatus(run).Some? && LastStatus(run).value.ready == IsReady && LastStatus(run).value.degradedSince.None?
  }

  /** The pass met its failure before it could report: at reading the object, or at adding the finalizer. */
  ghost predicate FailsEarly(s: Step)
    requires s.item.Pass?
  {
    && s.end.EndsFailed? && s.item.sky.Storm?
    && if s.run == [] then s.item.sky.outcomes(0).Fault?
       else |s.run| == 1 && s.run[0].move.Call? && s.run[0].move.write.PutMeta?
  }

  /** How an admitted pass over a Bucket that is not being deleted ends. */
  ghost predicate EndsInOrder(cfg: Config, s: Step)
    requires s.item.Pass? && s.item.key in s.before.cluster.crs
  {
    var k, found := s.item.key, s.before.cluster.crs[s.item.key].status;
    || s.end.EndsReady?
    // it waits for a clone whose Job is there
    || (s.end.EndsWaiting? && k in s.after.cluster.crs && ClonePending(s.after.cluster.crs[k])
        && k in s.after.cluster.jobs)
    // it failed and reported so, with Ready held at most within the grace
    || (s.end.EndsFailed? && Reports(s) && Endures(cfg.grace, found, LastStatus(s.run).value, s.item.time))
    // the answer to the terminal status write was lost
    || (s.end.EndsFailed? && Reports(s) && Declares(s.run) && (LastTook(s.run) ==> Served(cfg, s.after, k, s.readers)))
    || FailsEarly(s)
  }

  /** How a pass ends that the breaker holds back: the health is recorded if that is news. */
  ghost predicate HeldInOrder(cfg: Config, s: Step)
    requires s.item.Pass? && s.item.key in s.before.cluster.crs
  {
    var k, x := s.item.key, s.before.cluster.crs[s.item.key];
    || (&& s.end.EndsWaiting? && k in s.after.cluster.crs
        && if HoldNeedsWrite(cfg.grace, x.status, s.item.time)
           then && Reports(s) && Quiet(s.run[..|s.run| - 1])
                && LastStatus(s.run) == Some(AfterHold(cfg.grace, x, s.item.time, s.item.recorded))
           else s.after.cluster.crs[k].status == x.status && Quiet(s.run))
    || FailsEarly(s)
  }

  /** The pass ended with the published credential destroyed, and says so. */
  predicate Confesses(s: Step)
    requires s.item.Pass?
  {
    && s.end.EndsFailed? && s.end.error.CredentialDestroyed? && Reports(s)
    && LastStatus(s.run).value.phase == PhaseFailed && LastStatus(s.run).value.ready == NotReady(false)
  }

  /** What a pass does for the credential of a Bucket that is not being deleted. */
  ghost predicate KeepsFaith(cfg: Config, s: Step)
    requires s.item.Pass?
  {
    var k := s.item.key;
    && (s.end.EndsReady? && Trusted(cfg, s.before, k) ==> KeyWorks(cfg, s.after, k))
    && (Trusted(cfg, s.before, k) && s.log.loose == {} ==> Trusted(cfg, s.after, k))
    && (Tidy(s.item.sky) && Works(cfg, s.before, k) && !Works(cfg, s.after, k) ==> Confesses(s))
    && (Missing(s.before, k) ==> !s.end.EndsReady? && SparesWorkloads(cfg, s.before, s.after))
  }

  /** What a failure-free pass over a Bucket that is not being deleted achieves. */
  ghost predicate Converges(cfg: Config, s: Step)
    requires s.item.Pass? && s.item.key in s.before.cluster.crs
  {
    var k := s.item.key;
    s.item.sky == Calm({}) && s.item.admitted && FairTo(cfg, s.before, s.before.cluster.crs[k]) ==>
      && (s.end.EndsReady? <==> CanConverge(cfg, s.before, k))
      && (s.end.EndsReady? ==> Settled(cfg, s.after, k))
      && (Settled(cfg, s.before, k) ==> s.end.EndsReady? && OnlyReported(s.before, s.after, [], s.run, k))
  }

  /** What a pass over a Bucket that is being deleted does. */
  ghost predicate TakesDown(cfg: Config, s: Step)
    requires s.item.Pass? && s.item.key in s.before.cluster.crs
  {
    var k := s.item.key;
    && !s.end.EndsReady? && s.log.loose == {} && (s.end.EndsWaiting? ==> !s.item.admitted)
    && (s.end.EndsGone? && s.before.cluster.crs[k].finalizer ==> k !in s.after.cluster.crs)
    && (k in s.after.cluster.crs ==> Releases(cfg, s.before, s.after, k))
    && (k !in s.after.cluster.crs ==> LetGoOf(cfg, s.before, s.after, k, s.seen, s.run))
    && Thorough(cfg, s.item.sky, s.before, s.after, k, s.seen)
    && (s.seen && Guarded(cfg, s.before, k) ==>
          !s.end.EndsGone? && SparesWorkloads(cfg, s.before, s.after) && k in s.after.cluster.crs)
    && (&& s.item.sky.Calm? && s.item.admitted && cfg.adminSecret.ns != ""
        && Removable(cfg, s.before, k) && s.before.cluster.crs[k].finalizer ==>
          s.end.EndsGone? && Removed(cfg, s.before, s.after, k))
  }

  ghost predicate PassWent(cfg: Config, s: Step)
    requires s.item.Pass?
  {
    var k := s.item.key;
    && s.log.origin == s.before && Trace(cfg, k, s.log, s.run, s.after) && Explained(s.item.sky, s.log.loose, s.run)
    && (s.end.EndsReady? ==>
          Provisionable(s.before, k) && Served(cfg, s.after, k, s.readers) && s.log.loose == {})
    && if k !in s.before.cluster.crs then s.after == s.before
       else if s.before.cluster.crs[k].deleting then TakesDown(cfg, s)
       else
         && KeepsFaith(cfg, s) && Converges(cfg, s)
         && if s.item.admitted then EndsInOrder(cfg, s) else HeldInOrder(cfg, s)
  }

  /** What every step promises. */
  ghost predicate Went(cfg: Config, s: Step) {
    match s.item
    case Pass(_, _, _, _, _) => PassWent(cfg, s)
    case Event(change) =>
      && Happens(cfg, s.before, s.after) && s.after == change(s.before)
      && s.run == [Turn(s.before, Outside(s.after))]
    case Restart => s.after == s.before && s.run == []
  }

  /** What a trace says as a chain. */
  lemma TraceIsChain(cfg: Config, k: ObjKey, log: Log, run: seq<Turn>, w: World)
    requires Trace(cfg, k, log, run, w)
    ensures Chain(cfg, run, w) && WorldAt(run, w, 0) == log.origin && log.loose == LooseOf(run)
    ensures forall i :: 0 <= i < |run| ==> run[i].move.Call? && run[i].move.key == k
  {
  }

  /** One pass of the reconciler, and the record of it. */
  method RunPass(r: BucketReconciler, item: Item) returns (ghost s: Step)
    requires r.Valid() && Schema(r.world) && item.Pass?
    modifies r
    ensures r.Valid() && Schema(r.world)
    ensures s.item == item && s.before == old(r.world) && s.after == r.world && PassWent(r.cfg, s)
  {
    hide Inv, Trace, KeyWorks, LooseOf, Explained, Served, Settled, Releases, SparesWorkloads, LetGoOf, OnlyReported,
      CanConverge, FairTo, Trusted, Works, Removed, Removable, Quiet, Tidy, Missing, Endures, AfterHold,
      HoldNeedsWrite, Guarded, Chain, Effect;
    ghost var w := r.world;
    var end, readers, seen := r.Reconcile(item.key, item.sky, item.time, item.recorded, item.admitted);
    ghost var log := Log(r.origin, r.answers, r.loose, r.frozen);
    TraceIsChain(r.cfg, item.key, log, r.history, r.world);
    RunKeepsSchema(r.cfg, r.history, r.world, |r.history|);
    s := Step(item, w, log, r.history, end, readers, seen, r.world);
  }

  method Happen(r: BucketReconciler, change: World -> World)
    requires r.Valid() && Happens(r.cfg, r.world, change(r.world))
    modifies r
    ensures r.Valid() && r.world == change(old(r.world)) && Schema(r.world)
  {
    hide Inv, Happens, Trace;
    OutsideKeepsInv(r.cfg, r.world, change(r.world));
    EventKeepsAdmin(r.cfg, r.world, change(r.world));
    r.world := change(r.world);
    r.origin, r.history, r.answers, r.loose, r.frozen := r.world, [], [], {}, "";
    StartTrace(r.cfg, r.self, r.world);
  }

  /******* Any interleaving *******/

  /** The world before step i of a course that ends in w. */
  function WorldBefore(steps: seq<Step>, w: World, i: nat): World
    requires i <= |steps|
  {
    if i < |steps| then steps[i].before else w
  }

  /** Steps that went as promised, each from where the one before it ended, and the last one to w. */
  ghost predicate Course(cfg: Config, steps: seq<Step>, w: World) {
    forall i :: 0 <= i < |steps| ==> Went(cfg, steps[i]) && steps[i].after == WorldBefore(steps, w, i + 1)
  }

  /** The turns of all steps. */
  function RunOf(steps: seq<Step>): seq<Turn> {
    if steps == [] then [] else RunOf(steps[..|steps| - 1]) + steps[|steps| - 1].run
  }

  /**
   Any interleaving of passes, under any weather, with outside events and restarts is a course:
   every item goes as promised, from the world the one before it left.
   */
  method Operate(r: BucketReconciler, items: seq<Item>) returns (ghost steps: seq<Step>)
    requires r.Valid() && Schema(r.world)
    requires forall i, w :: 0 <= i < |items| && items[i].Event? && Schema(w) ==> Happens(r.cfg, w, items[i].change(w))
    modifies r
    ensures r.Valid() && Schema(r.world)
    ensures |steps| == |items| && forall i :: 0 <= i < |items| ==> steps[i].item == items[i]
    ensures Course(r.cfg, steps, r.world) && WorldBefore(steps, r.world, 0) == old(r.world)
  {
    hide Inv, Happens, Trace, Went;
    steps := [];
    for i := 0 to |items|
      invariant r.Valid() && Schema(r.world) && |steps| == i
      invariant forall j :: 0 <= j < i ==> steps[j].item == items[j]
      invariant Course(r.cfg, steps, r.world) && WorldBefore(steps, r.world, 0) == old(r.world)
    {
      ghost var s := Perform(r, items[i]);
      CourseGrows(r.cfg, steps, s);
      steps := steps + [s];
    }
  }

  method Perform(r: BucketReconciler, item: Item) returns (ghost s: Step)
    requires r.Valid() && Schema(r.world) && (item.Event? ==> Happens(r.cfg, r.world, item.change(r.world)))
    modifies r
    ensures r.Valid() && Schema(r.world)
    ensures s.item == item && s.before == old(r.world) && s.after == r.world && Went(r.cfg, s)
  {
    hide Inv, Happens, Trace, PassWent;
    ghost var w := r.world;
    match item {
      case Pass(_, _, _, _, _) =>
        s := RunPass(r, item);
      case Event(change) =>
        Happen(r, change);
        s := Step(item, w, Log(w, [], {}, ""), [Turn(w, Outside(r.world))], EndsWaiting, [], false, r.world);
      case Restart =>
        r.admin := None;
        s := Step(item, w, Log(w, [], {}, ""), [], EndsWaiting, [], false, r.world);
    }
  }

  lemma CourseGrows(cfg: Config, steps: seq<Step>, s: Step)
    requires Course(cfg, steps, s.before) && Went(cfg, s)
    ensures Course(cfg, steps + [s], s.after)
    ensures WorldBefore(steps + [s], s.after, 0) == WorldBefore(steps, s.before, 0)
  {
    hide Went;
    var longer := steps + [s];
    forall i | 0 <= i < |longer|
      ensures Went(cfg, longer[i]) && longer[i].after == WorldBefore(longer, s.after, i + 1)
    {
      if i < |steps| {
        assert longer[i] == steps[i] && steps[i].after == WorldBefore(steps, s.before, i + 1);
      }
    }
  }

  /******* A course as a run *******/

  lemma ChainsJoin(cfg: Config, a: seq<Turn>, v: World, b: seq<Turn>, w: World)
    requires Chain(cfg, a, v) && Chain(cfg, b, w) && WorldAt(b, w, 0) == v
    ensures Chain(cfg, a + b, w) && WorldAt(a + b, w, 0) == WorldAt(a, v, 0)
  {
    hide Licensed, Happens, Effect, Accepts;
    forall i | 0 <= i < |a + b|
      ensures TurnOK(cfg, (a + b)[i]) && After(cfg, (a + b)[i]) == WorldAt(a + b, w, i + 1)
    {
      if i < |a| {
        assert (a + b)[i] == a[i] && After(cfg, a[i]) == WorldAt(a, v, i + 1);
      } else {
        assert (a + b)[i] == b[i - |a|] && After(cfg, b[i - |a|]) == WorldAt(b, w, i - |a| + 1);
      }
    }
  }

  lemma StepIsChain(cfg: Config, s: Step)
    requires Went(cfg, s)
    ensures Chain(cfg, s.run, s.after) && WorldAt(s.run, s.after, 0) == s.before
  {
    hide Inv, Happens, Licensed, Effect, Accepts, Trace, TakesDown, EndsInOrder, HeldInOrder, KeepsFaith, Converges;
    if s.item.Pass? {
      TraceIsChain(cfg, s.item.key, s.log, s.run, s.after);
    }
  }

  /**
   The turns of a course are a run: every call in it was licensed when it was made. So whatever
   holds along every run holds of the operator, wherever it has got to.
   */
  lemma {:induction false} CourseIsChain(cfg: Config, steps: seq<Step>, w: World)
    requires Course(cfg, steps, w)
    ensures Chain(cfg, RunOf(steps), w) && WorldAt(RunOf(steps), w, 0) == WorldBefore(steps, w, 0)
  {
    hide Chain, Went;
    if steps == [] {
      NothingIsChain(cfg, w);
    } else {
      var front, s := steps[..|steps| - 1], steps[|steps| - 1];
      assert Went(cfg, s) && s.after == w;
      forall i | 0 <= i < |front|
        ensures Went(cfg, front[i]) && front[i].after == WorldBefore(front, s.before, i + 1)
      {
        assert front[i] == steps[i] && steps[i].after == WorldBefore(steps, w, i + 1);
      }
      CourseIsChain(cfg, front, s.before);
      StepIsChain(cfg, s);
      ChainsJoin(cfg, RunOf(front), s.before, s.run, w);
    }
  }

  lemma NothingIsChain(cfg: Config, w: World)
    ensures Chain(cfg, [], w)
  {
  }

  /** Every world of a course is sound and well-formed. */
  lemma {:induction false} CourseIsSound(cfg: Config, steps: seq<Step>, w: World, i: nat)
    requires Course(cfg, steps, w) && i <= |steps|
    requires Inv(cfg, WorldBefore(steps, w, 0)) && Schema(WorldBefore(steps, w, 0))
    ensures Inv(cfg, WorldBefore(steps, w, i)) && Schema(WorldBefore(steps, w, i))
  {
    hide Chain, Went, Inv, Schema;
    if i > 0 {
      CourseIsSound(cfg, steps, w, i - 1);
      var s := steps[i - 1];
      assert Went(cfg, s) && s.after == WorldBefore(steps, w, i);
      StepIsChain(cfg, s);
      RunKeepsInv(cfg, s.run, s.after, |s.run|);
      RunKeepsSchema(cfg, s.run, s.after, |s.run|);
    }
  }
}
