/**
 What holds along every course of the operator (module Operation), whatever the weather, and
 however passes, events and restarts interleave: convergence, teardown, the published credential,
 and the bounds on holding Ready.
 */
module Courses {
  import opened Wrappers
  import opened Errors
  import opened Resources
  import opened Protocol
  import opened Health
  import opened Frames
  import opened Reconciler
  import opened Runs
  import opened Trust
  import opened Operation

  predicate PassOver(s: Step, k: ObjKey) {
    s.item.Pass? && s.item.key == k
  }

  /******* Convergence *******/

  lemma SettledIsFair(cfg: Config, w: World, k: ObjKey)
    requires Inv(cfg, w) && Settled(cfg, w, k) && cfg.adminSecret.ns != ""
    ensures Provisionable(w, k) && FairTo(cfg, w, w.cluster.crs[k])
  {
    var n := EffectiveName(w.cluster.crs[k]);
    assert BucketOK(cfg, w, n) && Names(w.cloud.buckets[n], w.cloud.buckets[n].tags.groupId.value);
  }

  lemma ReportKeepsKey(cfg: Config, w: World, w': World, h: seq<Turn>, k: ObjKey)
    requires OnlyReported(w, w', [], h, k) && Settled(cfg, w, k) && Settled(cfg, w', k)
    ensures KeyWorks(cfg, w', k) <==> KeyWorks(cfg, w, k)
  {
  }

  /** One failure-free pass gets there; the next one only reports that it is there. */
  lemma ConvergeAndRest(cfg: Config, first: Step, second: Step, k: ObjKey)
    requires Went(cfg, first) && Went(cfg, second) && second.before == first.after && Inv(cfg, first.before)
    requires PassOver(first, k) && first.item.sky == Calm({}) && first.item.admitted
    requires PassOver(second, k) && second.item.sky == Calm({}) && second.item.admitted
    requires Provisionable(first.before, k) && FairTo(cfg, first.before, first.before.cluster.crs[k])
    requires CanConverge(cfg, first.before, k)
    ensures first.end.EndsReady? && second.end.EndsReady?
    ensures Settled(cfg, first.after, k) && Settled(cfg, second.after, k)
    ensures OnlyReported(first.after, second.after, [], second.run, k)
    ensures Trusted(cfg, first.before, k) ==> KeyWorks(cfg, first.after, k) && KeyWorks(cfg, second.after, k)
  {
    hide Inv, Trace, Settled, Served, Sound, KeyWorks, OnlyReported, CanConverge, Trusted, Works, Endures, Explained,
      EndsInOrder, Chain;
    StepIsChain(cfg, first);
    RunKeepsInv(cfg, first.run, first.after, |first.run|);
    SettledIsFair(cfg, first.after, k);
    ReportKeepsKey(cfg, first.after, second.after, second.run, k);
  }

  /******* Teardown *******/

  /** A course of passes over k alone, and restarts, from where k is being deleted and nothing stands in its way. */
  ghost predicate Farewell(cfg: Config, steps: seq<Step>, w: World, k: ObjKey) {
    && Course(cfg, steps, w) && Inv(cfg, WorldBefore(steps, w, 0)) && Schema(WorldBefore(steps, w, 0))
    && (forall i :: 0 <= i < |steps| ==> PassOver(steps[i], k) || steps[i].item.Restart?)
    && k in WorldBefore(steps, w, 0).cluster.crs && Removable(cfg, WorldBefore(steps, w, 0), k)
    && WorldBefore(steps, w, 0).cluster.crs[k].deleting && WorldBefore(steps, w, 0).cluster.crs[k].finalizer
  }

  /** The bucket stayed although the object went: the listing hid it, or the call to delete it spared it. */
  ghost predicate MissesBucket(s: Step, k: ObjKey, n: string) {
    && k in s.before.cluster.crs && k !in s.after.cluster.crs && n in s.before.cloud.buckets
    && (!s.seen || Spared(s.run, DeleteBucket(n)))
  }

  /** The bucket went although the call to delete its group g spared that. */
  ghost predicate MissesGroup(s: Step, k: ObjKey, n: string, g: nat) {
    && k in s.before.cluster.crs && n in s.before.cloud.buckets && n !in s.after.cloud.buckets
    && Spared(s.run, DeleteGroup(g))
  }

  /** Something of k, as it was in u, is beyond the reach of any further teardown. */
  ghost predicate Stranded(cfg: Config, u: World, w: World, k: ObjKey)
    requires k in u.cluster.crs
  {
    var n := EffectiveName(u.cluster.crs[k]);
    || (k !in w.cluster.crs && n in w.cloud.buckets)
    || (n !in w.cloud.buckets && exists g: nat :: Attributed(cfg, u, k, g) && g in w.cloud.groups)
  }

  /** The step left something of k, as it was in u, behind for good. */
  ghost predicate Misses(cfg: Config, u: World, s: Step, k: ObjKey)
    requires k in u.cluster.crs
  {
    var n := EffectiveName(u.cluster.crs[k]);
    MissesBucket(s, k, n) || exists g: nat :: Attributed(cfg, u, k, g) && MissesGroup(s, k, n, g)
  }

  /** As far as k is still there, the teardown has only moved downwards since u. */
  ghost predicate Underway(cfg: Config, u: World, w: World, k: ObjKey)
    requires k in u.cluster.crs
  {
    && (k in w.cluster.crs ==> Releases(cfg, u, w, k) && Removable(cfg, w, k))
    && (k !in w.cluster.crs ==>
          SecretKey(k, u.cluster.crs[k]) != cfg.adminSecret ==> SecretKey(k, u.cluster.crs[k]) !in w.cluster.secrets)
    && (forall g :: 0 <= g < u.cloud.nextGroup && g !in u.cloud.groups ==> g !in w.cloud.groups)
    && u.cloud.nextGroup <= w.cloud.nextGroup
  }

  lemma ReleasedIsAlike(cfg: Config, u: World, w: World, k: ObjKey)
    requires Releases(cfg, u, w, k)
    ensures k in u.cluster.crs && k in w.cluster.crs
    ensures w.cluster.crs[k] == u.cluster.crs[k].(status := w.cluster.crs[k].status)
    ensures EffectiveName(w.cluster.crs[k]) == EffectiveName(u.cluster.crs[k])
  {
  }

  lemma TeardownMoves(cfg: Config, u: World, s: Step, k: ObjKey)
    requires k in u.cluster.crs && Inv(cfg, u) && u.cluster.crs[k].deleting && Underway(cfg, u, s.before, k)
    requires Went(cfg, s) && (PassOver(s, k) || s.item.Restart?)
    ensures Underway(cfg, u, s.after, k)
  {
    hide Inv, Trace, Explained, Releases, Removable, Guarded, Served, SparesWorkloads, Removed, InView, Left;
    if s.item.Pass? && k in s.before.cluster.crs {
      ReleasedIsAlike(cfg, u, s.before, k);
      ReleasesIds(cfg, u, s.before, k);
      if k in s.after.cluster.crs {
        ReleasesCompose(cfg, u, s.before, s.after, k);
        ReleasesIds(cfg, u, s.after, k);
        TeardownIsRestartable(cfg, s.before, s.after, k);
      } else {
        TraceIds(cfg, k, s.log, s.run, s.after);
      }
    }
  }

  lemma ReleasesIds(cfg: Config, u: World, w: World, k: ObjKey)
    requires Releases(cfg, u, w, k)
    ensures u.cloud.nextGroup <= w.cloud.nextGroup
    ensures forall g :: 0 <= g < u.cloud.nextGroup && g !in u.cloud.groups ==> g !in w.cloud.groups
  {
  }

  lemma TraceIds(cfg: Config, k: ObjKey, log: Log, run: seq<Turn>, w: World)
    requires Trace(cfg, k, log, run, w)
    ensures log.origin.cloud.nextGroup <= w.cloud.nextGroup
  {
  }

  /** The bucket n of k is gone for good. */
  predicate Parted(w: World, k: ObjKey, n: string) {
    n !in w.cloud.buckets && (k in w.cluster.crs ==> w.cluster.crs[k].deleting && EffectiveName(w.cluster.crs[k]) == n)
  }

  lemma CallStaysParted(cfg: Config, w: World, k: ObjKey, call: Write, n: string)
    requires Accepts(w, k, call) && Licensed(cfg, w, k, call) && Parted(w, k, n)
    ensures Parted(Effect(cfg, w, k, call), k, n)
    ensures w.cloud.groups.Keys <= Effect(cfg, w, k, call).cloud.groups.Keys
  {
  }

  /** Without its bucket a teardown deletes no group. */
  lemma {:induction false} GroupsStay(cfg: Config, run: seq<Turn>, w: World, k: ObjKey, n: string, i: nat)
    requires Chain(cfg, run, w) && i <= |run| && Parted(WorldAt(run, w, 0), k, n)
    requires forall j :: 0 <= j < |run| ==> run[j].move.Call? && run[j].move.key == k
    ensures Parted(WorldAt(run, w, i), k, n)
    ensures WorldAt(run, w, 0).cloud.groups.Keys <= WorldAt(run, w, i).cloud.groups.Keys
  {
    hide Licensed, Accepts, Effect, Parted;
    if i > 0 {
      GroupsStay(cfg, run, w, k, n, i - 1);
      var t := run[i - 1];
      assert TurnOK(cfg, t) && After(cfg, t) == WorldAt(run, w, i) && t.move.Call? && t.move.key == k;
      if t.move.took {
        CallStaysParted(cfg, t.world, k, t.move.write, n);
      }
    }
  }

  /** Everything attributed to k in u was issued by then; what is gone of it stays gone. */
  lemma AttributedThrough(cfg: Config, u: World, w: World, k: ObjKey, g: nat)
    requires Inv(cfg, u) && Releases(cfg, u, w, k) && Attributed(cfg, u, k, g)
    ensures g < u.cloud.nextGroup
    ensures EffectiveName(u.cluster.crs[k]) in w.cloud.buckets && g in w.cloud.groups ==> Attributed(cfg, w, k, g)
  {
    assert BucketOK(cfg, u, EffectiveName(u.cluster.crs[k])) && Names(OwnBucket(cfg, u, k), g);
  }

  /** Where the bucket was still there before the pass: a group outlives it exactly if its deletion spared it. */
  lemma GroupOutlives(cfg: Config, u: World, s: Step, k: ObjKey, g: nat)
    requires k in u.cluster.crs && Inv(cfg, u) && Inv(cfg, s.before) && u.cluster.crs[k].deleting
    requires PassOver(s, k) && Trace(cfg, k, s.log, s.run, s.after) && s.log.origin == s.before
    requires Releases(cfg, u, s.before, k) && Attributed(cfg, u, k, g)
    requires EffectiveName(u.cluster.crs[k]) in s.before.cloud.buckets
    requires EffectiveName(u.cluster.crs[k]) !in s.after.cloud.buckets
    ensures g in s.after.cloud.groups <==> Spared(s.run, DeleteGroup(g))
  {
    hide Inv, Trace, Releases, Attributed, Spared, TearsDown;
    ReleasedIsAlike(cfg, u, s.before, k);
    ReleasesIds(cfg, u, s.before, k);
    AttributedThrough(cfg, u, s.before, k, g);
    TraceTearsDown(cfg, k, s.log, s.run, s.after);
    TraceIsChain(cfg, k, s.log, s.run, s.after);
    if Attributed(cfg, s.before, k, g) {
      SurvivorWasSpared(cfg, k, s.log, s.run, s.after, g);
    } else {
      SparedMeansLeft(cfg, s.run, s.after, k, DeleteGroup(g));
      StaysGone(cfg, s.run, s.after, k, DeleteGroup(g), 0, |s.run|);
    }
  }

  /** A step strands something exactly if its deletion missed it; what is stranded stays so. */
  lemma StepStrands(cfg: Config, u: World, s: Step, k: ObjKey)
    requires k in u.cluster.crs && Inv(cfg, u) && Inv(cfg, s.before) && u.cluster.crs[k].deleting
    requires Underway(cfg, u, s.before, k) && Went(cfg, s) && (PassOver(s, k) || s.item.Restart?)
    ensures Stranded(cfg, u, s.after, k) <==> Stranded(cfg, u, s.before, k) || Misses(cfg, u, s, k)
  {
    hide Inv, Trace, Explained, Releases, Guarded, Served, SparesWorkloads, Removed, Attributed, Spared, LetGoOf,
      Removable;
    var n := EffectiveName(u.cluster.crs[k]);
    if s.item.Pass? && k in s.before.cluster.crs {
      ReleasedIsAlike(cfg, u, s.before, k);
      if n !in s.before.cloud.buckets {
        PartedStep(cfg, u, s, k);
      } else if n in s.after.cloud.buckets {
        BucketStaysStep(cfg, s, k);
      } else {
        BucketGoesStep(cfg, s, k);
        forall g: nat | Attributed(cfg, u, k, g)
          ensures g in s.after.cloud.groups <==> Spared(s.run, DeleteGroup(g))
        {
          GroupOutlives(cfg, u, s, k, g);
        }
      }
    }
  }

  lemma PartedStep(cfg: Config, u: World, s: Step, k: ObjKey)
    requires k in u.cluster.crs && Inv(cfg, u) && u.cluster.crs[k].deleting && PassOver(s, k) && PassWent(cfg, s)
    requires k in s.before.cluster.crs && Releases(cfg, u, s.before, k)
    requires EffectiveName(u.cluster.crs[k]) !in s.before.cloud.buckets
    ensures EffectiveName(u.cluster.crs[k]) !in s.after.cloud.buckets
    ensures forall g: nat :: Attributed(cfg, u, k, g) ==> (g in s.after.cloud.groups <==> g in s.before.cloud.groups)
  {
    hide Inv, Trace, Releases, Guarded, Attributed, Spared, TearsDown, Explained, TakesDown, Chain;
    var n := EffectiveName(u.cluster.crs[k]);
    ReleasedIsAlike(cfg, u, s.before, k);
    ReleasesIds(cfg, u, s.before, k);
    TraceIsChain(cfg, k, s.log, s.run, s.after);
    GroupsStay(cfg, s.run, s.after, k, n, |s.run|);
    forall g: nat | Attributed(cfg, u, k, g)
      ensures g in s.after.cloud.groups <==> g in s.before.cloud.groups
    {
      AttributedThrough(cfg, u, s.before, k, g);
      if g !in s.before.cloud.groups {
        GoneStaysGone(cfg, s, k, g);
      }
    }
  }

  lemma GoneStaysGone(cfg: Config, s: Step, k: ObjKey, g: nat)
    requires PassOver(s, k) && PassWent(cfg, s) && k in s.before.cluster.crs && s.before.cluster.crs[k].deleting
    requires g < s.before.cloud.nextGroup && g !in s.before.cloud.groups
    ensures g !in s.after.cloud.groups
  {
    hide Trace, Guarded, Explained, Attributed, Served, Removable, SparesWorkloads, Removed;
  }

  lemma BucketStaysStep(cfg: Config, s: Step, k: ObjKey)
    requires PassOver(s, k) && PassWent(cfg, s) && Inv(cfg, s.before)
    requires k in s.before.cluster.crs && s.before.cluster.crs[k].deleting && Removable(cfg, s.before, k)
    requires EffectiveName(s.before.cluster.crs[k]) in s.before.cloud.buckets
    requires EffectiveName(s.before.cluster.crs[k]) in s.after.cloud.buckets
    ensures k !in s.after.cluster.crs ==>
              !s.seen || Spared(s.run, DeleteBucket(EffectiveName(s.before.cluster.crs[k])))
  {
    hide Inv, Trace, Explained, Releases, Guarded, Served, SparesWorkloads, Removed, Attributed, Spared, LetGoOf;
    if k !in s.after.cluster.crs && s.seen {
      LetGoMeans(cfg, k, s.log, s.run, s.after, s.seen);
    }
  }

  lemma BucketGoesStep(cfg: Config, s: Step, k: ObjKey)
    requires PassOver(s, k) && PassWent(cfg, s) && Inv(cfg, s.before)
    requires k in s.before.cluster.crs && s.before.cluster.crs[k].deleting
    requires EffectiveName(s.before.cluster.crs[k]) in s.before.cloud.buckets
    requires EffectiveName(s.before.cluster.crs[k]) !in s.after.cloud.buckets
    ensures k !in s.after.cluster.crs ==>
              s.seen && !Spared(s.run, DeleteBucket(EffectiveName(s.before.cluster.crs[k])))
  {
    hide Inv, Trace, Explained, Releases, Guarded, Served, SparesWorkloads, Removed, Attributed, Spared, TearsDown;
    TraceTearsDown(cfg, k, s.log, s.run, s.after);
    SparedMeansLeft(cfg, s.run, s.after, k, DeleteBucket(EffectiveName(s.before.cluster.crs[k])));
  }

  lemma {:induction false} FarewellMoves(cfg: Config, steps: seq<Step>, w: World, k: ObjKey, i: nat)
    requires Farewell(cfg, steps, w, k) && i <= |steps|
    ensures var u := WorldBefore(steps, w, 0);
            && Underway(cfg, u, WorldBefore(steps, w, i), k)
            && (Stranded(cfg, u, WorldBefore(steps, w, i), k) <==>
                  exists j :: 0 <= j < i && Misses(cfg, u, steps[j], k))
  {
    hide Inv, Underway, Stranded, Misses, Went, Removable;
    var u := WorldBefore(steps, w, 0);
    if i == 0 {
      NothingIsMissed(cfg, u, k);
    } else {
      FarewellMoves(cfg, steps, w, k, i - 1);
      CourseIsSound(cfg, steps, w, i - 1);
      var s := steps[i - 1];
      assert Went(cfg, s) && s.after == WorldBefore(steps, w, i) && s.before == WorldBefore(steps, w, i - 1);
      TeardownMoves(cfg, u, s, k);
      StepStrands(cfg, u, s, k);
    }
  }

  lemma NothingIsMissed(cfg: Config, u: World, k: ObjKey)
    requires Removable(cfg, u, k)
    ensures Underway(cfg, u, u, k) && !Stranded(cfg, u, u, k)
  {
    StatusReleases(cfg, u, u, u.cluster.crs[k].status, k);
  }

  /**
   Teardown is restartable: however many passes were cut short, and wherever, one failure-free
   pass over the object finishes the job, even with deleted groups still in the listing.
   */
  lemma FinishTeardown(cfg: Config, steps: seq<Step>, w: World, k: ObjKey)
    requires Farewell(cfg, steps, w, k) && cfg.adminSecret.ns != "" && steps != []
    requires var last := steps[|steps| - 1]; PassOver(last, k) && last.item.sky.Calm? && last.item.admitted
    ensures k !in w.cluster.crs
    ensures k in steps[|steps| - 1].before.cluster.crs ==>
              steps[|steps| - 1].end.EndsGone? && Removed(cfg, steps[|steps| - 1].before, w, k)
  {
    hide Inv, Trace, Stranded, Misses, Explained, Releases, Guarded, Served, SparesWorkloads, Removed, Removable,
      LetGoOf;
    var u, s := WorldBefore(steps, w, 0), steps[|steps| - 1];
    FarewellMoves(cfg, steps, w, k, |steps| - 1);
    assert Went(cfg, s) && s.after == w;
    if k in s.before.cluster.crs {
      ReleasedIsAlike(cfg, u, s.before, k);
      RemovedIsGone(cfg, s.before, w, k);
    }
  }

  lemma RemovedIsGone(cfg: Config, w: World, w': World, k: ObjKey)
    requires k in w.cluster.crs && Removed(cfg, w, w', k)
    ensures k !in w'.cluster.crs
  {
  }

  /**
   What the passes together have removed, once the object is gone: bucket, attributed groups and
   Secret, exactly if no pass let the object go past a bucket that the listing hid or the call to
   delete it spared, and none deleted the bucket after the call to delete its group spared that.
   */
  lemma TeardownIsComplete(cfg: Config, steps: seq<Step>, w: World, k: ObjKey)
    requires Farewell(cfg, steps, w, k) && k !in w.cluster.crs
    ensures var u := WorldBefore(steps, w, 0);
            Removed(cfg, u, w, k) <==> forall j :: 0 <= j < |steps| ==> !Misses(cfg, u, steps[j], k)
  {
    hide Inv, Misses, Went, Releases, Removable, Attributed;
    FarewellMoves(cfg, steps, w, k, |steps|);
  }

  /** No gateway's 404 page turned up in the pass, and its listing did not hide the bucket n. */
  ghost predicate PlainSight(s: Step, n: string) {
    s.item.Pass? ==> !Paged(s.item.sky) && (n in s.before.cloud.buckets ==> s.seen)
  }

  lemma PlainSightMissesNothing(cfg: Config, u: World, s: Step, k: ObjKey)
    requires k in u.cluster.crs && Inv(cfg, u) && Inv(cfg, s.before) && u.cluster.crs[k].deleting
    requires Underway(cfg, u, s.before, k) && Went(cfg, s) && (PassOver(s, k) || s.item.Restart?)
    requires PlainSight(s, EffectiveName(u.cluster.crs[k]))
    ensures !Misses(cfg, u, s, k)
  {
    hide Inv, Trace, Explained, Releases, Guarded, Served, SparesWorkloads, Removed, Attributed, Spared, LetGoOf,
      Removable, Paged;
    var n := EffectiveName(u.cluster.crs[k]);
    if s.item.Pass? && k in s.before.cluster.crs && n in s.before.cloud.buckets {
      ReleasedIsAlike(cfg, u, s.before, k);
      if n in s.after.cloud.buckets {
        RemovableInView(cfg, s.before, k, s.seen);
      } else {
        BucketGoesStep(cfg, s, k);
        forall g: nat | Attributed(cfg, u, k, g)
          ensures !Spared(s.run, DeleteGroup(g))
        {
          GroupOutlives(cfg, u, s, k, g);
          AttributedThrough(cfg, u, s.before, k, g);
          ReleasesIds(cfg, u, s.before, k);
          if g !in s.before.cloud.groups {
            GoneStaysGone(cfg, s, k, g);
          }
        }
      }
    }
  }

  lemma RemovableInView(cfg: Config, w: World, k: ObjKey, seen: bool)
    requires k in w.cluster.crs && Removable(cfg, w, k) && seen
    ensures InView(cfg, w, k, seen)
  {
  }

  /**
   Where no gateway answers for the provider and no listing hides the bucket, the object goes only
   once bucket, attributed groups and Secret are gone, wherever passes before were cut short.
   */
  lemma PlainTeardownIsComplete(cfg: Config, steps: seq<Step>, w: World, k: ObjKey)
    requires Farewell(cfg, steps, w, k) && k !in w.cluster.crs
    requires var n := EffectiveName(WorldBefore(steps, w, 0).cluster.crs[k]);
             forall j :: 0 <= j < |steps| ==> PlainSight(steps[j], n)
    ensures Removed(cfg, WorldBefore(steps, w, 0), w, k)
  {
    hide Inv, Misses, Went, Removable, Removed, Underway, Stranded, PlainSight;
    var u := WorldBefore(steps, w, 0);
    forall j | 0 <= j < |steps|
      ensures !Misses(cfg, u, steps[j], k)
    {
      FarewellMoves(cfg, steps, w, k, j);
      CourseIsSound(cfg, steps, w, j);
      assert Went(cfg, steps[j]) && steps[j].before == WorldBefore(steps, w, j);
      PlainSightMissesNothing(cfg, u, steps[j], k);
    }
    TeardownIsComplete(cfg, steps, w, k);
  }

  /******* The published credential *******/

  /** Where failed calls have no effect and no rollback of a minted key fails, no key is left loose. */
  lemma TidyPassIsClean(cfg: Config, s: Step)
    requires Went(cfg, s) && s.item.Pass?
    ensures Tidy(s.item.sky) && (forall key: nat :: !RollbackFailed(s.run, key)) ==> LooseOf(s.run) == {}
    ensures s.item.sky.Calm? ==> LooseOf(s.run) == {}
  {
    hide Trace, TakesDown, KeepsFaith, Converges, EndsInOrder, HeldInOrder, LooseOf;
    TraceIsChain(cfg, s.item.key, s.log, s.run, s.after);
    if Tidy(s.item.sky) && LooseOf(s.run) != {} {
      var key :| key in LooseOf(s.run);
      assert RollbackFailed(s.run, key);
    }
  }

  /**
   The step leaves the credential of k alone: a pass over k leaves no key loose, one over another
   Bucket publishes nothing to the Secret of k, and an event changes neither the decided name nor
   the Secret reference of k and at most loses its Secret, or makes k anew.
   */
  predicate Untroubled(cfg: Config, s: Step, k: ObjKey) {
    match s.item
    case Pass(key, _, _, _, _) =>
      if key == k then LooseOf(s.run) == {} else forall i :: 0 <= i < |s.run| ==> !Intrudes(s.run[i], k)
    case Event(_) => KeepsPublished(cfg, s.before, s.after, k)
    case Restart => true
  }

  lemma StepKeepsTrust(cfg: Config, s: Step, k: ObjKey)
    requires Went(cfg, s) && Inv(cfg, s.before) && Schema(s.before) && '/' !in k.ns && Trustworthy(cfg, s.before, k)
    requires Untroubled(cfg, s, k)
    ensures Trustworthy(cfg, s.after, k)
  {
    hide Inv, Trace, Trustworthy, KeepsPublished, Happens, Intrudes, LooseOf, Explained, Trusted, Works, TakesDown,
      Converges, EndsInOrder, HeldInOrder, Schema, Chain;
    match s.item
    case Restart =>
    case Event(_) => OutsideKeepsTrust(cfg, s.before, s.after, k);
    case Pass(key, _, _, _, _) =>
      if key != k || (k in s.before.cluster.crs ==> s.before.cluster.crs[k].deleting) {
        PassIsCalls(cfg, s);
        OwnOrOthers(s, k);
        PassKeepsTrust(cfg, k, key, s.log, s.run, s.after);
      } else {
        StepIsChain(cfg, s);
        TraceIsChain(cfg, key, s.log, s.run, s.after);
        RunKeepsSchema(cfg, s.run, s.after, |s.run|);
        TrustedMeans(cfg, s.before, k);
        TrustedMeans(cfg, s.after, k);
      }
  }

  /** No pass over k intrudes upon k itself. */
  lemma OwnOrOthers(s: Step, k: ObjKey)
    requires s.item.Pass? && forall i :: 0 <= i < |s.run| ==> s.run[i].move.Call? && s.run[i].move.key == s.item.key
    requires s.item.key != k ==> forall i :: 0 <= i < |s.run| ==> !Intrudes(s.run[i], k)
    ensures forall i :: 0 <= i < |s.run| ==> !Intrudes(s.run[i], k)
  {
  }

  /** Through untroubled steps the key in the group of k, if any, is the published one. */
  lemma {:induction false} TrustHolds(cfg: Config, steps: seq<Step>, w: World, k: ObjKey, i: nat)
    requires Course(cfg, steps, w) && i <= |steps| && '/' !in k.ns
    requires var u := WorldBefore(steps, w, 0); Inv(cfg, u) && Schema(u) && Trustworthy(cfg, u, k)
    requires forall j :: 0 <= j < i ==> Untroubled(cfg, steps[j], k)
    ensures Trustworthy(cfg, WorldBefore(steps, w, i), k)
  {
    hide Inv, Went, Trustworthy, Untroubled, Schema;
    if i > 0 {
      TrustHolds(cfg, steps, w, k, i - 1);
      CourseIsSound(cfg, steps, w, i - 1);
      assert Went(cfg, steps[i - 1]) && steps[i - 1].after == WorldBefore(steps, w, i);
      StepKeepsTrust(cfg, steps[i - 1], k);
    }
  }

  /**
   A Ready end means a working credential: in any interleaving of passes, events and restarts, the
   creation and first pass of k included, a pass over k that ends Ready leaves the Secret's key
   live in the attributed group, as long as all steps before it were untroubled.
   */
  lemma ReadyMeansWorking(cfg: Config, steps: seq<Step>, w: World, k: ObjKey, i: nat)
    requires Course(cfg, steps, w) && i < |steps| && '/' !in k.ns
    requires var u := WorldBefore(steps, w, 0); Inv(cfg, u) && Schema(u) && Trustworthy(cfg, u, k)
    requires forall j :: 0 <= j < i ==> Untroubled(cfg, steps[j], k)
    requires PassOver(steps[i], k) && steps[i].end.EndsReady?
    ensures KeyWorks(cfg, steps[i].after, k)
  {
    hide Inv, Trustworthy, Untroubled, Schema, Trusted, Works, TakesDown, Converges, EndsInOrder, KeyWorks, Trace,
      Chain;
    TrustHolds(cfg, steps, w, k, i);
    CourseIsSound(cfg, steps, w, i);
    assert Went(cfg, steps[i]);
    TrustedMeans(cfg, steps[i].before, k);
  }

  /******* Held Ready *******/

  /**
   A pass without success whose record is in place: a failure whose last status write took, other
   than the loss of the terminal answer; or a breaker-held visit that had nothing to write or wrote it.
   */
  predicate OnRecord(cfg: Config, s: Step)
    requires s.item.Pass? && s.item.key in s.before.cluster.crs
  {
    if s.item.admitted then s.end.EndsFailed? && LastStatus(s.run).Some? && LastTook(s.run) && !Declares(s.run)
    else && s.end.EndsWaiting?
         && (HoldNeedsWrite(cfg.grace, s.before.cluster.crs[s.item.key].status, s.item.time) ==> LastTook(s.run))
  }

  lemma WriteLeavesOthers(cfg: Config, w: World, k: ObjKey, actor: ObjKey, wr: Write)
    requires Accepts(w, actor, wr) && Licensed(cfg, w, actor, wr) && k in w.cluster.crs && !w.cluster.crs[k].deleting
    ensures var w' := Effect(cfg, w, actor, wr);
            k in w'.cluster.crs && !w'.cluster.crs[k].deleting && (actor != k ==> w'.cluster.crs[k] == w.cluster.crs[k])
  {
  }

  /**
   Passes do not remove or delete an object that is not being deleted, and those over other Buckets
   leave it as it is.
   */
  lemma {:induction false} CallsLeaveOthers(cfg: Config, run: seq<Turn>, w: World, k: ObjKey, actor: ObjKey, i: nat)
    requires Chain(cfg, run, w) && i <= |run| && forall j :: 0 <= j < |run| ==>
               run[j].move.Call? && run[j].move.key == actor
    requires Provisionable(WorldAt(run, w, 0), k)
    ensures Provisionable(WorldAt(run, w, i), k)
    ensures actor != k ==> WorldAt(run, w, i).cluster.crs[k] == WorldAt(run, w, 0).cluster.crs[k]
  {
    hide Licensed, Accepts, Effect;
    if i > 0 {
      CallsLeaveOthers(cfg, run, w, k, actor, i - 1);
      var t := run[i - 1];
      assert TurnOK(cfg, t) && After(cfg, t) == WorldAt(run, w, i) && t.move.Call? && t.move.key == actor;
      if t.move.took {
        WriteLeavesOthers(cfg, t.world, k, actor, t.move.write);
      }
    }
  }

  /** A pass on record holds Ready only on record itself, unmoved and within the grace. */
  lemma RecordEndures(cfg: Config, s: Step)
    requires Went(cfg, s) && s.item.Pass? && Provisionable(s.before, s.item.key) && OnRecord(cfg, s)
    requires cfg.grace > 0 && s.item.time <= s.item.recorded
    requires Coherent(s.before.cluster.crs[s.item.key].status)
    ensures s.item.key in s.after.cluster.crs
    ensures Endures(cfg.grace, s.before.cluster.crs[s.item.key].status,
                    s.after.cluster.crs[s.item.key].status, s.item.time)
  {
    hide Trace, Explained, KeepsFaith, Converges, Served, Quiet, AfterHold, ClonePending;
    HoldEndures(cfg.grace, s.before.cluster.crs[s.item.key], s.item.time, s.item.recorded);
  }

  /** The step, if it is over k, ends without success and goes on record; outside, nobody touches its status. */
  ghost predicate Ailing(cfg: Config, s: Step, k: ObjKey) {
    match s.item
    case Pass(key, _, time, recorded, _) =>
      key == k ==> time <= recorded && (Provisionable(s.before, k) ==> OnRecord(cfg, s))
    case Event(_) =>
      Provisionable(s.before, k) ==>
        Provisionable(s.after, k) && s.after.cluster.crs[k].status == s.before.cluster.crs[k].status
    case Restart => true
  }

  lemma AilingStep(cfg: Config, s: Step, k: ObjKey)
    requires Went(cfg, s) && Ailing(cfg, s, k) && Provisionable(s.before, k) && cfg.grace > 0
    requires Coherent(s.before.cluster.crs[k].status)
    ensures Provisionable(s.after, k)
    ensures if PassOver(s, k)
            then Endures(cfg.grace, s.before.cluster.crs[k].status, s.after.cluster.crs[k].status, s.item.time)
            else s.after.cluster.crs[k].status == s.before.cluster.crs[k].status
  {
    hide Trace, PassWent, OnRecord, Endures, Happens, Chain, Coherent;
    StepIsChain(cfg, s);
    if s.item.Pass? {
      PassIsCalls(cfg, s);
      CallsLeaveOthers(cfg, s.run, s.after, k, s.item.key, |s.run|);
      if s.item.key == k {
        RecordEndures(cfg, s);
      }
    }
  }

  lemma PassIsCalls(cfg: Config, s: Step)
    requires s.item.Pass? && PassWent(cfg, s)
    ensures forall i :: 0 <= i < |s.run| ==> s.run[i].move.Call? && s.run[i].move.key == s.item.key
  {
    hide TakesDown, KeepsFaith, Converges, EndsInOrder, HeldInOrder, Explained;
    TraceIsChain(cfg, s.item.key, s.log, s.run, s.after);
  }

  /** k stays, and its status is never at odds with itself. */
  lemma {:induction false} AilingStays(cfg: Config, steps: seq<Step>, w: World, k: ObjKey, i: nat)
    requires Course(cfg, steps, w) && i <= |steps| && cfg.grace > 0
    requires var u := WorldBefore(steps, w, 0); Provisionable(u, k) && Coherent(u.cluster.crs[k].status)
    requires forall j :: 0 <= j < |steps| ==> Ailing(cfg, steps[j], k)
    ensures var v := WorldBefore(steps, w, i); Provisionable(v, k) && Coherent(v.cluster.crs[k].status)
  {
    hide Went, Ailing, Coherent;
    if i > 0 {
      AilingStays(cfg, steps, w, k, i - 1);
      var s := steps[i - 1];
      assert Went(cfg, s) && s.after == WorldBefore(steps, w, i) && s.before == WorldBefore(steps, w, i - 1);
      AilingStep(cfg, s, k);
    }
  }

  /** The status of k before step i. */
  function StatusBefore(steps: seq<Step>, w: World, k: ObjKey, i: nat): Status
    requires i <= |steps| && k in WorldBefore(steps, w, i).cluster.crs
  {
    WorldBefore(steps, w, i).cluster.crs[k].status
  }

  function StatusesOf(steps: seq<Step>, w: World, k: ObjKey): (states: seq<Status>)
    requires forall j :: 0 <= j <= |steps| ==> k in WorldBefore(steps, w, j).cluster.crs
    ensures |states| == |steps| + 1
    ensures forall j :: 0 <= j <= |steps| ==> states[j] == StatusBefore(steps, w, k, j)
  {
    seq(|steps| + 1, j requires 0 <= j <= |steps| => StatusBefore(steps, w, k, j))
  }

  /** When the passes over k took place. */
  function VisitsOf(steps: seq<Step>, k: ObjKey): (visits: seq<Option<int>>)
    ensures |visits| == |steps|
    ensures forall j :: 0 <= j < |steps| ==>
              visits[j] == if PassOver(steps[j], k) then Some(steps[j].item.time) else None
  {
    seq(|steps|, j requires 0 <= j < |steps| => if PassOver(steps[j], k) then Some(steps[j].item.time) else None)
  }

  /** k stays, and through the passes over it the stored status keeps Ready on record and within the grace. */
  ghost predicate Endured(cfg: Config, steps: seq<Step>, w: World, k: ObjKey) {
    && (forall j :: 0 <= j <= |steps| ==> Provisionable(WorldBefore(steps, w, j), k))
    && HeldWithin(cfg.grace, StatusesOf(steps, w, k), VisitsOf(steps, k))
  }

  predicate MovesAt(cfg: Config, steps: seq<Step>, w: World, k: ObjKey, j: nat)
    requires j < |steps|
  {
    && k in WorldBefore(steps, w, j).cluster.crs && k in WorldBefore(steps, w, j + 1).cluster.crs
    && Moves(cfg.grace, StatusBefore(steps, w, k, j), StatusBefore(steps, w, k, j + 1),
             if PassOver(steps[j], k) then Some(steps[j].item.time) else None)
  }

  lemma AilingMoves(cfg: Config, steps: seq<Step>, w: World, k: ObjKey, j: nat)
    requires Course(cfg, steps, w) && j < |steps| && cfg.grace > 0
    requires var u := WorldBefore(steps, w, 0); Provisionable(u, k) && Coherent(u.cluster.crs[k].status)
    requires forall j :: 0 <= j < |steps| ==> Ailing(cfg, steps[j], k)
    ensures MovesAt(cfg, steps, w, k, j)
  {
    hide Went, Ailing, Endures, Coherent;
    AilingStays(cfg, steps, w, k, j);
    AilingStays(cfg, steps, w, k, j + 1);
    assert Went(cfg, steps[j]) && steps[j].after == WorldBefore(steps, w, j + 1);
    AilingStep(cfg, steps[j], k);
  }

  /**
   Held Ready is bounded: through any course whose passes over k all go on record without success,
   the stored status keeps Ready only on record, unmoved and within the grace.
   */
  lemma EndureOutage(cfg: Config, steps: seq<Step>, w: World, k: ObjKey)
    requires Course(cfg, steps, w) && cfg.grace > 0
    requires var u := WorldBefore(steps, w, 0); Provisionable(u, k) && Coherent(u.cluster.crs[k].status)
    requires forall j :: 0 <= j < |steps| ==> Ailing(cfg, steps[j], k)
    ensures Endured(cfg, steps, w, k)
  {
    hide Went, Ailing, Moves, Coherent, Course, PassOver, HeldWithin;
    forall j | 0 <= j <= |steps|
      ensures Provisionable(WorldBefore(steps, w, j), k)
    {
      AilingStays(cfg, steps, w, k, j);
    }
    ghost var states, visits := StatusesOf(steps, w, k), VisitsOf(steps, k);
    forall j | 0 <= j < |steps|
      ensures Moves(cfg.grace, states[j], states[j + 1], visits[j])
    {
      AilingMoves(cfg, steps, w, k, j);
    }
    HeldReadyIsBounded(cfg.grace, states, visits);
  }

  /******* Breaker-held visits *******/

  function StatusWrites(h: seq<Turn>): nat {
    if h == [] then 0
    else StatusWrites(h[..|h| - 1]) + if h[|h| - 1].move.Call? && h[|h| - 1].move.write.PutStatus? then 1 else 0
  }

  lemma {:induction false} QuietWritesNothing(h: seq<Turn>)
    requires Quiet(h)
    ensures StatusWrites(h) == 0
  {
    if h != [] {
      QuietWritesNothing(h[..|h| - 1]);
    }
  }

  /** How often the passes over k among the first i steps called for a write of its status. */
  function WritesFor(steps: seq<Step>, k: ObjKey, i: nat): nat
    requires i <= |steps|
  {
    if i == 0 then 0
    else WritesFor(steps, k, i - 1) + if PassOver(steps[i - 1], k) then StatusWrites(steps[i - 1].run) else 0
  }

  /** The status writes that breaker-held visits still have to spend. */
  function Budget(s: Status): nat {
    if s.phase == PhaseFailed then 0 else if s.degradedSince.Some? then 1 else 2
  }

  lemma HeldVisit(cfg: Config, s: Step)
    requires Went(cfg, s) && s.item.Pass? && Provisionable(s.before, s.item.key) && OnRecord(cfg, s)
    requires !s.item.admitted && s.item.time <= s.item.recorded
    ensures s.item.key in s.after.cluster.crs
    ensures StatusWrites(s.run) + Budget(s.after.cluster.crs[s.item.key].status)
              <= Budget(s.before.cluster.crs[s.item.key].status)
  {
    hide Trace, Explained, KeepsFaith, Converges, Quiet;
    if HoldNeedsWrite(cfg.grace, s.before.cluster.crs[s.item.key].status, s.item.time) {
      QuietWritesNothing(s.run[..|s.run| - 1]);
    } else {
      QuietWritesNothing(s.run);
    }
  }

  /**
   An outage costs at most two status writes: along any course in which the breaker holds back
   every pass over k and those that have something to write write it, whatever else happens, all
   these passes together call for at most two writes of its status.
   */
  lemma {:induction false} HoldOut(cfg: Config, steps: seq<Step>, w: World, k: ObjKey, i: nat)
    requires Course(cfg, steps, w) && i <= |steps| && Provisionable(WorldBefore(steps, w, 0), k)
    requires forall j :: 0 <= j < i ==> Ailing(cfg, steps[j], k) && (PassOver(steps[j], k) ==> !steps[j].item.admitted)
    ensures Provisionable(WorldBefore(steps, w, i), k)
    ensures WritesFor(steps, k, i) + Budget(StatusBefore(steps, w, k, i)) <= Budget(StatusBefore(steps, w, k, 0)) <= 2
  {
    hide Went, PassWent, OnRecord, Budget, StatusWrites, Happens, Chain;
    BudgetIsTwo(StatusBefore(steps, w, k, 0));
    if i > 0 {
      HoldOut(cfg, steps, w, k, i - 1);
      var s := steps[i - 1];
      assert Went(cfg, s) && s.after == WorldBefore(steps, w, i) && s.before == WorldBefore(steps, w, i - 1);
      assert Ailing(cfg, s, k);
      HeldStep(cfg, s, k);
    }
  }

  lemma BudgetIsTwo(s: Status)
    ensures Budget(s) <= 2
  {
  }

  lemma HeldStep(cfg: Config, s: Step, k: ObjKey)
    requires Went(cfg, s) && Ailing(cfg, s, k) && Provisionable(s.before, k)
    requires PassOver(s, k) ==> !s.item.admitted
    ensures Provisionable(s.after, k)
    ensures (if PassOver(s, k) then StatusWrites(s.run) else 0) + Budget(s.after.cluster.crs[k].status)
              <= Budget(s.before.cluster.crs[k].status)
  {
    hide Trace, PassWent, OnRecord, Happens, Chain, Budget, StatusWrites;
    StepIsChain(cfg, s);
    if s.item.Pass? {
      PassIsCalls(cfg, s);
      CallsLeaveOthers(cfg, s.run, s.after, k, s.item.key, |s.run|);
      if s.item.key == k {
        HeldVisit(cfg, s);
      }
    }
  }
}
