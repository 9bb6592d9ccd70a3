/**
 What a Bucket says about its own health (internal/controller/bucket_controller.go, fail,
 degrade, markFailed, holdForProvider): Ready is held through failures that carry no
 information about the Bucket, for a bounded time.
 */
module Health {
  import opened Wrappers
  import opened Errors
  import opened Resources

  /** holdsReadyThrough: may the Ready state survive this error? */
  predicate HoldsReadyThrough(grace: int, b: Bucket, e: Error) {
    && grace > 0 && !b.deleting && !ProviderRefused(e) && !e.CredentialDestroyed?
    && b.status.observedGeneration == b.generation && b.status.phase == PhaseReady && b.status.ready == IsReady
  }

  predicate WithinGrace(grace: int, s: Status, now: int) {
    s.degradedSince.Some? ==> now - s.degradedSince.value < grace
  }

  function MarkedFailed(b: Bucket, missing: bool): Status {
    b.status.(phase := PhaseFailed, ready := NotReady(missing), observedGeneration := b.generation)
  }

  /** The status a failed pass records: degraded while the hold lasts, failed otherwise. */
  function AfterFailure(grace: int, b: Bucket, e: Error, now: int): Status {
    if HoldsReadyThrough(grace, b, e) && WithinGrace(grace, b.status, now)
    then b.status.(degradedSince := if b.status.degradedSince.None? then Some(now)
        else b.status.degradedSince, unreachable := true)
    else MarkedFailed(b, false)
  }

  /** providerHoldNeedsWrite: would a breaker-held visit record anything new? */
  predicate HoldNeedsWrite(grace: int, s: Status, now: int) {
    if s.phase == PhaseFailed then false
    else if s.degradedSince.None? then true
    else grace > 0 && now - s.degradedSince.value >= grace
  }

  /** A breaker-held visit: the clock is read once to decide and once more to record. */
  function AfterHold(grace: int, b: Bucket, checked: int, recorded: int): Status {
    if HoldNeedsWrite(grace, b.status, checked) then AfterFailure(grace, b, ProviderHeld, recorded) else b.status
  }

  function ClearedDegraded(s: Status): Status {
    s.(degradedSince := None, unreachable := false)
  }

  /******* Held Ready is bounded *******/

  /**
   What a visit at time t that ends without success may make of a status: Ready is held only on
   record and within the grace.
   */
  predicate Endures(grace: int, s: Status, s': Status, t: int) {
    && (Coherent(s) ==> Coherent(s'))
    && (s'.ready == IsReady ==>
          && s.ready == IsReady && s'.degradedSince.Some? && t - s'.degradedSince.value < grace
          && (s.degradedSince.Some? ==> s'.degradedSince == s.degradedSince))
  }

  lemma FailureEndures(grace: int, b: Bucket, e: Error, now: int)
    ensures Endures(grace, b.status, AfterFailure(grace, b, e, now), now)
  {
  }

  lemma HoldEndures(grace: int, b: Bucket, checked: int, recorded: int)
    requires grace > 0 && Coherent(b.status) && checked <= recorded
    ensures Endures(grace, b.status, AfterHold(grace, b, checked, recorded), checked)
  {
  }

  /** What becomes of a status: at a visit without success it endures, otherwise it is left alone. */
  predicate Moves(grace: int, s: Status, s': Status, visit: Option<int>) {
    match visit
    case Some(t) => Endures(grace, s, s', t)
    case None => s' == s
  }

  /**
   Ready at the end means that it was true all along, and from the first visit on the degradation
   is on record, was not moved since (nor before, if it was on record already), and was younger
   than the grace at every visit.
   */
  predicate HeldWithin(grace: int, states: seq<Status>, visits: seq<Option<int>>)
    requires |states| == |visits| + 1
  {
    var first, last := states[0], states[|visits|];
    last.ready == IsReady ==>
      && (forall i :: 0 <= i <= |visits| ==> states[i].ready == IsReady)
      && (first.degradedSince.Some? ==> last.degradedSince == first.degradedSince)
      && (forall i :: 0 <= i < |visits| && visits[i].Some? ==>
            && last.degradedSince.Some? && visits[i].value - last.degradedSince.value < grace
            && states[i + 1].degradedSince == last.degradedSince)
  }

  /** Through any sequence of visits without success, whatever comes in between, Ready is held within the grace. */
  lemma {:induction false} HeldReadyIsBounded(grace: int, states: seq<Status>, visits: seq<Option<int>>)
    requires |states| == |visits| + 1
    requires forall i :: 0 <= i < |visits| ==> Moves(grace, states[i], states[i + 1], visits[i])
    ensures HeldWithin(grace, states, visits)
  {
    var n := |visits|;
    if n > 0 {
      assert Moves(grace, states[n - 1], states[n], visits[n - 1]);
      HeldReadyIsBounded(grace, states[..n], visits[..n - 1]);
    }
  }

  /******* Breaker-held visits *******/

  datatype Visit = Visit(checked: int, recorded: int)

  function AfterVisits(grace: int, b: Bucket, visits: seq<Visit>): Bucket {
    if visits == [] then b
    else
      var before, last := AfterVisits(grace, b, visits[..|visits| - 1]), visits[|visits| - 1];
      before.(status := AfterHold(grace, before, last.checked, last.recorded))
  }

  /** How often a sequence of breaker-held visits writes status. */
  function HoldWrites(grace: int, b: Bucket, visits: seq<Visit>): nat {
    if visits == [] then 0
    else
      var front, last := visits[..|visits| - 1], visits[|visits| - 1];
      HoldWrites(grace, b, front) + if HoldNeedsWrite(grace, AfterVisits(grace, b, front).status, last.checked) then 1
          else 0
  }

  /** An outage costs at most two status writes per Bucket, however long it lasts. */
  lemma {:induction false} HoldsWriteAtMostTwice(grace: int, b: Bucket, visits: seq<Visit>)
    requires forall i :: 0 <= i < |visits| ==> visits[i].checked <= visits[i].recorded
    ensures HoldWrites(grace, b, visits) <= 2
    ensures var s := AfterVisits(grace, b, visits).status;
            && (HoldWrites(grace, b, visits) >= 1 ==> s.phase == PhaseFailed || s.degradedSince.Some?)
            && (HoldWrites(grace, b, visits) >= 2 ==> s.phase == PhaseFailed)
            && AfterVisits(grace, b, visits) == b.(status := s)
  {
    if visits != [] {
      HoldsWriteAtMostTwice(grace, b, visits[..|visits| - 1]);
      assert visits[|visits| - 1].checked <= visits[|visits| - 1].recorded;
    }
  }

  /** A destroyed credential or the provider's own refusal drops Ready at once, whatever the grace. */
  lemma DefinitiveFailureDropsReady(grace: int, b: Bucket, e: Error, now: int)
    requires e.CredentialDestroyed? || ProviderRefused(e)
    ensures AfterFailure(grace, b, e, now).phase == PhaseFailed
    ensures AfterFailure(grace, b, e, now).ready == NotReady(false)
  {
  }
}
