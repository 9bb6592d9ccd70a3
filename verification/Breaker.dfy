/**
 The fleet-wide provider circuit breaker of internal/controller/breaker.go.

 `ProviderBreaker` keeps four fields. The specification is written over the history of
 reported outcomes instead: the length of the closing run of failures, the failure that
 tripped the breaker, and the failed probes since. The class invariant ties the two together.
 */
module Breaker {
  import opened Wrappers

  const MINUTE: int := 60_000_000_000
  const BASE_COOLDOWN: int := MINUTE
  const DEFAULT_MAX_COOLDOWN: int := 5 * MINUTE

  const HALF_RANGE: int := 0x4000_0000_0000_0000

  /** Doubling a 64-bit Duration, with two's-complement wrap-around. */
  function Double64(x: int): int {
    if x >= HALF_RANGE then 2 * x - 4 * HALF_RANGE
    else if x < -HALF_RANGE then 2 * x + 4 * HALF_RANGE
    else 2 * x
  }

  function Min(a: int, b: int): int {
    if a <= b then a else b
  }

  /** One reported reconcile outcome and when it was reported. */
  datatype Report = Report(at: int, failed: bool)

  /******* The specification, over histories *******/

  /** How many failures the history ends with. */
  function Run(h: seq<Report>): (n: nat)
    ensures n <= |h|
    ensures forall i :: |h| - n <= i < |h| ==> h[i].failed
    ensures n < |h| ==> !h[|h| - n - 1].failed
  {
    if h == [] || !h[|h| - 1].failed then 0 else 1 + Run(h[..|h| - 1])
  }

  predicate Open(threshold: nat, h: seq<Report>) {
    threshold >= 1 && Run(h) >= threshold
  }

  /** The failure that opened the current episode. */
  function Trip(threshold: nat, h: seq<Report>): int
    requires Open(threshold, h)
  {
    h[|h| - Run(h) + threshold - 1].at
  }

  /** The cooldown as the code computes it: doubled in 64 bits, then capped. */
  function Cooldown(max: int, k: nat): int {
    if k == 0 then Min(BASE_COOLDOWN, max) else Min(Double64(Cooldown(max, k - 1)), max)
  }

  /** How many probes failed in the current episode, and when the last trip or failed probe was. */
  function Probes(threshold: nat, max: int, h: seq<Report>): (nat, int)
    requires Open(threshold, h)
    decreases |h|
  {
    var t, before := h[|h| - 1].at, h[..|h| - 1];
    if !Open(threshold, before) then (0, t)
    else
      var (k, armed) := Probes(threshold, max, before);
      if t < armed + Cooldown(max, k) then (k, armed) else (k + 1, t)
  }

  function OpenUntil(threshold: nat, max: int, h: seq<Report>): int
    requires Open(threshold, h)
  {
    var (k, armed) := Probes(threshold, max, h);
    armed + Cooldown(max, k)
  }

  /** How one more failure changes the specification. */
  lemma FailureStep(threshold: nat, max: int, h: seq<Report>, t: int)
    requires threshold >= 1
    ensures var h' := h + [Report(t, true)];
            && Run(h') == Run(h) + 1
            && (Open(threshold, h') <==> Run(h) + 1 >= threshold)
            && (Open(threshold, h') && !Open(threshold, h) ==>
                  Trip(threshold, h') == t && Probes(threshold, max, h') == (0, t))
            && (Open(threshold, h) ==>
                  var (k, armed) := Probes(threshold, max, h);
                  && Trip(threshold, h') == Trip(threshold, h)
                  && Probes(threshold, max, h') == if t < armed + Cooldown(max, k) then (k, armed) else (k + 1, t))
  {
    assert (h + [Report(t, true)])[..|h|] == h;
  }

  /******* The breaker *******/

  class ProviderBreaker {
    const threshold: int
    const maxCooldown: int
    var consecutive: nat
    var cooldown: int
    var openUntil: Option<int>
    var openedAt: Option<int>
    ghost var history: seq<Report>

    predicate Enabled() { threshold >= 1 }

    ghost predicate Valid()
      reads this
    {
      && maxCooldown >= BASE_COOLDOWN
      && (!Enabled() ==> consecutive == 0 && openUntil == None && openedAt == None)
      && (Enabled() ==>
            && consecutive == Run(history)
            && (Open(threshold, history) ==>
                  && openedAt == Some(Trip(threshold, history))
                  && openUntil == Some(OpenUntil(threshold, maxCooldown, history))
                  && cooldown == Cooldown(maxCooldown, Probes(threshold, maxCooldown, history).0))
            && (!Open(threshold, history) ==> openedAt == None && openUntil == None))
    }

    constructor (threshold: int, max: int)
      ensures Valid() && history == [] && this.threshold == threshold
      ensures maxCooldown == if max <= 0 then DEFAULT_MAX_COOLDOWN
              else if max < BASE_COOLDOWN then BASE_COOLDOWN else max
    {
      var m := max;
      if m <= 0 {
        m := DEFAULT_MAX_COOLDOWN;
      }
      if m < BASE_COOLDOWN {
        m := BASE_COOLDOWN;
      }
      this.threshold := threshold;
      maxCooldown := m;
      consecutive, cooldown, openUntil, openedAt := 0, 0, None, None;
      history := [];
    }

    /** A reconcile is held exactly while the breaker is open and its next probe is not due. */
    method Allow(now: int) returns (wait: int, allowed: bool)
      requires Valid()
      ensures !allowed <==> Enabled() && Open(threshold, history) && now < OpenUntil(threshold, maxCooldown, history)
      ensures wait == if allowed then 0 else OpenUntil(threshold, maxCooldown, history) - now
    {
      if !Enabled() {
        return 0, true;
      }
      if openUntil.None? {
        return 0, true;
      }
      var remaining := openUntil.value - now;
      if remaining <= 0 {
        return 0, true;
      }
      return remaining, false;
    }

    method Failure(now: int) returns (wait: int, open: bool)
      requires Valid()
      modifies this
      ensures Valid()
      ensures history == old(history) + [Report(now, true)]
      ensures open <==> Enabled() && Open(threshold, history)
      ensures open ==> wait == OpenUntil(threshold, maxCooldown, history) - now
      ensures !open ==> wait == 0
    {
      hide Run, Probes, Trip;
      if Enabled() {
        FailureStep(threshold, maxCooldown, history, now);
      }
      history := history + [Report(now, true)];
      if !Enabled() {
        return 0, false;
      }
      consecutive := consecutive + 1;
      if consecutive < threshold {
        return 0, false;
      }
      if openUntil.None? {
        cooldown := BASE_COOLDOWN;
        openedAt := Some(now);
      } else if now < openUntil.value {
        return openUntil.value - now, true;
      } else {
        cooldown := Double64(cooldown);
      }
      if cooldown > maxCooldown {
        cooldown := maxCooldown;
      }
      openUntil := Some(now + cooldown);
      return cooldown, true;
    }

    method Success(now: int)
      requires Valid()
      modifies this
      ensures Valid()
      ensures history == old(history) + [Report(now, false)]
    {
      history := history + [Report(now, false)];
      if !Enabled() {
        return;
      }
      consecutive, cooldown, openUntil, openedAt := 0, 0, None, None;
    }

    method OpenedAt() returns (since: Option<int>)
      requires Valid()
      ensures since == if Enabled() && Open(threshold, history) then Some(Trip(threshold, history)) else None
    {
      if !Enabled() || openedAt.None? {
        return None;
      }
      return openedAt;
    }
  }

  /******* What the specification promises *******/

  /** Open exactly when the last `threshold` outcomes all failed. */
  lemma OpenIffLastOutcomesFailed(threshold: nat, h: seq<Report>)
    requires threshold >= 1
    ensures Open(threshold, h) <==> threshold <= |h| && forall i :: |h| - threshold <= i < |h| ==> h[i].failed
  {
    if threshold <= |h| && Run(h) < threshold {
      assert !h[|h| - Run(h) - 1].failed;
    }
  }

  /** The reported opening time is that of the failure which turned a closed breaker open. */
  lemma OpenedByTheTrippingFailure(threshold: nat, h: seq<Report>)
    requires Open(threshold, h)
    ensures var i := |h| - Run(h) + threshold - 1;
            && 0 <= i < |h| && h[i] == Report(Trip(threshold, h), true)
            && !Open(threshold, h[..i]) && forall j :: i < j <= |h| ==> Open(threshold, h[..j])
  {
    var i := |h| - Run(h) + threshold - 1;
    forall j | i <= j <= |h|
      ensures Run(h[..j]) == Run(h) - (|h| - j)
    {
      RunOfPrefix(h, j);
    }
  }

  lemma {:induction false} RunOfPrefix(h: seq<Report>, j: nat)
    requires |h| - Run(h) <= j <= |h|
    ensures Run(h[..j]) == Run(h) - (|h| - j)
    decreases |h|
  {
    if j == |h| {
      assert h[..j] == h;
    } else {
      RunOfPrefix(h[..|h| - 1], j);
      assert h[..|h| - 1][..j] == h[..j];
    }
  }

  /** A failure inside the window moves neither the schedule nor the probe count. */
  lemma InWindowFailureMovesNothing(threshold: nat, max: int, h: seq<Report>, t: int)
    requires Open(threshold, h) && t < OpenUntil(threshold, max, h)
    ensures Open(threshold, h + [Report(t, true)])
    ensures OpenUntil(threshold, max, h + [Report(t, true)]) == OpenUntil(threshold, max, h)
    ensures Probes(threshold, max, h + [Report(t, true)]) == Probes(threshold, max, h)
  {
    hide Run, Probes, Trip;
    FailureStep(threshold, max, h, t);
  }

  /** A failure once the window is over is a failed probe: it re-arms the breaker from that moment. */
  lemma FailedProbeRearms(threshold: nat, max: int, h: seq<Report>, t: int)
    requires Open(threshold, h) && t >= OpenUntil(threshold, max, h)
    ensures var k := Probes(threshold, max, h).0;
            && Open(threshold, h + [Report(t, true)])
            && Probes(threshold, max, h + [Report(t, true)]) == (k + 1, t)
            && OpenUntil(threshold, max, h + [Report(t, true)]) == t + Cooldown(max, k + 1)
  {
    hide Run, Probes, Trip;
    FailureStep(threshold, max, h, t);
  }

  function Waited(max: int, k: nat): int {
    if k == 0 then 0 else Waited(max, k - 1) + Cooldown(max, k - 1)
  }

  /**
   Probe spacing. The moment of the k-th failed probe (or of the trip, for k = 0) is no earlier
   than the opening of the episode plus the first k cooldowns.
   */
  lemma {:induction false} ProbesAreSpaced(threshold: nat, max: int, h: seq<Report>)
    requires Open(threshold, h)
    ensures var (k, armed) := Probes(threshold, max, h);
            armed >= Trip(threshold, h) + Waited(max, k)
    decreases |h|
  {
    var before := h[..|h| - 1];
    if Open(threshold, before) {
      ProbesAreSpaced(threshold, max, before);
    }
  }

  function Pow2(k: nat): int {
    if k == 0 then 1 else 2 * Pow2(k - 1)
  }

  lemma {:induction false} CooldownBelowHalfRange(max: int, k: nat)
    requires BASE_COOLDOWN <= max < HALF_RANGE
    ensures Cooldown(max, k) == Min(BASE_COOLDOWN * Pow2(k), max)
    ensures BASE_COOLDOWN <= Cooldown(max, k)
  {
    if k > 0 {
      CooldownBelowHalfRange(max, k - 1);
      assert BASE_COOLDOWN * Pow2(k) == 2 * (BASE_COOLDOWN * Pow2(k - 1));
    }
  }

  lemma {:induction false} Pow2Split(a: nat, b: nat)
    ensures Pow2(a + b) == Pow2(a) * Pow2(b)
  {
    if a > 0 {
      Pow2Split(a - 1, b);
    }
  }

  lemma Pow2At26()
    ensures Pow2(26) == 0x400_0000
  {
    assert Pow2(13) == 0x2000 by {
      assert Pow2(6) == 64;
      Pow2Split(6, 7);
      assert Pow2(7) == 2 * Pow2(6);
    }
    Pow2Split(13, 13);
  }

  lemma {:induction false} Pow2Grows(k: nat, m: nat)
    requires k <= m
    ensures 1 <= Pow2(k) <= Pow2(m)
  {
    if k < m {
      Pow2Grows(k, m - 1);
    } else if k > 0 {
      Pow2Grows(k - 1, k - 1);
    }
  }

  /** As long as doubling has not left the range, the wrapped schedule is the exact one. */
  lemma {:induction false} CooldownUpTo(max: int, k: nat)
    requires BASE_COOLDOWN <= max && k <= 27
    ensures Cooldown(max, k) == Min(BASE_COOLDOWN * Pow2(k), max)
    ensures Cooldown(max, k) >= BASE_COOLDOWN
  {
    if k > 0 {
      CooldownUpTo(max, k - 1);
      Pow2Grows(k - 1, 26);
      Pow2At26();
      var c := Cooldown(max, k - 1);
      assert BASE_COOLDOWN * Pow2(k) == 2 * (BASE_COOLDOWN * Pow2(k - 1));
      assert c < HALF_RANGE;
    }
  }

  /**
   Cooldown schedule. After k failed probes the cooldown is min(base * 2^k, max) for every k
   exactly when the cap stays below half the Duration range; above it the doubling wraps.
   */
  lemma CooldownScheduleIffCapBelowHalfRange(max: int)
    requires BASE_COOLDOWN <= max < 2 * HALF_RANGE
    ensures (forall k: nat :: Cooldown(max, k) == Min(BASE_COOLDOWN * Pow2(k), max)) <==> max < HALF_RANGE
  {
    if max < HALF_RANGE {
      forall k: nat
        ensures Cooldown(max, k) == Min(BASE_COOLDOWN * Pow2(k), max)
      {
        CooldownBelowHalfRange(max, k);
      }
    } else {
      CooldownUpTo(max, 27);
      Pow2At26();
      assert Pow2(27) == 0x800_0000;
      assert Cooldown(max, 27) >= HALF_RANGE;
      assert Cooldown(max, 28) < 0;
      assert Pow2(28) == 2 * Pow2(27);
      assert Cooldown(max, 28) != Min(BASE_COOLDOWN * Pow2(28), max);
    }
  }
}
