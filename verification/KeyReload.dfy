/**
 Reloading the service-account key (stackit/keyreload.go, stackit/client.go): validate a
 candidate, swap only when every check passed, and back off on content that was definitively
 rejected.
 */
module KeyReload {
  import opened Wrappers
  import opened Errors

  type Bytes = string

  /** The content hash, taken to be injective; NoHash is the empty string. */
  datatype Hash = NoHash | HashOf(content: Bytes)

  datatype Account = Account(project: string, issuer: string)

  /** What JSON decoding and the SDK's eager key parsing make of some bytes. */
  datatype Sdk = Sdk(decode: Bytes -> Option<Account>, builds: Bytes -> bool)

  /** parseAccount: bytes that are there, decode, and name a project. */
  function ParseAccount(sdk: Sdk, raw: Bytes): Option<Account> {
    if |raw| == 0 then None
    else
      var doc := sdk.decode(raw);
      if doc.None? || doc.value.project == "" then None else doc
  }

  /** One authenticated read with the candidate, or a shutdown of the process during the poll. */
  datatype Probe = Passed | ProbeFailed(error: Error) | Shutdown

  /******* The client *******/

  /** Everything the key decides: the API client (by the bytes it was built from), the account, the hash. */
  datatype ClientState = ClientState(api: Bytes, account: Account, keyHash: Hash)

  predicate Consistent(sdk: Sdk, st: ClientState) {
    && ParseAccount(sdk, st.api) == Some(st.account)
    && sdk.builds(st.api)
    && st.keyHash == HashOf(st.api)
  }

  datatype Rejection = Rejection(error: Error, definitive: bool)

  /** A candidate the operator may put to work: it parsed, names the same project, built, and passed the probe. */
  predicate Proven(sdk: Sdk, project: string, raw: Bytes, probe: Probe) {
    && ParseAccount(sdk, raw).Some?
    && ParseAccount(sdk, raw).value.project == project
    && sdk.builds(raw)
    && probe == Passed
  }

  class Client {
    const sdk: Sdk
    var state: ClientState
    var serviceReady: bool

    predicate Valid()
      reads this
    {
      Consistent(sdk, state)
    }

    function ProjectID(): string
      reads this
    {
      state.account.project
    }

    /** NewClient: account, hash and API client all come from one single read. */
    static method Load(sdk: Sdk, file: Option<Bytes>) returns (c: Option<Client>)
      ensures c.Some? <==> file.Some? && ParseAccount(sdk, file.value).Some? && sdk.builds(file.value)
      ensures c.Some? ==> fresh(c.value) && c.value.Valid() && c.value.sdk == sdk && c.value.state.api == file.value
    {
      if file.None? {
        return None;
      }
      var account := ParseAccount(sdk, file.value);
      if account.None? || !sdk.builds(file.value) {
        return None;
      }
      var client := new Client(sdk, file.value, account.value);
      return Some(client);
    }

    constructor (sdk: Sdk, raw: Bytes, account: Account)
      requires ParseAccount(sdk, raw) == Some(account) && sdk.builds(raw)
      ensures Valid() && this.sdk == sdk && state.api == raw && !serviceReady
    {
      this.sdk := sdk;
      state := ClientState(raw, account, HashOf(raw));
      serviceReady := false;
    }

    /** reload: nothing is swapped before the last check returned; a rejection is a complete no-op. */
    method Reload(raw: Bytes, account: Account, probe: Probe) returns (rejected: Option<Rejection>)
      requires Valid() && ParseAccount(sdk, raw) == Some(account)
      modifies this
      ensures Valid() && serviceReady == old(serviceReady)
      ensures rejected.None? <==> Proven(sdk, old(ProjectID()), raw, probe)
      ensures rejected.None? ==> state == ClientState(raw, account, HashOf(raw))
      ensures rejected.Some? ==> state == old(state)
      ensures rejected.Some? ==>
                (rejected.value.definitive <==>
                 account.project != old(ProjectID()) || !sdk.builds(raw)
                     || (probe.ProbeFailed? && ProviderRefused(probe.error)))
    {
      if account.project != ProjectID() {
        return Some(Rejection(SpecFault, true));
      }
      if !sdk.builds(raw) {
        return Some(Rejection(SpecFault, true));
      }
      var next := ClientState(raw, account, HashOf(raw));
      match probe {
        case Shutdown => return Some(Rejection(Transport, false));
        case ProbeFailed(e) => return Some(Rejection(e, ProviderRefused(e)));
        case Passed =>
      }
      state := next;
      return None;
    }
  }

  /******* The poll schedule, as a specification *******/

  const BACKOFF_MAX: int := 600_000_000_000

  function MaxWait(interval: int): (m: nat)
    requires interval > 0
    ensures m >= 1
  {
    var m := BACKOFF_MAX / interval;
    if m < 1 then 1 else m
  }

  /** The content a backoff was earned by, the gap to the retry after next, and the polls still skipped. */
  datatype Schedule = Schedule(hash: Hash, wait: int, left: int)

  /** What a poll makes of a candidate once it is examined. */
  datatype Verdict = Applied | Definitive | Transient | Abandoned

  function Judge(sdk: Sdk, project: string, raw: Bytes, probe: Probe): Verdict {
    var account := ParseAccount(sdk, raw);
    if account.None? then Definitive
    else if probe == Shutdown then Abandoned
    else if account.value.project != project || !sdk.builds(raw) then Definitive
    else match probe
      case Passed => Applied
      case ProbeFailed(e) => if ProviderRefused(e) then Definitive else Transient
  }

  /** What one poll saw: nothing readable, the live key, or a candidate and the verdict it would get. */
  datatype Sight = Unreadable | Live | Candidate(raw: Bytes, verdict: Verdict)

  predicate Attempts(s: Schedule, sight: Sight) {
    sight.Candidate? && !(HashOf(sight.raw) == s.hash && s.left > 0)
  }

  function Next(m: nat, s: Schedule, sight: Sight): Schedule {
    match sight
    case Unreadable => s.(left := 0)
    case Live => Schedule(NoHash, 1, 0)
    case Candidate(raw, verdict) =>
      if !Attempts(s, sight) then s.(left := s.left - 1)
      else match verdict
        case Applied => Schedule(NoHash, 1, 0)
        case Abandoned => s
        case Transient => s.(left := 0)
        case Definitive =>
          var gap := if HashOf(raw) == s.hash then s.wait else 1;
          Schedule(HashOf(raw), if 2 * gap <= m then 2 * gap else m, gap - 1)
  }

  /******* The poller *******/

  datatype Outcome = Unchanged | SwappedIn | Rejected
  datatype ReloadResult = ReloadResult(outcome: Outcome, hash: Hash, definitive: bool, repeated: bool)

  class KeyReloader {
    const client: Client
    const interval: int
    var lastHash: Hash
    var lastOutcome: Option<Outcome>
    var backoffHash: Hash
    var waitIntervals: int
    var ticksLeft: int

    ghost predicate Valid()
      reads this, client
    {
      client.Valid() && interval > 0 && WellPaced(MaxWait(interval), Current())
    }

    ghost function Current(): Schedule
      reads this
    {
      Schedule(backoffHash, waitIntervals, ticksLeft)
    }

    /** What a poll of this file content amounts to for the live client. */
    ghost function See(file: Option<Bytes>, probe: Probe): Sight
      reads client
    {
      if file.None? then Unreadable
      else if HashOf(file.value) == client.state.keyHash then Live
      else Candidate(file.value, Judge(client.sdk, client.ProjectID(), file.value, probe))
    }

    constructor (client: Client, interval: int)
      requires client.Valid() && interval > 0
      ensures Valid() && this.client == client && this.interval == interval && Current() == Schedule(NoHash, 1, 0)
    {
      this.client, this.interval := client, interval;
      lastHash, lastOutcome, backoffHash, waitIntervals, ticksLeft := NoHash, None, NoHash, 1, 0;
    }

    /** One poll. */
    method Tick(file: Option<Bytes>, probe: Probe) returns (result: Option<ReloadResult>)
      requires Valid()
      modifies this, client
      ensures Valid() && client.serviceReady == old(client.serviceReady)
      ensures Current() == Next(MaxWait(interval), old(Current()), old(See(file, probe)))
      // the live state changes only to a proven candidate, and then to exactly that candidate
      ensures client.state != old(client.state) ==>
                && file.Some? && Proven(client.sdk, old(client.ProjectID()), file.value, probe)
                && client.state ==
                    ClientState(file.value, ParseAccount(client.sdk, file.value).value, HashOf(file.value))
      ensures client.ProjectID() == old(client.ProjectID())
      // a poll stays silent exactly while a candidate backs off or is abandoned by a shutdown
      ensures result.None? <==>
                var sight := old(See(file, probe));
                sight.Candidate? && (!Attempts(old(Current()), sight) || sight.verdict == Abandoned)
      ensures result.Some? ==>
                && (result.value.outcome == SwappedIn <==>
                    old(See(file, probe)) == Candidate(if file.Some? then file.value else "", Applied))
                && (result.value.outcome == Unchanged <==> old(See(file, probe)) == Live)
                && (result.value.repeated <==>
                    old(lastOutcome) == Some(result.value.outcome) && old(lastHash) == result.value.hash)
                && lastOutcome == Some(result.value.outcome) && lastHash == result.value.hash
    {
      if file.None? {
        result := Reject(NoHash, false);
        return;
      }
      var raw := file.value;
      if HashOf(raw) == client.state.keyHash {
        result := Settle(Unchanged, HashOf(raw));
        return;
      }
      if HashOf(raw) == backoffHash && ticksLeft > 0 {
        ticksLeft := ticksLeft - 1;
        return None;
      }
      var account := ParseAccount(client.sdk, raw);
      if account.None? {
        result := Reject(HashOf(raw), true);
        return;
      }
      var rejected := client.Reload(raw, account.value, probe);
      if rejected.Some? {
        if probe == Shutdown {
          return None;
        }
        result := Reject(HashOf(raw), rejected.value.definitive);
        return;
      }
      result := Settle(SwappedIn, HashOf(raw));
    }

    method Settle(outcome: Outcome, hash: Hash) returns (result: Option<ReloadResult>)
      modifies this
      ensures Current() == Schedule(NoHash, 1, 0)
      ensures result ==
              Some(ReloadResult(outcome, hash, false, old(lastOutcome) == Some(outcome) && old(lastHash) == hash))
      ensures lastOutcome == Some(outcome) && lastHash == hash
    {
      result := Some(ReloadResult(outcome, hash, false, lastOutcome == Some(outcome) && lastHash == hash));
      lastOutcome, lastHash := Some(outcome), hash;
      waitIntervals, ticksLeft, backoffHash := 1, 0, NoHash;
    }

    method Reject(hash: Hash, definitive: bool) returns (result: Option<ReloadResult>)
      requires interval > 0 && (definitive ==> hash.HashOf?)
      modifies this
      ensures Current() == if definitive
                           then Next(MaxWait(interval), old(Current()).(left := 0), Candidate(hash.content, Definitive))
                           else old(Current()).(left := 0)
      ensures result == Some(ReloadResult(Rejected, hash, definitive, old(lastOutcome) == Some(Rejected)
              && old(lastHash) == hash))
      ensures lastOutcome == Some(Rejected) && lastHash == hash
    {
      result := Some(ReloadResult(Rejected, hash, definitive, lastOutcome == Some(Rejected) && lastHash == hash));
      if definitive {
        if hash != backoffHash {
          waitIntervals, backoffHash := 1, hash;
        }
        ticksLeft := waitIntervals - 1;
        waitIntervals := if waitIntervals * 2 <= MaxWait(interval) then waitIntervals * 2 else MaxWait(interval);
      } else {
        ticksLeft := 0;
      }
      lastOutcome, lastHash := Some(Rejected), hash;
    }
  }

  /******* Safety over all polls *******/

  predicate WellPaced(m: nat, s: Schedule) {
    1 <= s.wait <= m && 0 <= s.left < m
  }

  lemma NextIsWellPaced(m: nat, s: Schedule, sight: Sight)
    requires m >= 1 && WellPaced(m, s)
    ensures WellPaced(m, Next(m, s, sight))
  {
  }

  /** A non-definitive rejection, or an unreadable file, changes neither the gap nor the content it belongs to. */
  lemma TransientKeepsTheBackoff(m: nat, s: Schedule, sight: Sight)
    requires sight == Unreadable || (sight.Candidate? && Attempts(s, sight) && sight.verdict == Transient)
    ensures Next(m, s, sight) == s.(left := 0)
    ensures sight.Candidate? ==> Attempts(Next(m, s, sight), sight)
  {
  }

  /** Content other than the one backing off is acted on at once. */
  lemma OtherContentIsActedOnAtOnce(s: Schedule, raw: Bytes, verdict: Verdict)
    requires HashOf(raw) != s.hash
    ensures Attempts(s, Candidate(raw, verdict))
  {
  }

  /** The account of a run of polls: which files were seen and what the provider answered. */
  datatype Poll = Poll(file: Option<Bytes>, probe: Probe)

  /** Any number of polls keeps the project and never leaves an unproven key in use. */
  method RunPolls(r: KeyReloader, polls: seq<Poll>)
    requires r.Valid()
    modifies r, r.client
    ensures r.Valid()
    ensures r.client.ProjectID() == old(r.client.ProjectID())
    ensures r.client.state == old(r.client.state)
            || exists i :: 0 <= i < |polls| && polls[i].file == Some(r.client.state.api)
                           && Proven(r.client.sdk, old(r.client.ProjectID()), r.client.state.api, polls[i].probe)
  {
    for i := 0 to |polls|
      invariant r.Valid()
      invariant r.client.ProjectID() == old(r.client.ProjectID())
      invariant r.client.state == old(r.client.state)
                || exists j :: 0 <= j < i && polls[j].file == Some(r.client.state.api)
                               && Proven(r.client.sdk, old(r.client.ProjectID()), r.client.state.api, polls[j].probe)
    {
      var _ := r.Tick(polls[i].file, polls[i].probe);
    }
  }

  /******* The exact retry schedule *******/

  function Pow2(k: nat): nat {
    if k == 0 then 1 else 2 * Pow2(k - 1)
  }

  /** The gap after the j-th attempt: min(2^j, m). */
  function Gap(m: nat, j: nat): nat {
    if Pow2(j) <= m then Pow2(j) else m
  }

  /** The poll of the j-th attempt: the sum of the gaps before it. */
  function AttemptAt(m: nat, j: nat): nat {
    if j == 0 then 0 else AttemptAt(m, j - 1) + Gap(m, j - 1)
  }

  /** The schedule before the n-th poll of one and the same definitively rejected content. */
  function Before(m: nat, s: Schedule, raw: Bytes, n: nat): Schedule {
    if n == 0 then s else Next(m, Before(m, s, raw, n - 1), Candidate(raw, Definitive))
  }

  lemma {:induction false} GapDoubles(m: nat, j: nat)
    requires m >= 1
    ensures 1 <= Gap(m, j) <= m
    ensures Gap(m, j + 1) == if 2 * Gap(m, j) <= m then 2 * Gap(m, j) else m
  {
    if j > 0 {
      GapDoubles(m, j - 1);
    }
  }

  /** Between attempt j and attempt j + 1 the content waits out exactly its gap. */
  lemma {:induction false} BackoffState(m: nat, s: Schedule, raw: Bytes, j: nat, n: nat)
    requires m >= 1 && WellPaced(m, s) && s.hash != HashOf(raw)
    requires AttemptAt(m, j) < n <= AttemptAt(m, j + 1)
    ensures Before(m, s, raw, n) == Schedule(HashOf(raw), Gap(m, j + 1), AttemptAt(m, j + 1) - n)
    decreases n
  {
    GapDoubles(m, j);
    var c := Candidate(raw, Definitive);
    if n - 1 > AttemptAt(m, j) {
      BackoffState(m, s, raw, j, n - 1);
    } else if j > 0 {
      GapDoubles(m, j - 1);
      BackoffState(m, s, raw, j - 1, n - 1);
    }
    assert Before(m, s, raw, n) == Next(m, Before(m, s, raw, n - 1), c);
  }

  lemma {:induction false} AttemptsGrow(m: nat, j: nat)
    requires m >= 1
    ensures AttemptAt(m, j) >= j && AttemptAt(m, j + 1) > AttemptAt(m, j)
  {
    GapDoubles(m, j);
    if j > 0 {
      AttemptsGrow(m, j - 1);
    }
  }

  /** Every poll lies between two consecutive attempts. */
  lemma {:induction false} Bracket(m: nat, n: nat, j: nat) returns (i: nat)
    requires m >= 1 && n < AttemptAt(m, j)
    ensures AttemptAt(m, i) <= n < AttemptAt(m, i + 1)
    decreases j
  {
    AttemptsGrow(m, j);
    if AttemptAt(m, j - 1) <= n {
      i := j - 1;
    } else {
      i := Bracket(m, n, j - 1);
    }
  }

  lemma {:induction false} AttemptsOrdered(m: nat, i: nat, j: nat)
    requires m >= 1 && i < j
    ensures AttemptAt(m, i) < AttemptAt(m, j)
  {
    AttemptsGrow(m, j - 1);
    if i < j - 1 {
      AttemptsOrdered(m, i, j - 1);
    }
  }

  lemma NoAttemptBetween(m: nat, n: nat, i: nat)
    requires m >= 1 && AttemptAt(m, i) < n < AttemptAt(m, i + 1)
    ensures forall j: nat :: n != AttemptAt(m, j)
  {
    forall j: nat
      ensures n != AttemptAt(m, j)
    {
      if j < i {
        AttemptsOrdered(m, j, i);
      } else if j > i + 1 {
        AttemptsOrdered(m, i + 1, j);
      }
    }
  }

  /**
   Backoff schedule. Content that was never the one backing off and is definitively rejected
   every time is attempted at exactly the polls 0, min(1,m), min(1,m)+min(2,m), ...
   */
  lemma RejectedContentSchedule(m: nat, s: Schedule, raw: Bytes, n: nat)
    requires m >= 1 && WellPaced(m, s) && s.hash != HashOf(raw)
    ensures Attempts(Before(m, s, raw, n), Candidate(raw, Definitive)) <==> exists j: nat :: n == AttemptAt(m, j)
  {
    AttemptsGrow(m, n + 1);
    var i := Bracket(m, n, n + 1);
    if n == AttemptAt(m, i) {
      if i > 0 {
        AttemptsGrow(m, i - 1);
        BackoffState(m, s, raw, i - 1, n);
      }
    } else {
      BackoffState(m, s, raw, i, n);
      NoAttemptBetween(m, n, i);
    }
  }
}
