/**
 The per-bucket isolation policy of stackit/s3.go: the document the operator writes, what it
 denies to whom, the reader sanitizer, and the read-back of the workload principal.

 The document is kept as a syntax tree: key order and whitespace, which the drift check
 ignores, do not exist in it, so equality of trees is the drift check.
 */
module IsolationPolicy {
  import opened Wrappers

  /******* Trimming (strings.TrimSpace) *******/

  predicate IsSpace(c: char) {
    c in "\t\n\r " || c == '\U{000B}' || c == '\U{000C}' || c == '\U{0085}' || c == '\U{00A0}' || c == '\U{1680}'
    || '\U{2000}' <= c <= '\U{200A}' || c == '\U{2028}' || c == '\U{2029}'
        || c == '\U{202F}' || c == '\U{205F}' || c == '\U{3000}'
  }

  function Trim(s: string): (r: string)
    ensures Trimmed(r)
    ensures Trimmed(s) ==> r == s
  {
    if |s| > 0 && IsSpace(s[0]) then Trim(s[1..])
    else if |s| > 0 && IsSpace(s[|s| - 1]) then Trim(s[..|s| - 1])
    else s
  }

  predicate Trimmed(s: string) {
    |s| > 0 ==> !IsSpace(s[0]) && !IsSpace(s[|s| - 1])
  }

  /******* The order of sort.Strings *******/

  predicate Leq(a: string, b: string) {
    |a| == 0 || (|b| > 0 && (a[0] < b[0] || (a[0] == b[0] && Leq(a[1..], b[1..]))))
  }

  lemma {:induction false} LeqTotal(a: string, b: string)
    ensures Leq(a, b) || Leq(b, a)
  {
    if |a| > 0 && |b| > 0 && a[0] == b[0] {
      LeqTotal(a[1..], b[1..]);
    }
  }

  lemma {:induction false} LeqAntisymmetric(a: string, b: string)
    requires Leq(a, b) && Leq(b, a)
    ensures a == b
  {
    if |a| > 0 {
      LeqAntisymmetric(a[1..], b[1..]);
      assert a == [a[0]] + a[1..] && b == [b[0]] + b[1..];
    }
  }

  lemma {:induction false} LeqTransitive(a: string, b: string, c: string)
    requires Leq(a, b) && Leq(b, c)
    ensures Leq(a, c)
  {
    if |a| > 0 && a[0] == b[0] && b[0] == c[0] {
      LeqTransitive(a[1..], b[1..], c[1..]);
    }
  }

  predicate Ascending(s: seq<string>) {
    forall i, j :: 0 <= i < j < |s| ==> Leq(s[i], s[j]) && s[i] != s[j]
  }

  function Elements(s: seq<string>): set<string> {
    set x | x in s
  }

  /** A strictly ascending list is determined by its elements. */
  lemma {:induction false} AscendingCanonical(s: seq<string>, t: seq<string>)
    requires Ascending(s) && Ascending(t) && Elements(s) == Elements(t)
    ensures s == t
  {
    EmptyElements(s);
    EmptyElements(t);
    if s != [] {
      FirstIsLeast(s, t);
      FirstIsLeast(t, s);
      LeqAntisymmetric(s[0], t[0]);
      TailElements(s);
      TailElements(t);
      AscendingCanonical(s[1..], t[1..]);
      assert s == [s[0]] + s[1..] && t == [t[0]] + t[1..];
    }
  }

  lemma EmptyElements(s: seq<string>)
    ensures s == [] <==> Elements(s) == {}
  {
    if s != [] {
      assert s[0] in Elements(s);
    }
  }

  lemma FirstIsLeast(s: seq<string>, t: seq<string>)
    requires s != [] && t != [] && Ascending(s) && Elements(s) == Elements(t)
    ensures Leq(s[0], t[0])
  {
    assert t[0] in Elements(s);
    var i :| 0 <= i < |s| && s[i] == t[0];
    if i == 0 {
      LeqTotal(s[0], s[0]);
    }
  }

  lemma TailElements(s: seq<string>)
    requires s != [] && Ascending(s)
    ensures Ascending(s[1..]) && Elements(s[1..]) == Elements(s) - {s[0]}
  {
    forall x | x in Elements(s) - {s[0]}
      ensures x in s[1..]
    {
      var i :| 0 <= i < |s| && s[i] == x;
      assert s[1..][i - 1] == x;
    }
    forall x | x in s[1..]
      ensures x in Elements(s) - {s[0]}
    {
      var i :| 0 <= i < |s[1..]| && s[1..][i] == x;
      assert s[i + 1] == x;
    }
  }

  /** Insertion into an ascending list, leaving it alone when the element is there already. */
  function Insert(u: string, s: seq<string>): (r: seq<string>)
    requires Ascending(s)
    ensures Ascending(r) && Elements(r) == Elements(s) + {u}
  {
    if s == [] then [u]
    else if s[0] == u then s
    else
      LeqTotal(s[0], u);
      if Leq(u, s[0]) then
        InsertFront(u, s);
        [u] + s
      else
        TailElements(s);
        var rest := Insert(u, s[1..]);
        InsertBehind(s, u, rest);
        [s[0]] + rest
  }

  lemma InsertFront(u: string, s: seq<string>)
    requires s != [] && Ascending(s) && Leq(u, s[0]) && u != s[0]
    ensures Ascending([u] + s) && Elements([u] + s) == Elements(s) + {u}
  {
    var r := [u] + s;
    forall i, j | 0 <= i < j < |r|
      ensures Leq(r[i], r[j]) && r[i] != r[j]
    {
      if i == 0 && j > 1 {
        LeqTransitive(u, s[0], s[j - 1]);
        if u == s[j - 1] {
          LeqAntisymmetric(u, s[0]);
        }
      }
    }
  }

  lemma InsertBehind(s: seq<string>, u: string, rest: seq<string>)
    requires s != [] && Ascending(s) && Leq(s[0], u) && u != s[0]
    requires Ascending(rest) && Elements(rest) == Elements(s[1..]) + {u}
    ensures Ascending([s[0]] + rest) && Elements([s[0]] + rest) == Elements(s) + {u}
  {
    TailElements(s);
    var r := [s[0]] + rest;
    forall i, j | 0 <= i < j < |r|
      ensures Leq(r[i], r[j]) && r[i] != r[j]
    {
      if i == 0 {
        assert rest[j - 1] in Elements(rest);
        if rest[j - 1] != u {
          var m :| 0 <= m < |s[1..]| && s[1..][m] == rest[j - 1];
          assert s[m + 1] == rest[j - 1];
        }
      }
    }
    assert Elements(r) == {s[0]} + Elements(rest);
  }

  /******* Reader sanitizer *******/

  function TrimmedSet(readers: seq<string>): set<string> {
    set r | r in readers :: Trim(r)
  }

  /** The reader principals that survive: trimmed, not empty, neither admin nor workload. */
  function Kept(readers: seq<string>, admin: string, workload: string): set<string> {
    TrimmedSet(readers) - {"", Trim(admin), Trim(workload)}
  }

  /** The sanitized reader list: exactly the kept principals, once each, in order. */
  function Sanitized(readers: seq<string>, admin: string, workload: string): (out: seq<string>)
    ensures Ascending(out) && Elements(out) == Kept(readers, admin, workload)
  {
    if readers == [] then []
    else
      var rest := Sanitized(readers[..|readers| - 1], admin, workload);
      var last := Trim(readers[|readers| - 1]);
      KeptStep(readers, admin, workload);
      if last in {"", Trim(admin), Trim(workload)} then rest else Insert(last, rest)
  }

  lemma KeptStep(readers: seq<string>, admin: string, workload: string)
    requires readers != []
    ensures var u := Trim(readers[|readers| - 1]);
            Kept(readers, admin, workload) ==
            Kept(readers[..|readers| - 1], admin, workload) + ({u} - {"", Trim(admin), Trim(workload)})
  {
    var front, u := readers[..|readers| - 1], readers[|readers| - 1];
    assert readers == front + [u];
    assert TrimmedSet(readers) == TrimmedSet(front) + {Trim(u)};
  }

  /** sanitizeReaderURNs: one pass with a set of principals seen, then a sort. */
  method SanitizeReaderURNs(readers: seq<string>, adminURN: string, workloadURN: string) returns (out: seq<string>)
    ensures out == Sanitized(readers, adminURN, workloadURN)
  {
    if |readers| == 0 {
      return [];
    }
    var admin, workload := Trim(adminURN), Trim(workloadURN);
    var seen: set<string> := {};
    var kept: seq<string> := [];
    for i := 0 to |readers|
      invariant seen == Elements(kept) == Kept(readers[..i], adminURN, workloadURN)
      invariant forall x, y :: 0 <= x < y < |kept| ==> kept[x] != kept[y]
    {
      var urn := Trim(readers[i]);
      KeptStep(readers[..i + 1], adminURN, workloadURN);
      assert readers[..i + 1][..i] == readers[..i];
      if urn == "" || urn == admin || urn == workload {
        continue;
      }
      if urn in seen {
        continue;
      }
      assert urn !in kept;
      seen := seen + {urn};
      kept := kept + [urn];
    }
    assert readers[..|readers|] == readers;
    out := SortStrings(kept);
    AscendingCanonical(out, Sanitized(readers, adminURN, workloadURN));
  }

  /** sort.Strings on a list without duplicates. */
  method SortStrings(s: seq<string>) returns (out: seq<string>)
    requires forall x, y :: 0 <= x < y < |s| ==> s[x] != s[y]
    ensures Ascending(out) && Elements(out) == Elements(s)
  {
    out := [];
    for i := 0 to |s|
      invariant Ascending(out) && Elements(out) == Elements(s[..i])
    {
      out := Insert(s[i], out);
      assert s[..i + 1] == s[..i] + [s[i]];
    }
    assert s[..|s|] == s;
  }

  /******* The document *******/

  const WORKLOAD_ACTIONS: seq<string> := [
    "s3:GetObject", "s3:PutObject", "s3:PutOverwriteObject", "s3:DeleteObject",
    "s3:ListBucket", "s3:ListBucketVersions", "s3:GetBucketLocation",
    "s3:ListBucketMultipartUploads", "s3:ListMultipartUploadParts", "s3:AbortMultipartUpload",
    "s3:GetObjectTagging", "s3:PutObjectTagging", "s3:DeleteObjectTagging",
    "s3:GetObjectVersion", "s3:GetObjectVersionTagging",
    "s3:GetBucketVersioning", "s3:GetBucketObjectLockConfiguration"]

  const READER_ACTIONS: seq<string> := [
    "s3:GetObject", "s3:GetObjectVersion",
    "s3:ListBucket", "s3:ListBucketVersions", "s3:GetBucketLocation",
    "s3:GetObjectTagging", "s3:GetObjectVersionTagging",
    "s3:GetBucketVersioning", "s3:GetBucketObjectLockConfiguration"]

  const ACTION_ALL := "s3:*"
  const SID_DENY_ALL := "deny-all-except-admin-and-workload"
  const SID_WORKLOAD := "workload-objects-only"
  const SID_READERS := "granted-readers-read-only"
  const ARN := "arn:aws:s3:::"

  /** A JSON value, as far as a Principal element may contain one. */
  datatype Json = JString(s: string) | JList(items: seq<Json>) | JObject(fields: map<string, Json>) | JOther

  datatype PolicyEffect = Deny | Allow

  /** Who a statement is about, and what it covers. */
  datatype Who = Principal(json: Json) | NotPrincipal(json: Json)
  datatype What = Action(names: seq<string>) | NotAction(names: seq<string>)

  datatype Statement = Statement(sid: string, effect: PolicyEffect, who: Who, what: What, resources: seq<string>)

  datatype Policy = Policy(statements: seq<Statement>)

  function Aws(value: Json): Json {
    JObject(map["AWS" := value])
  }

  function Strings(s: seq<string>): Json {
    JList(seq(|s|, i requires 0 <= i < |s| => JString(s[i])))
  }

  function BuildIsolationPolicy(bucket: string, admin: string, workload: string, readers: seq<string>): Policy {
    var res := [ARN + bucket, ARN + bucket + "/*"];
    var kept := Sanitized(readers, admin, workload);
    Policy([
             Statement(SID_DENY_ALL, Deny, NotPrincipal(Aws(Strings([admin, workload] + kept))),
                 Action([ACTION_ALL]), res),
             Statement(SID_WORKLOAD, Deny, Principal(Aws(JString(workload))), NotAction(WORKLOAD_ACTIONS), res)
           ] +
           if |kept| > 0
           then [Statement(SID_READERS, Deny, Principal(Aws(Strings(kept))), NotAction(READER_ACTIONS), res)]
           else [])
  }

  /** principalStrings: a string, a list of strings, or either under "AWS"; anything else names nobody. */
  function PrincipalStrings(p: Json): seq<string>
    decreases p
  {
    match p
    case JString(s) => [s]
    case JList(items) =>
      if forall i :: 0 <= i < |items| ==> items[i].JString?
      then seq(|items|, i requires 0 <= i < |items| => items[i].s)
      else []
    case JObject(fields) => if "AWS" in fields then PrincipalStrings(fields["AWS"]) else []
    case JOther => []
  }

  /** WorkloadPrincipalFromPolicy: the single principal of the first statement with the workload id. */
  function WorkloadPrincipal(policy: Policy): Option<string> {
    WorkloadPrincipalIn(policy.statements)
  }

  function WorkloadPrincipalIn(statements: seq<Statement>): Option<string> {
    if statements == [] then None
    else if statements[0].sid != SID_WORKLOAD then WorkloadPrincipalIn(statements[1..])
    else
      var names := if statements[0].who.Principal? then PrincipalStrings(statements[0].who.json) else [];
      if |names| != 1 || Trim(names[0]) == "" then None else Some(Trim(names[0]))
  }

  /******* What the document denies *******/

  /** A request: who does what to the bucket itself or to one of its objects. */
  datatype Request = Request(principal: string, action: string, resource: string)

  function BucketResource(bucket: string): string {
    ARN + bucket
  }

  function ObjectResource(bucket: string, key: string): string {
    ARN + bucket + "/" + key
  }

  predicate WhoMatches(who: Who, principal: string) {
    match who
    case Principal(j) => principal in PrincipalStrings(j)
    case NotPrincipal(j) => principal !in PrincipalStrings(j)
  }

  predicate WhatMatches(what: What, action: string) {
    match what
    case Action(names) => action in names || ACTION_ALL in names
    case NotAction(names) => action !in names
  }

  predicate ResourceMatches(pattern: string, resource: string) {
    if |pattern| > 0 && pattern[|pattern| - 1] == '*' then pattern[..|pattern| - 1] <= resource else pattern == resource
  }

  predicate Matches(st: Statement, r: Request) {
    && WhoMatches(st.who, r.principal)
    && WhatMatches(st.what, r.action)
    && exists p :: p in st.resources && ResourceMatches(p, r.resource)
  }

  /** Access is open by default and any matching Deny wins. */
  predicate Denied(policy: Policy, r: Request) {
    exists st :: st in policy.statements && st.effect == Deny && Matches(st, r)
  }

  predicate Covers(bucket: string, resource: string) {
    resource == BucketResource(bucket) || ObjectResource(bucket, "") <= resource
  }

  /** The verdict a reader of the design expects, written without the document. */
  predicate Refused(admin: string, workload: string, readers: set<string>, r: Request) {
    if r.principal == admin then false
    else if r.principal == workload then r.action !in WORKLOAD_ACTIONS
    else if r.principal in readers then r.action !in READER_ACTIONS
    else true
  }

  lemma StringsNamed(s: seq<string>)
    ensures PrincipalStrings(Aws(Strings(s))) == s
  {
    var j := Aws(Strings(s));
    assert PrincipalStrings(j) == PrincipalStrings(j.fields["AWS"]);
  }

  lemma BuildStatements(bucket: string, admin: string, workload: string, readers: seq<string>)
    ensures var sts := BuildIsolationPolicy(bucket, admin, workload, readers).statements;
            var kept := Sanitized(readers, admin, workload);
            && |sts| == (if kept == [] then 2 else 3)
            && (forall st :: st in sts ==> st.effect == Deny && st.resources == [ARN + bucket, ARN + bucket + "/*"])
            && sts[0].sid == SID_DENY_ALL && sts[1].sid == SID_WORKLOAD
            && sts[0].who.NotPrincipal? && PrincipalStrings(sts[0].who.json) == [admin, workload] + kept
            && sts[0].what == Action([ACTION_ALL])
            && sts[1].who.Principal? && PrincipalStrings(sts[1].who.json) == [workload]
            && sts[1].what == NotAction(WORKLOAD_ACTIONS)
            && (kept != [] ==>
                  && sts[2].who.Principal? && PrincipalStrings(sts[2].who.json) == kept
                  && sts[2].what == NotAction(READER_ACTIONS))
  {
    var kept := Sanitized(readers, admin, workload);
    StringsNamed([admin, workload] + kept);
    StringsNamed(kept);
    var j := Aws(JString(workload));
    assert PrincipalStrings(j) == PrincipalStrings(j.fields["AWS"]);
  }

  lemma ResourcesCover(bucket: string, resource: string)
    requires '*' !in bucket
    ensures (exists p :: p in [ARN + bucket, ARN + bucket + "/*"] && ResourceMatches(p, resource)) <==>
            Covers(bucket, resource)
  {
    var plain, wild := ARN + bucket, ARN + bucket + "/*";
    var ps := [plain, wild];
    assert ps[0] == plain && ps[1] == wild;
    assert wild[..|wild| - 1] == ObjectResource(bucket, "");
    assert plain[|plain| - 1] == if bucket == "" then ':' else bucket[|bucket| - 1];
    assert ResourceMatches(plain, resource) <==> resource == plain;
    assert ResourceMatches(wild, resource) <==> ObjectResource(bucket, "") <= resource;
    if Covers(bucket, resource) {
      assert (plain in ps && ResourceMatches(plain, resource)) || (wild in ps && ResourceMatches(wild, resource));
    }
  }

  /**
   Policy meaning. For any reader list, padded, repeated, or holding either URN, a request on
   the bucket is denied exactly when the design refuses it; every other resource is untouched.
   */
  lemma PolicyMeaning(bucket: string, admin: string, workload: string, readers: seq<string>, r: Request)
    requires Trimmed(admin) && Trimmed(workload) && admin != "" && workload != "" && admin != workload
    requires '*' !in bucket
    ensures Denied(BuildIsolationPolicy(bucket, admin, workload, readers), r)
            <==> Covers(bucket, r.resource) && Refused(admin, workload, Kept(readers, admin, workload), r)
  {
    var doc := BuildIsolationPolicy(bucket, admin, workload, readers);
    var kept := Sanitized(readers, admin, workload);
    BuildStatements(bucket, admin, workload, readers);
    ResourcesCover(bucket, r.resource);
    var sts := doc.statements;
    assert r.principal in kept <==> r.principal in Elements(kept);
    assert ACTION_ALL in [ACTION_ALL];
    if Covers(bucket, r.resource) && Refused(admin, workload, Kept(readers, admin, workload), r) {
      if r.principal == workload {
        assert sts[1] in sts && Matches(sts[1], r);
      } else if r.principal in kept {
        assert sts[2] in sts && Matches(sts[2], r);
      } else {
        assert sts[0] in sts && Matches(sts[0], r);
      }
    }
    if Denied(doc, r) {
      var st :| st in sts && st.effect == Deny && Matches(st, r);
      var i :| 0 <= i < |sts| && sts[i] == st;
      assert i == 0 || i == 1 || i == 2;
    }
  }

  lemma ReadersWriteNothing(action: string)
    requires action in READER_ACTIONS
    ensures action !in ["s3:PutObject", "s3:PutOverwriteObject",
            "s3:DeleteObject", "s3:AbortMultipartUpload", "s3:PutBucketPolicy"]
  {
  }

  /** Reading is a subset of what the owner may do, so a grant never exceeds the owner's own rights. */
  lemma ReadersDoNoMoreThanTheOwner(action: string)
    ensures action in READER_ACTIONS ==> action in WORKLOAD_ACTIONS
    ensures action in READER_ACTIONS ==> action !in ["s3:PutObject", "s3:PutOverwriteObject",
            "s3:DeleteObject", "s3:AbortMultipartUpload", "s3:PutBucketPolicy"]
  {
    if action in READER_ACTIONS {
      ReadersWriteNothing(action);
      var i :| 0 <= i < |READER_ACTIONS| && READER_ACTIONS[i] == action;
      var w := WORKLOAD_ACTIONS;
      assert w[0] == READER_ACTIONS[0] && w[13] == READER_ACTIONS[1] && w[4] == READER_ACTIONS[2];
      assert w[5] == READER_ACTIONS[3];
      assert w[6] == READER_ACTIONS[4] && w[10] == READER_ACTIONS[5] && w[14] == READER_ACTIONS[6];
      assert w[15] == READER_ACTIONS[7] && w[16] == READER_ACTIONS[8];
    }
  }

  /** The document depends only on the set of trimmed readers. */
  lemma ReaderOrderIsIrrelevant(bucket: string, admin: string, workload: string, r1: seq<string>, r2: seq<string>)
    requires TrimmedSet(r1) == TrimmedSet(r2)
    ensures BuildIsolationPolicy(bucket, admin, workload, r1) == BuildIsolationPolicy(bucket, admin, workload, r2)
  {
    AscendingCanonical(Sanitized(r1, admin, workload), Sanitized(r2, admin, workload));
  }

  /******* Reading the workload principal back *******/

  /** The encodings a read-back may use for one principal. */
  predicate Encodes(j: Json, urn: string) {
    || j == JString(urn)
    || j == JList([JString(urn)])
    || j == Aws(JString(urn))
    || j == Aws(JList([JString(urn)]))
  }

  lemma EncodingNames(j: Json, urn: string)
    requires Encodes(j, urn)
    ensures PrincipalStrings(j) == [urn]
  {
    if j.JObject? {
      assert j.fields["AWS"] == JString(urn) || j.fields["AWS"] == JList([JString(urn)]);
    }
  }

  /** The stored document, with the principal of its workload statement re-encoded as the provider pleases. */
  function Reencoded(doc: Policy, j: Json): Policy
    requires |doc.statements| >= 2
  {
    Policy(doc.statements[1 := doc.statements[1].(who := Principal(j))])
  }

  /** Read-back: the workload principal survives every accepted encoding, even padded. */
  lemma WorkloadReadsBack(bucket: string, admin: string, workload: string, readers: seq<string>, padded: string,
      j: Json)
    requires Trimmed(workload) && workload != "" && Trim(padded) == workload
    requires Encodes(j, padded)
    ensures |BuildIsolationPolicy(bucket, admin, workload, readers).statements| >= 2
    ensures WorkloadPrincipal(BuildIsolationPolicy(bucket, admin, workload, readers)) == Some(workload)
    ensures WorkloadPrincipal(Reencoded(BuildIsolationPolicy(bucket, admin, workload, readers), j)) == Some(workload)
  {
    BuildStatements(bucket, admin, workload, readers);
    EncodingNames(j, padded);
    var doc := BuildIsolationPolicy(bucket, admin, workload, readers);
    SecondStatementRead(doc.statements);
    SecondStatementRead(Reencoded(doc, j).statements);
  }

  lemma SecondStatementRead(sts: seq<Statement>)
    requires |sts| >= 2 && sts[0].sid == SID_DENY_ALL && sts[1].sid == SID_WORKLOAD
    ensures WorkloadPrincipalIn(sts) == WorkloadPrincipalIn(sts[1..])
    ensures sts[1..][0] == sts[1]
  {
    assert SID_DENY_ALL[0] == 'd' && SID_WORKLOAD[0] == 'w';
  }

  /** A statement naming several principals, or none, attributes nobody. */
  lemma AmbiguousPrincipalIsRefused(sts: seq<Statement>)
    requires sts != [] && sts[0].sid == SID_WORKLOAD
    requires sts[0].who.Principal? ==> |PrincipalStrings(sts[0].who.json)| != 1
    ensures WorkloadPrincipal(Policy(sts)) == None
  {
  }

  /******* Canonical form *******/

  /** The parameters of a stored document, with the readers already sanitized. */
  datatype Isolation = Isolation(bucket: string, admin: string, workload: string, readers: seq<string>)

  function Desired(bucket: string, admin: string, workload: string, readers: seq<string>): Isolation {
    Isolation(bucket, admin, workload, Sanitized(readers, admin, workload))
  }

  function Document(iso: Isolation): Policy {
    BuildIsolationPolicy(iso.bucket, iso.admin, iso.workload, iso.readers)
  }

  predicate Canonical(iso: Isolation) {
    && Ascending(iso.readers)
    && forall r :: r in iso.readers ==> Trimmed(r) && r !in {"", Trim(iso.admin), Trim(iso.workload)}
  }

  lemma DesiredIsCanonical(bucket: string, admin: string, workload: string, readers: seq<string>)
    ensures Canonical(Desired(bucket, admin, workload, readers))
    ensures Document(Desired(bucket, admin, workload, readers)) ==
            BuildIsolationPolicy(bucket, admin, workload, readers)
  {
    var d := Desired(bucket, admin, workload, readers);
    forall r | r in d.readers
      ensures Trimmed(r) && r !in {"", Trim(admin), Trim(workload)}
    {
      assert r in Elements(d.readers);
    }
    CanonicalIsFixed(d);
  }

  lemma CanonicalIsFixed(iso: Isolation)
    requires Canonical(iso)
    ensures Sanitized(iso.readers, iso.admin, iso.workload) == iso.readers
  {
    assert TrimmedSet(iso.readers) == Elements(iso.readers) by {
      assert forall r :: r in iso.readers ==> Trim(r) == r;
    }
    assert Kept(iso.readers, iso.admin, iso.workload) == Elements(iso.readers);
    AscendingCanonical(Sanitized(iso.readers, iso.admin, iso.workload), iso.readers);
  }

  /**
   The drift check on documents is the comparison of their canonical parameters: two written
   documents are the same tree exactly when bucket, admin, workload and readers agree.
   */
  lemma DriftCheckIsExact(a: Isolation, b: Isolation)
    requires Canonical(a) && Canonical(b)
    ensures Document(a) == Document(b) <==> a == b
  {
    if Document(a) == Document(b) {
      CanonicalIsFixed(a);
      CanonicalIsFixed(b);
      BuildStatements(a.bucket, a.admin, a.workload, a.readers);
      BuildStatements(b.bucket, b.admin, b.workload, b.readers);
      var sa, sb := Document(a).statements, Document(b).statements;
      assert sa[0] in sa && sb[0] in sb;
      var na, nb := [a.admin, a.workload] + a.readers, [b.admin, b.workload] + b.readers;
      assert na == nb;
      assert na[0] == a.admin && na[1] == a.workload && na[2..] == a.readers;
      assert nb[0] == b.admin && nb[1] == b.workload && nb[2..] == b.readers;
      var ra, rb := ARN + a.bucket, ARN + b.bucket;
      assert sa[0].resources[0] == ra && sb[0].resources[0] == rb;
      assert ra[|ARN|..] == a.bucket && rb[|ARN|..] == b.bucket;
    }
  }
}
