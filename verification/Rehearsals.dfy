/** Recovery rehearsals: claims with a random token and a bounded number of attempts, results that
    only the current claim may write, and the pass that hands out claims. */
module Rehearsals {
  import opened Domain
  import Backoff

  const CLAIM_TIME: int := 20 * 60 * SECOND
  const DEFAULT_MAX_ATTEMPTS: nat := 6
  const PASS_LIMIT: nat := 20

  datatype RehearsalState = Running | Succeeded | Failed

  datatype Lease = Lease(owner: Uuid, token: Uuid)

  datatype Row = Row(
    workshop: Uuid,
    recovery: Uuid,
    state: RehearsalState,
    attempt: nat,
    maxAttempts: nat,
    lease: Option<Lease>,
    leaseExpiresAt: Option<int>,
    nextAttemptAt: Option<int>)
  {
    /** The table's CHECK constraints. */
    predicate WellFormed() {
      && 1 <= attempt <= maxAttempts <= 20
      && (state.Running? <==> lease.Some?) && (state.Running? <==> leaseExpiresAt.Some?)
      && (state.Running? ==> nextAttemptAt.None?)
    }

    predicate Claimable(now: int) {
      && attempt < maxAttempts
      && match state
         case Failed => nextAttemptAt.Some? && nextAttemptAt.value <= now
         case Running => leaseExpiresAt.Some? && leaseExpiresAt.value <= now
         case Succeeded => false
    }
  }

  type Table = map<Uuid, Row>

  datatype Claim = Claim(rehearsal: Uuid, workshop: Uuid, recovery: Uuid, lease: Lease, attempt: nat, maxAttempts: nat)

  /** What the driver said: an HTTP status, or nothing at all. */
  datatype DriverReply = Status(code: nat) | NoReply

  predicate IsSuccess(reply: DriverReply) { reply.Status? && 200 <= reply.code < 300 }

  predicate IsRetryable(reply: DriverReply) {
    reply.NoReply? || 500 <= reply.code < 600 || reply.code == 408 || reply.code == 429
  }

  /** `60 << min(attempt - 1, 6)`, in seconds. */
  function RetryDelay(attempt: nat): int
    requires attempt >= 1
  {
    60 * Backoff.Pow2(Backoff.Min(attempt - 1, 6))
  }

  lemma RetryDelayBounds(a: nat, b: nat)
    requires 1 <= a <= b
    ensures 60 <= RetryDelay(a) <= RetryDelay(b) <= 3840
  {
    Backoff.Pow2Monotone(Backoff.Min(a - 1, 6), Backoff.Min(b - 1, 6));
    Backoff.Pow2Monotone(Backoff.Min(b - 1, 6), 6);
    assert Backoff.Pow2(6) == 64 by {
      assert Backoff.Pow2(3) == 8;
    }
  }

  datatype Audit = Audit(rehearsal: Uuid, token: Uuid, success: bool, attempt: nat, retryScheduled: bool)

  // ---------------------------------------------------------------- statements

  function NewRow(workshop: Uuid, recovery: Uuid, lease: Lease, now: int): Row {
    Row(workshop, recovery, Running, 1, DEFAULT_MAX_ATTEMPTS, Some(lease), Some(now + CLAIM_TIME), None)
  }

  function Reclaimed(row: Row, lease: Lease, now: int): Row {
    row.(state := Running, attempt := row.attempt + 1, lease := Some(lease),
         leaseExpiresAt := Some(now + CLAIM_TIME), nextAttemptAt := None)
  }

  predicate RetryScheduled(claim: Claim, reply: DriverReply) {
    !IsSuccess(reply) && IsRetryable(reply) && claim.attempt < claim.maxAttempts
  }

  function Reported(row: Row, claim: Claim, reply: DriverReply, now: int): Row
    requires claim.attempt >= 1
  {
    row.(state := if IsSuccess(reply) then Succeeded else Failed, lease := None, leaseExpiresAt := None,
         nextAttemptAt := if RetryScheduled(claim, reply) then Some(now + RetryDelay(claim.attempt) * SECOND) else None)
  }

  ghost predicate AnyRunning(rows: Table, workshop: Uuid) {
    exists id :: id in rows && rows[id].workshop == workshop && rows[id].state.Running?
  }

  predicate RunningFor(rows: Table, a: Uuid, b: Uuid) {
    && a in rows && b in rows && rows[a].workshop == rows[b].workshop
    && rows[a].state.Running? && rows[b].state.Running?
  }

  /** The unique index: one running rehearsal per workshop. */
  ghost predicate OneRunningEach(rows: Table) {
    forall a, b :: RunningFor(rows, a, b) ==> a == b
  }

  ghost predicate ValidTable(rows: Table) {
    OneRunningEach(rows) && forall id :: id in rows ==> rows[id].WellFormed()
  }

  datatype Event =
    | ClaimNew(id: Uuid, workshop: Uuid, recovery: Uuid, lease: Lease, eligible: bool, now: int)
    | ClaimRetry(id: Uuid, workshop: Uuid, recovery: Uuid, lease: Lease, eligible: bool, now: int)
    | Report(claim: Claim, reply: DriverReply, now: int)

  /** `issued` are the claims handed out so far; a scheduler may report long after its claim. */
  datatype Database = Database(rows: Table, issued: set<Claim>, audits: seq<Audit>)

  ghost predicate Enabled(db: Database, e: Event) {
    match e
    case ClaimNew(id, workshop, recovery, lease, eligible, now) =>
      id !in db.rows && eligible && !AnyRunning(db.rows, workshop) && Unissued(db, lease.token)
    case ClaimRetry(id, workshop, recovery, lease, eligible, now) =>
      && id in db.rows && db.rows[id].workshop == workshop && db.rows[id].recovery == recovery
      && eligible && db.rows[id].Claimable(now) && Unissued(db, lease.token)
      && (forall k :: k in db.rows && k != id && db.rows[k].workshop == workshop ==> !db.rows[k].state.Running?)
    case Report(claim, reply, now) =>
      && claim in db.issued && claim.rehearsal in db.rows
      && db.rows[claim.rehearsal].state.Running? && db.rows[claim.rehearsal].lease == Some(claim.lease)
  }

  /** Tokens are random UUIDs, never seen before. */
  ghost predicate Unissued(db: Database, token: Uuid) {
    forall claim :: claim in db.issued ==> claim.lease.token != token
  }

  ghost function Step(db: Database, e: Event): Database {
    if !Enabled(db, e) then db else
    match e
    case ClaimNew(id, workshop, recovery, lease, _, now) =>
      db.(rows := db.rows[id := NewRow(workshop, recovery, lease, now)],
          issued := db.issued + {Claim(id, workshop, recovery, lease, 1, DEFAULT_MAX_ATTEMPTS)})
    case ClaimRetry(id, workshop, recovery, lease, _, now) =>
      db.(rows := db.rows[id := Reclaimed(db.rows[id], lease, now)],
          issued := db.issued + {Claim(id, workshop, recovery, lease, db.rows[id].attempt + 1, db.rows[id].maxAttempts)})
    case Report(claim, reply, now) =>
      if claim.attempt < 1 then db
      else db.(rows := db.rows[claim.rehearsal := Reported(db.rows[claim.rehearsal], claim, reply, now)],
               audits := db.audits + [Audit(claim.rehearsal, claim.lease.token, IsSuccess(reply), claim.attempt,
                                            RetryScheduled(claim, reply))])
  }

  ghost function Run(events: seq<Event>): Database {
    if events == [] then Database(map[], {}, []) else Step(Run(events[..|events| - 1]), events[|events| - 1])
  }

  // ---------------------------------------------------------------- the invariant

  function ClaimsOf(issued: set<Claim>, id: Uuid): set<Claim> {
    set claim | claim in issued && claim.rehearsal == id
  }

  ghost predicate ClaimOk(db: Database, claim: Claim) {
    && claim.rehearsal in db.rows
    && 1 <= claim.attempt <= db.rows[claim.rehearsal].attempt
    && claim.maxAttempts == db.rows[claim.rehearsal].maxAttempts
    && claim.workshop == db.rows[claim.rehearsal].workshop && claim.recovery == db.rows[claim.rehearsal].recovery
    && (db.rows[claim.rehearsal].lease == Some(claim.lease) ==> claim.attempt == db.rows[claim.rehearsal].attempt)
  }

  ghost predicate HolderIssued(db: Database, id: Uuid)
    requires id in db.rows
  {
    db.rows[id].lease.Some? ==>
      exists claim :: claim in db.issued && claim.rehearsal == id && claim.lease == db.rows[id].lease.value
  }

  /** An audit speaks for a claim that was handed out and has since given up its row. */
  ghost predicate AuditOk(db: Database, audit: Audit) {
    && audit.rehearsal in db.rows
    && (forall lease :: db.rows[audit.rehearsal].lease == Some(lease) ==> lease.token != audit.token)
    && (exists claim :: claim in db.issued && claim.rehearsal == audit.rehearsal && claim.lease.token == audit.token &&
                        claim.attempt == audit.attempt && (audit.retryScheduled ==> claim.attempt < claim.maxAttempts))
  }

  ghost predicate ClaimsOk(db: Database) { forall claim :: claim in db.issued ==> ClaimOk(db, claim) }

  ghost predicate TokensDistinct(issued: set<Claim>) {
    forall a, b :: a in issued && b in issued && a.lease.token == b.lease.token ==> a == b
  }

  /** A row's attempt counts its claims, and its lease is one of them. */
  ghost predicate AllCounted(db: Database) {
    forall id :: id in db.rows ==> |ClaimsOf(db.issued, id)| == db.rows[id].attempt && HolderIssued(db, id)
  }

  ghost predicate AuditsOk(db: Database) {
    && (forall audit :: audit in db.audits ==> AuditOk(db, audit))
    && (forall i, j :: 0 <= i < j < |db.audits| ==> db.audits[i].token != db.audits[j].token)
  }

  ghost predicate Inv(db: Database) {
    ValidTable(db.rows) && ClaimsOk(db) && TokensDistinct(db.issued) && AllCounted(db) && AuditsOk(db)
  }

  lemma CountClaim(issued: set<Claim>, claim: Claim, id: Uuid)
    requires claim !in issued
    ensures |ClaimsOf(issued + {claim}, id)| == |ClaimsOf(issued, id)| + (if claim.rehearsal == id then 1 else 0)
  {
    if claim.rehearsal == id {
      assert ClaimsOf(issued + {claim}, id) == ClaimsOf(issued, id) + {claim};
    } else {
      assert ClaimsOf(issued + {claim}, id) == ClaimsOf(issued, id);
    }
  }

  lemma NoClaims(db: Database, id: Uuid)
    requires Inv(db) && id !in db.rows
    ensures ClaimsOf(db.issued, id) == {}
  {
    forall claim | claim in db.issued
      ensures claim.rehearsal != id
    {
      assert ClaimOk(db, claim);
    }
  }

  /** The claim an event hands out. */
  function Handed(db: Database, e: Event): Claim
    requires !e.Report? && (e.ClaimRetry? ==> e.id in db.rows)
  {
    if e.ClaimNew? then Claim(e.id, e.workshop, e.recovery, e.lease, 1, DEFAULT_MAX_ATTEMPTS)
    else Claim(e.id, e.workshop, e.recovery, e.lease, db.rows[e.id].attempt + 1, db.rows[e.id].maxAttempts)
  }

  lemma ClaimKeepsTable(db: Database, e: Event)
    requires ValidTable(db.rows) && !e.Report? && Enabled(db, e)
    ensures ValidTable(Step(db, e).rows)
    ensures Step(db, e).issued == db.issued + {Handed(db, e)} && Handed(db, e) !in db.issued
  {
    var rows := Step(db, e).rows;
    forall a, b | RunningFor(rows, a, b)
      ensures a == b
    {
      assert a != e.id && b != e.id ==> RunningFor(db.rows, a, b);
    }
  }

  lemma ClaimKeepsCounts(db: Database, e: Event, id: Uuid)
    requires Inv(db) && !e.Report? && Enabled(db, e) && id in Step(db, e).rows
    ensures |ClaimsOf(Step(db, e).issued, id)| == Step(db, e).rows[id].attempt
    ensures HolderIssued(Step(db, e), id)
  {
    ClaimKeepsTable(db, e);
    CountClaim(db.issued, Handed(db, e), id);
    if id != e.id {
      assert HolderIssued(db, id);
    } else if e.ClaimNew? {
      NoClaims(db, id);
    }
    assert Handed(db, e) in Step(db, e).issued;
  }

  lemma ClaimKeepsClaims(db: Database, e: Event, c: Claim)
    requires Inv(db) && !e.Report? && Enabled(db, e) && c in Step(db, e).issued
    ensures ClaimOk(Step(db, e), c)
  {
    assert c != Handed(db, e) ==> ClaimOk(db, c);
  }

  lemma ClaimKeepsAudits(db: Database, e: Event, audit: Audit)
    requires Inv(db) && !e.Report? && Enabled(db, e) && audit in db.audits
    ensures AuditOk(Step(db, e), audit)
  {
    assert AuditOk(db, audit);
  }

  lemma ClaimKeepsTokens(db: Database, e: Event)
    requires TokensDistinct(db.issued) && !e.Report? && Enabled(db, e)
    ensures TokensDistinct(Step(db, e).issued)
  {
  }

  lemma ClaimKeepsInv(db: Database, e: Event)
    requires Inv(db) && !e.Report? && Enabled(db, e)
    ensures Inv(Step(db, e))
  {
    var db' := Step(db, e);
    ClaimKeepsTable(db, e);
    ClaimKeepsTokens(db, e);
    assert AllCounted(db') by {
      forall id | id in db'.rows
        ensures |ClaimsOf(db'.issued, id)| == db'.rows[id].attempt && HolderIssued(db', id)
      {
        ClaimKeepsCounts(db, e, id);
      }
    }
    assert ClaimsOk(db') by {
      forall c | c in db'.issued
        ensures ClaimOk(db', c)
      {
        ClaimKeepsClaims(db, e, c);
      }
    }
    assert AuditsOk(db') by {
      forall audit | audit in db'.audits
        ensures AuditOk(db', audit)
      {
        ClaimKeepsAudits(db, e, audit);
      }
    }
  }

  lemma ReportKeepsTable(db: Database, e: Event)
    requires ValidTable(db.rows) && e.Report? && Enabled(db, e)
    ensures ValidTable(Step(db, e).rows)
  {
    var rows := Step(db, e).rows;
    forall a, b | RunningFor(rows, a, b)
      ensures a == b
    {
      assert RunningFor(db.rows, a, b);
    }
  }

  lemma ReportKeepsClaims(db: Database, e: Event)
    requires ClaimsOk(db) && AllCounted(db) && e.Report? && Enabled(db, e)
    ensures ClaimsOk(Step(db, e)) && AllCounted(Step(db, e))
  {
    var db' := Step(db, e);
    forall c | c in db'.issued
      ensures ClaimOk(db', c)
    {
      assert ClaimOk(db, c);
    }
    forall id | id in db'.rows
      ensures |ClaimsOf(db'.issued, id)| == db'.rows[id].attempt && HolderIssued(db', id)
    {
      assert HolderIssued(db, id);
    }
  }

  lemma ReportKeepsAudits(db: Database, e: Event)
    requires Inv(db) && e.Report? && Enabled(db, e)
    ensures AuditsOk(Step(db, e))
  {
    var db' := Step(db, e);
    assert ClaimOk(db, e.claim);
    forall audit | audit in db'.audits
      ensures AuditOk(db', audit)
    {
      assert audit in db.audits ==> AuditOk(db, audit);
      assert e.claim in db'.issued;
    }
    forall audit | audit in db.audits
      ensures audit.token != e.claim.lease.token
    {
      assert AuditOk(db, audit);
    }
  }

  lemma ReportKeepsInv(db: Database, e: Event)
    requires Inv(db) && e.Report? && Enabled(db, e)
    ensures Inv(Step(db, e))
  {
    ReportKeepsTable(db, e);
    ReportKeepsClaims(db, e);
    ReportKeepsAudits(db, e);
  }

  lemma StepKeepsInv(db: Database, e: Event)
    requires Inv(db)
    ensures Inv(Step(db, e))
  {
    if Enabled(db, e) {
      if e.Report? {
        ReportKeepsInv(db, e);
      } else {
        ClaimKeepsInv(db, e);
      }
    }
  }

  lemma {:induction false} RunKeepsInv(events: seq<Event>)
    ensures Inv(Run(events))
  {
    if events != [] {
      RunKeepsInv(events[..|events| - 1]);
      StepKeepsInv(Run(events[..|events| - 1]), events[|events| - 1]);
    }
  }

  // ---------------------------------------------------------------- what the scheduler guarantees

  /** Every rehearsal is claimed exactly `attempt` times, never more than its budget, and no workshop
      ever has two running. */
  lemma ClaimsAreBounded(events: seq<Event>, id: Uuid)
    requires id in Run(events).rows
    ensures var db := Run(events);
            && |ClaimsOf(db.issued, id)| == db.rows[id].attempt <= db.rows[id].maxAttempts
            && OneRunningEach(db.rows)
  {
    RunKeepsInv(events);
  }

  /** A claim reports at most once, with exactly one audit event; a retry is scheduled only while the
      budget lasts. */
  lemma OneAuditPerClaim(events: seq<Event>, i: nat, j: nat)
    requires i < |Run(events).audits| && j < |Run(events).audits|
    ensures var audits := Run(events).audits;
            && (audits[i].token == audits[j].token ==> i == j)
            && (exists claim :: claim in Run(events).issued && claim.lease.token == audits[i].token &&
                                claim.attempt == audits[i].attempt &&
                                (audits[i].retryScheduled ==> claim.attempt < claim.maxAttempts))
  {
    RunKeepsInv(events);
    assert AuditOk(Run(events), Run(events).audits[i]);
  }

  /** A result is written exactly when no later claim took the row, however long ago the claim's own
      lease ran out; and a claim that was taken over stays refused. */
  lemma ReportNeedsCurrentClaim(events: seq<Event>, claim: Claim, reply: DriverReply, now: int)
    requires claim in Run(events).issued
    ensures var db := Run(events);
            Step(db, Report(claim, reply, now)) != db <==>
              claim.rehearsal in db.rows && db.rows[claim.rehearsal].state.Running? && db.rows[claim.rehearsal].attempt == claim.attempt
  {
    RunKeepsInv(events);
    var db := Run(events);
    var row := db.rows[claim.rehearsal];
    assert ClaimOk(db, claim) && row.WellFormed();
    if row.state.Running? && row.attempt == claim.attempt {
      SameAttemptSameClaim(events, claim);
      assert |Step(db, Report(claim, reply, now)).audits| == |db.audits| + 1;
    }
  }

  /** Two claims of one rehearsal never share an attempt number. */
  ghost predicate AttemptsDistinct(issued: set<Claim>) {
    forall a, b :: a in issued && b in issued && a.rehearsal == b.rehearsal && a.attempt == b.attempt ==> a == b
  }

  lemma {:induction false} AttemptsStayDistinct(events: seq<Event>)
    ensures AttemptsDistinct(Run(events).issued)
  {
    if events != [] {
      var before, e := events[..|events| - 1], events[|events| - 1];
      AttemptsStayDistinct(before);
      RunKeepsInv(before);
      if Enabled(Run(before), e) && !e.Report? {
        forall c | c in Run(before).issued && c.rehearsal == e.id
          ensures e.ClaimRetry? && c.attempt <= Run(before).rows[e.id].attempt
        {
          assert ClaimOk(Run(before), c);
        }
      }
    }
  }

  lemma SameAttemptSameClaim(events: seq<Event>, claim: Claim)
    requires claim in Run(events).issued && claim.rehearsal in Run(events).rows
    requires Run(events).rows[claim.rehearsal].state.Running?
    requires Run(events).rows[claim.rehearsal].attempt == claim.attempt
    ensures Run(events).rows[claim.rehearsal].lease == Some(claim.lease)
  {
    RunKeepsInv(events);
    AttemptsStayDistinct(events);
    var db := Run(events);
    assert db.rows[claim.rehearsal].WellFormed();
    assert HolderIssued(db, claim.rehearsal);
    var holder :| holder in db.issued && holder.rehearsal == claim.rehearsal &&
                  holder.lease == db.rows[claim.rehearsal].lease.value;
    assert ClaimOk(db, holder);
  }

  /** A last attempt that is never reported stays running: no retry applies to it at any time. */
  lemma AbandonedLastAttemptIsStuck(events: seq<Event>, id: Uuid, e: Event)
    requires id in Run(events).rows && Run(events).rows[id].attempt == Run(events).rows[id].maxAttempts
    requires Run(events).rows[id].state.Running? && !e.Report?
    ensures id in Step(Run(events), e).rows && Step(Run(events), e).rows[id] == Run(events).rows[id]
  {
  }

  // ---------------------------------------------------------------- the scheduler's pass

  /** What the pass still needs from outside for each claim it tries. */
  datatype Draw = Draw(rehearsal: Uuid, token: Uuid, eligible: bool, now: int)

  /** A retry that would make a second running rehearsal violates the unique index, which fails the
      whole pass; every other miss is skipped. */
  datatype Attempted = Claimed(claim: Claim) | Skipped | IndexConflict

  datatype Candidate = Candidate(rehearsal: Uuid, workshop: Uuid, recovery: Uuid)

  ghost predicate StepAt(states: seq<Database>, events: seq<Event>, k: nat)
    requires k < |events| && |states| == |events| + 1
  {
    states[k + 1] == Step(states[k], events[k])
  }

  /** `events` lead from `start` through `states` to `end`. */
  ghost predicate Leads(start: Database, states: seq<Database>, events: seq<Event>, end: Database) {
    && |states| == |events| + 1 && states[0] == start && states[|events|] == end
    && forall k :: 0 <= k < |events| ==> StepAt(states, events, k)
  }

  lemma LeadsOn(start: Database, states: seq<Database>, events: seq<Event>, end: Database, e: Event)
    requires Leads(start, states, events, end)
    ensures Leads(start, states + [Step(end, e)], events + [e], Step(end, e))
  {
    var longer, more := states + [Step(end, e)], events + [e];
    forall k | 0 <= k < |more|
      ensures StepAt(longer, more, k)
    {
      if k < |events| {
        assert StepAt(states, events, k);
      }
    }
  }

  /** `claims` are the claims issued between the two states. */
  ghost predicate IssuedSince(start: Database, claims: seq<Claim>, end: Database) {
    start.issued <= end.issued && forall c :: c in claims <==> c in end.issued && c !in start.issued
  }

  lemma IssueOne(start: Database, claims: seq<Claim>, db: Database, e: Event)
    requires IssuedSince(start, claims, db) && !e.Report?
    ensures IssuedSince(start, if Enabled(db, e) then claims + [Handed(db, e)] else claims, Step(db, e))
  {
    if Enabled(db, e) {
      assert Handed(db, e) !in db.issued;
    }
  }

  /** The tokens drawn from `i` on were never issued. */
  ghost predicate TokensLeft(db: Database, draw: nat -> Draw, i: nat) {
    forall j: nat :: i <= j ==> Unissued(db, draw(j).token)
  }

  ghost predicate TokensDiffer(draw: nat -> Draw) {
    forall i: nat, j: nat :: i < j ==> draw(i).token != draw(j).token
  }

  lemma StepLeavesTokens(db: Database, e: Event, draw: nat -> Draw, i: nat)
    requires TokensLeft(db, draw, i) && TokensDiffer(draw) && !e.Report? && e.lease.token == draw(i).token
    ensures Unissued(db, draw(i).token) && TokensLeft(Step(db, e), draw, i + 1)
  {
  }

  class Scheduler {
    const id: Uuid
    var rows: Table
    var scan: seq<Uuid>
    ghost var db: Database

    ghost predicate Valid()
      reads this
    {
      rows == db.rows && Inv(db) && forall k :: k in rows <==> k in scan
    }

    constructor (id: Uuid)
      ensures Valid() && this.id == id && db == Run([])
    {
      RunKeepsInv([]);
      this.id := id;
      rows, scan, db := map[], [], Run([]);
    }

    function RetryOf(c: Candidate, draw: Draw): Event {
      ClaimRetry(c.rehearsal, c.workshop, c.recovery, Lease(id, draw.token), draw.eligible, draw.now)
    }

    function NewFor(workshop: Uuid, recovery: Uuid, draw: Draw): Event {
      ClaimNew(draw.rehearsal, workshop, recovery, Lease(id, draw.token), draw.eligible, draw.now)
    }

    /** The index lookup: another row of the workshop that is running. */
    method RunningElsewhere(workshop: Uuid, except: Option<Uuid>) returns (found: bool)
      requires Valid()
      ensures found <==> exists k :: k in rows && Some(k) != except && rows[k].workshop == workshop && rows[k].state.Running?
    {
      for i := 0 to |scan|
        invariant forall k :: 0 <= k < i && Some(scan[k]) != except && rows[scan[k]].workshop == workshop ==>
                                !rows[scan[k]].state.Running?
      {
        if Some(scan[i]) != except && rows[scan[i]].workshop == workshop && rows[scan[i]].state.Running? {
          return true;
        }
      }
      forall k | k in rows && Some(k) != except && rows[k].workshop == workshop
        ensures !rows[k].state.Running?
      {
        assert k in scan;
      }
      found := false;
    }

    /** The guarded update makes exactly the step of the runs; it claims exactly when that step is enabled. */
    method ClaimRehearsalRetry(c: Candidate, draw: Draw) returns (r: Attempted)
      requires Valid() && Unissued(db, draw.token)
      modifies this
      ensures Valid() && db == Step(old(db), RetryOf(c, draw))
      ensures r.Claimed? <==> Enabled(old(db), RetryOf(c, draw))
      ensures r.Claimed? ==> r.claim == Handed(old(db), RetryOf(c, draw))
      ensures r.IndexConflict? ==>
                exists k :: k in rows && k != c.rehearsal && rows[k].workshop == c.workshop && rows[k].state.Running?
      ensures !r.Claimed? ==> db == old(db)
    {
      ghost var e := RetryOf(c, draw);
      StepKeepsInv(db, e);
      if c.rehearsal !in rows {
        return Skipped;
      }
      var row := rows[c.rehearsal];
      if row.workshop != c.workshop || row.recovery != c.recovery || !draw.eligible || !row.Claimable(draw.now) {
        return Skipped;
      }
      var busy := RunningElsewhere(c.workshop, Some(c.rehearsal));
      if busy {
        return IndexConflict;
      }
      rows := rows[c.rehearsal := Reclaimed(row, Lease(id, draw.token), draw.now)];
      db := Step(db, e);
      r := Claimed(Claim(c.rehearsal, c.workshop, c.recovery, Lease(id, draw.token), row.attempt + 1, row.maxAttempts));
    }

    method ClaimNewRehearsal(workshop: Uuid, recovery: Uuid, draw: Draw) returns (claim: Option<Claim>)
      requires Valid() && Unissued(db, draw.token)
      modifies this
      ensures Valid() && db == Step(old(db), NewFor(workshop, recovery, draw))
      ensures claim.Some? <==> Enabled(old(db), NewFor(workshop, recovery, draw))
      ensures claim.Some? ==> claim.value == Handed(old(db), NewFor(workshop, recovery, draw))
      ensures claim.None? ==> db == old(db)
    {
      ghost var e := NewFor(workshop, recovery, draw);
      StepKeepsInv(db, e);
      var busy := RunningElsewhere(workshop, None);
      if !draw.eligible || busy || draw.rehearsal in rows {
        return None;
      }
      rows := rows[draw.rehearsal := NewRow(workshop, recovery, Lease(id, draw.token), draw.now)];
      scan := scan + [draw.rehearsal];
      db := Step(db, e);
      claim := Some(Claim(draw.rehearsal, workshop, recovery, Lease(id, draw.token), 1, DEFAULT_MAX_ATTEMPTS));
    }

    /** One retry of a pass, with the claims it has so far. */
    method TryRetry(c: Candidate, draw: nat -> Draw, i: nat, claims: seq<Claim>, ghost start: Database)
      returns (more: seq<Claim>, conflict: bool)
      requires Valid() && TokensLeft(db, draw, i) && TokensDiffer(draw) && IssuedSince(start, claims, db)
      modifies this
      ensures Valid() && TokensLeft(db, draw, i + 1) && IssuedSince(start, more, db) && |more| <= |claims| + 1
      ensures db == Step(old(db), RetryOf(c, draw(i)))
    {
      ghost var e := RetryOf(c, draw(i));
      StepLeavesTokens(db, e, draw, i);
      IssueOne(start, claims, db, e);
      var attempted := ClaimRehearsalRetry(c, draw(i));
      more := if attempted.Claimed? then claims + [attempted.claim] else claims;
      conflict := attempted.IndexConflict?;
    }

    method TryNew(newcomer: (Uuid, Uuid), draw: nat -> Draw, i: nat, claims: seq<Claim>, ghost start: Database)
      returns (more: seq<Claim>)
      requires Valid() && TokensLeft(db, draw, i) && TokensDiffer(draw) && IssuedSince(start, claims, db)
      modifies this
      ensures Valid() && TokensLeft(db, draw, i + 1) && IssuedSince(start, more, db) && |more| <= |claims| + 1
      ensures db == Step(old(db), NewFor(newcomer.0, newcomer.1, draw(i)))
    {
      ghost var e := NewFor(newcomer.0, newcomer.1, draw(i));
      StepLeavesTokens(db, e, draw, i);
      IssueOne(start, claims, db, e);
      var claim := ClaimNewRehearsal(newcomer.0, newcomer.1, draw(i));
      more := if claim.Some? then claims + [claim.value] else claims;
    }

    /** Try every due retry in order, up to the first that the unique index refuses. */
    method ClaimRetries(retries: seq<Candidate>, draw: nat -> Draw)
      returns (claims: seq<Claim>, failed: bool, ghost events: seq<Event>, ghost states: seq<Database>)
      requires Valid() && TokensLeft(db, draw, 0) && TokensDiffer(draw)
      modifies this
      ensures Valid() && TokensLeft(db, draw, |events|) && Leads(old(db), states, events, db)
      ensures IssuedSince(old(db), claims, db) && |claims| <= |retries|
      ensures |events| <= |retries| && (if failed then 0 < |events| else |events| == |retries|)
      ensures forall k :: 0 <= k < |events| ==> events[k] == RetryOf(retries[k], draw(k))
    {
      claims, failed, events, states := [], false, [], [db];
      for i := 0 to |retries|
        invariant Valid() && !failed && TokensLeft(db, draw, i) && |claims| <= i
        invariant IssuedSince(old(db), claims, db) && Leads(old(db), states, events, db)
        invariant |events| == i && forall k :: 0 <= k < i ==> events[k] == RetryOf(retries[k], draw(k))
      {
        ghost var e := RetryOf(retries[i], draw(i));
        LeadsOn(old(db), states, events, db, e);
        claims, failed := TryRetry(retries[i], draw, i, claims, old(db));
        events, states := events + [e], states + [db];
        if failed {
          return;
        }
      }
    }

    /** Go on with the new ones, in order. */
    method ClaimNewcomers(newcomers: seq<(Uuid, Uuid)>, draw: nat -> Draw, before: seq<Claim>, offset: nat, ghost start: Database,
                          ghost tried: seq<Event>, ghost passed: seq<Database>)
      returns (claims: seq<Claim>, ghost events: seq<Event>, ghost states: seq<Database>)
      requires Valid() && TokensLeft(db, draw, offset) && TokensDiffer(draw) && |tried| == offset
      requires IssuedSince(start, before, db) && Leads(start, passed, tried, db)
      modifies this
      ensures Valid() && Leads(start, states, events, db)
      ensures IssuedSince(start, claims, db) && |claims| <= |before| + |newcomers|
      ensures tried <= events && Follows(events, offset, newcomers, draw)
    {
      claims, events, states := before, tried, passed;
      for i := 0 to |newcomers|
        invariant Valid() && TokensLeft(db, draw, offset + i) && |claims| <= |before| + i
        invariant IssuedSince(start, claims, db) && Leads(start, states, events, db)
        invariant |events| == offset + i && tried <= events
        invariant forall k :: 0 <= k < i ==> events[offset + k] == NewFor(newcomers[k].0, newcomers[k].1, draw(offset + k))
      {
        ghost var e := NewFor(newcomers[i].0, newcomers[i].1, draw(offset + i));
        LeadsOn(start, states, events, db, e);
        claims := TryNew(newcomers[i], draw, offset + i, claims, start);
        events, states := events + [e], states + [db];
      }
    }

    /** One pass: try every due retry in order, then, for as many as the limit leaves room for, the new ones. It is
        a run of those attempts, up to the first that the unique index refuses; it returns exactly the claims issued
        on the way, and never more than twenty. */
    method ClaimDue(retries: seq<Candidate>, due: nat -> seq<(Uuid, Uuid)>, draw: nat -> Draw)
      returns (claims: seq<Claim>, failed: bool, ghost events: seq<Event>, ghost states: seq<Database>)
      requires Valid() && |retries| <= PASS_LIMIT && forall n: nat :: |due(n)| <= n
      requires TokensLeft(db, draw, 0) && TokensDiffer(draw)
      modifies this
      ensures Valid() && Leads(old(db), states, events, db)
      ensures IssuedSince(old(db), claims, db) && |claims| <= PASS_LIMIT
      ensures forall k :: 0 <= k < |events| && k < |retries| ==> events[k] == RetryOf(retries[k], draw(k))
      ensures failed ==> 0 < |events| <= |retries|
      ensures !failed ==> exists n: nat :: n <= PASS_LIMIT && Follows(events, |retries|, due(n), draw)
    {
      claims, failed, events, states := ClaimRetries(retries, draw);
      if failed {
        return;
      }
      var remaining := PASS_LIMIT - |claims|;
      claims, events, states := ClaimNewcomers(due(remaining), draw, claims, |retries|, old(db), events, states);
    }

    /** From position `offset` on, the events are the attempts at `newcomers`, in order. */
    ghost predicate Follows(events: seq<Event>, offset: nat, newcomers: seq<(Uuid, Uuid)>, draw: nat -> Draw) {
      && |events| == offset + |newcomers|
      && forall k :: 0 <= k < |newcomers| ==> events[offset + k] == NewFor(newcomers[k].0, newcomers[k].1, draw(offset + k))
    }

    /** The result and its audit event, or neither, as one step of the runs. */
    method RecordResult(claim: Claim, reply: DriverReply, now: int) returns (audit: Option<Audit>)
      requires Valid() && claim in db.issued && claim.lease.owner == id
      modifies this
      ensures Valid() && db == Step(old(db), Report(claim, reply, now))
      ensures audit.Some? <==> Enabled(old(db), Report(claim, reply, now))
      ensures db.audits == old(db).audits + (if audit.Some? then [audit.value] else [])
      ensures audit.None? ==> db == old(db)
    {
      StepKeepsInv(db, Report(claim, reply, now));
      assert ClaimOk(db, claim);
      if claim.rehearsal !in rows {
        return None;
      }
      var row := rows[claim.rehearsal];
      if row.workshop != claim.workshop || row.recovery != claim.recovery || !row.state.Running?
         || row.lease != Some(Lease(id, claim.lease.token)) {
        return None;
      }
      rows := rows[claim.rehearsal := Reported(row, claim, reply, now)];
      db := Step(db, Report(claim, reply, now));
      audit := Some(Audit(claim.rehearsal, claim.lease.token, IsSuccess(reply), claim.attempt, RetryScheduled(claim, reply)));
    }
  }
}
