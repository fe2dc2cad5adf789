/** The lease guard around a running handler, and why its pace keeps the lease. */
module Heartbeat {
  import opened Domain
  import opened Operations
  import opened OperationRuns

  const HEARTBEAT_INTERVAL: int := 20 * SECOND
  const HEARTBEAT_TIMEOUT: int := 15 * SECOND
  const LONGEST_GAP: int := HEARTBEAT_TIMEOUT + HEARTBEAT_INTERVAL + HEARTBEAT_TIMEOUT

  // ---------------------------------------------------------------- the guard

  datatype Renewal = Kept | Refused | Failed

  /** One turn of the guard: either the work completes before the timer, or the lease is renewed. */
  datatype Round<+T> = Round(work: Option<T>, renewal: Renewal)

  datatype Guarded<+T> = Completed(value: T) | LeaseLost | HeartbeatFailed | StillRunning

  /** Renewal needs the operation's lease and the worker's own registration, in time. */
  function RenewalOf(timedOut: bool, leaseRenewed: bool, workerRegistered: bool): Renewal {
    if timedOut then Failed else if leaseRenewed && workerRegistered then Kept else Refused
  }

  /** `i` is the round that ends the guard. */
  predicate Decisive<T>(rounds: seq<Round<T>>, i: nat) {
    i < |rounds| && (rounds[i].work.Some? || !rounds[i].renewal.Kept?)
  }

  /** Runs the rounds in order. The handler is polled once a round and never after the deciding one:
      a lease that was refused or could not be renewed cancels it on the spot. */
  method Guard<T>(rounds: seq<Round<T>>) returns (result: Guarded<T>, polls: nat)
    ensures polls <= |rounds|
    ensures forall i :: 0 <= i < polls - 1 ==> !Decisive(rounds, i)
    ensures result.StillRunning? <==> forall i :: 0 <= i < |rounds| ==> !Decisive(rounds, i)
    ensures !result.StillRunning? ==> polls > 0 && Decisive(rounds, polls - 1)
    ensures result.Completed? ==> rounds[polls - 1].work == Some(result.value)
    ensures result.LeaseLost? ==> rounds[polls - 1].work.None? && rounds[polls - 1].renewal.Refused?
    ensures result.HeartbeatFailed? ==> rounds[polls - 1].work.None? && rounds[polls - 1].renewal.Failed?
  {
    polls := 0;
    while polls < |rounds|
      invariant polls <= |rounds|
      invariant forall i :: 0 <= i < polls ==> !Decisive(rounds, i)
    {
      var round := rounds[polls];
      assert round.work.Some? || !round.renewal.Kept? ==> Decisive(rounds, polls);
      polls := polls + 1;
      if round.work.Some? {
        return Completed(round.work.value), polls;
      }
      match round.renewal {
        case Kept =>
        case Refused => return LeaseLost, polls;
        case Failed => return HeartbeatFailed, polls;
      }
    }
    result := StillRunning;
  }

  // ---------------------------------------------------------------- its pace

  /** One renewal: when it was called, when the database applied it, when it returned. */
  datatype Beat = Beat(start: int, commit: int, end: int)

  /** When the guard last went to sleep before renewal `i`. */
  function SleepFrom(begin: int, beats: seq<Beat>, i: nat): int
    requires i < |beats|
  {
    if i == 0 then begin else beats[i - 1].end
  }

  /** The timer of renewal `i` fires on time and the renewal returns within its timeout. */
  predicate PromptAt(begin: int, beats: seq<Beat>, i: nat)
    requires i < |beats|
  {
    && beats[i].start == SleepFrom(begin, beats, i) + HEARTBEAT_INTERVAL
    && beats[i].start <= beats[i].commit <= beats[i].end <= beats[i].start + HEARTBEAT_TIMEOUT
  }

  ghost predicate Prompt(begin: int, beats: seq<Beat>) {
    forall i :: 0 <= i < |beats| ==> PromptAt(begin, beats, i)
  }

  /** Renewals reach the database at most 50 seconds apart. */
  lemma BeatsAreClose(begin: int, beats: seq<Beat>, i: nat)
    requires Prompt(begin, beats) && i < |beats|
    ensures i == 0 ==> beats[i].commit <= begin + HEARTBEAT_INTERVAL + HEARTBEAT_TIMEOUT
    ensures i > 0 ==> beats[i - 1].commit < beats[i].commit <= beats[i - 1].commit + LONGEST_GAP
  {
    assert PromptAt(begin, beats, i);
    if i > 0 {
      assert PromptAt(begin, beats, i - 1);
    }
  }

  // ---------------------------------------------------------------- against the queue

  /** A run step by step: the events, the worlds between them, and which events took effect. */
  datatype History = History(events: seq<Event>, worlds: seq<World>, taken: seq<bool>)

  ghost predicate StepAt(h: History, k: nat)
    requires k < |h.events| && |h.worlds| == |h.events| + 1 && |h.taken| == |h.events|
  {
    h.worlds[k + 1] == Next(h.worlds[k], h.events[k]) && (h.taken[k] <==> Enabled(h.worlds[k].db, h.events[k]))
  }

  ghost predicate Genuine(h: History) {
    && |h.worlds| == |h.events| + 1 && |h.taken| == |h.events|
    && h.worlds[0] == After([])
    && forall k :: 0 <= k < |h.events| ==> StepAt(h, k)
  }

  /** Every run has its history, and the history goes through the states of the run. */
  lemma HistoryOfRun(events: seq<Event>) returns (h: History)
    ensures Genuine(h) && h.events == events
    ensures forall k :: 0 <= k <= |events| ==> h.worlds[k] == After(events[..k])
  {
    var worlds := seq(|events| + 1, k requires 0 <= k <= |events| => After(events[..k]));
    h := History(events, worlds, seq(|events|, k requires 0 <= k < |events| => Enabled(After(events[..k]).db, events[k])));
    forall k | 0 <= k < |events|
      ensures StepAt(h, k)
    {
      assert events[..k + 1][..k] == events[..k];
    }
    assert events[..0] == [];
  }

  /** The time a step of a run carries, if it carries one. */
  function TimeOf(e: Event): Option<int> {
    match e
    case Run(Redact(_, _)) => None
    case Run(s) => Some(s.now)
    case LockLease(_, _, now) => Some(now)
    case EndTransaction(_) => None
  }

  /** One clock for all sessions. */
  ghost predicate OneClock(events: seq<Event>) {
    forall a, b :: 0 <= a < b < |events| && TimeOf(events[a]).Some? && TimeOf(events[b]).Some? ==>
                     TimeOf(events[a]).value <= TimeOf(events[b]).value
  }

  predicate Finishes(e: Event, id: Uuid) { e.Run? && e.statement.Finish? && e.statement.op.id == id }

  predicate Grants(e: Event, id: Uuid) { e.Run? && e.statement.Grant? && e.statement.id == id }

  /** `op` is still its holder's, with a lease that lasts at least until `until`. */
  ghost predicate HeldUntil(w: World, op: LeasedOperation, until: int) {
    && op in w.db.issued && op.id in w.db.rows
    && w.db.rows[op.id].state.InFlight? && w.db.rows[op.id].leasedBy == Some(op.leasedBy)
    && w.db.rows[op.id].attempt == op.attempt
    && w.db.rows[op.id].leaseExpiresAt.Some? && w.db.rows[op.id].leaseExpiresAt.value >= until
  }

  /** A step no later than the lease lasts leaves it with its holder, unless the holder finishes; a renewal no
      older than the lease never shortens it. */
  lemma StepKeepsHolder(w: World, e: Event, op: LeasedOperation, until: int)
    requires HeldUntil(w, op, until)
    requires !(Finishes(e, op.id) && Enabled(w.db, e))
    requires TimeOf(e).Some? ==> until - LEASE_TIME <= TimeOf(e).value <= until
    ensures HeldUntil(Next(w, e), op, until)
    ensures !(Grants(e, op.id) && Enabled(w.db, e))
  {
  }

  lemma HolderMayRenew(w: World, op: LeasedOperation, until: int, now: int)
    requires HeldUntil(w, op, until) && now < until && op.id !in w.db.locks
    ensures Enabled(w.db, Run(Renew(op, now)))
    ensures HeldUntil(Next(w, Run(Renew(op, now))), op, now + LEASE_TIME)
  {
  }

  ghost predicate NotFinished(h: History, id: Uuid, from: nat, to: nat)
    requires |h.taken| == |h.events| && to <= |h.events|
  {
    forall k :: from < k < to ==> !(h.taken[k] && Finishes(h.events[k], id))
  }

  ghost predicate NotGranted(h: History, id: Uuid, from: nat, to: nat)
    requires |h.taken| == |h.events| && to <= |h.events|
  {
    forall k :: from < k < to ==> !(h.taken[k] && Grants(h.events[k], id))
  }

  ghost predicate NoLaterThan(events: seq<Event>, to: nat, limit: int)
    requires to <= |events|
  {
    forall k :: 0 <= k < to && TimeOf(events[k]).Some? ==> TimeOf(events[k]).value <= limit
  }

  lemma ClockBounds(events: seq<Event>, k: nat, limit: int)
    requires OneClock(events) && k < |events| && TimeOf(events[k]).Some? && TimeOf(events[k]).value <= limit
    ensures NoLaterThan(events, k + 1, limit) && NoLaterThan(events, k, limit)
  {
  }

  /** The step at `a` gave the holder of `op` a lease time from `from` on. */
  ghost predicate Leases(h: History, op: LeasedOperation, a: nat, from: int)
    requires Genuine(h) && a < |h.events|
  {
    TimeOf(h.events[a]) == Some(from) && HeldUntil(h.worlds[a + 1], op, from + LEASE_TIME)
  }

  /** Such a lease stays with its holder for that long. */
  lemma {:induction false} HolderStays(h: History, op: LeasedOperation, a: nat, from: int, b: nat)
    requires Genuine(h) && OneClock(h.events) && a < b <= |h.events| && Leases(h, op, a, from)
    requires NotFinished(h, op.id, a, b) && NoLaterThan(h.events, b, from + LEASE_TIME)
    ensures HeldUntil(h.worlds[b], op, from + LEASE_TIME) && NotGranted(h, op.id, a, b)
    decreases b
  {
    if b > a + 1 {
      HolderStays(h, op, a, from, b - 1);
      assert StepAt(h, b - 1);
      StepKeepsHolder(h.worlds[b - 1], h.events[b - 1], op, from + LEASE_TIME);
    }
  }

  // ---------------------------------------------------------------- the theorem

  /** A worker was granted `op` by the step at `g` and calls for renewals at the steps `p`, when `beats` say so.
      Its guard goes on to the next one only after a renewal that was taken. */
  ghost predicate Beating(h: History, op: LeasedOperation, g: nat, p: seq<nat>, beats: seq<Beat>)
    requires Genuine(h)
  {
    && g < |h.events| && Grants(h.events[g], op.id) && h.taken[g] && GrantedAt(h, op, g)
    && |p| == |beats|
    && (forall i :: 0 <= i < |p| ==> g < p[i] < |h.events| && BeatAt(h, op, p[i], beats[i]))
    && (forall i, j :: 0 <= i < j < |p| ==> p[i] < p[j] && h.taken[p[i]])
  }

  ghost predicate GrantedAt(h: History, op: LeasedOperation, g: nat)
    requires Genuine(h) && g < |h.events| && Grants(h.events[g], op.id)
  {
    op.id in h.worlds[g].db.rows && op == Leased(op.id, h.worlds[g].db.rows[op.id], h.events[g].statement.worker)
  }

  ghost predicate BeatAt(h: History, op: LeasedOperation, k: nat, beat: Beat)
    requires Genuine(h) && k < |h.events|
  {
    h.events[k] == Run(Renew(op, beat.commit))
  }

  /** How late after the grant the guard may start: 25 seconds. */
  const LATEST_START: int := LEASE_TIME - HEARTBEAT_INTERVAL - HEARTBEAT_TIMEOUT

  /** A worker that starts its guard soon enough and keeps its pace. */
  ghost predicate Healthy(h: History, op: LeasedOperation, g: nat, p: seq<nat>, begin: int, beats: seq<Beat>)
    requires Genuine(h)
  {
    && OneClock(h.events) && Beating(h, op, g, p, beats) && Prompt(begin, beats)
    && h.events[g].statement.now <= begin < h.events[g].statement.now + LATEST_START
  }

  /** The step that last extended the lease before renewal `i`, and its time. */
  function Anchor(g: nat, p: seq<nat>, i: nat): nat
    requires i <= |p|
  {
    if i == 0 then g else p[i - 1]
  }

  function AnchorTime(events: seq<Event>, g: nat, beats: seq<Beat>, i: nat): int
    requires i <= |beats| && g < |events| && events[g].Run? && events[g].statement.Grant?
  {
    if i == 0 then events[g].statement.now else beats[i - 1].commit
  }

  /** With the guard's pace each renewal falls strictly within the lease of the one before. */
  lemma PaceIsEnough(h: History, op: LeasedOperation, g: nat, p: seq<nat>, begin: int, beats: seq<Beat>, i: nat)
    requires Genuine(h) && Healthy(h, op, g, p, begin, beats) && i < |p|
    ensures beats[i].commit < AnchorTime(h.events, g, beats, i) + LEASE_TIME
  {
    BeatsAreClose(begin, beats, i);
  }

  lemma GrantLeases(h: History, op: LeasedOperation, g: nat)
    requires Genuine(h) && g < |h.events| && Grants(h.events[g], op.id) && h.taken[g] && GrantedAt(h, op, g)
    ensures Leases(h, op, g, h.events[g].statement.now)
  {
    assert StepAt(h, g);
  }

  lemma RenewalLeases(h: History, op: LeasedOperation, k: nat, beat: Beat, until: int)
    requires Genuine(h) && k < |h.events| && BeatAt(h, op, k, beat)
    requires HeldUntil(h.worlds[k], op, until) && beat.commit < until
    ensures h.taken[k] <==> op.id !in h.worlds[k].db.locks
    ensures h.taken[k] ==> Leases(h, op, k, beat.commit)
  {
    assert StepAt(h, k);
    if op.id !in h.worlds[k].db.locks {
      HolderMayRenew(h.worlds[k], op, until, beat.commit);
    }
  }

  /** A renewal that falls within the lease of the one before is taken exactly if no transaction holds the row. */
  lemma NextBeat(h: History, op: LeasedOperation, a: nat, from: int, k: nat, beat: Beat)
    requires Genuine(h) && OneClock(h.events) && a < k < |h.events| && Leases(h, op, a, from)
    requires BeatAt(h, op, k, beat) && beat.commit < from + LEASE_TIME && NotFinished(h, op.id, a, k)
    ensures h.taken[k] <==> op.id !in h.worlds[k].db.locks
    ensures h.taken[k] ==> Leases(h, op, k, beat.commit)
  {
    ClockBounds(h.events, k, from + LEASE_TIME);
    HolderStays(h, op, a, from, k);
    RenewalLeases(h, op, k, beat, from + LEASE_TIME);
  }

  /** A grant after that comes later than the lease lasts. */
  lemma GrantIsLate(h: History, op: LeasedOperation, a: nat, from: int, k: nat)
    requires Genuine(h) && OneClock(h.events) && a < k < |h.events| && Leases(h, op, a, from)
    requires NotFinished(h, op.id, a, k) && h.taken[k] && Grants(h.events[k], op.id)
    ensures h.events[k].statement.now > from + LEASE_TIME
  {
    if h.events[k].statement.now <= from + LEASE_TIME {
      ClockBounds(h.events, k, from + LEASE_TIME);
      HolderStays(h, op, a, from, k + 1);
    }
  }

  lemma GrantAfterBeat(h: History, op: LeasedOperation, a: nat, from: int, k: nat, next: nat, beat: Beat)
    requires Genuine(h) && OneClock(h.events) && a < k < |h.events| && next < |h.events| && Leases(h, op, a, from)
    requires BeatAt(h, op, next, beat) && beat.commit < from + LEASE_TIME
    requires NotFinished(h, op.id, a, k) && h.taken[k] && Grants(h.events[k], op.id)
    ensures next < k
  {
    GrantIsLate(h, op, a, from, k);
  }

  lemma BeatFacts(h: History, op: LeasedOperation, g: nat, p: seq<nat>, begin: int, beats: seq<Beat>, i: nat)
    requires Genuine(h) && Healthy(h, op, g, p, begin, beats) && i < |p|
    ensures g <= Anchor(g, p, i) < p[i] < |h.events| && BeatAt(h, op, p[i], beats[i]) && h.taken[Anchor(g, p, i)]
    ensures beats[i].commit < AnchorTime(h.events, g, beats, i) + LEASE_TIME
    ensures TimeOf(h.events[p[i]]) == Some(beats[i].commit)
  {
    PaceIsEnough(h, op, g, p, begin, beats, i);
    assert BeatAt(h, op, p[i], beats[i]);
  }

  /** What the last renewal that was taken gave a healthy worker that has not finished. */
  lemma {:induction false} AnchorLeases(h: History, op: LeasedOperation, g: nat, p: seq<nat>, begin: int, beats: seq<Beat>, i: nat)
    requires Genuine(h) && Healthy(h, op, g, p, begin, beats) && i <= |p| && h.taken[Anchor(g, p, i)]
    requires NotFinished(h, op.id, g, Anchor(g, p, i))
    ensures Leases(h, op, Anchor(g, p, i), AnchorTime(h.events, g, beats, i))
  {
    if i == 0 {
      GrantLeases(h, op, g);
    } else {
      BeatFacts(h, op, g, p, begin, beats, i - 1);
      AnchorLeases(h, op, g, p, begin, beats, i - 1);
      NextBeat(h, op, Anchor(g, p, i - 1), AnchorTime(h.events, g, beats, i - 1), p[i - 1], beats[i - 1]);
    }
  }

  /** Every renewal that a healthy worker calls for before it finishes is taken exactly if no transaction holds the
      row at that moment. */
  lemma PromptRenewalsAreTaken(h: History, op: LeasedOperation, g: nat, p: seq<nat>, begin: int, beats: seq<Beat>, i: nat)
    requires Genuine(h) && Healthy(h, op, g, p, begin, beats) && i < |p|
    requires NotFinished(h, op.id, g, p[i])
    ensures h.taken[p[i]] <==> op.id !in h.worlds[p[i]].db.locks
  {
    BeatFacts(h, op, g, p, begin, beats, i);
    AnchorLeases(h, op, g, p, begin, beats, i);
    NextBeat(h, op, Anchor(g, p, i), AnchorTime(h.events, g, beats, i), p[i], beats[i]);
  }

  /** A grant of the operation comes after every renewal of a healthy worker that has not finished. */
  lemma {:induction false} RenewalsComeFirst(h: History, op: LeasedOperation, g: nat, p: seq<nat>, begin: int,
                                             beats: seq<Beat>, k: nat, i: nat)
    requires Genuine(h) && Healthy(h, op, g, p, begin, beats) && i <= |p|
    requires g < k < |h.events| && NotFinished(h, op.id, g, k) && h.taken[k] && Grants(h.events[k], op.id)
    ensures Anchor(g, p, i) < k
  {
    if i > 0 {
      RenewalsComeFirst(h, op, g, p, begin, beats, k, i - 1);
      BeatFacts(h, op, g, p, begin, beats, i - 1);
      AnchorLeases(h, op, g, p, begin, beats, i - 1);
      GrantAfterBeat(h, op, Anchor(g, p, i - 1), AnchorTime(h.events, g, beats, i - 1), k, p[i - 1], beats[i - 1]);
    }
  }

  /** How many of the renewals were taken: all, or all but the last. */
  function TakenCount(h: History, p: seq<nat>): (n: nat)
    requires |p| > 0 ==> p[|p| - 1] < |h.taken|
    ensures n <= |p|
  {
    if |p| > 0 && !h.taken[p[|p| - 1]] then |p| - 1 else |p|
  }

  lemma LastAnchorTaken(h: History, op: LeasedOperation, g: nat, p: seq<nat>, begin: int, beats: seq<Beat>)
    requires Genuine(h) && Healthy(h, op, g, p, begin, beats)
    ensures |p| > 0 ==> p[|p| - 1] < |h.taken|
    ensures Anchor(g, p, TakenCount(h, p)) < |h.taken| && h.taken[Anchor(g, p, TakenCount(h, p))]
  {
    if |p| > 0 {
      BeatFacts(h, op, g, p, begin, beats, |p| - 1);
    }
  }

  /** Until a lease time after the last renewal that was taken nobody else is granted the operation of a healthy
      worker, unless the worker finished it before. */
  lemma HealthyWorkerIsNotPreempted(h: History, op: LeasedOperation, g: nat, p: seq<nat>, begin: int,
                                    beats: seq<Beat>, k: nat)
    requires Genuine(h) && Healthy(h, op, g, p, begin, beats)
    requires g < k < |h.events| && NotFinished(h, op.id, g, k) && h.taken[k] && Grants(h.events[k], op.id)
    ensures |p| > 0 ==> p[|p| - 1] < k
    ensures h.events[k].statement.now > AnchorTime(h.events, g, beats, TakenCount(h, p)) + LEASE_TIME
  {
    LastAnchorTaken(h, op, g, p, begin, beats);
    var n := TakenCount(h, p);
    RenewalsComeFirst(h, op, g, p, begin, beats, k, |p|);
    RenewalsComeFirst(h, op, g, p, begin, beats, k, n);
    AnchorLeases(h, op, g, p, begin, beats, n);
    GrantIsLate(h, op, Anchor(g, p, n), AnchorTime(h.events, g, beats, n), k);
  }

  /** The bound on the start is the best possible: started then, a guard that keeps its pace may renew too late. */
  lemma LaterStartMayLoseLease(w: World, s: Statement)
    requires s.Grant? && Enabled(w.db, Run(s))
    ensures var op := Leased(s.id, w.db.rows[s.id], s.worker);
            var begin := s.now + LATEST_START;
            var beat := Beat(begin + HEARTBEAT_INTERVAL, s.now + LEASE_TIME, s.now + LEASE_TIME);
            Prompt(begin, [beat]) && !Enabled(Next(w, Run(s)).db, Run(Renew(op, beat.commit)))
  {
  }

  /** For the guard this means: while the worker stays registered and on time, a round is ended by the completion of
      the work, or by a row lock that makes the renewal wait past its timeout, and by nothing else. */
  lemma HealthyGuardOnlyCompletes<T>(h: History, op: LeasedOperation, g: nat, p: seq<nat>, begin: int,
                                     beats: seq<Beat>, rounds: seq<Round<T>>, i: nat)
    requires Genuine(h) && Healthy(h, op, g, p, begin, beats) && i < |p| == |rounds|
    requires NotFinished(h, op.id, g, p[i]) && rounds[i].renewal == RenewalOf(!h.taken[p[i]], h.taken[p[i]], true)
    ensures Decisive(rounds, i) <==> rounds[i].work.Some? || op.id in h.worlds[p[i]].db.locks
  {
    PromptRenewalsAreTaken(h, op, g, p, begin, beats, i);
  }

  // ---------------------------------------------------------------- the worker in its own way

  predicate Ends(e: Event, tx: TxId) { e == EndTransaction(tx) }

  lemma {:induction false} LockStays(h: History, id: Uuid, tx: TxId, k: nat, b: nat)
    requires Genuine(h) && k < b <= |h.events| && h.taken[k]
    requires h.events[k].LockLease? && h.events[k].tx == tx && h.events[k].op.id == id
    requires forall m :: k < m < b ==> !Ends(h.events[m], tx)
    ensures id in h.worlds[b].db.locks && h.worlds[b].db.locks[id] == tx
    decreases b
  {
    assert StepAt(h, b - 1);
    if b > k + 1 {
      LockStays(h, id, tx, k, b - 1);
      assert !Ends(h.events[b - 1], tx);
    }
  }

  /** The guard awaits a renewal without polling the handler. If the handler is in the middle of a transaction that
      has locked the lease, that transaction cannot end before the renewal, so the renewal is not taken: it times
      out, the round is decisive, and the handler, which was healthy, is never polled again. */
  lemma OwnLockEndsGuard<T>(h: History, op: LeasedOperation, tx: TxId, k: nat, p: nat, beat: Beat, rounds: seq<Round<T>>, i: nat)
    requires Genuine(h) && k < p < |h.events| && h.taken[k]
    requires h.events[k].LockLease? && h.events[k].tx == tx && h.events[k].op == op && BeatAt(h, op, p, beat)
    requires forall m :: k < m < p ==> !Ends(h.events[m], tx)
    requires i < |rounds| && rounds[i].work.None? && rounds[i].renewal == RenewalOf(!h.taken[p], h.taken[p], true)
    ensures !h.taken[p] && rounds[i].renewal.Failed? && Decisive(rounds, i)
  {
    LockStays(h, op.id, tx, k, p);
    assert StepAt(h, p);
  }
}
