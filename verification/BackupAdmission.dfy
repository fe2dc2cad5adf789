/** Lifecycle operations of a workshop under its advisory lock: the nightly backups of the scheduler, and what
    operators and owners request through the API. */
module BackupAdmission {
  import opened Domain
  import Commands

  const DAY: int := 24 * 60 * 60 * SECOND

  datatype PointState = Queued | Creating | Ready | Dead

  /** What a lifecycle operation leaves behind: a backup, the backup taken for safety before a restore, or nothing
      that counts as one. */
  datatype PointKind = Backup | Safety | Other

  datatype Point = Point(workshop: Uuid, createdAt: int, kind: PointKind, state: PointState)
  {
    predicate Live() { !state.Dead? && !kind.Other? }
  }

  /** The idempotency key of the operation: for the scheduler plain for a day's first backup and numbered after
      that, for the API its command. */
  datatype BackupKey =
    | Nightly(workshop: Uuid, date: int)
    | NightlyRetry(workshop: Uuid, date: int, number: nat)
    | OfCommand(command: Uuid)

  datatype LifecycleOp = LifecycleOp(workshop: Uuid, owner: Uuid, key: BackupKey, active: bool)

  /** Operation `i` made point `i`. */
  datatype Database = Database(operations: seq<LifecycleOp>, points: seq<Point>)

  /** Dates are UTC days. */
  function Date(t: int): int { t / DAY }

  /** `startedAt` is the transaction's own time, `clock` the process clock read after the lock wait. `response` is
      what an API handler completes its command with, `allowed` what it checks besides. */
  datatype Event =
    | Admit(workshop: Uuid, owner: Uuid, owned: bool, startedAt: int, clock: int)
    | Request(workshop: Uuid, owner: Uuid, command: Uuid, kind: PointKind, allowed: bool, startedAt: int, response: Commands.CommandResult)
    | OperationEnds(operation: nat)
    | PointMoves(point: nat, state: PointState)

  predicate LifecycleActive(db: Database, workshop: Uuid) {
    exists i :: 0 <= i < |db.operations| && db.operations[i].workshop == workshop && db.operations[i].active
  }

  predicate BackupRecent(db: Database, workshop: Uuid, now: int) {
    exists i :: 0 <= i < |db.points| && db.points[i].workshop == workshop && db.points[i].createdAt > now - DAY &&
                db.points[i].Live()
  }

  predicate StartedOn(p: Point, workshop: Uuid, date: int) {
    !p.kind.Other? && p.workshop == workshop && Date(p.createdAt) == date
  }

  /** Backups of the workshop created on `date`. */
  function CountOn(points: seq<Point>, workshop: Uuid, date: int): nat {
    if points == [] then 0
    else CountOn(points[..|points| - 1], workshop, date) + (if StartedOn(points[|points| - 1], workshop, date) then 1 else 0)
  }

  function KeyFor(points: seq<Point>, workshop: Uuid, clock: int): BackupKey {
    var attempts := CountOn(points, workshop, Date(clock));
    if attempts == 0 then Nightly(workshop, Date(clock)) else NightlyRetry(workshop, Date(clock), attempts + 1)
  }

  predicate KeyTaken(db: Database, owner: Uuid, key: BackupKey) {
    exists i :: 0 <= i < |db.operations| && db.operations[i].owner == owner && db.operations[i].key == key
  }

  /** The guards of the admission, up to the enqueue. */
  predicate Due(db: Database, e: Event)
    requires e.Admit?
  {
    e.owned && !LifecycleActive(db, e.workshop) && !BackupRecent(db, e.workshop, e.startedAt)
  }

  /** A reused key fails the enqueue, because every backup names a recovery point of its own. */
  predicate Admitted(db: Database, e: Event)
    requires e.Admit?
  {
    Due(db, e) && !KeyTaken(db, e.owner, KeyFor(db.points, e.workshop, e.clock))
  }

  /** An API request takes the same lock and wants the workshop idle; and its transaction commits exactly if the
      commands table accepts its response. */
  predicate Requested(db: Database, e: Event)
    requires e.Request?
  {
    e.allowed && !LifecycleActive(db, e.workshop) && !KeyTaken(db, e.owner, OfCommand(e.command)) && e.response.Storable()
  }

  /** A point that may still be, or become, a backup: it is one, or its own operation may yet bring it back from
      failure, or it is a safety backup, which the driver marks ready whatever its state. */
  predicate Revivable(db: Database, i: nat)
    requires i < |db.points| == |db.operations|
  {
    db.points[i].Live() || db.operations[i].active || db.points[i].kind.Safety?
  }

  function Booked(db: Database, op: LifecycleOp, point: Point): Database {
    Database(db.operations + [op], db.points + [point])
  }

  function Step(db: Database, e: Event): Database {
    match e
    case Admit(workshop, owner, _, startedAt, clock) =>
      if Admitted(db, e) then
        Booked(db, LifecycleOp(workshop, owner, KeyFor(db.points, workshop, clock), true), Point(workshop, startedAt, Backup, Queued))
      else db
    case Request(workshop, owner, command, kind, _, startedAt, _) =>
      if Requested(db, e) then
        Booked(db, LifecycleOp(workshop, owner, OfCommand(command), true), Point(workshop, startedAt, kind, Queued))
      else db
    case OperationEnds(i) =>
      if i < |db.operations| then db.(operations := db.operations[i := db.operations[i].(active := false)]) else db
    case PointMoves(i, state) =>
      if i < |db.points| == |db.operations| && Revivable(db, i) then
        db.(points := db.points[i := db.points[i].(state := state)])
      else db
  }

  function Run(events: seq<Event>): Database {
    if events == [] then Database([], []) else Step(Run(events[..|events| - 1]), events[|events| - 1])
  }

  // ---------------------------------------------------------------- spacing

  ghost predicate OneActiveEach(operations: seq<LifecycleOp>) {
    forall i, j :: 0 <= i < j < |operations| && operations[i].active && operations[j].active ==>
                     operations[i].workshop != operations[j].workshop
  }

  ghost predicate Matched(db: Database) {
    && |db.operations| == |db.points|
    && forall i :: 0 <= i < |db.operations| ==> db.operations[i].workshop == db.points[i].workshop
  }

  /** Point `j` of the scheduler comes after point `i`, both may be backups, and they are of one workshop. */
  predicate Rivals(db: Database, i: nat, j: nat)
    requires |db.operations| == |db.points|
  {
    && i < j < |db.points| && db.points[i].workshop == db.points[j].workshop
    && db.points[i].kind.Backup? && !db.operations[j].key.OfCommand?
    && Revivable(db, i) && Revivable(db, j)
  }

  ghost predicate RivalsApart(db: Database) {
    && Matched(db)
    && forall i: nat, j: nat :: Rivals(db, i, j) ==> db.points[i].createdAt + DAY <= db.points[j].createdAt
  }

  /** No backup that may still count lies within a day before a new one: its operation would be active, or it would
      be recent. */
  lemma NewBackupIsApart(db: Database, e: Event, i: nat)
    requires RivalsApart(db) && e.Admit? && Due(db, e)
    requires i < |db.points| && db.points[i].workshop == e.workshop && db.points[i].kind.Backup? && Revivable(db, i)
    ensures db.points[i].createdAt + DAY <= e.startedAt
  {
    assert db.operations[i].workshop == e.workshop;
    assert !db.operations[i].active;
  }

  lemma BookingKeepsApart(db: Database, op: LifecycleOp, point: Point)
    requires RivalsApart(db) && op.workshop == point.workshop
    requires op.key.OfCommand? ||
             forall i :: 0 <= i < |db.points| && db.points[i].workshop == point.workshop && db.points[i].kind.Backup? && Revivable(db, i) ==>
                           db.points[i].createdAt + DAY <= point.createdAt
    ensures RivalsApart(Booked(db, op, point))
  {
    var db' := Booked(db, op, point);
    forall i: nat, j: nat | Rivals(db', i, j)
      ensures db'.points[i].createdAt + DAY <= db'.points[j].createdAt
    {
      assert j < |db.points| ==> Rivals(db, i, j);
      assert Revivable(db', i) == Revivable(db, i);
    }
  }

  lemma SpacingStep(db: Database, e: Event)
    requires OneActiveEach(db.operations) && RivalsApart(db)
    ensures OneActiveEach(Step(db, e).operations) && RivalsApart(Step(db, e))
  {
    var db' := Step(db, e);
    if db' == db {
    } else if e.Admit? {
      forall i | 0 <= i < |db.points| && db.points[i].workshop == e.workshop && db.points[i].kind.Backup? && Revivable(db, i)
        ensures db.points[i].createdAt + DAY <= e.startedAt
      {
        NewBackupIsApart(db, e, i);
      }
      BookingKeepsApart(db, db'.operations[|db.operations|], db'.points[|db.points|]);
    } else if e.Request? {
      BookingKeepsApart(db, db'.operations[|db.operations|], db'.points[|db.points|]);
    } else {
      assert forall i: nat, j: nat :: Rivals(db', i, j) ==> Rivals(db, i, j);
    }
  }

  lemma {:induction false} RunKeepsSpacing(events: seq<Event>)
    ensures OneActiveEach(Run(events).operations) && RivalsApart(Run(events))
  {
    if events != [] {
      RunKeepsSpacing(events[..|events| - 1]);
      SpacingStep(Run(events[..|events| - 1]), events[|events| - 1]);
    }
  }

  /** Of one workshop, two live backups in order, the later one made by the scheduler. */
  predicate LivePair(db: Database, i: nat, j: nat)
    requires |db.operations| == |db.points|
  {
    && i < j < |db.points| && db.points[i].workshop == db.points[j].workshop
    && db.points[i].Live() && db.points[i].kind.Backup? && db.points[j].Live() && !db.operations[j].key.OfCommand?
  }

  ghost predicate Spaced(db: Database) {
    && |db.operations| == |db.points|
    && forall i: nat, j: nat :: LivePair(db, i, j) ==> db.points[i].createdAt + DAY <= db.points[j].createdAt
  }

  /** However schedulers and requests race, and whichever failed backups their operations bring back, a workshop has
      at most one active lifecycle operation, and every scheduled backup lies at least a day after each earlier
      backup that is live. */
  lemma BackupsAreSpaced(events: seq<Event>)
    ensures OneActiveEach(Run(events).operations) && Spaced(Run(events))
  {
    RunKeepsSpacing(events);
    var db := Run(events);
    assert forall i: nat, j: nat :: LivePair(db, i, j) ==> Rivals(db, i, j);
  }

  // ---------------------------------------------------------------- requests as the API makes them

  /** The API's handlers complete their command with a body and a reference. */
  predicate BothBodyAndReference(events: seq<Event>) {
    forall e :: e in events && e.Request? ==> e.response.body.Some? && e.response.resultRef.Some?
  }

  ghost predicate ScheduledOnly(db: Database) {
    && |db.operations| == |db.points|
    && forall i :: 0 <= i < |db.points| ==> db.points[i].kind.Backup? && !db.operations[i].key.OfCommand?
  }

  lemma {:induction false} RequestsAreRolledBack(events: seq<Event>)
    requires BothBodyAndReference(events)
    ensures ScheduledOnly(Run(events))
  {
    if events != [] {
      RequestsAreRolledBack(events[..|events| - 1]);
      assert events[|events| - 1] in events;
    }
  }

  /** So in the source's own runs every live backup is a scheduled one, and any two of a workshop lie at least a day
      apart. */
  lemma SourceBackupsAreSpaced(events: seq<Event>, i: nat, j: nat)
    requires BothBodyAndReference(events) && i < j < |Run(events).points|
    requires Run(events).points[i].workshop == Run(events).points[j].workshop
    requires Run(events).points[i].Live() && Run(events).points[j].Live()
    ensures Run(events).points[i].createdAt + DAY <= Run(events).points[j].createdAt
  {
    BackupsAreSpaced(events);
    RequestsAreRolledBack(events);
    assert LivePair(Run(events), i, j);
  }

  // ---------------------------------------------------------------- keys

  lemma CountGrows(points: seq<Point>, p: Point, workshop: Uuid, date: int)
    ensures CountOn(points + [p], workshop, date) ==
              CountOn(points, workshop, date) + (if StartedOn(p, workshop, date) then 1 else 0)
  {
    assert (points + [p])[..|points|] == points;
  }

  lemma {:induction false} CountIgnoresState(points: seq<Point>, i: nat, state: PointState, workshop: Uuid, date: int)
    requires i < |points|
    ensures CountOn(points[i := points[i].(state := state)], workshop, date) == CountOn(points, workshop, date)
    decreases |points|
  {
    var moved := points[i := points[i].(state := state)];
    if i < |points| - 1 {
      CountIgnoresState(points[..|points| - 1], i, state, workshop, date);
      assert moved[..|points| - 1] == points[..|points| - 1][i := points[i].(state := state)];
    } else {
      assert moved[..|points| - 1] == points[..|points| - 1];
    }
  }

  /** A day's backups no longer grow after position `i` exactly when none that starts on that day follows. */
  lemma {:induction false} CountFrom(points: seq<Point>, i: nat, workshop: Uuid, date: int)
    requires i <= |points|
    ensures CountOn(points[..i], workshop, date) <= CountOn(points, workshop, date)
    ensures CountOn(points[..i], workshop, date) == CountOn(points, workshop, date) <==> NoneFrom(points, i, workshop, date)
    decreases |points|
  {
    if i == |points| {
      assert points[..i] == points;
    } else {
      var front := points[..|points| - 1];
      CountFrom(front, i, workshop, date);
      assert front[..i] == points[..i];
      assert NoneFrom(points, i, workshop, date) <==>
             NoneFrom(front, i, workshop, date) && !StartedOn(points[|points| - 1], workshop, date);
    }
  }

  ghost predicate NoneFrom(points: seq<Point>, i: nat, workshop: Uuid, date: int) {
    forall j :: i <= j < |points| ==> !StartedOn(points[j], workshop, date)
  }

  function KeyNumbered(workshop: Uuid, date: int, number: nat): BackupKey {
    if number == 1 then Nightly(workshop, date) else NightlyRetry(workshop, date, number)
  }

  /** A scheduled backup `i` was keyed by the day its transaction read from the clock and by that day's backups so
      far. */
  predicate KeyedAt(db: Database, i: nat)
    requires i < |db.operations| <= |db.points|
  {
    var op := db.operations[i];
    && op.workshop == db.points[i].workshop
    && (!op.key.OfCommand? ==> db.points[i].kind.Backup? && op.key == KeyNumbered(op.workshop, op.key.date, CountOn(db.points[..i], op.workshop, op.key.date) + 1))
  }

  ghost predicate Keyed(db: Database) {
    |db.operations| == |db.points| && forall i :: 0 <= i < |db.operations| ==> KeyedAt(db, i)
  }

  lemma MoveKeepsKeys(db: Database, k: nat, state: PointState, i: nat)
    requires Keyed(db) && k < |db.points| && i < |db.operations|
    ensures KeyedAt(db.(points := db.points[k := db.points[k].(state := state)]), i)
  {
    var moved := db.points[k := db.points[k].(state := state)];
    assert KeyedAt(db, i);
    if db.operations[i].key.OfCommand? {
    } else if k < i {
      CountIgnoresState(db.points[..i], k, state, db.operations[i].workshop, db.operations[i].key.date);
      assert moved[..i] == db.points[..i][k := db.points[k].(state := state)];
    } else {
      assert moved[..i] == db.points[..i];
    }
  }

  lemma StepKeepsKeys(db: Database, e: Event)
    requires Keyed(db)
    ensures Keyed(Step(db, e))
  {
    var db' := Step(db, e);
    forall i | 0 <= i < |db'.operations|
      ensures KeyedAt(db', i)
    {
      if e.Admit? || e.Request? {
        assert i < |db.operations| ==> KeyedAt(db, i);
        assert db'.points[..i] == db.points[..i];
        assert i == |db.operations| ==> db.points[..i] == db.points;
      } else if e.OperationEnds? {
        assert KeyedAt(db, i);
      } else if db' != db {
        MoveKeepsKeys(db, e.point, e.state, i);
      }
    }
  }

  lemma {:induction false} RunKeepsKeys(events: seq<Event>)
    ensures Keyed(Run(events))
  {
    if events != [] {
      RunKeepsKeys(events[..|events| - 1]);
      StepKeepsKeys(Run(events[..|events| - 1]), events[|events| - 1]);
    }
  }

  /** Backup `i` took a key of `date`, but neither it nor any later backup of the workshop began on that day. */
  ghost predicate StraddledBy(db: Database, workshop: Uuid, owner: Uuid, date: int, i: nat) {
    && i < |db.operations| && db.operations[i].workshop == workshop && db.operations[i].owner == owner
    && !db.operations[i].key.OfCommand? && db.operations[i].key.date == date && NoneFrom(db.points, i, workshop, date)
  }

  ghost predicate Straddled(db: Database, workshop: Uuid, owner: Uuid, date: int) {
    exists i :: StraddledBy(db, workshop, owner, date, i)
  }

  lemma TakenBy(db: Database, workshop: Uuid, owner: Uuid, clock: int, i: nat)
    requires Keyed(db) && i < |db.operations| && db.operations[i].owner == owner
    ensures db.operations[i].key == KeyFor(db.points, workshop, clock) <==> StraddledBy(db, workshop, owner, Date(clock), i)
  {
    assert KeyedAt(db, i);
    if !db.operations[i].key.OfCommand? {
      CountFrom(db.points, i, workshop, Date(clock));
    }
  }

  lemma TakenIffStraddled(db: Database, workshop: Uuid, owner: Uuid, clock: int)
    requires Keyed(db)
    ensures KeyTaken(db, owner, KeyFor(db.points, workshop, clock)) <==> Straddled(db, workshop, owner, Date(clock))
  {
    forall i | 0 <= i < |db.operations| && db.operations[i].owner == owner
      ensures db.operations[i].key == KeyFor(db.points, workshop, clock) <==>
              StraddledBy(db, workshop, owner, Date(clock), i)
    {
      TakenBy(db, workshop, owner, clock, i);
    }
  }

  /** A due backup is admitted exactly unless an earlier one straddled into its day and nothing has begun on that
      day since. */
  lemma AdmittedUnlessStraddled(events: seq<Event>, e: Event)
    requires e.Admit?
    ensures Admitted(Run(events), e) <==>
            Due(Run(events), e) && !Straddled(Run(events), e.workshop, e.owner, Date(e.clock))
  {
    RunKeepsKeys(events);
    TakenIffStraddled(Run(events), e.workshop, e.owner, e.clock);
  }

  // ---------------------------------------------------------------- one clock

  /** The transaction and the process agree on the day. */
  predicate OneClock(events: seq<Event>) {
    forall e :: e in events && e.Admit? ==> Date(e.startedAt) == Date(e.clock)
  }

  ghost predicate SameDays(db: Database) {
    |db.operations| == |db.points| &&
    forall i :: 0 <= i < |db.operations| && !db.operations[i].key.OfCommand? ==>
                  Date(db.points[i].createdAt) == db.operations[i].key.date
  }

  lemma {:induction false} OneClockGivesSameDays(events: seq<Event>)
    requires OneClock(events)
    ensures SameDays(Run(events))
  {
    if events != [] {
      OneClockGivesSameDays(events[..|events| - 1]);
      assert events[|events| - 1] in events;
    }
  }

  ghost predicate NightlyKeysDistinct(operations: seq<LifecycleOp>) {
    forall i, j :: 0 <= i < j < |operations| && !operations[i].key.OfCommand? ==> operations[i].key != operations[j].key
  }

  lemma KeysDiffer(db: Database, i: nat, j: nat)
    requires Keyed(db) && SameDays(db) && i < j < |db.operations| && !db.operations[i].key.OfCommand?
    ensures db.operations[i].key != db.operations[j].key
  {
    assert KeyedAt(db, i) && KeyedAt(db, j) && StartedOn(db.points[i], db.operations[i].workshop, db.operations[i].key.date);
    var op, before := db.operations[i], db.points[..j];
    CountFrom(before, i, op.workshop, op.key.date);
    assert before[..i] == db.points[..i];
    assert StartedOn(before[i], op.workshop, op.key.date);
  }

  /** With one clock no two scheduled backups share a key, and a due backup is always admitted. */
  lemma DueMeansAdmitted(events: seq<Event>, e: Event)
    requires OneClock(events) && e.Admit?
    ensures NightlyKeysDistinct(Run(events).operations)
    ensures Admitted(Run(events), e) <==> Due(Run(events), e)
  {
    var db := Run(events);
    RunKeepsKeys(events);
    OneClockGivesSameDays(events);
    forall i, j | 0 <= i < j < |db.operations| && !db.operations[i].key.OfCommand?
      ensures db.operations[i].key != db.operations[j].key
    {
      KeysDiffer(db, i, j);
    }
    AdmittedUnlessStraddled(events, e);
    forall i: nat
      ensures !StraddledBy(db, e.workshop, e.owner, Date(e.clock), i)
    {
      if i < |db.operations| && !db.operations[i].key.OfCommand? {
        assert KeyedAt(db, i);
        assert StartedOn(db.points[i], db.operations[i].workshop, db.operations[i].key.date);
      }
    }
  }

  /** A transaction that began before midnight and read the clock after it, whose backup then failed. */
  function MidnightRun(workshop: Uuid, owner: Uuid): seq<Event> {
    [Admit(workshop, owner, true, DAY - 1, DAY), PointMoves(0, Dead), OperationEnds(0)]
  }

  lemma MidnightLeaves(workshop: Uuid, owner: Uuid)
    ensures Run(MidnightRun(workshop, owner)) ==
              Database([LifecycleOp(workshop, owner, Nightly(workshop, 1), false)], [Point(workshop, DAY - 1, Backup, Dead)])
  {
    var events := MidnightRun(workshop, owner);
    assert events[..2][..1][..0] == [] && events[..2][..1] == [events[0]] && events[..2] == [events[0], events[1]];
    assert Run([]) == Database([], []);
    var first := Run([events[0]]);
    assert first == Database([LifecycleOp(workshop, owner, Nightly(workshop, 1), true)], [Point(workshop, DAY - 1, Backup, Queued)]);
    var second := Run([events[0], events[1]]);
    assert second == Step(first, events[1]);
  }

  /** Without it one can be: the run above books the new day's first key under the old day, and so blocks the
      new day's own backup. */
  lemma MidnightMayLoseBackup(workshop: Uuid, owner: Uuid)
    ensures var e := Admit(workshop, owner, true, DAY + 1, DAY + 1);
            Due(Run(MidnightRun(workshop, owner)), e) && !Admitted(Run(MidnightRun(workshop, owner)), e)
  {
    MidnightLeaves(workshop, owner);
    var point := Point(workshop, DAY - 1, Backup, Dead);
    CountGrows([], point, workshop, 1);
    assert [] + [point] == [point];
    assert Run(MidnightRun(workshop, owner)).operations[0].key == KeyFor([point], workshop, DAY + 1);
  }

  // ---------------------------------------------------------------- the scheduler's transaction

  class BackupStore {
    var operations: seq<LifecycleOp>
    var points: seq<Point>

    constructor ()
      ensures operations == [] && points == []
    {
      operations, points := [], [];
    }

    function State(): Database
      reads this
    {
      Database(operations, points)
    }

    method AdmitBackup(workshop: Uuid, owner: Uuid, owned: bool, startedAt: int, clock: int) returns (admitted: bool)
      modifies this
      ensures State() == Step(old(State()), Admit(workshop, owner, owned, startedAt, clock))
      ensures admitted <==> Admitted(old(State()), Admit(workshop, owner, owned, startedAt, clock))
    {
      if !owned || LifecycleActive(State(), workshop) {
        return false;
      }
      if BackupRecent(State(), workshop, startedAt) {
        return false;
      }
      var key := KeyFor(points, workshop, clock);
      if KeyTaken(State(), owner, key) {
        return false;
      }
      operations := operations + [LifecycleOp(workshop, owner, key, true)];
      points := points + [Point(workshop, startedAt, Backup, Queued)];
      return true;
    }

    /** The lifecycle part of an API request, with the completion of its command. */
    method RequestLifecycle(e: Event) returns (accepted: bool)
      requires e.Request?
      modifies this
      ensures State() == Step(old(State()), e)
      ensures accepted <==> Requested(old(State()), e)
      ensures accepted ==> !LifecycleActive(old(State()), e.workshop) && LifecycleActive(State(), e.workshop)
      ensures e.response.body.Some? && e.response.resultRef.Some? ==> !accepted && State() == old(State())
    {
      if !e.allowed || LifecycleActive(State(), e.workshop) {
        return false;
      }
      if KeyTaken(State(), e.owner, OfCommand(e.command)) || !e.response.Storable() {
        return false;
      }
      operations := operations + [LifecycleOp(e.workshop, e.owner, OfCommand(e.command), true)];
      points := points + [Point(e.workshop, e.startedAt, e.kind, Queued)];
      assert operations[|operations| - 1].active;
      return true;
    }
  }
}
