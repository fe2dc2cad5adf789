/** The capability row of one workshop module: requested, installed, enabled, restricted. It is
    written by the API, by the handlers of its operations and by the restriction sweep. */
module Capability {
  import opened Domain

  datatype ModuleState = Requested | Installing | Enabled | Failed | Restricting | Restricted

  /** What an activation is pinned to. */
  datatype Pins = Pins(registryVersion: int, releaseId: Option<string>, entitlementVersion: Option<int>, implementation: Json)

  /** What an adapter hands back after restricting a module. */
  datatype Evidence = Evidence(writeBlocked: Option<bool>, historicalReadRetained: Option<bool>, detail: Json)
  {
    predicate Sufficient() { writeBlocked == Some(true) && historicalReadRetained == Some(true) }
  }

  /** Operations are identified by the idempotency key they were enqueued under: the command that asked
      for them, or the row version and reason the sweep saw. */
  datatype Operation = ByCommand(command: Uuid) | BySweep(version: nat, reason: string)

  datatype Payload = Enable(pins: Pins) | Restrict(pins: Pins, reason: string)

  datatype ModuleRow = ModuleRow(
    state: ModuleState,
    operation: Operation,
    version: nat,
    pins: Pins,
    reason: Option<string>,
    evidence: Option<Evidence>)

  /** `operations` records what was requested. Retention overwrites the stored payload of an operation only once it has
      ended, and then no handler reads it again. */
  datatype Module = Module(row: Option<ModuleRow>, operations: map<Operation, Payload>)

  /** The table's update trigger: one version at a time, a fixed graph of states, pins that move only
      with their operation. */
  predicate TriggerAccepts(before: ModuleRow, after: ModuleRow) {
    && after.version == before.version + 1
    && (match before.state
        case Requested => after.state in {Requested, Installing, Failed}
        case Installing => after.state in {Installing, Enabled, Failed}
        case Enabled => after.state in {Enabled, Restricting}
        case Restricting => after.state in {Restricting, Restricted, Failed, Requested}
        case Failed | Restricted => after.state == Requested)
    && (if after.operation == before.operation then after.pins == before.pins
        else after.state == Requested || (before.state == Enabled && after.state == Restricting && after.pins == before.pins))
  }

  /** The row as the trigger stores it. */
  function Stored(after: ModuleRow): ModuleRow {
    if after.state.Requested? then after.(reason := None, evidence := None) else after
  }

  datatype Event =
    | RequestEnable(command: Uuid, expected: int, pins: Pins)
    | StartInstall(operation: Operation)
    | CompleteEnable(operation: Operation, leaseHeld: bool)
    | SweepRestriction(reason: string)
    | Deactivate(command: Uuid, expected: int)
    | CompleteRestrict(operation: Operation, leaseHeld: bool, evidence: Evidence)
    | MarkFailed(operation: Operation, leaseHeld: bool)

  predicate OwnedBy(m: Module, operation: Operation) {
    m.row.Some? && m.row.value.operation == operation && operation in m.operations
  }

  /** The row an event tries to write, if its own guards let it try. */
  function Attempt(m: Module, e: Event): Option<ModuleRow> {
    match e
    case RequestEnable(command, expected, pins) =>
      if ByCommand(command) in m.operations || (if m.row.Some? then m.row.value.version else 1) != expected then None
      else if m.row.None? then Some(ModuleRow(Requested, ByCommand(command), 2, pins, None, None))
      else if m.row.value.state.Enabled? then None
      else Some(m.row.value.(state := Requested, operation := ByCommand(command), version := m.row.value.version + 1, pins := pins))
    case StartInstall(operation) =>
      if OwnedBy(m, operation) && m.operations[operation].Enable? && m.row.value.state.Requested? then
        Some(m.row.value.(state := Installing, version := m.row.value.version + 1))
      else None
    case CompleteEnable(operation, leaseHeld) =>
      if OwnedBy(m, operation) && m.operations[operation].Enable? && leaseHeld && m.row.value.state.Installing? then
        Some(m.row.value.(state := Enabled, version := m.row.value.version + 1))
      else None
    case SweepRestriction(reason) =>
      if m.row.Some? && m.row.value.state.Enabled? then
        Some(m.row.value.(state := Restricting, operation := BySweep(m.row.value.version, reason), reason := Some(reason),
                          evidence := None, version := m.row.value.version + 1))
      else None
    case Deactivate(command, expected) =>
      if ByCommand(command) !in m.operations && m.row.Some? && m.row.value.version == expected && m.row.value.state.Enabled? then
        Some(m.row.value.(state := Restricting, operation := ByCommand(command), reason := Some("merchant_deactivated"),
                          evidence := None, version := m.row.value.version + 1))
      else None
    case CompleteRestrict(operation, leaseHeld, evidence) =>
      if OwnedBy(m, operation) && m.operations[operation].Restrict? && leaseHeld && m.row.value.state.Restricting?
         && evidence.Sufficient() then
        Some(m.row.value.(state := Restricted, evidence := Some(evidence), version := m.row.value.version + 1))
      else None
    case MarkFailed(operation, leaseHeld) =>
      if OwnedBy(m, operation) && m.operations[operation].Enable? && leaseHeld
         && (m.row.value.state.Requested? || m.row.value.state.Installing?) then
        Some(m.row.value.(state := Failed, version := m.row.value.version + 1))
      else None
  }

  /** Whether the attempt gets past the trigger; if not, its transaction is rolled back. */
  predicate TakesEffect(m: Module, e: Event) {
    Attempt(m, e).Some? && (m.row.Some? ==> TriggerAccepts(m.row.value, Attempt(m, e).value))
  }

  /** The operation an event enqueues in the same transaction. */
  function Enqueued(m: Module, e: Event): map<Operation, Payload> {
    match e
    case RequestEnable(command, _, pins) => map[ByCommand(command) := Enable(pins)]
    case SweepRestriction(reason) =>
      if m.row.Some? then map[BySweep(m.row.value.version, reason) := Restrict(m.row.value.pins, reason)] else map[]
    case Deactivate(command, _) =>
      if m.row.Some? then map[ByCommand(command) := Restrict(m.row.value.pins, "merchant_deactivated")] else map[]
    case _ => map[]
  }

  function Step(m: Module, e: Event): Module {
    if TakesEffect(m, e) then Module(Some(Stored(Attempt(m, e).value)), m.operations + Enqueued(m, e)) else m
  }

  function Run(m: Module, events: seq<Event>): Module {
    if events == [] then m else Step(Run(m, events[..|events| - 1]), events[|events| - 1])
  }

  const ABSENT := Module(None, map[])

  // ---------------------------------------------------------------- the invariant

  predicate RowOk(row: ModuleRow, payload: Payload) {
    && row.version >= 2
    && row.pins == payload.pins
    && (match row.state
        case Requested | Installing | Enabled | Failed => payload.Enable? && row.reason.None? && row.evidence.None?
        case Restricting => payload.Restrict? && row.reason == Some(payload.reason) && row.evidence.None?
        case Restricted => payload.Restrict? && row.reason == Some(payload.reason) &&
                           row.evidence.Some? && row.evidence.value.Sufficient())
  }

  ghost predicate Inv(m: Module) {
    && (m.row.None? ==> m.operations == map[])
    && (m.row.Some? ==> m.row.value.operation in m.operations && RowOk(m.row.value, m.operations[m.row.value.operation]))
    && (forall o :: o in m.operations && o.BySweep? ==> m.row.Some? && o.version < m.row.value.version)
  }

  lemma StepKeepsInv(m: Module, e: Event)
    requires Inv(m)
    ensures Inv(Step(m, e))
    ensures TakesEffect(m, e) ==> forall o :: o in Enqueued(m, e) ==> o !in m.operations
  {
  }

  lemma {:induction false} RunKeepsInv(m: Module, events: seq<Event>)
    requires Inv(m)
    ensures Inv(Run(m, events))
  {
    if events != [] {
      RunKeepsInv(m, events[..|events| - 1]);
      StepKeepsInv(Run(m, events[..|events| - 1]), events[|events| - 1]);
    }
  }

  /** What an operation was asked for never changes, and is what its handlers act on. */
  lemma {:induction false} PayloadsAreKept(m: Module, events: seq<Event>, operation: Operation)
    requires Inv(m) && operation in m.operations
    ensures operation in Run(m, events).operations && Run(m, events).operations[operation] == m.operations[operation]
  {
    if events != [] {
      PayloadsAreKept(m, events[..|events| - 1], operation);
      RunKeepsInv(m, events[..|events| - 1]);
      StepKeepsInv(Run(m, events[..|events| - 1]), events[|events| - 1]);
    }
  }

  /** In every reachable state the row is pinned to exactly what its current operation was asked for;
      a restricted row carries the reason of its own operation and evidence that writes are blocked
      and history stays readable. */
  lemma RowMatchesItsOperation(events: seq<Event>)
    requires Run(ABSENT, events).row.Some?
    ensures var m := Run(ABSENT, events);
            var row := m.row.value;
            && row.operation in m.operations && row.pins == m.operations[row.operation].pins
            && (row.state.Restricted? ==>
                  && m.operations[row.operation].Restrict? && row.reason == Some(m.operations[row.operation].reason)
                  && row.evidence.Some? && row.evidence.value.Sufficient())
  {
    RunKeepsInv(ABSENT, events);
  }

  // ---------------------------------------------------------------- versions

  lemma StepMovesVersion(m: Module, e: Event)
    requires m.row.Some?
    ensures Step(m, e).row.Some?
    ensures Step(m, e).row.value.version == m.row.value.version + (if TakesEffect(m, e) then 1 else 0)
    ensures !TakesEffect(m, e) <==> Step(m, e).row == m.row
  {
  }

  lemma {:induction false} VersionsOnlyGrow(m: Module, events: seq<Event>)
    requires m.row.Some?
    ensures Run(m, events).row.Some? && m.row.value.version <= Run(m, events).row.value.version
    ensures Run(m, events).row.value.version == m.row.value.version ==> Run(m, events).row == m.row
  {
    if events != [] {
      var before := Run(m, events[..|events| - 1]);
      VersionsOnlyGrow(m, events[..|events| - 1]);
      StepMovesVersion(before, events[|events| - 1]);
    }
  }

  lemma {:induction false} RunSplits(m: Module, events: seq<Event>, more: seq<Event>)
    ensures Run(m, events + more) == Run(Run(m, events), more)
    decreases |more|
  {
    if more == [] {
      assert events + more == events;
    } else {
      RunSplits(m, events, more[..|more| - 1]);
      assert (events + more)[..|events + more| - 1] == events + more[..|more| - 1];
    }
  }

  /** A version names one row for all time, so a matching `If-Match` proves that nothing changed. */
  lemma VersionIdentifiesRow(events: seq<Event>, more: seq<Event>)
    requires var s, t := Run(ABSENT, events), Run(ABSENT, events + more);
             s.row.Some? && t.row.Some? && s.row.value.version == t.row.value.version
    ensures Run(ABSENT, events).row == Run(ABSENT, events + more).row
  {
    RunSplits(ABSENT, events, more);
    VersionsOnlyGrow(Run(ABSENT, events), more);
  }

  // ---------------------------------------------------------------- superseded operations

  predicate ActsFor(e: Event, operation: Operation) {
    (e.StartInstall? || e.CompleteEnable? || e.CompleteRestrict? || e.MarkFailed?) && e.operation == operation
  }

  predicate Superseded(m: Module, operation: Operation) {
    operation in m.operations && m.row.Some? && m.row.value.operation != operation
  }

  lemma StepKeepsSuperseded(m: Module, e: Event, operation: Operation)
    requires Inv(m) && Superseded(m, operation)
    ensures Superseded(Step(m, e), operation)
    ensures ActsFor(e, operation) ==> Step(m, e) == m
  {
    StepKeepsInv(m, e);
  }

  /** Once a newer operation took the row, the older one never gets it back and nothing it still does,
      with whatever lease, changes the row. */
  lemma {:induction false} SupersededForGood(m: Module, events: seq<Event>, operation: Operation)
    requires Inv(m) && Superseded(m, operation)
    ensures Superseded(Run(m, events), operation)
    ensures forall e :: ActsFor(e, operation) ==> Step(Run(m, events), e) == Run(m, events)
  {
    if events != [] {
      var rest := events[..|events| - 1];
      SupersededForGood(m, rest, operation);
      RunKeepsInv(m, rest);
      StepKeepsSuperseded(Run(m, rest), events[|events| - 1], operation);
    }
    RunKeepsInv(m, events);
    forall e | ActsFor(e, operation)
      ensures Step(Run(m, events), e) == Run(m, events)
    {
      StepKeepsSuperseded(Run(m, events), e, operation);
    }
  }

  // ---------------------------------------------------------------- what the guards come to

  /** The API's guard and the trigger together: enabling succeeds exactly on the current version of a
      row that is neither enabled nor being installed. */
  lemma EnableSucceedsExactly(m: Module, command: Uuid, expected: int, pins: Pins)
    requires Inv(m) && ByCommand(command) !in m.operations
    ensures TakesEffect(m, RequestEnable(command, expected, pins)) <==>
              if m.row.None? then expected == 1
              else expected == m.row.value.version && m.row.value.state !in {Enabled, Installing}
  {
  }

  /** For every other event the trigger never refuses what the statement's own guard lets through. */
  lemma TriggerRefusesOnlyReentry(m: Module, e: Event)
    requires Inv(m) && Attempt(m, e).Some? && !TakesEffect(m, e)
    ensures e.RequestEnable? && m.row.Some? && m.row.value.state.Installing?
  {
  }

  // ---------------------------------------------------------------- the handlers

  datatype Progress = Done | Proceed | Stop(error: IntegrationError)

  /** The row and its operations, as the handlers update them in place. */
  class ModuleTable {
    var row: Option<ModuleRow>
    var operations: map<Operation, Payload>

    ghost function State(): Module
      reads this
    {
      Module(row, operations)
    }

    constructor ()
      ensures State() == ABSENT
    {
      row, operations := None, map[];
    }

    method Write(after: ModuleRow) returns (accepted: bool)
      modifies this`row
      ensures accepted <==> old(row).None? || TriggerAccepts(old(row).value, after)
      ensures row == if accepted then Some(Stored(after)) else old(row)
    {
      accepted := row.None? || TriggerAccepts(row.value, after);
      if accepted {
        row := Some(Stored(after));
      }
    }

    /** The handler of `module.enable` up to its external work. It decides on `pinned`, the row as it read it, and
        updates later, when others may have written `between`. On an operation that owned its row at the read the
        pins always match, so the handler stops only for entitlement or because the row had failed; and once the row
        is another operation's, the update finds nothing to change. */
    method BeginEnable(operation: Operation, pinned: Option<ModuleRow>, entitled: bool, ghost earlier: Module, ghost between: seq<Event>)
      returns (progress: Progress)
      requires Inv(earlier) && operation in earlier.operations && earlier.operations[operation].Enable?
      requires pinned == earlier.row && State() == Run(earlier, between)
      modifies this`row
      ensures Inv(State())
      ensures State() == if progress.Proceed? && pinned.value.state.Requested? then Step(old(State()), StartInstall(operation))
                         else old(State())
      ensures Superseded(old(State()), operation) ==> State() == old(State())
      ensures progress == Stop(NotFound) <==> pinned.None?
      ensures progress.Done? <==> OwnedBy(earlier, operation) && pinned.value.state.Enabled?
      ensures progress.Proceed? <==> OwnedBy(earlier, operation) && entitled && pinned.value.state in {Requested, Installing}
      ensures progress == Stop(ContractDrift) <==>
                pinned.Some? && (Superseded(earlier, operation) || (entitled && pinned.value.state.Failed?))
    {
      RunKeepsInv(earlier, between);
      PayloadsAreKept(earlier, between, operation);
      if pinned.None? {
        return Stop(NotFound);
      }
      if pinned.value.pins != operations[operation].pins || pinned.value.operation != operation {
        return Stop(ContractDrift);
      }
      if pinned.value.state.Enabled? {
        return Done;
      }
      if !entitled {
        return Stop(Rejected);
      }
      if pinned.value.state.Requested? {
        StepKeepsInv(State(), StartInstall(operation));
        if row.Some? && row.value.operation == operation && row.value.state.Requested? {
          var accepted := Write(row.value.(state := Installing, version := row.value.version + 1));
        }
      } else if !pinned.value.state.Installing? {
        return Stop(ContractDrift);
      }
      progress := Proceed;
    }

    /** The handler's last transaction, under the locked lease. */
    method CompleteEnabling(operation: Operation, leaseHeld: bool) returns (error: Option<IntegrationError>)
      requires Inv(State()) && operation in operations && operations[operation].Enable?
      modifies this`row
      ensures Inv(State())
      ensures State() == Step(old(State()), CompleteEnable(operation, leaseHeld))
      ensures error.None? <==> leaseHeld && OwnedBy(old(State()), operation) && old(row).value.state.Installing?
      ensures !leaseHeld ==> error == Some(UnknownOutcome)
    {
      if !leaseHeld {
        return Some(UnknownOutcome);
      }
      if row.None? || row.value.operation != operation || !row.value.state.Installing? {
        return Some(ContractDrift);
      }
      var accepted := Write(row.value.(state := Enabled, version := row.value.version + 1));
      error := None;
    }

    method CompleteRestriction(operation: Operation, leaseHeld: bool, evidence: Evidence) returns (error: Option<IntegrationError>)
      requires Inv(State()) && operation in operations && operations[operation].Restrict?
      modifies this`row
      ensures Inv(State())
      ensures State() == Step(old(State()), CompleteRestrict(operation, leaseHeld, evidence))
      ensures error.None? <==>
                evidence.Sufficient() && leaseHeld && OwnedBy(old(State()), operation) && old(row).value.state.Restricting?
      ensures error == Some(UnknownOutcome) <==> evidence.Sufficient() && !leaseHeld
    {
      if !evidence.Sufficient() {
        return Some(ContractDrift);
      }
      if !leaseHeld {
        return Some(UnknownOutcome);
      }
      if row.None? || row.value.operation != operation || !row.value.state.Restricting? {
        return Some(ContractDrift);
      }
      var accepted := Write(row.value.(state := Restricted, evidence := Some(evidence), version := row.value.version + 1));
      error := None;
    }

    /** The compensation of a given-up activation: it leaves the row failed, or says why it is not. */
    method MarkActivationFailed(operation: Operation, leaseHeld: bool) returns (error: Option<IntegrationError>)
      requires Inv(State()) && operation in operations && operations[operation].Enable?
      modifies this`row
      ensures Inv(State())
      ensures State() == Step(old(State()), MarkFailed(operation, leaseHeld))
      ensures error.None? <==> leaseHeld && OwnedBy(State(), operation) && row.value.state.Failed?
      ensures error == Some(ContractDrift) <==>
                leaseHeld && (!OwnedBy(old(State()), operation) || old(row).value.state.Enabled?)
    {
      if !leaseHeld {
        return Some(UnknownOutcome);
      }
      if row.None? || row.value.operation != operation {
        return Some(ContractDrift);
      }
      if row.value.state.Requested? || row.value.state.Installing? {
        var accepted := Write(row.value.(state := Failed, version := row.value.version + 1));
      } else if !row.value.state.Failed? {
        return Some(ContractDrift);
      }
      error := None;
    }
  }
}
