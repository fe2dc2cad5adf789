/** First activation of an application release on an empty fleet, by concurrent transactions. */
module Activation {
  import opened Domain

  datatype Status = Candidate | Preflighting | Canary | Prepared | Active | Retained | Failed

  datatype Release = Release(
    status: Status, version: nat, registry: nat, odooDigest: string, extensionDigest: string, manifestDigest: string)

  datatype SlotName = Blue | Green

  datatype SlotState = Inactive | Starting | Verifying | Ready | Live | Kept | Broken

  /** The evidence document of a slot; a missing or ill-typed member reads as `None`. */
  datatype Evidence = Evidence(
    releaseId: Option<string>, odooDigest: Option<string>, extensionDigest: Option<string>,
    pairDigest: Option<string>, manifestDigest: Option<string>,
    provenanceVerified: Option<bool>, inspectionVerified: Option<bool>)

  datatype Slot = Slot(
    releaseId: string, state: SlotState, started: bool, verified: bool, activated: bool, version: nat,
    odooDigest: string, extensionDigest: string, pairDigest: string, evidence: Evidence)

  /** A transaction that passed every check and holds the row locks of its release and its slot. */
  datatype Plan = Plan(releaseId: string, slot: SlotName, version: nat)

  datatype Fleet = Fleet(
    releases: map<string, Release>, slots: map<SlotName, Slot>,
    workshops: nat, databases: nat, adoptions: nat, registry: Option<nat>,
    pending: map<Uuid, Plan>)

  datatype Reply =
    | Activated(releaseId: string, slot: SlotName, version: nat)
    | Replayed(releaseId: string, slot: SlotName, version: nat)
    | Refused(releaseId: string)

  predicate SlotProven(id: string, r: Release, s: Slot) {
    && s.odooDigest == r.odooDigest
    && s.extensionDigest == r.extensionDigest
    && s.evidence == Evidence(Some(id), Some(r.odooDigest), Some(r.extensionDigest), Some(s.pairDigest),
                              Some(r.manifestDigest), Some(true), Some(true))
  }

  predicate IsActive(f: Fleet, id: string) { id in f.releases && f.releases[id].status == Active }

  predicate IsLive(f: Fleet, n: SlotName) { n in f.slots && f.slots[n].state == Live }

  predicate AnyActive(f: Fleet) { exists id :: id in f.releases && IsActive(f, id) }

  // ---------------------------------------------------------------- one transaction

  /** The slot row the transaction's query looks for. */
  predicate Sought(f: Fleet, id: string, n: SlotName)
    requires id in f.releases
  {
    && n in f.slots && f.slots[n].releaseId == id
    && if f.releases[id].status == Active then f.slots[n].state == Live && f.slots[n].activated
       else f.slots[n].state == Ready && f.slots[n].started && f.slots[n].verified
  }

  /** The row the query returned, if it returned one. */
  predicate Fetched(f: Fleet, id: string, row: Option<SlotName>) {
    id in f.releases ==>
      match row
      case Some(n) => Sought(f, id, n)
      case None => !Sought(f, id, Blue) && !Sought(f, id, Green)
  }

  datatype Decision = Refuse | Replay(slot: SlotName) | Proceed(slot: SlotName)

  function Decide(f: Fleet, id: string, row: Option<SlotName>): (d: Decision)
    requires Fetched(f, id, row)
  {
    if id !in f.releases then Refuse
    else
      var r := f.releases[id];
      if r.status == Active then
        if row.Some? && SlotProven(id, r, f.slots[row.value]) then Replay(row.value) else Refuse
      else if r.status != Prepared then Refuse
      else if f.workshops > 0 || f.databases > 0 || f.adoptions > 0 || AnyActive(f) then Refuse
      else if f.registry != Some(r.registry) then Refuse
      else if row.Some? && SlotProven(id, r, f.slots[row.value]) then Proceed(row.value)
      else Refuse
  }

  predicate ReleaseLocked(f: Fleet, id: string) { exists t :: t in f.pending && f.pending[t].releaseId == id }

  predicate SlotLocked(f: Fleet, n: SlotName) { exists t :: t in f.pending && f.pending[t].slot == n }

  /** The two updates, allowed by the rows they guard and by the indexes that admit one active row each. */
  predicate Commits(f: Fleet, p: Plan) {
    && p.releaseId in f.releases && f.releases[p.releaseId].status == Prepared
    && p.slot in f.slots && f.slots[p.slot].releaseId == p.releaseId && f.slots[p.slot].state == Ready
    && !IsLive(f, Blue) && !IsLive(f, Green)
    && !AnyActive(f)
  }

  function Committed(f: Fleet, p: Plan): Fleet
    requires Commits(f, p)
  {
    var r, s := f.releases[p.releaseId], f.slots[p.slot];
    f.(releases := f.releases[p.releaseId := r.(status := Active, version := r.version + 1)],
       slots := f.slots[p.slot := s.(state := Live, activated := true, version := s.version + 1)])
  }

  // ---------------------------------------------------------------- runs

  datatype Event =
    | Request(tx: Uuid, releaseId: string, row: Option<SlotName>)
    | Finish(tx: Uuid)
    | Abandon(tx: Uuid)
    | Others(releases: map<string, Release>, slots: map<SlotName, Slot>,
             workshops: nat, databases: nat, adoptions: nat, registry: Option<nat>)

  /** Other writers respect row locks and neither make nor unmake active rows. */
  ghost predicate Considerate(f: Fleet, e: Event)
    requires e.Others?
  {
    && (forall id :: ReleaseLocked(f, id) || IsActive(f, id) ==> id in f.releases && id in e.releases && e.releases[id] == f.releases[id])
    && (forall id :: id in e.releases && e.releases[id].status == Active ==> IsActive(f, id))
    && (forall n :: SlotLocked(f, n) || IsLive(f, n) ==> n in f.slots && n in e.slots && e.slots[n] == f.slots[n])
    && (forall n :: n in e.slots && e.slots[n].state == Live ==> IsLive(f, n))
  }

  ghost predicate Enabled(f: Fleet, e: Event) {
    match e
    case Request(tx, id, row) => tx !in f.pending && !ReleaseLocked(f, id) && Fetched(f, id, row)
    case Finish(tx) => tx in f.pending
    case Abandon(tx) => tx in f.pending
    case Others(_, _, _, _, _, _) => Considerate(f, e)
  }

  ghost function Step(f: Fleet, e: Event): Fleet {
    if !Enabled(f, e) then f
    else match e
      case Request(tx, id, row) =>
        var d := Decide(f, id, row);
        if d.Proceed? then f.(pending := f.pending[tx := Plan(id, d.slot, f.releases[id].version)]) else f
      case Finish(tx) =>
        var g := if Commits(f, f.pending[tx]) then Committed(f, f.pending[tx]) else f;
        g.(pending := f.pending - {tx})
      case Abandon(tx) => f.(pending := f.pending - {tx})
      case Others(releases, slots, workshops, databases, adoptions, registry) =>
        Fleet(releases, slots, workshops, databases, adoptions, registry, f.pending)
  }

  /** What the caller is told; a transaction still under way says nothing yet. */
  ghost function Replies(f: Fleet, e: Event): seq<Reply> {
    if !Enabled(f, e) then []
    else match e
      case Request(tx, id, row) =>
        (match Decide(f, id, row)
         case Refuse => [Refused(id)]
         case Replay(n) => [Replayed(id, n, f.releases[id].version)]
         case Proceed(_) => [])
      case Finish(tx) =>
        var p := f.pending[tx];
        if Commits(f, p) then [Activated(p.releaseId, p.slot, p.version + 1)] else [Refused(p.releaseId)]
      case _ => []
  }

  ghost function After(f: Fleet, es: seq<Event>): Fleet {
    if es == [] then f else Step(After(f, es[..|es| - 1]), es[|es| - 1])
  }

  ghost function Log(f: Fleet, es: seq<Event>): seq<Reply> {
    if es == [] then []
    else Log(f, es[..|es| - 1]) + Replies(After(f, es[..|es| - 1]), es[|es| - 1])
  }

  // ---------------------------------------------------------------- the invariant

  datatype Win = Win(releaseId: string, slot: SlotName, version: nat)

  /** The one activation the log reports. */
  function Winner(log: seq<Reply>): Option<Win> {
    if log == [] then None
    else if Winner(log[..|log| - 1]).Some? then Winner(log[..|log| - 1])
    else
      var last := log[|log| - 1];
      if last.Activated? then Some(Win(last.releaseId, last.slot, last.version)) else None
  }

  /** The winner's rows, and only they, are active, and the slot carries the release's evidence. */
  ghost predicate Standing(f: Fleet, w: Win) {
    && IsActive(f, w.releaseId) && (forall id :: IsActive(f, id) ==> id == w.releaseId)
    && IsLive(f, w.slot) && (forall n :: IsLive(f, n) ==> n == w.slot)
    && f.releases[w.releaseId].version == w.version
    && f.slots[w.slot].releaseId == w.releaseId && f.slots[w.slot].activated
    && SlotProven(w.releaseId, f.releases[w.releaseId], f.slots[w.slot])
  }

  ghost predicate Quiet(f: Fleet) { (forall id :: !IsActive(f, id)) && (forall n :: !IsLive(f, n)) }

  ghost predicate PlanHolds(f: Fleet, p: Plan) {
    && p.releaseId in f.releases && f.releases[p.releaseId].status == Prepared
    && f.releases[p.releaseId].version == p.version
    && p.slot in f.slots && f.slots[p.slot].releaseId == p.releaseId && f.slots[p.slot].state == Ready
    && SlotProven(p.releaseId, f.releases[p.releaseId], f.slots[p.slot])
  }

  /** Plans rest on rows nobody changes under them, and no two plans share a release. */
  ghost predicate PlansHold(f: Fleet) {
    && (forall t :: t in f.pending ==> PlanHolds(f, f.pending[t]))
    && (forall t, u :: t in f.pending && u in f.pending && t != u ==> f.pending[t].releaseId != f.pending[u].releaseId)
  }

  ghost predicate Inv(f: Fleet, w: Option<Win>) {
    PlansHold(f) && match w { case None => Quiet(f) case Some(win) => Standing(f, win) }
  }

  /** Only the winner is ever reported active, always with the same slot and version. */
  predicate Consistent(log: seq<Reply>) {
    forall i :: 0 <= i < |log| && !log[i].Refused? ==>
      Winner(log) == Some(Win(log[i].releaseId, log[i].slot, log[i].version))
  }

  lemma WinnerExtends(log: seq<Reply>, r: Reply)
    ensures Winner(log).Some? ==> Winner(log + [r]) == Winner(log)
    ensures Winner(log).None? ==> Winner(log + [r]) == if r.Activated? then Some(Win(r.releaseId, r.slot, r.version)) else None
  {
    assert (log + [r])[..|log|] == log;
  }

  // ---------------------------------------------------------------- preservation

  function WinAfter(w: Option<Win>, rs: seq<Reply>): Option<Win> {
    if w.None? && rs != [] && rs[0].Activated? then Some(Win(rs[0].releaseId, rs[0].slot, rs[0].version)) else w
  }

  ghost predicate Fits(w: Option<Win>, rs: seq<Reply>) {
    |rs| <= 1 && forall r :: r in rs && !r.Refused? ==> WinAfter(w, rs) == Some(Win(r.releaseId, r.slot, r.version))
  }

  lemma ReplayFits(f: Fleet, w: Option<Win>, e: Event)
    requires Inv(f, w) && e.Request? && Enabled(f, e) && Decide(f, e.releaseId, e.row).Replay?
    ensures Fits(w, Replies(f, e)) && WinAfter(w, Replies(f, e)) == w
  {
    assert IsActive(f, e.releaseId) && IsLive(f, Decide(f, e.releaseId, e.row).slot);
  }

  lemma ProceedKeepsPlans(f: Fleet, e: Event)
    requires PlansHold(f) && e.Request? && Enabled(f, e) && Decide(f, e.releaseId, e.row).Proceed?
    ensures PlansHold(Step(f, e))
  {
    var g := Step(f, e);
    assert forall t :: t in f.pending ==> f.pending[t].releaseId != e.releaseId;
    assert forall t :: t in g.pending && t != e.tx ==> t in f.pending && g.pending[t] == f.pending[t];
  }

  lemma RequestKeeps(f: Fleet, w: Option<Win>, e: Event)
    requires Inv(f, w) && e.Request? && Enabled(f, e)
    ensures Inv(Step(f, e), w) && Fits(w, Replies(f, e)) && WinAfter(w, Replies(f, e)) == w
  {
    var d := Decide(f, e.releaseId, e.row);
    if d.Replay? {
      ReplayFits(f, w, e);
    } else if d.Proceed? {
      ProceedKeepsPlans(f, e);
      SameActive(f, Step(f, e), w);
    }
  }

  /** What is active depends on the release and slot rows alone. */
  lemma SameActive(f: Fleet, g: Fleet, w: Option<Win>)
    requires Inv(f, w) && g.releases == f.releases && g.slots == f.slots && PlansHold(g)
    ensures Inv(g, w)
  {
    assert forall id :: IsActive(g, id) <==> IsActive(f, id);
    assert forall n :: IsLive(g, n) <==> IsLive(f, n);
  }

  lemma CommitWins(f: Fleet, p: Plan)
    requires Quiet(f) && Commits(f, p) && PlanHolds(f, p)
    ensures Standing(Committed(f, p), Win(p.releaseId, p.slot, p.version + 1))
  {
    var g := Committed(f, p);
    forall id
      ensures IsActive(g, id) <==> id == p.releaseId
    {
      assert id != p.releaseId ==> (IsActive(g, id) <==> IsActive(f, id));
    }
    forall n
      ensures IsLive(g, n) <==> n == p.slot
    {
      assert n != p.slot ==> (IsLive(g, n) <==> IsLive(f, n));
    }
  }

  lemma CommitKeepsOtherPlans(f: Fleet, tx: Uuid)
    requires PlansHold(f) && tx in f.pending && Commits(f, f.pending[tx])
    ensures PlansHold(Committed(f, f.pending[tx]).(pending := f.pending - {tx}))
  {
    var p := f.pending[tx];
    var g := Committed(f, p).(pending := f.pending - {tx});
    forall t | t in g.pending
      ensures PlanHolds(g, g.pending[t])
    {
      var q := f.pending[t];
      assert PlanHolds(f, q) && q.releaseId != p.releaseId;
      assert q.slot != p.slot;
    }
  }

  lemma FinishKeeps(f: Fleet, w: Option<Win>, e: Event)
    requires Inv(f, w) && e.Finish? && Enabled(f, e)
    ensures Inv(Step(f, e), WinAfter(w, Replies(f, e))) && Fits(w, Replies(f, e))
  {
    var p := f.pending[e.tx];
    assert PlanHolds(f, p);
    if Commits(f, p) {
      if w.Some? {
        assert false;
      }
      CommitWins(f, p);
      CommitKeepsOtherPlans(f, e.tx);
      var g := Committed(f, p);
      var h := g.(pending := f.pending - {e.tx});
      assert forall id :: IsActive(h, id) <==> IsActive(g, id);
      assert forall n :: IsLive(h, n) <==> IsLive(g, n);
    } else {
      SameRows(f, Step(f, e), w);
    }
  }

  /** Dropping a plan, or letting others write, keeps what stands. */
  lemma SameRows(f: Fleet, g: Fleet, w: Option<Win>)
    requires Inv(f, w) && g.releases == f.releases && g.slots == f.slots
    requires forall t :: t in g.pending ==> t in f.pending && g.pending[t] == f.pending[t]
    ensures Inv(g, w)
  {
    assert forall id :: IsActive(g, id) <==> IsActive(f, id);
    assert forall n :: IsLive(g, n) <==> IsLive(f, n);
  }

  lemma OthersKeepPlans(f: Fleet, e: Event)
    requires PlansHold(f) && e.Others? && Considerate(f, e)
    ensures PlansHold(Step(f, e))
  {
    var g := Step(f, e);
    forall t | t in g.pending
      ensures PlanHolds(g, g.pending[t])
    {
      var p := f.pending[t];
      assert PlanHolds(f, p) && ReleaseLocked(f, p.releaseId) && SlotLocked(f, p.slot);
    }
  }

  lemma OthersKeep(f: Fleet, w: Option<Win>, e: Event)
    requires Inv(f, w) && e.Others? && Enabled(f, e)
    ensures Inv(Step(f, e), w)
  {
    OthersKeepPlans(f, e);
    var g := Step(f, e);
    assert forall id :: IsActive(g, id) <==> IsActive(f, id);
    assert forall n :: IsLive(g, n) <==> IsLive(f, n);
  }

  lemma StepKeepsInv(f: Fleet, w: Option<Win>, e: Event)
    requires Inv(f, w)
    ensures Inv(Step(f, e), WinAfter(w, Replies(f, e))) && Fits(w, Replies(f, e))
  {
    if Enabled(f, e) {
      if e.Request? {
        RequestKeeps(f, w, e);
      } else if e.Finish? {
        FinishKeeps(f, w, e);
      } else if e.Abandon? {
        SameRows(f, Step(f, e), w);
      } else {
        OthersKeep(f, w, e);
      }
    }
  }

  lemma LogExtends(log: seq<Reply>, rs: seq<Reply>)
    requires Consistent(log) && Fits(Winner(log), rs)
    ensures Consistent(log + rs) && Winner(log + rs) == WinAfter(Winner(log), rs)
  {
    if rs == [] {
      assert log + rs == log;
    } else {
      var all := log + rs;
      assert rs == [rs[0]] && rs[0] in rs;
      WinnerExtends(log, rs[0]);
      forall i | 0 <= i < |all| && !all[i].Refused?
        ensures Winner(all) == Some(Win(all[i].releaseId, all[i].slot, all[i].version))
      {
        assert i < |log| ==> all[i] == log[i];
        assert i >= |log| ==> all[i] == rs[0];
      }
    }
  }

  /** From a fleet with nothing active, whatever the interleaving: the reported activation and nothing else is
      active, with its proven slot, and every answer that is not a refusal reports exactly it. */
  lemma {:induction false} AtMostOneActivation(f: Fleet, es: seq<Event>)
    requires Quiet(f) && f.pending == map[]
    ensures Inv(After(f, es), Winner(Log(f, es))) && Consistent(Log(f, es))
  {
    if es != [] {
      var before, e := es[..|es| - 1], es[|es| - 1];
      AtMostOneActivation(f, before);
      var g, log := After(f, before), Log(f, before);
      StepKeepsInv(g, Winner(log), e);
      LogExtends(log, Replies(g, e));
    }
  }

  /** Once a release is activated, every answered request for it replays that slot and version, and every
      answered request for another release is refused. */
  lemma AfterwardsOnlyReplays(f: Fleet, es: seq<Event>, e: Event)
    requires Quiet(f) && f.pending == map[]
    requires Winner(Log(f, es)).Some? && e.Request? && Enabled(After(f, es), e)
    ensures var w := Winner(Log(f, es)).value;
            Replies(After(f, es), e) ==
              if e.releaseId == w.releaseId then [Replayed(w.releaseId, w.slot, w.version)] else [Refused(e.releaseId)]
  {
    AtMostOneActivation(f, es);
    var g, w := After(f, es), Winner(Log(f, es)).value;
    assert IsActive(g, w.releaseId) && IsLive(g, w.slot);
    if e.releaseId == w.releaseId {
      assert Sought(g, e.releaseId, w.slot);
      assert e.row.Some? && IsLive(g, e.row.value);
    } else {
      assert !IsActive(g, e.releaseId);
    }
  }

  /** Once something is active nothing is activated. */
  lemma NoSecondActivation(f: Fleet, win: Win, e: Event)
    requires Standing(f, win)
    ensures forall r :: r in Replies(f, e) ==> !r.Activated?
  {
    assert IsActive(f, win.releaseId);
  }

  lemma {:induction false} ActivatedMeansWinner(log: seq<Reply>, i: nat)
    requires i < |log| && log[i].Activated?
    ensures Winner(log).Some?
  {
    if i < |log| - 1 {
      ActivatedMeansWinner(log[..|log| - 1], i);
    }
  }

  /** The log holds at most one activation. */
  lemma {:induction false} OneActivatedReply(f: Fleet, es: seq<Event>, i: nat, j: nat)
    requires Quiet(f) && f.pending == map[]
    requires i < j < |Log(f, es)|
    ensures !(Log(f, es)[i].Activated? && Log(f, es)[j].Activated?)
  {
    var before, e := es[..|es| - 1], es[|es| - 1];
    var g, log := After(f, before), Log(f, before);
    if j < |log| {
      OneActivatedReply(f, before, i, j);
    } else if i < |log| && log[i].Activated? {
      ActivatedMeansWinner(log, i);
      AtMostOneActivation(f, before);
      NoSecondActivation(g, Winner(log).value, e);
      assert Log(f, es)[j] in Replies(g, e);
    } else {
      OneReply(g, e);
    }
  }

  lemma OneReply(f: Fleet, e: Event)
    ensures |Replies(f, e)| <= 1
  {
  }

  // ---------------------------------------------------------------- one call, undisturbed

  class ReleaseStore {
    var fleet: Fleet

    constructor (f: Fleet)
      ensures fleet == f
    {
      fleet := f;
    }

    /** The whole transaction with nobody else at work: its effect and answer are those of a request followed,
        if it may proceed, by its commit. */
    method ActivateInitialRelease(tx: Uuid, id: string, row: Option<SlotName>) returns (reply: Reply)
      requires Enabled(fleet, Request(tx, id, row)) && PlansHold(fleet)
      modifies this
      ensures var asked := old(Step(fleet, Request(tx, id, row)));
              if tx in asked.pending then fleet == Step(asked, Finish(tx)) && [reply] == Replies(asked, Finish(tx))
              else fleet == asked && [reply] == old(Replies(fleet, Request(tx, id, row)))
      ensures reply.Refused? ==> fleet == old(fleet)
      ensures !reply.Refused? ==> id in fleet.releases && reply.slot in fleet.slots
                                  && reply.version == fleet.releases[id].version
                                  && SlotProven(id, fleet.releases[id], fleet.slots[reply.slot])
    {
      if id !in fleet.releases {
        return Refused(id);
      }
      var r := fleet.releases[id];
      if r.status == Active {
        if row.None? || !SlotProven(id, r, fleet.slots[row.value]) {
          return Refused(id);
        }
        return Replayed(id, row.value, r.version);
      }
      if r.status != Prepared {
        return Refused(id);
      }
      if fleet.workshops > 0 || fleet.databases > 0 || fleet.adoptions > 0 || AnyActive(fleet) {
        return Refused(id);
      }
      if fleet.registry != Some(r.registry) {
        return Refused(id);
      }
      if row.None? || !SlotProven(id, r, fleet.slots[row.value]) {
        return Refused(id);
      }
      var p := Plan(id, row.value, r.version);
      ghost var asked := Step(fleet, Request(tx, id, row));
      assert asked.pending[tx] == p && asked.pending - {tx} == fleet.pending;
      assert Commits(asked, p) <==> Commits(fleet, p);
      if IsLive(fleet, Blue) || IsLive(fleet, Green) {
        return Refused(id);
      }
      fleet := Committed(fleet, p);
      return Activated(id, row.value, r.version + 1);
    }
  }
}
