/** Rehearsals and the driver together: all attempts of a rehearsal use one ledger key. */
module RehearsalEffects {
  import opened Domain
  import Text
  import Q = OperationRuns
  import opened DriverLedger
  import E = EndToEnd
  import R = Rehearsals

  /** `sent` remembers for which claim the scheduler made a request. */
  datatype World = World(system: E.System, rehearsals: R.Database, sent: map<E.RequestId, R.Claim>)

  function RehearsalKey(workshop: Uuid, rehearsal: Uuid): LedgerKey {
    LedgerKey(Some(workshop), "rehearse", Named("rehearsal:" + Text.Print(rehearsal)))
  }

  function KeyOf(claim: R.Claim): LedgerKey { RehearsalKey(claim.workshop, claim.rehearsal) }

  /** `Driver` is anything that happens to queue, workers and driver; `Claim` hands out a claim. */
  datatype Event =
    | Driver(event: E.Event)
    | Claim(claiming: R.Event)
    | Post(r: E.RequestId, claim: R.Claim, digest: string)
    | Report(claim: R.Claim, reply: R.DriverReply, now: int)

  /** The driver answered a request of this claim with success. */
  ghost predicate ToldSuccess(w: World, claim: R.Claim) {
    exists r :: r in w.sent && w.sent[r] == claim && r in w.system.requests &&
                w.system.requests[r].phase.Answered? && w.system.requests[r].phase.reply.Done?
  }

  function Sending(r: E.RequestId, claim: R.Claim, digest: string): E.Event {
    E.Send(r, KeyOf(claim), claim.workshop, digest, None)
  }

  ghost function Next(w: World, e: Event): World {
    match e
    case Driver(event) => w.(system := E.Next(w.system, event))
    case Claim(claiming) => if claiming.Report? then w else w.(rehearsals := R.Step(w.rehearsals, claiming))
    case Post(r, claim, digest) =>
      if claim in w.rehearsals.issued && r !in w.system.requests && r !in w.sent then
        w.(system := E.Next(w.system, Sending(r, claim, digest)), sent := w.sent[r := claim])
      else w
    case Report(claim, reply, now) =>
      if R.IsSuccess(reply) ==> ToldSuccess(w, claim) then w.(rehearsals := R.Step(w.rehearsals, R.Report(claim, reply, now)))
      else w
  }

  ghost function Run(events: seq<Event>): World {
    if events == [] then World(E.Initial(), R.Run([]), map[]) else Next(Run(events[..|events| - 1]), events[|events| - 1])
  }

  // ---------------------------------------------------------------- closed entries

  /** An entry that is no longer in progress never changes. */
  lemma ClosedEntryLasts(s: E.System, e: E.Event, key: LedgerKey)
    requires key in s.ledger && !s.ledger[key].state.InProgress?
    ensures key in E.Next(s, e).ledger && E.Next(s, e).ledger[key] == s.ledger[key]
  {
  }

  // ---------------------------------------------------------------- the invariant

  ghost predicate SentOk(w: World, r: E.RequestId)
    requires r in w.sent
  {
    && r in w.system.requests && w.system.requests[r].key == KeyOf(w.sent[r])
    && w.sent[r] in w.rehearsals.issued
  }

  predicate Backed(w: World, id: Uuid)
    requires id in w.rehearsals.rows
  {
    var key := RehearsalKey(w.rehearsals.rows[id].workshop, id);
    w.rehearsals.rows[id].state.Succeeded? ==> key in w.system.ledger && w.system.ledger[key].state.Succeeded?
  }

  ghost predicate Inv(w: World) {
    && (forall r :: r in w.sent ==> SentOk(w, r))
    && (forall id :: id in w.rehearsals.rows ==> Backed(w, id))
  }

  ghost predicate Sound(w: World) { Q.Inv(w.system.operations) && E.Inv(w.system) && R.Inv(w.rehearsals) }

  lemma DriverKeepsInv(w: World, e: E.Event)
    requires Inv(w)
    ensures Inv(w.(system := E.Next(w.system, e)))
  {
    var t := w.(system := E.Next(w.system, e));
    forall r | r in t.sent
      ensures SentOk(t, r)
    {
      assert SentOk(w, r);
      E.RequestsPersist(w.system, e, r);
    }
    forall id | id in t.rehearsals.rows
      ensures Backed(t, id)
    {
      assert Backed(w, id);
      var key := RehearsalKey(w.rehearsals.rows[id].workshop, id);
      if key in w.system.ledger && w.system.ledger[key].state.Succeeded? {
        ClosedEntryLasts(w.system, e, key);
      }
    }
  }

  lemma ClaimKeepsInv(w: World, e: R.Event)
    requires Inv(w) && !e.Report?
    ensures Inv(w.(rehearsals := R.Step(w.rehearsals, e)))
  {
    var t := w.(rehearsals := R.Step(w.rehearsals, e));
    forall r | r in t.sent
      ensures SentOk(t, r)
    {
      assert SentOk(w, r);
    }
    forall id | id in t.rehearsals.rows
      ensures Backed(t, id)
    {
      assert id in w.rehearsals.rows ==> Backed(w, id);
    }
  }

  lemma PostKeepsInv(w: World, e: Event)
    requires Inv(w) && e.Post?
    ensures Inv(Next(w, e))
  {
    if Next(w, e) != w {
      DriverKeepsInv(w, Sending(e.r, e.claim, e.digest));
      var s, t := w.(system := E.Next(w.system, Sending(e.r, e.claim, e.digest))), Next(w, e);
      forall r | r in t.sent
        ensures SentOk(t, r)
      {
        assert r != e.r ==> SentOk(s, r);
      }
      forall id | id in t.rehearsals.rows
        ensures Backed(t, id)
      {
        assert Backed(s, id);
      }
    }
  }

  /** A success the scheduler may report stands in the ledger. */
  lemma SuccessIsBacked(w: World, claim: R.Claim)
    requires E.Inv(w.system) && (forall r :: r in w.sent ==> SentOk(w, r)) && ToldSuccess(w, claim)
    ensures KeyOf(claim) in w.system.ledger && w.system.ledger[KeyOf(claim)].state.Succeeded?
  {
    var r :| r in w.sent && w.sent[r] == claim && r in w.system.requests &&
             w.system.requests[r].phase.Answered? && w.system.requests[r].phase.reply.Done?;
    assert SentOk(w, r);
    assert E.RequestOk(w.system, r);
    assert E.KeyOk(w.system, KeyOf(claim));
  }

  lemma ReportBacks(w: World, e: Event, id: Uuid)
    requires E.Inv(w.system) && R.ClaimsOk(w.rehearsals) && (forall r :: r in w.sent ==> SentOk(w, r))
    requires e.Report? && id in w.rehearsals.rows && Backed(w, id)
    ensures id in Next(w, e).rehearsals.rows && Backed(Next(w, e), id)
  {
    if Next(w, e) != w && R.IsSuccess(e.reply) && id == e.claim.rehearsal {
      assert R.ClaimOk(w.rehearsals, e.claim);
      SuccessIsBacked(w, e.claim);
    }
  }

  lemma ReportKeepsInv(w: World, e: Event)
    requires Sound(w) && Inv(w) && e.Report?
    ensures Inv(Next(w, e))
  {
    var t := Next(w, e);
    if t != w {
      forall r | r in t.sent
        ensures SentOk(t, r)
      {
        assert SentOk(w, r);
      }
      forall id | id in t.rehearsals.rows
        ensures Backed(t, id)
      {
        ReportBacks(w, e, id);
      }
    }
  }

  lemma EventKeepsSound(w: World, e: Event)
    requires Sound(w)
    ensures Sound(Next(w, e))
  {
    match e
    case Driver(event) =>
      E.EventKeepsInv(w.system, event);
      E.EventKeepsQueueInv(w.system, event);
    case Claim(claiming) => R.StepKeepsInv(w.rehearsals, claiming);
    case Post(r, claim, digest) =>
      E.EventKeepsInv(w.system, Sending(r, claim, digest));
      E.EventKeepsQueueInv(w.system, Sending(r, claim, digest));
    case Report(claim, reply, now) => R.StepKeepsInv(w.rehearsals, R.Report(claim, reply, now));
  }

  lemma EventKeepsInv(w: World, e: Event)
    requires Sound(w) && Inv(w)
    ensures Inv(Next(w, e))
  {
    match e
    case Driver(event) => DriverKeepsInv(w, event);
    case Claim(claiming) =>
      if !claiming.Report? {
        ClaimKeepsInv(w, claiming);
      }
    case Post(_, _, _) => PostKeepsInv(w, e);
    case Report(_, _, _) => ReportKeepsInv(w, e);
  }

  lemma {:induction false} RunKeepsInv(events: seq<Event>)
    ensures Sound(Run(events)) && Inv(Run(events))
  {
    if events == [] {
      E.RunKeepsInv([]);
      R.RunKeepsInv([]);
    } else {
      var before := Run(events[..|events| - 1]);
      RunKeepsInv(events[..|events| - 1]);
      EventKeepsSound(before, events[|events| - 1]);
      EventKeepsInv(before, events[|events| - 1]);
    }
  }

  // ---------------------------------------------------------------- what follows

  /** A rehearsal that succeeded had its effect started exactly once, over all its attempts, and the ledger holds
      that success. */
  lemma SucceededRehearsalRanExactlyOnce(events: seq<Event>, id: Uuid)
    requires id in Run(events).rehearsals.rows && Run(events).rehearsals.rows[id].state.Succeeded?
    ensures var w := Run(events);
            var key := RehearsalKey(w.rehearsals.rows[id].workshop, id);
            E.Starts(w.system.effects, key) == 1 && key in w.system.ledger && w.system.ledger[key].state.Succeeded?
  {
    RunKeepsInv(events);
    var w := Run(events);
    assert Backed(w, id);
    assert E.KeyOk(w.system, RehearsalKey(w.rehearsals.rows[id].workshop, id));
  }

  /** The effect of the key ended without success: rejected or withdrawn, or in a way nobody can vouch for. */
  ghost predicate EndedWithoutSuccess(s: E.System, key: LedgerKey) {
    (key in s.ledger && s.ledger[key].state.Failed?) || E.Ambiguous(s, key)
  }

  lemma EndLasts(s: E.System, e: E.Event, key: LedgerKey)
    requires E.RequestsOk(s) && EndedWithoutSuccess(s, key)
    ensures EndedWithoutSuccess(E.Next(s, e), key)
  {
    if E.Ambiguous(s, key) {
      E.AmbiguityOutlivesEvent(s, e, key);
    } else {
      ClosedEntryLasts(s, e, key);
    }
  }

  lemma SystemIsSound(events: seq<Event>)
    ensures E.RequestsOk(Run(events).system)
  {
    RunKeepsInv(events);
  }

  lemma EndOutlivesEvent(w: World, e: Event, key: LedgerKey)
    requires E.RequestsOk(w.system) && EndedWithoutSuccess(w.system, key)
    ensures EndedWithoutSuccess(Next(w, e).system, key)
  {
    if e.Driver? {
      EndLasts(w.system, e.event, key);
    } else if e.Post? {
      EndLasts(w.system, Sending(e.r, e.claim, e.digest), key);
    }
  }

  lemma {:induction false} EndIsForever(events: seq<Event>, more: seq<Event>, key: LedgerKey)
    requires EndedWithoutSuccess(Run(events).system, key)
    ensures EndedWithoutSuccess(Run(events + more).system, key)
    decreases |more|
  {
    if more == [] {
      assert events + more == events;
    } else {
      var before, e := events + more[..|more| - 1], more[|more| - 1];
      EndIsForever(events, more[..|more| - 1], key);
      assert (events + more)[..|events + more| - 1] == before;
      SystemIsSound(before);
      EndOutlivesEvent(Run(before), e, key);
    }
  }

  /** Once the effect of a rehearsal ended without success, no later attempt succeeds: whatever is claimed, posted
      and reported afterwards, the rehearsal never becomes succeeded. */
  lemma LaterAttemptsNeverSucceed(events: seq<Event>, more: seq<Event>, workshop: Uuid, id: Uuid)
    requires EndedWithoutSuccess(Run(events).system, RehearsalKey(workshop, id))
    requires id in Run(events + more).rehearsals.rows && Run(events + more).rehearsals.rows[id].workshop == workshop
    ensures !Run(events + more).rehearsals.rows[id].state.Succeeded?
  {
    EndIsForever(events, more, RehearsalKey(workshop, id));
    RunKeepsInv(events + more);
    assert Backed(Run(events + more), id);
  }
}
