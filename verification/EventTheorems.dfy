/** What a user of the event queue can rely on, over every run of the atomic steps. */
module EventTheorems {
  import opened Basics
  import opened EventModel
  import opened EventRuns
  import opened EventEager
  import opened EventInvariant
  import opened EventProofs
  import opened EventSteps

  ghost function ObservedView(w: World, id: EventId, now: Time): Option<View> {
    var r := Observe(w.policy, w.store, id, now);
    if r.Some? then Some(ViewOf(r.value)) else None
  }

  // ---- lazy is eager ---------------------------------------------------------------

  // An active record, once normalised, is exactly the eager answer.
  ghost function StoredView(s: Store, id: EventId): Option<View> {
    if id in s.records then Some(ViewOf(s.records[id])) else None
  }

  lemma SettledView(p: Policy, s: Store, log: Log, id: EventId, u: Record, status: Status, at: Time, now: Time)
    requires UpToDate(log, id, u)
    ensures StoredView(Settled(p, s, id, u, status, at, now), id) ==
      if Kept(p, at, now) then Some(EagerRecord(p, log, id, Done(status, at))) else None
  {
    SettledIsEager(p, log, id, u, status, at);
    if Kept(p, at, now) {
      assert Archived(s, id, SettledRecord(p, u, status, at), at).records[id] == SettledRecord(p, u, status, at);
    }
  }

  lemma ActiveObservedEagerly(p: Policy, s: Store, log: Log, id: EventId, u: Record, now: Time)
    requires id in s.records && UpToDate(log, id, u) && u.status.Active?
    ensures StoredView(Concluded(p, s, id, u, now), id) == EagerView(p, log, id, now)
  {
    UpToDateOutcome(log, id, u, now);
    if Resolved(u) {
      SettledView(p, s, log, id, u, Completed, u.resolvedAt, now);
    } else if Due(u.expiresAt, now) {
      SettledView(p, s, log, id, u, Expired, u.expiresAt.value, now);
    } else {
      OpenIsEager(p, log, id, u);
      assert Updated(s, id, u).records[id] == u;
    }
  }

  lemma OpenIsEager(p: Policy, log: Log, id: EventId, u: Record)
    requires UpToDate(log, id, u) && u.status.Active?
    ensures ViewOf(u) == EagerRecord(p, log, id, Open)
  {
  }

  lemma SettledObservedEagerly(p: Policy, s: Store, log: Log, id: EventId, clock: Time, now: Time)
    requires id in s.records && !s.records[id].status.Active? && SettledAgrees(p, log, id, s.records[id], clock)
    requires clock <= now
    ensures (if Due(s.records[id].archiveUntil, now) then None else Some(ViewOf(s.records[id])))
      == EagerView(p, log, id, now)
  {
  }

  // Whatever passes ran before, and however many removals were left unapplied, a reader at any later instant is told
  // exactly what an eager queue would tell.
  lemma LazyIsEager(w: World, id: EventId, now: Time)
    requires Inv(w) && w.clock <= now
    ensures ObservedView(w, id, now) == EagerView(w.policy, w.log, id, now)
  {
    assert EventOk(w, id);
    if id in w.store.records {
      if w.store.records[id].status.Active? {
        RecordWaivedIsEager(w, id);
        ActiveObservedEagerly(w.policy, w.store, w.log, id, WaivedRecord(w.store.removed, w.store.records[id]), now);
      } else {
        SettledObservedEagerly(w.policy, w.store, w.log, id, w.clock, now);
      }
    } else if id in w.log.emissions {
      OutcomeSettles(w.log, id, w.clock, now);
    }
  }

  predicate IsMaintenance(a: Action) {
    a.Tick? || a.Touch? || a.Drop? || a.Forget?
  }

  predicate AllMaintenance(acts: seq<Action>) {
    forall a :: a in acts ==> IsMaintenance(a)
  }

  lemma {:induction false} MaintenanceKeepsLog(w: World, acts: seq<Action>)
    requires Legal(w, acts) && AllMaintenance(acts)
    ensures Run(w, acts).log == w.log && Run(w, acts).policy == w.policy
    decreases |acts|
  {
    if acts != [] {
      assert acts[0] in acts;
      assert forall a :: a in acts[1..] ==> a in acts;
      MaintenanceKeepsLog(Apply(w, acts[0]), acts[1..]);
    }
  }

  // ---- outcomes --------------------------------------------------------------------

  // An event a reader finds has completed exactly when every captured recipient was resolved before the deadline, at
  // the last of those resolutions; it has expired exactly when its deadline passed with something still owed.
  lemma OutcomeExact(w: World, id: EventId, now: Time)
    requires Inv(w) && w.clock <= now && Observe(w.policy, w.store, id, now).Some?
    ensures id in w.log.emissions
    ensures var r := Observe(w.policy, w.store, id, now).value;
      && r.recipients.Keys == w.log.emissions[id].recipients.Keys
      && (r.status.Completed? <==> AllResolved(w.log, id))
      && (r.status.Expired? <==> !AllResolved(w.log, id) && Due(w.log.emissions[id].expiresAt, now))
      && (r.status.Completed? ==> r.settledAt == Some(LastResolution(w.log, id)))
      && (r.status.Expired? ==> r.settledAt == w.log.emissions[id].expiresAt)
      && (forall g :: g in Resolutions(w.log, id) ==> Before(Resolutions(w.log, id)[g], w.log.emissions[id].expiresAt))
  {
    LazyIsEager(w, id, now);
    var r := Observe(w.policy, w.store, id, now).value;
    var o := EagerOutcome(w.log, id, now);
    assert ViewOf(r) == EagerRecord(w.policy, w.log, id, o);
    assert ViewOf(r).names == w.log.emissions[id].recipients;
    forall g | g in Resolutions(w.log, id)
      ensures Before(Resolutions(w.log, id)[g], w.log.emissions[id].expiresAt)
    {
      assert Slot(g, id) in w.log.acks ==> AckOk(w.log, w.clock, Slot(g, id));
    }
  }

  // A removal that beat the deadline never turns into an expiry, however late it is applied.
  lemma TimelyRemovalsComplete(w: World, id: EventId, now: Time)
    requires Inv(w) && w.clock <= now && id in w.log.emissions
    requires forall g :: g in w.log.emissions[id].recipients ==>
      g in w.log.removals && Before(w.log.removals[g], w.log.emissions[id].expiresAt)
    ensures var r := Observe(w.policy, w.store, id, now); r.Some? ==> r.value.status.Completed?
  {
    if Observe(w.policy, w.store, id, now).Some? {
      OutcomeExact(w, id, now);
    }
  }

  predicate Reemits(acts: seq<Action>, id: EventId) {
    exists a :: a in acts && a.Emit? && a.id == id
  }

  // An acknowledgement can only be accepted for an event that is still open.
  lemma AcknowledgedWasOpen(w: World, slot: Slot, name: Name, token: Token)
    requires Inv(w) && Enabled(w, Acknowledge(slot, name, token))
    ensures slot.id in w.log.emissions && EagerOutcome(w.log, slot.id, w.clock) == Open
  {
    assert EventOk(w, slot.id);
    var r := w.store.records[slot.id];
    assert RecipientAgrees(w.log, slot.id, slot.generation, r.recipients[slot.generation]);
    assert ResolutionTime(w.log, slot.id, slot.generation).None?;
  }

  lemma OutcomeFinalStep(w: World, a: Action, id: EventId)
    requires Inv(w) && Enabled(w, a) && !(a.Emit? && a.id == id)
    requires id in w.log.emissions && EagerOutcome(w.log, id, w.clock).Done?
    ensures SameEvent(w.log, Apply(w, a).log, id)
    ensures EagerOutcome(Apply(w, a).log, id, Apply(w, a).clock) == EagerOutcome(w.log, id, w.clock)
  {
    var v := Apply(w, a);
    if a.Acknowledge? {
      AcknowledgedWasOpen(w, a.slot, a.name, a.token);
      assert a.slot.id != id;
    } else if a.Unsubscribe? {
      RemovalTooLate(w, a.name, a.generation, id);
    }
    SameEager(w.policy, w.log, v.log, id);
    StepKeepsInv(w, a);
    OutcomeSettles(w.log, id, w.clock, v.clock);
  }

  // Settlement is final: from the instant an event is settled, every later reader finds the same outcome, settlement
  // time and obligations, until it is told the event is gone for good.
  lemma {:induction false} OutcomeIsFinal(w: World, acts: seq<Action>, id: EventId, now: Time)
    requires Inv(w) && Legal(w, acts) && !Reemits(acts, id) && Run(w, acts).clock <= now
    requires id in w.log.emissions && EagerOutcome(w.log, id, w.clock).Done?
    ensures id in Run(w, acts).log.emissions
    ensures var later := ObservedView(Run(w, acts), id, now);
      later == None || later == Some(EagerRecord(w.policy, w.log, id, EagerOutcome(w.log, id, w.clock)))
    ensures ObservedView(w, id, w.clock) == None ==> ObservedView(Run(w, acts), id, now) == None
    decreases |acts|
  {
    if acts == [] {
      LazyIsEager(w, id, now);
      LazyIsEager(w, id, w.clock);
      OutcomeSettles(w.log, id, w.clock, now);
    } else {
      var a, v := acts[0], Apply(w, acts[0]);
      assert a in acts && !(a.Emit? && a.id == id);
      assert forall b :: b in acts[1..] ==> b in acts;
      OutcomeFinalStep(w, a, id);
      StepKeepsInv(w, a);
      SameEager(w.policy, w.log, v.log, id);
      LazyIsEager(w, id, w.clock);
      LazyIsEager(v, id, v.clock);
      OutcomeIsFinal(v, acts[1..], id, now);
    }
  }

  // Obligations only ever go from pending to one resolution, and the recipients stay those captured at emission.
  lemma ObligationsOnlyResolve(w: World, a: Action, id: EventId, g: Generation)
    requires Inv(w) && Enabled(w, a) && !(a.Emit? && a.id == id)
    requires id in w.log.emissions && g in w.log.emissions[id].recipients
    ensures id in Apply(w, a).log.emissions && Apply(w, a).log.emissions[id] == w.log.emissions[id]
    ensures !EagerObligation(w.log, id, g).Pending? ==>
      EagerObligation(Apply(w, a).log, id, g) == EagerObligation(w.log, id, g) &&
      ResolutionTime(Apply(w, a).log, id, g) == ResolutionTime(w.log, id, g)
  {
    if a.Acknowledge? && a.slot == Slot(g, id) {
      AcknowledgedWasOpen(w, a.slot, a.name, a.token);
      assert EventOk(w, id);
      assert RecipientAgrees(w.log, id, g, w.store.records[id].recipients[g]);
    }
  }

  // ---- the answer, field by field --------------------------------------------------------

  // The recipient owes nothing any more: it acknowledged, or it was removed strictly before the deadline.
  predicate Freed(log: Log, id: EventId, g: Generation)
    requires id in log.emissions
  {
    var deadline := log.emissions[id].expiresAt;
    Slot(g, id) in log.acks || (g in log.removals && (deadline.Some? ==> log.removals[g] < deadline.value))
  }

  function FreedAt(log: Log, id: EventId, g: Generation): Time
    requires id in log.emissions && Freed(log, id, g)
  {
    if Slot(g, id) in log.acks then log.acks[Slot(g, id)] else log.removals[g]
  }

  // The last time a recipient was freed, or else the time of the emission.
  ghost predicate LastFreed(log: Log, id: EventId, at: Time)
    requires id in log.emissions
  {
    var e := log.emissions[id];
    && e.createdAt <= at && (forall g :: g in e.recipients && Freed(log, id, g) ==> FreedAt(log, id, g) <= at)
    && (at == e.createdAt || exists g :: g in e.recipients && Freed(log, id, g) && FreedAt(log, id, g) == at)
  }

  // How and when the event ended: with the last recipient to be freed, or else at a deadline that has come.
  ghost predicate Ended(log: Log, id: EventId, now: Time, status: Status, at: Time)
    requires id in log.emissions
  {
    var e := log.emissions[id];
    if forall g :: g in e.recipients ==> Freed(log, id, g)
    then status == Completed && LastFreed(log, id, at)
    else status == Expired && e.expiresAt == Some(at) && at <= now
  }

  // What a reader is told is the emission with what has become of its obligations; once it has ended, it is there only
  // in an archiving queue, until the archive retention has passed since its end.
  ghost predicate Told(p: Policy, log: Log, id: EventId, now: Time, r: Record)
    requires id in log.emissions
  {
    var e := log.emissions[id];
    && r.payload == e.payload && r.createdAt == e.createdAt && r.expiresAt == e.expiresAt
    && r.recipients.Keys == e.recipients.Keys && LastFreed(log, id, r.resolvedAt)
    && (forall g :: g in e.recipients ==>
          && r.recipients[g].name == e.recipients[g]
          && (r.recipients[g].status.Acknowledged? <==> Slot(g, id) in log.acks)
          && (r.recipients[g].status.Pending? <==> !Freed(log, id, g)))
    && if r.status.Active? then
         && r.settledAt.None? && r.archiveUntil.None?
         && (exists g :: g in e.recipients && !Freed(log, id, g)) && (e.expiresAt.Some? ==> now < e.expiresAt.value)
       else
         && r.settledAt.Some? && Ended(log, id, now, r.status, r.settledAt.value)
         && p.onCompletion.Archive? && (p.archiveRetention.None? ==> r.archiveUntil.None?)
         && (p.archiveRetention.Some? ==>
               r.archiveUntil == Some(r.settledAt.value + p.archiveRetention.value) && now < r.archiveUntil.value)
  }

  lemma FreedIsResolved(log: Log, id: EventId, g: Generation)
    requires id in log.emissions
    ensures Freed(log, id, g) <==> ResolutionTime(log, id, g).Some?
    ensures Freed(log, id, g) ==> ResolutionTime(log, id, g) == Some(FreedAt(log, id, g))
  {
  }

  lemma EndedIsDone(log: Log, id: EventId, now: Time, o: Outcome)
    requires id in log.emissions && o == EagerOutcome(log, id, now)
    ensures o.Done? ==> Ended(log, id, now, o.status, o.at)
    ensures o.Open? ==> exists g :: g in log.emissions[id].recipients && !Freed(log, id, g)
    ensures o.Open? && log.emissions[id].expiresAt.Some? ==> now < log.emissions[id].expiresAt.value
    ensures LastFreed(log, id, LastResolution(log, id))
  {
    var e := log.emissions[id];
    forall g ensures Freed(log, id, g) <==> ResolutionTime(log, id, g).Some? {
      FreedIsResolved(log, id, g);
    }
    var last := LastResolution(log, id);
    forall g | g in e.recipients && Freed(log, id, g) ensures FreedAt(log, id, g) <= last {
      assert Resolutions(log, id)[g] == FreedAt(log, id, g);
    }
    if last != e.createdAt {
      var g :| g in Resolutions(log, id) && Resolutions(log, id)[g] == last;
      assert g in e.recipients && FreedAt(log, id, g) == last;
    }
    if !AllResolved(log, id) {
      var g :| g in e.recipients && ResolutionTime(log, id, g).None?;
      assert !Freed(log, id, g);
    }
  }

  // The whole answer to a reader at any later instant, told from the emissions, acknowledgements and removals field by
  // field; and when there is none, the event has ended and its queue keeps it no longer.
  lemma AnswerExactly(w: World, id: EventId, now: Time)
    requires Inv(w) && w.clock <= now && id in w.log.emissions
    ensures var answer, p := Observe(w.policy, w.store, id, now), w.policy;
      if answer.Some? then Told(p, w.log, id, now, answer.value)
      else exists status, at ::
        Ended(w.log, id, now, status, at) &&
        (p.onCompletion.Delete? || (p.archiveRetention.Some? && at + p.archiveRetention.value <= now))
  {
    hide Inv, Observe, Ended;
    LazyIsEager(w, id, now);
    var o, e := EagerOutcome(w.log, id, now), w.log.emissions[id];
    EndedIsDone(w.log, id, now, o);
    if Observe(w.policy, w.store, id, now).Some? {
      AnswerIsTold(w.policy, w.log, id, now, Observe(w.policy, w.store, id, now).value);
    } else {
      assert Ended(w.log, id, now, o.status, o.at);
    }
  }

  // Once acknowledged, an obligation is shown as acknowledged to every later reader who still finds the event.
  lemma AcknowledgedIsTold(w: World, slot: Slot, later: Time)
    requires Inv(w) && w.clock <= later && slot in w.log.acks && slot.id in w.log.emissions
    requires slot.generation in w.log.emissions[slot.id].recipients
    ensures var answer := Observe(w.policy, w.store, slot.id, later);
      if answer.Some?
      then slot.generation in answer.value.recipients && answer.value.recipients[slot.generation].status.Acknowledged?
      else exists status, at :: Ended(w.log, slot.id, later, status, at)
  {
    hide Inv, Observe, Ended, LastFreed;
    AnswerExactly(w, slot.id, later);
  }

  lemma MayActIsEmitted(w: World, slot: Slot, name: Name, token: Token)
    requires Inv(w) && MayAct(w.store, slot, name, token, w.clock)
    ensures slot.id in w.log.emissions && slot.generation in w.log.emissions[slot.id].recipients
  {
    assert EventOk(w, slot.id);
  }

  lemma AnswerIsTold(p: Policy, log: Log, id: EventId, now: Time, r: Record)
    requires id in log.emissions && EagerView(p, log, id, now) == Some(ViewOf(r))
    ensures Told(p, log, id, now, r)
  {
    hide Ended, LastFreed, LastResolution;
    var o, e := EagerOutcome(log, id, now), log.emissions[id];
    var v := EagerRecord(p, log, id, o);
    EndedIsDone(log, id, now, o);
    assert ViewOf(r).names == v.names && ViewOf(r).obligations == v.obligations;
    assert ViewOf(r).names.Keys == r.recipients.Keys;
    forall g | g in e.recipients
      ensures r.recipients[g].name == e.recipients[g]
      ensures r.recipients[g].status == EagerObligation(log, id, g)
      ensures Freed(log, id, g) <==> ResolutionTime(log, id, g).Some?
    {
      FreedIsResolved(log, id, g);
      assert ViewOf(r).names[g] == v.names[g] && ViewOf(r).obligations[g] == v.obligations[g];
    }
  }

  // ---- ownership ---------------------------------------------------------------------

  // Nobody can be handed a delivery while its lease runs.
  lemma LeasedIsNotTaken(w: World, slot: Slot, name: Name, token: Token, lease: nat)
    requires Inv(w) && Enabled(w, Take(slot, name, token, lease))
    ensures RecipientOf(w.store, slot).leaseUntil.Some? ==> RecipientOf(w.store, slot).leaseUntil.value <= w.clock
    ensures forall other :: !Owns(w.store, slot, other, w.clock)
  {
    assert EventOk(w, slot.id);
    assert SlotOk(w.store, Slot(slot.generation, slot.id));
  }

  lemma LeaseWithinDeadline(w: World, slot: Slot, token: Token)
    requires Inv(w) && Owns(w.store, slot, token, w.clock)
    ensures Before(w.clock, w.store.records[slot.id].expiresAt)
    ensures w.store.records[slot.id].expiresAt.Some? ==>
      RecipientOf(w.store, slot).leaseUntil.value <= w.store.records[slot.id].expiresAt.value
    ensures token in w.log.tokens
  {
    assert EventOk(w, slot.id);
    assert LeaseOk(w.log.tokens, w.store.records[slot.id], w.store.records[slot.id].recipients[slot.generation]);
  }

  lemma NormalizedOwns(p: Policy, s: Store, id: EventId, now: Time, slot: Slot, token: Token)
    requires id in s.records && Owns(Normalized(p, s, id, now), slot, token, now)
    ensures Owns(s, slot, token, now)
  {
    NormalizedElsewhere(p, s, id, now);
    if slot.id == id && s.records[id].status.Active? {
      ConcludedOwns(p, s, id, WaivedRecord(s.removed, s.records[id]), now, slot, token);
    }
  }

  lemma ConcludedOwns(p: Policy, s: Store, id: EventId, u: Record, now: Time, slot: Slot, token: Token)
    requires id in s.records && slot.id == id && Owns(Concluded(p, s, id, u, now), slot, token, now)
    ensures slot.generation in u.recipients && u.recipients[slot.generation].status.Pending?
    ensures Concluded(p, s, id, u, now).records[id] == u
  {
  }

  // Giving one recipient of one event a new lease or obligation lends a token only to that recipient.
  lemma WithRecipientOwns(s: Store, t: Store, at: Slot, slot: Slot, token: Token, now: Time)
    requires at.id in s.records && at.id in t.records
    requires forall id ::
      id != at.id ==> (id in t.records <==> id in s.records) && (id in t.records ==> t.records[id] == s.records[id])
    requires t.records[at.id].status == s.records[at.id].status
    requires t.records[at.id].recipients.Keys == s.records[at.id].recipients.Keys + {at.generation}
    requires forall g ::
      g in s.records[at.id].recipients && g != at.generation ==>
        t.records[at.id].recipients[g] == s.records[at.id].recipients[g]
    requires Owns(t, slot, token, now)
    ensures slot == at || Owns(s, slot, token, now)
  {
  }

  lemma LeaseActionsNeverRevive(w: World, a: Action, slot: Slot, token: Token)
    requires Inv(w) && Enabled(w, a) && (a.Take? || a.Acknowledge? || a.Renew? || a.Release?) && token in w.log.tokens
    requires Owns(Apply(w, a).store, slot, token, w.clock)
    ensures Owns(w.store, slot, token, w.clock)
  {
    var v := Apply(w, a);
    WithRecipientOwns(w.store, v.store, a.slot, slot, token, w.clock);
  }

  // A token that has once been issued and no longer owns its delivery never owns it again.
  lemma NeverRevived(w: World, a: Action, slot: Slot, token: Token)
    requires Inv(w) && Enabled(w, a) && token in w.log.tokens
    requires !Owns(w.store, slot, token, w.clock)
    ensures !Owns(Apply(w, a).store, slot, token, Apply(w, a).clock)
  {
    if Owns(Apply(w, a).store, slot, token, Apply(w, a).clock) {
      if a.Touch? {
        NormalizedOwns(w.policy, w.store, a.id, w.clock, slot, token);
      } else if a.Take? || a.Acknowledge? || a.Renew? || a.Release? {
        LeaseActionsNeverRevive(w, a, slot, token);
      }
    }
  }

  lemma {:induction false} FencedForever(w: World, acts: seq<Action>, slot: Slot, token: Token)
    requires Inv(w) && Legal(w, acts) && token in w.log.tokens && !Owns(w.store, slot, token, w.clock)
    ensures !Owns(Run(w, acts).store, slot, token, Run(w, acts).clock)
    decreases |acts|
  {
    if acts != [] {
      NeverRevived(w, acts[0], slot, token);
      StepKeepsInv(w, acts[0]);
      TokensStayIssued(w, acts[0]);
      FencedForever(Apply(w, acts[0]), acts[1..], slot, token);
    }
  }

  lemma TokensStayIssued(w: World, a: Action)
    requires Enabled(w, a)
    ensures w.log.tokens <= Apply(w, a).log.tokens
  {
  }

  // A stale token is refused by acknowledge, renew and release for ever after.
  lemma StaleTokenNeverActs(w: World, acts: seq<Action>, slot: Slot, name: Name, token: Token, lease: nat, delay: nat)
    requires Inv(w) && Legal(w, acts) && token in w.log.tokens && !Owns(w.store, slot, token, w.clock)
    ensures var v := Run(w, acts);
      !Enabled(v, Acknowledge(slot, name, token)) && !Enabled(v, Renew(slot, name, token, lease))
        && !Enabled(v, Release(slot, name, token, delay))
  {
    FencedForever(w, acts, slot, token);
  }

  // ---- tombstones ----------------------------------------------------------------------

  // Whatever was collected: a recipient an active event still waits for is in its generation's delivery index, and that
  // generation is registered or the time of its removal is still on record.
  lemma TombstonesSuffice(w: World, acts: seq<Action>, slot: Slot)
    requires Inv(w) && Legal(w, acts) && Owed(Run(w, acts).store, slot)
    ensures var v := Run(w, acts);
      && slot in v.store.delivery
      && (slot.generation in v.store.subscriptions.Values
          || (slot.generation in v.store.removed && slot.generation in v.store.retired
            && slot.generation in v.log.removals
              && v.store.removed[slot.generation] == v.log.removals[slot.generation]))
  {
    RunKeepsInv(w, acts);
    var v := Run(w, acts);
    assert EventOk(v, slot.id);
    assert SlotOk(v.store, Slot(slot.generation, slot.id));
  }
}
