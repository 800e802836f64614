/** What a reader of an event is given, record and leases, and that maintenance never changes a bit of it. */
module EventReads {
  import opened Basics
  import opened EventModel
  import opened EventRuns
  import opened EventInvariant
  import opened EventSteps
  import opened EventTheorems

  // ---- materialising twice is materialising once -----------------------------------------

  lemma WaivedOnce(removed: map<Generation, Time>, r: Record)
    ensures WaivedRecord(removed, WaivedRecord(removed, r)) == WaivedRecord(removed, r)
  {
    var u := WaivedRecord(removed, r);
    assert Waives(removed, u) == {};
    assert WaivedRecipients(u.recipients, {}) == u.recipients;
    var t := Latest(u.resolvedAt, RemovalTimes(removed, {}));
    assert t == u.resolvedAt;
  }

  // The answer for an active record: gone, settled, or open with its removals applied.
  ghost function Answer(p: Policy, u: Record, now: Time): Option<Record> {
    if Resolved(u) then if Kept(p, u.resolvedAt, now) then Some(SettledRecord(p, u, Completed, u.resolvedAt)) else None
    else if Due(u.expiresAt, now) then
      if Kept(p, u.expiresAt.value, now) then Some(SettledRecord(p, u, Expired, u.expiresAt.value)) else None
    else Some(u)
  }

  ghost function Stored(s: Store, id: EventId): Option<Record> {
    if id in s.records then Some(s.records[id]) else None
  }

  lemma ConcludedAnswers(p: Policy, s: Store, id: EventId, u: Record, now: Time)
    requires id in s.records
    ensures Stored(Concluded(p, s, id, u, now), id) == Answer(p, u, now)
  {
  }

  // Reading a stored record at an instant.
  ghost function AnswerOf(p: Policy, removed: map<Generation, Time>, r: Record, now: Time): Option<Record> {
    if r.status.Active? then Answer(p, WaivedRecord(removed, r), now)
    else if Due(r.archiveUntil, now) then None
    else Some(r)
  }

  lemma ObservedAnswer(p: Policy, s: Store, id: EventId, now: Time)
    ensures Observe(p, s, id, now) == if id in s.records then AnswerOf(p, s.removed, s.records[id], now) else None
  {
    if id in s.records && s.records[id].status.Active? {
      ConcludedAnswers(p, s, id, WaivedRecord(s.removed, s.records[id]), now);
    }
  }

  lemma AnswerIsLocal(p: Policy, s: Store, t: Store, id: EventId, now: Time)
    requires id in s.records <==> id in t.records
    requires id in s.records ==> s.records[id] == t.records[id] && t.removed == s.removed
    ensures Observe(p, t, id, now) == Observe(p, s, id, now)
  {
    hide Observe, AnswerOf;
    ObservedAnswer(p, s, id, now);
    ObservedAnswer(p, t, id, now);
  }

  // What is answered now, read again later, is what would have been answered later.
  lemma AnswerLater(p: Policy, removed: map<Generation, Time>, r: Record, now: Time, later: Time)
    requires now <= later
    ensures var a := AnswerOf(p, removed, r, now);
      AnswerOf(p, removed, r, later) == if a.Some? then AnswerOf(p, removed, a.value, later) else None
  {
    if r.status.Active? {
      WaivedOnce(removed, r);
    }
  }

  // Materialising an event, at an instant, changes no later answer about it.
  lemma TouchInvisible(w: World, touched: EventId, id: EventId, now: Time)
    requires Inv(w) && Enabled(w, Touch(touched)) && w.clock <= now
    ensures Observe(w.policy, Apply(w, Touch(touched)).store, id, now) == Observe(w.policy, w.store, id, now)
  {
    hide AnswerOf, Inv;
    var p, s, t := w.policy, w.store, Apply(w, Touch(touched)).store;
    NormalizedRegistry(p, s, touched, w.clock);
    NormalizedElsewhere(p, s, touched, w.clock);
    if touched == id {
      ObservedAnswer(p, s, id, w.clock);
      ObservedAnswer(p, s, id, now);
      ObservedAnswer(p, t, id, now);
      AnswerLater(p, s.removed, s.records[id], w.clock, now);
    } else {
      AnswerIsLocal(p, s, t, id, now);
    }
  }

  lemma DropInvisible(w: World, dropped: EventId, id: EventId, now: Time)
    requires Inv(w) && Enabled(w, Drop(dropped)) && w.clock <= now
    ensures Observe(w.policy, Apply(w, Drop(dropped)).store, id, now) == Observe(w.policy, w.store, id, now)
  {
    if dropped == id {
      assert EventOk(w, id);
      ObservedAnswer(w.policy, w.store, id, now);
    } else {
      AnswerIsLocal(w.policy, w.store, Apply(w, Drop(dropped)).store, id, now);
    }
  }

  lemma WaivesTheSame(removed: map<Generation, Time>, r: Record, g: Generation)
    requires g !in Waives(removed, r)
    ensures WaivedRecord(removed - {g}, r) == WaivedRecord(removed, r)
  {
    assert Waives(removed - {g}, r) == Waives(removed, r);
    assert RemovalTimes(removed - {g}, Waives(removed, r)) == RemovalTimes(removed, Waives(removed, r));
  }

  // A tombstone is collected only when no pending obligation needs it.
  lemma ForgottenWaivesNothing(w: World, g: Generation, id: EventId)
    requires Inv(w) && Enabled(w, Forget(g)) && id in w.store.records && w.store.records[id].status.Active?
    ensures WaivedRecord(w.store.removed - {g}, w.store.records[id])
      == WaivedRecord(w.store.removed, w.store.records[id])
  {
    hide WaivedRecord;
    assert EventOk(w, id);
    assert SlotOk(w.store, Slot(g, id));
    WaivesTheSame(w.store.removed, w.store.records[id], g);
  }

  lemma ForgetInvisible(w: World, g: Generation, id: EventId, now: Time)
    requires Inv(w) && Enabled(w, Forget(g)) && w.clock <= now
    ensures Observe(w.policy, Apply(w, Forget(g)).store, id, now) == Observe(w.policy, w.store, id, now)
  {
    hide Inv;
    ObservedAnswer(w.policy, w.store, id, now);
    ObservedAnswer(w.policy, Apply(w, Forget(g)).store, id, now);
    if id in w.store.records && w.store.records[id].status.Active? {
      ForgottenWaivesNothing(w, g, id);
    }
  }

  lemma StepInvisible(w: World, a: Action, id: EventId, now: Time)
    requires Inv(w) && Enabled(w, a) && IsMaintenance(a) && Apply(w, a).clock <= now
    ensures Observe(w.policy, Apply(w, a).store, id, now) == Observe(w.policy, w.store, id, now)
    ensures Apply(w, a).policy == w.policy && w.clock <= Apply(w, a).clock
  {
    hide Inv, Observe, Normalized;
    match a
    case Tick(later) =>
    case Touch(touched) => TouchInvisible(w, touched, id, now);
    case Drop(dropped) => DropInvisible(w, dropped, id, now);
    case Forget(g) => ForgetInvisible(w, g, id, now);
  }

  lemma {:induction false} MaintenanceTakesTime(w: World, acts: seq<Action>)
    requires Legal(w, acts) && AllMaintenance(acts)
    ensures w.clock <= Run(w, acts).clock
    decreases |acts|
  {
    if acts != [] {
      assert acts[0] in acts && forall a :: a in acts[1..] ==> a in acts;
      MaintenanceTakesTime(Apply(w, acts[0]), acts[1..]);
    }
  }

  // Materialisation, archive purges and tombstone collection, run at any times and in any order, are invisible: every
  // later answer is the same to the last field, leases included.
  lemma {:induction false} MaintenanceInvisible(w: World, acts: seq<Action>, id: EventId, now: Time)
    requires Inv(w) && Legal(w, acts) && AllMaintenance(acts) && Run(w, acts).clock <= now
    ensures Observe(Run(w, acts).policy, Run(w, acts).store, id, now) == Observe(w.policy, w.store, id, now)
    decreases |acts|
  {
    hide Inv, Observe, Enabled, Apply;
    if acts != [] {
      assert acts[0] in acts && forall a :: a in acts[1..] ==> a in acts;
      var v := Apply(w, acts[0]);
      MaintenanceTakesTime(v, acts[1..]);
      StepKeepsInv(w, acts[0]);
      StepInvisible(w, acts[0], id, now);
      MaintenanceInvisible(v, acts[1..], id, now);
    }
  }

  // ---- leases ------------------------------------------------------------------------------

  datatype Lease = Lease(token: Option<Token>, until: Option<Time>)

  // The lease of a delivery as the latest take, renewal or release of it in the history of a run left it.
  function LeaseStep(w: World, a: Action, slot: Slot, before: Lease): Lease {
    match a
    case Emit(id, _, _) => if id == slot.id then Lease(None, None) else before
    case Take(at, _, token, lease) => if at == slot then Lease(Some(token), LeaseUntil(w, slot, lease)) else before
    case Renew(at, _, _, lease) => if at == slot then before.(until := LeaseUntil(w, slot, lease)) else before
    case Release(at, _, _, _) => if at == slot then Lease(None, None) else before
    case _ => before
  }

  // A lease ends after its time, but no later than the deadline the event was emitted with.
  function LeaseUntil(w: World, slot: Slot, lease: nat): Option<Time> {
    if slot.id !in w.log.emissions then None
    else
      var deadline := w.log.emissions[slot.id].expiresAt;
      Some(if deadline.Some? then Min(w.clock + lease, deadline.value) else w.clock + lease)
  }

  ghost function LeaseAfter(w: World, acts: seq<Action>, slot: Slot, before: Lease): Lease
    requires Legal(w, acts)
    decreases |acts|
  {
    if acts == [] then before else LeaseAfter(Apply(w, acts[0]), acts[1..], slot, LeaseStep(w, acts[0], slot, before))
  }

  // A recipient shows its lease while the event is open and owed to it; a waiver hides the token too, an
  // acknowledgement or settlement only the deadline.
  predicate ShowsLease(r: Record, g: Generation, l: Lease) {
    g in r.recipients ==>
      && r.recipients[g].leaseToken == (if r.recipients[g].status.Waived? then None else l.token)
      && r.recipients[g].leaseUntil == (if r.status.Active? && r.recipients[g].status.Pending? then l.until else None)
  }

  predicate StoresLease(s: Store, slot: Slot, l: Lease) {
    slot.id in s.records ==> ShowsLease(s.records[slot.id], slot.generation, l)
  }

  // Removals, deadlines and settlement change a lease only as its obligation says.
  lemma AnswerShowsLease(p: Policy, removed: map<Generation, Time>, r: Record, now: Time, g: Generation, l: Lease)
    requires ShowsLease(r, g, l) && AnswerOf(p, removed, r, now).Some?
    ensures ShowsLease(AnswerOf(p, removed, r, now).value, g, l)
  {
    hide Latest;
  }

  lemma TouchStoresLease(w: World, touched: EventId, slot: Slot, l: Lease)
    requires Enabled(w, Touch(touched)) && StoresLease(w.store, slot, l)
    ensures StoresLease(Apply(w, Touch(touched)).store, slot, l)
  {
    hide AnswerOf, ShowsLease, Normalized;
    NormalizedElsewhere(w.policy, w.store, touched, w.clock);
    if touched == slot.id {
      ObservedAnswer(w.policy, w.store, touched, w.clock);
      if AnswerOf(w.policy, w.store.removed, w.store.records[touched], w.clock).Some? {
        AnswerShowsLease(w.policy, w.store.removed, w.store.records[touched], w.clock, slot.generation, l);
      }
    }
  }

  lemma ActiveDeadline(w: World, id: EventId)
    requires Inv(w) && id in w.store.records && w.store.records[id].status.Active?
    ensures id in w.log.emissions && w.store.records[id].expiresAt == w.log.emissions[id].expiresAt
  {
    assert EventOk(w, id);
  }

  lemma LendingStoresLease(w: World, a: Action, slot: Slot, l: Lease)
    requires Inv(w) && Enabled(w, a) && (a.Take? || a.Renew?) && StoresLease(w.store, slot, l)
    ensures StoresLease(Apply(w, a).store, slot, LeaseStep(w, a, slot, l))
  {
    hide Inv;
    ActiveDeadline(w, a.slot.id);
  }

  lemma EndingStoresLease(w: World, a: Action, slot: Slot, l: Lease)
    requires Enabled(w, a) && (a.Acknowledge? || a.Release?) && StoresLease(w.store, slot, l)
    ensures StoresLease(Apply(w, a).store, slot, LeaseStep(w, a, slot, l))
  {
  }

  lemma StepStoresLease(w: World, a: Action, slot: Slot, l: Lease)
    requires Inv(w) && Enabled(w, a) && StoresLease(w.store, slot, l)
    ensures StoresLease(Apply(w, a).store, slot, LeaseStep(w, a, slot, l))
  {
    hide Inv, Normalized;
    if a.Touch? {
      TouchStoresLease(w, a.id, slot, l);
    } else if a.Take? || a.Renew? {
      LendingStoresLease(w, a, slot, l);
    } else if a.Acknowledge? || a.Release? {
      EndingStoresLease(w, a, slot, l);
    }
  }

  lemma {:induction false} RunStoresLease(w: World, acts: seq<Action>, slot: Slot, l: Lease)
    requires Inv(w) && Legal(w, acts) && StoresLease(w.store, slot, l)
    ensures StoresLease(Run(w, acts).store, slot, LeaseAfter(w, acts, slot, l))
    decreases |acts|
  {
    hide Inv, StoresLease, Enabled, Apply;
    if acts != [] {
      StepStoresLease(w, acts[0], slot, l);
      StepKeepsInv(w, acts[0]);
      RunStoresLease(Apply(w, acts[0]), acts[1..], slot, LeaseStep(w, acts[0], slot, l));
    }
  }

  // The rest of lazy is eager: the leases a reader is shown at any later instant follow from the history alone, too,
  // whatever was applied late.
  lemma LeasesAreEager(p: Policy, clock: Time, acts: seq<Action>, id: EventId, g: Generation, now: Time)
    requires Legal(Initial(p, clock), acts) && Run(Initial(p, clock), acts).clock <= now
    requires Observe(p, Run(Initial(p, clock), acts).store, id, now).Some?
    ensures ShowsLease(Observe(p, Run(Initial(p, clock), acts).store, id, now).value, g,
                       LeaseAfter(Initial(p, clock), acts, Slot(g, id), Lease(None, None)))
  {
    hide AnswerOf, ShowsLease, Observe;
    var w := Initial(p, clock);
    var v, l := Run(w, acts), LeaseAfter(w, acts, Slot(g, id), Lease(None, None));
    InitialInv(p, clock);
    RunStoresLease(w, acts, Slot(g, id), Lease(None, None));
    ObservedAnswer(p, v.store, id, now);
    AnswerShowsLease(p, v.store.removed, v.store.records[id], now, g, l);
  }
}
