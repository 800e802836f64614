/** Every atomic step of the event queue keeps its invariant. */
module EventProofs {
  import opened Basics
  import opened EventModel
  import opened EventRuns
  import opened EventEager
  import opened EventInvariant

  lemma LatestUnique<K>(t: Time, u: Time, base: Time, times: map<K, Time>)
    requires IsLatest(t, base, times) && IsLatest(u, base, times)
    ensures t == u
  {
  }

  // Purging an event whose delivery entries and deadline are already gone leaves the same store.
  lemma PurgeAgain(s: Store, t: Store, id: EventId, gs: set<Generation>)
    requires t == s.(delivery := WithoutDeliveries(s.delivery, id, gs), deadlines := s.deadlines - {id})
    ensures Purged(t, id, gs) == Purged(s, id, gs)
  {
  }

  lemma SettledAfterWaiver(p: Policy, s: Store, t: Store, id: EventId, u: Record, gs: set<Generation>, status: Status,
                           at: Time, now: Time)
    requires t == s.(delivery := WithoutDeliveries(s.delivery, id, gs)) && gs <= u.recipients.Keys
    ensures Settled(p, t, id, u, status, at, now) == Settled(p, s, id, u, status, at, now)
  {
    assert WithoutDeliveries(t.delivery, id, u.recipients.Keys) == WithoutDeliveries(s.delivery, id, u.recipients.Keys);
  }

  // How far a pass over the recipients has come: the removals of the generations done so far are applied.
  ghost predicate Applied(r: Record, removed: map<Generation, Time>, record: Record, done: set<Generation>) {
    var gs := Waives(removed, r) * done;
    && record == r.(recipients := WaivedRecipients(r.recipients, gs), resolvedAt := record.resolvedAt)
    && IsLatest(record.resolvedAt, r.resolvedAt, RemovalTimes(removed, gs))
  }

  lemma AppliedNone(r: Record, removed: map<Generation, Time>)
    ensures Applied(r, removed, r, {})
  {
  }

  // The obligations looked at so far are waived or not pending.
  predicate NothingOwed(r: Record, gs: set<Generation>, done: set<Generation>) {
    forall g :: g in done && g in r.recipients ==> g in gs || !r.recipients[g].status.Pending?
  }

  lemma AppliedElsewhere(r: Record, removed: map<Generation, Time>, record: Record, done: set<Generation>,
                         g: Generation)
    requires Applied(r, removed, record, done) && g in r.recipients && g !in done
    ensures g in record.recipients && record.recipients[g] == r.recipients[g] && record.expiresAt == r.expiresAt
  {
  }

  // One more recipient that is waived, not pending, or still owed.
  lemma OwedOneMore(r: Record, gs: set<Generation>, done: set<Generation>, g: Generation)
    requires g in r.recipients
    ensures NothingOwed(r, gs, done + {g}) <==>
      NothingOwed(r, gs, done) && (g in gs || !r.recipients[g].status.Pending?)
  {
  }

  lemma NothingOwedIsResolved(r: Record, removed: map<Generation, Time>)
    ensures NothingOwed(r, Waives(removed, r), r.recipients.Keys) <==> Resolved(WaivedRecord(removed, r))
  {
    var u, gs := WaivedRecord(removed, r), Waives(removed, r);
    forall g | g in r.recipients
      ensures u.recipients[g].status.Pending? <==> g !in gs && r.recipients[g].status.Pending?
    {
    }
  }

  lemma DeliveriesOneLess(delivery: map<Slot, Time>, id: EventId, gs: set<Generation>, done: set<Generation>,
                          g: Generation)
    requires g in gs
    ensures WithoutDeliveries(delivery, id, gs * done) - {Slot(g, id)}
      == WithoutDeliveries(delivery, id, gs * (done + {g}))
  {
  }

  lemma NoneApplied(r: Record, delivery: map<Slot, Time>, id: EventId, gs: set<Generation>)
    ensures NothingOwed(r, gs, {}) && gs * {} == {} && WithoutDeliveries(delivery, id, gs * {}) == delivery
  {
  }

  lemma AppliedSkip(r: Record, removed: map<Generation, Time>, record: Record, done: set<Generation>, g: Generation)
    requires Applied(r, removed, record, done) && g !in Waives(removed, r)
    ensures Applied(r, removed, record, done + {g})
  {
    assert Waives(removed, r) * (done + {g}) == Waives(removed, r) * done;
  }

  lemma AppliedWaive(r: Record, removed: map<Generation, Time>, record: Record, done: set<Generation>, g: Generation)
    requires Applied(r, removed, record, done) && g in Waives(removed, r) && g !in done
    ensures g in record.recipients && record.recipients[g] == r.recipients[g]
    ensures Applied(r, removed,
      record.(recipients := record.recipients[g := Waive(r.recipients[g])],
              resolvedAt := if record.resolvedAt < removed[g] then removed[g] else record.resolvedAt), done + {g})
  {
    var gs, hs := Waives(removed, r) * done, Waives(removed, r) * (done + {g});
    assert hs == gs + {g};
    LatestGrows(record.resolvedAt, r.resolvedAt, RemovalTimes(removed, gs), RemovalTimes(removed, hs), g);
    assert WaivedRecipients(r.recipients, hs) == WaivedRecipients(r.recipients, gs)[g := Waive(r.recipients[g])];
  }

  lemma LatestGrows<K>(t: Time, base: Time, before: map<K, Time>, after: map<K, Time>, k: K)
    requires IsLatest(t, base, before) && k in after
    requires forall j :: j in before ==> j in after && after[j] == before[j]
    requires forall j :: j in after ==> j == k || j in before
    ensures IsLatest(if t < after[k] then after[k] else t, base, after)
  {
  }

  lemma AppliedAll(r: Record, removed: map<Generation, Time>, record: Record)
    requires Applied(r, removed, record, r.recipients.Keys)
    ensures record == WaivedRecord(removed, r)
  {
  }

  // What is stored of a concluded record is what the script holds.
  lemma StoredIsInHand(p: Policy, s: Store, id: EventId, u: Record, now: Time)
    requires id in s.records
    ensures var t := Concluded(p, s, id, u, now); id in t.records ==> t.records[id] == ConcludedInHand(p, u, now)
  {
  }

  lemma WaivedShape(w: World, id: EventId)
    requires EventOk(w, id) && id in w.store.records && w.store.records[id].status.Active?
    ensures var u := WaivedRecord(w.store.removed, w.store.records[id]);
      Waives(w.store.removed, w.store.records[id]) <= u.recipients.Keys && u.archiveUntil.None?
  {
  }

  lemma WaivesNothing(removed: map<Generation, Time>, r: Record)
    requires Waives(removed, r) == {}
    ensures WaivedRecord(removed, r) == r
  {
    assert WaivedRecipients(r.recipients, {}) == r.recipients;
    assert Latest(r.resolvedAt, RemovalTimes(removed, {})) == r.resolvedAt;
  }

  // In a store that satisfies its invariant, the deliveries of the obligations waived now are all that is left of those
  // ever waived.
  lemma WaivedDeliveries(s: Store, id: EventId, u: Record)
    requires SlotsOk(s, id) && id in s.records && s.records[id].status.Active?
    requires u == WaivedRecord(s.removed, s.records[id])
    ensures var waived := set g | g in u.recipients && u.recipients[g].status.Waived?;
      WithoutDeliveries(s.delivery, id, Waives(s.removed, s.records[id])) == WithoutDeliveries(s.delivery, id, waived)
  {
    hide Latest;
    var gs := Waives(s.removed, s.records[id]);
    var waived := set g | g in u.recipients && u.recipients[g].status.Waived?;
    forall slot | slot in s.delivery && slot.id == id
      ensures slot.generation in gs <==> slot.generation in waived
    {
      assert SlotOk(s, Slot(slot.generation, id));
    }
  }

  // Saving an event whose removals changed nothing, or not saving it, leaves the store normalize describes.
  lemma UpdatedAsWaived(w: World, id: EventId, u: Record, changed: bool)
    requires EventOk(w, id) && id in w.store.records && w.store.records[id].status.Active?
    requires u == WaivedRecord(w.store.removed, w.store.records[id])
    requires changed <==> Waives(w.store.removed, w.store.records[id]) != {}
    ensures w.store.(delivery := WithoutDeliveries(w.store.delivery, id, Waives(w.store.removed, w.store.records[id])),
                     records := if changed then w.store.records[id := u] else w.store.records)
         == Updated(w.store, id, u)
  {
    hide WaivedRecord, Waives, WithoutDeliveries;
    var s := w.store;
    WaivedDeliveries(s, id, u);
    if !changed {
      WaivesNothing(s.removed, s.records[id]);
      assert s.records[id := u] == s.records;
    }
  }

  lemma OfferedOneMore(delivery: map<Slot, Time>, id: EventId, gs: set<Generation>, g: Generation, now: Time)
    ensures Offered(delivery, id, gs, now)[Slot(g, id) := now] == Offered(delivery, id, gs + {g}, now)
  {
  }

  // ---- materialisation -------------------------------------------------------

  // For an obligation still pending, the store and the log know the same removal.
  lemma RemovalKnown(w: World, slot: Slot)
    requires TombstoneInv(w) && SubscriptionInv(w) && Owed(w.store, slot)
    ensures slot.generation in w.store.removed <==> slot.generation in w.log.removals
    ensures slot.generation in w.store.removed ==> w.store.removed[slot.generation] == w.log.removals[slot.generation]
  {
  }

  lemma WaivesExact(w: World, id: EventId, g: Generation)
    requires Inv(w) && id in w.store.records && w.store.records[id].status.Active?
    requires id in w.log.emissions && g in w.store.records[id].recipients
    ensures var r := w.store.records[id];
      && (g in Waives(w.store.removed, r) <==> r.recipients[g].status.Pending? && ResolutionTime(w.log, id, g).Some?)
      && (g in Waives(w.store.removed, r) ==> ResolutionTime(w.log, id, g) == Some(w.store.removed[g]))
  {
    var r := w.store.records[id];
    assert EventOk(w, id);
    assert RecordAgrees(w.policy, w.log, id, r, w.clock);
    assert RecipientAgrees(w.log, id, g, r.recipients[g]);
    if r.recipients[g].status.Pending? {
      assert Owed(w.store, Slot(g, id));
      RemovalKnown(w, Slot(g, id));
    }
  }

  // The removals on record are, for every pending obligation, exactly the ones that resolve it.
  ghost predicate RemovalsExact(log: Log, id: EventId, r: Record, removed: map<Generation, Time>)
    requires id in log.emissions
  {
    var gs := Waives(removed, r);
    && (forall g ::
      g in r.recipients ==> (g in gs <==> r.recipients[g].status.Pending? && ResolutionTime(log, id, g).Some?))
    && (forall g :: g in gs ==> ResolutionTime(log, id, g) == Some(removed[g]))
  }

  ghost predicate UpToDate(log: Log, id: EventId, r: Record) {
    && ActiveAgrees(log, id, r)
    && (forall g :: g in r.recipients ==> r.recipients[g].status == EagerObligation(log, id, g))
    && r.resolvedAt == LastResolution(log, id)
  }

  // Applying the removals on record brings an active record exactly up to the log.
  lemma WaivedIsEager(log: Log, id: EventId, r: Record, removed: map<Generation, Time>)
    requires ActiveAgrees(log, id, r) && RemovalsExact(log, id, r, removed)
    ensures UpToDate(log, id, WaivedRecord(removed, r))
  {
    var u := WaivedRecord(removed, r);
    var e := log.emissions[id];
    var gs := Waives(removed, r);
    forall g | g in r.recipients
      ensures u.recipients[g].status == EagerObligation(log, id, g)
      ensures RecipientAgrees(log, id, g, u.recipients[g])
    {
      assert RecipientAgrees(log, id, g, r.recipients[g]);
    }
    WaivedLatest(log, id, r, removed, gs);
    LatestUnique(u.resolvedAt, LastResolution(log, id), e.createdAt, Resolutions(log, id));
    assert ResolvedTimes(log, id, u) == Resolutions(log, id);
  }

  lemma RecordWaivedIsEager(w: World, id: EventId)
    requires Inv(w) && id in w.store.records && w.store.records[id].status.Active?
    ensures UpToDate(w.log, id, WaivedRecord(w.store.removed, w.store.records[id]))
  {
    var r := w.store.records[id];
    assert EventOk(w, id);
    assert RecordAgrees(w.policy, w.log, id, r, w.clock);
    forall g | g in r.recipients
      ensures g in Waives(w.store.removed, r) <==> r.recipients[g].status.Pending? && ResolutionTime(w.log, id, g).Some?
      ensures g in Waives(w.store.removed, r) ==> ResolutionTime(w.log, id, g) == Some(w.store.removed[g])
    {
      WaivesExact(w, id, g);
    }
    WaivedIsEager(w.log, id, r, w.store.removed);
  }

  // Raising the last resolution of a record by the removals it waives gives the last of all resolutions.
  lemma WaivedLatest(log: Log, id: EventId, r: Record, removed: map<Generation, Time>, gs: set<Generation>)
    requires ActiveAgrees(log, id, r)
    requires gs <= removed.Keys
    requires forall g :: g in gs ==> g in r.recipients
    requires forall g ::
      g in r.recipients ==> (g in gs <==> r.recipients[g].status.Pending? && ResolutionTime(log, id, g).Some?)
    requires forall g :: g in gs ==> ResolutionTime(log, id, g) == Some(removed[g])
    ensures IsLatest(Latest(r.resolvedAt, RemovalTimes(removed, gs)), log.emissions[id].createdAt, Resolutions(log, id))
  {
    var base := log.emissions[id].createdAt;
    var added := RemovalTimes(removed, gs);
    var before := ResolvedTimes(log, id, r);
    var all := Resolutions(log, id);
    var t := Latest(r.resolvedAt, added);
    assert forall g :: g in all ==> (g in added && added[g] == all[g]) || (g in before && before[g] == all[g]);
    assert forall g :: g in added ==> g in all && all[g] == added[g];
    assert forall g :: g in before ==> g in all && all[g] == before[g];
  }

  lemma SettledIsEager(p: Policy, log: Log, id: EventId, r: Record, status: Status, at: Time)
    requires UpToDate(log, id, r)
    ensures ViewOf(SettledRecord(p, r, status, at)) == EagerRecord(p, log, id, Done(status, at))
  {
  }

  lemma UpToDateOutcome(log: Log, id: EventId, r: Record, now: Time)
    requires UpToDate(log, id, r)
    ensures EagerOutcome(log, id, now) ==
      if Resolved(r) then Done(Completed, r.resolvedAt)
      else if Due(r.expiresAt, now) then Done(Expired, r.expiresAt.value)
      else Open
  {
  }
}
