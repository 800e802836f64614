/** What every reachable event store satisfies. */
module EventInvariant {
  import opened Basics
  import opened EventModel
  import opened EventRuns
  import opened EventEager

  // When the obligations this record shows as resolved were resolved.
  function ResolvedTimes(log: Log, id: EventId, r: Record): map<Generation, Time>
    requires id in log.emissions
  {
    map g | g in r.recipients && !r.recipients[g].status.Pending? && ResolutionTime(log, id, g).Some? ::
      ResolutionTime(log, id, g).value
  }

  // An active record tells no more than the log, and everything but removals not yet applied to it.
  ghost predicate ActiveAgrees(log: Log, id: EventId, r: Record) {
    && id in log.emissions
    && var e := log.emissions[id];
    && r.payload == e.payload && r.createdAt == e.createdAt && r.expiresAt == e.expiresAt
    && r.settledAt.None? && r.archiveUntil.None?
    && r.recipients.Keys == e.recipients.Keys
    && (forall g :: g in r.recipients ==> RecipientAgrees(log, id, g, r.recipients[g]))
    && IsLatest(r.resolvedAt, e.createdAt, ResolvedTimes(log, id, r))
  }

  predicate RecipientAgrees(log: Log, id: EventId, g: Generation, c: Recipient)
    requires id in log.emissions && g in log.emissions[id].recipients
  {
    && c.name == log.emissions[id].recipients[g]
    && (c.status.Acknowledged? <==> Slot(g, id) in log.acks)
    && (c.status.Waived? ==> ResolutionTime(log, id, g).Some?)
  }

  ghost predicate SettledAgrees(p: Policy, log: Log, id: EventId, r: Record, clock: Time) {
    && id in log.emissions
    && p.onCompletion.Archive?
    && var o := EagerOutcome(log, id, clock);
    && o.Done?
    && ViewOf(r) == EagerRecord(p, log, id, o)
  }

  ghost predicate RecordAgrees(p: Policy, log: Log, id: EventId, r: Record, clock: Time) {
    if r.status.Active? then ActiveAgrees(log, id, r) else SettledAgrees(p, log, id, r, clock)
  }

  ghost predicate GoneAgrees(p: Policy, log: Log, id: EventId, clock: Time)
    requires id in log.emissions
  {
    var o := EagerOutcome(log, id, clock);
    o.Done? && !Kept(p, o.at, clock)
  }

  // The delivery index holds exactly the pending obligations of active events, scored by their lease.
  predicate Owed(s: Store, slot: Slot) {
    HasRecipient(s, slot) && s.records[slot.id].status.Active? && RecipientOf(s, slot).status.Pending?
  }

  predicate SlotOk(s: Store, slot: Slot) {
    && (slot in s.delivery <==> Owed(s, slot))
    && (slot in s.delivery && RecipientOf(s, slot).leaseUntil.Some? ==>
      s.delivery[slot] == RecipientOf(s, slot).leaseUntil.value)
  }

  predicate LeaseOk(tokens: set<Token>, r: Record, c: Recipient) {
    && (c.leaseToken.Some? ==> c.leaseToken.value in tokens)
    && (c.leaseUntil.Some? ==> c.leaseToken.Some? && c.status.Pending? && r.status.Active?)
    && (c.leaseUntil.Some? && r.expiresAt.Some? ==> c.leaseUntil.value <= r.expiresAt.value)
  }

  // Every generation an event still waits for is registered, or its removal is still on record.
  ghost predicate TombstoneInv(w: World) {
    var s := w.store;
    && s.removed.Keys == s.retired.Keys
    && (forall g :: g in s.removed ==> g in w.log.removals && s.removed[g] == w.log.removals[g])
    && (forall slot :: Owed(s, slot) ==> slot.generation in s.removed || slot.generation in s.subscriptions.Values)
  }

  predicate IndexOk(s: Store, id: EventId) {
    && (id in s.deadlines <==> id in s.records && s.records[id].status.Active? && s.records[id].expiresAt.Some?)
    && (id in s.deadlines ==> s.records[id].expiresAt == Some(s.deadlines[id]))
    && (id in s.archives <==> id in s.records && !s.records[id].status.Active?)
    && (id in s.archives ==> s.records[id].settledAt == Some(s.archives[id]))
    && (id in s.archiveDeadlines <==> id in s.records && s.records[id].archiveUntil.Some?)
    && (id in s.archiveDeadlines ==> s.records[id].archiveUntil == Some(s.archiveDeadlines[id]))
  }

  // The log never runs ahead of the clock, and acknowledgements always beat the deadline.
  ghost predicate HistoryInv(log: Log, clock: Time) {
    && (forall g :: g in log.removals ==> g in log.generations && log.removals[g] <= clock)
    && (forall id, g :: id in log.emissions && g in log.emissions[id].recipients ==> g in log.generations)
    && (forall id :: id in log.emissions ==> log.emissions[id].createdAt <= clock)
    && (forall slot :: slot in log.acks ==> AckOk(log, clock, slot))
  }

  predicate AckOk(log: Log, clock: Time, slot: Slot)
    requires slot in log.acks
  {
    slot.id in log.emissions && log.acks[slot] <= clock && Before(log.acks[slot], log.emissions[slot.id].expiresAt)
  }

  predicate OneNameEach(subscriptions: map<Name, Generation>) {
    forall m, n :: m in subscriptions && n in subscriptions && subscriptions[m] == subscriptions[n] ==> m == n
  }

  ghost predicate SubscriptionInv(w: World) {
    var s := w.store;
    && |s.subscriptions| <= MAX_SUBSCRIPTIONS
    && OneNameEach(s.subscriptions)
    && (forall n ::
      n in s.subscriptions ==> s.subscriptions[n] in w.log.generations && s.subscriptions[n] !in w.log.removals)
    && HistoryInv(w.log, w.clock)
  }

  ghost predicate RecordOk(w: World, id: EventId) {
    && (id in w.store.records ==> RecordAgrees(w.policy, w.log, id, w.store.records[id], w.clock))
    && (id in w.log.emissions && id !in w.store.records ==> GoneAgrees(w.policy, w.log, id, w.clock))
  }

  ghost predicate SlotsOk(s: Store, id: EventId) {
    forall g :: SlotOk(s, Slot(g, id))
  }

  ghost predicate LeasesOk(w: World, id: EventId) {
    id in w.store.records ==>
      forall g :: g in w.store.records[id].recipients ==>
        LeaseOk(w.log.tokens, w.store.records[id], w.store.records[id].recipients[g])
  }

  ghost predicate EventOk(w: World, id: EventId) {
    RecordOk(w, id) && SlotsOk(w.store, id) && LeasesOk(w, id) && IndexOk(w.store, id)
  }

  ghost predicate Inv(w: World) {
    (forall id :: EventOk(w, id)) && TombstoneInv(w) && SubscriptionInv(w)
  }
}
