/** The invariant of the event queue is kept by each atomic step, and so by every run. */
module EventSteps {
  import opened Basics
  import opened EventModel
  import opened EventRuns
  import opened EventEager
  import opened EventInvariant
  import opened EventProofs

  ghost predicate SameBut<K(!new), V>(m: map<K, V>, n: map<K, V>, k: K) {
    forall j :: j != k ==> (j in m <==> j in n) && (j in m ==> m[j] == n[j])
  }

  ghost predicate SameSlotsBut(m: map<Slot, Time>, n: map<Slot, Time>, id: EventId) {
    forall slot: Slot :: slot.id != id ==> (slot in m <==> slot in n) && (slot in m ==> m[slot] == n[slot])
  }

  // Two stores that differ at most in what they say about one event.
  ghost predicate SameElsewhere(s: Store, t: Store, id: EventId) {
    && SameBut(s.records, t.records, id)
    && SameSlotsBut(s.delivery, t.delivery, id)
    && SameBut(s.deadlines, t.deadlines, id)
    && SameBut(s.archives, t.archives, id)
    && SameBut(s.archiveDeadlines, t.archiveDeadlines, id)
  }

  // Two stores that say the same about one event.
  ghost predicate SameAt(s: Store, t: Store, j: EventId) {
    && (j in s.records <==> j in t.records) && (j in s.records ==> s.records[j] == t.records[j])
    && (forall g ::
      (Slot(g, j) in s.delivery <==> Slot(g, j) in t.delivery)
        && (Slot(g, j) in s.delivery ==> s.delivery[Slot(g, j)] == t.delivery[Slot(g, j)]))
    && (j in s.deadlines <==> j in t.deadlines) && (j in s.deadlines ==> s.deadlines[j] == t.deadlines[j])
    && (j in s.archives <==> j in t.archives) && (j in s.archives ==> s.archives[j] == t.archives[j])
    && (j in s.archiveDeadlines <==> j in t.archiveDeadlines)
      && (j in s.archiveDeadlines ==> s.archiveDeadlines[j] == t.archiveDeadlines[j])
  }

  // An event nothing was said about stays right as long as its own history is what it was.
  lemma UntouchedStaysOk(w: World, v: World, j: EventId)
    requires EventOk(w, j) && SameAt(w.store, v.store, j)
    requires v.policy == w.policy && v.clock == w.clock && w.log.tokens <= v.log.tokens
    requires j in w.log.emissions <==> j in v.log.emissions
    requires j in w.log.emissions ==> SameEvent(w.log, v.log, j)
    ensures EventOk(v, j)
  {
    if j in w.log.emissions {
      SameEager(w.policy, w.log, v.log, j);
      if j in w.store.records && w.store.records[j].status.Active? {
        SameActive(w.log, v.log, j, w.store.records[j]);
      }
    }
    forall g ensures SlotOk(v.store, Slot(g, j)) {
      assert SlotOk(w.store, Slot(g, j));
    }
  }

  ghost predicate SameEvent(l: Log, m: Log, j: EventId) {
    && j in l.emissions && j in m.emissions && l.emissions[j] == m.emissions[j]
    && forall g :: g in l.emissions[j].recipients ==>
      ResolutionTime(l, j, g) == ResolutionTime(m, j, g) && (Slot(g, j) in l.acks <==> Slot(g, j) in m.acks)
  }

  // Eager answers depend on nothing but the resolutions of the event.
  lemma SameEager(p: Policy, l: Log, m: Log, j: EventId)
    requires SameEvent(l, m, j)
    ensures Resolutions(l, j) == Resolutions(m, j)
    ensures forall now :: EagerOutcome(l, j, now) == EagerOutcome(m, j, now)
    ensures forall o :: EagerRecord(p, l, j, o) == EagerRecord(p, m, j, o)
  {
  }

  lemma SameActive(l: Log, m: Log, j: EventId, r: Record)
    requires SameEvent(l, m, j) && ActiveAgrees(l, j, r)
    ensures ActiveAgrees(m, j, r)
  {
    assert forall g :: g in r.recipients ==> RecipientAgrees(l, j, g, r.recipients[g]);
    assert ResolvedTimes(l, j, r)
        == ResolvedTimes(m, j, r);
  }

  // ---- materialisation keeps the event consistent -----------------------------

  lemma PurgedElsewhere(s: Store, id: EventId, gs: set<Generation>)
    ensures SameElsewhere(s, Purged(s, id, gs), id)
  {
  }

  lemma ArchivedElsewhere(s: Store, id: EventId, kept: Record, at: Time)
    ensures SameElsewhere(s, Archived(s, id, kept, at), id)
  {
  }

  lemma SettledElsewhere(p: Policy, s: Store, id: EventId, r: Record, status: Status, at: Time, now: Time)
    ensures SameElsewhere(s, Settled(p, s, id, r, status, at, now), id)
  {
    PurgedElsewhere(s, id, r.recipients.Keys);
    ArchivedElsewhere(s, id, SettledRecord(p, r, status, at), at);
  }

  lemma UpdatedElsewhere(s: Store, id: EventId, u: Record)
    requires id in s.records
    ensures SameElsewhere(s, Updated(s, id, u), id)
  {
  }

  lemma ConcludedElsewhere(p: Policy, s: Store, id: EventId, u: Record, now: Time)
    requires id in s.records
    ensures SameElsewhere(s, Concluded(p, s, id, u, now), id)
  {
    if Resolved(u) {
      SettledElsewhere(p, s, id, u, Completed, u.resolvedAt, now);
    } else if Due(u.expiresAt, now) {
      SettledElsewhere(p, s, id, u, Expired, u.expiresAt.value, now);
    } else {
      UpdatedElsewhere(s, id, u);
    }
  }

  lemma NormalizedElsewhere(p: Policy, s: Store, id: EventId, now: Time)
    requires id in s.records
    ensures SameElsewhere(s, Normalized(p, s, id, now), id)
  {
    var r := s.records[id];
    PurgedElsewhere(s, id, r.recipients.Keys);
    ConcludedElsewhere(p, s, id, WaivedRecord(s.removed, r), now);
  }

  lemma PurgedOk(w: World, id: EventId)
    requires EventOk(w, id) && id in w.store.records && id in w.log.emissions
    requires GoneAgrees(w.policy, w.log, id, w.clock)
    ensures EventOk(w.(store := Purged(w.store, id, w.store.records[id].recipients.Keys)), id)
  {
  }

  lemma SettledSlots(p: Policy, s: Store, id: EventId, r: Record, status: Status, at: Time, now: Time)
    requires SlotsOk(s, id) && id in s.records && r.recipients.Keys == s.records[id].recipients.Keys && !status.Active?
    ensures SlotsOk(Settled(p, s, id, r, status, at, now), id)
  {
  }

  lemma PurgedIndex(s: Store, id: EventId, gs: set<Generation>)
    ensures IndexOk(Purged(s, id, gs), id)
  {
  }

  lemma ArchivedIndex(s: Store, id: EventId, kept: Record, at: Time)
    requires IndexOk(s, id) && id in s.records && s.records[id].archiveUntil.None?
    requires !kept.status.Active? && kept.settledAt == Some(at)
    ensures IndexOk(Archived(s, id, kept, at), id)
  {
  }

  lemma SettledIndex(p: Policy, s: Store, id: EventId, r: Record, status: Status, at: Time, now: Time)
    requires IndexOk(s, id) && id in s.records && s.records[id].status.Active? && s.records[id].archiveUntil.None?
    requires !status.Active?
    ensures IndexOk(Settled(p, s, id, r, status, at, now), id)
  {
    PurgedIndex(s, id, r.recipients.Keys);
    ArchivedIndex(s, id, SettledRecord(p, r, status, at), at);
  }

  // A record whose eager outcome is known is either archived as that outcome or rightly purged.
  lemma SettledOk(w: World, id: EventId, r: Record, status: Status, at: Time)
    requires EventOk(w, id) && id in w.store.records && w.store.records[id].status.Active?
    requires UpToDate(w.log, id, r) && EagerOutcome(w.log, id, w.clock) == Done(status, at) && !status.Active?
    requires forall g ::
      g in r.recipients ==> r.recipients[g].leaseToken.Some? ==> r.recipients[g].leaseToken.value in w.log.tokens
    requires r.recipients.Keys == w.store.records[id].recipients.Keys
    ensures EventOk(w.(store := Settled(w.policy, w.store, id, r, status, at, w.clock)), id)
  {
    var t := Settled(w.policy, w.store, id, r, status, at, w.clock);
    SettledIsEager(w.policy, w.log, id, r, status, at);
    SettledSlots(w.policy, w.store, id, r, status, at, w.clock);
    SettledIndex(w.policy, w.store, id, r, status, at, w.clock);
    assert RecordOk(w.(store := t), id);
  }

  lemma UpdatedSlots(s: Store, id: EventId)
    requires SlotsOk(s, id) && id in s.records && s.records[id].status.Active?
    ensures SlotsOk(Updated(s, id, WaivedRecord(s.removed, s.records[id])), id)
  {
  }

  lemma UpdatedOk(w: World, id: EventId)
    requires EventOk(w, id) && id in w.store.records && w.store.records[id].status.Active?
    requires UpToDate(w.log, id, WaivedRecord(w.store.removed, w.store.records[id]))
    ensures EventOk(w.(store := Updated(w.store, id, WaivedRecord(w.store.removed, w.store.records[id]))), id)
  {
    UpdatedSlots(w.store, id);
  }

  // ---- steps -----------------------------------------------------------------

  ghost predicate SameLogBut(l: Log, m: Log, id: EventId) {
    && m.emissions == l.emissions && m.removals == l.removals && l.tokens <= m.tokens
    && forall slot: Slot ::
      slot.id != id ==> (slot in m.acks <==> slot in l.acks) && (slot in m.acks ==> m.acks[slot] == l.acks[slot])
  }

  // A step that concerns one event and creates no obligation keeps the invariant if it keeps that event right.
  lemma OneEventStep(w: World, v: World, id: EventId)
    requires Inv(w) && EventOk(v, id) && SubscriptionInv(v)
    requires SameElsewhere(w.store, v.store, id) && v.policy == w.policy && v.clock == w.clock
    requires SameLogBut(w.log, v.log, id)
    requires SameRegistry(w.store, v.store)
    requires forall g :: Owed(v.store, Slot(g, id)) ==> Owed(w.store, Slot(g, id))
    ensures Inv(v)
  {
    forall j ensures EventOk(v, j) {
      if j != id {
        assert EventOk(w, j);
        UntouchedStaysOk(w, v, j);
      }
    }
    forall slot | Owed(v.store, slot)
      ensures slot.generation in v.store.removed || slot.generation in v.store.subscriptions.Values
    {
      assert slot == Slot(slot.generation, slot.id);
      assert Owed(w.store, slot);
    }
  }

  lemma TouchSettledOk(w: World, id: EventId)
    requires EventOk(w, id) && id in w.store.records && !w.store.records[id].status.Active?
    ensures EventOk(w.(store := Normalized(w.policy, w.store, id, w.clock)), id)
  {
  }

  lemma ConcludedOk(w: World, id: EventId, u: Record)
    requires EventOk(w, id) && id in w.store.records && w.store.records[id].status.Active?
    requires UpToDate(w.log, id, u) && (Resolved(u) || Due(u.expiresAt, w.clock))
    requires forall g ::
      g in u.recipients ==> u.recipients[g].leaseToken.Some? ==> u.recipients[g].leaseToken.value in w.log.tokens
    requires u.recipients.Keys == w.store.records[id].recipients.Keys
    ensures EventOk(w.(store := Concluded(w.policy, w.store, id, u, w.clock)), id)
  {
    UpToDateOutcome(w.log, id, u, w.clock);
    if Resolved(u) {
      SettledOk(w, id, u, Completed, u.resolvedAt);
    } else {
      SettledOk(w, id, u, Expired, u.expiresAt.value);
    }
  }

  // Whatever token the record still shows after its removals were applied was issued.
  lemma WaivedTokens(w: World, id: EventId)
    requires LeasesOk(w, id) && id in w.store.records
    ensures var u := WaivedRecord(w.store.removed, w.store.records[id]);
      && u.recipients.Keys == w.store.records[id].recipients.Keys
      && forall g ::
        g in u.recipients ==> u.recipients[g].leaseToken.Some? ==> u.recipients[g].leaseToken.value in w.log.tokens
  {
    hide Latest;
    var r := w.store.records[id];
    forall g | g in r.recipients ensures LeaseOk(w.log.tokens, r, r.recipients[g]) {
    }
  }

  lemma TouchActiveOk(w: World, id: EventId)
    requires EventOk(w, id) && id in w.store.records && w.store.records[id].status.Active?
    requires UpToDate(w.log, id, WaivedRecord(w.store.removed, w.store.records[id]))
    ensures EventOk(w.(store := Normalized(w.policy, w.store, id, w.clock)), id)
  {
    hide WaivedRecord, UpToDate, Updated, Settled, RecordOk, SlotsOk, LeasesOk, IndexOk;
    var u := WaivedRecord(w.store.removed, w.store.records[id]);
    if Resolved(u) || Due(u.expiresAt, w.clock) {
      WaivedTokens(w, id);
      ConcludedOk(w, id, u);
    } else {
      UpdatedOk(w, id);
    }
  }

  lemma ConcludedOwes(p: Policy, s: Store, id: EventId, u: Record, now: Time, slot: Slot)
    requires id in s.records && slot.id == id && Owed(Concluded(p, s, id, u, now), slot)
    ensures slot.generation in u.recipients && u.recipients[slot.generation].status.Pending?
  {
  }

  lemma NormalizedOwesNoMore(p: Policy, s: Store, id: EventId, now: Time, slot: Slot)
    requires id in s.records && slot.id == id && Owed(Normalized(p, s, id, now), slot)
    ensures Owed(s, slot)
  {
    if s.records[id].status.Active? {
      ConcludedOwes(p, s, id, WaivedRecord(s.removed, s.records[id]), now, slot);
    }
  }

  ghost predicate SameRegistry(s: Store, t: Store) {
    t.removed == s.removed && t.retired == s.retired && t.subscriptions == s.subscriptions
  }

  lemma ConcludedRegistry(p: Policy, s: Store, id: EventId, u: Record, now: Time)
    requires id in s.records
    ensures SameRegistry(s, Concluded(p, s, id, u, now))
  {
    hide Resolved, Settled, Updated;
    SettledRegistry(p, s, id, u, Completed, u.resolvedAt, now);
    if Due(u.expiresAt, now) {
      SettledRegistry(p, s, id, u, Expired, u.expiresAt.value, now);
    }
    UpdatedRegistry(s, id, u);
  }

  lemma SettledRegistry(p: Policy, s: Store, id: EventId, u: Record, status: Status, at: Time, now: Time)
    ensures SameRegistry(s, Settled(p, s, id, u, status, at, now))
  {
  }

  lemma UpdatedRegistry(s: Store, id: EventId, u: Record)
    requires id in s.records
    ensures SameRegistry(s, Updated(s, id, u))
  {
  }

  lemma NormalizedRegistry(p: Policy, s: Store, id: EventId, now: Time)
    requires id in s.records
    ensures SameRegistry(s, Normalized(p, s, id, now))
  {
    ConcludedRegistry(p, s, id, WaivedRecord(s.removed, s.records[id]), now);
  }

  lemma ArchiveDueIsGone(w: World, id: EventId)
    requires RecordOk(w, id) && id in w.store.records && Due(w.store.records[id].archiveUntil, w.clock)
    ensures id in w.log.emissions && GoneAgrees(w.policy, w.log, id, w.clock)
  {
  }

  lemma TouchKeepsInv(w: World, id: EventId)
    requires Inv(w) && Enabled(w, Touch(id))
    ensures Inv(Apply(w, Touch(id)))
  {
    assert EventOk(w, id);
    if w.store.records[id].status.Active? {
      RecordWaivedIsEager(w, id);
      TouchActiveOk(w, id);
    } else {
      TouchSettledOk(w, id);
    }
    NormalizedElsewhere(w.policy, w.store, id, w.clock);
    var v := Apply(w, Touch(id));
    forall g | Owed(v.store, Slot(g, id)) ensures Owed(w.store, Slot(g, id)) {
      NormalizedOwesNoMore(w.policy, w.store, id, w.clock, Slot(g, id));
    }
    NormalizedRegistry(w.policy, w.store, id, w.clock);
    OneEventStep(w, v, id);
  }

  lemma DropKeepsInv(w: World, id: EventId)
    requires Inv(w) && Enabled(w, Drop(id))
    ensures Inv(Apply(w, Drop(id)))
  {
    assert EventOk(w, id);
    ArchiveDueIsGone(w, id);
    PurgedOk(w, id);
    PurgedElsewhere(w.store, id, w.store.records[id].recipients.Keys);
    OneEventStep(w, Apply(w, Drop(id)), id);
  }

  // No event still waits for a generation whose delivery index is empty, so its tombstone may go.
  lemma ForgetKeepsInv(w: World, g: Generation)
    requires Inv(w) && Enabled(w, Forget(g))
    ensures Inv(Apply(w, Forget(g)))
  {
    var v := Apply(w, Forget(g));
    forall id ensures EventOk(v, id) {
      assert EventOk(w, id);
      UntouchedStaysOk(w, v, id);
    }
    forall slot | Owed(v.store, slot)
      ensures slot.generation in v.store.removed || slot.generation in v.store.subscriptions.Values
    {
      assert EventOk(w, slot.id) && SlotOk(w.store, Slot(slot.generation, slot.id));
      assert slot == Slot(slot.generation, slot.id);
    }
  }

  // Time alone never changes an outcome: what was settled stays settled the same way, and what was gone stays gone.
  lemma OutcomeSettles(log: Log, id: EventId, now: Time, later: Time)
    requires id in log.emissions && now <= later && EagerOutcome(log, id, now).Done?
    ensures EagerOutcome(log, id, later) == EagerOutcome(log, id, now)
  {
  }

  lemma TickKeepsInv(w: World, now: Time)
    requires Inv(w) && Enabled(w, Tick(now))
    ensures Inv(Apply(w, Tick(now)))
  {
    var v := Apply(w, Tick(now));
    forall id ensures EventOk(v, id) {
      assert EventOk(w, id);
      if id in w.log.emissions && EagerOutcome(w.log, id, w.clock).Done? {
        OutcomeSettles(w.log, id, w.clock, now);
      }
    }
  }

  lemma SubscribeKeepsInv(w: World, name: Name, g: Generation)
    requires Inv(w) && Enabled(w, Subscribe(name, g))
    ensures Inv(Apply(w, Subscribe(name, g)))
  {
    var v := Apply(w, Subscribe(name, g));
    forall id ensures EventOk(v, id) {
      assert EventOk(w, id);
      UntouchedStaysOk(w, v, id);
    }
    forall h | h in w.store.subscriptions.Values ensures h in v.store.subscriptions.Values {
      var n :| n in w.store.subscriptions && w.store.subscriptions[n] == h;
      assert v.store.subscriptions[n] == h;
    }
    forall slot | Owed(v.store, slot)
      ensures slot.generation in v.store.removed || slot.generation in v.store.subscriptions.Values
    {
      assert Owed(w.store, slot);
    }
  }

  // A removal recorded now cannot change an outcome already decided: every obligation of a completed event
  // is resolved, and the deadline of an expired one has passed.
  lemma RemovalTooLate(w: World, name: Name, g: Generation, j: EventId)
    requires Inv(w) && Enabled(w, Unsubscribe(name, g))
    requires j in w.log.emissions && EagerOutcome(w.log, j, w.clock).Done?
    ensures SameEvent(w.log, Apply(w, Unsubscribe(name, g)).log, j)
  {
  }

  lemma UnsubscribeActive(l: Log, j: EventId, r: Record, g: Generation, now: Time)
    requires ActiveAgrees(l, j, r) && g !in l.removals
    ensures ActiveAgrees(l.(removals := l.removals[g := now]), j, r)
  {
    var m := l.(removals := l.removals[g := now]);
    forall h | h in r.recipients
      ensures RecipientAgrees(m, j, h, r.recipients[h])
      ensures !r.recipients[h].status.Pending? ==> ResolutionTime(l, j, h) == ResolutionTime(m, j, h)
    {
      assert RecipientAgrees(l, j, h, r.recipients[h]);
    }
    assert ResolvedTimes(l, j, r)
        == ResolvedTimes(m, j, r);
  }

  lemma UnsubscribeEventOk(w: World, name: Name, g: Generation, j: EventId)
    requires Inv(w) && Enabled(w, Unsubscribe(name, g))
    ensures EventOk(Apply(w, Unsubscribe(name, g)), j)
  {
    var v := Apply(w, Unsubscribe(name, g));
    assert EventOk(w, j);
    if j in w.store.records && w.store.records[j].status.Active? {
      UnsubscribeActive(w.log, j, w.store.records[j], g, w.clock);
      forall h ensures SlotOk(v.store, Slot(h, j)) {
        assert SlotOk(w.store, Slot(h, j));
      }
    } else {
      if j in w.log.emissions {
        RemovalTooLate(w, name, g, j);
      }
      UntouchedStaysOk(w, v, j);
    }
  }

  lemma UnsubscribeKeepsInv(w: World, name: Name, g: Generation)
    requires Inv(w) && Enabled(w, Unsubscribe(name, g))
    ensures Inv(Apply(w, Unsubscribe(name, g)))
  {
    var v := Apply(w, Unsubscribe(name, g));
    forall j ensures EventOk(v, j) {
      UnsubscribeEventOk(w, name, g, j);
    }
    forall slot | Owed(v.store, slot)
      ensures slot.generation in v.store.removed || slot.generation in v.store.subscriptions.Values
    {
      assert Owed(w.store, slot);
      if slot.generation !in w.store.removed && slot.generation != g {
        var n :| n in w.store.subscriptions && w.store.subscriptions[n] == slot.generation;
        assert v.store.subscriptions[n] == slot.generation;
      }
    }
  }

  // ---- emission ----------------------------------------------------------------

  lemma EmittedSlots(s: Store, id: EventId, payload: Payload, expiresAt: Option<Time>, now: Time)
    requires id !in s.records && SlotsOk(s, id)
    ensures SlotsOk(Emitted(s, id, payload, expiresAt, now), id)
  {
  }

  lemma EmittedIndex(s: Store, id: EventId, payload: Payload, expiresAt: Option<Time>, now: Time)
    requires id !in s.records && IndexOk(s, id)
    ensures IndexOk(Emitted(s, id, payload, expiresAt, now), id)
  {
  }

  lemma EmittedActive(l: Log, id: EventId, r: Record)
    requires id in l.emissions && forall g :: Slot(g, id) !in l.acks
    requires l.emissions[id]
      == Emission(r.payload, r.createdAt, r.expiresAt, map g | g in r.recipients :: r.recipients[g].name)
    requires r.status.Active? && r.settledAt.None? && r.archiveUntil.None? && r.resolvedAt == r.createdAt
    requires forall g :: g in r.recipients ==> r.recipients[g].status.Pending?
    ensures ActiveAgrees(l, id, r)
  {
  }

  lemma EmittedAgrees(w: World, id: EventId, payload: Payload, ttl: Option<nat>)
    requires Enabled(w, Emit(id, payload, ttl))
    ensures var v := Apply(w, Emit(id, payload, ttl)); RecordOk(v, id) && LeasesOk(v, id)
  {
    hide Latest, Offered, ActiveAgrees;
    var v := Apply(w, Emit(id, payload, ttl));
    var r := v.store.records[id];
    assert v.log.emissions[id].recipients == map g | g in r.recipients :: r.recipients[g].name;
    EmittedActive(v.log, id, r);
  }

  lemma EmittedOk(w: World, id: EventId, payload: Payload, ttl: Option<nat>)
    requires EventOk(w, id) && Enabled(w, Emit(id, payload, ttl))
    ensures EventOk(Apply(w, Emit(id, payload, ttl)), id)
  {
    hide RecordOk, LeasesOk, SlotsOk, IndexOk, Emitted;
    var expiresAt := if ttl.Some? then Some(w.clock + ttl.value) else None;
    EmittedAgrees(w, id, payload, ttl);
    EmittedSlots(w.store, id, payload, expiresAt, w.clock);
    EmittedIndex(w.store, id, payload, expiresAt, w.clock);
  }

  lemma EmittedElsewhere(s: Store, id: EventId, payload: Payload, expiresAt: Option<Time>, now: Time)
    ensures SameElsewhere(s, Emitted(s, id, payload, expiresAt, now), id)
    ensures SameRegistry(s, Emitted(s, id, payload, expiresAt, now))
  {
  }

  lemma EmittedHistory(w: World, id: EventId, payload: Payload, ttl: Option<nat>)
    requires SubscriptionInv(w) && Enabled(w, Emit(id, payload, ttl))
    ensures SubscriptionInv(Apply(w, Emit(id, payload, ttl)))
  {
  }

  // Every obligation of a new emission belongs to a registered generation.
  lemma EmittedTombstones(w: World, id: EventId, payload: Payload, ttl: Option<nat>)
    requires TombstoneInv(w) && Enabled(w, Emit(id, payload, ttl))
    ensures TombstoneInv(Apply(w, Emit(id, payload, ttl)))
  {
  }

  lemma EmittedOthers(w: World, id: EventId, payload: Payload, ttl: Option<nat>, j: EventId)
    requires EventOk(w, j) && j != id && Enabled(w, Emit(id, payload, ttl))
    ensures EventOk(Apply(w, Emit(id, payload, ttl)), j)
  {
    EmittedElsewhere(w.store, id, payload, if ttl.Some? then Some(w.clock + ttl.value) else None, w.clock);
    UntouchedStaysOk(w, Apply(w, Emit(id, payload, ttl)), j);
  }

  lemma EmitKeepsInv(w: World, id: EventId, payload: Payload, ttl: Option<nat>)
    requires Inv(w) && Enabled(w, Emit(id, payload, ttl))
    ensures Inv(Apply(w, Emit(id, payload, ttl)))
  {
    forall j ensures EventOk(Apply(w, Emit(id, payload, ttl)), j) {
      assert EventOk(w, j);
      if j == id {
        EmittedOk(w, id, payload, ttl);
      } else {
        EmittedOthers(w, id, payload, ttl, j);
      }
    }
    EmittedHistory(w, id, payload, ttl);
    EmittedTombstones(w, id, payload, ttl);
  }

  // ---- leases --------------------------------------------------------------------

  lemma RelabelledActive(l: Log, id: EventId, r: Record, g: Generation, c: Recipient)
    requires ActiveAgrees(l, id, r) && g in r.recipients && r.recipients[g].status.Pending?
    requires c.status.Pending? && c.name == r.recipients[g].name
    ensures ActiveAgrees(l, id, r.(recipients := r.recipients[g := c]))
  {
  }

  lemma RelabelledSlots(s: Store, slot: Slot, c: Recipient, score: Time)
    requires SlotsOk(s, slot.id) && Owed(s, slot) && c.status.Pending?
    requires (c.leaseUntil.Some? ==> score == c.leaseUntil.value)
    ensures SlotsOk(Relabelled(s, slot, c, score), slot.id)
    ensures forall g :: Owed(Relabelled(s, slot, c, score), Slot(g, slot.id)) ==> Owed(s, Slot(g, slot.id))
  {
  }

  lemma RelabelledElsewhere(s: Store, slot: Slot, c: Recipient, score: Time)
    requires slot.id in s.records
    ensures SameElsewhere(s, Relabelled(s, slot, c, score), slot.id) && SameRegistry(s, Relabelled(s, slot, c, score))
  {
  }

  lemma RelabelledIndex(s: Store, slot: Slot, c: Recipient, score: Time)
    requires slot.id in s.records && IndexOk(s, slot.id)
    ensures IndexOk(Relabelled(s, slot, c, score), slot.id)
  {
  }

  lemma RelabelledEvent(w: World, v: World, slot: Slot, c: Recipient, score: Time)
    requires EventOk(w, slot.id) && Owed(w.store, slot)
    requires c.status.Pending? && c.name == RecipientOf(w.store, slot).name
    requires LeaseOk(v.log.tokens, w.store.records[slot.id], c)
    requires c.leaseUntil.Some? ==> score == c.leaseUntil.value
    requires v == w.(store := Relabelled(w.store, slot, c, score), log := w.log.(tokens := v.log.tokens))
    requires w.log.tokens <= v.log.tokens
    ensures RecordOk(v, slot.id) && LeasesOk(v, slot.id)
  {
    var r := w.store.records[slot.id];
    SameActive(w.log, v.log, slot.id, r);
    RelabelledActive(v.log, slot.id, r, slot.generation, c);
    var r' := v.store.records[slot.id];
    assert r' == r.(recipients := r.recipients[slot.generation := c]);
    forall g | g in r'.recipients ensures LeaseOk(v.log.tokens, r', r'.recipients[g]) {
      assert g != slot.generation ==> LeaseOk(w.log.tokens, r, r.recipients[g]);
    }
  }

  lemma TokensKeepHistory(l: Log, m: Log, now: Time)
    requires HistoryInv(l, now) && m == l.(tokens := m.tokens)
    ensures HistoryInv(m, now)
  {
  }

  lemma RelabelledOk(w: World, v: World, slot: Slot, c: Recipient, score: Time)
    requires Inv(w) && Owed(w.store, slot)
    requires c.status.Pending? && c.name == RecipientOf(w.store, slot).name
    requires LeaseOk(v.log.tokens, w.store.records[slot.id], c)
    requires c.leaseUntil.Some? ==> score == c.leaseUntil.value
    requires v == w.(store := Relabelled(w.store, slot, c, score), log := w.log.(tokens := v.log.tokens))
    requires w.log.tokens <= v.log.tokens
    ensures Inv(v)
  {
    assert EventOk(w, slot.id);
    RelabelledEvent(w, v, slot, c, score);
    RelabelledSlots(w.store, slot, c, score);
    RelabelledIndex(w.store, slot, c, score);
    RelabelledElsewhere(w.store, slot, c, score);
    TokensKeepHistory(w.log, v.log, w.clock);
    assert SubscriptionInv(v);
    OneEventStep(w, v, slot.id);
  }

  lemma TakeKeepsInv(w: World, slot: Slot, name: Name, token: Token, lease: nat)
    requires Inv(w) && Enabled(w, Take(slot, name, token, lease))
    ensures Inv(Apply(w, Take(slot, name, token, lease)))
  {
    var until := LeaseEnd(w.store.records[slot.id], w.clock, lease);
    RelabelledOk(w, Apply(w, Take(slot, name, token, lease)), slot,
                 RecipientOf(w.store, slot).(leaseToken := Some(token), leaseUntil := Some(until)), until);
  }

  lemma RenewKeepsInv(w: World, slot: Slot, name: Name, token: Token, lease: nat)
    requires Inv(w) && Enabled(w, Renew(slot, name, token, lease))
    ensures Inv(Apply(w, Renew(slot, name, token, lease)))
  {
    assert EventOk(w, slot.id);
    var until := LeaseEnd(w.store.records[slot.id], w.clock, lease);
    RelabelledOk(w, Apply(w, Renew(slot, name, token, lease)), slot,
                 RecipientOf(w.store, slot).(leaseUntil := Some(until)), until);
  }

  lemma ReleaseKeepsInv(w: World, slot: Slot, name: Name, token: Token, delay: nat)
    requires Inv(w) && Enabled(w, Release(slot, name, token, delay))
    ensures Inv(Apply(w, Release(slot, name, token, delay)))
  {
    RelabelledOk(w, Apply(w, Release(slot, name, token, delay)), slot,
                 RecipientOf(w.store, slot).(leaseToken := None, leaseUntil := None), w.clock + delay);
  }

  lemma AcknowledgedActive(l: Log, id: EventId, r: Record, g: Generation, c: Recipient, now: Time)
    requires ActiveAgrees(l, id, r) && g in r.recipients && r.recipients[g].status.Pending?
    requires c.status.Acknowledged? && c.name == r.recipients[g].name
    requires l.emissions[id].createdAt <= now
    requires forall h :: h in r.recipients && ResolutionTime(l, id, h).Some? ==> ResolutionTime(l, id, h).value <= now
    ensures ActiveAgrees(l.(acks := l.acks[Slot(g, id) := now]), id,
                         r.(recipients := r.recipients[g := c], resolvedAt := now))
  {
    var m := l.(acks := l.acks[Slot(g, id) := now]);
    var r' := r.(recipients := r.recipients[g := c], resolvedAt := now);
    forall h | h in r'.recipients
      ensures RecipientAgrees(m, id, h, r'.recipients[h])
      ensures ResolutionTime(m, id, h).Some? ==> ResolutionTime(m, id, h).value <= now
    {
      assert RecipientAgrees(l, id, h, r.recipients[h]);
    }
    var times := ResolvedTimes(m, id, r');
    assert g in times && times[g] == now;
    assert IsLatest(now, r.createdAt, times);
  }

  lemma AcknowledgedSlots(s: Store, t: Store, slot: Slot)
    requires SlotsOk(s, slot.id) && Owed(s, slot)
    requires slot.id in t.records && t.records[slot.id].status.Active?
    requires t.delivery == s.delivery - {slot}
    requires t.records[slot.id].recipients.Keys == s.records[slot.id].recipients.Keys
    requires forall g ::
      g in s.records[slot.id].recipients && g != slot.generation ==>
        t.records[slot.id].recipients[g] == s.records[slot.id].recipients[g]
    requires !RecipientOf(t, slot).status.Pending?
    ensures SlotsOk(t, slot.id)
    ensures forall g :: Owed(t, Slot(g, slot.id)) ==> Owed(s, Slot(g, slot.id))
  {
  }

  lemma ResolutionsArePast(w: World, id: EventId, g: Generation)
    requires SubscriptionInv(w) && id in w.log.emissions && ResolutionTime(w.log, id, g).Some?
    ensures ResolutionTime(w.log, id, g).value <= w.clock
  {
  }

  lemma AcknowledgedEvent(w: World, slot: Slot, name: Name, token: Token)
    requires EventOk(w, slot.id) && SubscriptionInv(w) && Enabled(w, Acknowledge(slot, name, token))
    ensures EventOk(Apply(w, Acknowledge(slot, name, token)), slot.id)
    ensures forall g ::
      Owed(Apply(w, Acknowledge(slot, name, token)).store, Slot(g, slot.id)) ==> Owed(w.store, Slot(g, slot.id))
  {
    var v := Apply(w, Acknowledge(slot, name, token));
    var r := w.store.records[slot.id];
    forall h | h in r.recipients && ResolutionTime(w.log, slot.id, h).Some?
      ensures ResolutionTime(w.log, slot.id, h).value <= w.clock
    {
      ResolutionsArePast(w, slot.id, h);
    }
    AcknowledgedActive(w.log, slot.id, r, slot.generation, v.store.records[slot.id].recipients[slot.generation],
                       w.clock);
    AcknowledgedSlots(w.store, v.store, slot);
  }

  lemma AcknowledgedElsewhere(w: World, slot: Slot, name: Name, token: Token)
    requires Enabled(w, Acknowledge(slot, name, token))
    ensures var v := Apply(w, Acknowledge(slot, name, token));
      SameElsewhere(w.store, v.store, slot.id) && SameRegistry(w.store, v.store) && SameLogBut(w.log, v.log, slot.id)
  {
  }

  lemma AcknowledgedHistory(l: Log, slot: Slot, now: Time)
    requires HistoryInv(l, now) && slot.id in l.emissions && Before(now, l.emissions[slot.id].expiresAt)
    ensures HistoryInv(l.(acks := l.acks[slot := now]), now)
  {
  }

  lemma AcknowledgeKeepsInv(w: World, slot: Slot, name: Name, token: Token)
    requires Inv(w) && Enabled(w, Acknowledge(slot, name, token))
    ensures Inv(Apply(w, Acknowledge(slot, name, token)))
  {
    assert EventOk(w, slot.id);
    AcknowledgedEvent(w, slot, name, token);
    AcknowledgedElsewhere(w, slot, name, token);
    AcknowledgedHistory(w.log, slot, w.clock);
    OneEventStep(w, Apply(w, Acknowledge(slot, name, token)), slot.id);
  }

  // ---- whole runs ------------------------------------------------------------------

  lemma StepKeepsInv(w: World, a: Action)
    requires Inv(w) && Enabled(w, a)
    ensures Inv(Apply(w, a)) && Apply(w, a).policy == w.policy && w.clock <= Apply(w, a).clock
  {
    match a
    case Tick(now) => TickKeepsInv(w, now);
    case Subscribe(name, g) => SubscribeKeepsInv(w, name, g);
    case Unsubscribe(name, g) => UnsubscribeKeepsInv(w, name, g);
    case Emit(id, payload, ttl) => EmitKeepsInv(w, id, payload, ttl);
    case Touch(id) => TouchKeepsInv(w, id);
    case Drop(id) => DropKeepsInv(w, id);
    case Forget(g) => ForgetKeepsInv(w, g);
    case Take(slot, name, token, lease) => TakeKeepsInv(w, slot, name, token, lease);
    case Acknowledge(slot, name, token) => AcknowledgeKeepsInv(w, slot, name, token);
    case Renew(slot, name, token, lease) => RenewKeepsInv(w, slot, name, token, lease);
    case Release(slot, name, token, delay) => ReleaseKeepsInv(w, slot, name, token, delay);
  }

  lemma {:induction false} RunKeepsInv(w: World, acts: seq<Action>)
    requires Inv(w) && Legal(w, acts)
    ensures Inv(Run(w, acts)) && Run(w, acts).policy == w.policy && w.clock <= Run(w, acts).clock
    decreases |acts|
  {
    if acts != [] {
      StepKeepsInv(w, acts[0]);
      RunKeepsInv(Apply(w, acts[0]), acts[1..]);
    }
  }

  lemma InitialInv(p: Policy, clock: Time)
    ensures Inv(Initial(p, clock))
  {
  }

  // One more step at the end of a run.
  lemma RunExtend(w: World, acts: seq<Action>, a: Action)
    requires Inv(w) && Legal(w, acts) && Enabled(Run(w, acts), a)
    ensures Legal(w, acts + [a]) && Run(w, acts + [a]) == Apply(Run(w, acts), a) && Inv(Run(w, acts + [a]))
  {
    RunOne(Run(w, acts), a);
    RunAppend(w, acts, [a]);
    RunKeepsInv(w, acts + [a]);
  }
}
