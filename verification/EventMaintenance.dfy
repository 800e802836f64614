/** Why maintenance of the event queue ends: no pass adds work that is due, and a pass with work to do removes some. */
module EventMaintenance {
  import opened Basics
  import opened EventModel
  import opened EventRuns
  import opened EventInvariant
  import opened EventSteps

  datatype Work =
    | DueDeadline(id: EventId)
    | DueArchive(id: EventId)
    | RetiredGeneration(generation: Generation)
    | RetiredDelivery(slot: Slot)

  // Everything maintenance still has to do at this instant.
  ghost function WorkLeft(s: Store, now: Time): set<Work> {
    (set id | id in s.deadlines && s.deadlines[id] <= now :: DueDeadline(id)) +
    (set id | id in s.archiveDeadlines && s.archiveDeadlines[id] <= now :: DueArchive(id)) +
    (set g | g in s.retired :: RetiredGeneration(g)) +
    (set slot | slot in s.delivery && slot.generation in s.retired :: RetiredDelivery(slot))
  }

  // The flag the script reports.
  ghost predicate HasPending(s: Store, now: Time) {
    || s.retired != map[]
    || (exists id :: id in s.deadlines && s.deadlines[id] <= now)
    || (exists id :: id in s.archiveDeadlines && s.archiveDeadlines[id] <= now)
  }

  lemma PendingIsWorkLeft(s: Store, now: Time)
    ensures HasPending(s, now) <==> WorkLeft(s, now) != {}
  {
    if s.retired != map[] {
      var g :| g in s.retired;
      assert RetiredGeneration(g) in WorkLeft(s, now);
    }
    if id :| id in s.deadlines && s.deadlines[id] <= now {
      assert DueDeadline(id) in WorkLeft(s, now);
    }
    if id :| id in s.archiveDeadlines && s.archiveDeadlines[id] <= now {
      assert DueArchive(id) in WorkLeft(s, now);
    }
    if WorkLeft(s, now) != {} {
      var x :| x in WorkLeft(s, now);
    }
  }

  ghost predicate Shrinks(s: Store, t: Store, now: Time) {
    && (forall id :: id in t.deadlines && t.deadlines[id] <= now ==> id in s.deadlines && s.deadlines[id] <= now)
    && (forall id ::
      id in t.archiveDeadlines && t.archiveDeadlines[id] <= now ==>
        id in s.archiveDeadlines && s.archiveDeadlines[id] <= now)
    && (forall g :: g in t.retired ==> g in s.retired)
    && (forall slot :: slot in t.delivery ==> slot in s.delivery)
  }

  lemma ShrinksWork(s: Store, t: Store, now: Time)
    requires Shrinks(s, t, now)
    ensures WorkLeft(t, now) <= WorkLeft(s, now)
  {
  }

  lemma ArchivedShrinks(s: Store, id: EventId, kept: Record, at: Time, now: Time)
    requires !Due(kept.archiveUntil, now)
    ensures Shrinks(s, Archived(s, id, kept, at), now)
  {
  }

  lemma PurgedShrinks(s: Store, id: EventId, gs: set<Generation>, now: Time)
    ensures Shrinks(s, Purged(s, id, gs), now)
  {
  }

  lemma SettledShrinks(p: Policy, s: Store, id: EventId, r: Record, status: Status, at: Time, now: Time)
    ensures Shrinks(s, Settled(p, s, id, r, status, at, now), now)
  {
    if Kept(p, at, now) {
      ArchivedShrinks(s, id, SettledRecord(p, r, status, at), at, now);
    } else {
      PurgedShrinks(s, id, r.recipients.Keys, now);
    }
  }

  lemma NormalizedShrinks(p: Policy, s: Store, id: EventId, now: Time)
    requires id in s.records
    ensures Shrinks(s, Normalized(p, s, id, now), now)
  {
    if s.records[id].status.Active? {
      var u := WaivedRecord(s.removed, s.records[id]);
      if Resolved(u) {
        SettledShrinks(p, s, id, u, Completed, u.resolvedAt, now);
      } else if Due(u.expiresAt, now) {
        SettledShrinks(p, s, id, u, Expired, u.expiresAt.value, now);
      }
    }
  }

  // At a fixed instant, materialising, purging and forgetting never make new work due.
  lemma NoWorkAdded(w: World, a: Action)
    requires Enabled(w, a) && (a.Touch? || a.Drop? || a.Forget?)
    ensures WorkLeft(Apply(w, a).store, w.clock) <= WorkLeft(w.store, w.clock)
  {
    if a.Touch? {
      NormalizedShrinks(w.policy, w.store, a.id, w.clock);
    }
    ShrinksWork(w.store, Apply(w, a).store, w.clock);
  }

  lemma ConcludedClearsDeadline(p: Policy, s: Store, id: EventId, u: Record, now: Time)
    requires id in s.records && Due(u.expiresAt, now)
    ensures id !in Concluded(p, s, id, u, now).deadlines
  {
  }

  lemma DeadlineIsActive(w: World, id: EventId)
    requires Inv(w) && id in w.store.deadlines
    ensures id in w.store.records && w.store.records[id].status.Active?
    ensures w.store.records[id].expiresAt == Some(w.store.deadlines[id])
  {
    assert EventOk(w, id);
  }

  lemma NoDeadlineNoWork(s: Store, id: EventId, now: Time)
    requires id !in s.deadlines
    ensures DueDeadline(id) !in WorkLeft(s, now)
  {
  }

  lemma TouchClearsDeadline(w: World, id: EventId)
    requires Inv(w) && id in w.store.deadlines && w.store.deadlines[id] <= w.clock
    ensures id in w.store.records && id !in Apply(w, Touch(id)).store.deadlines
    ensures DueDeadline(id) !in WorkLeft(Apply(w, Touch(id)).store, w.clock)
  {
    hide Inv, Concluded, WorkLeft;
    DeadlineIsActive(w, id);
    ConcludedClearsDeadline(w.policy, w.store, id, WaivedRecord(w.store.removed, w.store.records[id]), w.clock);
    NoDeadlineNoWork(Apply(w, Touch(id)).store, id, w.clock);
  }

  lemma DropClears(w: World, id: EventId)
    requires Inv(w) && id in w.store.archiveDeadlines && w.store.archiveDeadlines[id] <= w.clock
    ensures Enabled(w, Drop(id))
    ensures Apply(w, Drop(id)).store.archiveDeadlines == w.store.archiveDeadlines - {id}
    ensures DueArchive(id) !in WorkLeft(Apply(w, Drop(id)).store, w.clock)
  {
    assert EventOk(w, id);
    DroppedWork(w.store, id, w.store.records[id].recipients.Keys, w.clock);
  }

  lemma DroppedWork(s: Store, id: EventId, gs: set<Generation>, now: Time)
    ensures DueArchive(id) !in WorkLeft(Purged(s, id, gs), now)
  {
  }

  lemma ConcludedOwesLate(p: Policy, s: Store, id: EventId, u: Record, now: Time, slot: Slot)
    requires id in s.records && slot.id == id && Owed(Concluded(p, s, id, u, now), slot)
    ensures slot.generation in u.recipients && u.recipients[slot.generation].status.Pending? && !Due(u.expiresAt, now)
  {
  }

  lemma NormalizedOwesNothingRemoved(w: World, slot: Slot)
    requires Inv(w) && slot.generation in w.store.removed && slot.id in w.store.records
    ensures !Owed(Normalized(w.policy, w.store, slot.id, w.clock), slot)
  {
    var r := w.store.records[slot.id];
    assert w.store.removed[slot.generation] <= w.clock;
    if r.status.Active? && Owed(Normalized(w.policy, w.store, slot.id, w.clock), slot) {
      ConcludedOwesLate(w.policy, w.store, slot.id, WaivedRecord(w.store.removed, r), w.clock, slot);
    }
  }

  // Once an event has been materialised it owes nothing to a removed generation: either the removal resolved the
  // obligation, or the deadline had passed before it.
  lemma TouchClearsRemoved(w: World, slot: Slot)
    requires Inv(w) && slot.generation in w.store.removed && slot.id in w.store.records
    ensures slot !in Apply(w, Touch(slot.id)).store.delivery
  {
    StepKeepsInv(w, Touch(slot.id));
    var v := Apply(w, Touch(slot.id));
    assert EventOk(v, slot.id) && SlotOk(v.store, Slot(slot.generation, slot.id));
    if Owed(v.store, slot) {
      NormalizedOwesNothingRemoved(w, slot);
    }
  }

  lemma ElsewhereKeepsSlots(s: Store, t: Store, slot: Slot)
    requires SameElsewhere(s, t, slot.id)
    ensures forall other: Slot ::
      other.generation == slot.generation && other != slot && other in s.delivery ==> other in t.delivery
  {
  }

  lemma TouchClearsSlot(w: World, slot: Slot)
    requires Inv(w) && slot in w.store.delivery && slot.generation in w.store.removed
    ensures Enabled(w, Touch(slot.id))
    ensures var t := Apply(w, Touch(slot.id)).store;
      && SameRegistry(w.store, t)
      && slot !in t.delivery && t.delivery - {slot} == t.delivery
      && RetiredDelivery(slot) !in WorkLeft(t, w.clock)
      && WorkLeft(t, w.clock) <= WorkLeft(w.store, w.clock)
      && forall other: Slot ::
        other.generation == slot.generation && other != slot && other in w.store.delivery ==> other in t.delivery
  {
    assert EventOk(w, slot.id) && SlotOk(w.store, Slot(slot.generation, slot.id));
    ghost var t := Normalized(w.policy, w.store, slot.id, w.clock);
    TouchClearsRemoved(w, slot);
    NoWorkAdded(w, Touch(slot.id));
    NormalizedRegistry(w.policy, w.store, slot.id, w.clock);
    NormalizedElsewhere(w.policy, w.store, slot.id, w.clock);
    ElsewhereKeepsSlots(w.store, t, slot);
    NoWorkWithout(t, slot, w.clock);
  }

  lemma NoWorkWithout(t: Store, slot: Slot, now: Time)
    requires slot !in t.delivery
    ensures t.delivery - {slot} == t.delivery && RetiredDelivery(slot) !in WorkLeft(t, now)
  {
  }

  // Maintenance at a fixed instant.
  predicate IsQuiet(a: Action) {
    a.Touch? || a.Drop? || a.Forget?
  }

  predicate AllQuiet(acts: seq<Action>) {
    forall a :: a in acts ==> IsQuiet(a)
  }

  // What a sweep guarantees about the run it made.
  ghost predicate Swept(w: World, acts: seq<Action>, v: World) {
    && Legal(w, acts) && v == Run(w, acts) && Inv(v) && AllQuiet(acts)
    && v.clock == w.clock && v.log == w.log && v.policy == w.policy
    && WorkLeft(v.store, w.clock) <= WorkLeft(w.store, w.clock)
  }

  lemma {:induction false} QuietKeepsSubscriptions(w: World, acts: seq<Action>)
    requires Legal(w, acts) && AllQuiet(acts)
    ensures Run(w, acts).store.subscriptions == w.store.subscriptions
    decreases |acts|
  {
    if acts != [] {
      assert acts[0] in acts && forall a :: a in acts[1..] ==> a in acts;
      if acts[0].Touch? {
        NormalizedRegistry(w.policy, w.store, acts[0].id, w.clock);
      }
      QuietKeepsSubscriptions(Apply(w, acts[0]), acts[1..]);
    }
  }

  lemma SweptNone(w: World)
    requires Inv(w)
    ensures Swept(w, [], w)
  {
  }

  lemma SweptMore(w: World, acts: seq<Action>, v: World, a: Action)
    requires Inv(w) && Swept(w, acts, v) && Enabled(v, a) && IsQuiet(a)
    ensures Swept(w, acts + [a], Apply(v, a))
  {
    RunExtend(w, acts, a);
    NoWorkAdded(v, a);
  }

  lemma SweptThen(w: World, xs: seq<Action>, v: World, ys: seq<Action>, u: World)
    requires Inv(w) && Swept(w, xs, v) && Swept(v, ys, u)
    ensures Swept(w, xs + ys, u)
  {
    RunAppend(w, xs, ys);
  }

  lemma ForgottenIsNoWork(s: Store, g: Generation, now: Time)
    ensures RetiredGeneration(g) !in WorkLeft(s.(retired := s.retired - {g}, removed := s.removed - {g}), now)
  {
  }

  lemma RetiredIsRemoved(w: World, g: Generation)
    requires Inv(w) && g in w.store.retired
    ensures g in w.store.removed
  {
  }

  lemma RemovedDeliveryIsWork(w: World, slot: Slot)
    requires Inv(w) && slot in w.store.delivery && slot.generation in w.store.removed
    ensures RetiredDelivery(slot) in WorkLeft(w.store, w.clock)
  {
  }

  lemma RetiredIsWork(s: Store, g: Generation, now: Time)
    requires g in s.retired
    ensures RetiredGeneration(g) in WorkLeft(s, now)
  {
  }

  // ---- what one pass may cost ------------------------------------------------------------------

  // The three parts of a pass: overdue events, expired archives, and what removed generations still appear in.
  datatype Pass = Pass(overdue: seq<Action>, archived: seq<Action>, removed: seq<Action>)

  function StepsOf(pass: Pass): seq<Action> {
    pass.overdue + pass.archived + pass.removed
  }

  // How many events a stretch of maintenance materialises.
  function Touches(acts: seq<Action>): nat {
    if acts == [] then 0 else (if acts[0].Touch? then 1 else 0) + Touches(acts[1..])
  }

  // Each kind has a budget of its own, so none can starve another.
  ghost predicate Bounded(pass: Pass, batch: nat) {
    && |pass.overdue| <= batch && (forall a :: a in pass.overdue ==> a.Touch?)
    && |pass.archived| <= batch && (forall a :: a in pass.archived ==> a.Drop?)
    && Touches(pass.removed) <= batch && (forall a :: a in pass.removed ==> a.Touch? || a.Forget?)
  }

  function Processed(pass: Pass): nat {
    |pass.overdue| + |pass.archived| + Touches(pass.removed)
  }

  lemma {:induction false} TouchesAppend(xs: seq<Action>, ys: seq<Action>)
    ensures Touches(xs + ys) == Touches(xs) + Touches(ys)
    decreases |xs|
  {
    if xs == [] {
      assert xs + ys == ys;
    } else {
      assert (xs + ys)[0] == xs[0] && (xs + ys)[1..] == xs[1..] + ys;
      TouchesAppend(xs[1..], ys);
    }
  }

  lemma NoTouches(acts: seq<Action>)
    requires acts == [] || (|acts| == 1 && acts[0].Forget?)
    ensures Touches(acts) == 0
  {
  }

  lemma {:induction false} AllTouches(acts: seq<Action>)
    requires forall a :: a in acts ==> a.Touch?
    ensures Touches(acts) == |acts|
    decreases |acts|
  {
    if acts != [] {
      assert acts[0] in acts && forall a :: a in acts[1..] ==> a in acts;
      AllTouches(acts[1..]);
    }
  }

  lemma SameWorkSamePending(s: Store, t: Store, now: Time)
    requires WorkLeft(s, now) == WorkLeft(t, now)
    ensures forall id :: id in s.deadlines && s.deadlines[id] <= now ==> id in t.deadlines && t.deadlines[id] <= now
    ensures forall id ::
      id in s.archiveDeadlines && s.archiveDeadlines[id] <= now ==>
        id in t.archiveDeadlines && t.archiveDeadlines[id] <= now
    ensures s.retired != map[] ==> t.retired != map[]
  {
    forall id | id in s.deadlines && s.deadlines[id] <= now ensures id in t.deadlines && t.deadlines[id] <= now {
      assert DueDeadline(id) in WorkLeft(s, now);
    }
    forall id | id in s.archiveDeadlines && s.archiveDeadlines[id] <= now
      ensures id in t.archiveDeadlines && t.archiveDeadlines[id] <= now
    {
      assert DueArchive(id) in WorkLeft(s, now);
    }
    if s.retired != map[] {
      var g :| g in s.retired;
      assert RetiredGeneration(g) in WorkLeft(s, now);
    }
  }
}
