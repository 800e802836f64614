/** The durable event script: Redis keys as fields, one method per registered operation. */
module EventQueue {
  import opened Basics
  import opened SortedIndex
  import opened EventModel
  import opened EventRuns
  import opened EventEager
  import opened EventInvariant
  import opened EventProofs
  import opened EventSteps
  import opened EventTheorems
  import opened EventMaintenance

  class EventQueue {
    // The policy persisted by the first call; every later caller must agree with it.
    const policy: Policy
    var subscriptions: map<Name, Generation>
    var removed: map<Generation, Time>
    var retired: map<Generation, Time>
    var records: map<EventId, Record>
    var delivery: map<Slot, Time>
    var deadlines: map<EventId, Time>
    var archives: map<EventId, Time>
    var archiveDeadlines: map<EventId, Time>
    ghost var log: Log
    ghost var clock: Time

    ghost function Contents(): Store
      reads this
    {
      Store(subscriptions, removed, retired, records, delivery, deadlines, archives, archiveDeadlines)
    }

    ghost function State(): World
      reads this
    {
      World(policy, Contents(), log, clock)
    }

    ghost predicate Valid()
      reads this
    {
      Inv(State())
    }

    constructor (p: Policy, ghost now: Time)
      ensures Valid() && State() == Initial(p, now)
    {
      policy := p;
      subscriptions, removed, retired, records := map[], map[], map[], map[];
      delivery, deadlines, archives, archiveDeadlines := map[], map[], map[], map[];
      log, clock := Log(map[], map[], map[], {}, {}), now;
      new;
      InitialInv(p, now);
    }

    // ---- helpers shared by the operations ---------------------------------------

    method Purge(id: EventId, record: Record)
      modifies this
      ensures Contents() == Purged(old(Contents()), id, record.recipients.Keys)
      ensures log == old(log) && clock == old(clock)
    {
      var todo := record.recipients.Keys;
      while todo != {}
        invariant todo <= record.recipients.Keys
        invariant Contents()
          == old(Contents()).(delivery := WithoutDeliveries(old(delivery), id, record.recipients.Keys - todo))
        invariant log == old(log) && clock == old(clock)
      {
        var g :| g in todo;
        delivery := delivery - {Slot(g, id)};
        todo := todo - {g};
        assert delivery == WithoutDeliveries(old(delivery), id, record.recipients.Keys - todo);
      }
      records := records - {id};
      deadlines := deadlines - {id};
      archives := archives - {id};
      archiveDeadlines := archiveDeadlines - {id};
      assert record.recipients.Keys - todo == record.recipients.Keys;
    }

    // The first half of settle: no recipient is leased and no delivery is due any more.
    method EndDeliveries(id: EventId, r: Record) returns (record: Record)
      modifies `delivery
      ensures delivery == WithoutDeliveries(old(delivery), id, r.recipients.Keys)
      ensures record == r.(recipients := LeasesCleared(r.recipients))
    {
      record := r;
      var todo := r.recipients.Keys;
      while todo != {}
        invariant todo <= r.recipients.Keys
        invariant record == r.(recipients := record.recipients) && record.recipients.Keys == r.recipients.Keys
        invariant forall g ::
          g in r.recipients ==>
            record.recipients[g] == if g in todo then r.recipients[g] else r.recipients[g].(leaseUntil := None)
        invariant delivery == WithoutDeliveries(old(delivery), id, r.recipients.Keys - todo)
      {
        var g :| g in todo;
        delivery := delivery - {Slot(g, id)};
        record := record.(recipients := record.recipients[g := record.recipients[g].(leaseUntil := None)]);
        todo := todo - {g};
      }
      assert record.recipients == LeasesCleared(r.recipients);
      assert r.recipients.Keys - todo == r.recipients.Keys;
    }

    method Settle(id: EventId, r: Record, status: Status, at: Time, now: Time) returns (record: Record)
      requires r.archiveUntil.None?
      modifies this
      ensures Contents() == Settled(policy, old(Contents()), id, r, status, at, now)
      ensures record == InMemory(policy, r, status, at)
      ensures log == old(log) && clock == old(clock)
    {
      ghost var gs := r.recipients.Keys;
      record := EndDeliveries(id, r.(status := status, settledAt := Some(at)));
      deadlines := deadlines - {id};
      ghost var settled := Contents();
      assert record.recipients.Keys == gs;
      if policy.onCompletion.Delete? {
        Purge(id, record);
        PurgeAgain(old(Contents()), settled, id, gs);
      } else {
        if policy.archiveRetention.Some? {
          record := record.(archiveUntil := Some(at + policy.archiveRetention.value));
        }
        assert record == SettledRecord(policy, r, status, at);
        if record.archiveUntil.Some? && record.archiveUntil.value <= now {
          Purge(id, record);
          PurgeAgain(old(Contents()), settled, id, gs);
        } else {
          records := records[id := record];
          archives := archives[id := at];
          if record.archiveUntil.Some? {
            archiveDeadlines := archiveDeadlines[id := record.archiveUntil.value];
          }
          assert Contents() == Archived(old(Contents()), id, record, at);
        }
      }
    }

    // The first half of normalize: the removals on record are applied to the obligations they beat the deadline of.
    method ApplyRemovals(id: EventId, r: Record) returns (record: Record, pending: nat, changed: bool)
      modifies `delivery
      ensures delivery == WithoutDeliveries(old(delivery), id, Waives(removed, r))
      ensures record == WaivedRecord(removed, r)
      ensures pending == 0 <==> Resolved(record)
      ensures changed <==> Waives(removed, r) != {}
    {
      hide Applied, WithoutDeliveries, WaivedRecord, NothingOwed;
      record, pending, changed := r, 0, false;
      ghost var gs, done := Waives(removed, r), {};
      var todo := r.recipients.Keys;
      AppliedNone(r, removed);
      NoneApplied(r, delivery, id, gs);
      while todo != {}
        invariant todo <= r.recipients.Keys && done == r.recipients.Keys - todo
        invariant Applied(r, removed, record, done)
        invariant pending == 0 <==> NothingOwed(r, gs, done)
        invariant changed <==> gs * done != {}
        invariant delivery == WithoutDeliveries(old(delivery), id, gs * done)
      {
        var g :| g in todo;
        AppliedElsewhere(r, removed, record, done, g);
        OwedOneMore(r, gs, done, g);
        var c := record.recipients[g];
        if c.status.Pending? && g in removed && Before(removed[g], record.expiresAt) {
          AppliedWaive(r, removed, record, done, g);
          DeliveriesOneLess(old(delivery), id, gs, done, g);
          var at := if record.resolvedAt < removed[g] then removed[g] else record.resolvedAt;
          record := record.(recipients := record.recipients[g := Waive(c)], resolvedAt := at);
          delivery := delivery - {Slot(g, id)};
          changed := true;
          assert g in gs * (done + {g});
        } else {
          AppliedSkip(r, removed, record, done, g);
          assert gs * (done + {g}) == gs * done;
          if c.status.Pending? {
            pending := pending + 1;
          }
        }
        todo, done := todo - {g}, done + {g};
      }
      assert done == r.recipients.Keys && gs * done == gs;
      AppliedAll(r, removed, record);
      NothingOwedIsResolved(r, removed);
    }

    method Normalize(id: EventId, now: Time) returns (record: Record)
      requires id in records && EventOk(State(), id)
      modifies this
      ensures Contents() == Normalized(policy, old(Contents()), id, now)
      ensures record == InHand(policy, old(removed), old(records)[id], now) && (id in records ==> record == records[id])
      ensures log == old(log) && clock == old(clock)
    {
      var r := records[id];
      if r.status.Active? {
        record := NormalizeActive(id, now);
      } else {
        record := r;
        if r.archiveUntil.Some? && r.archiveUntil.value <= now {
          Purge(id, r);
        }
      }
    }

    method NormalizeActive(id: EventId, now: Time) returns (record: Record)
      requires id in records && EventOk(State(), id) && records[id].status.Active?
      modifies this
      ensures Contents() == Concluded(policy, old(Contents()), id, WaivedRecord(old(removed), old(records)[id]), now)
      ensures record == ConcludedInHand(policy, WaivedRecord(old(removed), old(records)[id]), now)
      ensures id in records ==> record == records[id]
      ensures log == old(log) && clock == old(clock)
    {
      hide WaivedRecord, WithoutDeliveries, Settled, Updated, InMemory, EventOk, Waives;
      ghost var w := State();
      ghost var gs := Waives(removed, records[id]);
      WaivedShape(w, id);
      var r, pending, changed := ApplyRemovals(id, records[id]);
      ghost var waived := Contents();
      if pending == 0 {
        record := Settle(id, r, Completed, r.resolvedAt, now);
        SettledAfterWaiver(policy, w.store, waived, id, r, gs, Completed, r.resolvedAt, now);
      } else if r.expiresAt.Some? && r.expiresAt.value <= now {
        record := Settle(id, r, Expired, r.expiresAt.value, now);
        SettledAfterWaiver(policy, w.store, waived, id, r, gs, Expired, r.expiresAt.value, now);
      } else {
        record := r;
        if changed {
          records := records[id := r];
        }
        UpdatedAsWaived(w, id, r, changed);
      }
      StoredIsInHand(policy, w.store, id, r, now);
    }

    method Current(id: EventId, now: Time) returns (record: Option<Record>)
      requires Valid() && clock == now
      modifies this
      ensures Valid()
      ensures record == Observe(policy, old(Contents()), id, now)
      ensures State() == if id in old(records) then Apply(old(State()), Touch(id)) else old(State())
    {
      record := None;
      if id in records {
        assert EventOk(State(), id);
        StepKeepsInv(State(), Touch(id));
        var r := Normalize(id, now);
        if id in records {
          record := Some(r);
        }
      }
    }

    // ---- registration ------------------------------------------------------------

    method Subscribe(p: Policy, now: Time, name: Name, generation: Generation)
      returns (reply: Reply<Generation>, ghost acts: seq<Action>)
      requires Valid() && clock <= now
      requires name in subscriptions || generation !in log.generations
      modifies this
      ensures Valid() && Legal(old(State()), acts) && State() == Run(old(State()), acts) && clock == now
      ensures p != policy ==> reply == Failed(ConfigurationConflict) && Contents() == old(Contents())
      ensures p == policy && name in old(subscriptions) ==>
        reply == Ok(old(subscriptions)[name]) && Contents() == old(Contents())
      ensures p == policy && name !in old(subscriptions) ==>
        if |old(subscriptions)| < MAX_SUBSCRIPTIONS
        then reply == Ok(generation)
          && Contents() == old(Contents()).(subscriptions := old(subscriptions)[name := generation])
        else reply == Failed(CapacityExceeded) && Contents() == old(Contents())
    {
      ghost var w := State();
      acts := [Tick(now)];
      clock := now;
      RunOne(w, Tick(now));
      RunKeepsInv(w, acts);
      if p != policy {
        reply := Failed(ConfigurationConflict);
      } else if name in subscriptions {
        reply := Ok(subscriptions[name]);
      } else if |subscriptions| >= MAX_SUBSCRIPTIONS {
        reply := Failed(CapacityExceeded);
      } else {
        RunExtend(w, acts, Action.Subscribe(name, generation));
        acts := acts + [Action.Subscribe(name, generation)];
        subscriptions := subscriptions[name := generation];
        log := log.(generations := log.generations + {generation});
        reply := Ok(generation);
      }
    }

    // ---- inspection and ownership -----------------------------------------------

    // Reads the event as of now; the only changes are the ones time and removals already implied.
    method Locate(now: Time, id: EventId) returns (found: Option<Record>, ghost acts: seq<Action>)
      requires Valid() && clock <= now
      modifies this
      ensures Valid() && Legal(old(State()), acts) && State() == Run(old(State()), acts) && clock == now
      ensures AllMaintenance(acts) && log == old(log) && SameRegistry(old(Contents()), Contents())
      ensures found == Observe(policy, old(Contents()), id, now)
      ensures found.Some? <==> id in records
      ensures found.Some? ==>
        records[id] == found.value && (found.value.status.Active? ==> !Due(found.value.expiresAt, now))
    {
      ghost var w := State();
      acts := [Tick(now)];
      clock := now;
      RunOne(w, Tick(now));
      RunKeepsInv(w, acts);
      if id in records {
        RunExtend(w, acts, Touch(id));
        acts := acts + [Touch(id)];
        NormalizedRegistry(policy, Contents(), id, now);
      }
      found := Current(id, now);
      if found.Some? {
        ObservedNotOverdue(policy, w.store, id, now);
      }
    }

    method Get(p: Policy, now: Time, id: EventId) returns (reply: Reply<Option<Record>>, ghost acts: seq<Action>)
      requires Valid() && clock <= now
      modifies this
      ensures Valid() && Legal(old(State()), acts) && State() == Run(old(State()), acts) && clock == now
      ensures AllMaintenance(acts)
      ensures reply == if p != policy then Failed(ConfigurationConflict)
        else Ok(Observe(policy, old(Contents()), id, now))
    {
      if p != policy {
        acts := Advance(now);
        reply := Failed(ConfigurationConflict);
      } else {
        var found;
        found, acts := Locate(now, id);
        reply := Ok(found);
      }
    }

    // A refused call still happens at its own instant.
    ghost method Advance(now: Time) returns (acts: seq<Action>)
      requires Valid() && clock <= now
      modifies `clock
      ensures acts == [Tick(now)]
      ensures Valid() && Legal(old(State()), acts) && State() == Run(old(State()), acts) && clock == now
      ensures AllMaintenance(acts)
    {
      ghost var w := State();
      acts := [Tick(now)];
      clock := now;
      RunOne(w, Tick(now));
      RunKeepsInv(w, acts);
    }

    method Acknowledge(p: Policy, now: Time, slot: Slot, name: Name, token: Token)
      returns (reply: Reply<Acknowledgement>, ghost acts: seq<Action>)
      requires Valid() && clock <= now
      modifies this
      ensures Valid() && Legal(old(State()), acts) && State() == Run(old(State()), acts) && clock == now
      ensures var found, g := Observe(policy, old(Contents()), slot.id, now), slot.generation;
        var mine := p == policy && found.Some? && g in found.value.recipients
          && found.value.recipients[g].name == name && found.value.recipients[g].leaseToken == Some(token);
        && (reply == Failed(ConfigurationConflict) <==> p != policy)
        && (reply == Ok(Gone) <==> p == policy && found.None?)
        && (reply == Ok(AlreadyAccepted) <==> mine && found.value.recipients[g].status.Acknowledged?)
        && (reply == Failed(EventNotActive) <==>
              mine && !found.value.recipients[g].status.Acknowledged? && !found.value.status.Active?)
        && (reply == Ok(Accepted) <==>
              && mine && found.value.status.Active? && found.value.recipients[g].status.Pending?
              && found.value.recipients[g].leaseUntil.Some? && now < found.value.recipients[g].leaseUntil.value
              && name in old(subscriptions) && old(subscriptions)[name] == g)
      ensures reply.Failed? ==> reply.code in {ConfigurationConflict, EventNotActive, LeaseLost}
      ensures reply == Ok(Accepted) ==> Action.Acknowledge(slot, name, token) in acts
      ensures reply == Ok(Accepted) ==> log == old(log).(acks := old(log).acks[slot := now])
      ensures reply == Ok(Accepted) ==> forall later :: now <= later ==> ShowsAcknowledged(State(), slot, later)
      ensures reply != Ok(Accepted) ==> AllMaintenance(acts) && log == old(log)
    {
      hide ShowsAcknowledged;
      if p != policy {
        acts := Advance(now);
        return Failed(ConfigurationConflict), acts;
      }
      ghost var w := State();
      var found;
      found, acts := Locate(now, slot.id);
      if found.None? {
        return Ok(Gone), acts;
      }
      var record := found.value;
      var g := slot.generation;
      if g !in record.recipients || record.recipients[g].name != name
        || record.recipients[g].leaseToken != Some(token) {
        return Failed(LeaseLost), acts;
      }
      var c := record.recipients[g];
      if c.status.Acknowledged? {
        return Ok(AlreadyAccepted), acts;
      }
      if !record.status.Active? {
        return Failed(EventNotActive), acts;
      }
      if !c.status.Pending? || c.leaseUntil.None? || c.leaseUntil.value <= now
        || !(name in subscriptions && subscriptions[name] == g) {
        return Failed(LeaseLost), acts;
      }
      RunExtend(w, acts, Action.Acknowledge(slot, name, token));
      acts := acts + [Action.Acknowledge(slot, name, token)];
      MayActIsEmitted(State(), slot, name, token);
      Accept(slot, name, token, now);
      RunExtend(w, acts, Touch(slot.id));
      acts := acts + [Touch(slot.id)];
      var _ := Current(slot.id, now);
      forall later | now <= later ensures ShowsAcknowledged(State(), slot, later) {
        AcknowledgedIsShown(State(), slot, later);
      }
      reply := Ok(Accepted);
    }

    method Accept(slot: Slot, ghost name: Name, ghost token: Token, now: Time)
      requires Enabled(State(), Action.Acknowledge(slot, name, token)) && clock == now
      modifies this
      ensures State() == Apply(old(State()), Action.Acknowledge(slot, name, token))
    {
      var record := records[slot.id];
      var c := record.recipients[slot.generation].(status := Obligation.Acknowledged, leaseUntil := None);
      record := record.(recipients := record.recipients[slot.generation := c], resolvedAt := now);
      delivery := delivery - {slot};
      records := records[slot.id := record];
      log := log.(acks := log.acks[slot := now]);
    }

    // The checks renew and release share.
    method Refusal(p: Policy, now: Time, slot: Slot, name: Name, token: Token)
      returns (code: Option<Code>, ghost acts: seq<Action>)
      requires Valid() && clock <= now
      modifies this
      ensures Valid() && Legal(old(State()), acts) && State() == Run(old(State()), acts) && clock == now
      ensures AllMaintenance(acts) && log == old(log)
      ensures var found, g := Observe(policy, old(Contents()), slot.id, now), slot.generation;
        var mine := p == policy && found.Some? && g in found.value.recipients
          && found.value.recipients[g].name == name && found.value.recipients[g].leaseToken == Some(token);
        && (code == Some(ConfigurationConflict) <==> p != policy)
        && (code == Some(EventNotActive) <==> mine && !found.value.status.Active?)
        && (code == None <==>
              && mine && found.value.status.Active? && found.value.recipients[g].status.Pending?
              && found.value.recipients[g].leaseUntil.Some? && now < found.value.recipients[g].leaseUntil.value
              && name in old(subscriptions) && old(subscriptions)[name] == g)
      ensures code.Some? ==> code.value in {ConfigurationConflict, EventNotActive, LeaseLost}
      ensures code.None? ==> MayAct(Contents(), slot, name, token, now)
    {
      if p != policy {
        acts := Advance(now);
        return Some(ConfigurationConflict), acts;
      }
      var found;
      found, acts := Locate(now, slot.id);
      var g := slot.generation;
      if found.None? || g !in found.value.recipients || found.value.recipients[g].name != name
        || found.value.recipients[g].leaseToken != Some(token) {
        return Some(LeaseLost), acts;
      }
      if !found.value.status.Active? {
        return Some(EventNotActive), acts;
      }
      var c := found.value.recipients[g];
      if !c.status.Pending? || c.leaseUntil.None? || c.leaseUntil.value <= now
        || !(name in subscriptions && subscriptions[name] == g) {
        return Some(LeaseLost), acts;
      }
      code := None;
    }

    method Relabel(slot: Slot, c: Recipient, score: Time)
      requires slot.id in records
      modifies `records, `delivery
      ensures Contents() == Relabelled(old(Contents()), slot, c, score)
    {
      var record := records[slot.id];
      delivery := delivery[slot := score];
      records := records[slot.id := record.(recipients := record.recipients[slot.generation := c])];
    }

    method Renew(p: Policy, now: Time, slot: Slot, name: Name, token: Token, lease: nat)
      returns (reply: Reply<bool>, ghost acts: seq<Action>)
      requires Valid() && clock <= now
      modifies this
      ensures Valid() && Legal(old(State()), acts) && State() == Run(old(State()), acts) && clock == now
      ensures var found, g := Observe(policy, old(Contents()), slot.id, now), slot.generation;
        var mine := p == policy && found.Some? && g in found.value.recipients
          && found.value.recipients[g].name == name && found.value.recipients[g].leaseToken == Some(token);
        && (reply == Failed(ConfigurationConflict) <==> p != policy)
        && (reply == Failed(EventNotActive) <==> mine && !found.value.status.Active?)
        && (reply == Ok(true) <==>
              && mine && found.value.status.Active? && found.value.recipients[g].status.Pending?
              && found.value.recipients[g].leaseUntil.Some? && now < found.value.recipients[g].leaseUntil.value
              && name in old(subscriptions) && old(subscriptions)[name] == g)
      ensures reply == Ok(true) || reply in {Failed(ConfigurationConflict), Failed(EventNotActive), Failed(LeaseLost)}
      ensures reply == Ok(true) ==> Action.Renew(slot, name, token, lease) in acts
      ensures reply == Ok(true) && 0 < lease ==> Owns(Contents(), slot, token, now)
      ensures reply == Ok(true) ==> LentUntil(Contents(), slot, token, now, lease)
      ensures reply != Ok(true) ==> AllMaintenance(acts)
    {
      ghost var w := State();
      var code;
      code, acts := Refusal(p, now, slot, name, token);
      if code.Some? {
        return Failed(code.value), acts;
      }
      RunExtend(w, acts, Action.Renew(slot, name, token, lease));
      acts := acts + [Action.Renew(slot, name, token, lease)];
      RenewedOwns(State(), slot, name, token, lease);
      Extend(slot, name, token, lease, now);
      reply := Ok(true);
    }

    method Extend(slot: Slot, ghost name: Name, ghost token: Token, lease: nat, now: Time)
      requires Enabled(State(), Action.Renew(slot, name, token, lease)) && clock == now
      modifies `records, `delivery
      ensures State() == Apply(old(State()), Action.Renew(slot, name, token, lease))
    {
      var record := records[slot.id];
      var until := now + lease;
      if record.expiresAt.Some? {
        until := Min(until, record.expiresAt.value);
      }
      Relabel(slot, record.recipients[slot.generation].(leaseUntil := Some(until)), until);
    }

    method Release(p: Policy, now: Time, slot: Slot, name: Name, token: Token, delay: nat)
      returns (reply: Reply<bool>, ghost acts: seq<Action>)
      requires Valid() && clock <= now
      modifies this
      ensures Valid() && Legal(old(State()), acts) && State() == Run(old(State()), acts) && clock == now
      ensures var found, g := Observe(policy, old(Contents()), slot.id, now), slot.generation;
        var mine := p == policy && found.Some? && g in found.value.recipients
          && found.value.recipients[g].name == name && found.value.recipients[g].leaseToken == Some(token);
        && (reply == Failed(ConfigurationConflict) <==> p != policy)
        && (reply == Failed(EventNotActive) <==> mine && !found.value.status.Active?)
        && (reply == Ok(true) <==>
              && mine && found.value.status.Active? && found.value.recipients[g].status.Pending?
              && found.value.recipients[g].leaseUntil.Some? && now < found.value.recipients[g].leaseUntil.value
              && name in old(subscriptions) && old(subscriptions)[name] == g)
      ensures reply == Ok(true) || reply in {Failed(ConfigurationConflict), Failed(EventNotActive), Failed(LeaseLost)}
      ensures reply == Ok(true) ==> Action.Release(slot, name, token, delay) in acts
      ensures reply == Ok(true) ==>
        slot in delivery && delivery[slot] == now + delay && !Owns(Contents(), slot, token, now)
      ensures reply != Ok(true) ==> AllMaintenance(acts)
    {
      ghost var w := State();
      var code;
      code, acts := Refusal(p, now, slot, name, token);
      if code.Some? {
        return Failed(code.value), acts;
      }
      RunExtend(w, acts, Action.Release(slot, name, token, delay));
      acts := acts + [Action.Release(slot, name, token, delay)];
      ReleasedDisowns(State(), slot, name, token, delay);
      GiveBack(slot, name, token, delay, now);
      reply := Ok(true);
    }

    method GiveBack(slot: Slot, ghost name: Name, ghost token: Token, delay: nat, now: Time)
      requires Enabled(State(), Action.Release(slot, name, token, delay)) && clock == now
      modifies `records, `delivery
      ensures State() == Apply(old(State()), Action.Release(slot, name, token, delay))
    {
      Relabel(slot, records[slot.id].recipients[slot.generation].(leaseToken := None, leaseUntil := None), now + delay);
    }

    // ---- emission --------------------------------------------------------------------

    // One pending recipient, and one delivery entry, for every registered subscription.
    method Capture(id: EventId, now: Time) returns (recipients: map<Generation, Recipient>)
      requires OneNameEach(subscriptions)
      modifies `delivery
      ensures recipients == map g | g in Captured(subscriptions) :: Fresh(Captured(subscriptions)[g])
      ensures delivery == Offered(old(delivery), id, subscriptions.Values, now)
    {
      recipients := map[];
      var todo := subscriptions.Keys;
      ghost var done: set<Generation> := {};
      assert Offered(delivery, id, {}, now) == delivery;
      while todo != {}
        invariant todo <= subscriptions.Keys
        invariant forall n :: n in subscriptions ==> (n in todo <==> subscriptions[n] !in done)
        invariant recipients.Keys == done && done <= subscriptions.Values
        invariant forall n :: n in subscriptions && n !in todo ==> recipients[subscriptions[n]] == Fresh(n)
        invariant delivery == Offered(old(delivery), id, done, now)
      {
        var n :| n in todo;
        var g := subscriptions[n];
        OfferedOneMore(old(delivery), id, done, g, now);
        recipients := recipients[g := Fresh(n)];
        delivery := delivery[Slot(g, id) := now];
        todo := todo - {n};
        done := done + {g};
      }
      assert done == subscriptions.Values;
      forall g | g in done ensures recipients[g] == Fresh(NameOf(subscriptions, g)) {
        var n := NameOf(subscriptions, g);
        assert n in subscriptions && subscriptions[n] == g;
      }
    }

    method StoreEmission(id: EventId, payload: Payload, ttl: Option<nat>, now: Time)
      requires OneNameEach(subscriptions) && Enabled(State(), Action.Emit(id, payload, ttl)) && clock == now
      modifies this
      ensures State() == Apply(old(State()), Action.Emit(id, payload, ttl))
    {
      ghost var names := Captured(subscriptions);
      var expiresAt := if ttl.Some? then Some(now + ttl.value) else None;
      var recipients := Capture(id, now);
      records := records[id := Record(payload, now, now, expiresAt, None, None, Active, recipients)];
      if expiresAt.Some? {
        deadlines := deadlines[id := expiresAt.value];
      }
      log := log.(emissions := log.emissions[id := Emission(payload, now, expiresAt, names)],
                  acks := map slot | slot in log.acks && slot.id != id :: log.acks[slot]);
    }

    method Emit(p: Policy, now: Time, id: EventId, payload: Payload, ttl: Option<nat>)
      returns (reply: Reply<Record>, ghost acts: seq<Action>)
      requires Valid() && clock <= now
      modifies this
      ensures Valid() && Legal(old(State()), acts) && State() == Run(old(State()), acts) && clock == now
      ensures p != policy ==> reply == Failed(ConfigurationConflict)
      ensures p == policy && id in old(records) ==> reply == Failed(InvalidInput)
      ensures reply.Failed? ==> Contents() == old(Contents()) && log == old(log)
      ensures p == policy && id !in old(records) ==>
        var expiresAt := if ttl.Some? then Some(now + ttl.value) else None;
        reply == Ok(AtOnce(policy, NewRecord(old(subscriptions), payload, expiresAt, now), now))
      ensures reply.Ok? ==> id in log.emissions
      ensures reply.Ok? ==>
        log.emissions[id].payload == payload && log.emissions[id].createdAt == now
          && log.emissions[id].recipients == Captured(old(subscriptions))
      ensures reply.Ok? && id in records ==> records[id] == reply.value
      ensures reply.Ok? ==> EmittedAs(policy, reply.value, old(subscriptions), payload, ttl, now)
      ensures reply.Ok? && reply.value.status.Active? ==>
        id in records && DueToAll(delivery, old(subscriptions), id, now)
    {
      hide Inv, Enabled, Apply, Legal, Normalized, InHand, AtOnce, NewRecord, Captured, DueToAll, SameScores;
      acts := Advance(now);
      if p != policy {
        return Failed(ConfigurationConflict), acts;
      }
      if id in records {
        return Failed(InvalidInput), acts;
      }
      ghost var w, v := old(State()), State();
      MayEmit(v, id, payload, ttl);
      RunExtend(w, acts, Action.Emit(id, payload, ttl));
      acts := acts + [Action.Emit(id, payload, ttl)];
      StoreEmission(id, payload, ttl, now);
      EmittedRecord(v, id, payload, ttl);
      ghost var u := State();
      TouchIsNormalizing(u, id);
      RunExtend(w, acts, Touch(id));
      acts := acts + [Touch(id)];
      var record := Normalize(id, now);
      AtOncePlainly(policy, w.store.subscriptions, payload, ttl, now);
      if record.status.Active? {
        OpenStaysStored(policy, u.store, id, now);
        EmittedIsDue(v, id, payload, ttl);
        NormalizedKeepsScores(policy, u.store, id, now);
        StillDueToAll(u.store, State(), w.store.subscriptions, id, now);
      }
      reply := Ok(record);
    }

    // ---- maintenance ------------------------------------------------------------------

    method SweepDeadlines(now: Time, batch: nat) returns (processed: nat, ghost acts: seq<Action>)
      requires Valid() && clock == now
      modifies this
      ensures Swept(old(State()), acts, State()) && processed <= batch
      ensures |acts| == processed && forall a :: a in acts ==> a.Touch?
      ensures 0 < batch && (exists id :: id in old(deadlines) && old(deadlines)[id] <= now) ==>
        WorkLeft(Contents(), now) < WorkLeft(old(Contents()), now)
    {
      ghost var w := State();
      var ids := DueBatch(deadlines, now, batch);
      processed, acts := 0, [];
      SweptNone(w);
      while processed < |ids|
        invariant processed <= |ids| && Swept(w, acts, State())
        invariant |acts| == processed && forall a :: a in acts ==> a.Touch?
        invariant forall k :: processed <= k < |ids| ==> ids[k] in deadlines && deadlines[ids[k]] <= now
        invariant 0 < processed ==> DueDeadline(ids[0]) !in WorkLeft(Contents(), now)
      {
        var id := ids[processed];
        ghost var v := State();
        TouchClearsDeadline(v, id);
        NormalizedElsewhere(policy, v.store, id, now);
        SweptMore(w, acts, v, Touch(id));
        NoWorkAdded(v, Touch(id));
        acts := acts + [Touch(id)];
        var _ := Current(id, now);
        processed := processed + 1;
      }
      if id :| id in w.store.deadlines && w.store.deadlines[id] <= now {
        if 0 < batch {
          assert id in ids || |ids| == batch;
          assert DueDeadline(ids[0]) in WorkLeft(w.store, now);
        }
      }
    }

    method DropArchive(id: EventId)
      requires Enabled(State(), Drop(id))
      modifies this
      ensures State() == Apply(old(State()), Drop(id))
    {
      Purge(id, records[id]);
    }

    method SweepArchives(now: Time, batch: nat) returns (processed: nat, ghost acts: seq<Action>)
      requires Valid() && clock == now
      modifies this
      ensures Swept(old(State()), acts, State()) && processed <= batch
      ensures |acts| == processed && forall a :: a in acts ==> a.Drop?
      ensures 0 < batch && (exists id :: id in old(archiveDeadlines) && old(archiveDeadlines)[id] <= now) ==>
        WorkLeft(Contents(), now) < WorkLeft(old(Contents()), now)
    {
      ghost var w := State();
      var ids := DueBatch(archiveDeadlines, now, batch);
      processed, acts := 0, [];
      SweptNone(w);
      while processed < |ids|
        invariant processed <= |ids| && Swept(w, acts, State())
        invariant |acts| == processed && forall a :: a in acts ==> a.Drop?
        invariant forall k :: processed <= k < |ids| ==> ids[k] in archiveDeadlines && archiveDeadlines[ids[k]] <= now
        invariant 0 < processed ==> DueArchive(ids[0]) !in WorkLeft(Contents(), now)
      {
        var id := ids[processed];
        ghost var v := State();
        DropClears(v, id);
        SweptMore(w, acts, v, Drop(id));
        NoWorkAdded(v, Drop(id));
        acts := acts + [Drop(id)];
        DropArchive(id);
        processed := processed + 1;
      }
      if id :| id in w.store.archiveDeadlines && w.store.archiveDeadlines[id] <= now {
        if 0 < batch {
          assert id in ids || |ids| == batch;
          assert DueArchive(ids[0]) in WorkLeft(w.store, now);
        }
      }
    }

    // Materialises up to limit of the events a removed generation still appears in.
    method SweepGeneration(g: Generation, now: Time, limit: nat) returns (count: nat, ghost acts: seq<Action>)
      requires Valid() && clock == now && g in removed && 0 < limit
      modifies this
      ensures Swept(old(State()), acts, State()) && count <= limit && SameRegistry(old(Contents()), Contents())
      ensures |acts| == count && forall a :: a in acts ==> a.Touch?
      ensures count == 0 ==> acts == [] && forall slot :: slot in delivery ==> slot.generation != g
      ensures 0 < count ==> WorkLeft(Contents(), now) < WorkLeft(old(Contents()), now)
    {
      hide Inv, WorkLeft, Legal;
      ghost var w := State();
      var mine := map slot | slot in delivery && slot.generation == g :: delivery[slot];
      var slots := Lowest(mine, limit);
      forall k | 0 <= k < |slots| ensures slots[k] in mine && slots[k] in delivery {
        assert slots[k] in slots;
      }
      count, acts := 0, [];
      SweptNone(w);
      while count < |slots|
        invariant count <= |slots| && Swept(w, acts, State()) && SameRegistry(w.store, Contents())
        invariant |acts| == count && (forall a :: a in acts ==> a.Touch?)
        invariant count == 0 ==> acts == [] && State() == w
        invariant forall k :: count <= k < |slots| ==> slots[k] in delivery
        invariant 0 < count ==> RetiredDelivery(slots[0]) !in WorkLeft(Contents(), now)
      {
        var slot := slots[count];
        ghost var v := State();
        assert slot in slots && slot in mine;
        TouchClearsSlot(v, slot);
        SweptMore(w, acts, v, Touch(slot.id));
        acts := acts + [Touch(slot.id)];
        var _ := Current(slot.id, now);
        assert State() == Apply(v, Touch(slot.id));
        delivery := delivery - {slot};
        count := count + 1;
        forall k | count <= k < |slots| ensures slots[k] in delivery {
          assert slots[k] in slots && slots[k] in mine && slots[k] != slot;
        }
      }
      if 0 < |slots| {
        assert slots[0] in slots && slots[0] in mine;
        RemovedDeliveryIsWork(w, slots[0]);
      } else {
        forall slot | slot in delivery ensures slot.generation != g {
          assert slot.generation == g ==> slot in mine;
        }
      }
    }

    // Drops the tombstone of a generation no delivery is left for.
    method ForgetIfDone(g: Generation) returns (ghost acts: seq<Action>)
      requires Valid() && g in retired
      modifies this
      ensures Swept(old(State()), acts, State())
      ensures retired == old(retired) || retired == old(retired) - {g}
      ensures acts == [] || acts == [Forget(g)]
      ensures (forall slot :: slot in old(delivery) ==> slot.generation != g) ==>
        RetiredGeneration(g) !in WorkLeft(Contents(), clock)
    {
      hide Inv, WorkLeft, Legal;
      ghost var w := State();
      acts := [];
      SweptNone(w);
      if forall slot :: slot in delivery ==> slot.generation != g {
        ForgottenIsNoWork(w.store, g, clock);
        SweptMore(w, acts, w, Forget(g));
        acts := acts + [Forget(g)];
        retired := retired - {g};
        removed := removed - {g};
      }
    }

    method SweepRetired(now: Time, batch: nat) returns (processed: nat, ghost acts: seq<Action>)
      requires Valid() && clock == now
      modifies this
      ensures Swept(old(State()), acts, State()) && processed <= batch
      ensures Touches(acts) == processed && forall a :: a in acts ==> a.Touch? || a.Forget?
      ensures 0 < batch && old(retired) != map[] ==> WorkLeft(Contents(), now) < WorkLeft(old(Contents()), now)
    {
      hide Inv, WorkLeft, Touches, Legal;
      ghost var w := State();
      var generations := Lowest(retired, batch);
      forall k | 0 <= k < |generations| ensures generations[k] in retired {
        assert generations[k] in generations;
      }
      var remaining, i := batch, 0;
      processed, acts := 0, [];
      NoTouches(acts);
      SweptNone(w);
      while i < |generations| && 0 < remaining
        invariant i <= |generations| && Swept(w, acts, State())
        invariant 0 <= remaining <= batch && processed + remaining <= batch
        invariant Touches(acts) == processed && forall a :: a in acts ==> a.Touch? || a.Forget?
        invariant i == 0 ==> remaining == batch && State() == w
        invariant forall k :: i <= k < |generations| ==> generations[k] in retired
        invariant 0 < i ==> WorkLeft(Contents(), now) < WorkLeft(w.store, now)
      {
        var g := generations[i];
        ghost var v := State();
        RetiredIsRemoved(v, g);
        var count;
        ghost var more, last;
        count, more := SweepGeneration(g, now, remaining);
        SweptThen(w, acts, v, more, State());
        AllTouches(more);
        TouchesAppend(acts, more);
        acts := acts + more;
        processed := processed + count;
        remaining := remaining - if count == 0 then 1 else count;
        ghost var u := State();
        last := ForgetIfDone(g);
        SweptThen(w, acts, u, last, State());
        NoTouches(last);
        TouchesAppend(acts, last);
        acts := acts + last;
        RetiredIsWork(v.store, g, now);
        i := i + 1;
      }
      if 0 < batch && w.store.retired != map[] {
        var g :| g in w.store.retired;
        assert g in generations || |generations| == batch;
      }
    }

    method Maintain(p: Policy, now: Time, batch: nat)
      returns (reply: Reply<(nat, bool)>, ghost acts: seq<Action>, ghost pass: Pass)
      requires Valid() && clock <= now
      modifies this
      ensures Valid() && Legal(old(State()), acts) && State() == Run(old(State()), acts) && clock == now
      ensures AllMaintenance(acts) && log == old(log)
      ensures p != policy ==> reply == Failed(ConfigurationConflict) && Contents() == old(Contents())
      ensures p == policy ==>
        reply.Ok? && acts == [Tick(now)] + StepsOf(pass) && Bounded(pass, batch) && reply.value.0 == Processed(pass)
      ensures p == policy ==> (reply.value.1 <==> WorkLeft(Contents(), now) != {})
      ensures p == policy ==>
        (reply.value.1 <==>
          || retired != map[] || (exists id :: id in deadlines && deadlines[id] <= now)
          || (exists id :: id in archiveDeadlines && archiveDeadlines[id] <= now))
      ensures WorkLeft(Contents(), now) <= WorkLeft(old(Contents()), now)
      ensures p == policy && 0 < batch && WorkLeft(old(Contents()), now) != {} ==>
        WorkLeft(Contents(), now) < WorkLeft(old(Contents()), now)
    {
      ghost var w := State();
      acts := Advance(now);
      if p != policy {
        return Failed(ConfigurationConflict), acts, Pass([], [], []);
      }
      ghost var v := State();
      var processed;
      ghost var more;
      processed, more, pass := Sweep(now, batch);
      RunAppend(w, acts, more);
      acts := acts + more;
      PendingIsWorkLeft(Contents(), now);
      var overdue := exists id :: id in deadlines && deadlines[id] <= now;
      var stale := exists id :: id in archiveDeadlines && archiveDeadlines[id] <= now;
      reply := Ok((processed, retired != map[] || overdue || stale));
    }

    // One bounded pass: overdue events, expired archives, removed generations, each with its own budget.
    method Sweep(now: Time, batch: nat) returns (processed: nat, ghost acts: seq<Action>, ghost pass: Pass)
      requires Valid() && clock == now
      modifies this
      ensures Swept(old(State()), acts, State())
      ensures acts == StepsOf(pass) && Bounded(pass, batch) && processed == Processed(pass)
      ensures 0 < batch && WorkLeft(old(Contents()), now) != {} ==>
        WorkLeft(Contents(), now) < WorkLeft(old(Contents()), now)
    {
      hide Inv, WorkLeft, Touches, Legal;
      ghost var w := State();
      var first, second, third;
      ghost var xs, ys, zs;
      first, xs := SweepDeadlines(now, batch);
      ghost var v := State();
      second, ys := SweepArchives(now, batch);
      SweptThen(w, xs, v, ys, State());
      ghost var u := State();
      third, zs := SweepRetired(now, batch);
      SweptThen(w, xs + ys, u, zs, State());
      processed, acts, pass := first + second + third, xs + ys + zs, Pass(xs, ys, zs);
      if 0 < batch && WorkLeft(w.store, now) != {} && WorkLeft(Contents(), now) == WorkLeft(w.store, now) {
        PendingIsWorkLeft(w.store, now);
        SameWorkSamePending(w.store, v.store, now);
        SameWorkSamePending(w.store, u.store, now);
        assert false;
      }
    }

    // Repeats maintenance while it reports pending work, as the queue's own maintenance loop does; at a fixed instant
    // the loop ends, and nothing due is left.
    method Drain(p: Policy, now: Time, batch: nat) returns (ghost acts: seq<Action>)
      requires Valid() && clock <= now && p == policy && 0 < batch
      modifies this
      ensures Valid() && Legal(old(State()), acts) && State() == Run(old(State()), acts) && clock == now
      ensures AllMaintenance(acts) && WorkLeft(Contents(), now) == {}
      ensures retired == map[] && (forall id :: id in deadlines ==> now < deadlines[id])
      ensures forall id :: id in archiveDeadlines ==> now < archiveDeadlines[id]
    {
      hide Inv, Legal, Run, Bounded, WorkLeft;
      ghost var w := State();
      var reply;
      ghost var pass;
      reply, acts, pass := Maintain(p, now, batch);
      while reply.value.1
        invariant Valid() && Legal(w, acts) && State() == Run(w, acts) && clock == now && AllMaintenance(acts)
        invariant reply.Ok? && (reply.value.1 <==> WorkLeft(Contents(), now) != {})
        decreases WorkLeft(Contents(), now)
      {
        ghost var more;
        reply, more, pass := Maintain(p, now, batch);
        RunAppend(w, acts, more);
        acts := acts + more;
      }
      PendingIsWorkLeft(Contents(), now);
    }

    method Unsubscribe(p: Policy, now: Time, batch: nat, name: Name, generation: Generation)
      returns (reply: Reply<bool>, ghost acts: seq<Action>, ghost pass: Pass)
      requires Valid() && clock <= now
      modifies this
      ensures Valid() && Legal(old(State()), acts) && State() == Run(old(State()), acts) && clock == now
      ensures p != policy ==> reply == Failed(ConfigurationConflict)
      ensures p == policy ==> reply == Ok(name in old(subscriptions) && old(subscriptions)[name] == generation)
      ensures subscriptions == if reply == Ok(true) then old(subscriptions) - {name} else old(subscriptions)
      ensures reply != Ok(true) ==> acts == [Tick(now)] && Contents() == old(Contents()) && log == old(log)
      ensures reply == Ok(true) ==>
        acts == [Tick(now), Action.Unsubscribe(name, generation)] + StepsOf(pass) && Bounded(pass, batch)
      ensures reply == Ok(true) ==> log == old(log).(removals := old(log).removals[generation := now])
    {
      hide Inv, WorkLeft, Bounded, StepsOf;
      ghost var w := State();
      acts := Advance(now);
      if p != policy {
        return Failed(ConfigurationConflict), acts, Pass([], [], []);
      }
      if !(name in subscriptions && subscriptions[name] == generation) {
        return Ok(false), acts, Pass([], [], []);
      }
      RunExtend(w, acts, Action.Unsubscribe(name, generation));
      acts := acts + [Action.Unsubscribe(name, generation)];
      subscriptions := subscriptions - {name};
      removed := removed[generation := now];
      retired := retired[generation := now];
      log := log.(removals := log.removals[generation := now]);
      var processed;
      ghost var more;
      ghost var left := State();
      processed, more, pass := Sweep(now, batch);
      QuietKeepsSubscriptions(left, more);
      RunAppend(w, acts, more);
      acts := acts + more;
      reply := Ok(true);
    }

    // ---- acquisition -------------------------------------------------------------------

    // Looks at one due entry: the delivery is handed out if it is still owed, and the entry is dropped otherwise.
    method TryTake(slot: Slot, name: Name, token: Token, lease: nat, now: Time)
      returns (taken: bool, ghost acts: seq<Action>)
      requires Valid() && clock == now && token !in log.tokens
      requires slot in delivery && delivery[slot] <= now && Registered(Contents(), name, slot.generation)
      modifies this
      ensures Valid() && Legal(old(State()), acts) && State() == Run(old(State()), acts) && clock == now
      ensures taken ==>
        slot.id in records && Handed(State(), slot.generation, (slot.id, records[slot.id]), token, lease)
      ensures taken ==> TouchedSlots(old(delivery), delivery - {slot}, slot)
      ensures !taken ==> AllMaintenance(acts) && log == old(log) && SameRegistry(old(Contents()), Contents())
      ensures !taken ==> slot !in delivery && TouchedSlots(old(delivery), delivery, slot)
    {
      hide Handed, TouchedSlots, Legal, Inv;
      ghost var v := State();
      TouchBeforeTake(v, slot);
      acts := [Touch(slot.id)];
      RunOne(v, Touch(slot.id));
      var found := Current(slot.id, now);
      assert State() == Apply(v, Touch(slot.id));
      if found.Some? && found.value.status.Active? && slot.generation in found.value.recipients
        && found.value.recipients[slot.generation].status.Pending? {
        TakeIsEnabled(v, slot, name, token, lease);
        RunExtend(v, acts, Action.Take(slot, name, token, lease));
        acts := acts + [Action.Take(slot, name, token, lease)];
        TakenIsHanded(State(), slot, name, token, lease);
        TouchedWithout(v.store.delivery, delivery, slot, LeaseEnd(records[slot.id], now, lease));
        Lend(slot, name, token, lease, now);
        taken := true;
      } else {
        delivery := delivery - {slot};
        assert State() == Apply(v, Touch(slot.id));
        taken := false;
      }
    }

    // Hands out the first due delivery of this subscription that is still owed.
    method Take(p: Policy, now: Time, batch: nat, name: Name, generation: Generation, token: Token, lease: nat)
      returns (reply: Reply<Option<(EventId, Record)>>, ghost acts: seq<Action>)
      requires Valid() && clock <= now && token !in log.tokens
      modifies this
      ensures Valid() && Legal(old(State()), acts) && State() == Run(old(State()), acts) && clock == now
      ensures p != policy ==> reply == Failed(ConfigurationConflict)
      ensures p == policy ==>
        (reply == Failed(SubscriptionMissing) <==>
          !(name in old(subscriptions) && old(subscriptions)[name] == generation))
      ensures reply.Failed? ==> reply.code == ConfigurationConflict || reply.code == SubscriptionMissing
      ensures reply.Ok? && reply.value.Some? ==> Handed(State(), generation, reply.value.value, token, lease)
      ensures reply.Ok? && reply.value.Some? ==>
        WasNext(old(delivery), delivery, Slot(generation, reply.value.value.0), now)
      ensures reply.Failed? || reply.value.None? ==> AllMaintenance(acts)
      ensures reply == Ok(None) && |DueSlots(old(delivery), generation, now)| < batch ==>
        forall slot :: slot in delivery && slot.generation == generation ==> now < delivery[slot]
    {
      ghost var w := State();
      acts := Advance(now);
      if p != policy {
        return Failed(ConfigurationConflict), acts;
      }
      if !(name in subscriptions && subscriptions[name] == generation) {
        return Failed(SubscriptionMissing), acts;
      }
      var mine := map slot | slot in delivery && slot.generation == generation :: delivery[slot];
      var slots := DueBatch(mine, now, batch);
      DueBatchOfGeneration(delivery, mine, slots, generation, now, batch);
      ghost var before, v := delivery, State();
      var taken;
      ghost var more;
      taken, more := Hunt(slots, name, generation, token, lease, now);
      RunAppend(w, acts, more);
      acts := acts + more;
      if taken.Some? {
        reply := Ok(Some((taken.value, records[taken.value])));
        LowestWasNext(before, delivery, mine, slots, Slot(generation, taken.value), now);
      } else {
        reply := Ok(None);
        NoneDueLeft(before, delivery, slots, generation, now, batch);
      }
    }

    method Hunt(slots: seq<Slot>, name: Name, generation: Generation, token: Token, lease: nat, now: Time)
      returns (taken: Option<EventId>, ghost acts: seq<Action>)
      requires Valid() && clock == now && token !in log.tokens && Registered(Contents(), name, generation)
      requires Distinct(slots)
      requires forall k ::
        0 <= k < |slots| ==> slots[k].generation == generation && slots[k] in delivery && delivery[slots[k]] <= now
      modifies this
      ensures Valid() && Legal(old(State()), acts) && State() == Run(old(State()), acts) && clock == now
      ensures taken.Some? ==>
        taken.value in records && Handed(State(), generation, (taken.value, records[taken.value]), token, lease)
      ensures taken.Some? ==> EarlierGone(old(delivery), delivery, slots, Slot(generation, taken.value))
      ensures taken.None? ==> AllMaintenance(acts) && Lost(old(delivery), delivery, slots, |slots|)
    {
      ghost var w := State();
      acts := [];
      var i := 0;
      while i < |slots|
        invariant i <= |slots| && Valid() && clock == now && token !in log.tokens
        invariant Legal(w, acts) && State() == Run(w, acts) && AllMaintenance(acts)
        invariant Registered(Contents(), name, generation)
        invariant Lost(w.store.delivery, delivery, slots, i)
      {
        ghost var v := State();
        var found;
        ghost var more;
        found, more := TryTake(slots[i], name, token, lease, now);
        RunAppend(w, acts, more);
        acts := acts + more;
        if found {
          taken := Some(slots[i].id);
          TakenAfterLost(w.store.delivery, v.store.delivery, delivery, slots, i);
          return;
        }
        LostOneMore(w.store.delivery, v.store.delivery, delivery, slots, i);
        i := i + 1;
      }
      taken := None;
    }

    method Lend(slot: Slot, ghost name: Name, token: Token, lease: nat, now: Time)
      requires Enabled(State(), Action.Take(slot, name, token, lease)) && clock == now
      modifies this
      ensures State() == Apply(old(State()), Action.Take(slot, name, token, lease))
    {
      var record := records[slot.id];
      var until := now + lease;
      if record.expiresAt.Some? {
        until := Min(until, record.expiresAt.value);
      }
      Relabel(slot, record.recipients[slot.generation].(leaseToken := Some(token), leaseUntil := Some(until)), until);
      log := log.(tokens := log.tokens + {token});
    }

    // ---- archive listing ---------------------------------------------------------------

    // A page of the archive, oldest settlement first, after one maintenance pass.
    method ListArchived(p: Policy, now: Time, batch: nat, offset: nat, limit: nat)
      returns (reply: Reply<seq<EventId>>, ghost acts: seq<Action>)
      requires Valid() && clock <= now
      modifies this
      ensures Valid() && Legal(old(State()), acts) && State() == Run(old(State()), acts) && clock == now
      ensures AllMaintenance(acts)
      ensures p != policy ==> reply == Failed(ConfigurationConflict)
      ensures p == policy ==> reply.Ok? && |reply.value| <= limit && IsPage(State(), reply.value)
      ensures reply.Ok? && offset == 0 && |reply.value| < limit ==> forall id ::
        Listable(State(), id) ==> id in reply.value
      ensures reply.Ok? ==> exists ids :: IsRanking(State(), ids) && IsSlice(ids, offset, limit, reply.value)
    {
      acts := Advance(now);
      if p != policy {
        return Failed(ConfigurationConflict), acts;
      }
      ghost var w := old(State());
      var processed;
      ghost var more, pass;
      processed, more, pass := Sweep(now, batch);
      RunAppend(w, acts, more);
      acts := acts + more;
      var page := Page(now, offset, limit);
      reply := Ok(page);
    }

    method Page(now: Time, offset: nat, limit: nat) returns (page: seq<EventId>)
      requires Valid() && clock == now
      ensures |page| <= limit && IsPage(State(), page)
      ensures offset == 0 && |page| < limit ==> forall id :: Listable(State(), id) ==> id in page
      ensures exists ids :: IsRanking(State(), ids) && IsSlice(ids, offset, limit, page)
    {
      var retention := policy.archiveRetention;
      var live := map id | id in archives && (retention.None? || now - retention.value < archives[id]) :: archives[id];
      var ids := Ranked(live);
      page := if |ids| <= offset then []
              else if |ids| <= offset + limit then ids[offset..]
              else ids[offset..offset + limit];
      forall id ensures id in live <==> Listable(State(), id) {
        ArchivedIsListable(State(), id);
      }
      forall i | 0 <= i < |page| ensures page[i] == ids[offset + i] && page[i] in live {
        assert ids[offset + i] in ids;
      }
      RankedIsRanking(State(), live, ids);
      assert IsSlice(ids, offset, limit, page);
    }
  }

  // The record of an emission: everybody registered is owed it, from now on.
  ghost function NewRecord(subscriptions: map<Name, Generation>, payload: Payload, expiresAt: Option<Time>,
                           now: Time): Record {
    var recipients := map g | g in Captured(subscriptions) :: Fresh(Captured(subscriptions)[g]);
    Record(payload, now, now, expiresAt, None, None, Active, recipients)
  }

  // What its emitter is told: completed if nobody is owed it, expired if its deadline is now, and open otherwise.
  function AtOnce(p: Policy, r: Record, now: Time): Record {
    if r.recipients == map[] then InMemory(p, r, Completed, now)
    else if r.expiresAt == Some(now) then InMemory(p, r, Expired, now)
    else r
  }

  // The new record, field by field: open and owed by everybody registered, or over at once, because nobody is or
  // because its deadline is now.
  ghost predicate EmittedAs(p: Policy, r: Record, subs: map<Name, Generation>, payload: Payload, ttl: Option<nat>,
                            now: Time) {
    && r.payload == payload && r.createdAt == r.resolvedAt == now
    && (r.expiresAt == if ttl.Some? then Some(now + ttl.value) else None)
    && (r.status.Completed? <==> subs == map[])
    && (r.status.Expired? <==> subs != map[] && ttl == Some(0))
    && (r.settledAt == if r.status.Active? then None else Some(now))
    && (r.archiveUntil == if r.status.Active? || p.onCompletion.Delete? || p.archiveRetention.None? then None
                          else Some(now + p.archiveRetention.value))
    && r.recipients.Keys == subs.Values
    && (forall n :: n in subs ==> r.recipients[subs[n]] == Recipient(n, Pending, None, None))
  }

  lemma AtOncePlainly(p: Policy, subs: map<Name, Generation>, payload: Payload, ttl: Option<nat>, now: Time)
    requires OneNameEach(subs)
    ensures var r := AtOnce(p, NewRecord(subs, payload, if ttl.Some? then Some(now + ttl.value) else None, now), now);
      EmittedAs(p, r, subs, payload, ttl, now)
  {
    var r := NewRecord(subs, payload, if ttl.Some? then Some(now + ttl.value) else None, now);
    if n :| n in subs {
      assert subs[n] in subs.Values && subs[n] in r.recipients;
    } else {
      assert subs.Values == {} && r.recipients == map[];
    }
    forall n | n in subs ensures r.recipients[subs[n]] == Recipient(n, Pending, None, None) {
      assert subs[n] in subs.Values && NameOf(subs, subs[n]) == n;
    }
  }

  lemma OpenStaysStored(p: Policy, s: Store, id: EventId, now: Time)
    requires id in s.records && InHand(p, s.removed, s.records[id], now).status.Active?
    ensures id in Normalized(p, s, id, now).records
  {
  }

  lemma EmittedIsDue(w: World, id: EventId, payload: Payload, ttl: Option<nat>)
    requires Enabled(w, Action.Emit(id, payload, ttl))
    ensures DueToAll(Apply(w, Action.Emit(id, payload, ttl)).store.delivery, w.store.subscriptions, id, w.clock)
  {
    forall n | n in w.store.subscriptions ensures w.store.subscriptions[n] in w.store.subscriptions.Values {
    }
  }

  // An event is due at this instant to everybody registered.
  predicate DueToAll(delivery: map<Slot, Time>, subs: map<Name, Generation>, id: EventId, now: Time) {
    forall n :: n in subs ==> Slot(subs[n], id) in delivery && delivery[Slot(subs[n], id)] == now
  }

  // Materialising an open event leaves what is still owed due as it was.
  lemma StillDueToAll(before: Store, w: World, subs: map<Name, Generation>, id: EventId, now: Time)
    requires Inv(w) && DueToAll(before.delivery, subs, id, now) && SameScores(before, w.store)
    requires id in w.store.records && w.store.records[id].status.Active?
    requires var rs := w.store.records[id].recipients;
      forall n :: n in subs ==> subs[n] in rs && rs[subs[n]].status.Pending?
    ensures DueToAll(w.store.delivery, subs, id, now)
  {
    assert EventOk(w, id);
    forall n | n in subs ensures Slot(subs[n], id) in w.store.delivery && w.store.delivery[Slot(subs[n], id)] == now {
      assert SlotOk(w.store, Slot(subs[n], id));
    }
  }

  lemma MayEmit(w: World, id: EventId, payload: Payload, ttl: Option<nat>)
    requires Inv(w) && id !in w.store.records
    ensures Enabled(w, Action.Emit(id, payload, ttl)) && OneNameEach(w.store.subscriptions)
  {
  }

  lemma TouchIsNormalizing(w: World, id: EventId)
    requires Inv(w) && id in w.store.records
    ensures EventOk(w, id) && Enabled(w, Touch(id))
    ensures Apply(w, Touch(id)) == w.(store := Normalized(w.policy, w.store, id, w.clock))
  {
  }

  // The step of an emission: what it logs, stores, and would tell its emitter.
  lemma EmittedRecord(w: World, id: EventId, payload: Payload, ttl: Option<nat>)
    requires Inv(w) && Enabled(w, Action.Emit(id, payload, ttl))
    ensures var v := Apply(w, Action.Emit(id, payload, ttl));
      var expiresAt := if ttl.Some? then Some(w.clock + ttl.value) else None;
      var r := NewRecord(w.store.subscriptions, payload, expiresAt, w.clock);
      && id in v.store.records && v.store.records[id] == r && v.clock == w.clock
      && InHand(w.policy, v.store.removed, r, w.clock) == AtOnce(w.policy, r, w.clock)
      && id in v.log.emissions && v.log.emissions[id].payload == payload && v.log.emissions[id].createdAt == w.clock
      && v.log.emissions[id].recipients == Captured(w.store.subscriptions)
  {
    hide Inv, InHand, AtOnce;
    StepKeepsInv(w, Action.Emit(id, payload, ttl));
    EmittedIsUnwaived(Apply(w, Action.Emit(id, payload, ttl)), id);
  }

  // Nobody registered has been removed, so nothing of a new event is waived.
  lemma EmittedIsUnwaived(w: World, id: EventId)
    requires Inv(w) && id in w.store.records && w.store.records[id].status.Active?
    requires forall g :: g in w.store.records[id].recipients ==> g in w.store.subscriptions.Values
    requires forall g :: g in w.store.records[id].recipients ==> w.store.records[id].recipients[g].status.Pending?
    requires w.store.records[id].resolvedAt == w.clock
    requires w.store.records[id].expiresAt.Some? ==> w.clock <= w.store.records[id].expiresAt.value
    ensures InHand(w.policy, w.store.removed, w.store.records[id], w.clock)
      == AtOnce(w.policy, w.store.records[id], w.clock)
  {
    var r := w.store.records[id];
    RegisteredIsNotRemoved(w);
    assert Waives(w.store.removed, r) == {};
    WaivesNothing(w.store.removed, r);
    if r.recipients != map[] {
      var g :| g in r.recipients;
      assert r.recipients[g].status.Pending?;
    }
  }

  lemma RegisteredIsNotRemoved(w: World)
    requires Inv(w)
    ensures forall g :: g in w.store.subscriptions.Values ==> g !in w.store.removed
  {
    forall g | g in w.store.subscriptions.Values ensures g !in w.store.removed {
      var n :| n in w.store.subscriptions && w.store.subscriptions[n] == g;
    }
  }

  // A page lists settled events a reader still finds, each once, by settlement time.
  ghost predicate IsPage(w: World, page: seq<EventId>) {
    && Distinct(page)
    && (forall i :: 0 <= i < |page| ==> Listable(w, page[i]))
    && (forall i, j :: 0 <= i < j < |page| && page[i] in w.store.archives && page[j] in w.store.archives ==>
          w.store.archives[page[i]] <= w.store.archives[page[j]])
  }

  // All archived events whose retention has not passed, by settlement time.
  ghost predicate IsRanking(w: World, ids: seq<EventId>) {
    var archives, retention := w.store.archives, w.policy.archiveRetention;
    && Distinct(ids)
    && (forall id :: id in ids <==> id in archives && (retention.None? || w.clock < archives[id] + retention.value))
    && (forall i, j :: 0 <= i < j < |ids| && ids[i] in archives && ids[j] in archives ==>
          archives[ids[i]] <= archives[ids[j]])
  }

  // As many as the limit allows, from the offset on.
  predicate IsSlice(ids: seq<EventId>, offset: nat, limit: nat, page: seq<EventId>) {
    page == if |ids| <= offset then [] else ids[offset..if |ids| <= offset + limit then |ids| else offset + limit]
  }

  lemma RankedIsRanking(w: World, live: map<EventId, Time>, ids: seq<EventId>)
    requires forall id :: id in ids <==> id in live
    requires Distinct(ids) && SortedBy(live, ids)
    requires var archives, retention := w.store.archives, w.policy.archiveRetention;
      live == map id | id in archives && (retention.None? || w.clock - retention.value < archives[id]) :: archives[id]
    ensures IsRanking(w, ids)
  {
    var archives := w.store.archives;
    forall i, j | 0 <= i < j < |ids| && ids[i] in archives && ids[j] in archives
      ensures archives[ids[i]] <= archives[ids[j]]
    {
      assert ids[i] in ids && ids[j] in ids;
    }
  }

  // A settled event a reader still finds.
  ghost predicate Listable(w: World, id: EventId) {
    && id in w.store.archives
    && Observe(w.policy, w.store, id, w.clock).Some?
    && !Observe(w.policy, w.store, id, w.clock).value.status.Active?
  }

  // The score window of the listing is exactly what the archive retention leaves readable.
  lemma ArchivedIsListable(w: World, id: EventId)
    requires Inv(w)
    ensures Listable(w, id) <==>
      id in w.store.archives
        && (w.policy.archiveRetention.None? || w.clock - w.policy.archiveRetention.value < w.store.archives[id])
  {
    assert EventOk(w, id);
    if id in w.store.archives {
      var r := w.store.records[id];
      var o := EagerOutcome(w.log, id, w.clock);
      assert ViewOf(r).archiveUntil == EagerRecord(w.policy, w.log, id, o).archiveUntil;
      assert ViewOf(r).settledAt == EagerRecord(w.policy, w.log, id, o).settledAt;
    }
  }

  // The deliveries of one generation that may be handed out at this instant.
  ghost function DueSlots(delivery: map<Slot, Time>, g: Generation, now: Time): set<Slot> {
    set slot | slot in delivery && slot.generation == g && delivery[slot] <= now
  }

  // The delivery is lent to this token for so long, but no longer than its event is open, and is due again when the
  // lease ends.
  predicate LentUntil(s: Store, slot: Slot, token: Token, now: Time, lease: nat) {
    && slot.id in s.records && slot.generation in s.records[slot.id].recipients && slot in s.delivery
    && var r, c := s.records[slot.id], s.records[slot.id].recipients[slot.generation];
    && r.status.Active? && c.status.Pending? && c.leaseToken == Some(token) && c.leaseUntil == Some(s.delivery[slot])
    && s.delivery[slot] <= now + lease && (r.expiresAt.Some? ==> s.delivery[slot] <= r.expiresAt.value)
    && (s.delivery[slot] == now + lease || r.expiresAt == Some(s.delivery[slot]))
  }

  // A reader at this instant finds the obligation acknowledged, or an event that has ended.
  ghost predicate ShowsAcknowledged(w: World, slot: Slot, at: Time) {
    var r, g := Observe(w.policy, w.store, slot.id, at), slot.generation;
    if r.Some? then g in r.value.recipients && r.value.recipients[g].status.Acknowledged?
    else slot.id in w.log.emissions && exists status, end :: Ended(w.log, slot.id, at, status, end)
  }

  lemma AcknowledgedIsShown(w: World, slot: Slot, later: Time)
    requires Inv(w) && w.clock <= later && slot in w.log.acks && slot.id in w.log.emissions
    requires slot.generation in w.log.emissions[slot.id].recipients
    ensures ShowsAcknowledged(w, slot, later)
  {
    hide Inv, Observe, Ended;
    AcknowledgedIsTold(w, slot, later);
  }

  // A delivery in a taker's hands: the stored record names the taker's token, and a real lease makes it the owner.
  ghost predicate Handed(w: World, g: Generation, delivered: (EventId, Record), token: Token, lease: nat) {
    var slot := Slot(g, delivered.0);
    && slot.id in w.store.records && w.store.records[slot.id] == delivered.1
    && LentUntil(w.store, slot, token, w.clock, lease)
    && (0 < lease ==> Owns(w.store, slot, token, w.clock))
  }

  // The entries looked at so far are gone, and nothing else of this generation has moved.
  ghost predicate Lost(before: map<Slot, Time>, after: map<Slot, Time>, slots: seq<Slot>, i: nat)
    requires i <= |slots|
  {
    && (forall slot :: slot in after ==> slot in before && after[slot] == before[slot])
    && (forall k :: 0 <= k < i ==> slots[k] !in after)
    && (forall k :: i <= k < |slots| ==> slots[k] in after)
  }

  // Materialising an event takes entries only from its own deliveries.
  ghost predicate TouchedSlots(m: map<Slot, Time>, n: map<Slot, Time>, slot: Slot) {
    && (forall other: Slot :: other in n ==> other in m && n[other] == m[other])
    && (forall other: Slot :: other.generation == slot.generation && other != slot && other in m ==> other in n)
  }

  lemma TouchBeforeTake(w: World, slot: Slot)
    requires Inv(w) && slot in w.store.delivery
    ensures Enabled(w, Touch(slot.id)) && Inv(Apply(w, Touch(slot.id)))
    ensures var v := Apply(w, Touch(slot.id));
      && SameRegistry(w.store, v.store)
      && TouchedSlots(w.store.delivery, v.store.delivery, slot)
      && (slot in v.store.delivery <==> Owed(v.store, slot))
  {
    assert EventOk(w, slot.id) && SlotOk(w.store, Slot(slot.generation, slot.id));
    StepKeepsInv(w, Touch(slot.id));
    var v := Apply(w, Touch(slot.id));
    assert EventOk(v, slot.id) && SlotOk(v.store, Slot(slot.generation, slot.id));
    NormalizedRegistry(w.policy, w.store, slot.id, w.clock);
    NormalizedElsewhere(w.policy, w.store, slot.id, w.clock);
    ElsewhereKeepsSlots(w.store, v.store, slot);
    NormalizedKeepsScores(w.policy, w.store, slot.id, w.clock);
  }

  lemma TouchedWithout(m: map<Slot, Time>, n: map<Slot, Time>, slot: Slot, score: Time)
    requires TouchedSlots(m, n, slot)
    ensures TouchedSlots(m, n[slot := score] - {slot}, slot)
  {
  }

  lemma NormalizedKeepsScores(p: Policy, s: Store, id: EventId, now: Time)
    requires id in s.records
    ensures SameScores(s, Normalized(p, s, id, now))
  {
    if s.records[id].status.Active? {
      ConcludedKeepsScores(p, s, id, WaivedRecord(s.removed, s.records[id]), now);
    }
  }

  lemma ConcludedKeepsScores(p: Policy, s: Store, id: EventId, u: Record, now: Time)
    requires id in s.records
    ensures SameScores(s, Concluded(p, s, id, u, now))
  {
    if Resolved(u) {
      SettledKeepsScores(p, s, id, u, Completed, u.resolvedAt, now);
    } else if Due(u.expiresAt, now) {
      SettledKeepsScores(p, s, id, u, Expired, u.expiresAt.value, now);
    }
  }

  lemma SettledKeepsScores(p: Policy, s: Store, id: EventId, r: Record, status: Status, at: Time, now: Time)
    ensures SameScores(s, Settled(p, s, id, r, status, at, now))
  {
  }

  ghost predicate SameScores(s: Store, t: Store) {
    forall slot :: slot in t.delivery ==> slot in s.delivery && t.delivery[slot] == s.delivery[slot]
  }

  lemma DueBatchOfGeneration(delivery: map<Slot, Time>, mine: map<Slot, Time>, slots: seq<Slot>, g: Generation,
                             now: Time, batch: nat)
    requires mine == map slot | slot in delivery && slot.generation == g :: delivery[slot]
    requires forall slot :: slot in slots ==> slot in mine && mine[slot] <= now
    ensures forall k ::
      0 <= k < |slots| ==> slots[k].generation == g && slots[k] in delivery && delivery[slots[k]] <= now
    ensures forall slot :: slot in slots ==> slot in DueSlots(delivery, g, now)
    ensures forall slot :: slot in DueSlots(delivery, g, now) ==> slot in mine && mine[slot] <= now
  {
    forall k | 0 <= k < |slots| ensures slots[k].generation == g && slots[k] in delivery && delivery[slots[k]] <= now {
      assert slots[k] in slots;
    }
  }

  lemma NoneDueLeft(before: map<Slot, Time>, after: map<Slot, Time>, slots: seq<Slot>, g: Generation, now: Time,
                    batch: nat)
    requires Lost(before, after, slots, |slots|) && Distinct(slots) && |slots| <= batch
    requires forall slot :: slot in slots ==> slot in DueSlots(before, g, now)
    requires |slots| < batch ==> forall slot :: slot in DueSlots(before, g, now) ==> slot in slots
    ensures |DueSlots(before, g, now)| < batch ==>
      forall slot :: slot in after && slot.generation == g ==> now < after[slot]
  {
    DistinctCount(slots, DueSlots(before, g, now));
    if |slots| < batch {
      forall slot | slot in DueSlots(before, g, now) ensures slot !in after {
        var k :| 0 <= k < |slots| && slots[k] == slot;
      }
    }
  }

  lemma LostOneMore(before: map<Slot, Time>, m: map<Slot, Time>, n: map<Slot, Time>, slots: seq<Slot>, i: nat)
    requires i < |slots| && Distinct(slots)
    requires (forall k :: 0 <= k < |slots| ==> slots[k].generation == slots[i].generation)
    requires Lost(before, m, slots, i) && TouchedSlots(m, n, slots[i])
    requires slots[i] !in n
    ensures Lost(before, n, slots, i + 1)
  {
  }

  // Of the entries in this order, those before this one are gone, and beside it nothing has moved.
  ghost predicate EarlierGone(before: map<Slot, Time>, after: map<Slot, Time>, slots: seq<Slot>, slot: Slot) {
    && (forall other: Slot :: other in after && other != slot ==> other in before && after[other] == before[other])
    && exists i :: 0 <= i < |slots| && slots[i] == slot && forall k :: 0 <= k < i ==> slots[k] !in after
  }

  // The entry was due, and no other that is still there was due before it.
  ghost predicate WasNext(before: map<Slot, Time>, after: map<Slot, Time>, slot: Slot, now: Time) {
    && slot in before && before[slot] <= now
    && forall other: Slot :: other in after && other.generation == slot.generation && other != slot ==>
         other in before && before[slot] <= before[other]
  }

  lemma TakenAfterLost(before: map<Slot, Time>, m: map<Slot, Time>, n: map<Slot, Time>, slots: seq<Slot>, i: nat)
    requires i < |slots| && Distinct(slots) && Lost(before, m, slots, i) && TouchedSlots(m, n - {slots[i]}, slots[i])
    ensures EarlierGone(before, n, slots, slots[i])
  {
    forall other: Slot | other in n && other != slots[i]
      ensures other in before && n[other] == before[other] && other in m
    {
      assert other in n - {slots[i]};
    }
  }

  lemma LowestWasNext(before: map<Slot, Time>, after: map<Slot, Time>, mine: map<Slot, Time>, slots: seq<Slot>,
                      slot: Slot, now: Time)
    requires mine == map other | other in before && other.generation == slot.generation :: before[other]
    requires forall other :: other in slots ==> other in mine && mine[other] <= now
    requires SortedBy(mine, slots)
    requires forall k, j :: k in slots && j in mine && mine[j] < mine[k] ==> j in slots
    requires EarlierGone(before, after, slots, slot)
    ensures WasNext(before, after, slot, now)
  {
    var i :| 0 <= i < |slots| && slots[i] == slot && forall k :: 0 <= k < i ==> slots[k] !in after;
    assert slot in slots && slot in mine;
    forall other: Slot | other in after && other.generation == slot.generation && other != slot
      ensures other in before && before[slot] <= before[other]
    {
      assert other in mine;
      if mine[other] < mine[slot] {
        var k :| 0 <= k < |slots| && slots[k] == other;
        assert false;
      }
    }
  }

  lemma TakeIsEnabled(w: World, slot: Slot, name: Name, token: Token, lease: nat)
    requires Inv(w) && slot.id in w.store.records && Registered(w.store, name, slot.generation)
    requires token !in w.log.tokens
    requires slot in w.store.delivery && w.store.delivery[slot] <= w.clock
    requires Owed(Apply(w, Touch(slot.id)).store, slot)
    ensures Enabled(Apply(w, Touch(slot.id)), Action.Take(slot, name, token, lease))
  {
    TouchBeforeTake(w, slot);
    ObservedNotOverdue(w.policy, w.store, slot.id, w.clock);
  }

  lemma TakenIsHanded(w: World, slot: Slot, name: Name, token: Token, lease: nat)
    requires Enabled(w, Action.Take(slot, name, token, lease))
    ensures var v := Apply(w, Action.Take(slot, name, token, lease));
      slot.id in v.store.records && Handed(v, slot.generation, (slot.id, v.store.records[slot.id]), token, lease)
  {
  }

  lemma RenewedOwns(w: World, slot: Slot, name: Name, token: Token, lease: nat)
    requires Enabled(w, Action.Renew(slot, name, token, lease))
    ensures var s := Apply(w, Action.Renew(slot, name, token, lease)).store;
      LentUntil(s, slot, token, w.clock, lease) && (0 < lease ==> Owns(s, slot, token, w.clock))
  {
  }

  lemma ReleasedDisowns(w: World, slot: Slot, name: Name, token: Token, delay: nat)
    requires Enabled(w, Action.Release(slot, name, token, delay))
    ensures var v := Apply(w, Action.Release(slot, name, token, delay));
      slot in v.store.delivery && v.store.delivery[slot] == w.clock + delay && !Owns(v.store, slot, token, w.clock)
  {
  }

  lemma ConcludedStored(p: Policy, s: Store, id: EventId, u: Record, now: Time)
    requires id in s.records && id in Concluded(p, s, id, u, now).records
    ensures var r := Concluded(p, s, id, u, now).records[id]; r.status.Active? ==> r == u && !Due(u.expiresAt, now)
  {
    if !Resolved(u) && !Due(u.expiresAt, now) {
      assert Updated(s, id, u).records[id] == u;
    }
  }

  // An open event a reader was just given is not overdue.
  lemma ObservedNotOverdue(p: Policy, s: Store, id: EventId, now: Time)
    requires Observe(p, s, id, now).Some?
    ensures var r := Observe(p, s, id, now).value; r.status.Active? ==> !Due(r.expiresAt, now)
  {
    if s.records[id].status.Active? {
      ConcludedStored(p, s, id, WaivedRecord(s.removed, s.records[id]), now);
    }
  }
}
