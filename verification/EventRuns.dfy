/** Runs of the event queue: the atomic steps every script is made of, and the history they leave. */
module EventRuns {
  import opened Basics
  import opened EventModel

  // What really happened, kept beside the store and never collected.
  datatype Emission = Emission(payload: Payload, createdAt: Time, expiresAt: Option<Time>,
                               recipients: map<Generation, Name>)
  datatype Log = Log(
    emissions: map<EventId, Emission>,
    acks: map<Slot, Time>,
    removals: map<Generation, Time>,
    generations: set<Generation>,
    tokens: set<Token>)

  datatype World = World(policy: Policy, store: Store, log: Log, clock: Time)

  datatype Action =
    | Tick(now: Time)
    | Subscribe(name: Name, generation: Generation)
    | Unsubscribe(name: Name, generation: Generation)
    | Emit(id: EventId, payload: Payload, ttl: Option<nat>)
    | Touch(id: EventId)
    | Drop(id: EventId)
    | Forget(generation: Generation)
    | Take(slot: Slot, name: Name, token: Token, lease: nat)
    | Acknowledge(slot: Slot, name: Name, token: Token)
    | Renew(slot: Slot, name: Name, token: Token, lease: nat)
    | Release(slot: Slot, name: Name, token: Token, delay: nat)

  function Initial(p: Policy, clock: Time): World {
    World(p, Store(map[], map[], map[], map[], map[], map[], map[], map[]), Log(map[], map[], map[], {}, {}), clock)
  }

  // The recipient of a slot, when its event is still stored.
  predicate HasRecipient(s: Store, slot: Slot) {
    slot.id in s.records && slot.generation in s.records[slot.id].recipients
  }

  function RecipientOf(s: Store, slot: Slot): Recipient
    requires HasRecipient(s, slot)
  {
    s.records[slot.id].recipients[slot.generation]
  }

  // This token currently owns this delivery.
  predicate Owns(s: Store, slot: Slot, token: Token, now: Time) {
    && HasRecipient(s, slot)
    && s.records[slot.id].status.Active?
    && RecipientOf(s, slot).status.Pending?
    && RecipientOf(s, slot).leaseToken == Some(token)
    && RecipientOf(s, slot).leaseUntil.Some?
    && now < RecipientOf(s, slot).leaseUntil.value
  }

  // The guard acknowledge, renew and release share once the event has been materialised.
  predicate MayAct(s: Store, slot: Slot, name: Name, token: Token, now: Time) {
    && Owns(s, slot, token, now)
    && RecipientOf(s, slot).name == name
    && Registered(s, name, slot.generation)
    && !Due(s.records[slot.id].expiresAt, now)
  }

  ghost predicate Enabled(w: World, a: Action) {
    var s := w.store;
    match a
    case Tick(now) => w.clock <= now
    case Subscribe(name, g) =>
      name !in s.subscriptions && |s.subscriptions| < MAX_SUBSCRIPTIONS && g !in w.log.generations
    case Unsubscribe(name, g) => Registered(s, name, g)
    case Emit(id, _, _) => id !in s.records
    case Touch(id) => id in s.records
    case Drop(id) => id in s.records && id in s.archiveDeadlines && s.archiveDeadlines[id] <= w.clock
    case Forget(g) => g in s.retired && forall slot :: slot in s.delivery ==> slot.generation != g
    case Take(slot, name, token, lease) =>
      && Registered(s, name, slot.generation)
      && slot in s.delivery && s.delivery[slot] <= w.clock
      && HasRecipient(s, slot)
      && s.records[slot.id].status.Active?
      && RecipientOf(s, slot).status.Pending?
      && !Due(s.records[slot.id].expiresAt, w.clock)
      && token !in w.log.tokens
    case Acknowledge(slot, name, token) => MayAct(s, slot, name, token, w.clock)
    case Renew(slot, name, token, _) => MayAct(s, slot, name, token, w.clock)
    case Release(slot, name, token, _) => MayAct(s, slot, name, token, w.clock)
  }

  function WithRecipient(s: Store, slot: Slot, c: Recipient): Store
    requires slot.id in s.records
  {
    var r := s.records[slot.id];
    s.(records := s.records[slot.id := r.(recipients := r.recipients[slot.generation := c])])
  }

  // Re-labels the lease of a delivery and its place in the delivery index; the obligation stays as it is.
  function Relabelled(s: Store, slot: Slot, c: Recipient, score: Time): Store
    requires slot.id in s.records
  {
    WithRecipient(s, slot, c).(delivery := s.delivery[slot := score])
  }

  function LeaseEnd(r: Record, now: Time, lease: nat): Time {
    if r.expiresAt.Some? then Min(now + lease, r.expiresAt.value) else now + lease
  }

  // The captured recipients of a new emission: every subscription registered at that instant.
  ghost function Captured(subscriptions: map<Name, Generation>): map<Generation, Name> {
    map g | g in subscriptions.Values :: NameOf(subscriptions, g)
  }

  ghost function NameOf(subscriptions: map<Name, Generation>, g: Generation): Name
    requires g in subscriptions.Values
  {
    var n :| n in subscriptions && subscriptions[n] == g;
    n
  }

  function Fresh(name: Name): Recipient {
    Recipient(name, Pending, None, None)
  }

  // One delivery entry, due at once, for each of these generations.
  function Offered(delivery: map<Slot, Time>, id: EventId, gs: set<Generation>, now: Time): map<Slot, Time> {
    map slot | slot in delivery.Keys + (set g | g in gs :: Slot(g, id)) ::
      if slot.id == id && slot.generation in gs then now else delivery[slot]
  }

  ghost function Emitted(s: Store, id: EventId, payload: Payload, expiresAt: Option<Time>, now: Time): Store {
    var names := Captured(s.subscriptions);
    var r := Record(payload, now, now, expiresAt, None, None, Active, map g | g in names :: Fresh(names[g]));
    s.(records := s.records[id := r],
       delivery := Offered(s.delivery, id, s.subscriptions.Values, now),
       deadlines := if expiresAt.Some? then s.deadlines[id := expiresAt.value] else s.deadlines)
  }

  ghost function Apply(w: World, a: Action): World
    requires Enabled(w, a)
  {
    var s, log, now := w.store, w.log, w.clock;
    match a
    case Tick(later) => w.(clock := later)
    case Subscribe(name, g) =>
      w.(store := s.(subscriptions := s.subscriptions[name := g]),
         log := log.(generations := log.generations + {g}))
    case Unsubscribe(name, g) =>
      w.(store := s.(subscriptions := s.subscriptions - {name}, removed := s.removed[g := now],
                     retired := s.retired[g := now]),
         log := log.(removals := log.removals[g := now]))
    case Emit(id, payload, ttl) =>
      var expiresAt := if ttl.Some? then Some(now + ttl.value) else None;
      w.(store := Emitted(s, id, payload, expiresAt, now),
         log := log.(emissions := log.emissions[id := Emission(payload, now, expiresAt, Captured(s.subscriptions))],
                     acks := map slot | slot in log.acks && slot.id != id :: log.acks[slot]))
    case Touch(id) => w.(store := Normalized(w.policy, s, id, now))
    case Drop(id) => w.(store := Purged(s, id, s.records[id].recipients.Keys))
    case Forget(g) => w.(store := s.(retired := s.retired - {g}, removed := s.removed - {g}))
    case Take(slot, name, token, lease) =>
      var until := LeaseEnd(s.records[slot.id], now, lease);
      var c := RecipientOf(s, slot).(leaseToken := Some(token), leaseUntil := Some(until));
      w.(store := Relabelled(s, slot, c, until),
         log := log.(tokens := log.tokens + {token}))
    case Acknowledge(slot, name, token) =>
      var c := RecipientOf(s, slot).(status := Obligation.Acknowledged, leaseUntil := None);
      var t := WithRecipient(s, slot, c).(delivery := s.delivery - {slot});
      w.(store := t.(records := t.records[slot.id := t.records[slot.id].(resolvedAt := now)]),
         log := log.(acks := log.acks[slot := now]))
    case Renew(slot, name, token, lease) =>
      var until := LeaseEnd(s.records[slot.id], now, lease);
      var c := RecipientOf(s, slot).(leaseUntil := Some(until));
      w.(store := Relabelled(s, slot, c, until))
    case Release(slot, name, token, delay) =>
      var c := RecipientOf(s, slot).(leaseToken := None, leaseUntil := None);
      w.(store := Relabelled(s, slot, c, now + delay))
  }

  ghost predicate Legal(w: World, acts: seq<Action>)
    decreases |acts|
  {
    acts == [] || (Enabled(w, acts[0]) && Legal(Apply(w, acts[0]), acts[1..]))
  }

  ghost function Run(w: World, acts: seq<Action>): World
    requires Legal(w, acts)
    decreases |acts|
  {
    if acts == [] then w else Run(Apply(w, acts[0]), acts[1..])
  }

  lemma {:induction false} RunAppend(w: World, xs: seq<Action>, ys: seq<Action>)
    requires Legal(w, xs) && Legal(Run(w, xs), ys)
    ensures Legal(w, xs + ys) && Run(w, xs + ys) == Run(Run(w, xs), ys)
    decreases |xs|
  {
    if xs == [] {
      assert xs + ys == ys;
    } else {
      RunAppend(Apply(w, xs[0]), xs[1..], ys);
      assert (xs + ys)[0] == xs[0] && (xs + ys)[1..] == xs[1..] + ys;
    }
  }

  lemma RunOne(w: World, a: Action)
    requires Enabled(w, a)
    ensures Legal(w, [a]) && Run(w, [a]) == Apply(w, a)
  {
  }
}
