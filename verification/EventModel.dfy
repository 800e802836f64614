/** The durable event queue as a value: its Redis keys, its records, and the atomic changes scripts make to them. */
module EventModel {
  import opened Basics

  // Opaque identities. The queue only ever compares them.
  type EventId(==, !new, 0)
  type Generation(==, !new, 0)
  type Name(==, !new, 0)
  type Token(==, !new, 0)
  type Payload(==, !new, 0)

  const MAX_SUBSCRIPTIONS := 1000

  datatype Code =
    | InvalidInput | ConfigurationConflict | CapacityExceeded | SubscriptionMissing | LeaseLost | EventNotActive
  datatype Reply<+T> = Ok(value: T) | Failed(code: Code)
  datatype Acknowledgement = Accepted | AlreadyAccepted | Gone

  datatype Completion = Delete | Archive
  datatype Policy = Policy(onCompletion: Completion, archiveRetention: Option<nat>)

  datatype Status = Active | Completed | Expired
  datatype Obligation = Pending | Acknowledged | Waived
  datatype Recipient = Recipient(name: Name, status: Obligation, leaseToken: Option<Token>, leaseUntil: Option<Time>)

  datatype Record = Record(
    payload: Payload,
    createdAt: Time,
    resolvedAt: Time,
    expiresAt: Option<Time>,
    settledAt: Option<Time>,
    archiveUntil: Option<Time>,
    status: Status,
    recipients: map<Generation, Recipient>)

  // One entry of the delivery index of a generation.
  datatype Slot = Slot(generation: Generation, id: EventId)

  datatype Store = Store(
    subscriptions: map<Name, Generation>,
    removed: map<Generation, Time>,
    retired: map<Generation, Time>,
    records: map<EventId, Record>,
    delivery: map<Slot, Time>,
    deadlines: map<EventId, Time>,
    archives: map<EventId, Time>,
    archiveDeadlines: map<EventId, Time>)

  predicate Due(at: Option<Time>, now: Time) {
    at.Some? && at.value <= now
  }

  predicate Before(t: Time, deadline: Option<Time>) {
    deadline.None? || t < deadline.value
  }

  predicate Registered(s: Store, name: Name, g: Generation) {
    name in s.subscriptions && s.subscriptions[name] == g
  }

  // ---- settlement -----------------------------------------------------------

  function WithoutDeliveries(delivery: map<Slot, Time>, id: EventId, gs: set<Generation>): map<Slot, Time> {
    map slot | slot in delivery && !(slot.id == id && slot.generation in gs) :: delivery[slot]
  }

  function Purged(s: Store, id: EventId, gs: set<Generation>): Store {
    s.(records := s.records - {id},
       delivery := WithoutDeliveries(s.delivery, id, gs),
       deadlines := s.deadlines - {id},
       archives := s.archives - {id},
       archiveDeadlines := s.archiveDeadlines - {id})
  }

  function LeasesCleared(rs: map<Generation, Recipient>): map<Generation, Recipient> {
    map g | g in rs :: rs[g].(leaseUntil := None)
  }

  function ArchiveUntil(p: Policy, at: Time): Option<Time> {
    if p.archiveRetention.Some? then Some(at + p.archiveRetention.value) else None
  }

  // A settled record is kept only by an archiving queue, and only until its archive retention ends.
  predicate Kept(p: Policy, at: Time, now: Time) {
    p.onCompletion.Archive? && !Due(ArchiveUntil(p, at), now)
  }

  function SettledRecord(p: Policy, r: Record, status: Status, at: Time): Record {
    r.(status := status, settledAt := Some(at), recipients := LeasesCleared(r.recipients),
       archiveUntil := ArchiveUntil(p, at))
  }

  // The record the script still holds after settling it, even when its key was deleted.
  function InMemory(p: Policy, r: Record, status: Status, at: Time): Record {
    if p.onCompletion.Archive? then SettledRecord(p, r, status, at)
    else r.(status := status, settledAt := Some(at), recipients := LeasesCleared(r.recipients))
  }

  function Archived(s: Store, id: EventId, kept: Record, at: Time): Store {
    Store(s.subscriptions, s.removed, s.retired,
          s.records[id := kept],
          WithoutDeliveries(s.delivery, id, kept.recipients.Keys),
          s.deadlines - {id},
          s.archives[id := at],
          if kept.archiveUntil.Some? then s.archiveDeadlines[id := kept.archiveUntil.value] else s.archiveDeadlines)
  }

  function Settled(p: Policy, s: Store, id: EventId, r: Record, status: Status, at: Time, now: Time): Store {
    if Kept(p, at, now) then Archived(s, id, SettledRecord(p, r, status, at), at) else Purged(s, id, r.recipients.Keys)
  }

  // ---- lazy materialisation of removals and deadlines -------------------------

  // The recipients whose subscription was removed while their obligation still mattered.
  function Waives(removed: map<Generation, Time>, r: Record): set<Generation> {
    set g | g in r.recipients && r.recipients[g].status.Pending? && g in removed && Before(removed[g], r.expiresAt)
  }

  function Waive(c: Recipient): Recipient {
    c.(status := Waived, leaseToken := None, leaseUntil := None)
  }

  function WaivedRecipients(rs: map<Generation, Recipient>, gs: set<Generation>): map<Generation, Recipient> {
    map g | g in rs :: if g in gs then Waive(rs[g]) else rs[g]
  }

  function RemovalTimes(removed: map<Generation, Time>, gs: set<Generation>): map<Generation, Time> {
    map g | g in gs && g in removed :: removed[g]
  }

  ghost function WaivedRecord(removed: map<Generation, Time>, r: Record): Record {
    var gs := Waives(removed, r);
    r.(recipients := WaivedRecipients(r.recipients, gs),
       resolvedAt := Latest(r.resolvedAt, RemovalTimes(removed, gs)))
  }

  // An event still open after its removals were applied: the waived obligations leave the delivery index.
  function Updated(s: Store, id: EventId, u: Record): Store
    requires id in s.records
  {
    var waived := set g | g in u.recipients && u.recipients[g].status.Waived?;
    s.(records := s.records[id := u], delivery := WithoutDeliveries(s.delivery, id, waived))
  }

  predicate Resolved(r: Record) {
    forall g :: g in r.recipients ==> !r.recipients[g].status.Pending?
  }

  // An active record whose removals have been applied is settled if nothing is owed or its deadline has passed.
  function Concluded(p: Policy, s: Store, id: EventId, u: Record, now: Time): Store
    requires id in s.records
  {
    if Resolved(u) then Settled(p, s, id, u, Completed, u.resolvedAt, now)
    else if Due(u.expiresAt, now) then Settled(p, s, id, u, Expired, u.expiresAt.value, now)
    else Updated(s, id, u)
  }

  // The record normalize leaves in the script's hands, whether or not it is still stored.
  ghost function InHand(p: Policy, removed: map<Generation, Time>, r: Record, now: Time): Record {
    if r.status.Active? then ConcludedInHand(p, WaivedRecord(removed, r), now) else r
  }

  function ConcludedInHand(p: Policy, u: Record, now: Time): Record {
    if Resolved(u) then InMemory(p, u, Completed, u.resolvedAt)
    else if Due(u.expiresAt, now) then InMemory(p, u, Expired, u.expiresAt.value)
    else u
  }

  // What the script's normalize leaves in the store when it is applied to the record of id at this instant.
  ghost function Normalized(p: Policy, s: Store, id: EventId, now: Time): Store
    requires id in s.records
  {
    var r := s.records[id];
    if r.status.Active? then Concluded(p, s, id, WaivedRecord(s.removed, r), now)
    else if Due(r.archiveUntil, now) then Purged(s, id, r.recipients.Keys)
    else s
  }

  // What a reader is told about an event: the script's current.
  ghost function Observe(p: Policy, s: Store, id: EventId, now: Time): Option<Record> {
    if id !in s.records then None
    else
      var t := Normalized(p, s, id, now);
      if id in t.records then Some(t.records[id]) else None
  }
}
