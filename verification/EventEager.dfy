/** The eager reading of the event history: what every event should be at any instant, told from the log alone. */
module EventEager {
  import opened Basics
  import opened EventModel
  import opened EventRuns

  // When a captured recipient stopped owing anything: its acknowledgement, or else a removal that beat the deadline.
  function ResolutionTime(log: Log, id: EventId, g: Generation): Option<Time>
    requires id in log.emissions
  {
    if Slot(g, id) in log.acks then Some(log.acks[Slot(g, id)])
    else if g in log.removals && Before(log.removals[g], log.emissions[id].expiresAt) then Some(log.removals[g])
    else None
  }

  function Resolutions(log: Log, id: EventId): map<Generation, Time>
    requires id in log.emissions
  {
    map g | g in log.emissions[id].recipients && ResolutionTime(log, id, g).Some? :: ResolutionTime(log, id, g).value
  }

  predicate AllResolved(log: Log, id: EventId)
    requires id in log.emissions
  {
    forall g :: g in log.emissions[id].recipients ==> ResolutionTime(log, id, g).Some?
  }

  ghost function LastResolution(log: Log, id: EventId): Time
    requires id in log.emissions
  {
    Latest(log.emissions[id].createdAt, Resolutions(log, id))
  }

  datatype Outcome = Open | Done(status: Status, at: Time)

  ghost function EagerOutcome(log: Log, id: EventId, now: Time): Outcome
    requires id in log.emissions
  {
    if AllResolved(log, id) then Done(Completed, LastResolution(log, id))
    else if Due(log.emissions[id].expiresAt, now) then Done(Expired, log.emissions[id].expiresAt.value)
    else Open
  }

  function EagerObligation(log: Log, id: EventId, g: Generation): Obligation
    requires id in log.emissions
  {
    if Slot(g, id) in log.acks then Obligation.Acknowledged
    else if ResolutionTime(log, id, g).Some? then Waived
    else Pending
  }

  // A record without its leases.
  datatype View = View(
    payload: Payload,
    createdAt: Time,
    resolvedAt: Time,
    expiresAt: Option<Time>,
    settledAt: Option<Time>,
    archiveUntil: Option<Time>,
    status: Status,
    names: map<Generation, Name>,
    obligations: map<Generation, Obligation>)

  function ViewOf(r: Record): View {
    View(r.payload, r.createdAt, r.resolvedAt, r.expiresAt, r.settledAt, r.archiveUntil, r.status,
         map g | g in r.recipients :: r.recipients[g].name,
         map g | g in r.recipients :: r.recipients[g].status)
  }

  ghost function EagerRecord(p: Policy, log: Log, id: EventId, o: Outcome): View
    requires id in log.emissions
  {
    var e := log.emissions[id];
    View(e.payload, e.createdAt, LastResolution(log, id), e.expiresAt,
         if o.Done? then Some(o.at) else None,
         if o.Done? then ArchiveUntil(p, o.at) else None,
         if o.Done? then o.status else Active,
         e.recipients,
         map g | g in e.recipients :: EagerObligation(log, id, g))
  }

  // The answer an eager queue gives: nothing once the event was disposed of, and otherwise its exact record.
  ghost function EagerView(p: Policy, log: Log, id: EventId, now: Time): Option<View> {
    if id !in log.emissions then None
    else
      var o := EagerOutcome(log, id, now);
      if o.Done? && !Kept(p, o.at, now) then None else Some(EagerRecord(p, log, id, o))
  }
}
