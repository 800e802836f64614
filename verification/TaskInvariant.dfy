/** What every reachable state of the task queues satisfies. */
module TaskInvariant {
  import opened Basics
  import opened TaskModel
  import opened TaskRuns

  // ---- one home per task -------------------------------------------------------

  predicate NoRepeats(wait: seq<Key>) {
    forall i, j :: 0 <= i < j < |wait| ==> wait[i] != wait[j]
  }

  predicate HomeOk(tasks: map<Key, Task>, h: Homes, k: Key) {
    && (k in h.wait <==> k in tasks && tasks[k].place.Wait?)
    && (k in h.scheduled <==> k in tasks && tasks[k].place.Scheduled?)
    && (k in h.active <==> k in tasks && tasks[k].place.Active?)
    && (k in h.succeeded <==> k in tasks && tasks[k].place.Succeeded?)
    && (k in h.failed <==> k in tasks && tasks[k].place.Failed?)
  }

  ghost predicate HomesInv(tasks: map<Key, Task>, h: Homes) {
    NoRepeats(h.wait) && forall k :: HomeOk(tasks, h, k)
  }

  // ---- records -------------------------------------------------------------------

  function Count(b: bool): nat {
    if b then 1 else 0
  }

  // Unsettled work is runnable or running, settled work is neither; attempts are all accounted for; stalls are bounded.
  predicate TaskOk(t: Task, released: nat) {
    && (t.outcome.None? <==> t.place.Wait? || t.place.Scheduled? || t.place.Active?)
    && t.attempt
      == t.handlerFailures + t.stalled + released + Count(t.place.Active?) + Count(t.outcome == Some(Success))
    && t.stalled <= t.options.maxStalled + 1
    && (t.stalled == t.options.maxStalled + 1 ==> t.outcome == Some(Failure))
    && |t.errors| <= t.options.maxErrors
  }

  ghost predicate TasksInv(tasks: map<Key, Task>, generations: map<Key, nat>, log: Log) {
    && (forall k :: k in tasks ==> TaskOk(tasks[k], Released(log, Identity(k, tasks[k].generation))))
    && (forall k :: k in tasks ==> k in generations && generations[k] == tasks[k].generation)
    && (forall k :: k in generations ==> 0 < generations[k])
    && (forall i :: i in log.released ==> Known(generations, i))
  }

  // ---- locks ----------------------------------------------------------------------

  ghost predicate LocksInv(active: map<Key, Time>, locks: map<Key, Lock>, tokens: set<Token>, clock: Time) {
    && (forall k :: k in active ==> k in locks && locks[k].until == active[k])
    && (forall k :: k in locks && clock < locks[k].until ==> k in active)
    && (forall k :: k in locks ==> locks[k].token in tokens)
  }

  // ---- holds ----------------------------------------------------------------------

  ghost predicate HoldsInv(s: Store) {
    && s.holds.retainedBy <= s.holds.retains
    && (forall e :: e in s.holds.retains ==> Unsettled(s, e.holder) || e.holder in s.holds.continuation)
    && (forall e :: e in s.holds.retainedBy ==> Current(s, e.retained))
    && (forall e :: e in s.holds.retains ==> Known(s.generations, e.holder) && Known(s.generations, e.retained))
  }

  // ---- settlement -------------------------------------------------------------------

  predicate Unique(terminal: seq<Identity>) {
    forall i, j :: 0 <= i < j < |terminal| ==> terminal[i] != terminal[j]
  }

  ghost predicate SettledInv(s: Store, log: Log) {
    && (forall i :: i in log.settled ==> Known(s.generations, i))
    && (forall k :: k in s.tasks ==> (IdentityOf(s, k) in log.settled <==> s.tasks[k].outcome.Some?))
    && (forall k ::
      k in s.tasks && IdentityOf(s, k) in log.settled ==>
        s.tasks[k].outcome == Some(log.settled[IdentityOf(s, k)].outcome))
    && (forall i :: i in s.kept.results ==> i in log.settled && s.kept.results[i] == log.settled[i])
    && Unique(log.terminal)
    && (forall i :: i in log.terminal <==> i in log.settled)
  }

  // Nothing settled is kept without an expiry.
  ghost predicate ExpiryInv(s: Store) {
    && (forall k :: k in s.tasks && s.tasks[k].outcome.Some? ==> IdentityOf(s, k) in s.kept.taskExpiry)
    && s.kept.results.Keys == s.kept.resultExpiry.Keys
    && s.kept.deadLetters.Keys == s.kept.deadLetterExpiry.Keys
  }

  ghost predicate TasksOf(w: World) {
    TasksInv(w.store.tasks, w.store.generations, w.log)
  }

  ghost predicate LocksOf(w: World) {
    LocksInv(w.store.homes.active, w.store.locks, w.log.tokens, w.clock)
  }

  ghost predicate Inv(w: World) {
    && HomesInv(w.store.tasks, w.store.homes)
    && TasksOf(w)
    && LocksOf(w)
    && HoldsInv(w.store)
    && SettledInv(w.store, w.log)
    && ExpiryInv(w.store)
  }

  // ---- what retention leaves behind ---------------------------------------------------

  // Both sides of a hold agree, except that a forced removal leaves the holder's side behind.
  ghost predicate MirrorInv(w: World) {
    && (forall e :: e in w.store.holds.retains ==> (e in w.store.holds.retainedBy <==> e.retained !in w.log.forced))
    && (forall i :: i in w.log.forced ==> Known(w.store.generations, i) && !Current(w.store, i))
    && (forall h :: h in w.store.holds.continuation ==> Known(w.store.generations, h))
  }

  predicate Marked(t: Task) {
    t.outcome.Some? && (PolicyOf(t).MarkSuccess? || PolicyOf(t).MarkFailure?)
  }

  // A terminal list holds only records their policy puts there, and such a record is due to leave its list unless its
  // terminal retention has already ended once.
  predicate ListingOk(w: World, k: Key)
    requires k in w.store.tasks
  {
    var t, i := w.store.tasks[k], IdentityOf(w.store, k);
    && (t.place.Succeeded? || t.place.Failed? ==> Marked(t) && t.place == PlaceOf(PolicyOf(t)))
    && (Marked(t) ==> (i in w.store.kept.terminalExpiry <==> i !in w.log.unlisted))
  }

  ghost predicate ListingInv(w: World) {
    && (forall k :: k in w.store.tasks ==> ListingOk(w, k))
    && (forall i :: i in w.store.kept.terminalExpiry ==> i in w.log.settled)
    && (forall i :: i in w.store.kept.taskExpiry ==> i in w.log.settled)
    && (forall i :: i in w.store.kept.deadLetterExpiry ==> i in w.log.settled)
    && (forall i :: i in w.log.unlisted ==> i in w.log.settled)
  }

  // ---- what policies dispose of -------------------------------------------------------

  // What the task was offered with for the way it ended.
  function Chosen(o: Options, outcome: Outcome): Policy {
    match outcome
    case Success => o.onSuccess
    case Failure => o.onFailure
  }

  // Nobody holds this generation.
  ghost predicate Unheld(h: Holds, i: Identity) {
    forall e :: e in h.retainedBy ==> e.retained != i
  }

  // A settled record that its policy deletes is still there only because something holds it.
  ghost predicate DisposalInv(s: Store) {
    forall k :: k in s.tasks && s.tasks[k].outcome.Some? && Chosen(s.tasks[k].options, s.tasks[k].outcome.value).Delete?
      ==> !Unheld(s.holds, Identity(k, s.tasks[k].generation))
  }

  ghost predicate Sound(w: World) {
    Inv(w) && MirrorInv(w) && ListingInv(w) && DisposalInv(w.store)
  }
}
