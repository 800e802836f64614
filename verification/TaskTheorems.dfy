/** What the task queues promise over whole runs. */
module TaskTheorems {
  import opened Basics
  import opened TaskModel
  import opened TaskRuns
  import opened TaskInvariant
  import opened TaskRetention
  import opened TaskMirror

  // ---- which record a step may change ------------------------------------------------

  predicate ChangesKey(a: Action, k: Key) {
    (a.Create? || a.Replace? || a.Promote? || a.Take? || a.Extend? || a.GiveUp? || a.Fail? || a.Succeed? || a.Stall?
      || a.Remove? || a.ForceRemove?)
    && a.key == k
  }

  predicate ChangesIdentity(a: Action, i: Identity) {
    ((a.ExpireTask? || a.ExpireTerminal?) && a.identity == i) || (a.LetGo? && a.edge.retained == i)
  }

  // The step is neither about this task nor about retention of its current generation.
  predicate Changes(s: Store, a: Action, k: Key)
    requires k in s.tasks
  {
    ChangesKey(a, k) || (ChangesIdentity(a, IdentityOf(s, k)) && s.tasks[k].outcome.Some?)
  }

  lemma SettledElsewhere(s: Store, k: Key, error: Option<Error>, now: Time, j: Key)
    requires k in s.tasks && s.tasks[k].outcome.Some? && j in s.tasks && j != k
    ensures j in Settled(s, k, error, now).tasks && Settled(s, k, error, now).tasks[j] == s.tasks[j]
  {
  }

  lemma FailedElsewhere(s: Store, k: Key, stall: bool, error: Error, retryAt: Option<Time>, now: Time, j: Key)
    requires k in s.tasks && j in s.tasks && j != k
    ensures j in FailedStore(s, k, stall, error, retryAt, now).tasks
    ensures FailedStore(s, k, stall, error, retryAt, now).tasks[j] == s.tasks[j]
  {
  }

  lemma SucceededElsewhere(s: Store, k: Key, value: Value, now: Time, j: Key)
    requires k in s.tasks && j in s.tasks && j != k
    ensures j in SucceededStore(s, k, value, now).tasks && SucceededStore(s, k, value, now).tasks[j] == s.tasks[j]
  {
  }

  lemma LetGoElsewhere(s: Store, e: Edge, now: Time, j: Key)
    requires j in s.tasks && (e.retained != IdentityOf(s, j) || s.tasks[j].outcome.None?)
    ensures j in HoldReleased(s, e, now).tasks && HoldReleased(s, e, now).tasks[j] == s.tasks[j]
  {
  }

  predicate ListedIsSettled(s: Store, k: Key)
    requires k in s.tasks
  {
    k in s.homes.succeeded || k in s.homes.failed ==> s.tasks[k].outcome.Some?
  }

  lemma ListedByInv(w: World, k: Key)
    requires Inv(w) && k in w.store.tasks
    ensures ListedIsSettled(w.store, k)
  {
    assert HomeOk(w.store.tasks, w.store.homes, k);
    assert TaskOk(w.store.tasks[k], Released(w.log, IdentityOf(w.store, k)));
  }

  lemma ExpiredElsewhere(s: Store, i: Identity, j: Key)
    requires j in s.tasks && (i != IdentityOf(s, j) || s.tasks[j].outcome.None?)
    ensures j in TaskExpired(s, i).tasks && TaskExpired(s, i).tasks[j] == s.tasks[j]
  {
  }

  lemma UnlistedElsewhere(s: Store, i: Identity, j: Key)
    requires j in s.tasks && (i != IdentityOf(s, j) || s.tasks[j].outcome.None?) && ListedIsSettled(s, j)
    ensures j in TerminalUnlisted(s, i).tasks && TerminalUnlisted(s, i).tasks[j] == s.tasks[j]
  {
  }

  lemma Untouched(w: World, a: Action, j: Key)
    requires Enabled(w, a) && j in w.store.tasks && !Changes(w.store, a, j) && ListedIsSettled(w.store, j)
    ensures j in Apply(w, a).store.tasks && Apply(w, a).store.tasks[j] == w.store.tasks[j]
  {
    match a
    case Fail(k, token, error, retryAt) => FailedElsewhere(w.store, k, false, error, retryAt, w.clock, j);
    case Stall(k) => FailedElsewhere(w.store, k, true, Stalled, StallRetry(w.store.tasks[k]), w.clock, j);
    case Succeed(k, token, value) => SucceededElsewhere(w.store, k, value, w.clock, j);
    case LetGo(e) => LetGoElsewhere(w.store, e, w.clock, j);
    case ExpireTask(i) => ExpiredElsewhere(w.store, i, j);
    case ExpireTerminal(i) => UnlistedElsewhere(w.store, i, j);
    case _ =>
  }

  // ---- no work is lost -------------------------------------------------------------------

  predicate Removes(a: Action, k: Key) {
    (a.Remove? || a.ForceRemove?) && a.key == k
  }

  ghost predicate Keeps(acts: seq<Action>, k: Key) {
    forall a :: a in acts ==> !Removes(a, k)
  }

  lemma WorkMoves(w: World, a: Action, i: Identity)
    requires Enabled(w, a) && Unsettled(w.store, i) && !Removes(a, i.key) && ChangesKey(a, i.key)
    ensures Unsettled(Apply(w, a).store, i) || i in Apply(w, a).log.settled
  {
  }

  lemma WorkStays(w: World, a: Action, i: Identity)
    requires Inv(w) && Enabled(w, a) && Unsettled(w.store, i) && !Removes(a, i.key)
    ensures Unsettled(Apply(w, a).store, i) || i in Apply(w, a).log.settled
  {
    ListedByInv(w, i.key);
    if !Changes(w.store, a, i.key) {
      Untouched(w, a, i.key);
    } else {
      WorkMoves(w, a, i);
    }
  }

  // A step that settles a generation finds it unsettled.
  lemma SettlesTheUnsettled(w: World, a: Action)
    requires Inv(w) && Enabled(w, a) && (a.Fail? || a.Succeed? || a.Stall?)
    ensures a.key in w.store.tasks && IdentityOf(w.store, a.key) !in w.log.settled
  {
    if a.Stall? {
      ActiveByScore(w, a.key);
    } else {
      ActiveByLock(w, a.key);
    }
  }

  lemma LogGrows(w: World, a: Action)
    requires Enabled(w, a)
    requires a.Fail? || a.Succeed? || a.Stall? ==>
      a.key in w.store.tasks && IdentityOf(w.store, a.key) !in w.log.settled
    ensures forall i ::
      i in w.log.settled ==> i in Apply(w, a).log.settled && Apply(w, a).log.settled[i] == w.log.settled[i]
    ensures w.log.terminal <= Apply(w, a).log.terminal
  {
  }

  // What is settled is never forgotten, and settles once.
  lemma SettledStays(w: World, a: Action)
    requires Inv(w) && Enabled(w, a)
    ensures forall i ::
      i in w.log.settled ==> i in Apply(w, a).log.settled && Apply(w, a).log.settled[i] == w.log.settled[i]
    ensures w.log.terminal <= Apply(w, a).log.terminal
    ensures forall k :: k in w.store.generations ==>
      k in Apply(w, a).store.generations && w.store.generations[k] <= Apply(w, a).store.generations[k]
  {
    hide Inv, Enabled, Apply;
    if a.Fail? || a.Succeed? || a.Stall? {
      SettlesTheUnsettled(w, a);
    }
    LogGrows(w, a);
    GenerationsGrow(w, a);
  }

  lemma DisposedGenerations(s: Store, k: Key, now: Time)
    requires k in s.tasks && s.tasks[k].outcome.Some?
    ensures Disposed(s, k, now).generations == s.generations
  {
  }

  lemma GenerationsGrow(w: World, a: Action)
    requires Enabled(w, a)
    ensures forall k :: k in w.store.generations ==>
      k in Apply(w, a).store.generations && w.store.generations[k] <= Apply(w, a).store.generations[k]
  {
    hide Placed, Unplaced, FirstWaiting, MayHold, HoldsEnlisted;
    if a.LetGo? {
      var t := Loosened(w.store, a.edge, w.clock);
      if Current(t, a.edge.retained) && t.tasks[a.edge.retained.key].outcome.Some? && !Held(t.holds, a.edge.retained) {
        DisposedGenerations(t, a.edge.retained.key, w.clock);
      }
    }
  }

  // No unsettled generation disappears unless it is removed on request.
  lemma {:induction false} WorkIsNeverLost(w: World, acts: seq<Action>, i: Identity)
    requires Inv(w) && Legal(w, acts) && (Unsettled(w.store, i) || i in w.log.settled) && Keeps(acts, i.key)
    ensures Unsettled(Run(w, acts).store, i) || i in Run(w, acts).log.settled
    decreases |acts|
  {
    if acts != [] {
      assert acts[0] in acts && forall a :: a in acts[1..] ==> a in acts;
      if Unsettled(w.store, i) {
        WorkStays(w, acts[0], i);
      }
      SettledStays(w, acts[0]);
      StepKeepsInv(w, acts[0]);
      WorkIsNeverLost(Apply(w, acts[0]), acts[1..], i);
    }
  }

  // An unsettled record is in exactly one of the three working lists, a settled or missing one in none, and no list
  // repeats.
  lemma OneHome(w: World, acts: seq<Action>, k: Key)
    requires Sound(w) && Legal(w, acts)
    ensures var s := Run(w, acts).store;
      && NoRepeats(s.homes.wait)
      && Count(k in s.homes.wait) + Count(k in s.homes.scheduled) + Count(k in s.homes.active)
         == Count(k in s.tasks && s.tasks[k].outcome.None?)
      && Count(k in s.homes.succeeded) + Count(k in s.homes.failed) <= Count(k in s.tasks && s.tasks[k].outcome.Some?)
  {
    RunIsSound(w, acts);
    var v := Run(w, acts);
    assert HomeOk(v.store.tasks, v.store.homes, k);
    if k in v.store.tasks {
      assert TaskOk(v.store.tasks[k], Released(v.log, Identity(k, v.store.tasks[k].generation)));
    }
  }

  // Attempts are conserved, and the stall budget is overrun only by the stall that settles the task as failed.
  lemma AttemptsAreAccountedFor(w: World, acts: seq<Action>, k: Key)
    requires Sound(w) && Legal(w, acts) && k in Run(w, acts).store.tasks
    ensures var v := Run(w, acts); var t := v.store.tasks[k];
      && t.attempt == t.handlerFailures + t.stalled + Released(v.log, IdentityOf(v.store, k))
                      + Count(k in v.store.homes.active) + Count(t.outcome == Some(Success))
      && t.stalled <= t.options.maxStalled + 1
      && (t.stalled == t.options.maxStalled + 1 ==> t.outcome == Some(Failure))
  {
    RunIsSound(w, acts);
    var v := Run(w, acts);
    assert HomeOk(v.store.tasks, v.store.homes, k);
    assert TaskOk(v.store.tasks[k], Released(v.log, Identity(k, v.store.tasks[k].generation)));
  }

  // ---- settlement is written once ----------------------------------------------------------

  lemma {:induction false} SettlementIsFinal(w: World, acts: seq<Action>, i: Identity)
    requires Inv(w) && Legal(w, acts) && i in w.log.settled
    ensures i in Run(w, acts).log.settled && Run(w, acts).log.settled[i] == w.log.settled[i]
    decreases |acts|
  {
    if acts != [] {
      SettledStays(w, acts[0]);
      StepKeepsInv(w, acts[0]);
      SettlementIsFinal(Apply(w, acts[0]), acts[1..], i);
    }
  }

  lemma {:induction false} GenerationsNeverDecrease(w: World, acts: seq<Action>, k: Key)
    requires Inv(w) && Legal(w, acts) && k in w.store.generations
    ensures k in Run(w, acts).store.generations && w.store.generations[k] <= Run(w, acts).store.generations[k]
    ensures w.log.terminal <= Run(w, acts).log.terminal
    decreases |acts|
  {
    if acts != [] {
      SettledStays(w, acts[0]);
      StepKeepsInv(w, acts[0]);
      GenerationsNeverDecrease(Apply(w, acts[0]), acts[1..], k);
    }
  }

  // The one terminal announcement of this generation.
  predicate AnnouncedOnceAt(log: Log, i: Identity, n: nat) {
    n < |log.terminal| && log.terminal[n] == i && forall m :: 0 <= m < |log.terminal| && log.terminal[m] == i ==> m == n
  }

  // Whoever reads the result of a generation, at any two times, reads the same: the one its only settlement wrote.
  lemma HandleReadsOneResult(w: World, acts: seq<Action>, i: Identity)
    requires Inv(w) && Legal(w, acts) && i in w.store.kept.results && i in Run(w, acts).store.kept.results
    ensures Run(w, acts).store.kept.results[i] == w.store.kept.results[i]
    ensures exists n :: AnnouncedOnceAt(w.log, i, n) && AnnouncedOnceAt(Run(w, acts).log, i, n)
  {
    RunKeepsInv(w, acts);
    SettlementIsFinal(w, acts, i);
    assert i in w.log.terminal;
    GenerationsNeverDecrease(w, acts, i.key);
    AnnouncementStays(w.log, Run(w, acts).log, i);
  }

  lemma AnnouncementStays(l: Log, m: Log, i: Identity)
    requires Unique(l.terminal) && Unique(m.terminal) && l.terminal <= m.terminal && i in l.terminal
    ensures exists n :: AnnouncedOnceAt(l, i, n) && AnnouncedOnceAt(m, i, n)
  {
    var n :| 0 <= n < |l.terminal| && l.terminal[n] == i;
    assert AnnouncedOnceAt(l, i, n) && AnnouncedOnceAt(m, i, n);
  }

  // ---- fencing -----------------------------------------------------------------------------

  // A waiting task is never locked, so taking it never finds another worker's lease.
  lemma WaitingIsUnlocked(w: World, acts: seq<Action>, k: Key)
    requires Sound(w) && Legal(w, acts) && k in Run(w, acts).store.homes.wait
    ensures !Locked(Run(w, acts).store, k, Run(w, acts).clock)
  {
    RunIsSound(w, acts);
    assert HomeOk(Run(w, acts).store.tasks, Run(w, acts).store.homes, k);
  }

  // A lease belongs to an existing, unsettled task in the active list, scored with the lease's own deadline.
  lemma LeaseIsWork(w: World, acts: seq<Action>, k: Key)
    requires Sound(w) && Legal(w, acts) && Locked(Run(w, acts).store, k, Run(w, acts).clock)
    ensures var s := Run(w, acts).store;
      && k in s.tasks && s.tasks[k].outcome.None?
      && k in s.homes.active && s.homes.active[k] == s.locks[k].until
      && k !in s.homes.wait && k !in s.homes.scheduled
  {
    RunIsSound(w, acts);
    ActiveByLock(Run(w, acts), k);
    assert HomeOk(Run(w, acts).store.tasks, Run(w, acts).store.homes, k);
  }

  lemma LetGoKeepsLocks(s: Store, e: Edge, now: Time)
    ensures HoldReleased(s, e, now).locks == s.locks
  {
  }

  lemma FailedLocks(s: Store, k: Key, stall: bool, error: Error, retryAt: Option<Time>, now: Time)
    requires k in s.tasks
    ensures FailedStore(s, k, stall, error, retryAt, now).locks == s.locks - {k}
  {
  }

  // Locks are only ever created by taking, prolonged by extending, and dropped.
  lemma LocksAfter(w: World, a: Action, k: Key)
    requires Enabled(w, a) && k in Apply(w, a).store.locks
    ensures (a.Take? && a.key == k && Apply(w, a).store.locks[k].token == a.token)
      || (k in w.store.locks && Apply(w, a).store.locks[k].token == w.store.locks[k].token
          && (Apply(w, a).store.locks[k] == w.store.locks[k]
            || (a.Extend? && a.key == k && a.token == w.store.locks[k].token)))
  {
    hide Placed, HoldReleased, FailedStore, FirstWaiting, MayHold, HoldsEnlisted;
    match a
    case Fail(j, token, error, retryAt) => FailedLocks(w.store, j, false, error, retryAt, w.clock);
    case Stall(j) => FailedLocks(w.store, j, true, Stalled, StallRetry(w.store.tasks[j]), w.clock);
    case LetGo(e) => LetGoKeepsLocks(w.store, e, w.clock);
    case _ =>
  }

  lemma TokensStay(w: World, a: Action)
    requires Enabled(w, a)
    ensures w.log.tokens <= Apply(w, a).log.tokens && w.clock <= Apply(w, a).clock
  {
  }

  lemma NeverRevived(w: World, a: Action, k: Key, token: Token)
    requires Enabled(w, a) && token in w.log.tokens && !Owns(w.store, k, token, w.clock)
    ensures !Owns(Apply(w, a).store, k, token, Apply(w, a).clock)
  {
    TokensStay(w, a);
    if k in Apply(w, a).store.locks {
      LocksAfter(w, a, k);
    }
  }

  // A token that was issued and no longer owns the task never owns it again.
  lemma {:induction false} FencedForever(w: World, acts: seq<Action>, k: Key, token: Token)
    requires Legal(w, acts) && token in w.log.tokens && !Owns(w.store, k, token, w.clock)
    ensures !Owns(Run(w, acts).store, k, token, Run(w, acts).clock)
    decreases |acts|
  {
    if acts != [] {
      NeverRevived(w, acts[0], k, token);
      TokensStay(w, acts[0]);
      FencedForever(Apply(w, acts[0]), acts[1..], k, token);
    }
  }

  // A stale token is refused by every operation that presents one, for ever after.
  lemma StaleTokenNeverActs(w: World, acts: seq<Action>, k: Key, token: Token, timeout: nat, error: Error,
                            retryAt: Option<Time>, value: Value)
    requires Legal(w, acts) && token in w.log.tokens && !Owns(w.store, k, token, w.clock)
    ensures var v := Run(w, acts);
      && !Enabled(v, Extend(k, token, timeout)) && !Enabled(v, GiveUp(k, token))
      && !Enabled(v, Fail(k, token, error, retryAt)) && !Enabled(v, Succeed(k, token, value))
  {
    FencedForever(w, acts, k, token);
  }

  predicate Presents(a: Action, k: Key, token: Token) {
    (a.Extend? || a.GiveUp? || a.Fail? || a.Succeed?) && a.key == k && a.token == token
  }

  lemma LeaseHolds(w: World, a: Action, k: Key, token: Token)
    requires Inv(w) && Enabled(w, a) && Owns(w.store, k, token, w.clock) && Apply(w, a).clock < w.store.locks[k].until
    requires !Presents(a, k, token) && !(a.ForceRemove? && a.key == k)
    ensures k in Apply(w, a).store.locks && Apply(w, a).store.locks[k] == w.store.locks[k]
    ensures k in w.store.tasks && k in Apply(w, a).store.tasks && Apply(w, a).store.tasks[k] == w.store.tasks[k]
  {
    ActiveByLock(w, k);
    ListedByInv(w, k);
    assert HomeOk(w.store.tasks, w.store.homes, k);
    Untouched(w, a, k);
    LockStays(w, a, k);
  }

  lemma LockStays(w: World, a: Action, k: Key)
    requires Enabled(w, a) && k in w.store.locks && !ChangesKey(a, k) && k in w.store.tasks
    ensures k in Apply(w, a).store.locks && Apply(w, a).store.locks[k] == w.store.locks[k]
  {
    hide FailedStore, HoldReleased, FirstWaiting, MayHold, Placed, Unplaced, Held, HoldsEnlisted;
    match a
    case Fail(j, token, error, retryAt) => FailedLocks(w.store, j, false, error, retryAt, w.clock);
    case Stall(j) => FailedLocks(w.store, j, true, Stalled, StallRetry(w.store.tasks[j]), w.clock);
    case LetGo(e) => LetGoKeepsLocks(w.store, e, w.clock);
    case _ =>
  }

  lemma {:induction false} ClockGrows(w: World, acts: seq<Action>)
    requires Legal(w, acts)
    ensures w.clock <= Run(w, acts).clock
    decreases |acts|
  {
    if acts != [] {
      TokensStay(w, acts[0]);
      ClockGrows(Apply(w, acts[0]), acts[1..]);
    }
  }

  // While a lease runs, nobody but its holder changes the task: not a worker, not maintenance, short of forced removal.
  lemma {:induction false} LeaseExcludesOthers(w: World, acts: seq<Action>, k: Key, token: Token)
    requires Inv(w) && Legal(w, acts) && Owns(w.store, k, token, w.clock) && Run(w, acts).clock < w.store.locks[k].until
    requires forall a :: a in acts ==> !Presents(a, k, token) && !(a.ForceRemove? && a.key == k)
    ensures Owns(Run(w, acts).store, k, token, Run(w, acts).clock) && Run(w, acts).store.locks[k] == w.store.locks[k]
    ensures k in w.store.tasks && k in Run(w, acts).store.tasks && Run(w, acts).store.tasks[k] == w.store.tasks[k]
    decreases |acts|
  {
    if acts == [] {
      ActiveByLock(w, k);
    } else {
      var a, v := acts[0], Apply(w, acts[0]);
      assert a in acts && forall b :: b in acts[1..] ==> b in acts;
      ClockGrows(v, acts[1..]);
      LeaseHolds(w, a, k, token);
      StepKeepsInv(w, a);
      LeaseExcludesOthers(v, acts[1..], k, token);
    }
  }
}
