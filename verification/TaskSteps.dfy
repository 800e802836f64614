/** The invariant of the task queues is kept by each atomic step, and so by every run. */
module TaskSteps {
  import opened Basics
  import opened TaskModel
  import opened TaskRuns
  import opened TaskInvariant
  import opened TaskProofs
  import opened TaskSettle

  // ---- moving unsettled work ------------------------------------------------------

  // An unsettled task goes to another list; its record changes in nothing settlement or retention depends on.
  ghost predicate MoveShape(w: World, v: World, k: Key, t: Task, score: Time) {
    && k in w.store.tasks && w.store.tasks[k].outcome.None? && t.outcome.None?
    && t.generation == w.store.tasks[k].generation
    && v.store.tasks == w.store.tasks[k := t]
    && v.store.homes == Placed(w.store.homes, k, t.place, score)
    && v.store.generations == w.store.generations && v.store.holds == w.store.holds && v.store.kept == w.store.kept
    && v.log.settled == w.log.settled && v.log.terminal == w.log.terminal
    && v.clock == w.clock
  }

  lemma MoveHolds(w: World, v: World, k: Key, t: Task, score: Time)
    requires HoldsInv(w.store) && MoveShape(w, v, k, t, score)
    ensures HoldsInv(v.store)
  {
  }

  lemma MoveSettled(w: World, v: World, k: Key, t: Task, score: Time)
    requires SettledInv(w.store, w.log) && ExpiryInv(w.store) && MoveShape(w, v, k, t, score)
    ensures SettledInv(v.store, v.log) && ExpiryInv(v.store)
  {
  }

  lemma MoveKeepsInv(w: World, v: World, k: Key, t: Task, score: Time)
    requires Inv(w) && MoveShape(w, v, k, t, score)
    requires TasksOf(v) && LocksOf(v)
    ensures Inv(v)
  {
    PlacedHomes(w.store.tasks, w.store.homes, k, t, score);
    MoveHolds(w, v, k, t, score);
    MoveSettled(w, v, k, t, score);
  }

  lemma PromoteKeepsInv(w: World, k: Key)
    requires Inv(w) && Enabled(w, Promote(k))
    ensures Inv(Apply(w, Promote(k)))
  {
    assert HomeOk(w.store.tasks, w.store.homes, k);
    var t := w.store.tasks[k].(place := Wait);
    TasksUpdated(w.store.tasks, w.store.generations, w.log, k, t);
    assert Placed(w.store.homes, k, Wait, w.clock).active == w.store.homes.active;
    MoveKeepsInv(w, Apply(w, Promote(k)), k, t, w.clock);
  }

  lemma RelockedLocks(h: Homes, locks: map<Key, Lock>, tokens: set<Token>, k: Key, token: Token, until: Time,
                      clock: Time)
    requires LocksInv(h.active, locks, tokens, clock) && token in tokens
    ensures LocksInv(Placed(h, k, Active, until).active, locks[k := Lock(token, until)], tokens, clock)
  {
  }

  function TakenTask(t: Task): Task {
    t.(attempt := t.attempt + 1, place := Active)
  }

  lemma TakenShape(w: World, k: Key, token: Token, timeout: nat)
    requires Enabled(w, Take(k, token, timeout)) && w.store.tasks[k].outcome.None?
    ensures MoveShape(w, Apply(w, Take(k, token, timeout)), k, TakenTask(w.store.tasks[k]), w.clock + timeout)
  {
  }

  lemma TakenTasks(w: World, k: Key, token: Token, timeout: nat)
    requires Inv(w) && Enabled(w, Take(k, token, timeout))
    ensures w.store.tasks[k].outcome.None?
    ensures TasksOf(Apply(w, Take(k, token, timeout)))
  {
    assert HomeOk(w.store.tasks, w.store.homes, k);
    var v := Apply(w, Take(k, token, timeout));
    TasksUpdated(w.store.tasks, w.store.generations, w.log, k, TakenTask(w.store.tasks[k]));
    TakenShape(w, k, token, timeout);
    TokensKeepTasks(v.store.tasks, w.store.generations, w.log, v.log);
  }

  lemma TakenLocks(w: World, k: Key, token: Token, timeout: nat)
    requires LocksOf(w) && Enabled(w, Take(k, token, timeout))
    ensures LocksOf(Apply(w, Take(k, token, timeout)))
  {
  }

  lemma TakeKeepsInv(w: World, k: Key, token: Token, timeout: nat)
    requires Inv(w) && Enabled(w, Take(k, token, timeout))
    ensures Inv(Apply(w, Take(k, token, timeout)))
  {
    hide MoveShape, TasksOf, LocksOf, HomesInv, HoldsInv, SettledInv, ExpiryInv, Apply;
    TakenTasks(w, k, token, timeout);
    TakenShape(w, k, token, timeout);
    TakenLocks(w, k, token, timeout);
    MoveKeepsInv(w, Apply(w, Take(k, token, timeout)), k, TakenTask(w.store.tasks[k]), w.clock + timeout);
  }

  lemma TokensKeepTasks(tasks: map<Key, Task>, generations: map<Key, nat>, l: Log, m: Log)
    requires TasksInv(tasks, generations, l) && m.released == l.released
    ensures TasksInv(tasks, generations, m)
  {
  }

  lemma ExtendedTasks(w: World, k: Key, token: Token, timeout: nat)
    requires Inv(w) && Enabled(w, Extend(k, token, timeout))
    ensures var v := Apply(w, Extend(k, token, timeout)); var t := w.store.tasks[k];
      t.place.Active? && MoveShape(w, v, k, t, w.clock + timeout) && v.store.tasks == w.store.tasks
  {
    hide Placed;
    assert HomeOk(w.store.tasks, w.store.homes, k);
    assert TaskOk(w.store.tasks[k], Released(w.log, Identity(k, w.store.tasks[k].generation)));
    assert w.store.tasks[k].(place := Active) == w.store.tasks[k];
  }

  lemma ExtendKeepsInv(w: World, k: Key, token: Token, timeout: nat)
    requires Inv(w) && Enabled(w, Extend(k, token, timeout))
    ensures Inv(Apply(w, Extend(k, token, timeout)))
  {
    hide HomesInv, HoldsInv, SettledInv, ExpiryInv, TasksInv, LocksInv, MoveShape, Placed;
    var v := Apply(w, Extend(k, token, timeout));
    ExtendedTasks(w, k, token, timeout);
    TokenIsIssued(w, k, token);
    RelockedLocks(w.store.homes, w.store.locks, w.log.tokens, k, token, w.clock + timeout, w.clock);
    MoveKeepsInv(w, v, k, w.store.tasks[k], w.clock + timeout);
  }

  lemma TokenIsIssued(w: World, k: Key, token: Token)
    requires LocksOf(w) && Owns(w.store, k, token, w.clock)
    ensures token in w.log.tokens
  {
  }

  lemma ReleasedMore(tasks: map<Key, Task>, generations: map<Key, nat>, log: Log, k: Key, t: Task)
    requires TasksInv(tasks, generations, log) && k in tasks && t.generation == tasks[k].generation
    requires TaskOk(t, Released(log, Identity(k, t.generation)) + 1)
    ensures var i := Identity(k, t.generation);
      TasksInv(tasks[k := t], generations, log.(released := log.released[i := Released(log, i) + 1]))
  {
  }

  // Leaving the active list with its lock gone breaks no other lock.
  lemma UnlockedLocks(w: World, k: Key)
    requires LocksInv(w.store.homes.active, w.store.locks, w.log.tokens, w.clock)
    ensures forall score ::
      LocksInv(Placed(w.store.homes, k, Wait, score).active, w.store.locks - {k}, w.log.tokens, w.clock)
    ensures forall score ::
      LocksInv(Placed(w.store.homes, k, Scheduled, score).active, w.store.locks - {k}, w.log.tokens, w.clock)
  {
  }

  lemma GiveUpKeepsInv(w: World, k: Key, token: Token)
    requires Inv(w) && Enabled(w, GiveUp(k, token))
    ensures Inv(Apply(w, GiveUp(k, token)))
  {
    assert HomeOk(w.store.tasks, w.store.homes, k);
    var v := Apply(w, GiveUp(k, token));
    var t := w.store.tasks[k].(place := Wait);
    ReleasedMore(w.store.tasks, w.store.generations, w.log, k, t);
    UnlockedLocks(w, k);
    MoveKeepsInv(w, v, k, t, w.clock);
  }

  // ---- failing -----------------------------------------------------------------------

  lemma ErrorsStayBounded(errors: seq<Entry>, e: Entry, max: nat)
    requires |errors| <= max
    ensures |ErrorsKept(errors, e, max)| <= max
  {
  }

  lemma RetryKeepsInv(w: World, k: Key, stall: bool, error: Error, retryAt: Option<Time>)
    requires Inv(w) && k in w.store.tasks && w.store.tasks[k].place.Active? && WillRetry(error, retryAt)
    requires stall ==> w.store.tasks[k].stalled < w.store.tasks[k].options.maxStalled
    ensures Inv(w.(store := FailedStore(w.store, k, stall, error, retryAt, w.clock)))
  {
    assert HomeOk(w.store.tasks, w.store.homes, k);
    var t0 := Failing(w.store.tasks[k], stall, error, retryAt, w.clock);
    var t := t0.(place := if w.clock < retryAt.value then Scheduled else Wait);
    ErrorsStayBounded(w.store.tasks[k].errors, Entry(error, w.clock, retryAt), t.options.maxErrors);
    TasksUpdated(w.store.tasks, w.store.generations, w.log, k, t);
    Overwritten(w.store.tasks, k, t0, t);
    UnlockedLocks(w, k);
    MoveKeepsInv(w, w.(store := FailedStore(w.store, k, stall, error, retryAt, w.clock)), k, t,
                 if w.clock < retryAt.value then retryAt.value else w.clock);
  }

  lemma FailureSettles(w: World, k: Key, stall: bool, error: Error, retryAt: Option<Time>)
    requires Inv(w) && k in w.store.tasks && w.store.tasks[k].place.Active? && !WillRetry(error, retryAt)
    ensures Inv(World(FailedStore(w.store, k, stall, error, retryAt, w.clock), FailedLog(w, k, error, retryAt),
                      w.clock))
  {
    assert HomeOk(w.store.tasks, w.store.homes, k);
    var t0 := Failing(w.store.tasks[k], stall, error, retryAt, w.clock);
    var t := t0.(outcome := Some(Failure));
    ErrorsStayBounded(w.store.tasks[k].errors, Entry(error, w.clock, retryAt), t.options.maxErrors);
    assert Settling(w, k, t);
    SettleKeepsInv(w, k, t, Some(error));
    Overwritten(w.store.tasks, k, t0, t);
    assert WithTask(WithTask(Unlocked(w.store, k), k, t0), k, t) == WithTask(Unlocked(w.store, k), k, t);
  }

  lemma FailKeepsInv(w: World, k: Key, token: Token, error: Error, retryAt: Option<Time>)
    requires Inv(w) && Enabled(w, Fail(k, token, error, retryAt))
    ensures Inv(Apply(w, Fail(k, token, error, retryAt)))
  {
    assert HomeOk(w.store.tasks, w.store.homes, k);
    if WillRetry(error, retryAt) {
      RetryKeepsInv(w, k, false, error, retryAt);
    } else {
      FailureSettles(w, k, false, error, retryAt);
    }
  }

  lemma StallKeepsInv(w: World, k: Key)
    requires Inv(w) && Enabled(w, Stall(k))
    ensures Inv(Apply(w, Stall(k)))
  {
    assert HomeOk(w.store.tasks, w.store.homes, k);
    var retryAt := StallRetry(w.store.tasks[k]);
    if WillRetry(Stalled, retryAt) {
      RetryKeepsInv(w, k, true, Stalled, retryAt);
    } else {
      FailureSettles(w, k, true, Stalled, retryAt);
    }
  }

  lemma SucceedKeepsInv(w: World, k: Key, token: Token, value: Value)
    requires Inv(w) && Enabled(w, Succeed(k, token, value))
    ensures Inv(Apply(w, Succeed(k, token, value)))
  {
    assert HomeOk(w.store.tasks, w.store.homes, k);
    var t := w.store.tasks[k].(success := Some(value), outcome := Some(Success));
    assert Settling(w, k, t);
    SettleKeepsInv(w, k, t, None);
  }

  // ---- deleting ----------------------------------------------------------------------

  lemma DeletedHolds(s: Store, k: Key)
    requires HoldsInv(s) && k in s.tasks && !Held(s.holds, IdentityOf(s, k)) && HoldsEnlisted(s.holds, IdentityOf(s, k))
    ensures HoldsInv(Deleted(s, k))
  {
  }

  lemma DeletedKept(s: Store, k: Key, log: Log)
    requires SettledInv(s, log) && ExpiryInv(s) && k in s.tasks
    ensures SettledInv(Deleted(s, k), log) && ExpiryInv(Deleted(s, k))
  {
  }

  lemma DeletedLocks(h: Homes, locks: map<Key, Lock>, tokens: set<Token>, k: Key, clock: Time)
    requires LocksInv(h.active, locks, tokens, clock)
    requires k in locks ==> locks[k].until <= clock
    ensures LocksInv(Unplaced(h, k).active, locks, tokens, clock)
    ensures LocksInv(Unplaced(h, k).active, locks - {k}, tokens, clock)
  {
  }

  lemma DeleteKeepsInv(w: World, k: Key)
    requires Inv(w) && k in w.store.tasks && !Locked(w.store, k, w.clock)
    requires !Held(w.store.holds, IdentityOf(w.store, k)) && HoldsEnlisted(w.store.holds, IdentityOf(w.store, k))
    ensures Inv(w.(store := Deleted(w.store, k)))
  {
    UnplacedHomes(w.store.tasks, w.store.homes, k);
    TasksRemoved(w.store.tasks, w.store.generations, w.log, k);
    DeletedLocks(w.store.homes, w.store.locks, w.log.tokens, k, w.clock);
    DeletedHolds(w.store, k);
    DeletedKept(w.store, k, w.log);
  }

  // A settled task is unlocked, and whatever it still holds is enlisted.
  lemma SettledIsIdle(w: World, k: Key)
    requires Inv(w) && k in w.store.tasks && w.store.tasks[k].outcome.Some?
    ensures !Locked(w.store, k, w.clock) && HoldsEnlisted(w.store.holds, IdentityOf(w.store, k))
  {
    assert HomeOk(w.store.tasks, w.store.homes, k);
    forall e | e in w.store.holds.retains && e.holder == IdentityOf(w.store, k)
      ensures e.holder in w.store.holds.continuation
    {
      assert Unsettled(w.store, e.holder) || e.holder in w.store.holds.continuation;
    }
  }

  lemma UnlockKeepsInv(w: World, k: Key)
    requires Inv(w) && k !in w.store.homes.active
    ensures Inv(w.(store := Unlocked(w.store, k)))
  {
  }

  lemma ReplaceKeepsInv(w: World, k: Key)
    requires Inv(w) && Enabled(w, Replace(k))
    ensures Inv(Apply(w, Replace(k)))
  {
    SettledIsIdle(w, k);
    DeleteKeepsInv(w, k);
    UnlockKeepsInv(w.(store := Deleted(w.store, k)), k);
  }

  lemma RemoveKeepsInv(w: World, k: Key)
    requires Inv(w) && Enabled(w, Remove(k))
    ensures Inv(Apply(w, Remove(k)))
  {
    DeleteKeepsInv(w, k);
  }
}
