/** Settling a task keeps the invariant of the task queues. */
module TaskSettle {
  import opened Basics
  import opened TaskModel
  import opened TaskRuns
  import opened TaskInvariant
  import opened TaskProofs

  // The record of a running attempt as settlement finds it: unlocked, its outcome written, still in the active list.
  ghost predicate Settling(w: World, k: Key, t: Task) {
    && Inv(w) && k in w.store.tasks
    && w.store.tasks[k].place.Active? && w.store.tasks[k].outcome.None?
    && t.place.Active? && t.outcome.Some?
    && t.generation == w.store.tasks[k].generation && t.options == w.store.tasks[k].options
    && TaskOk(t.(place := PlaceOf(PolicyOf(t))), Released(w.log, IdentityOf(w.store, k)))
  }

  function Outgoing(w: World, k: Key, t: Task, error: Option<Error>): Store
    requires k in w.store.tasks && t.outcome.Some?
  {
    var i := Identity(k, t.generation);
    var u := WithTask(Unlocked(w.store, k), k, t);
    Enlisted(u.(kept := Filed(u.kept, i, t, error, w.clock)), i, w.clock)
  }

  function SettledWorld(w: World, k: Key, t: Task, error: Option<Error>): World
    requires k in w.store.tasks && t.outcome.Some?
  {
    World(Settled(WithTask(Unlocked(w.store, k), k, t), k, error, w.clock),
          Recorded(w.log, Identity(k, t.generation), ResultOf(t, error, w.clock)), w.clock)
  }

  lemma SettledParts(w: World, k: Key, t: Task, error: Option<Error>)
    requires k in w.store.tasks && t.outcome.Some?
    ensures SettledWorld(w, k, t, error).store == Disposed(Outgoing(w, k, t, error), k, w.clock)
    ensures Outgoing(w, k, t, error).tasks == w.store.tasks[k := t]
    ensures Outgoing(w, k, t, error).homes == w.store.homes
    ensures DisposedShape(Outgoing(w, k, t, error), SettledWorld(w, k, t, error).store, k, w.clock)
  {
  }

  lemma SettleHomes(w: World, k: Key, t: Task, error: Option<Error>)
    requires Settling(w, k, t)
    ensures var s := SettledWorld(w, k, t, error).store; HomesInv(s.tasks, s.homes)
  {
    SettledParts(w, k, t, error);
    DisposedHomes(Outgoing(w, k, t, error), SettledWorld(w, k, t, error).store, k, w.clock, w.store.tasks);
  }

  lemma RecordedKeepsTasks(tasks: map<Key, Task>, generations: map<Key, nat>, log: Log, i: Identity, r: Result)
    requires TasksInv(tasks, generations, log)
    ensures TasksInv(tasks, generations, Recorded(log, i, r))
  {
  }

  lemma Overwritten(tasks: map<Key, Task>, k: Key, t: Task, u: Task)
    ensures tasks[k := t][k := u] == tasks[k := u] && tasks[k := t] - {k} == tasks - {k}
  {
  }

  lemma SettleTasks(w: World, k: Key, t: Task, error: Option<Error>)
    requires Settling(w, k, t)
    ensures var v := SettledWorld(w, k, t, error); TasksInv(v.store.tasks, v.store.generations, v.log)
  {
    SettledParts(w, k, t, error);
    var v := SettledWorld(w, k, t, error);
    var moved := t.(place := PlaceOf(PolicyOf(t)));
    TasksUpdated(w.store.tasks, w.store.generations, w.log, k, moved);
    TasksRemoved(w.store.tasks, w.store.generations, w.log, k);
    Overwritten(w.store.tasks, k, t, moved);
    RecordedKeepsTasks(v.store.tasks, v.store.generations, w.log, Identity(k, t.generation),
                       ResultOf(t, error, w.clock));
  }

  lemma SettleLocks(w: World, k: Key, t: Task, error: Option<Error>)
    requires Settling(w, k, t)
    ensures var v := SettledWorld(w, k, t, error); LocksInv(v.store.homes.active, v.store.locks, v.log.tokens, v.clock)
  {
    SettledParts(w, k, t, error);
    DisposedLocks(Outgoing(w, k, t, error), SettledWorld(w, k, t, error).store, k, w.clock, w.log.tokens);
  }

  lemma SettleHolds(w: World, k: Key, t: Task, error: Option<Error>)
    requires Settling(w, k, t)
    ensures HoldsInv(SettledWorld(w, k, t, error).store)
  {
    SettledParts(w, k, t, error);
    OutgoingHolds(w, k, t, error);
    DisposedHolds(Outgoing(w, k, t, error), SettledWorld(w, k, t, error).store, k, w.clock);
  }

  lemma OutgoingHolds(w: World, k: Key, t: Task, error: Option<Error>)
    requires Settling(w, k, t)
    ensures HoldsInv(Outgoing(w, k, t, error))
  {
    var s, u := w.store, Outgoing(w, k, t, error);
    forall e | e in u.holds.retains ensures Unsettled(u, e.holder) || e.holder in u.holds.continuation {
      assert Unsettled(s, e.holder) || e.holder in s.holds.continuation;
    }
    forall e | e in u.holds.retainedBy ensures Current(u, e.retained) {
      assert Current(s, e.retained);
    }
  }

  lemma SettleSettled(w: World, k: Key, t: Task, error: Option<Error>)
    requires Settling(w, k, t)
    ensures var v := SettledWorld(w, k, t, error); SettledInv(v.store, v.log)
  {
    SettledParts(w, k, t, error);
    OutgoingSettled(w, k, t, error);
    var v := SettledWorld(w, k, t, error);
    DisposedSettled(Outgoing(w, k, t, error), v.store, k, w.clock, v.log);
  }

  lemma OutgoingSettled(w: World, k: Key, t: Task, error: Option<Error>)
    requires Settling(w, k, t)
    ensures SettledInv(Outgoing(w, k, t, error),
                       Recorded(w.log, Identity(k, t.generation), ResultOf(t, error, w.clock)))
  {
    var s, u := w.store, Outgoing(w, k, t, error);
    var i := IdentityOf(s, k);
    var log := Recorded(w.log, i, ResultOf(t, error, w.clock));
    assert i !in w.log.settled && i !in w.log.terminal;
    forall j | j in u.tasks
      ensures IdentityOf(u, j) in log.settled <==> u.tasks[j].outcome.Some?
      ensures IdentityOf(u, j) in log.settled ==> u.tasks[j].outcome == Some(log.settled[IdentityOf(u, j)].outcome)
    {
      assert IdentityOf(u, j) == IdentityOf(s, j);
    }
  }

  lemma SettleExpiry(w: World, k: Key, t: Task, error: Option<Error>)
    requires Settling(w, k, t)
    ensures ExpiryInv(SettledWorld(w, k, t, error).store)
  {
    SettledParts(w, k, t, error);
    OutgoingExpiry(w, k, t, error);
    DisposedExpiry(Outgoing(w, k, t, error), SettledWorld(w, k, t, error).store, k, w.clock);
  }

  lemma OutgoingExpiry(w: World, k: Key, t: Task, error: Option<Error>)
    requires Settling(w, k, t)
    ensures ExpiryInv(Outgoing(w, k, t, error))
  {
  }

  lemma SettleKeepsInv(w: World, k: Key, t: Task, error: Option<Error>)
    requires Settling(w, k, t)
    ensures Inv(SettledWorld(w, k, t, error))
  {
    SettleHomes(w, k, t, error);
    SettleTasks(w, k, t, error);
    SettleLocks(w, k, t, error);
    SettleHolds(w, k, t, error);
    SettleSettled(w, k, t, error);
    SettleExpiry(w, k, t, error);
  }
}
