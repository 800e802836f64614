/** First come, first served: how many takes a waiting task has to wait for. */
module TaskOrder {
  import opened Basics
  import opened TaskModel
  import opened TaskRuns
  import opened TaskInvariant
  import opened TaskRetention
  import opened TaskMirror

  // ---- the place in the waiting list ---------------------------------------------------

  // How many tasks of the same queue wait before this one.
  function Ahead(wait: seq<Key>, k: Key): nat {
    if wait == [] || wait[0] == k then 0 else Count(wait[0].queue == k.queue) + Ahead(wait[1..], k)
  }

  lemma {:induction false} AheadOfAppended(wait: seq<Key>, j: Key, k: Key)
    requires k in wait
    ensures Ahead(wait + [j], k) == Ahead(wait, k)
    decreases |wait|
  {
    assert (wait + [j])[1..] == wait[1..] + [j];
    if wait[0] != k {
      AheadOfAppended(wait[1..], j, k);
    }
  }

  lemma {:induction false} AheadWithout(wait: seq<Key>, j: Key, k: Key)
    requires j != k && k in wait
    ensures k in Without(wait, j) && Ahead(Without(wait, j), k) <= Ahead(wait, k)
    decreases |wait|
  {
    if wait[0] != k {
      AheadWithout(wait[1..], j, k);
      assert wait[0] != j ==> ([wait[0]] + Without(wait[1..], j))[1..] == Without(wait[1..], j);
    }
  }

  lemma {:induction false} AheadOfTheRest(wait: seq<Key>, j: Key, k: Key)
    requires j != k && k in wait && j.queue == k.queue && FirstWaiting(wait, j)
    ensures Ahead(Without(wait, j), k) + 1 <= Ahead(wait, k)
    decreases |wait|
  {
    if wait[0] == j {
      AheadWithout(wait[1..], j, k);
    } else {
      FirstOfTheRest(wait, j);
      assert wait[0] != k by {
        var n :| 0 <= n < |wait| && wait[n] == j;
        assert wait[0].queue != j.queue;
      }
      AheadOfTheRest(wait[1..], j, k);
      assert ([wait[0]] + Without(wait[1..], j))[1..] == Without(wait[1..], j);
    }
  }

  lemma FirstOfTheRest(wait: seq<Key>, j: Key)
    requires FirstWaiting(wait, j) && wait[0] != j
    ensures FirstWaiting(wait[1..], j)
  {
    forall m, n | 0 <= m < n < |wait[1..]| && wait[1..][n] == j ensures wait[1..][m].queue != j.queue {
      assert wait[m + 1].queue != j.queue;
    }
  }

  // ---- what a step does to the waiting list --------------------------------------------------

  // At most this task leaves its place; if it waits afterwards, it waits at the end.
  predicate OnlyMoves(before: seq<Key>, after: seq<Key>, j: Key) {
    after == before || after == Without(before, j) || after == Without(before, j) + [j]
  }

  // The task still waits, behind no more tasks than before.
  predicate KeepsPlace(before: seq<Key>, after: seq<Key>, k: Key) {
    k in after && Ahead(after, k) <= Ahead(before, k)
  }

  lemma OthersMove(before: seq<Key>, after: seq<Key>, j: Key, k: Key)
    requires OnlyMoves(before, after, j) && j != k && k in before
    ensures KeepsPlace(before, after, k)
  {
    AheadWithout(before, j, k);
    AheadOfAppended(Without(before, j), j, k);
  }

  lemma DisposedWaits(s: Store, k: Key, now: Time)
    requires k in s.tasks && s.tasks[k].outcome.Some?
    ensures Disposed(s, k, now).homes.wait == Without(s.homes.wait, k)
  {
    hide Held, Without;
  }

  lemma FailedWaits(s: Store, k: Key, stall: bool, error: Error, retryAt: Option<Time>, now: Time)
    requires k in s.tasks
    ensures OnlyMoves(s.homes.wait, FailedStore(s, k, stall, error, retryAt, now).homes.wait, k)
  {
    hide ErrorsKept, Filed, Disposed;
    if !WillRetry(error, retryAt) {
      var t := Failing(s.tasks[k], stall, error, retryAt, now);
      var u := WithTask(WithTask(Unlocked(s, k), k, t), k, t.(outcome := Some(Failure)));
      var i := IdentityOf(u, k);
      DisposedWaits(Enlisted(u.(kept := Filed(u.kept, i, u.tasks[k], Some(error), now)), i, now), k, now);
    }
  }

  lemma SucceededWaits(s: Store, k: Key, value: Value, now: Time)
    requires k in s.tasks
    ensures OnlyMoves(s.homes.wait, SucceededStore(s, k, value, now).homes.wait, k)
  {
    hide Filed, Disposed;
    var u := WithTask(Unlocked(s, k), k, s.tasks[k].(success := Some(value), outcome := Some(Success)));
    var i := IdentityOf(u, k);
    DisposedWaits(Enlisted(u.(kept := Filed(u.kept, i, u.tasks[k], None, now)), i, now), k, now);
  }

  lemma LetGoKeepsPlace(s: Store, e: Edge, now: Time, k: Key)
    requires k in s.homes.wait && k in s.tasks && s.tasks[k].outcome.None?
    ensures KeepsPlace(s.homes.wait, HoldReleased(s, e, now).homes.wait, k)
  {
    hide Disposed, Held;
    var t := Loosened(s, e, now);
    if Current(t, e.retained) && t.tasks[e.retained.key].outcome.Some? && !Held(t.holds, e.retained) {
      DisposedWaits(t, e.retained.key, now);
      OthersMove(s.homes.wait, HoldReleased(s, e, now).homes.wait, e.retained.key, k);
    }
  }

  // ---- every step ---------------------------------------------------------------------------------

  // The task is taken, or removed.
  predicate Ends(a: Action, k: Key) {
    (a.Take? || a.Remove? || a.ForceRemove?) && a.key == k
  }

  predicate TakesFrom(a: Action, q: Queue) {
    a.Take? && a.key.queue == q
  }

  lemma WaitsForWork(w: World, k: Key)
    requires Inv(w) && k in w.store.homes.wait
    ensures k in w.store.tasks && w.store.tasks[k].place.Wait? && w.store.tasks[k].outcome.None?
  {
    assert HomeOk(w.store.tasks, w.store.homes, k);
  }

  lemma AttemptKeepsPlace(w: World, a: Action, k: Key)
    requires Inv(w) && Enabled(w, a) && k in w.store.homes.wait
    requires a.Extend? || a.GiveUp? || a.Fail? || a.Succeed? || a.Stall?
    ensures KeepsPlace(w.store.homes.wait, Apply(w, a).store.homes.wait, k)
  {
    hide FailedStore, SucceededStore, KeepsPlace, Inv;
    WaitsForWork(w, k);
    if a.Stall? {
      ActiveByScore(w, a.key);
      FailedWaits(w.store, a.key, true, Stalled, StallRetry(w.store.tasks[a.key]), w.clock);
    } else {
      ActiveByLock(w, a.key);
      if a.Fail? {
        FailedWaits(w.store, a.key, false, a.error, a.retryAt, w.clock);
      } else if a.Succeed? {
        SucceededWaits(w.store, a.key, a.value, w.clock);
      }
    }
    OthersMove(w.store.homes.wait, Apply(w, a).store.homes.wait, a.key, k);
  }

  lemma PromotionKeepsPlace(w: World, j: Key, k: Key)
    requires Inv(w) && Enabled(w, Promote(j)) && k in w.store.homes.wait
    ensures KeepsPlace(w.store.homes.wait, Apply(w, Promote(j)).store.homes.wait, k)
  {
    WaitsForWork(w, k);
    assert HomeOk(w.store.tasks, w.store.homes, j);
    OthersMove(w.store.homes.wait, Apply(w, Promote(j)).store.homes.wait, j, k);
  }

  lemma RecordKeepsPlace(w: World, a: Action, k: Key)
    requires Inv(w) && Enabled(w, a) && k in w.store.homes.wait && !Ends(a, k)
    requires a.Create? || a.Replace? || a.Remove? || a.ForceRemove?
    ensures KeepsPlace(w.store.homes.wait, Apply(w, a).store.homes.wait, k)
  {
    hide KeepsPlace, Inv, Held, HoldsEnlisted, MayHold;
    WaitsForWork(w, k);
    OthersMove(w.store.homes.wait, Apply(w, a).store.homes.wait, a.key, k);
  }

  lemma ExpiryKeepsPlace(w: World, a: Action, k: Key)
    requires Inv(w) && Enabled(w, a) && k in w.store.homes.wait && (a.ExpireTask? || a.ExpireTerminal?)
    ensures KeepsPlace(w.store.homes.wait, Apply(w, a).store.homes.wait, k)
  {
    hide Held, Inv;
    WaitsForWork(w, k);
    if a.ExpireTask? && Current(w.store, a.identity) && w.store.tasks[a.identity.key].outcome.Some? {
      OthersMove(w.store.homes.wait, Apply(w, a).store.homes.wait, a.identity.key, k);
    }
  }

  lemma BookkeepingKeepsPlace(w: World, a: Action)
    requires Enabled(w, a)
    requires a.Tick? || a.Hold? || a.Enlist? || a.Leave? || a.Delist? || a.Forget? || a.PostponeTask? || a.ExpireResult?
             || a.PostponeResult? || a.ExpireDeadLetter?
    ensures Apply(w, a).store.homes.wait == w.store.homes.wait
  {
    hide Held, MayHold;
  }

  lemma TakeKeepsPlace(w: World, a: Action, k: Key)
    requires Inv(w) && Enabled(w, a) && a.Take? && a.key != k && k in w.store.homes.wait
    ensures var after := Apply(w, a).store.homes.wait;
      k in after && Ahead(after, k) + Count(TakesFrom(a, k.queue)) <= Ahead(w.store.homes.wait, k)
  {
    hide Inv, Ahead;
    AheadWithout(w.store.homes.wait, a.key, k);
    if a.key.queue == k.queue {
      AheadOfTheRest(w.store.homes.wait, a.key, k);
    }
  }

  // Unless the step ends its wait, the task keeps its place, and a take from its queue brings it one place forward.
  lemma StepKeepsPlace(w: World, a: Action, k: Key)
    requires Inv(w) && Enabled(w, a) && k in w.store.homes.wait && !Ends(a, k)
    ensures var after := Apply(w, a).store.homes.wait;
      k in after && Ahead(after, k) + Count(TakesFrom(a, k.queue)) <= Ahead(w.store.homes.wait, k)
  {
    hide Inv, Ahead, Enabled, Apply;
    if a.Take? {
      TakeKeepsPlace(w, a, k);
    } else if a.Extend? || a.GiveUp? || a.Fail? || a.Succeed? || a.Stall? {
      AttemptKeepsPlace(w, a, k);
    } else if a.Promote? {
      PromotionKeepsPlace(w, a.key, k);
    } else if a.Create? || a.Replace? || a.Remove? || a.ForceRemove? {
      RecordKeepsPlace(w, a, k);
    } else if a.ExpireTask? || a.ExpireTerminal? {
      ExpiryKeepsPlace(w, a, k);
    } else if a.LetGo? {
      LetGoPlace(w, a.edge, k);
    } else {
      BookkeepingKeepsPlace(w, a);
    }
  }

  lemma LetGoPlace(w: World, e: Edge, k: Key)
    requires Inv(w) && Enabled(w, LetGo(e)) && k in w.store.homes.wait
    ensures KeepsPlace(w.store.homes.wait, Apply(w, LetGo(e)).store.homes.wait, k)
  {
    hide HoldReleased, KeepsPlace, Inv;
    WaitsForWork(w, k);
    LetGoKeepsPlace(w.store, e, w.clock, k);
  }

  // ---- whole runs -----------------------------------------------------------------------------------

  function Takes(acts: seq<Action>, q: Queue): nat {
    if acts == [] then 0 else Count(TakesFrom(acts[0], q)) + Takes(acts[1..], q)
  }

  // Every take from the queue brings a waiting task forward, so that it is its turn after as many takes as tasks were
  // ahead of it, whatever is offered, retried or given back meanwhile, unless it is removed.
  lemma {:induction false} FirstComeFirstServed(w: World, acts: seq<Action>, k: Key)
    requires Inv(w) && Legal(w, acts) && k in w.store.homes.wait
    ensures (exists a :: a in acts && Ends(a, k)) ||
      (k in Run(w, acts).store.homes.wait
        && Ahead(Run(w, acts).store.homes.wait, k) + Takes(acts, k.queue) <= Ahead(w.store.homes.wait, k))
    decreases |acts|
  {
    hide Inv, Ahead, Enabled, Apply;
    if acts != [] {
      assert acts[0] in acts && forall a :: a in acts[1..] ==> a in acts;
      if !Ends(acts[0], k) {
        StepKeepsPlace(w, acts[0], k);
        StepKeepsInv(w, acts[0]);
        FirstComeFirstServed(Apply(w, acts[0]), acts[1..], k);
      }
    }
  }
}
