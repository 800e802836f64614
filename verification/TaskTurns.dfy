/** Maintenance takes turns: each call begins with another sweeper, and seven calls retire a batch of every backlog. */
module TaskTurns {
  import opened Basics
  import opened TaskModel
  import opened TaskRuns
  import opened TaskUpkeep
  import opened TaskScript
  import opened TaskCatchUp
  import opened TaskDrain

  // ---- what is waiting for each sweeper ---------------------------------------------------

  // Entries whose time had passed before this instant. One that is filed now never belongs to them.
  function LateIn(index: map<Identity, Time>, q: Queue, now: Time): set<Identity> {
    set i | i in index && i.key.queue == q && index[i] < now
  }

  // Due delayed tasks, expired leases, or late entries of an expiry index, by the number of their sweeper.
  function Backlog(n: nat, q: Queue, w: World): nat
    requires n < SWEEPERS && n != 2
  {
    if n == 0 then |ExpiredIn(w.store.homes.scheduled, q, w.clock)|
    else if n == 1 then |ExpiredIn(w.store.homes.active, q, w.clock)|
    else |LateIn(Index(n, w.store.kept), q, w.clock)|
  }

  // This many holds have been given up, or somebody who was listed holds nothing any more; or nobody was listed.
  ghost predicate LetsGo(q: Queue, limit: nat, before: Holds, after: Holds) {
    || (forall h :: h in before.continuation ==> h.key.queue != q)
    || |after.retains| + limit <= |before.retains|
    || (exists h :: h in before.continuation && h.key.queue == q && HeldBy(after, h) == {})
  }

  // This much of the sweeper's work that waited in the first state is done in the second, or all of it.
  ghost predicate Retires(n: nat, q: Queue, limit: nat, w: World, v: World)
    requires n < SWEEPERS
  {
    if n == 2 then LetsGo(q, limit, w.store.holds, v.store.holds)
    else Backlog(n, q, v) == 0 || Backlog(n, q, v) + limit <= Backlog(n, q, w)
  }

  // ---- maintenance adds to no backlog --------------------------------------------------------

  // Every late entry was there before, as late.
  predicate LateStays(before: Kept, after: Kept, now: Time) {
    forall n, i :: 3 <= n < SWEEPERS && i in Index(n, after) && Index(n, after)[i] < now ==>
      i in Index(n, before) && Index(n, before)[i] == Index(n, after)[i]
  }

  lemma FiledLate(kept: Kept, i: Identity, t: Task, error: Option<Error>, now: Time)
    requires t.outcome.Some?
    ensures LateStays(kept, Filed(kept, i, t, error, now), now)
  {
  }

  lemma DisposedLate(s: Store, k: Key, now: Time)
    requires k in s.tasks && s.tasks[k].outcome.Some?
    ensures LateStays(s.kept, Disposed(s, k, now).kept, now)
  {
  }

  lemma StalledLate(s: Store, k: Key, now: Time)
    requires k in s.tasks
    ensures LateStays(s.kept, FailedStore(s, k, true, Stalled, StallRetry(s.tasks[k]), now).kept, now)
  {
    hide Disposed, Filed, ErrorsKept, Placed, Index;
    var retryAt := StallRetry(s.tasks[k]);
    if !WillRetry(Stalled, retryAt) {
      var t := Failing(s.tasks[k], true, Stalled, retryAt, now);
      var u := WithTask(WithTask(Unlocked(s, k), k, t), k, t.(outcome := Some(Failure)));
      var i := IdentityOf(u, k);
      FiledLate(u.kept, i, u.tasks[k], Some(Stalled), now);
      DisposedLate(Enlisted(u.(kept := Filed(u.kept, i, u.tasks[k], Some(Stalled), now)), i, now), k, now);
    }
  }

  lemma LetGoLate(s: Store, e: Edge, now: Time)
    ensures LateStays(s.kept, HoldReleased(s, e, now).kept, now)
  {
    LetGoKept(s, e, now, e.holder);
    LetGoKept(s, e, now, Identity(e.holder.key, e.holder.generation + 1));
  }

  lemma RecordLate(n: nat, w: World, a: Action, i: Identity)
    requires 3 <= n < SWEEPERS && Enabled(w, a) && (a.ExpireTask? || a.ExpireTerminal?)
    requires i in Index(n, Apply(w, a).store.kept)
    ensures i in Index(n, w.store.kept) && Index(n, w.store.kept)[i] == Index(n, Apply(w, a).store.kept)[i]
    ensures !Handles(n, a, i)
  {
    hide Unplaced, Held;
  }

  lemma IndexLate(n: nat, w: World, a: Action, i: Identity)
    requires 3 <= n < SWEEPERS && Enabled(w, a)
    requires a.PostponeTask? || a.ExpireResult? || a.PostponeResult? || a.ExpireDeadLetter?
    requires i in Index(n, Apply(w, a).store.kept) && Index(n, Apply(w, a).store.kept)[i] < w.clock
    ensures i in Index(n, w.store.kept) && Index(n, w.store.kept)[i] == Index(n, Apply(w, a).store.kept)[i]
    ensures !Handles(n, a, i)
  {
    hide Held;
  }

  // An entry that is late after a step was as late before it, and was not what the step handled.
  lemma LateStep(n: nat, w: World, a: Action, i: Identity)
    requires 3 <= n < SWEEPERS && Enabled(w, a) && IsUpkeep(a)
    requires i in Index(n, Apply(w, a).store.kept) && Index(n, Apply(w, a).store.kept)[i] < w.clock
    ensures i in Index(n, w.store.kept) && Index(n, w.store.kept)[i] == Index(n, Apply(w, a).store.kept)[i]
    ensures !Handles(n, a, i)
  {
    hide Index, FailedStore, HoldReleased;
    if a.Stall? {
      StalledLate(w.store, a.key, w.clock);
    } else if a.LetGo? {
      LetGoLate(w.store, a.edge, w.clock);
    } else if a.Promote? || a.Enlist? || a.Delist? {
      BookkeepingKept(w, a);
    } else if a.ExpireTask? || a.ExpireTerminal? {
      RecordLate(n, w, a, i);
    } else {
      IndexLate(n, w, a, i);
    }
  }

  lemma {:induction false} LateRun(n: nat, w: World, acts: seq<Action>, i: Identity)
    requires 3 <= n < SWEEPERS && Legal(w, acts) && AllUpkeep(acts)
    requires i in Index(n, Run(w, acts).store.kept) && Index(n, Run(w, acts).store.kept)[i] < w.clock
    ensures i in Index(n, w.store.kept) && Index(n, w.store.kept)[i] == Index(n, Run(w, acts).store.kept)[i]
    ensures forall a :: a in acts ==> !Handles(n, a, i)
    decreases |acts|
  {
    hide Enabled, Apply, Handles, Index, IsUpkeep;
    if acts != [] {
      var a, v := acts[0], Apply(w, acts[0]);
      assert a in acts && forall b :: b in acts[1..] ==> b in acts;
      UpkeepStepShrinks(w, a);
      LateRun(n, v, acts[1..], i);
      LateStep(n, w, a, i);
    }
  }

  lemma RetainsStep(w: World, a: Action)
    requires Enabled(w, a) && IsUpkeep(a)
    ensures Apply(w, a).store.holds.retains <= w.store.holds.retains
  {
    hide FailedStore, HoldReleased;
    if a.Stall? {
      FailedRetains(w.store, a.key, true, Stalled, StallRetry(w.store.tasks[a.key]), w.clock);
    } else if a.LetGo? {
      HoldReleasedRetains(w.store, a.edge, w.clock);
    } else {
      PlainRetains(w, a);
    }
  }

  lemma {:induction false} RetainsRun(w: World, acts: seq<Action>)
    requires Legal(w, acts) && AllUpkeep(acts)
    ensures Run(w, acts).store.holds.retains <= w.store.holds.retains
    decreases |acts|
  {
    hide Enabled, Apply, IsUpkeep;
    if acts != [] {
      assert acts[0] in acts && forall a :: a in acts[1..] ==> a in acts;
      RetainsStep(w, acts[0]);
      RetainsRun(Apply(w, acts[0]), acts[1..]);
    }
  }

  lemma FewerLeft(before: map<Key, Time>, after: map<Key, Time>, q: Queue, now: Time)
    requires LeasesShrink(before, after)
    ensures |ExpiredIn(after, q, now)| <= |ExpiredIn(before, q, now)|
  {
    SubsetCount(ExpiredIn(after, q, now), ExpiredIn(before, q, now));
  }

  lemma FewerLate(n: nat, q: Queue, w: World, acts: seq<Action>)
    requires 3 <= n < SWEEPERS && Legal(w, acts) && AllUpkeep(acts)
    ensures LateIn(Index(n, Run(w, acts).store.kept), q, w.clock) <= LateIn(Index(n, w.store.kept), q, w.clock)
  {
    hide Index, Legal, Run, Handles, IsUpkeep;
    forall i | i in LateIn(Index(n, Run(w, acts).store.kept), q, w.clock)
      ensures i in LateIn(Index(n, w.store.kept), q, w.clock)
    {
      LateRun(n, w, acts, i);
    }
  }

  // No maintenance adds to what is waiting for any sweeper.
  lemma BacklogShrinks(n: nat, q: Queue, w: World, acts: seq<Action>)
    requires n < SWEEPERS && n != 2 && Legal(w, acts) && AllUpkeep(acts)
    ensures Backlog(n, q, Run(w, acts)) <= Backlog(n, q, w) && Run(w, acts).clock == w.clock
  {
    hide Index, Legal, Run, AllUpkeep;
    var v := Run(w, acts);
    UpkeepShrinks(w, acts);
    if n == 0 {
      ScheduledRun(w, acts);
      FewerLeft(w.store.homes.scheduled, v.store.homes.scheduled, q, w.clock);
    } else if n == 1 {
      FewerLeft(w.store.homes.active, v.store.homes.active, q, w.clock);
    } else {
      FewerLate(n, q, w, acts);
      SubsetCount(LateIn(Index(n, v.store.kept), q, w.clock), LateIn(Index(n, w.store.kept), q, w.clock));
    }
  }

  // ---- what one turn does ------------------------------------------------------------------------

  lemma RetiresNone(n: nat, q: Queue, w: World)
    requires n < SWEEPERS
    ensures Retires(n, q, 0, w, w)
  {
  }

  lemma LetsGoStays(q: Queue, limit: nat, before: Holds, after: Holds, later: Holds)
    requires LetsGo(q, limit, before, after) && later.retains <= after.retains
    ensures LetsGo(q, limit, before, later)
  {
    SubsetCount(later.retains, after.retains);
    if h :| h in before.continuation && h.key.queue == q && HeldBy(after, h) == {} {
      forall e | e in HeldBy(later, h) ensures e in HeldBy(after, h) {
      }
      assert HeldBy(later, h) == {};
    }
  }

  lemma RetiresStays(n: nat, q: Queue, limit: nat, w: World, v: World, acts: seq<Action>, u: World, spent: int)
    requires n < SWEEPERS && Retires(n, q, limit, w, v) && Swept(v, acts, u, spent)
    ensures Retires(n, q, limit, w, u)
  {
    hide Backlog, LetsGo, Legal;
    if n == 2 {
      RetainsRun(v, acts);
      LetsGoStays(q, limit, w.store.holds, v.store.holds, u.store.holds);
    } else {
      BacklogShrinks(n, q, v, acts);
    }
  }

  lemma PromotedRetires(q: Queue, limit: nat, w: World, acts: seq<Action>, v: World, spent: int, batch: seq<Key>)
    requires Swept(w, acts, v, spent) && IsDueBatch(OfQueue(w.store.homes.scheduled, q), w.clock, limit, batch)
    requires |acts| == |batch| && forall i :: 0 <= i < |batch| ==> acts[i] == Promote(batch[i])
    ensures Retires(0, q, limit, w, v)
  {
    ScheduledRun(w, acts);
    forall k | k in batch ensures k !in v.store.homes.scheduled {
      var i :| 0 <= i < |batch| && batch[i] == k;
      assert acts[i] == Promote(k);
    }
    FewerExpired(w.store.homes.scheduled, v.store.homes.scheduled, q, w.clock, limit, batch);
  }

  lemma StalledRetires(q: Queue, limit: nat, w: World, acts: seq<Action>, v: World, spent: int, batch: seq<Key>)
    requires Swept(w, acts, v, spent) && IsDueBatch(OfQueue(w.store.homes.active, q), w.clock, limit, batch)
    requires StallsBatch(batch, acts)
    ensures Retires(1, q, limit, w, v)
  {
    UpkeepShrinks(w, acts);
    FewerExpired(w.store.homes.active, v.store.homes.active, q, w.clock, limit, batch);
  }

  // A batch of the lowest entries due, all handled, retires that many late ones, or all.
  lemma FewerEntries(index: map<Identity, Time>, q: Queue, now: Time, limit: nat, batch: seq<Identity>,
                     left: set<Identity>)
    requires IsDueBatch(OfQueueIdentities(index, q), now, limit, batch)
    requires left <= LateIn(index, q, now) && forall i :: i in batch ==> i !in left
    ensures left == {} || |left| + limit <= |LateIn(index, q, now)|
  {
    if i :| i in left {
      var gone := set j | j in batch;
      var mine := OfQueueIdentities(index, q);
      assert i in mine && |batch| == limit;
      forall j | j in gone ensures j in LateIn(index, q, now) {
        assert mine[j] <= mine[i];
      }
      SetOfDistinct(batch);
      assert gone !! left;
      SubsetCount(gone + left, LateIn(index, q, now));
    }
  }

  lemma EntriesRetire(n: nat, q: Queue, limit: nat, w: World, acts: seq<Action>, v: World, spent: int,
                      batch: seq<Identity>)
    requires 3 <= n < SWEEPERS && Swept(w, acts, v, spent)
    requires IsDueBatch(OfQueueIdentities(Index(n, w.store.kept), q), w.clock, limit, batch)
    requires ExpiresBatch(batch, acts, KindOf(n))
    ensures Retires(n, q, limit, w, v)
  {
    hide Index, Legal, IsDueBatch, IsUpkeep;
    FewerLate(n, q, w, acts);
    UpkeepShrinks(w, acts);
    var left := LateIn(Index(n, v.store.kept), q, w.clock);
    forall i | i in batch ensures i !in left {
      var j :| 0 <= j < |batch| && batch[j] == i;
      assert acts[j] in acts && Handles(n, acts[j], i);
      if i in left {
        LateRun(n, w, acts, i);
        assert false;
      }
    }
    FewerEntries(Index(n, w.store.kept), q, w.clock, limit, batch, left);
  }

  // ---- one call after another ------------------------------------------------------------------------

  // One maintenance call: the cursor moves on, no backlog grows, and the sweeper whose turn it is to begin retires a
  // batch.
  ghost predicate Maintains(q: Queue, batch: nat, w: World, cursor: nat, v: World, next: nat)
    requires cursor < SWEEPERS
  {
    && next == (cursor + 1) % SWEEPERS && v.clock == w.clock
    && (forall n: nat :: n < SWEEPERS && n != 2 ==> Backlog(n, q, v) <= Backlog(n, q, w))
    && Retires(cursor, q, batch, w, v)
  }

  lemma MaintenanceTakesTurns(q: Queue, batch: nat, w: World, time: nat, upkeep: seq<Action>, v: World, cursor: nat)
    requires w.clock <= time && Reaches(w, [Tick(time)] + upkeep, v) && AllUpkeep(upkeep) && cursor < SWEEPERS
    requires Retires(cursor, q, batch, Apply(w, Tick(time)), v)
    ensures Maintains(q, batch, Apply(w, Tick(time)), cursor, v, (cursor + 1) % SWEEPERS)
  {
    hide Backlog, Retires;
    assert ([Tick(time)] + upkeep)[1..] == upkeep;
    var u := Apply(w, Tick(time));
    assert v == Run(u, upkeep);
    UpkeepShrinks(u, upkeep);
    forall n: nat | n < SWEEPERS && n != 2 ensures Backlog(n, q, v) <= Backlog(n, q, u) {
      BacklogShrinks(n, q, u, upkeep);
    }
  }

  ghost predicate Maintained(q: Queue, batch: nat, ws: seq<World>, cursors: seq<nat>) {
    && |ws| == |cursors|
    && (forall i :: 0 <= i < |cursors| ==> cursors[i] < SWEEPERS)
    && (forall i :: 0 <= i < |ws| - 1 ==> Maintains(q, batch, ws[i], cursors[i], ws[i + 1], cursors[i + 1]))
  }

  lemma MaintainedOnce(q: Queue, batch: nat, ws: seq<World>, cursors: seq<nat>, v: World, next: nat)
    requires Maintained(q, batch, ws, cursors) && ws != []
    requires Maintains(q, batch, ws[|ws| - 1], cursors[|ws| - 1], v, next)
    ensures Maintained(q, batch, ws + [v], cursors + [next])
  {
    hide Retires, Backlog;
    forall i | 0 <= i < |ws + [v]| - 1
      ensures Maintains(q, batch, (ws + [v])[i], (cursors + [next])[i], (ws + [v])[i + 1], (cursors + [next])[i + 1])
    {
      if i < |ws| - 1 {
        assert Maintains(q, batch, ws[i], cursors[i], ws[i + 1], cursors[i + 1]);
      }
    }
  }

  lemma {:induction false} BacklogNeverGrows(n: nat, q: Queue, batch: nat, ws: seq<World>, cursors: seq<nat>, i: nat,
                                             j: nat)
    requires n < SWEEPERS && n != 2 && Maintained(q, batch, ws, cursors) && i <= j < |ws|
    ensures Backlog(n, q, ws[j]) <= Backlog(n, q, ws[i])
    decreases j - i
  {
    hide Backlog, Retires;
    if i < j {
      assert Maintains(q, batch, ws[i], cursors[i], ws[i + 1], cursors[i + 1]);
      BacklogNeverGrows(n, q, batch, ws, cursors, i + 1, j);
    }
  }

  lemma {:induction false} CursorTurns(q: Queue, batch: nat, ws: seq<World>, cursors: seq<nat>, i: nat, j: nat)
    requires Maintained(q, batch, ws, cursors) && i <= j < |ws|
    ensures cursors[j] == (cursors[i] + (j - i)) % SWEEPERS
    decreases j - i
  {
    hide Backlog, Retires;
    if i < j {
      assert Maintains(q, batch, ws[i], cursors[i], ws[i + 1], cursors[i + 1]);
      CursorTurns(q, batch, ws, cursors, i + 1, j);
    }
  }

  // In any seven calls in a row each sweeper begins once, and then it retires a batch of its own, or all there is.
  lemma TurnComes(n: nat, q: Queue, batch: nat, ws: seq<World>, cursors: seq<nat>, i: nat) returns (j: nat)
    requires n < SWEEPERS && Maintained(q, batch, ws, cursors) && i + SWEEPERS < |ws|
    ensures i <= j < i + SWEEPERS && cursors[j] == n && Retires(n, q, batch, ws[j], ws[j + 1])
  {
    hide Backlog, Retires;
    j := i + (SWEEPERS + n - cursors[i]) % SWEEPERS;
    CursorTurns(q, batch, ws, cursors, i, j);
    assert Maintains(q, batch, ws[j], cursors[j], ws[j + 1], cursors[j + 1]);
  }

  // Seven calls in a row retire a whole batch of every backlog, or all of it, whatever the other sweepers spend.
  lemma RoundRetiresBatch(n: nat, q: Queue, batch: nat, ws: seq<World>, cursors: seq<nat>, i: nat)
    requires n < SWEEPERS && n != 2 && Maintained(q, batch, ws, cursors) && i + SWEEPERS < |ws|
    ensures Backlog(n, q, ws[i + SWEEPERS]) == 0 || Backlog(n, q, ws[i + SWEEPERS]) + batch <= Backlog(n, q, ws[i])
  {
    hide Backlog, Maintained;
    var j := TurnComes(n, q, batch, ws, cursors, i);
    BacklogNeverGrows(n, q, batch, ws, cursors, i, j);
    BacklogNeverGrows(n, q, batch, ws, cursors, j + 1, i + SWEEPERS);
  }

  // A backlog of n is gone after seven calls for each batch of n or part of one.
  lemma {:induction false} BacklogDrains(n: nat, q: Queue, batch: nat, ws: seq<World>, cursors: seq<nat>, i: nat,
                                         rounds: nat)
    requires n < SWEEPERS && n != 2 && Maintained(q, batch, ws, cursors) && i + SWEEPERS * rounds < |ws|
    requires Backlog(n, q, ws[i]) <= batch * rounds
    ensures Backlog(n, q, ws[i + SWEEPERS * rounds]) == 0
    decreases rounds
  {
    hide Backlog, Maintained;
    if rounds == 0 {
      assert Backlog(n, q, ws[i]) == 0;
    } else {
      RoundRetiresBatch(n, q, batch, ws, cursors, i);
      assert batch * rounds == batch * (rounds - 1) + batch;
      BacklogDrains(n, q, batch, ws, cursors, i + SWEEPERS, rounds - 1);
    }
  }
}
