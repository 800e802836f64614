/** Maintenance comes to an end: every unit of its budget retires work, however much one settlement leaves to expire. */
module TaskDrain {
  import opened Basics
  import opened TaskModel
  import opened TaskRuns
  import opened TaskUpkeep
  import opened TaskScript
  import opened TaskCatchUp

  // ---- how much there is to do ------------------------------------------------------------

  function Due<K(==)>(index: map<K, Time>, now: Time): set<K> {
    set k | k in index && index[k] <= now
  }

  // A stalled attempt that settles leaves up to four expiry entries behind, so an expired lease counts five.
  function Workload(s: Store, now: Time): nat {
    |Due(s.homes.scheduled, now)| + 5 * |Due(s.homes.active, now)| + |s.holds.retains|
    + |Due(s.kept.taskExpiry, now)| + |Due(s.kept.resultExpiry, now)|
    + |Due(s.kept.terminalExpiry, now)| + |Due(s.kept.deadLetterExpiry, now)|
  }

  // Nothing is added to the work of any kind.
  predicate NoMoreWork(s: Store, t: Store, now: Time) {
    && Due(t.homes.scheduled, now) <= Due(s.homes.scheduled, now)
      && Due(t.homes.active, now) <= Due(s.homes.active, now)
    && t.holds.retains <= s.holds.retains
    && Due(t.kept.taskExpiry, now) <= Due(s.kept.taskExpiry, now)
      && Due(t.kept.resultExpiry, now) <= Due(s.kept.resultExpiry, now)
    && Due(t.kept.terminalExpiry, now) <= Due(s.kept.terminalExpiry, now)
    && Due(t.kept.deadLetterExpiry, now) <= Due(s.kept.deadLetterExpiry, now)
  }

  // ... and of some kind there is less.
  predicate LessWork(s: Store, t: Store, now: Time) {
    || (exists k :: k in Due(s.homes.scheduled, now) && k !in Due(t.homes.scheduled, now))
    || (exists e :: e in s.holds.retains && e !in t.holds.retains)
    || (exists i :: i in Due(s.kept.taskExpiry, now) && i !in Due(t.kept.taskExpiry, now))
    || (exists i :: i in Due(s.kept.resultExpiry, now) && i !in Due(t.kept.resultExpiry, now))
    || (exists i :: i in Due(s.kept.terminalExpiry, now) && i !in Due(t.kept.terminalExpiry, now))
    || (exists i :: i in Due(s.kept.deadLetterExpiry, now) && i !in Due(t.kept.deadLetterExpiry, now))
  }

  lemma FewerCounts<K>(x: set<K>, y: set<K>)
    requires y <= x
    ensures |y| <= |x| && ((exists k :: k in x && k !in y) ==> |y| < |x|)
  {
    SubsetCount(y, x);
    if k :| k in x && k !in y {
      SubsetCount(y, x - {k});
    }
  }

  lemma AtMostOneMore<K>(x: set<K>, y: set<K>, k: K)
    requires y <= x + {k}
    ensures |y| <= |x| + 1
  {
    SubsetCount(y, x + {k});
  }

  lemma WorkloadShrinks(s: Store, t: Store, now: Time)
    requires NoMoreWork(s, t, now)
    ensures Workload(t, now) <= Workload(s, now)
    ensures LessWork(s, t, now) ==> Workload(t, now) < Workload(s, now)
  {
    hide Due;
    FewerCounts(Due(s.homes.scheduled, now), Due(t.homes.scheduled, now));
    FewerCounts(Due(s.homes.active, now), Due(t.homes.active, now));
    FewerCounts(s.holds.retains, t.holds.retains);
    FewerCounts(Due(s.kept.taskExpiry, now), Due(t.kept.taskExpiry, now));
    FewerCounts(Due(s.kept.resultExpiry, now), Due(t.kept.resultExpiry, now));
    FewerCounts(Due(s.kept.terminalExpiry, now), Due(t.kept.terminalExpiry, now));
    FewerCounts(Due(s.kept.deadLetterExpiry, now), Due(t.kept.deadLetterExpiry, now));
  }

  // ---- one step -------------------------------------------------------------------------------

  lemma ShrinkingIndex<K>(before: map<K, Time>, after: map<K, Time>, now: Time)
    requires forall k :: k in after ==> k in before && after[k] == before[k]
    ensures Due(after, now) <= Due(before, now)
  {
  }

  lemma OneMoreEntry(before: map<Identity, Time>, after: map<Identity, Time>, i: Identity, now: Time)
    requires forall j :: j in after && j != i ==> j in before && after[j] == before[j]
    ensures |Due(after, now)| <= |Due(before, now)| + 1
  {
    AtMostOneMore(Due(before, now), Due(after, now), i);
  }

  lemma FailedRetains(s: Store, k: Key, stall: bool, error: Error, retryAt: Option<Time>, now: Time)
    requires k in s.tasks
    ensures FailedStore(s, k, stall, error, retryAt, now).holds.retains == s.holds.retains
  {
  }

  lemma StallPays(s: Store, k: Key, now: nat)
    requires k in s.tasks && DueIn(s.homes.active, k, now)
    ensures Workload(FailedStore(s, k, true, Stalled, StallRetry(s.tasks[k]), now), now) < Workload(s, now)
  {
    hide FailedStore, StallRetry, OnlyAdds;
    var t, i := FailedStore(s, k, true, Stalled, StallRetry(s.tasks[k]), now), IdentityOf(s, k);
    StalledScheduled(s, k, now);
    ShrinkingIndex(s.homes.scheduled, t.homes.scheduled, now);
    FewerCounts(Due(s.homes.scheduled, now), Due(t.homes.scheduled, now));
    FailedActive(s, k, true, Stalled, StallRetry(s.tasks[k]), now);
    assert k in Due(s.homes.active, now) && k !in Due(t.homes.active, now);
    FewerCounts(Due(s.homes.active, now), Due(t.homes.active, now));
    FailedRetains(s, k, true, Stalled, StallRetry(s.tasks[k]), now);
    StalledKept(s, k, now);
    FourMoreEntries(s.kept, t.kept, i, now);
  }

  lemma FourMoreEntries(before: Kept, after: Kept, i: Identity, now: Time)
    requires OnlyAdds(before, after, i)
    ensures |Due(after.taskExpiry, now)| <= |Due(before.taskExpiry, now)| + 1
    ensures |Due(after.resultExpiry, now)| <= |Due(before.resultExpiry, now)| + 1
    ensures |Due(after.terminalExpiry, now)| <= |Due(before.terminalExpiry, now)| + 1
    ensures |Due(after.deadLetterExpiry, now)| <= |Due(before.deadLetterExpiry, now)| + 1
  {
    hide Due;
    forall n, j | 3 <= n < SWEEPERS && j in Index(n, after) && j != i
      ensures j in Index(n, before) && Index(n, after)[j] == Index(n, before)[j]
    {
    }
    IndexNames(before);
    IndexNames(after);
    OneMoreEntry(before.taskExpiry, after.taskExpiry, i, now);
    OneMoreEntry(before.resultExpiry, after.resultExpiry, i, now);
    OneMoreEntry(before.terminalExpiry, after.terminalExpiry, i, now);
    OneMoreEntry(before.deadLetterExpiry, after.deadLetterExpiry, i, now);
  }

  lemma LetGoPays(s: Store, e: Edge, now: Time)
    requires e in s.holds.retains
    ensures Workload(HoldReleased(s, e, now), now) < Workload(s, now)
  {
    hide HoldReleased, OnlyAdds, Workload, Due;
    var t := HoldReleased(s, e, now);
    LetGoScheduled(s, e, now);
    ShrinkingIndex(s.homes.scheduled, t.homes.scheduled, now);
    LetGoActive(s, e, now);
    ShrinkingIndex(s.homes.active, t.homes.active, now);
    HoldReleasedRetains(s, e, now);
    LetGoKept(s, e, now, e.holder);
    LetGoKept(s, e, now, Identity(e.holder.key, e.holder.generation + 1));
    NoMoreEntries(s.kept, t.kept, e.holder, Identity(e.holder.key, e.holder.generation + 1), now);
    WorkloadShrinks(s, t, now);
  }

  lemma NoMoreEntries(before: Kept, after: Kept, i: Identity, j: Identity, now: Time)
    requires OnlyAdds(before, after, i) && OnlyAdds(before, after, j) && i != j
    ensures Due(after.taskExpiry, now) <= Due(before.taskExpiry, now)
    ensures Due(after.resultExpiry, now) <= Due(before.resultExpiry, now)
    ensures Due(after.terminalExpiry, now) <= Due(before.terminalExpiry, now)
    ensures Due(after.deadLetterExpiry, now) <= Due(before.deadLetterExpiry, now)
  {
    IndexNames(before);
    IndexNames(after);
    assert forall n, k :: 3 <= n < SWEEPERS && k in Index(n, after) ==> k != i || k != j;
  }

  lemma PlainRetains(w: World, a: Action)
    requires Enabled(w, a) && IsUpkeep(a) && !a.Stall? && !a.LetGo?
    ensures Apply(w, a).store.holds.retains == w.store.holds.retains
  {
    hide Placed, Unplaced, FirstWaiting, MayHold, HoldsEnlisted, Held;
  }

  lemma PlainKeepsIndexes(w: World, a: Action, now: Time)
    requires Enabled(w, a) && IsUpkeep(a) && !a.Stall? && !a.LetGo? && now == w.clock
    ensures NoMoreWork(w.store, Apply(w, a).store, now)
  {
    hide Enabled, Apply, IsUpkeep, Index, Handles;
    var s, t := w.store, Apply(w, a).store;
    PlainScheduled(w, a);
    ShrinkingIndex(s.homes.scheduled, t.homes.scheduled, now);
    PlainUpkeepActive(w, a);
    ShrinkingIndex(s.homes.active, t.homes.active, now);
    PlainRetains(w, a);
    PlainIndex(3, w, a);
    PlainIndex(4, w, a);
    PlainIndex(5, w, a);
    PlainIndex(6, w, a);
    IndexNames(s.kept);
    IndexNames(t.kept);
  }

  lemma IndexNames(kept: Kept)
    ensures Index(3, kept) == kept.taskExpiry && Index(4, kept) == kept.resultExpiry
    ensures Index(5, kept) == kept.terminalExpiry && Index(6, kept) == kept.deadLetterExpiry
  {
  }

  lemma PlainIndex(n: nat, w: World, a: Action)
    requires 3 <= n < SWEEPERS && Enabled(w, a) && IsUpkeep(a) && !a.Stall? && !a.LetGo?
    ensures Due(Index(n, Apply(w, a).store.kept), w.clock) <= Due(Index(n, w.store.kept), w.clock)
    ensures forall i :: Handles(n, a, i) ==> i !in Due(Index(n, Apply(w, a).store.kept), w.clock)
  {
    hide Enabled, Apply, IsUpkeep, Index, Handles;
    forall i | i in Due(Index(n, Apply(w, a).store.kept), w.clock)
      ensures i in Due(Index(n, w.store.kept), w.clock) && !Handles(n, a, i)
    {
      PlainEntry(n, w, a, i);
    }
  }

  // What a step of index maintenance handles was due.
  lemma PlainPays(w: World, a: Action, now: Time)
    requires Enabled(w, a) && IsUpkeep(a) && CostOf(a) == 1 && !a.Stall? && !a.LetGo? && now == w.clock
    ensures LessWork(w.store, Apply(w, a).store, now)
  {
    hide Placed, Unplaced, FirstWaiting, MayHold, HoldsEnlisted, Held;
    if a.Promote? {
      PlainScheduled(w, a);
      assert a.key in Due(w.store.homes.scheduled, now);
    } else {
      HandledWasDue(w, a);
    }
  }

  lemma HandledWasDue(w: World, a: Action)
    requires Enabled(w, a) && EntryOf(a).Some?
    ensures LessWork(w.store, Apply(w, a).store, w.clock)
  {
    hide Enabled, Apply, LessWork, Index, Due;
    var i := EntryOf(a).value;
    var n := if OfTasks(a) then 3 else if OfResults(a) then 4 else if OfTerminals(a) then 5 else 6;
    EntryIsDue(n, w, a, i);
    PlainIndex(n, w, a);
    LessOfAnIndex(n, w.store, Apply(w, a).store, w.clock, i);
  }

  lemma EntryIsDue(n: nat, w: World, a: Action, i: Identity)
    requires 3 <= n < SWEEPERS && Enabled(w, a) && Handles(n, a, i)
    ensures i in Due(Index(n, w.store.kept), w.clock)
  {
  }

  lemma LessOfAnIndex(n: nat, s: Store, t: Store, now: Time, i: Identity)
    requires 3 <= n < SWEEPERS && i in Due(Index(n, s.kept), now) && i !in Due(Index(n, t.kept), now)
    ensures LessWork(s, t, now)
  {
  }

  // Every unit of the budget retires at least one unit of work, and nothing in maintenance adds any.
  lemma StepPays(w: World, a: Action)
    requires Enabled(w, a) && IsUpkeep(a)
    ensures Workload(Apply(w, a).store, w.clock) + CostOf(a) <= Workload(w.store, w.clock)
    ensures Apply(w, a).clock == w.clock
  {
    hide Workload, FailedStore, HoldReleased, NoMoreWork, LessWork, Placed, Unplaced;
    UpkeepStepShrinks(w, a);
    if a.Stall? {
      StallPays(w.store, a.key, w.clock);
    } else if a.LetGo? {
      LetGoPays(w.store, a.edge, w.clock);
    } else {
      PlainStepPays(w, a);
    }
  }

  lemma PlainStepPays(w: World, a: Action)
    requires Enabled(w, a) && IsUpkeep(a) && !a.Stall? && !a.LetGo?
    ensures Workload(Apply(w, a).store, w.clock) + CostOf(a) <= Workload(w.store, w.clock)
  {
    hide Workload, NoMoreWork, LessWork, Enabled, Apply;
    PlainKeepsIndexes(w, a, w.clock);
    if CostOf(a) == 1 {
      PlainPays(w, a, w.clock);
    }
    WorkloadShrinks(w.store, Apply(w, a).store, w.clock);
  }

  // What maintenance spends, it takes off the workload.
  lemma {:induction false} RunPays(w: World, acts: seq<Action>)
    requires Legal(w, acts) && AllUpkeep(acts)
    ensures Workload(Run(w, acts).store, w.clock) + Cost(acts) <= Workload(w.store, w.clock)
    ensures Run(w, acts).clock == w.clock
    decreases |acts|
  {
    hide Workload, Enabled, Apply, IsUpkeep, CostOf;
    if acts != [] {
      assert acts[0] in acts && forall a :: a in acts[1..] ==> a in acts;
      StepPays(w, acts[0]);
      RunPays(Apply(w, acts[0]), acts[1..]);
    }
  }

  lemma MaintenancePays(w: World, time: nat, upkeep: seq<Action>, v: World)
    requires w.clock <= time && Reaches(w, [Tick(time)] + upkeep, v) && AllUpkeep(upkeep)
    ensures Workload(v.store, time) + Cost(upkeep) <= Workload(w.store, time)
  {
    hide Workload, AllUpkeep;
    assert ([Tick(time)] + upkeep)[1..] == upkeep;
    RunPays(Apply(w, Tick(time)), upkeep);
  }

  // Maintenance that spent nothing settled nothing.
  lemma {:induction false} IdleRunSettlesNothing(w: World, acts: seq<Action>)
    requires Legal(w, acts) && AllUpkeep(acts) && Cost(acts) == 0
    ensures Run(w, acts).log == w.log
    decreases |acts|
  {
    if acts != [] {
      assert acts[0] in acts && forall a :: a in acts[1..] ==> a in acts;
      IdleRunSettlesNothing(Apply(w, acts[0]), acts[1..]);
    }
  }

  lemma IdleMaintenanceSettlesNothing(w: World, time: nat, upkeep: seq<Action>, v: World)
    requires w.clock <= time && Reaches(w, [Tick(time)] + upkeep, v) && AllUpkeep(upkeep) && Cost(upkeep) == 0
    ensures v.log == w.log
  {
    assert ([Tick(time)] + upkeep)[1..] == upkeep;
    IdleRunSettlesNothing(Apply(w, Tick(time)), upkeep);
  }

  lemma GoingOnIsFewer(q: Queue, before: Holds, after: Holds)
    requires ReleasesGoOn(q, before, after)
    ensures |OfQueueIdentities(after.continuation, q)| <= |OfQueueIdentities(before.continuation, q)|
    ensures OfQueueIdentities(before.continuation, q) != map[] ==>
      |OfQueueIdentities(after.continuation, q)| < |OfQueueIdentities(before.continuation, q)|
  {
    FewerOfQueue(q, before.continuation, after.continuation);
  }

  lemma FewerOfQueue(q: Queue, before: map<Identity, Time>, after: map<Identity, Time>)
    requires ListsNobodyNew(before, after) && ListsFewer(q, before, after)
    ensures |OfQueueIdentities(after, q)| <= |OfQueueIdentities(before, q)|
    ensures OfQueueIdentities(before, q) != map[] ==> |OfQueueIdentities(after, q)| < |OfQueueIdentities(before, q)|
  {
    var x, y := OfQueueIdentities(before, q), OfQueueIdentities(after, q);
    if x != map[] {
      var h :| h in x;
      assert h in before && h.key.queue == q;
      var g :| g in before && g.key.queue == q && g !in after;
      assert g in x.Keys && g !in y.Keys;
    }
    FewerCounts(x.Keys, y.Keys);
  }
}
