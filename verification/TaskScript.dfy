/** Value-level facts the task script's methods rest on. */
module TaskScript {
  import opened Basics
  import opened SortedIndex
  import opened TaskModel
  import opened TaskRuns
  import opened TaskInvariant
  import opened TaskProofs
  import opened TaskSettle
  import opened TaskRetention
  import opened TaskMirror
  import opened TaskRest
  import opened TaskUpkeep
  import opened TaskTheorems
  import opened TaskSimulation

  // ---- one list removal is enough ------------------------------------------------------

  // The list without the first occurrence of a key.
  function RemoveFirst(wait: seq<Key>, k: Key): seq<Key> {
    if wait == [] then []
    else if wait[0] == k then wait[1..]
    else [wait[0]] + RemoveFirst(wait[1..], k)
  }

  lemma {:induction false} WithoutAbsent(wait: seq<Key>, k: Key)
    requires k !in wait
    ensures Without(wait, k) == wait
  {
    if wait != [] {
      WithoutAbsent(wait[1..], k);
    }
  }

  lemma {:induction false} RemoveFirstIsEnough(wait: seq<Key>, k: Key)
    requires NoRepeats(wait)
    ensures RemoveFirst(wait, k) == Without(wait, k)
  {
    if wait != [] {
      if wait[0] == k {
        WithoutAbsent(wait[1..], k);
      } else {
        assert NoRepeats(wait[1..]);
        RemoveFirstIsEnough(wait[1..], k);
      }
    }
  }

  // The lists after a task left the list its record names.
  function Left(h: Homes, k: Key, p: Place): Homes {
    match p
    case Wait => h.(wait := RemoveFirst(h.wait, k))
    case Scheduled => h.(scheduled := h.scheduled - {k})
    case Active => h.(active := h.active - {k})
    case Succeeded => h.(succeeded := h.succeeded - {k})
    case Failed => h.(failed := h.failed - {k})
    case Nowhere => h
  }

  // Leaving the list the record names is leaving every list.
  lemma LeavingOneIsLeavingAll(tasks: map<Key, Task>, h: Homes, k: Key)
    requires HomesInv(tasks, h) && k in tasks
    ensures Left(h, k, tasks[k].place) == Unplaced(h, k)
  {
    assert HomeOk(tasks, h, k);
    RemoveFirstIsEnough(h.wait, k);
    if k !in h.wait {
      WithoutAbsent(h.wait, k);
    }
    AbsentFromOthers(h, k);
  }

  lemma AbsentFromOthers(h: Homes, k: Key)
    ensures k !in h.scheduled ==> h.scheduled - {k} == h.scheduled
    ensures k !in h.active ==> h.active - {k} == h.active
    ensures k !in h.succeeded ==> h.succeeded - {k} == h.succeeded
    ensures k !in h.failed ==> h.failed - {k} == h.failed
  {
  }

  // A record that is in no list needs no removal before it is placed.
  lemma NowhereIsUnplaced(tasks: map<Key, Task>, h: Homes, k: Key)
    requires HomesInv(tasks, h) && (k !in tasks || tasks[k].place.Nowhere?)
    ensures Unplaced(h, k) == h
  {
    assert HomeOk(tasks, h, k);
    WithoutAbsent(h.wait, k);
    AbsentFromOthers(h, k);
  }

  // Taking a task off its list and then deleting the record is deleting it.
  lemma DeletedAfterLeaving(s: Store, k: Key, now: Time)
    requires HomesInv(s.tasks, s.homes) && k in s.tasks
    ensures Deleted(Moved(s, k, Nowhere, now), k) == Deleted(s, k)
  {
    var m := Moved(s, k, Nowhere, now);
    assert m.tasks - {k} == s.tasks - {k};
    PlacedHomes(s.tasks, s.homes, k, m.tasks[k], now);
    NowhereIsUnplaced(m.tasks, m.homes, k);
  }

  // ---- retention and disposal look at the held side only ------------------------------------

  lemma DisposedSeesHeldSide(s: Store, h: Holds, k: Key, now: Time)
    requires k in s.tasks && s.tasks[k].outcome.Some? && h.retainedBy == s.holds.retainedBy
    ensures Disposed(s.(holds := h), k, now) == Disposed(s, k, now).(holds := h)
  {
  }

  // The store while popped holds are still being given up: they have left the holder's side, the index is as before.
  function Popped(s: Store, pending: set<Edge>, continuation: map<Identity, Time>): Store {
    s.(holds := Holds(s.holds.retainedBy, s.holds.retains - pending, continuation))
  }

  function FreedOf(s: Store, e: Edge): Store {
    s.(holds := s.holds.(retainedBy := s.holds.retainedBy - {e}))
  }

  // What the script does with one popped hold.
  function GivenUp(s: Store, e: Edge, now: Time): Store {
    var t := FreedOf(s, e);
    if Current(t, e.retained) && t.tasks[e.retained.key].outcome.Some? && !Held(t.holds, e.retained)
    then Disposed(t, e.retained.key, now) else t
  }

  lemma GivenUpIsLetGo(s: Store, e: Edge, pending: set<Edge>, continuation: map<Identity, Time>, now: Time)
    requires e in pending && s.holds.continuation == continuation[e.holder := now]
    ensures GivenUp(Popped(s, pending, continuation), e, now)
      == Popped(HoldReleased(s, e, now), pending - {e}, continuation)
    ensures HoldReleased(s, e, now).holds.continuation == continuation[e.holder := now]
  {
    var t := FreedOf(Popped(s, pending, continuation), e);
    var u := Loosened(s, e, now);
    assert t.holds == Holds(s.holds.retainedBy - {e}, s.holds.retains - pending, continuation);
    assert (s.holds.retains - {e}) - (pending - {e}) == s.holds.retains - pending;
    assert u.holds.continuation == continuation[e.holder := now];
    assert t == u.(holds := t.holds);
    if Current(u, e.retained) && u.tasks[e.retained.key].outcome.Some? && !Held(u.holds, e.retained) {
      DisposedSeesHeldSide(u, t.holds, e.retained.key, now);
      DisposalShape(u, e.retained.key, now);
    }
  }

  lemma LetGoHomes(s: Store, e: Edge, now: Time)
    requires HomesInv(s.tasks, s.homes)
    ensures var t := GivenUp(s, e, now); HomesInv(t.tasks, t.homes)
  {
    var t := FreedOf(s, e);
    if Current(t, e.retained) && t.tasks[e.retained.key].outcome.Some? && !Held(t.holds, e.retained) {
      var k := e.retained.key;
      DisposalShape(t, k, now);
      assert t.tasks == t.tasks[k := t.tasks[k]];
      DisposedHomes(t, Disposed(t, k, now), k, now, t.tasks);
    }
  }

  // What is left to give up of a popped batch.
  function Pending(popped: seq<Edge>, i: nat): set<Edge>
    requires i <= |popped|
  {
    set e | e in popped[i..]
  }

  lemma PendingLess(popped: seq<Edge>, i: nat)
    requires Distinct(popped) && i < |popped|
    ensures Pending(popped, i + 1) == Pending(popped, i) - {popped[i]} && popped[i] in Pending(popped, i)
  {
  }

  // The run so far, and the script's state with the rest of the popped batch already off the holder's side.
  ghost predicate Releasing(w: World, popped: seq<Edge>, i: nat, v: World, s: Store, continuation: map<Identity, Time>)
    requires i <= |popped|
  {
    && Reaches(w, Releases(popped[..i]), v)
    && s == Popped(v.store, Pending(popped, i), continuation)
    && v.log == w.log && v.clock == w.clock
  }

  lemma ReleasingNone(w: World, popped: seq<Edge>, s: Store, continuation: map<Identity, Time>)
    requires s == Popped(w.store, (set e | e in popped), continuation)
    ensures Releasing(w, popped, 0, w, s, continuation)
  {
    assert popped[..0] == [] && popped[0..] == popped;
    ReachesNone(w);
  }

  lemma SameHoldsLeft(before: Holds, after: Holds, holder: Identity)
    requires after.retains == before.retains
    ensures HeldBy(after, holder) == HeldBy(before, holder)
  {
  }

  // Legally giving up one more popped hold.
  lemma ReleasingOneMore(w: World, popped: seq<Edge>, i: nat, v: World, s: Store, continuation: map<Identity, Time>,
                         holder: Identity)
    requires i < |popped| && Distinct(popped) && Releasing(w, popped, i, v, s, continuation)
    requires popped[i].holder == holder && Pending(popped, i) <= v.store.holds.retains
    requires v.store.holds.continuation == continuation[holder := w.clock]
    ensures Enabled(v, LetGo(popped[i]))
    ensures var u := Apply(v, LetGo(popped[i]));
      && Releasing(w, popped, i + 1, u, GivenUp(s, popped[i], w.clock), continuation)
      && Pending(popped, i + 1) <= u.store.holds.retains && u.store.holds.retains == v.store.holds.retains - {popped[i]}
      && u.store.holds.continuation == continuation[holder := w.clock]
  {
    var e := popped[i];
    PendingLess(popped, i);
    GivenUpIsLetGo(v.store, e, Pending(popped, i), continuation, w.clock);
    HoldReleasedRetains(v.store, e, w.clock);
    ReachesOne(v, LetGo(e));
    ReachesMore(w, Releases(popped[..i]), v, [LetGo(e)], Apply(v, LetGo(e)));
    ReleasesAppend(popped[..i], e);
    assert popped[..i] + [e] == popped[..i + 1];
  }

  lemma HoldReleasedRetains(s: Store, e: Edge, now: Time)
    ensures HoldReleased(s, e, now).holds.retains == s.holds.retains - {e}
  {
  }

  // At the end of a release the holder is listed for more exactly when it still holds something.
  lemma ReleaseEnds(w: World, popped: seq<Edge>, v: World, s: Store, continuation: map<Identity, Time>,
                    holder: Identity)
    requires Releasing(w, popped, |popped|, v, s, continuation)
    requires v.store.holds.continuation == continuation[holder := w.clock]
    ensures var last := HeldBy(s.holds, holder) == {};
      var c := if last then continuation - {holder} else continuation[holder := w.clock];
      Reaches(w, Release(popped, holder, last), World(s.(holds := s.holds.(continuation := c)), w.log, w.clock))
  {
    assert popped[..|popped|] == popped && Pending(popped, |popped|) == {};
    var last := HeldBy(s.holds, holder) == {};
    assert s.holds.retains == v.store.holds.retains;
    if last {
      assert forall e :: e in v.store.holds.retains && e.holder == holder ==> e in HeldBy(s.holds, holder);
      ReachesOne(v, Delist(holder));
      ReachesMore(w, Releases(popped), v, [Delist(holder)], Apply(v, Delist(holder)));
      assert continuation[holder := w.clock] - {holder} == continuation - {holder};
    } else {
      assert Releases(popped) + [] == Releases(popped);
    }
  }

  // ---- settling and failing ---------------------------------------------------------------------

  function FiledStore(s: Store, k: Key, error: Option<Error>, now: Time): Store
    requires k in s.tasks && s.tasks[k].outcome.Some?
  {
    s.(kept := Filed(s.kept, IdentityOf(s, k), s.tasks[k], error, now))
  }

  // Whether the holds are enlisted for release before or after disposal makes no difference.
  lemma SettledInOrder(s: Store, k: Key, error: Option<Error>, now: Time)
    requires k in s.tasks && s.tasks[k].outcome.Some?
    ensures Enlisted(Disposed(FiledStore(s, k, error, now), k, now), IdentityOf(s, k), now) == Settled(s, k, error, now)
  {
  }

  // Dropping the oldest entries until one more fits, then adding it.
  lemma {:induction false} ErrorsKeptByDropping(errors: seq<Entry>, e: Entry, max: nat, n: nat)
    requires n <= |errors| && (|errors| - n < max || n == |errors|) && (0 < n ==> |errors| - n + 1 >= max)
    ensures (if 0 < max then errors[n..] + [e] else errors[n..]) == ErrorsKept(errors, e, max)
  {
  }

  // ---- giving up holds touches no running attempt -------------------------------------------------

  predicate Frees(a: Action) {
    a.LetGo? || a.Delist?
  }

  lemma {:induction false} ReleaseFrees(popped: seq<Edge>, holder: Identity, last: bool)
    ensures forall a :: a in Release(popped, holder, last) ==> Frees(a)
    decreases |popped|
  {
    if popped != [] {
      ReleaseFrees(popped[1..], holder, last);
      assert Release(popped, holder, last) == [LetGo(popped[0])] + Release(popped[1..], holder, last);
    }
  }

  lemma FreeingKeepsActive(w: World, a: Action)
    requires Inv(w) && Enabled(w, a) && Frees(a)
    ensures Apply(w, a).store.homes.active == w.store.homes.active && Apply(w, a).clock == w.clock
  {
    if a.LetGo? {
      var t := Loosened(w.store, a.edge, w.clock);
      var k := a.edge.retained.key;
      if Current(t, a.edge.retained) && t.tasks[k].outcome.Some? && !Held(t.holds, a.edge.retained) {
        DisposedActive(t, k, w.clock);
        assert HomeOk(w.store.tasks, w.store.homes, k);
        assert TaskOk(w.store.tasks[k], Released(w.log, Identity(k, w.store.tasks[k].generation)));
      }
    }
  }

  lemma {:induction false} ReleaseKeepsActive(w: World, acts: seq<Action>)
    requires Inv(w) && Legal(w, acts) && forall a :: a in acts ==> Frees(a)
    ensures Run(w, acts).store.homes.active == w.store.homes.active && Run(w, acts).clock == w.clock
    decreases |acts|
  {
    if acts != [] {
      assert acts[0] in acts && forall a :: a in acts[1..] ==> a in acts;
      FreeingKeepsActive(w, acts[0]);
      StepKeepsInv(w, acts[0]);
      ReleaseKeepsActive(Apply(w, acts[0]), acts[1..]);
    }
  }

  lemma ExpiredIsWork(w: World, k: Key)
    requires Sound(w) && DueIn(w.store.homes.active, k, w.clock)
    ensures k in w.store.tasks && HomesInv(w.store.tasks, w.store.homes) && !Locked(w.store, k, w.clock)
  {
    ExpiredIsUnlocked(w, k);
  }

  // As many of the holder's holds as the budget allows, each once.
  ghost predicate TakesOff(h: Holds, holder: Identity, budget: int, popped: seq<Edge>) {
    && Distinct(popped) && |popped| == Min(budget, |HeldBy(h, holder)|)
    && forall e :: e in popped ==> e in h.retains && e.holder == holder
  }

  // They are given up one by one, and with the last hold there is the holder is off the list.
  ghost predicate Yields(h: Holds, holder: Identity, budget: int, popped: seq<Edge>, acts: seq<Action>) {
    TakesOff(h, holder, budget, popped) && acts == Release(popped, holder, |HeldBy(h, holder)| <= budget)
  }

  ghost predicate GivesUp(h: Holds, holder: Identity, budget: int, acts: seq<Action>) {
    exists popped :: Yields(h, holder, budget, popped, acts)
  }

  // A first step, then the release of the holder's holds and nothing else.
  ghost predicate ThenGivesUp(core: seq<Action>, first: Action, h: Holds, holder: Identity, budget: int) {
    core != [] && core[0] == first && GivesUp(h, holder, budget, core[1..])
  }

  lemma TakenOffEach(h: Holds, holder: Identity, budget: int, popped: seq<Edge>)
    requires TakesOff(h, holder, budget, popped)
    ensures Distinct(popped) && |popped| == Min(budget, |HeldBy(h, holder)|)
    ensures forall e :: e in popped ==> e in h.retains && e.holder == holder
  {
  }

  lemma YieldsAsReleased(h: Holds, holder: Identity, budget: int, popped: seq<Edge>, last: bool)
    requires TakesOff(h, holder, budget, popped) && (last <==> |HeldBy(h, holder)| <= budget)
    ensures Yields(h, holder, budget, popped, Release(popped, holder, last))
  {
  }

  // Nothing is left exactly if the budget covered everything.
  lemma TakenOffIsAll(h: Holds, holder: Identity, budget: int, popped: seq<Edge>, retains: set<Edge>)
    requires TakesOff(h, holder, budget, popped) && retains == h.retains - set e | e in popped
    ensures HeldBy(h.(retains := retains), holder) == {} <==> |HeldBy(h, holder)| <= budget
  {
    var before, after := HeldBy(h, holder), HeldBy(h.(retains := retains), holder);
    var off := set e | e in popped;
    assert before == after + off && after !! off;
    DistinctCount(popped, off);
    OffCount(popped);
    assert |before| == |after| + |off|;
  }

  lemma TakenOffCount(h: Holds, holder: Identity, budget: int, popped: seq<Edge>, retains: set<Edge>)
    requires TakesOff(h, holder, budget, popped) && retains == h.retains - set e | e in popped
    ensures |retains| + |popped| == |h.retains|
  {
    var off := set e | e in popped;
    assert h.retains == retains + off && retains !! off;
    DistinctCount(popped, off);
    OffCount(popped);
  }

  lemma {:induction false} OffCount(popped: seq<Edge>)
    ensures |set e | e in popped| <= |popped|
  {
    if popped != [] {
      var rest := popped[1..];
      OffCount(rest);
      assert (set e | e in popped) == (set e | e in rest) + {popped[0]};
    }
  }

  lemma YieldsFrees(h: Holds, holder: Identity, budget: int, popped: seq<Edge>, acts: seq<Action>)
    requires Yields(h, holder, budget, popped, acts)
    ensures Cost(acts) == |popped| && forall a :: a in acts ==> Frees(a)
  {
    ReleaseCost(popped, holder, |HeldBy(h, holder)| <= budget);
    ReleaseFrees(popped, holder, |HeldBy(h, holder)| <= budget);
  }

  // What failing a task amounts to: the failure itself, then the release of its holds if it settled.
  ghost predicate Fails(w: World, k: Key, stall: bool, error: Error, retryAt: Option<Time>, budget: int,
                        popped: seq<Edge>, acts: seq<Action>, v: World)
    requires k in w.store.tasks
  {
    && Reaches(World(FailedStore(w.store, k, stall, error, retryAt, w.clock), FailedLog(w, k, error, retryAt), w.clock),
               acts, v)
    && if WillRetry(error, retryAt) then popped == [] && acts == []
       else Yields(w.store.holds, IdentityOf(w.store, k), budget, popped, acts)
  }

  lemma FailureSweeps(w: World, k: Key, budget: int, popped: seq<Edge>, acts: seq<Action>, v: World)
    requires Enabled(w, Stall(k)) && Fails(w, k, true, Stalled, StallRetry(w.store.tasks[k]), budget, popped, acts, v)
    ensures Swept(Apply(w, Stall(k)), acts, v, |popped|) && forall a :: a in acts ==> Frees(a)
  {
    hide Yields, FailedStore, FailedLog;
    if !WillRetry(Stalled, StallRetry(w.store.tasks[k])) {
      YieldsFrees(w.store.holds, IdentityOf(w.store, k), budget, popped, acts);
    }
  }

  // An expired attempt is stalled and, if that settles it, its holds are given up; no other attempt leaves the active
  // list.
  lemma StallAndRelease(w: World, k: Key, budget: int, popped: seq<Edge>, acts: seq<Action>, v: World)
    requires Sound(w) && DueIn(w.store.homes.active, k, w.clock) && k in w.store.tasks
    requires Fails(w, k, true, Stalled, StallRetry(w.store.tasks[k]), budget, popped, acts, v)
    ensures Swept(w, [Stall(k)] + acts, v, 1 + |popped|) && Sound(v)
    ensures v.store.homes.active == w.store.homes.active - {k} && v.clock == w.clock
    ensures forall a :: a in [Stall(k)] + acts ==> a == Stall(k) || Frees(a)
  {
    hide Sound, Inv, Fails, Apply, FailedStore, AllUpkeep;
    SoundIsInv(w);
    ExpiredIsUnlocked(w, k);
    FailureSweeps(w, k, budget, popped, acts, v);
    SweptNone(w);
    SweptStep(w, [], w, 0, Stall(k));
    assert [] + [Stall(k)] == [Stall(k)];
    SweptMore(w, [Stall(k)], Apply(w, Stall(k)), 1, acts, v, |popped|);
    StallLeavesOthersActive(w, k, acts, v);
    ReachesSound(w, [Stall(k)] + acts, v);
  }

  lemma StallLeavesOthersActive(w: World, k: Key, acts: seq<Action>, v: World)
    requires Inv(w) && Enabled(w, Stall(k)) && Reaches(Apply(w, Stall(k)), acts, v)
    requires forall a :: a in acts ==> Frees(a)
    ensures v.store.homes.active == w.store.homes.active - {k} && v.clock == w.clock
  {
    StepKeepsInv(w, Stall(k));
    ReleaseKeepsActive(Apply(w, Stall(k)), acts);
    FailedActive(w.store, k, true, Stalled, StallRetry(w.store.tasks[k]), w.clock);
  }

  // Every task of the batch is stalled, and nothing else happens but the release of holds.
  ghost predicate StallsBatch(batch: seq<Key>, acts: seq<Action>) {
    && (forall k :: k in batch ==> Stall(k) in acts)
    && (forall a :: a in acts ==> Frees(a) || (a.Stall? && a.key in batch))
  }

  lemma StallsNothing()
    ensures StallsBatch([], [])
  {
  }

  lemma StallsOneMore(batch: seq<Key>, i: nat, xs: seq<Action>, ys: seq<Action>)
    requires i < |batch| && StallsBatch(batch[..i], xs) && Stall(batch[i]) in ys
    requires forall a :: a in ys ==> a == Stall(batch[i]) || Frees(a)
    ensures StallsBatch(batch[..i + 1], xs + ys)
  {
  }

  lemma ExpiredIsUnlocked(w: World, k: Key)
    requires Inv(w) && k in w.store.homes.active && w.store.homes.active[k] <= w.clock
    ensures !Locked(w.store, k, w.clock) && k in w.store.tasks
  {
    assert HomeOk(w.store.tasks, w.store.homes, k);
  }

  // ---- beginning a release -------------------------------------------------------------------------

  // Whoever no longer works is enlisted for release; a removal enlists its task while it still may work.
  function BeginRelease(s: Store, holder: Identity): Action {
    if Unsettled(s, holder) then Leave(holder) else Enlist(holder)
  }

  lemma ReleaseBegins(w: World, holder: Identity)
    requires Known(w.store.generations, holder)
    ensures Enabled(w, BeginRelease(w.store, holder))
    ensures Apply(w, BeginRelease(w.store, holder)) == World(Enlisted(w.store, holder, w.clock), w.log, w.clock)
    ensures CostOf(BeginRelease(w.store, holder)) == 0
    ensures (!Unsettled(w.store, holder) ==> IsUpkeep(BeginRelease(w.store, holder)))
  {
  }

  lemma ReleaseSweeps(w: World, holder: Identity, popped: seq<Edge>, last: bool, v: World)
    requires Known(w.store.generations, holder) && !Unsettled(w.store, holder)
    requires Reaches(World(Enlisted(w.store, holder, w.clock), w.log, w.clock), Release(popped, holder, last), v)
    ensures Swept(w, [BeginRelease(w.store, holder)] + Release(popped, holder, last), v, |popped|)
  {
    hide Swept, Reaches, Known, Release, BeginRelease, Enlisted, IsUpkeep, Unsettled;
    ReleaseBegins(w, holder);
    ReleaseCost(popped, holder, last);
    SweptNone(w);
    SweptStep(w, [], w, 0, BeginRelease(w.store, holder));
    SweptRelease(World(Enlisted(w.store, holder, w.clock), w.log, w.clock), popped, holder, last, v);
    assert [] + [BeginRelease(w.store, holder)] == [BeginRelease(w.store, holder)];
    SweptMore(w, [BeginRelease(w.store, holder)], World(Enlisted(w.store, holder, w.clock), w.log, w.clock), 0,
              Release(popped, holder, last), v, |popped|);
  }

  lemma ReleaseSpends(w: World, holder: Identity, popped: seq<Edge>, last: bool, v: World)
    requires Known(w.store.generations, holder)
    requires Reaches(World(Enlisted(w.store, holder, w.clock), w.log, w.clock), Release(popped, holder, last), v)
    ensures Spends(w, [BeginRelease(w.store, holder)] + Release(popped, holder, last), v, |popped|)
  {
    hide Reaches, Known, Release, BeginRelease, Enlisted, Unsettled;
    ReleaseBegins(w, holder);
    ReleaseCost(popped, holder, last);
    SpendsOne(w, BeginRelease(w.store, holder));
    SpendsMore(w, [BeginRelease(w.store, holder)], World(Enlisted(w.store, holder, w.clock), w.log, w.clock), 0,
               Release(popped, holder, last), v, |popped|);
  }

  lemma SweptRelease(w: World, popped: seq<Edge>, holder: Identity, last: bool, v: World)
    requires Reaches(w, Release(popped, holder, last), v)
    ensures Swept(w, Release(popped, holder, last), v, |popped|)
  {
    ReleaseCost(popped, holder, last);
  }

  lemma EnlistedIsKnown(w: World, holder: Identity)
    requires Sound(w) && holder in w.store.holds.continuation
    ensures Known(w.store.generations, holder)
  {
  }

  // ---- expiry batches ----------------------------------------------------------------------------------

  // One step for each entry of the batch, in order: it expires, or its expiry is postponed.
  predicate ExpiresBatch(batch: seq<Identity>, acts: seq<Action>, kind: Action -> bool) {
    |acts| == |batch| && forall n :: 0 <= n < |batch| ==> kind(acts[n]) && EntryOf(acts[n]) == Some(batch[n])
  }

  function EntryOf(a: Action): Option<Identity> {
    match a
    case ExpireTask(i) => Some(i)
    case PostponeTask(i) => Some(i)
    case ExpireResult(i) => Some(i)
    case PostponeResult(i) => Some(i)
    case ExpireTerminal(i) => Some(i)
    case ExpireDeadLetter(i) => Some(i)
    case _ => None
  }

  predicate OfTasks(a: Action) {
    a.ExpireTask? || a.PostponeTask?
  }

  predicate OfResults(a: Action) {
    a.ExpireResult? || a.PostponeResult?
  }

  predicate OfTerminals(a: Action) {
    a.ExpireTerminal?
  }

  predicate OfDeadLetters(a: Action) {
    a.ExpireDeadLetter?
  }

  // Handling one entry leaves the others as they were.
  predicate OthersKept(before: map<Identity, Time>, after: map<Identity, Time>, i: Identity) {
    forall j :: j in before && j != i ==> j in after && after[j] == before[j]
  }

  lemma ExpiresHere(w: World, i: Identity)
    requires DueIn(w.store.kept.taskExpiry, i, w.clock)
    requires Current(w.store, i) && w.store.tasks[i.key].outcome.Some? ==> !Held(w.store.holds, i)
    ensures Enabled(w, ExpireTask(i)) && Apply(w, ExpireTask(i)) == w.(store := TaskExpired(w.store, i))
  {
  }

  lemma EntryDropped(w: World, i: Identity)
    requires DueIn(w.store.kept.taskExpiry, i, w.clock) && !(Current(w.store, i) && w.store.tasks[i.key].outcome.Some?)
    ensures Enabled(w, ExpireTask(i))
    ensures Apply(w, ExpireTask(i))
      == w.(store := w.store.(kept := w.store.kept.(taskExpiry := w.store.kept.taskExpiry - {i})))
  {
  }

  function Postponed(s: Store, i: Identity, now: Time): Store {
    s.(kept := s.kept.(taskExpiry := s.kept.taskExpiry[i := now + 1000]))
  }

  lemma PostponesHere(w: World, i: Identity)
    requires DueIn(w.store.kept.taskExpiry, i, w.clock)
    requires Current(w.store, i) && w.store.tasks[i.key].outcome.Some? && Held(w.store.holds, i)
    ensures Enabled(w, PostponeTask(i)) && Apply(w, PostponeTask(i)) == w.(store := Postponed(w.store, i, w.clock))
  {
  }

  lemma UnlistsHere(w: World, i: Identity)
    requires DueIn(w.store.kept.terminalExpiry, i, w.clock)
    ensures Enabled(w, ExpireTerminal(i))
    ensures Apply(w, ExpireTerminal(i))
      == w.(store := TerminalUnlisted(w.store, i), log := w.log.(unlisted := w.log.unlisted + {i}))
  {
  }

  lemma NobodyLeft(h: Holds, i: Identity)
    requires !Held(h, i)
    ensures (set e | e in h.retainedBy && e.retained != i) == h.retainedBy
  {
  }

  lemma SoundIsListed(w: World)
    requires Sound(w)
    ensures HomesInv(w.store.tasks, w.store.homes)
  {
  }

  lemma SweptSound(w: World, acts: seq<Action>, v: World, spent: int)
    requires Sound(w) && Swept(w, acts, v, spent)
    ensures Sound(v)
  {
    hide Sound;
    ReachesSound(w, acts, v);
  }

  lemma DueEntries(index: map<Identity, Time>, q: Queue, now: Time, limit: nat, members: seq<Identity>)
    requires IsDueBatch(OfQueueIdentities(index, q), now, limit, members)
    ensures forall j :: 0 <= j < |members| ==> DueIn(index, members[j], now)
  {
    forall j | 0 <= j < |members| ensures DueIn(index, members[j], now) {
      assert members[j] in members;
    }
  }

  lemma OthersStayDue(index: map<Key, Time>, keys: seq<Key>, i: nat, now: Time)
    requires i < |keys| && Distinct(keys) && forall j :: i <= j < |keys| ==> DueIn(index, keys[j], now)
    ensures forall j :: i + 1 <= j < |keys| ==> DueIn(index - {keys[i]}, keys[j], now)
  {
  }

  lemma OthersStayScheduled(h: Homes, keys: seq<Key>, i: nat, now: Time)
    requires i < |keys| && Distinct(keys) && forall j :: i <= j < |keys| ==> DueIn(h.scheduled, keys[j], now)
    ensures forall j :: i + 1 <= j < |keys| ==> DueIn(Placed(h, keys[i], Wait, now).scheduled, keys[j], now)
  {
  }

  lemma ScheduledIsTask(tasks: map<Key, Task>, h: Homes, k: Key, now: Time)
    requires HomesInv(tasks, h) && DueIn(h.scheduled, k, now)
    ensures k in tasks
  {
    assert HomeOk(tasks, h, k);
  }

  lemma DueKeys(index: map<Key, Time>, q: Queue, now: Time, limit: nat, keys: seq<Key>)
    requires IsDueBatch(OfQueue(index, q), now, limit, keys)
    ensures forall j :: 0 <= j < |keys| ==> DueIn(index, keys[j], now)
  {
    forall j | 0 <= j < |keys| ensures DueIn(index, keys[j], now) {
      assert keys[j] in keys;
    }
  }

  lemma GivenUpRetains(s: Store, e: Edge, now: Time)
    ensures GivenUp(s, e, now).holds.retains == s.holds.retains
  {
  }

  // ---- taking and finishing attempts -----------------------------------------------------------------

  // The head of one queue's waiting list.
  function HeadOf(wait: seq<Key>, q: Queue): (head: Option<Key>)
    requires NoRepeats(wait)
    ensures head.None? ==> forall k :: k in wait ==> k.queue != q
    ensures head.Some? ==> head.value.queue == q && FirstWaiting(wait, head.value)
  {
    if wait == [] then None
    else if wait[0].queue == q then Some(wait[0])
    else HeadOf(wait[1..], q)
  }

  lemma LeasedIsWork(w: World, k: Key)
    requires Sound(w) && Locked(w.store, k, w.clock)
    ensures k in w.store.tasks && w.store.tasks[k].outcome.None? && HomesInv(w.store.tasks, w.store.homes)
  {
    assert HomeOk(w.store.tasks, w.store.homes, k);
    assert TaskOk(w.store.tasks[k], Released(w.log, Identity(k, w.store.tasks[k].generation)));
  }

  lemma LeasedIsActive(w: World, k: Key)
    requires Sound(w) && Locked(w.store, k, w.clock)
    ensures k in w.store.tasks && w.store.tasks[k].place.Active? && w.store.tasks[k].outcome.None?
    ensures k in w.store.homes.active && w.store.homes.active[k] == w.store.locks[k].until
  {
    ActiveByLock(w, k);
  }

  // Counting the attempt after the move, as the script does, or before it makes no difference.
  lemma TakenInOrder(s: Store, k: Key, token: Token, until: Time)
    requires k in s.tasks
    ensures var m := Moved(s, k, Active, until);
      m.(tasks := m.tasks[k := m.tasks[k].(attempt := m.tasks[k].attempt + 1)],
         locks := s.locks[k := Lock(token, until)])
        == TakenStore(s, k, token, until)
  {
  }

  // A first step, then nothing but the release of holds.
  predicate ThenFrees(acts: seq<Action>, first: Action) {
    acts != [] && acts[0] == first && forall a :: a in acts[1..] ==> Frees(a)
  }

  // A negative instant stands for no retry.
  function RetryTime(retryAt: int): Option<Time> {
    if retryAt < 0 then None else Some(retryAt)
  }

  // The attempt fails; if that settles the task, its holds are given up.
  ghost predicate FailsThenGivesUp(core: seq<Action>, k: Key, token: Token, error: Error, retryAt: Option<Time>,
                                   s: Store,
                                   budget: int)
    requires k in s.tasks
  {
    var first := Fail(k, token, error, retryAt);
    if WillRetry(error, retryAt) then core == [first] else ThenGivesUp(core, first, s.holds, IdentityOf(s, k), budget)
  }

  lemma ThenReleaseSpends(w: World, first: Action, holder: Identity, budget: int, popped: seq<Edge>, acts: seq<Action>,
                          v: World)
    requires Enabled(w, first) && CostOf(first) == 0 && Reaches(Apply(w, first), acts, v)
    requires Yields(w.store.holds, holder, budget, popped, acts)
    ensures Spends(w, [first] + acts, v, |popped|) && ThenFrees([first] + acts, first)
    ensures ThenGivesUp([first] + acts, first, w.store.holds, holder, budget)
  {
    hide Enabled, Apply, Reaches, Yields;
    SpendsOne(w, first);
    YieldsFrees(w.store.holds, holder, budget, popped, acts);
    SpendsMore(w, [first], Apply(w, first), 0, acts, v, |popped|);
    assert ([first] + acts)[1..] == acts;
  }

  lemma FailSpends(w: World, k: Key, token: Token, error: Error, retryAt: Option<Time>, budget: int, popped: seq<Edge>,
                   acts: seq<Action>, v: World)
    requires Enabled(w, Fail(k, token, error, retryAt)) && Fails(w, k, false, error, retryAt, budget, popped, acts, v)
    ensures var first := Fail(k, token, error, retryAt);
      && Spends(w, [first] + acts, v, |popped|) && ThenFrees([first] + acts, first)
      && (WillRetry(error, retryAt) ==> [first] + acts == [first])
      && (!WillRetry(error, retryAt) ==>
        ThenGivesUp([first] + acts, first, w.store.holds, IdentityOf(w.store, k), budget))
  {
    hide FailedStore, FailedLog, Reaches, Yields, ThenGivesUp;
    var first := Fail(k, token, error, retryAt);
    if WillRetry(error, retryAt) {
      assert [first] + [] == [first] && [first][1..] == [];
      SpendsOne(w, first);
      SpendsMore(w, [first], Apply(w, first), 0, [], v, 0);
    } else {
      ThenReleaseSpends(w, first, IdentityOf(w.store, k), budget, popped, acts, v);
    }
  }

  lemma TokensFresh(w: World, time: nat, upkeep: seq<Action>, v: World, token: Token)
    requires w.clock <= time && Reaches(w, [Tick(time)] + upkeep, v) && AllUpkeep(upkeep) && token !in w.log.tokens
    ensures token !in v.log.tokens
  {
    assert ([Tick(time)] + upkeep)[1..] == upkeep;
    UpkeepIssuesNoToken(Apply(w, Tick(time)), upkeep);
  }

  // Reading the clock, for the operations that run no maintenance.
  lemma TickSpends(w: World, time: nat)
    requires Sound(w) && w.clock <= time
    ensures Reaches(w, [Tick(time)] + [], Apply(w, Tick(time))) && Sound(Apply(w, Tick(time)))
    ensures Apply(w, Tick(time)) == w.(clock := time)
  {
    hide Sound;
    ReachesOne(w, Tick(time));
    assert [Tick(time)] + [] == [Tick(time)];
    ReachesSound(w, [Tick(time)], Apply(w, Tick(time)));
  }

  lemma ExtendedInOrder(s: Store, k: Key, until: Time)
    requires k in s.tasks && k in s.locks
    ensures Moved(s.(locks := s.locks[k := s.locks[k].(until := until)]), k, Active, until)
      == ExtendedStore(s, k, until)
  {
  }

  // ---- removal ------------------------------------------------------------------------------------------

  // Nothing holds the task, it is free, and whatever it still holds is listed for release.
  ghost predicate Removable(w: World, k: Key) {
    && k in w.store.tasks && !Locked(w.store, k, w.clock) && !Held(w.store.holds, IdentityOf(w.store, k))
  }

  lemma FreeingKeepsRemovable(w: World, a: Action, k: Key)
    requires Sound(w) && Enabled(w, a) && Frees(a) && Removable(w, k)
    ensures Removable(Apply(w, a), k) && Apply(w, a).store.tasks[k].generation == w.store.tasks[k].generation
  {
    if a.LetGo? {
      var e := a.edge;
      HoldIsCurrent(w, e);
      LetGoElsewhere(w.store, e, w.clock, k);
      LetGoRetainedBy(w.store, e, w.clock);
      LetGoKeepsLocks(w.store, e, w.clock);
    }
  }

  lemma {:induction false} ReleaseKeepsRemovable(w: World, acts: seq<Action>, v: World, k: Key)
    requires Sound(w) && Reaches(w, acts, v) && Removable(w, k) && forall a :: a in acts ==> Frees(a)
    ensures Removable(v, k) && v.store.tasks[k].generation == w.store.tasks[k].generation
    decreases |acts|
  {
    if acts != [] {
      assert acts[0] in acts && forall a :: a in acts[1..] ==> a in acts;
      FreeingKeepsRemovable(w, acts[0], k);
      ReachesOne(w, acts[0]);
      ReachesSound(w, [acts[0]], Apply(w, acts[0]));
      ReleaseKeepsRemovable(Apply(w, acts[0]), acts[1..], v, k);
    }
  }

  function WithLocks(w: World, locks: map<Key, Lock>): World {
    w.(store := w.store.(locks := locks))
  }

  // Giving up holds neither looks at a lock nor changes one.
  lemma FreeingIgnoresLocks(w: World, a: Action, locks: map<Key, Lock>)
    requires Enabled(w, a) && Frees(a)
    ensures Enabled(WithLocks(w, locks), a) && Apply(WithLocks(w, locks), a) == WithLocks(Apply(w, a), locks)
    ensures Apply(w, a).store.locks == w.store.locks
  {
  }

  lemma {:induction false} ReleaseIgnoresLocks(w: World, acts: seq<Action>, v: World, locks: map<Key, Lock>)
    requires Reaches(w, acts, v) && forall a :: a in acts ==> Frees(a)
    ensures Reaches(WithLocks(w, locks), acts, WithLocks(v, locks)) && v.store.locks == w.store.locks
    decreases |acts|
  {
    if acts != [] {
      assert acts[0] in acts && forall a :: a in acts[1..] ==> a in acts;
      FreeingIgnoresLocks(w, acts[0], locks);
      ReleaseIgnoresLocks(Apply(w, acts[0]), acts[1..], v, locks);
    }
  }

  // What forced removal drops beside the record: the inbound holds and everything kept for the generation.
  function Dropped(s: Store, i: Identity): Store {
    s.(holds := s.holds.(retainedBy := set e | e in s.holds.retainedBy && e.retained != i),
       kept := Kept(s.kept.results - {i}, s.kept.deadLetters - {i}, s.kept.taskExpiry - {i},
                    s.kept.resultExpiry - {i}, s.kept.terminalExpiry - {i}, s.kept.deadLetterExpiry - {i}))
  }

  lemma DroppedIsPurged(s: Store, k: Key)
    requires k in s.tasks
    ensures Deleted(Dropped(Unlocked(s, k), IdentityOf(s, k)), k) == Purged(s, k)
  {
  }

  lemma DroppedIsForgotten(s: Store, i: Identity)
    requires HoldsInv(s) && i.key !in s.tasks
    ensures Dropped(Unlocked(s, i.key), i) == Forgotten(s, i)
  {
  }

  // ---- one removal, one forced removal ---------------------------------------------------------------------

  lemma RemovalSpends(w: World, k: Key, popped: seq<Edge>, last: bool, v: World)
    requires Sound(w) && Removable(w, k) && var i := IdentityOf(w.store, k);
      && Reaches(World(Enlisted(w.store, i, w.clock), w.log, w.clock), Release(popped, i, last), v)
      && (i in v.store.holds.continuation <==> HeldBy(v.store.holds, i) != {})
    ensures var i := IdentityOf(w.store, k); var begin := BeginRelease(w.store, i);
      && Enabled(v, Remove(k))
      && Spends(w, [begin] + Release(popped, i, last) + [Remove(k)], Apply(v, Remove(k)), |popped|)
  {
    hide Sound, Spends, Swept, Reaches, Release, BeginRelease, Cost;
    var i := IdentityOf(w.store, k);
    SoundIsKnown(w, k);
    ReleaseSpends(w, i, popped, last, v);
    RemovalIsEnabled(w, k, popped, last, v);
    SpendsOne(v, Remove(k));
    SpendsMore(w, [BeginRelease(w.store, i)] + Release(popped, i, last), v, |popped|, [Remove(k)], Apply(v, Remove(k)),
               0);
  }

  lemma SoundIsKnown(w: World, k: Key)
    requires Sound(w) && k in w.store.tasks
    ensures Known(w.store.generations, IdentityOf(w.store, k))
  {
  }

  lemma EnlistedIsSound(w: World, k: Key)
    requires Sound(w) && k in w.store.tasks
    ensures Sound(World(Enlisted(w.store, IdentityOf(w.store, k), w.clock), w.log, w.clock))
  {
    hide Sound, BeginRelease;
    var a := BeginRelease(w.store, IdentityOf(w.store, k));
    SoundIsKnown(w, k);
    ReleaseBegins(w, IdentityOf(w.store, k));
    ReachesOne(w, a);
    ReachesSound(w, [a], Apply(w, a));
  }

  lemma RemovalIsEnabled(w: World, k: Key, popped: seq<Edge>, last: bool, v: World)
    requires Sound(w) && Removable(w, k) && var i := IdentityOf(w.store, k);
      && Reaches(World(Enlisted(w.store, i, w.clock), w.log, w.clock), Release(popped, i, last), v)
      && (i in v.store.holds.continuation <==> HeldBy(v.store.holds, i) != {})
    ensures Enabled(v, Remove(k)) && IdentityOf(v.store, k) == IdentityOf(w.store, k)
  {
    hide Sound, Reaches, Release;
    var i := IdentityOf(w.store, k);
    var e := World(Enlisted(w.store, i, w.clock), w.log, w.clock);
    EnlistedIsSound(w, k);
    ReleaseFrees(popped, i, last);
    ReleaseKeepsRemovable(e, Release(popped, i, last), v, k);
    StillEnlisted(v.store.holds, i);
  }

  lemma StillEnlisted(h: Holds, i: Identity)
    requires i in h.continuation <==> HeldBy(h, i) != {}
    ensures HoldsEnlisted(h, i)
  {
    assert forall e :: e in h.retains && e.holder == i ==> e in HeldBy(h, i);
  }

  // The last step of a forced removal: of the record, or of what a record disposed of meanwhile leaves behind.
  function ForcedStep(s: Store, i: Identity): Action {
    if i.key in s.tasks then ForceRemove(i.key) else Forget(i)
  }

  lemma ForcedStepIsOneOfTwo(s: Store, i: Identity)
    ensures ForcedStep(s, i) == ForceRemove(i.key) || ForcedStep(s, i) == Forget(i)
  {
  }

  // v is what the release led to with the lock already revoked; locked is the same state with the lock still there.
  lemma ForcedRemovalSpends(w: World, k: Key, popped: seq<Edge>, last: bool, v: World)
    requires Sound(w) && k in w.store.tasks && var i := IdentityOf(w.store, k);
      && Reaches(World(Enlisted(Unlocked(w.store, k), i, w.clock), w.log, w.clock), Release(popped, i, last), v)
      && (i in v.store.holds.continuation <==> HeldBy(v.store.holds, i) != {})
    ensures var i := IdentityOf(w.store, k); var u := WithLocks(v, w.store.locks); var act := ForcedStep(u.store, i);
      && Enabled(u, act) && v.store == Unlocked(u.store, k) && Sound(u)
        && (k in u.store.tasks ==> IdentityOf(u.store, k) == i)
      && Spends(w, [BeginRelease(w.store, i)] + Release(popped, i, last) + [act], Apply(u, act), |popped|)
  {
    hide Sound, Spends, Swept, Reaches, Release, BeginRelease, Cost;
    var i := IdentityOf(w.store, k);
    var e := World(Enlisted(Unlocked(w.store, k), i, w.clock), w.log, w.clock);
    ReleaseFrees(popped, i, last);
    ReleaseIgnoresLocks(e, Release(popped, i, last), v, w.store.locks);
    assert WithLocks(e, w.store.locks) == World(Enlisted(w.store, i, w.clock), w.log, w.clock);
    var u := WithLocks(v, w.store.locks);
    SoundIsKnown(w, k);
    ReleaseSpends(w, i, popped, last, u);
    SpendsSound(w, [BeginRelease(w.store, i)] + Release(popped, i, last), u, |popped|);
    ForcedIsEnabled(w, k, Release(popped, i, last), u);
    SpendsOne(u, ForcedStep(u.store, i));
    SpendsMore(w, [BeginRelease(w.store, i)] + Release(popped, i, last), u, |popped|, [ForcedStep(u.store, i)],
               Apply(u, ForcedStep(u.store, i)), 0);
  }

  lemma ForcedIsEnabled(w: World, k: Key, acts: seq<Action>, u: World)
    requires Sound(w) && k in w.store.tasks && var i := IdentityOf(w.store, k);
      && Reaches(World(Enlisted(w.store, i, w.clock), w.log, w.clock), acts, u)
      && (i in u.store.holds.continuation <==> HeldBy(u.store.holds, i) != {})
    requires forall a :: a in acts ==> Frees(a)
    ensures Enabled(u, ForcedStep(u.store, IdentityOf(w.store, k)))
    ensures k in u.store.tasks ==> IdentityOf(u.store, k) == IdentityOf(w.store, k)
  {
    hide Sound;
    var i := IdentityOf(w.store, k);
    EnlistedIsSound(w, k);
    SoundIsKnown(w, k);
    StillEnlisted(u.store.holds, i);
    FreeingKeepsGenerations(World(Enlisted(w.store, i, w.clock), w.log, w.clock), acts);
  }

  lemma {:induction false} FreeingKeepsGenerations(w: World, acts: seq<Action>)
    requires Legal(w, acts) && forall a :: a in acts ==> Frees(a)
    ensures Run(w, acts).store.generations == w.store.generations
    ensures forall k ::
      k in Run(w, acts).store.tasks ==>
        k in w.store.tasks && Run(w, acts).store.tasks[k].generation == w.store.tasks[k].generation
    decreases |acts|
  {
    if acts != [] {
      assert acts[0] in acts && forall a :: a in acts[1..] ==> a in acts;
      FreeingKeepsEachGeneration(w, acts[0]);
      FreeingKeepsGenerations(Apply(w, acts[0]), acts[1..]);
    }
  }

  lemma FreeingKeepsEachGeneration(w: World, a: Action)
    requires Enabled(w, a) && Frees(a)
    ensures Apply(w, a).store.generations == w.store.generations
    ensures forall k ::
      k in Apply(w, a).store.tasks ==>
        k in w.store.tasks && Apply(w, a).store.tasks[k].generation == w.store.tasks[k].generation
  {
  }

  // The core of a removal: the task is listed for release, gives up what it holds as far as the budget goes, and this
  // step comes last.
  ghost predicate Withdraws(core: seq<Action>, s: Store, i: Identity, budget: int, last: Action) {
    && 2 <= |core| && core[0] == BeginRelease(s, i) && core[|core| - 1] == last
    && GivesUp(s.holds, i, budget, core[1..|core| - 1])
  }

  // By force, the record goes whatever holds it; if the release itself disposed of it, what is kept for it goes.
  ghost predicate WithdrawsByForce(core: seq<Action>, s: Store, i: Identity, budget: int) {
    Withdraws(core, s, i, budget, ForceRemove(i.key)) || Withdraws(core, s, i, budget, Forget(i))
  }

  lemma RemovalCore(s: Store, i: Identity, budget: int, popped: seq<Edge>, freed: seq<Action>, act: Action)
    requires Yields(s.holds, i, budget, popped, freed)
    ensures Withdraws([BeginRelease(s, i)] + freed + [act], s, i, budget, act)
  {
    hide Yields, BeginRelease;
    var core := [BeginRelease(s, i)] + freed + [act];
    assert core[1..|core| - 1] == freed;
  }

  lemma FreesParts(core: seq<Action>, first: Action, s: Store)
    requires ThenFrees(core, first) && !first.Leave?
    ensures Parts(core, s)
  {
    hide Unsettled;
    forall a | a in core ensures !a.Leave? {
      assert a == core[0] || a in core[1..];
    }
  }

  // A removal takes holds from its own task only, and that task is gone.
  lemma WithdrawalParts(core: seq<Action>, s: Store, i: Identity, budget: int, last: Action, t: Store)
    requires Withdraws(core, s, i, budget, last) && !last.Leave? && i.key !in t.tasks
    ensures Parts(core, t)
  {
    hide Yields;
    var freed := core[1..|core| - 1];
    var popped :| Yields(s.holds, i, budget, popped, freed);
    YieldsFrees(s.holds, i, budget, popped, freed);
    assert core == [core[0]] + freed + [last];
  }

  lemma SoundHolds(w: World)
    requires Sound(w)
    ensures HoldsInv(w.store)
  {
  }

  // ---- creation --------------------------------------------------------------------------------------------

  // The record as it is first written, before it is in any list.
  function Drafted(s: Store, k: Key, options: Options): Store {
    s.(tasks := s.tasks[k := NewTask(options, NextGeneration(s, k), Nowhere)],
       generations := s.generations[k := NextGeneration(s, k)])
  }

  function WithHold(s: Store, e: Edge): Store {
    s.(holds := s.holds.(retainedBy := s.holds.retainedBy + {e}, retains := s.holds.retains + {e}))
  }

  lemma CreatedInOrder(s: Store, k: Key, options: Options, holder: Option<Identity>, now: Time)
    requires k !in s.tasks
    ensures var g := NextGeneration(s, k); var d := Drafted(s, k, options);
      var h := if holder.Some? then WithHold(d, Edge(holder.value, Identity(k, g))) else d;
      Moved(h, k, if 0 < options.delay then Scheduled else Wait, now + options.delay)
        == Created(s, k, options, holder, now)
  {
    var g := NextGeneration(s, k);
    Overwritten(s.tasks, k, NewTask(options, g, Nowhere),
                NewTask(options, g, if 0 < options.delay then Scheduled else Wait));
    assert s.holds.retainedBy + {} == s.holds.retainedBy && s.holds.retains + {} == s.holds.retains;
  }

  lemma DraftIsListed(s: Store, k: Key, options: Options)
    requires HomesInv(s.tasks, s.homes) && k !in s.tasks
    ensures HomesInv(Drafted(s, k, options).tasks, s.homes)
  {
    NowhereIsUnplaced(s.tasks, s.homes, k);
    PlacedHomes(s.tasks, s.homes, k, NewTask(options, NextGeneration(s, k), Nowhere), 0);
  }

  // The generation counter one lower; at zero the entry goes.
  function CountedDown(generations: map<Key, nat>, k: Key): map<Key, nat>
    requires k in generations && 0 < generations[k]
  {
    if generations[k] == 1 then generations - {k} else generations[k := generations[k] - 1]
  }

  // A rejected draft leaves no trace.
  lemma DraftIsUndone(w: World, k: Key, options: Options)
    requires Sound(w) && k !in w.store.tasks
    ensures var d := Deleted(Drafted(w.store, k, options), k);
      d.(generations := CountedDown(d.generations, k)) == w.store
  {
    var s := w.store;
    var i := Identity(k, NextGeneration(s, k));
    FreshIsUnkept(w, k);
    NowhereIsUnplaced(s.tasks, s.homes, k);
    assert s.tasks[k := NewTask(options, NextGeneration(s, k), Nowhere)] - {k} == s.tasks;
    assert s.kept.taskExpiry - {i} == s.kept.taskExpiry && s.kept.terminalExpiry - {i} == s.kept.terminalExpiry;
    GenerationUndone(s.generations, k, NextGeneration(s, k));
  }

  lemma GenerationUndone(generations: map<Key, nat>, k: Key, g: nat)
    requires g == 1 + (if k in generations then generations[k] else 0) && (k in generations ==> 0 < generations[k])
    ensures CountedDown(generations[k := g], k) == generations
  {
  }

  lemma FreshIsUnkept(w: World, k: Key)
    requires Sound(w)
    ensures var i := Identity(k, NextGeneration(w.store, k));
      i !in w.store.kept.taskExpiry && i !in w.store.kept.terminalExpiry
    ensures k in w.store.generations ==> 0 < w.store.generations[k]
  {
  }

  // The holder may take on no further hold.
  predicate Full(s: Store, holder: Identity) {
    MaxRelationships(s, holder) <= |HeldBy(s.holds, holder)|
  }

  // The generation may be held by nobody else.
  predicate Crowded(s: Store, retained: Identity) {
    MaxRelationships(s, retained) <= |HoldersOf(s.holds, retained)|
  }

  datatype Duplicates = ReturnExisting | NewGeneration

  // The holder an offer names, if any, is at work.
  predicate Live(s: Store, holder: Option<Identity>) {
    holder.Some? ==> Unsettled(s, holder.value)
  }

  // A settled generation nothing holds, which a new one may replace.
  predicate Replaceable(s: Store, k: Key) {
    k in s.tasks && s.tasks[k].outcome.Some? && !Held(s.holds, IdentityOf(s, k))
  }

  // The offer is for a new record: there is none yet, or the one there is to make way.
  predicate Creates(s: Store, k: Key, throwOnExists: bool, duplicates: Duplicates) {
    k in s.tasks ==> !throwOnExists && duplicates.NewGeneration? && Replaceable(s, k)
  }

  // The offer is for a hold on the record that is there, which its holder does not have yet.
  predicate Joins(s: Store, k: Key, holder: Option<Identity>, throwOnExists: bool, duplicates: Duplicates) {
    && k in s.tasks && !throwOnExists && duplicates.ReturnExisting?
    && holder.Some? && Edge(holder.value, IdentityOf(s, k)) !in s.holds.retainedBy
  }

  // The record a hold is wanted on has no room for another holder; a new one has none at all only if its limit is zero.
  predicate NoRoom(s: Store, k: Key, options: Options, duplicates: Duplicates) {
    if k in s.tasks && duplicates.ReturnExisting? then Crowded(s, IdentityOf(s, k)) else options.maxRelationships == 0
  }

  lemma FreshIsUnheld(w: World, holder: Identity, k: Key)
    requires Sound(w) && k !in w.store.tasks
    ensures Edge(holder, Identity(k, NextGeneration(w.store, k))) !in w.store.holds.retainedBy
  {
  }

  // Replacing a record leaves a holder at work, and as full, as it was.
  lemma ReplacedIsStillHeldOff(w: World, k: Key, holder: Identity)
    requires Enabled(w, Replace(k)) && Unsettled(w.store, holder)
    ensures holder.key != k && Unsettled(Apply(w, Replace(k)).store, holder)
    ensures Full(Apply(w, Replace(k)).store, holder) <==> Full(w.store, holder)
  {
  }

  // The draft itself changes nothing about the limits of its holder, and nobody holds it yet.
  lemma DraftLimits(w: World, k: Key, options: Options, holder: Identity)
    requires Sound(w) && k !in w.store.tasks && Unsettled(w.store, holder)
    ensures var d := Drafted(w.store, k, options); var r := Identity(k, NextGeneration(w.store, k));
      && (Full(w.store, holder) <==> d.tasks[holder.key].options.maxRelationships <= |HeldBy(d.holds, holder)|)
      && (d.tasks[k].options.maxRelationships <= |HoldersOf(d.holds, r)| <==> options.maxRelationships == 0)
  {
    var d := Drafted(w.store, k, options);
    var r := Identity(k, NextGeneration(w.store, k));
    assert HoldersOf(d.holds, r) == {};
  }

  // The draft may be held exactly when the created task may be.
  lemma DraftMayBeHeld(w: World, k: Key, options: Options, holder: Identity)
    requires Sound(w) && k !in w.store.tasks && Unsettled(w.store, holder)
    ensures var e := Edge(holder, Identity(k, NextGeneration(w.store, k)));
      MayHold(w.store, e, options.maxRelationships) <==> !Full(w.store, holder) && 0 < options.maxRelationships
  {
    FreshIsUnheld(w, holder, k);
    assert HoldersOf(w.store.holds, Identity(k, NextGeneration(w.store, k))) == {};
  }

  // A key that is free may be offered unless a limit refuses the hold wanted with it.
  lemma DraftIsOffered(w: World, k: Key, options: Options, holder: Option<Identity>)
    requires Sound(w) && k !in w.store.tasks && Live(w.store, holder)
    ensures Enabled(w, Create(k, options, holder)) <==>
      (holder.Some? ==> !Full(w.store, holder.value) && 0 < options.maxRelationships)
    ensures Enabled(w, Create(k, options, holder)) ==>
      Apply(w, Create(k, options, holder)) == w.(store := Created(w.store, k, options, holder, w.clock))
  {
    hide Full, MayHold, Created, Sound;
    if holder.Some? {
      DraftMayBeHeld(w, k, options, holder.value);
    }
  }

  // The hold a created task was given is in force.
  lemma CreatedIsHeld(w: World, k: Key, options: Options, holder: Identity)
    requires Sound(w) && Enabled(w, Create(k, options, Some(holder)))
    ensures var t := Apply(w, Create(k, options, Some(holder))).store;
      k in t.tasks && Edge(holder, IdentityOf(t, k)) in t.holds.retainedBy && Unsettled(t, holder)
  {
  }
}
