/** Retention, expiry and creation keep the invariant of the task queues; so does every run. */
module TaskRetention {
  import opened Basics
  import opened TaskModel
  import opened TaskRuns
  import opened TaskInvariant
  import opened TaskProofs
  import opened TaskSteps

  // ---- steps that touch nothing but expiry entries or the continuation index -------

  // Records, lists, locks, counters and history as they were.
  ghost predicate SameWork(w: World, v: World) {
    && v.store.tasks == w.store.tasks && v.store.homes == w.store.homes && v.store.locks == w.store.locks
    && v.store.generations == w.store.generations && v.clock == w.clock
    && v.log == w.log.(unlisted := v.log.unlisted)
  }

  lemma SameIdentities(s: Store, t: Store)
    requires t.tasks == s.tasks
    ensures forall k :: k in s.tasks ==> IdentityOf(t, k) == IdentityOf(s, k)
    ensures forall i :: Current(t, i) == Current(s, i) && Unsettled(t, i) == Unsettled(s, i)
  {
  }

  lemma SameWorkKeepsInv(w: World, v: World)
    requires Inv(w) && SameWork(w, v)
    requires v.store.holds.retainedBy <= w.store.holds.retainedBy && v.store.holds.retains == w.store.holds.retains
    requires forall e ::
      e in v.store.holds.retains && e.holder in w.store.holds.continuation ==> e.holder in v.store.holds.continuation
    requires v.store.kept.results.Keys <= w.store.kept.results.Keys
    requires forall i :: i in v.store.kept.results ==> v.store.kept.results[i] == w.store.kept.results[i]
    requires ExpiryInv(v.store)
    ensures Inv(v)
  {
    SameIdentities(w.store, v.store);
    TokensKeepTasks(w.store.tasks, w.store.generations, w.log, v.log);
    forall e | e in v.store.holds.retains
      ensures Unsettled(v.store, e.holder) || e.holder in v.store.holds.continuation
    {
      assert Unsettled(w.store, e.holder) || e.holder in w.store.holds.continuation;
    }
  }

  lemma LeaveKeepsInv(w: World, holder: Identity)
    requires Inv(w) && Enabled(w, Leave(holder))
    ensures Inv(Apply(w, Leave(holder)))
  {
    SameIdentities(w.store, Apply(w, Leave(holder)).store);
    SameWorkKeepsInv(w, Apply(w, Leave(holder)));
  }

  lemma EnlistKeepsInv(w: World, holder: Identity)
    requires Inv(w) && Enabled(w, Enlist(holder))
    ensures Inv(Apply(w, Enlist(holder)))
  {
    SameIdentities(w.store, Apply(w, Enlist(holder)).store);
    SameWorkKeepsInv(w, Apply(w, Enlist(holder)));
  }

  lemma DelistKeepsInv(w: World, holder: Identity)
    requires Inv(w) && Enabled(w, Delist(holder))
    ensures Inv(Apply(w, Delist(holder)))
  {
    SameIdentities(w.store, Apply(w, Delist(holder)).store);
    SameWorkKeepsInv(w, Apply(w, Delist(holder)));
  }

  lemma ExpiryStepKeepsInv(w: World, a: Action)
    requires Inv(w) && Enabled(w, a)
    requires a.PostponeTask? || a.ExpireResult? || a.PostponeResult? || a.ExpireDeadLetter?
    ensures Inv(Apply(w, a))
  {
    SameIdentities(w.store, Apply(w, a).store);
    SameWorkKeepsInv(w, Apply(w, a));
  }

  lemma ForgetKeepsInv(w: World, i: Identity)
    requires Inv(w) && Enabled(w, Forget(i))
    ensures Inv(Apply(w, Forget(i)))
  {
    assert HomeOk(w.store.tasks, w.store.homes, i.key);
    UnlockKeepsInv(w, i.key);
    var u := w.(store := Unlocked(w.store, i.key));
    SameIdentities(u.store, Apply(w, Forget(i)).store);
    SameWorkKeepsInv(u, Apply(w, Forget(i)));
  }

  lemma TickKeepsInv(w: World, now: nat)
    requires Inv(w) && Enabled(w, Tick(now))
    ensures Inv(Apply(w, Tick(now)))
  {
  }

  // ---- holds ------------------------------------------------------------------------

  lemma HoldKeepsInv(w: World, e: Edge)
    requires Inv(w) && Enabled(w, Hold(e))
    ensures Inv(Apply(w, Hold(e)))
  {
    var v := Apply(w, Hold(e));
    SameIdentities(w.store, v.store);
    forall f | f in v.store.holds.retains
      ensures Unsettled(v.store, f.holder) || f.holder in v.store.holds.continuation
    {
      assert f != e ==> Unsettled(w.store, f.holder) || f.holder in w.store.holds.continuation;
    }
  }

  // The store right after one hold was given up, before anything is disposed of.
  function Loosened(s: Store, e: Edge, now: Time): Store {
    s.(holds := Holds(s.holds.retainedBy - {e}, s.holds.retains - {e}, s.holds.continuation[e.holder := now]))
  }

  lemma LoosenedKeepsInv(w: World, e: Edge)
    requires Inv(w)
    ensures Inv(w.(store := Loosened(w.store, e, w.clock)))
  {
  }

  // Disposal of a settled task nobody holds, or its move to its terminal list.
  lemma DisposeKeepsInv(w: World, k: Key)
    requires Inv(w) && k in w.store.tasks && w.store.tasks[k].outcome.Some?
    ensures Inv(w.(store := Disposed(w.store, k, w.clock)))
  {
    var s, t := w.store, Disposed(w.store, k, w.clock);
    DisposalShape(s, k, w.clock);
    assert s.tasks == s.tasks[k := s.tasks[k]];
    DisposedHomes(s, t, k, w.clock, s.tasks);
    assert HomeOk(s.tasks, s.homes, k);
    DisposedLocks(s, t, k, w.clock, w.log.tokens);
    DisposedHolds(s, t, k, w.clock);
    DisposedSettled(s, t, k, w.clock, w.log);
    DisposedExpiry(s, t, k, w.clock);
    TasksUpdated(s.tasks, s.generations, w.log, k, s.tasks[k].(place := PlaceOf(PolicyOf(s.tasks[k]))));
    TasksRemoved(s.tasks, s.generations, w.log, k);
  }

  lemma LetGoKeepsInv(w: World, e: Edge)
    requires Inv(w) && Enabled(w, LetGo(e))
    ensures Inv(Apply(w, LetGo(e)))
  {
    LoosenedKeepsInv(w, e);
    var t := Loosened(w.store, e, w.clock);
    if Current(t, e.retained) && t.tasks[e.retained.key].outcome.Some? && !Held(t.holds, e.retained) {
      DisposeKeepsInv(w.(store := t), e.retained.key);
    }
  }

  // ---- expiry of records ---------------------------------------------------------------

  // An entry for anything but a settled record is dropped alone.
  lemma DropEntryKeepsInv(w: World, i: Identity)
    requires Inv(w) && Enabled(w, ExpireTask(i)) && !(Current(w.store, i) && w.store.tasks[i.key].outcome.Some?)
    ensures Inv(Apply(w, ExpireTask(i)))
  {
    hide HomesInv, TasksInv, LocksInv, HoldsInv, SettledInv, Held;
    var s, v := w.store, Apply(w, ExpireTask(i));
    SameIdentities(s, v.store);
    forall k | k in v.store.tasks && v.store.tasks[k].outcome.Some?
      ensures IdentityOf(v.store, k) in v.store.kept.taskExpiry
    {
      assert IdentityOf(s, k) in s.kept.taskExpiry;
    }
    SameWorkKeepsInv(w, v);
  }

  // A record whose retention ended is deleted with its index entry.
  lemma ExpireTaskKeepsInv(w: World, i: Identity)
    requires Inv(w) && Enabled(w, ExpireTask(i))
    ensures Inv(Apply(w, ExpireTask(i)))
  {
    hide HomesInv, TasksInv, LocksInv, HoldsInv, SettledInv, ExpiryInv, Held;
    var s := w.store;
    if Current(s, i) && s.tasks[i.key].outcome.Some? {
      SettledIsIdle(w, i.key);
      DeleteKeepsInv(w, i.key);
      assert IdentityOf(s, i.key) == i;
      assert (s.kept.taskExpiry - {i}) - {i} == s.kept.taskExpiry - {i};
      assert Apply(w, ExpireTask(i)) == w.(store := Deleted(s, i.key));
    } else {
      DropEntryKeepsInv(w, i);
    }
  }

  lemma ListedIsPlaced(tasks: map<Key, Task>, h: Homes, k: Key)
    requires HomesInv(tasks, h) && (k in h.succeeded || k in h.failed)
    ensures k in tasks && (tasks[k].place.Succeeded? || tasks[k].place.Failed?)
  {
    assert HomeOk(tasks, h, k);
  }

  lemma UnlistedHomes(tasks: map<Key, Task>, h: Homes, k: Key)
    requires HomesInv(tasks, h) && k in tasks && (tasks[k].place.Succeeded? || tasks[k].place.Failed?)
    ensures HomesInv(tasks[k := tasks[k].(place := Nowhere)],
                     h.(succeeded := h.succeeded - {k}, failed := h.failed - {k}))
  {
    var after := tasks[k := tasks[k].(place := Nowhere)];
    var g := h.(succeeded := h.succeeded - {k}, failed := h.failed - {k});
    forall j ensures HomeOk(after, g, j) {
      assert HomeOk(tasks, h, j);
    }
  }

  lemma UnlistedHolds(s: Store, t: Store, k: Key)
    requires HoldsInv(s) && k in s.tasks && t.tasks == s.tasks[k := s.tasks[k].(place := Nowhere)]
    requires t.holds == s.holds && t.generations == s.generations
    ensures HoldsInv(t)
  {
  }

  lemma UnlistedKept(s: Store, t: Store, k: Key, log: Log)
    requires SettledInv(s, log) && ExpiryInv(s) && k in s.tasks
    requires t.tasks == s.tasks[k := s.tasks[k].(place := Nowhere)]
    requires t.generations == s.generations && t.kept == s.kept.(terminalExpiry := t.kept.terminalExpiry)
    ensures SettledInv(t, log) && ExpiryInv(t)
  {
  }

  lemma ExpireTerminalKeepsInv(w: World, i: Identity)
    requires Inv(w) && Enabled(w, ExpireTerminal(i))
    ensures Inv(Apply(w, ExpireTerminal(i)))
  {
    var s, v, k := w.store, Apply(w, ExpireTerminal(i)), i.key;
    if Current(s, i) && (k in s.homes.succeeded || k in s.homes.failed) {
      assert HomeOk(s.tasks, s.homes, k);
      UnlistedHomes(s.tasks, s.homes, k);
      TasksUpdated(s.tasks, s.generations, w.log, k, s.tasks[k].(place := Nowhere));
      TokensKeepTasks(v.store.tasks, s.generations, w.log, v.log);
      UnlistedHolds(s, v.store, k);
      UnlistedKept(s, v.store, k, w.log);
    } else {
      SameIdentities(s, v.store);
      SameWorkKeepsInv(w, v);
    }
  }

  // ---- forced removal ---------------------------------------------------------------------

  // The store with the lock, the inbound holds and the kept entries of a generation gone, its record still there.
  function Stripped(s: Store, k: Key): Store
    requires k in s.tasks
  {
    var i := IdentityOf(s, k);
    var u := Unlocked(s, k);
    u.(holds := u.holds.(retainedBy := set e | e in u.holds.retainedBy && e.retained != i),
       kept := Kept(u.kept.results - {i}, u.kept.deadLetters - {i}, u.kept.taskExpiry,
                    u.kept.resultExpiry - {i}, u.kept.terminalExpiry, u.kept.deadLetterExpiry - {i}))
  }

  lemma PurgedAsStripped(s: Store, k: Key)
    requires k in s.tasks
    ensures Purged(s, k) == Deleted(Stripped(s, k), k)
    ensures !Held(Stripped(s, k).holds, IdentityOf(s, k))
  {
  }

  lemma StrippedHolds(s: Store, k: Key)
    requires HoldsInv(s) && k in s.tasks
    ensures HoldsInv(Stripped(s, k))
  {
  }

  lemma StrippedKept(s: Store, k: Key, log: Log)
    requires SettledInv(s, log) && ExpiryInv(s) && k in s.tasks
    ensures SettledInv(Stripped(s, k), log) && ExpiryInv(Stripped(s, k))
  {
  }

  lemma ForceRemoveKeepsInv(w: World, k: Key)
    requires Inv(w) && Enabled(w, ForceRemove(k))
    ensures Inv(Apply(w, ForceRemove(k)))
  {
    var s, t := w.store, Stripped(w.store, k);
    PurgedAsStripped(s, k);
    StrippedHolds(s, k);
    StrippedKept(s, k, w.log);
    DeletedHolds(t, k);
    DeletedKept(t, k, w.log);
    UnplacedHomes(s.tasks, s.homes, k);
    TasksRemoved(s.tasks, s.generations, w.log, k);
    TokensKeepTasks(s.tasks - {k}, s.generations, w.log, Apply(w, ForceRemove(k)).log);
  }

  // ---- creation --------------------------------------------------------------------------

  lemma CreatedTasks(w: World, k: Key, options: Options, holder: Option<Identity>)
    requires TasksOf(w) && k !in w.store.tasks
    ensures TasksOf(w.(store := Created(w.store, k, options, holder, w.clock)))
  {
    var g := NextGeneration(w.store, k);
    var v := w.(store := Created(w.store, k, options, holder, w.clock));
    assert Released(w.log, Identity(k, g)) == 0;
    assert TaskOk(v.store.tasks[k], 0);
  }

  lemma CreatedHolds(s: Store, k: Key, options: Options, holder: Option<Identity>, now: Time)
    requires HoldsInv(s) && k !in s.tasks
    requires holder.Some? ==> Unsettled(s, holder.value) && Known(s.generations, holder.value)
    ensures HoldsInv(Created(s, k, options, holder, now))
  {
    var t := Created(s, k, options, holder, now);
    forall e | e in t.holds.retains
      ensures Unsettled(t, e.holder) || e.holder in t.holds.continuation
      ensures Known(t.generations, e.holder) && Known(t.generations, e.retained)
    {
      assert e in s.holds.retains ==> Unsettled(s, e.holder) || e.holder in s.holds.continuation;
    }
    forall e | e in t.holds.retainedBy ensures Current(t, e.retained) {
      assert e in s.holds.retainedBy ==> Current(s, e.retained);
    }
  }

  lemma CreatedKept(s: Store, k: Key, options: Options, holder: Option<Identity>, now: Time, log: Log)
    requires SettledInv(s, log) && ExpiryInv(s) && k !in s.tasks
    ensures SettledInv(Created(s, k, options, holder, now), log) && ExpiryInv(Created(s, k, options, holder, now))
  {
  }

  lemma CreatedHomes(w: World, k: Key, options: Options, holder: Option<Identity>)
    requires HomesInv(w.store.tasks, w.store.homes) && LocksOf(w) && k !in w.store.tasks
    ensures var v := w.(store := Created(w.store, k, options, holder, w.clock));
      HomesInv(v.store.tasks, v.store.homes) && LocksOf(v)
  {
    var t := Created(w.store, k, options, holder, w.clock);
    PlacedHomes(w.store.tasks, w.store.homes, k, t.tasks[k], w.clock + options.delay);
    assert HomeOk(w.store.tasks, w.store.homes, k);
    assert t.homes.active == w.store.homes.active;
  }

  lemma CreateKeepsInv(w: World, k: Key, options: Options, holder: Option<Identity>)
    requires Inv(w) && Enabled(w, Create(k, options, holder))
    ensures Inv(Apply(w, Create(k, options, holder)))
  {
    CreatedHomes(w, k, options, holder);
    CreatedTasks(w, k, options, holder);
    CreatedHolds(w.store, k, options, holder, w.clock);
    CreatedKept(w.store, k, options, holder, w.clock, w.log);
  }

  // ---- whole runs --------------------------------------------------------------------------

  lemma StepKeepsInv(w: World, a: Action)
    requires Inv(w) && Enabled(w, a)
    ensures Inv(Apply(w, a))
  {
    hide *;
    match a
    case Tick(now) => TickKeepsInv(w, now);
    case Create(k, options, holder) => CreateKeepsInv(w, k, options, holder);
    case Hold(e) => HoldKeepsInv(w, e);
    case Replace(k) => ReplaceKeepsInv(w, k);
    case Promote(k) => PromoteKeepsInv(w, k);
    case Take(k, token, timeout) => TakeKeepsInv(w, k, token, timeout);
    case Extend(k, token, timeout) => ExtendKeepsInv(w, k, token, timeout);
    case GiveUp(k, token) => GiveUpKeepsInv(w, k, token);
    case Fail(k, token, error, retryAt) => FailKeepsInv(w, k, token, error, retryAt);
    case Succeed(k, token, value) => SucceedKeepsInv(w, k, token, value);
    case Stall(k) => StallKeepsInv(w, k);
    case Enlist(holder) => EnlistKeepsInv(w, holder);
    case Leave(holder) => LeaveKeepsInv(w, holder);
    case LetGo(e) => LetGoKeepsInv(w, e);
    case Delist(holder) => DelistKeepsInv(w, holder);
    case Remove(k) => RemoveKeepsInv(w, k);
    case ForceRemove(k) => ForceRemoveKeepsInv(w, k);
    case ExpireTask(i) => ExpireTaskKeepsInv(w, i);
    case ExpireTerminal(i) => ExpireTerminalKeepsInv(w, i);
    case Forget(i) => ForgetKeepsInv(w, i);
    case PostponeTask(_) => ExpiryStepKeepsInv(w, a);
    case ExpireResult(_) => ExpiryStepKeepsInv(w, a);
    case PostponeResult(_) => ExpiryStepKeepsInv(w, a);
    case ExpireDeadLetter(_) => ExpiryStepKeepsInv(w, a);
  }

  lemma {:induction false} RunKeepsInv(w: World, acts: seq<Action>)
    requires Inv(w) && Legal(w, acts)
    ensures Inv(Run(w, acts))
    decreases |acts|
  {
    if acts != [] {
      StepKeepsInv(w, acts[0]);
      RunKeepsInv(Apply(w, acts[0]), acts[1..]);
    }
  }

  lemma InitialInv(clock: nat)
    ensures Inv(Initial(clock))
  {
  }

  // One more step at the end of a run.
  lemma RunExtend(w: World, acts: seq<Action>, a: Action)
    requires Inv(w) && Legal(w, acts) && Enabled(Run(w, acts), a)
    ensures Legal(w, acts + [a]) && Run(w, acts + [a]) == Apply(Run(w, acts), a) && Inv(Run(w, acts + [a]))
  {
    RunOne(Run(w, acts), a);
    RunAppend(w, acts, [a]);
    RunKeepsInv(w, acts + [a]);
  }
}
