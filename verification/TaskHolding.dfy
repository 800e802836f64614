/** Result retention over whole runs: what a hold protects, and for how long. */
module TaskHolding {
  import opened Basics
  import opened TaskModel
  import opened TaskRuns
  import opened TaskInvariant
  import opened TaskRetention
  import opened TaskMirror
  import opened TaskTheorems
  import opened TaskRest
  import opened TaskUpkeep

  // ---- a hold lasts as long as its holder works ---------------------------------------

  // The holder works on, so nothing has begun to release its holds.
  predicate Holding(s: Store, e: Edge) {
    e in s.holds.retainedBy && Unsettled(s, e.holder) && e.holder !in s.holds.continuation
  }

  lemma RestedHolds(s: Store, e: Edge)
    requires Rested(s) && e in s.holds.retainedBy && Unsettled(s, e.holder)
    ensures Holding(s, e)
  {
  }

  predicate Severs(a: Action, e: Edge) {
    a == Leave(e.holder) || a == ForceRemove(e.retained.key)
  }

  lemma SettledHoldings(s: Store, k: Key, error: Option<Error>, now: Time)
    requires k in s.tasks && s.tasks[k].outcome.Some?
    ensures var t := Settled(s, k, error, now);
      && t.holds == s.holds.(continuation := s.holds.continuation[IdentityOf(s, k) := now])
      && s.kept.results.Keys <= t.kept.results.Keys
  {
  }

  lemma FailingHolds(w: World, k: Key, stall: bool, error: Error, retryAt: Option<Time>, e: Edge)
    requires k in w.store.tasks && Holding(w.store, e)
    ensures var t := FailedStore(w.store, k, stall, error, retryAt, w.clock);
      && e in t.holds.retainedBy && (Unsettled(t, e.holder) ==> e.holder !in t.holds.continuation)
      && w.store.kept.results.Keys <= t.kept.results.Keys
  {
  }

  lemma SucceedingHolds(w: World, k: Key, value: Value, e: Edge)
    requires k in w.store.tasks && Holding(w.store, e)
    ensures var t := SucceededStore(w.store, k, value, w.clock);
      && e in t.holds.retainedBy && (Unsettled(t, e.holder) ==> e.holder !in t.holds.continuation)
      && w.store.kept.results.Keys <= t.kept.results.Keys
  {
  }

  lemma LettingGoHolds(w: World, f: Edge, e: Edge)
    requires Enabled(w, LetGo(f)) && Holding(w.store, e)
    ensures var t := HoldReleased(w.store, f, w.clock);
      && e in t.holds.retainedBy && e.holder !in t.holds.continuation && t.kept.results == w.store.kept.results
  {
  }

  lemma OtherHolds(w: World, a: Action, e: Edge)
    requires HoldsInv(w.store) && Enabled(w, a) && Holding(w.store, e) && !Severs(a, e)
    requires a.Create? || a.Hold? || a.Enlist? || a.Leave? || a.Delist? || a.ForceRemove?
    ensures var t := Apply(w, a).store;
      && e in t.holds.retainedBy && (Unsettled(t, e.holder) ==> e.holder !in t.holds.continuation)
  {
    hide Placed, Unplaced, MayHold, HoldsEnlisted;
  }

  lemma OtherResults(w: World, a: Action)
    requires Enabled(w, a) && !a.Fail? && !a.Stall? && !a.Succeed? && !a.LetGo?
    requires !a.ForceRemove? && !a.Forget? && !a.ExpireResult?
    ensures Apply(w, a).store.kept.results == w.store.kept.results
  {
    hide Placed, Unplaced, MayHold, HoldsEnlisted, FirstWaiting, Held, Deleted, TaskExpired, TerminalUnlisted;
    if a.Replace? || a.Remove? {
      DeletedResults(w.store, a.key);
    } else if a.ExpireTask? || a.ExpireTerminal? {
      ExpiredResults(w.store, a.identity);
    }
  }

  lemma DeletedResults(s: Store, k: Key)
    requires k in s.tasks
    ensures Deleted(s, k).kept.results == s.kept.results
  {
  }

  lemma ExpiredResults(s: Store, i: Identity)
    ensures TaskExpired(s, i).kept.results == s.kept.results && TerminalUnlisted(s, i).kept.results == s.kept.results
  {
  }

  // A result that is held neither expires nor goes with another generation.
  lemma HeldResult(w: World, a: Action, e: Edge)
    requires HoldsInv(w.store) && Enabled(w, a) && e in w.store.holds.retainedBy && !Severs(a, e)
    requires a.ForceRemove? || a.Forget? || a.ExpireResult?
    requires e.retained in w.store.kept.results
    ensures e.retained in Apply(w, a).store.kept.results
  {
    hide Unplaced, HoldsEnlisted;
    assert Current(w.store, e.retained) && Held(w.store.holds, e.retained);
  }

  lemma HoldStays(w: World, a: Action, e: Edge)
    requires HoldsInv(w.store) && Enabled(w, a) && Holding(w.store, e) && !Severs(a, e)
    ensures var t := Apply(w, a).store;
      && e in t.holds.retainedBy && (Unsettled(t, e.holder) ==> Holding(t, e))
      && (e.retained in w.store.kept.results ==> e.retained in t.kept.results)
  {
    hide FailedStore, SucceededStore, HoldReleased, Placed, Unplaced, HoldsInv, Created, Deleted, Purged, Forgotten,
         TaskExpired, TerminalUnlisted, TakenStore, ExtendedStore, Enlisted, FailedLog, FirstWaiting, MayHold,
         HoldsEnlisted, Held;
    match a
    case Fail(k, token, error, retryAt) => FailingHolds(w, k, false, error, retryAt, e);
    case Stall(k) => FailingHolds(w, k, true, Stalled, StallRetry(w.store.tasks[k]), e);
    case Succeed(k, token, value) => SucceedingHolds(w, k, value, e);
    case LetGo(f) => LettingGoHolds(w, f, e);
    case _ =>
      if IsPlain(a) {
        PlainHolds(w, a);
      } else {
        OtherHolds(w, a, e);
      }
      if a.ForceRemove? || a.Forget? || a.ExpireResult? {
        if e.retained in w.store.kept.results {
          HeldResult(w, a, e);
        }
      } else {
        OtherResults(w, a);
      }
  }

  lemma {:induction false} RunKeepsHold(w: World, acts: seq<Action>, e: Edge)
    requires Inv(w) && Legal(w, acts) && Holding(w.store, e) && Unsettled(Run(w, acts).store, e.holder)
    requires forall a :: a in acts ==> !Severs(a, e)
    ensures Holding(Run(w, acts).store, e) && Current(Run(w, acts).store, e.retained)
    ensures e.retained in w.store.kept.results ==> e.retained in Run(w, acts).store.kept.results
    decreases |acts|
  {
    if acts != [] {
      var a, v := acts[0], Apply(w, acts[0]);
      assert a in acts && forall b :: b in acts[1..] ==> b in acts;
      HoldStays(w, a, e);
      StepKeepsInv(w, a);
      GenerationsGrow(w, a);
      if !Unsettled(v.store, e.holder) {
        assert Known(v.store.generations, e.holder);
        StoppedForGood(v, acts[1..], e.holder);
        assert false;
      }
      RunKeepsHold(v, acts[1..], e);
    }
  }

  // A script after which the holder still works begins no removal of it, so it gives up none of its holds.
  lemma NobodyLeaves(w: World, c: Call, h: Identity)
    requires Serving(w, c) && Unsettled(Run(w, StepsIn(c)).store, h)
    ensures Leave(h) !in StepsIn(c)
  {
    hide Legal, Unsettled;
  }

  lemma HolderIsKnown(w: World, e: Edge)
    requires Sound(w) && e in w.store.holds.retainedBy
    ensures Known(w.store.generations, e.holder)
  {
  }

  // As long as the holder works, the record it holds and that record's result stay through every sequence of calls,
  // whatever they are, unless the held task is removed by force.
  lemma {:induction false} HoldProtects(w: World, calls: seq<Call>, e: Edge)
    requires Sound(w) && Rested(w.store) && Serves(w, calls)
    requires e in w.store.holds.retainedBy && Unsettled(w.store, e.holder) && Unsettled(After(w, calls).store, e.holder)
    requires forall c :: c in calls ==> ForceRemove(e.retained.key) !in c.core
    ensures e in After(w, calls).store.holds.retainedBy && Current(After(w, calls).store, e.retained)
    ensures e.retained in w.store.kept.results ==> e.retained in After(w, calls).store.kept.results
    decreases |calls|
  {
    hide Sound, Rested, Legal, Unsettled;
    if calls == [] {
      SoundHoldsCurrent(w, e);
    } else {
      var c, v := calls[0], Run(w, StepsIn(calls[0]));
      assert c in calls && forall d :: d in calls[1..] ==> d in calls;
      ReachesSound(w, StepsIn(c), v);
      ScriptRests(w, c.time, c.batch, c.upkeep, c.core, v);
      StillAtWork(w, v, calls, e);
      NobodyLeaves(w, c, e.holder);
      RestedHolds(w.store, e);
      SoundIsInv(w);
      RunKeepsHold(w, StepsIn(c), e);
      HoldProtects(v, calls[1..], e);
    }
  }

  // The holder works at the end, so it works after the first call.
  lemma StillAtWork(w: World, v: World, calls: seq<Call>, e: Edge)
    requires Sound(w) && Serves(w, calls) && calls != [] && v == Run(w, StepsIn(calls[0])) && Sound(v)
    requires Rested(v.store)
    requires e in w.store.holds.retainedBy && Unsettled(After(w, calls).store, e.holder)
    ensures Unsettled(v.store, e.holder)
  {
    hide Sound, Rested, Legal, Unsettled;
    HolderIsKnown(w, e);
    SoundIsInv(w);
    SoundIsInv(v);
    GenerationsNeverDecrease(w, StepsIn(calls[0]), e.holder.key);
    if !Unsettled(v.store, e.holder) {
      ServedIsRun(v, calls[1..]);
      StoppedForGood(v, AllSteps(calls[1..]), e.holder);
    }
  }

  lemma SoundHoldsCurrent(w: World, e: Edge)
    requires Sound(w) && e in w.store.holds.retainedBy
    ensures Current(w.store, e.retained)
  {
  }
}
