/** Who still works: a generation that stopped never works again, and whoever works is not giving up its holds. */
module TaskRest {
  import opened Basics
  import opened TaskModel
  import opened TaskRuns
  import opened TaskInvariant
  import opened TaskRetention
  import opened TaskMirror
  import opened TaskTheorems

  // ---- stopped for good -----------------------------------------------------------------

  // A generation that has stopped working never works again.
  lemma NeverUnsettledAgain(w: World, a: Action, i: Identity)
    requires Inv(w) && Enabled(w, a) && Known(w.store.generations, i) && !Unsettled(w.store, i)
    ensures Known(Apply(w, a).store.generations, i) && !Unsettled(Apply(w, a).store, i)
  {
    GenerationsGrow(w, a);
    StepKeepsInv(w, a);
    SettledStays(w, a);
    if Current(w.store, i) {
      assert i in w.log.settled by { assert IdentityOf(w.store, i.key) == i; }
      SettledNotUnsettled(Apply(w, a), i);
    } else {
      GoneStaysGone(w, a, i);
    }
  }

  lemma SettledNotUnsettled(v: World, i: Identity)
    requires Inv(v) && i in v.log.settled
    ensures !Unsettled(v.store, i)
  {
  }

  lemma LetGoStaysGone(s: Store, e: Edge, now: Time, i: Identity)
    requires !Current(s, i)
    ensures !Current(HoldReleased(s, e, now), i)
  {
  }

  lemma FailedStaysGone(s: Store, k: Key, stall: bool, error: Error, retryAt: Option<Time>, now: Time, i: Identity)
    requires k in s.tasks && !Current(s, i)
    ensures !Current(FailedStore(s, k, stall, error, retryAt, now), i)
  {
  }

  // The other steps create no record and change no generation.
  lemma OtherGenerations(w: World, a: Action, k: Key)
    requires Enabled(w, a) && !a.Create? && !a.Fail? && !a.Stall? && !a.Succeed? && !a.LetGo?
    requires k in Apply(w, a).store.tasks
    ensures k in w.store.tasks && Apply(w, a).store.tasks[k].generation == w.store.tasks[k].generation
  {
    hide Placed, Unplaced, FirstWaiting, HoldsEnlisted, Owns, Held, DueIn, MayHold, Released;
  }

  lemma GoneStaysGone(w: World, a: Action, i: Identity)
    requires Enabled(w, a) && Known(w.store.generations, i) && !Current(w.store, i)
    ensures !Current(Apply(w, a).store, i)
  {
    hide Placed, HoldReleased, FailedStore, FirstWaiting, HoldsEnlisted, Settled, Owns, MayHold, Held, DueIn;
    match a
    case Fail(k, token, error, retryAt) => FailedStaysGone(w.store, k, false, error, retryAt, w.clock, i);
    case Stall(k) => FailedStaysGone(w.store, k, true, Stalled, StallRetry(w.store.tasks[k]), w.clock, i);
    case Succeed(k, token, value) => SucceededStaysGone(w.store, k, value, w.clock, i);
    case LetGo(e) => LetGoStaysGone(w.store, e, w.clock, i);
    case Create(k, options, holder) =>
    case _ =>
      if i.key in Apply(w, a).store.tasks {
        OtherGenerations(w, a, i.key);
      }
  }

  lemma SucceededStaysGone(s: Store, k: Key, value: Value, now: Time, i: Identity)
    requires k in s.tasks && !Current(s, i)
    ensures !Current(SucceededStore(s, k, value, now), i)
  {
  }

  lemma {:induction false} GoneForGood(w: World, acts: seq<Action>, i: Identity)
    requires Legal(w, acts) && Known(w.store.generations, i) && !Current(w.store, i)
    ensures !Current(Run(w, acts).store, i)
    decreases |acts|
  {
    hide Enabled, Apply, Current;
    if acts != [] {
      GoneStaysGone(w, acts[0], i);
      GenerationsGrow(w, acts[0]);
      GoneForGood(Apply(w, acts[0]), acts[1..], i);
    }
  }

  lemma KnownBySound(w: World, i: Identity)
    requires Sound(w) && Current(w.store, i)
    ensures Known(w.store.generations, i)
  {
    KnownWhenCurrent(w, i);
  }

  lemma {:induction false} StoppedForGood(w: World, acts: seq<Action>, i: Identity)
    requires Inv(w) && Legal(w, acts) && Known(w.store.generations, i) && !Unsettled(w.store, i)
    ensures !Unsettled(Run(w, acts).store, i)
    decreases |acts|
  {
    if acts != [] {
      NeverUnsettledAgain(w, acts[0], i);
      StepKeepsInv(w, acts[0]);
      StoppedForGood(Apply(w, acts[0]), acts[1..], i);
    }
  }


  lemma SoundIsInv(w: World)
    requires Sound(w)
    ensures Inv(w)
  {
  }

  // ---- nobody at work is listed for giving up its holds ---------------------------------------

  // Between two scripts only generations that are settled or gone are listed for release.
  ghost predicate Rested(s: Store) {
    forall h :: h in s.holds.continuation ==> !Unsettled(s, h)
  }

  lemma SettledEnlists(s: Store, k: Key, error: Option<Error>, now: Time)
    requires k in s.tasks && s.tasks[k].outcome.Some?
    ensures Settled(s, k, error, now).holds.continuation == s.holds.continuation[IdentityOf(s, k) := now]
  {
  }

  lemma FailedEnlists(w: World, k: Key, stall: bool, error: Error, retryAt: Option<Time>, h: Identity)
    requires k in w.store.tasks && h !in w.store.holds.continuation
    requires h in FailedStore(w.store, k, stall, error, retryAt, w.clock).holds.continuation
    ensures h in FailedLog(w, k, error, retryAt).settled
  {
    hide Settled;
    if !WillRetry(error, retryAt) {
      var t := Failing(w.store.tasks[k], stall, error, retryAt, w.clock);
      var u := WithTask(Unlocked(w.store, k), k, t);
      SettledEnlists(WithTask(u, k, t.(outcome := Some(Failure))), k, Some(error), w.clock);
    }
  }

  lemma SucceededEnlists(w: World, k: Key, value: Value, h: Identity)
    requires k in w.store.tasks && h !in w.store.holds.continuation
    requires h in SucceededStore(w.store, k, value, w.clock).holds.continuation
    ensures h == IdentityOf(w.store, k)
  {
    hide Settled;
    SettledEnlists(WithTask(Unlocked(w.store, k), k,
                            w.store.tasks[k].(success := Some(value), outcome := Some(Success))), k, None, w.clock);
  }

  lemma LetGoEnlists(s: Store, e: Edge, now: Time)
    ensures HoldReleased(s, e, now).holds.continuation == s.holds.continuation[e.holder := now]
  {
  }

  lemma OthersEnlistNobody(w: World, a: Action, h: Identity)
    requires Enabled(w, a) && h !in w.store.holds.continuation && h in Apply(w, a).store.holds.continuation
    requires !a.Fail? && !a.Stall? && !a.Succeed? && !a.LetGo?
    ensures a == Leave(h) || a == Enlist(h)
  {
    hide Placed, Unplaced, FirstWaiting, MayHold, HoldsEnlisted, Held;
  }

  // Who is newly listed has settled, has stopped working, or is being removed.
  lemma NewlyListed(w: World, a: Action, h: Identity)
    requires Inv(w) && Enabled(w, a) && h !in w.store.holds.continuation && h in Apply(w, a).store.holds.continuation
    ensures a == Leave(h) || (a == Enlist(h) && !Unsettled(w.store, h)) || h in Apply(w, a).log.settled
  {
    hide Inv, FailedStore, SucceededStore, HoldReleased, FailedLog;
    match a
    case Fail(k, token, error, retryAt) => FailedEnlists(w, k, false, error, retryAt, h);
    case Stall(k) => FailedEnlists(w, k, true, Stalled, StallRetry(w.store.tasks[k]), h);
    case Succeed(k, token, value) => SucceededEnlists(w, k, value, h);
    case LetGo(e) => LetGoEnlists(w.store, e, w.clock);
    case _ => OthersEnlistNobody(w, a, h);
  }

  lemma ListedIsKnown(w: World, h: Identity)
    requires MirrorInv(w) && h in w.store.holds.continuation
    ensures Known(w.store.generations, h)
  {
  }

  lemma EnlistKeepsRest(w: World, h: Identity)
    requires Enabled(w, Enlist(h))
    ensures !Unsettled(Apply(w, Enlist(h)).store, h)
  {
  }

  // Somebody at work is listed after a step only if so before, or if the step begins its removal.
  lemma StepRests(w: World, a: Action, h: Identity)
    requires Inv(w) && MirrorInv(w) && Enabled(w, a)
    requires h in Apply(w, a).store.holds.continuation && Unsettled(Apply(w, a).store, h)
    ensures (h in w.store.holds.continuation && Unsettled(w.store, h)) || a == Leave(h)
  {
    hide Inv, MirrorInv, Enabled, Apply, Unsettled;
    if h in w.store.holds.continuation {
      ListedIsKnown(w, h);
      if !Unsettled(w.store, h) {
        NeverUnsettledAgain(w, a, h);
      }
    } else {
      NewlyListed(w, a, h);
      if a == Enlist(h) {
        EnlistKeepsRest(w, h);
      } else if a != Leave(h) {
        StepKeepsInv(w, a);
        SettledNotUnsettled(Apply(w, a), h);
      }
    }
  }

  // Somebody at work is listed at the end of a run only if so at its beginning, or if a removal began meanwhile.
  lemma {:induction false} RunRests(w: World, acts: seq<Action>, h: Identity)
    requires Sound(w) && Legal(w, acts)
    requires h in Run(w, acts).store.holds.continuation && Unsettled(Run(w, acts).store, h)
    ensures (h in w.store.holds.continuation && Unsettled(w.store, h)) || Leave(h) in acts
    decreases |acts|
  {
    hide Inv, MirrorInv, ListingInv, DisposalInv, Enabled, Apply, Unsettled;
    if acts != [] {
      var a, v := acts[0], Apply(w, acts[0]);
      StepIsSound(w, a);
      RunRests(v, acts[1..], h);
      if h in v.store.holds.continuation && Unsettled(v.store, h) {
        StepRests(w, a, h);
      }
    }
  }
}
