/** How long what a settlement leaves behind is kept. */
module TaskKeeping {
  import opened Basics
  import opened TaskModel
  import opened TaskRuns
  import opened TaskInvariant
  import opened TaskSteps
  import opened TaskRetention
  import opened TaskMirror
  import opened TaskTheorems
  import opened TaskRest
  import opened TaskFailures
  import opened TaskLaws

  // ---- what settlement files --------------------------------------------------------------

  // A result for as long as its retention says, and for a failure a dead letter for as long as its own.
  ghost predicate FiledAt(kept: Kept, i: Identity, options: Options, failed: bool, at: Time) {
    && i in kept.results && i in kept.resultExpiry && at + options.resultRetention <= kept.resultExpiry[i]
    && (failed ==>
      i in kept.deadLetters && i in kept.deadLetterExpiry
        && at + options.deadLetterRetention <= kept.deadLetterExpiry[i])
  }

  lemma SettledFiles(s: Store, k: Key, error: Option<Error>, now: Time)
    requires k in s.tasks && s.tasks[k].outcome.Some?
    ensures FiledAt(Settled(s, k, error, now).kept, IdentityOf(s, k), s.tasks[k].options,
                    s.tasks[k].outcome.value.Failure?, now)
  {
    var i := IdentityOf(s, k);
    DisposedKeepsResults(Enlisted(s.(kept := Filed(s.kept, i, s.tasks[k], error, now)), i, now), k, now);
  }

  lemma FailureFiles(w: World, k: Key, stall: bool, error: Error, retryAt: Option<Time>)
    requires k in w.store.tasks && !WillRetry(error, retryAt)
    ensures FiledAt(FailedStore(w.store, k, stall, error, retryAt, w.clock).kept, IdentityOf(w.store, k),
                    w.store.tasks[k].options, true, w.clock)
  {
    var t := Failing(w.store.tasks[k], stall, error, retryAt, w.clock);
    SettledFiles(WithTask(WithTask(Unlocked(w.store, k), k, t), k, t.(outcome := Some(Failure))), k, Some(error),
                 w.clock);
  }

  lemma SuccessFiles(w: World, k: Key, value: Value)
    requires k in w.store.tasks
    ensures FiledAt(SucceededStore(w.store, k, value, w.clock).kept, IdentityOf(w.store, k), w.store.tasks[k].options,
                    false, w.clock)
  {
    SettledFiles(WithTask(Unlocked(w.store, k), k, w.store.tasks[k].(success := Some(value), outcome := Some(Success))),
                 k, None, w.clock);
  }

  // The step that settles a generation logs it at this instant and files what it leaves behind.
  lemma SettlementFiles(w: World, a: Action, i: Identity)
    requires Enabled(w, a) && Current(w.store, i) && i !in w.log.settled && i in Apply(w, a).log.settled
    ensures Apply(w, a).log.settled[i].at == w.clock
    ensures FiledAt(Apply(w, a).store.kept, i, w.store.tasks[i.key].options,
                    Apply(w, a).log.settled[i].outcome.Failure?, w.clock)
  {
    hide FailedStore, SucceededStore, FiledAt, HoldReleased;
    if a.Fail? {
      FailureFiles(w, a.key, false, a.error, a.retryAt);
    } else if a.Stall? {
      FailureFiles(w, a.key, true, Stalled, StallRetry(w.store.tasks[a.key]));
    } else if a.Succeed? {
      SuccessFiles(w, a.key, a.value);
    }
  }

  // ---- what later steps may take away ------------------------------------------------------------

  // Forced removal of this very generation, or of what it left behind.
  predicate Purges(s: Store, a: Action, i: Identity) {
    (a == ForceRemove(i.key) && Current(s, i)) || a == Forget(i)
  }

  // No step of the run does that; later generations of the task may well be removed by force.
  ghost predicate Spares(w: World, acts: seq<Action>, i: Identity)
    requires Legal(w, acts)
    decreases |acts|
  {
    acts == [] || (!Purges(w.store, acts[0], i) && Spares(Apply(w, acts[0]), acts[1..], i))
  }

  // Still filed, or the time it was kept for is over.
  ghost predicate KeptUntil(kept: map<Identity, Time>, i: Identity, until: Time, now: Time) {
    now < until ==> i in kept && until <= kept[i]
  }

  ghost predicate StaysFiled(w: World, i: Identity, result: Time, deadLetter: Time) {
    && KeptUntil(w.store.kept.resultExpiry, i, result, w.clock)
    && KeptUntil(w.store.kept.deadLetterExpiry, i, deadLetter, w.clock)
  }

  predicate OthersFiled(before: Kept, after: Kept, i: Identity) {
    && (i in before.resultExpiry ==> i in after.resultExpiry && after.resultExpiry[i] == before.resultExpiry[i])
    && (i in before.deadLetterExpiry ==>
      i in after.deadLetterExpiry && after.deadLetterExpiry[i] == before.deadLetterExpiry[i])
  }

  lemma FailedKeepsOthers(s: Store, k: Key, stall: bool, error: Error, retryAt: Option<Time>, now: Time, i: Identity)
    requires k in s.tasks && i != IdentityOf(s, k)
    ensures OthersFiled(s.kept, FailedStore(s, k, stall, error, retryAt, now).kept, i)
  {
    if !WillRetry(error, retryAt) {
      var t := Failing(s.tasks[k], stall, error, retryAt, now);
      SettledKeepsOthers(WithTask(WithTask(Unlocked(s, k), k, t), k, t.(outcome := Some(Failure))), k, Some(error), now,
                         i);
    }
  }

  lemma SettledKeepsOthers(s: Store, k: Key, error: Option<Error>, now: Time, i: Identity)
    requires k in s.tasks && s.tasks[k].outcome.Some? && i != IdentityOf(s, k)
    ensures OthersFiled(s.kept, Settled(s, k, error, now).kept, i)
  {
    var j := IdentityOf(s, k);
    DisposedKeepsResults(Enlisted(s.(kept := Filed(s.kept, j, s.tasks[k], error, now)), j, now), k, now);
  }

  lemma LetGoKeepsFiled(s: Store, e: Edge, now: Time, i: Identity)
    ensures OthersFiled(s.kept, HoldReleased(s, e, now).kept, i)
  {
    var t := Loosened(s, e, now);
    if Current(t, e.retained) && t.tasks[e.retained.key].outcome.Some? && !Held(t.holds, e.retained) {
      DisposedKeepsResults(t, e.retained.key, now);
    }
  }

  lemma PlainKeepsFiled(w: World, a: Action, i: Identity, result: Time, deadLetter: Time)
    requires Enabled(w, a) && !a.Fail? && !a.Stall? && !a.Succeed? && !a.LetGo? && !Purges(w.store, a, i)
    requires StaysFiled(w, i, result, deadLetter)
    ensures StaysFiled(Apply(w, a), i, result, deadLetter)
  {
    hide Placed, Unplaced, FirstWaiting, MayHold, HoldsEnlisted, Owns, Held;
  }

  lemma StepKeepsFiled(w: World, a: Action, i: Identity, result: Time, deadLetter: Time)
    requires Inv(w) && Enabled(w, a) && i in w.log.settled && !Purges(w.store, a, i)
    requires StaysFiled(w, i, result, deadLetter)
    ensures StaysFiled(Apply(w, a), i, result, deadLetter)
  {
    hide FailedStore, SucceededStore, HoldReleased, Inv;
    if a.Fail? || a.Stall? || a.Succeed? {
      SettlesTheUnsettled(w, a);
      if a.Fail? {
        FailedKeepsOthers(w.store, a.key, false, a.error, a.retryAt, w.clock, i);
      } else if a.Stall? {
        FailedKeepsOthers(w.store, a.key, true, Stalled, StallRetry(w.store.tasks[a.key]), w.clock, i);
      } else {
        SucceededKeepsOthers(w.store, a.key, a.value, w.clock, i);
      }
    } else if a.LetGo? {
      LetGoKeepsFiled(w.store, a.edge, w.clock, i);
    } else {
      PlainKeepsFiled(w, a, i, result, deadLetter);
    }
  }

  lemma SucceededKeepsOthers(s: Store, k: Key, value: Value, now: Time, i: Identity)
    requires k in s.tasks && i != IdentityOf(s, k)
    ensures OthersFiled(s.kept, SucceededStore(s, k, value, now).kept, i)
  {
    SettledKeepsOthers(WithTask(Unlocked(s, k), k, s.tasks[k].(success := Some(value), outcome := Some(Success))), k,
                       None, now, i);
  }

  lemma {:induction false} RunKeepsFiled(w: World, acts: seq<Action>, i: Identity, result: Time, deadLetter: Time)
    requires Inv(w) && Legal(w, acts) && i in w.log.settled && StaysFiled(w, i, result, deadLetter)
    requires Spares(w, acts, i)
    ensures StaysFiled(Run(w, acts), i, result, deadLetter)
    ensures i in Run(w, acts).log.settled && Run(w, acts).log.settled[i] == w.log.settled[i]
    decreases |acts|
  {
    hide Inv, Enabled, Apply, StaysFiled;
    if acts != [] {
      StepKeepsFiled(w, acts[0], i, result, deadLetter);
      StepKeepsInv(w, acts[0]);
      SettledStays(w, acts[0]);
      RunKeepsFiled(Apply(w, acts[0]), acts[1..], i, result, deadLetter);
    }
  }

  // ---- the promise -----------------------------------------------------------------------------------

  lemma OptionsStay(w: World, a: Action, i: Identity)
    requires Inv(w) && Enabled(w, a) && Current(w.store, i) && Current(Apply(w, a).store, i)
    ensures Apply(w, a).store.tasks[i.key].options == w.store.tasks[i.key].options
  {
    hide FailedStore, SucceededStore, HoldReleased, Inv;
    var k := i.key;
    if a.Fail? && a.key == k {
      FailedRecord(w.store, k, false, a.error, a.retryAt, w.clock);
    } else if a.Stall? && a.key == k {
      FailedRecord(w.store, k, true, Stalled, StallRetry(w.store.tasks[k]), w.clock);
    } else if a.Fail? {
      FailedElsewhere(w.store, a.key, false, a.error, a.retryAt, w.clock, k);
    } else if a.Stall? {
      FailedElsewhere(w.store, a.key, true, Stalled, StallRetry(w.store.tasks[a.key]), w.clock, k);
    } else if a.Succeed? {
      SucceededKeepsErrors(w.store, a.key, a.value, w.clock, k);
    } else if a.LetGo? {
      LetGoKeepsErrors(w.store, a.edge, w.clock, k);
    } else {
      OtherStepsKeepErrors(w, a, k);
    }
  }

  // What a generation settles as can be read until its result retention has passed since, and a failure stays a dead
  // letter until its own has: no maintenance, no removal of the record and no new generation takes it away earlier.
  lemma {:induction false} SettlementsAreKept(w: World, acts: seq<Action>, i: Identity)
    requires Inv(w) && Legal(w, acts) && Unsettled(w.store, i) && i in Run(w, acts).log.settled
    requires Spares(w, acts, i)
    ensures var v, o := Run(w, acts), w.store.tasks[i.key].options; var r := v.log.settled[i];
      && (v.clock < r.at + o.resultRetention ==> i in v.store.kept.results && v.store.kept.results[i] == r)
      && (r.outcome.Failure? && v.clock < r.at + o.deadLetterRetention ==> i in v.store.kept.deadLetters)
    decreases |acts|
  {
    hide Enabled, Apply, FiledAt, StaysFiled;
    assert i !in w.log.settled by { assert IdentityOf(w.store, i.key) == i; }
    if acts != [] {
      var a, u := acts[0], Apply(w, acts[0]);
      StepKeepsInv(w, a);
      if i in u.log.settled {
        SettlementFiles(w, a, i);
        KeptFromSettlement(w, u, acts[1..], i);
      } else {
        StillWorking(w, a, acts[1..], i);
        OptionsStay(w, a, i);
        SettlementsAreKept(u, acts[1..], i);
      }
    }
  }

  lemma KeptFromSettlement(w: World, u: World, rest: seq<Action>, i: Identity)
    requires Inv(u) && Legal(u, rest) && i in u.log.settled && Current(w.store, i) && u.log.settled[i].at == w.clock
    requires FiledAt(u.store.kept, i, w.store.tasks[i.key].options, u.log.settled[i].outcome.Failure?, w.clock)
    requires Spares(u, rest, i)
    ensures var v, o := Run(u, rest), w.store.tasks[i.key].options; i in v.log.settled && var r := v.log.settled[i];
      && (v.clock < r.at + o.resultRetention ==> i in v.store.kept.results && v.store.kept.results[i] == r)
      && (r.outcome.Failure? && v.clock < r.at + o.deadLetterRetention ==> i in v.store.kept.deadLetters)
  {
    hide Enabled, Apply;
    var o, r := w.store.tasks[i.key].options, u.log.settled[i];
    var deadLetter := if r.outcome.Failure? then r.at + o.deadLetterRetention else u.clock;
    RunKeepsFiled(u, rest, i, r.at + o.resultRetention, deadLetter);
    RunKeepsInv(u, rest);
    ClockGrows(u, rest);
  }

  lemma WorkIsKnown(w: World, i: Identity)
    requires Inv(w) && Unsettled(w.store, i)
    ensures Known(w.store.generations, i)
  {
    KnownWhenCurrent(w, i);
  }

  // A generation that settles later is unsettled until then.
  lemma StillWorking(w: World, a: Action, rest: seq<Action>, i: Identity)
    requires Inv(w) && Enabled(w, a) && Unsettled(w.store, i) && Legal(Apply(w, a), rest)
    requires i !in Apply(w, a).log.settled && i in Run(Apply(w, a), rest).log.settled
    ensures Unsettled(Apply(w, a).store, i)
  {
    hide Inv, Enabled, Apply, Unsettled;
    WorkIsKnown(w, i);
    StepKeepsInv(w, a);
    GenerationsGrow(w, a);
    OnlyWorkSettles(Apply(w, a), rest, i);
  }

  lemma {:induction false} OnlyWorkSettles(w: World, acts: seq<Action>, i: Identity)
    requires Inv(w) && Legal(w, acts) && i !in w.log.settled && i in Run(w, acts).log.settled
    requires Known(w.store.generations, i)
    ensures Unsettled(w.store, i)
    decreases |acts|
  {
    hide Enabled, Apply;
    if !Unsettled(w.store, i) && acts != [] {
      NeverUnsettledAgain(w, acts[0], i);
      if i in Apply(w, acts[0]).log.settled {
        SettlersWereUnsettled(w, acts[0], i);
      } else {
        StepKeepsInv(w, acts[0]);
        OnlyWorkSettles(Apply(w, acts[0]), acts[1..], i);
      }
    }
  }

  lemma SettlersWereUnsettled(w: World, a: Action, i: Identity)
    requires Inv(w) && Enabled(w, a) && i !in w.log.settled && i in Apply(w, a).log.settled
    ensures Unsettled(w.store, i)
  {
    if a.Fail? || a.Succeed? {
      ActiveByLock(w, a.key);
    } else if a.Stall? {
      ActiveByScore(w, a.key);
    }
  }

  // ---- records and lists ---------------------------------------------------------------------------------

  // A terminal list holds only settled tasks, and each the one its options choose for its outcome.
  lemma ListedAsChosen(w: World, acts: seq<Action>, k: Key)
    requires Sound(w) && Legal(w, acts)
    ensures var s := Run(w, acts).store;
      && (k in s.homes.succeeded ==>
        k in s.tasks && s.tasks[k].outcome.Some? && Chosen(s.tasks[k].options, s.tasks[k].outcome.value).MarkSuccess?)
      && (k in s.homes.failed ==>
        k in s.tasks && s.tasks[k].outcome.Some? && Chosen(s.tasks[k].options, s.tasks[k].outcome.value).MarkFailure?)
  {
    RunIsSound(w, acts);
    var v := Run(w, acts);
    assert HomeOk(v.store.tasks, v.store.homes, k);
    if k in v.store.tasks {
      assert ListingOk(v, k);
    }
  }

  // ---- what is deleted ------------------------------------------------------------------------------------

  // Nobody gets other options than the ones it was offered with.
  lemma {:induction false} RunKeepsOptions(w: World, acts: seq<Action>, i: Identity)
    requires Inv(w) && Legal(w, acts) && Current(w.store, i) && Current(Run(w, acts).store, i)
    ensures Run(w, acts).store.tasks[i.key].options == w.store.tasks[i.key].options
    decreases |acts|
  {
    hide Inv, Enabled, Apply, Current;
    if acts != [] {
      var a, v := acts[0], Apply(w, acts[0]);
      StepKeepsInv(w, a);
      if Current(v.store, i) {
        OptionsStay(w, a, i);
        RunKeepsOptions(v, acts[1..], i);
      } else {
        GenerationIsKnown(w, i);
        GenerationsGrow(w, a);
        GoneForGood(v, acts[1..], i);
      }
    }
  }

  lemma GenerationIsKnown(w: World, i: Identity)
    requires Inv(w) && Current(w.store, i)
    ensures Known(w.store.generations, i)
  {
  }

  // Once it has settled in a way for which its options say delete, and nobody holds it, its record is gone: at
  // settlement if nobody held it then, and else with the last hold.
  lemma DeletedUnlessHeld(w: World, acts: seq<Action>, i: Identity)
    requires Sound(w) && Legal(w, acts) && Current(w.store, i) && i in Run(w, acts).log.settled
    requires Chosen(w.store.tasks[i.key].options, Run(w, acts).log.settled[i].outcome).Delete?
    ensures var s := Run(w, acts).store;
      i.key in s.tasks && s.tasks[i.key].generation == i.generation <==>
        exists e :: e in s.holds.retainedBy && e.retained == i
  {
    var v := Run(w, acts);
    RunIsSound(w, acts);
    if Current(v.store, i) {
      RunKeepsOptions(w, acts, i);
      assert IdentityOf(v.store, i.key) == i;
      assert !Unheld(v.store.holds, i);
    }
  }

  predicate Displaces(a: Action, k: Key) {
    (a.Remove? || a.Replace? || a.ForceRemove?) && a.key == k
  }

  // The settled record is there and due to go no earlier than this, or its time is over.
  ghost predicate RecordStays(w: World, i: Identity, options: Options, outcome: Outcome, until: Time) {
    w.clock < until ==>
      && Current(w.store, i) && w.store.tasks[i.key].options == options && w.store.tasks[i.key].outcome == Some(outcome)
      && i in w.store.kept.taskExpiry && until <= w.store.kept.taskExpiry[i]
  }

  predicate KeepsChoice(t: Task, u: Task) {
    u.options == t.options && u.outcome == t.outcome
  }

  lemma UndisturbedKeepsRecord(w: World, a: Action, i: Identity)
    requires Enabled(w, a) && Current(w.store, i) && w.store.tasks[i.key].outcome.Some?
    requires !a.Fail? && !a.Stall? && !a.Succeed? && !a.LetGo? && !a.ExpireTask? && !Displaces(a, i.key)
    requires i.key !in w.store.homes.active && i.key !in w.store.homes.wait && i.key !in w.store.homes.scheduled
    requires !Locked(w.store, i.key, w.clock)
    ensures Current(Apply(w, a).store, i) && KeepsChoice(w.store.tasks[i.key], Apply(w, a).store.tasks[i.key])
  {
    hide Placed, Unplaced, FirstWaiting, MayHold, HoldsEnlisted, Held;
  }

  lemma UndisturbedKeepsExpiry(w: World, a: Action, i: Identity)
    requires Enabled(w, a) && Current(w.store, i)
    requires !a.Fail? && !a.Stall? && !a.Succeed? && !a.LetGo? && !a.ExpireTask? && !Displaces(a, i.key)
    requires i in w.store.kept.taskExpiry && w.clock < w.store.kept.taskExpiry[i]
    ensures SameExpiry(w.store.kept, Apply(w, a).store.kept, i)
  {
    hide Placed, Unplaced, FirstWaiting, MayHold, HoldsEnlisted, Held;
  }

  predicate SameExpiry(before: Kept, after: Kept, i: Identity) {
    i in before.taskExpiry ==> i in after.taskExpiry && after.taskExpiry[i] == before.taskExpiry[i]
  }

  lemma DisposedElsewhereKeepsRecord(s: Store, k: Key, now: Time, i: Identity)
    requires k in s.tasks && s.tasks[k].outcome.Some? && i.key != k && Current(s, i)
    ensures var t := Disposed(s, k, now);
      Current(t, i) && t.tasks[i.key] == s.tasks[i.key] && SameExpiry(s.kept, t.kept, i)
  {
    hide Placed, Unplaced;
  }

  lemma SettledElsewhereKeepsRecord(s: Store, k: Key, error: Option<Error>, now: Time, i: Identity)
    requires k in s.tasks && s.tasks[k].outcome.Some? && i.key != k && Current(s, i)
    ensures var t := Settled(s, k, error, now);
      Current(t, i) && t.tasks[i.key] == s.tasks[i.key] && SameExpiry(s.kept, t.kept, i)
  {
    var j := IdentityOf(s, k);
    DisposedElsewhereKeepsRecord(Enlisted(s.(kept := Filed(s.kept, j, s.tasks[k], error, now)), j, now), k, now, i);
  }

  lemma FailedElsewhereKeepsRecord(s: Store, k: Key, stall: bool, error: Error, retryAt: Option<Time>, now: Time,
                                   i: Identity)
    requires k in s.tasks && i.key != k && Current(s, i)
    ensures var t := FailedStore(s, k, stall, error, retryAt, now);
      Current(t, i) && t.tasks[i.key] == s.tasks[i.key] && SameExpiry(s.kept, t.kept, i)
  {
    if !WillRetry(error, retryAt) {
      var t := Failing(s.tasks[k], stall, error, retryAt, now);
      SettledElsewhereKeepsRecord(WithTask(WithTask(Unlocked(s, k), k, t), k, t.(outcome := Some(Failure))), k,
                                  Some(error), now, i);
    }
  }

  lemma LetGoKeepsRecord(s: Store, e: Edge, now: Time, i: Identity)
    requires Current(s, i) && s.tasks[i.key].outcome.Some?
    requires !Chosen(s.tasks[i.key].options, s.tasks[i.key].outcome.value).Delete?
    ensures var t := HoldReleased(s, e, now);
      Current(t, i) && KeepsChoice(s.tasks[i.key], t.tasks[i.key]) && SameExpiry(s.kept, t.kept, i)
  {
    hide Placed, Unplaced;
    var t := Loosened(s, e, now);
    var k := e.retained.key;
    if Current(t, e.retained) && t.tasks[k].outcome.Some? && !Held(t.holds, e.retained) {
      if k == i.key {
        assert PolicyOf(t.tasks[k]) == Chosen(s.tasks[k].options, s.tasks[k].outcome.value);
      } else {
        DisposedElsewhereKeepsRecord(t, k, now, i);
      }
    }
  }

  lemma ExpiryKeepsRecord(s: Store, j: Identity, i: Identity)
    requires Current(s, i) && j != i
    ensures var t := TaskExpired(s, j);
      Current(t, i) && t.tasks[i.key] == s.tasks[i.key] && SameExpiry(s.kept, t.kept, i)
  {
    hide Unplaced;
    assert j == Identity(j.key, j.generation);
  }

  lemma SettledIsQuiet(w: World, k: Key)
    requires Inv(w) && k in w.store.tasks && w.store.tasks[k].outcome.Some?
    ensures k !in w.store.homes.active && k !in w.store.homes.wait && k !in w.store.homes.scheduled
    ensures !Locked(w.store, k, w.clock)
  {
    SettledIsIdle(w, k);
    assert HomeOk(w.store.tasks, w.store.homes, k);
    assert TaskOk(w.store.tasks[k], Released(w.log, IdentityOf(w.store, k)));
  }

  // The record as the step leaves it, when the step neither removes it nor is its own expiry.
  lemma StepLeavesRecord(w: World, a: Action, i: Identity)
    requires Inv(w) && Enabled(w, a) && Current(w.store, i) && w.store.tasks[i.key].outcome.Some?
    requires !Chosen(w.store.tasks[i.key].options, w.store.tasks[i.key].outcome.value).Delete?
    requires !Displaces(a, i.key) && a != ExpireTask(i)
    requires i in w.store.kept.taskExpiry && w.clock < w.store.kept.taskExpiry[i]
    ensures var t := Apply(w, a).store;
      Current(t, i) && KeepsChoice(w.store.tasks[i.key], t.tasks[i.key]) && SameExpiry(w.store.kept, t.kept, i)
  {
    hide FailedStore, SucceededStore, HoldReleased, TaskExpired, Inv;
    SettledIsQuiet(w, i.key);
    if a.Fail? {
      FailedElsewhereKeepsRecord(w.store, a.key, false, a.error, a.retryAt, w.clock, i);
    } else if a.Stall? {
      FailedElsewhereKeepsRecord(w.store, a.key, true, Stalled, StallRetry(w.store.tasks[a.key]), w.clock, i);
    } else if a.Succeed? {
      SucceededElsewhereKeepsRecord(w.store, a.key, a.value, w.clock, i);
    } else if a.LetGo? {
      LetGoKeepsRecord(w.store, a.edge, w.clock, i);
    } else if a.ExpireTask? {
      ExpiryKeepsRecord(w.store, a.identity, i);
    } else {
      UndisturbedKeepsRecord(w, a, i);
      UndisturbedKeepsExpiry(w, a, i);
    }
  }

  lemma SucceededElsewhereKeepsRecord(s: Store, k: Key, value: Value, now: Time, i: Identity)
    requires k in s.tasks && i.key != k && Current(s, i)
    ensures var t := SucceededStore(s, k, value, now);
      Current(t, i) && t.tasks[i.key] == s.tasks[i.key] && SameExpiry(s.kept, t.kept, i)
  {
    var u := WithTask(Unlocked(s, k), k, s.tasks[k].(success := Some(value), outcome := Some(Success)));
    SettledElsewhereKeepsRecord(u, k, None, now, i);
  }

  // A settled record whose policy does not delete it stays until its record retention ends, unless it is removed or
  // replaced by another generation.
  lemma {:induction false} RecordsAreKept(w: World, acts: seq<Action>, i: Identity, options: Options,
                                          outcome: Outcome, until: Time)
    requires Inv(w) && Legal(w, acts) && RecordStays(w, i, options, outcome, until) && !Chosen(options, outcome).Delete?
    requires forall a :: a in acts ==> !Displaces(a, i.key)
    ensures RecordStays(Run(w, acts), i, options, outcome, until)
    decreases |acts|
  {
    hide Enabled, Apply, Inv;
    if acts != [] {
      var a, v := acts[0], Apply(w, acts[0]);
      assert a in acts && forall b :: b in acts[1..] ==> b in acts;
      TokensStay(w, a);
      StepKeepsInv(w, a);
      if w.clock < until {
        if a == ExpireTask(i) {
          ExpiryIsDue(w, i);
        } else {
          StepLeavesRecord(w, a, i);
        }
      }
      RecordsAreKept(v, acts[1..], i, options, outcome, until);
    }
  }

  lemma ExpiryIsDue(w: World, i: Identity)
    requires Enabled(w, ExpireTask(i))
    ensures i in w.store.kept.taskExpiry && w.store.kept.taskExpiry[i] <= w.clock
  {
  }

  lemma SettledSchedules(s: Store, k: Key, error: Option<Error>, now: Time)
    requires k in s.tasks && s.tasks[k].outcome.Some? && !Chosen(s.tasks[k].options, s.tasks[k].outcome.value).Delete?
    ensures var t, i := Settled(s, k, error, now), IdentityOf(s, k);
      && Current(t, i) && KeepsChoice(s.tasks[k], t.tasks[k])
      && i in t.kept.taskExpiry && t.kept.taskExpiry[i] == now + s.tasks[k].options.taskRetention
  {
    hide Placed, Unplaced;
    assert PolicyOf(s.tasks[k]) == Chosen(s.tasks[k].options, s.tasks[k].outcome.value);
  }

  lemma FailureSchedules(w: World, k: Key, stall: bool, error: Error, retryAt: Option<Time>)
    requires k in w.store.tasks && !WillRetry(error, retryAt) && !w.store.tasks[k].options.onFailure.Delete?
    ensures var o := w.store.tasks[k].options;
      RecordStays(w.(store := FailedStore(w.store, k, stall, error, retryAt, w.clock)), IdentityOf(w.store, k), o,
                  Failure, w.clock + o.taskRetention)
  {
    var t := Failing(w.store.tasks[k], stall, error, retryAt, w.clock);
    SettledSchedules(WithTask(WithTask(Unlocked(w.store, k), k, t), k, t.(outcome := Some(Failure))), k, Some(error),
                     w.clock);
  }

  // From the step that settles a generation on, its record stays for its record retention, unless its policy deletes
  // it.
  lemma SettlementStartsRetention(w: World, a: Action, i: Identity)
    requires Enabled(w, a) && Current(w.store, i) && i !in w.log.settled && i in Apply(w, a).log.settled
    requires !Chosen(w.store.tasks[i.key].options, Apply(w, a).log.settled[i].outcome).Delete?
    ensures var o, v := w.store.tasks[i.key].options, Apply(w, a);
      RecordStays(v, i, o, v.log.settled[i].outcome, v.log.settled[i].at + o.taskRetention)
  {
    hide FailedStore, HoldReleased, RecordStays;
    if a.Fail? {
      FailureSchedules(w, a.key, false, a.error, a.retryAt);
      SameStoreStays(w.(store := Apply(w, a).store), Apply(w, a), i);
    } else if a.Stall? {
      FailureSchedules(w, a.key, true, Stalled, StallRetry(w.store.tasks[a.key]));
      SameStoreStays(w.(store := Apply(w, a).store), Apply(w, a), i);
    } else if a.Succeed? {
      SuccessSchedules(w, a.key, a.value);
      SameStoreStays(w.(store := Apply(w, a).store), Apply(w, a), i);
    }
  }

  lemma SuccessSchedules(w: World, k: Key, value: Value)
    requires k in w.store.tasks && !w.store.tasks[k].options.onSuccess.Delete?
    ensures var o := w.store.tasks[k].options;
      RecordStays(w.(store := SucceededStore(w.store, k, value, w.clock)), IdentityOf(w.store, k), o, Success,
                  w.clock + o.taskRetention)
  {
    SettledSchedules(WithTask(Unlocked(w.store, k), k,
                              w.store.tasks[k].(success := Some(value), outcome := Some(Success))), k, None, w.clock);
  }

  lemma SameStoreStays(w: World, v: World, i: Identity)
    requires v.store == w.store && v.clock == w.clock
    ensures forall o, outcome, until :: RecordStays(w, i, o, outcome, until) ==> RecordStays(v, i, o, outcome, until)
  {
  }
}
