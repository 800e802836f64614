/** When a delayed or retried task may run: not before its time, and from then on. */
module TaskTiming {
  import opened Basics
  import opened TaskModel
  import opened TaskRuns
  import opened TaskInvariant
  import opened TaskRetention
  import opened TaskMirror
  import opened TaskTheorems
  import opened TaskLaws
  import opened TaskUpkeep

  // The delayed task is delayed as it was.
  predicate StillDelayed(s: Store, t: Store, k: Key) {
    && k in s.homes.scheduled && k in t.homes.scheduled && t.homes.scheduled[k] == s.homes.scheduled[k]
    && k in s.tasks && k in t.tasks && t.tasks[k].generation == s.tasks[k].generation
  }

  lemma DelayedIsWork(w: World, k: Key)
    requires Inv(w) && k in w.store.homes.scheduled
    ensures k in w.store.tasks && w.store.tasks[k].place.Scheduled? && w.store.tasks[k].outcome.None?
    ensures k !in w.store.homes.wait && k !in w.store.homes.active
  {
    assert HomeOk(w.store.tasks, w.store.homes, k);
  }

  lemma OthersLeaveDelayed(s: Store, t: Store, j: Key, k: Key)
    requires OthersStay(s.homes, t.homes, j) && j != k && k in s.homes.scheduled && k in s.tasks
    requires t.tasks - {j} == s.tasks - {j}
    ensures StillDelayed(s, t, k)
  {
    assert k in s.tasks - {j} && (s.tasks - {j})[k] == s.tasks[k];
    assert k in t.tasks - {j} && (t.tasks - {j})[k] == t.tasks[k];
  }

  // Who is taken waits, and who is worked on is active.
  lemma AttemptIsElsewhere(w: World, a: Action, k: Key)
    requires Inv(w) && Enabled(w, a) && k in w.store.homes.scheduled
    requires a.Take? || a.Extend? || a.GiveUp? || a.Fail? || a.Succeed? || a.Stall?
    ensures a.key != k && (a.Extend? ==> w.store.tasks[a.key].place.Active?)
  {
    DelayedIsWork(w, k);
    if a.Stall? {
      ActiveByScore(w, a.key);
    } else if !a.Take? {
      ActiveByLock(w, a.key);
    }
  }

  lemma AttemptLeavesDelayed(w: World, a: Action, k: Key)
    requires Inv(w) && Enabled(w, a) && k in w.store.homes.scheduled
    requires a.Take? || a.Extend? || a.GiveUp? || a.Fail? || a.Succeed? || a.Stall?
    ensures StillDelayed(w.store, Apply(w, a).store, k)
  {
    hide Inv, OthersStay, Apply, Enabled, StillDelayed;
    DelayedIsWork(w, k);
    AttemptIsElsewhere(w, a, k);
    AttemptLeavesOthers(w, a);
    OthersLeaveDelayed(w.store, Apply(w, a).store, a.key, k);
  }

  lemma RecordLeavesDelayed(w: World, a: Action, k: Key)
    requires Inv(w) && Enabled(w, a) && k in w.store.homes.scheduled && !Removes(a, k)
    requires a.Create? || a.Replace? || a.Remove? || a.ForceRemove? || (a.Promote? && a.key != k)
    ensures StillDelayed(w.store, Apply(w, a).store, k)
  {
    hide Inv, OnlyOn, OthersStay, Apply, Held, HoldsEnlisted, MayHold, StillDelayed;
    DelayedIsWork(w, k);
    if a.Create? {
      CreatedExactly(w, a.key, a.options, a.holder);
    } else if a.Promote? {
      AttemptLeavesOthers(w, a);
    } else {
      RemovedExactly(w, a);
    }
    OthersLeaveDelayed(w.store, Apply(w, a).store, a.key, k);
  }

  lemma ExpiryLeavesDelayed(w: World, a: Action, k: Key)
    requires Inv(w) && Enabled(w, a) && k in w.store.homes.scheduled && (a.ExpireTask? || a.ExpireTerminal?)
    ensures StillDelayed(w.store, Apply(w, a).store, k)
  {
    hide Inv, OnlyOn, OthersStay, Apply, Enabled;
    DelayedIsWork(w, k);
    var s, t := w.store, Apply(w, a).store;
    if a.ExpireTerminal? {
      UnlistedExactly(w, a.identity);
      if a.identity.key != k {
        assert k in s.tasks - {a.identity.key} && k in t.tasks - {a.identity.key};
      }
    } else {
      ExpiredTaskExactly(w, a.identity);
      if t.tasks != s.tasks || t.homes != s.homes {
        OthersLeaveDelayed(s, t, a.identity.key, k);
      }
    }
  }

  lemma LetGoLeavesDelayed(w: World, e: Edge, k: Key)
    requires Inv(w) && Enabled(w, LetGo(e)) && k in w.store.homes.scheduled
    ensures StillDelayed(w.store, Apply(w, LetGo(e)).store, k)
  {
    hide Inv, OnlyOn, OthersStay, Apply, Enabled, DisposedAs, Unheld, KeptWithRecord;
    DelayedIsWork(w, k);
    LetGoExactly(w, e);
    var s, t := w.store, Apply(w, LetGo(e)).store;
    if t.tasks != s.tasks || t.homes != s.homes {
      OthersLeaveDelayed(s, t, e.retained.key, k);
    }
  }

  lemma BookkeepingLeavesDelayed(w: World, a: Action, k: Key)
    requires Inv(w) && Enabled(w, a) && k in w.store.homes.scheduled
    requires a.Tick? || a.Hold? || a.Enlist? || a.Leave? || a.Delist? || a.Forget? || a.PostponeTask? || a.ExpireResult?
             || a.PostponeResult? || a.ExpireDeadLetter?
    ensures StillDelayed(w.store, Apply(w, a).store, k)
  {
    hide Inv, Held, MayHold;
    DelayedIsWork(w, k);
  }

  // Only promotion and removal end a delay, and nothing changes when it is over.
  lemma StepLeavesDelayed(w: World, a: Action, k: Key)
    requires Inv(w) && Enabled(w, a) && k in w.store.homes.scheduled && a != Promote(k) && !Removes(a, k)
    ensures StillDelayed(w.store, Apply(w, a).store, k)
  {
    hide Inv, Enabled, Apply, StillDelayed;
    if a.Take? || a.Extend? || a.GiveUp? || a.Fail? || a.Succeed? || a.Stall? {
      AttemptLeavesDelayed(w, a, k);
    } else if a.Create? || a.Replace? || a.Remove? || a.ForceRemove? || a.Promote? {
      RecordLeavesDelayed(w, a, k);
    } else if a.ExpireTask? || a.ExpireTerminal? {
      ExpiryLeavesDelayed(w, a, k);
    } else if a.LetGo? {
      LetGoLeavesDelayed(w, a.edge, k);
    } else {
      BookkeepingLeavesDelayed(w, a, k);
    }
  }

  // ---- whole runs -----------------------------------------------------------------------------------

  // Until it is promoted or removed the task stays delayed, and it can be promoted exactly from its time on.
  lemma {:induction false} DelayedUntilPromoted(w: World, acts: seq<Action>, k: Key)
    requires Inv(w) && Legal(w, acts) && k in w.store.homes.scheduled && Keeps(acts, k) && Promote(k) !in acts
    ensures StillDelayed(w.store, Run(w, acts).store, k)
    ensures Enabled(Run(w, acts), Promote(k)) <==> w.store.homes.scheduled[k] <= Run(w, acts).clock
    decreases |acts|
  {
    hide Inv, Apply, Enabled;
    if acts == [] {
      DelayedIsWork(w, k);
      DueIsPromotable(w, k);
    } else {
      assert acts[0] in acts && forall a :: a in acts[1..] ==> a in acts;
      StepLeavesDelayed(w, acts[0], k);
      StepKeepsInv(w, acts[0]);
      DelayedUntilPromoted(Apply(w, acts[0]), acts[1..], k);
    }
  }

  lemma DueIsPromotable(w: World, k: Key)
    requires k in w.store.homes.scheduled && k in w.store.tasks
    ensures Enabled(w, Promote(k)) <==> w.store.homes.scheduled[k] <= w.clock
  {
  }

  // The task runs, or is made ready to.
  predicate Starts(a: Action, k: Key) {
    (a.Promote? || a.Take?) && a.key == k
  }

  lemma StartedWhenDue(w: World, a: Action, k: Key)
    requires Inv(w) && k in w.store.homes.scheduled && Enabled(w, a) && Starts(a, k)
    ensures w.store.homes.scheduled[k] <= w.clock
  {
    DelayedIsWork(w, k);
  }

  // Nobody is handed a delayed task, nor is it made ready, before its time, in whatever way the run goes there.
  lemma {:induction false} NeverEarly(w: World, acts: seq<Action>, k: Key, a: Action)
    requires Inv(w) && Legal(w, acts) && k in w.store.homes.scheduled && Keeps(acts, k)
    requires Enabled(Run(w, acts), a) && Starts(a, k)
    ensures w.store.homes.scheduled[k] <= Run(w, acts).clock
    decreases |acts|
  {
    hide Inv, Apply, Enabled;
    if acts == [] {
      StartedWhenDue(w, a, k);
    } else if acts[0] == Promote(k) {
      StartedWhenDue(w, acts[0], k);
      ClockGrows(w, acts);
    } else {
      assert acts[0] in acts && forall b :: b in acts[1..] ==> b in acts;
      StepLeavesDelayed(w, acts[0], k);
      StepKeepsInv(w, acts[0]);
      NeverEarly(Apply(w, acts[0]), acts[1..], k, a);
    }
  }

  // Maintenance hands out nothing early either.
  lemma UpkeepIsNotEarly(w: World, time: nat, upkeep: seq<Action>, v: World, k: Key, token: Token, timeout: nat)
    requires Inv(w) && Reaches(w, [Tick(time)] + upkeep, v) && AllUpkeep(upkeep) && k in w.store.homes.scheduled
    requires Enabled(v, Take(k, token, timeout))
    ensures w.store.homes.scheduled[k] <= v.clock
  {
    hide Inv, Enabled;
    forall a | a in [Tick(time)] + upkeep ensures !Removes(a, k) {
      assert a == Tick(time) || a in upkeep;
    }
    NeverEarly(w, [Tick(time)] + upkeep, k, Take(k, token, timeout));
  }

  // The head of a queue may be taken, and who takes it owns it.
  lemma HeadIsLeased(w: World, k: Key, token: Token, timeout: nat)
    requires Sound(w) && FirstWaiting(w.store.homes.wait, k) && token !in w.log.tokens && 0 < timeout
    ensures k in w.store.tasks && k in w.store.homes.wait && Enabled(w, Take(k, token, timeout))
    ensures !Locked(w.store, k, w.clock)
    ensures var v := Apply(w, Take(k, token, timeout));
      && TakenAs(w.store, v.store, k, token, w.clock + timeout) && k in v.store.tasks
      && Owns(v.store, k, token, w.clock)
    ensures forall i, j :: 0 <= i < j < |w.store.homes.wait| && w.store.homes.wait[j] == k ==>
      w.store.homes.wait[i].queue != k.queue
  {
    hide TakenAs;
    assert HomeOk(w.store.tasks, w.store.homes, k);
    TakenExactly(w, k, token, timeout);
  }

  // A task offered with a delay is due exactly when the delay is over.
  lemma DelayIsKept(w: World, k: Key, options: Options, holder: Option<Identity>, acts: seq<Action>, a: Action)
    requires Inv(w) && Enabled(w, Create(k, options, holder)) && 0 < options.delay
    requires var v := Apply(w, Create(k, options, holder)); Legal(v, acts) && Keeps(acts, k)
    ensures var u := Run(Apply(w, Create(k, options, holder)), acts);
      && (Enabled(u, a) && Starts(a, k) ==> w.clock + options.delay <= u.clock)
      && (Promote(k) !in acts ==> (Enabled(u, Promote(k)) <==> w.clock + options.delay <= u.clock))
  {
    hide Inv, Enabled, Apply, OthersStay;
    CreatedExactly(w, k, options, holder);
    StepKeepsInv(w, Create(k, options, holder));
    DelayOf(Apply(w, Create(k, options, holder)), acts, k, a);
  }

  lemma DelayOf(w: World, acts: seq<Action>, k: Key, a: Action)
    requires Inv(w) && Legal(w, acts) && Keeps(acts, k) && k in w.store.homes.scheduled
    ensures var u := Run(w, acts);
      && (Enabled(u, a) && Starts(a, k) ==> w.store.homes.scheduled[k] <= u.clock)
      && (Promote(k) !in acts ==> (Enabled(u, Promote(k)) <==> w.store.homes.scheduled[k] <= u.clock))
  {
    hide Inv, Enabled, Apply;
    if Enabled(Run(w, acts), a) && Starts(a, k) {
      NeverEarly(w, acts, k, a);
    }
    if Promote(k) !in acts {
      DelayedUntilPromoted(w, acts, k);
    }
  }

  // A failure that is to be retried at a later instant is retried exactly from that instant on.
  lemma RetryIsKept(w: World, k: Key, token: Token, error: Error, at: Time, acts: seq<Action>, a: Action)
    requires Inv(w) && Enabled(w, Fail(k, token, error, Some(at))) && !error.Canceled? && w.clock < at
    requires var v := Apply(w, Fail(k, token, error, Some(at))); Legal(v, acts) && Keeps(acts, k)
    ensures var u := Run(Apply(w, Fail(k, token, error, Some(at))), acts);
      && (Enabled(u, a) && Starts(a, k) ==> at <= u.clock)
      && (Promote(k) !in acts ==> (Enabled(u, Promote(k)) <==> at <= u.clock))
  {
    hide Inv, Enabled, Apply, OthersStay;
    FailedExactly(w, k, token, error, Some(at));
    StepKeepsInv(w, Fail(k, token, error, Some(at)));
    DelayOf(Apply(w, Fail(k, token, error, Some(at))), acts, k, a);
  }
}
