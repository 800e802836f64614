/** What forced removal and terminal retention leave behind, exactly; and soundness of every run. */
module TaskMirror {
  import opened Basics
  import opened TaskModel
  import opened TaskRuns
  import opened TaskInvariant
  import opened TaskProofs
  import opened TaskSettle
  import opened TaskSteps
  import opened TaskRetention
  import opened TaskDisposal

  // ---- both sides of a hold ---------------------------------------------------------

  // Steps that keep the holds and create no generation.
  lemma MirrorKept(w: World, v: World)
    requires MirrorInv(w)
    requires v.store.holds == w.store.holds && v.store.generations == w.store.generations
    requires v.log.forced == w.log.forced
    requires forall i :: Current(v.store, i) ==> Current(w.store, i)
    ensures MirrorInv(v)
  {
  }

  lemma MirrorEnlisted(w: World, v: World, h: Identity)
    requires MirrorInv(w) && Known(w.store.generations, h)
    requires v.store.holds.retains == w.store.holds.retains && v.store.holds.retainedBy == w.store.holds.retainedBy
    requires v.store.holds.continuation.Keys <= w.store.holds.continuation.Keys + {h}
    requires v.store.generations == w.store.generations && v.log.forced == w.log.forced
    requires forall i :: Current(v.store, i) ==> Current(w.store, i)
    ensures MirrorInv(v)
  {
  }

  lemma DisposedCurrent(s: Store, k: Key, now: Time, i: Identity)
    requires k in s.tasks && s.tasks[k].outcome.Some? && Current(Disposed(s, k, now), i)
    ensures Current(s, i)
  {
  }

  lemma SettleMirror(w: World, k: Key, t: Task, error: Option<Error>)
    requires MirrorInv(w) && Settling(w, k, t)
    ensures MirrorInv(SettledWorld(w, k, t, error))
  {
    SettledParts(w, k, t, error);
    var o, v := Outgoing(w, k, t, error), SettledWorld(w, k, t, error);
    assert v.store.holds == o.holds;
    forall i | Current(v.store, i) ensures Current(w.store, i) {
      DisposedCurrent(o, k, w.clock, i);
    }
    MirrorEnlisted(w, v, Identity(k, t.generation));
  }

  lemma FailureAsSettlement(w: World, k: Key, stall: bool, error: Error, retryAt: Option<Time>)
    requires Inv(w) && k in w.store.tasks && w.store.tasks[k].place.Active? && !WillRetry(error, retryAt)
    ensures var t := Failing(w.store.tasks[k], stall, error, retryAt, w.clock).(outcome := Some(Failure));
      && Settling(w, k, t)
      && SettledWorld(w, k, t, Some(error))
        == World(FailedStore(w.store, k, stall, error, retryAt, w.clock), FailedLog(w, k, error, retryAt), w.clock)
  {
    assert HomeOk(w.store.tasks, w.store.homes, k);
    var t0 := Failing(w.store.tasks[k], stall, error, retryAt, w.clock);
    var t := t0.(outcome := Some(Failure));
    ErrorsStayBounded(w.store.tasks[k].errors, Entry(error, w.clock, retryAt), t.options.maxErrors);
    Overwritten(w.store.tasks, k, t0, t);
    assert WithTask(WithTask(Unlocked(w.store, k), k, t0), k, t) == WithTask(Unlocked(w.store, k), k, t);
  }

  lemma SuccessAsSettlement(w: World, k: Key, token: Token, value: Value)
    requires Inv(w) && Enabled(w, Succeed(k, token, value))
    ensures var t := w.store.tasks[k].(success := Some(value), outcome := Some(Success));
      Settling(w, k, t) && SettledWorld(w, k, t, None) == Apply(w, Succeed(k, token, value))
  {
    assert HomeOk(w.store.tasks, w.store.homes, k);
  }

  // Failing with a retry left only moves the task and rewrites its record.
  lemma RetryCurrent(s: Store, k: Key, stall: bool, error: Error, retryAt: Option<Time>, now: Time)
    requires k in s.tasks && WillRetry(error, retryAt)
    ensures var t := FailedStore(s, k, stall, error, retryAt, now);
      && t.holds == s.holds && t.generations == s.generations && t.kept == s.kept
      && forall i :: Current(t, i) ==> Current(s, i)
  {
  }

  lemma FailMirror(w: World, k: Key, stall: bool, error: Error, retryAt: Option<Time>)
    requires Inv(w) && MirrorInv(w) && k in w.store.tasks && w.store.tasks[k].place.Active?
    ensures MirrorInv(World(FailedStore(w.store, k, stall, error, retryAt, w.clock), FailedLog(w, k, error, retryAt),
                            w.clock))
  {
    if WillRetry(error, retryAt) {
      RetryCurrent(w.store, k, stall, error, retryAt, w.clock);
      var s := FailedStore(w.store, k, stall, error, retryAt, w.clock);
      MirrorKept(w, World(s, FailedLog(w, k, error, retryAt), w.clock));
    } else {
      FailureAsSettlement(w, k, stall, error, retryAt);
      SettleMirror(w, k, Failing(w.store.tasks[k], stall, error, retryAt, w.clock).(outcome := Some(Failure)),
                   Some(error));
    }
  }

  lemma LetGoMirror(w: World, e: Edge)
    requires MirrorInv(w) && Enabled(w, LetGo(e))
    ensures MirrorInv(Apply(w, LetGo(e)))
  {
  }

  lemma CreateMirror(w: World, k: Key, options: Options, holder: Option<Identity>)
    requires Inv(w) && MirrorInv(w) && Enabled(w, Create(k, options, holder))
    ensures MirrorInv(Apply(w, Create(k, options, holder)))
  {
    var v := Apply(w, Create(k, options, holder));
    var i := Identity(k, NextGeneration(w.store, k));
    assert !Known(w.store.generations, i);
    forall j | j in v.log.forced ensures Known(v.store.generations, j) && !Current(v.store, j) {
      assert Known(w.store.generations, j) && !Current(w.store, j);
    }
    forall e | e in v.store.holds.retains ensures e in v.store.holds.retainedBy <==> e.retained !in v.log.forced {
    }
  }

  lemma ForceRemoveMirror(w: World, k: Key)
    requires Inv(w) && MirrorInv(w) && Enabled(w, ForceRemove(k))
    ensures MirrorInv(Apply(w, ForceRemove(k)))
  {
    var v := Apply(w, ForceRemove(k));
    forall e | e in v.store.holds.retains ensures e in v.store.holds.retainedBy <==> e.retained !in v.log.forced {
      assert e in w.store.holds.retainedBy <==> e.retained !in w.log.forced;
    }
  }

  lemma SettlingStepMirror(w: World, a: Action)
    requires Inv(w) && MirrorInv(w) && Enabled(w, a) && (a.Fail? || a.Stall? || a.Succeed?)
    ensures MirrorInv(Apply(w, a))
  {
    hide Inv, MirrorInv, FailedStore, SucceededStore, FailedLog;
    match a
    case Fail(k, token, error, retryAt) => ActiveByLock(w, k); FailMirror(w, k, false, error, retryAt);
    case Stall(k) => ActiveByScore(w, k); FailMirror(w, k, true, Stalled, StallRetry(w.store.tasks[k]));
    case Succeed(k, token, value) =>
      SuccessAsSettlement(w, k, token, value);
      SettleMirror(w, k, w.store.tasks[k].(success := Some(value), outcome := Some(Success)), None);
  }

  lemma EnlistingMirror(w: World, a: Action)
    requires Inv(w) && MirrorInv(w) && Enabled(w, a) && (a.Enlist? || a.Leave?)
    ensures MirrorInv(Apply(w, a))
  {
    hide MirrorInv;
    if a.Leave? {
      KnownWhenCurrent(w, a.owner);
    }
    MirrorEnlisted(w, Apply(w, a), a.owner);
  }

  lemma StepKeepsMirror(w: World, a: Action)
    requires Inv(w) && MirrorInv(w) && Enabled(w, a)
    ensures MirrorInv(Apply(w, a))
  {
    hide Inv, MirrorInv, Enabled, Apply;
    match a
    case Create(k, options, holder) => CreateMirror(w, k, options, holder);
    case LetGo(e) => LetGoMirror(w, e);
    case ForceRemove(k) => ForceRemoveMirror(w, k);
    case Hold(e) => HoldMirror(w, e);
    case Delist(h) => DelistMirror(w, h);
    case _ =>
      if a.Fail? || a.Stall? || a.Succeed? {
        SettlingStepMirror(w, a);
      } else if a.Enlist? || a.Leave? {
        EnlistingMirror(w, a);
      } else {
        PlainMirror(w, a);
      }
  }

  lemma DelistMirror(w: World, h: Identity)
    requires MirrorInv(w) && Enabled(w, Delist(h))
    ensures MirrorInv(Apply(w, Delist(h)))
  {
  }

  lemma ActiveByLock(w: World, k: Key)
    requires Inv(w) && Locked(w.store, k, w.clock)
    ensures k in w.store.tasks && w.store.tasks[k].place.Active? && w.store.tasks[k].outcome.None?
    ensures k in w.store.homes.active && w.store.homes.active[k] == w.store.locks[k].until
  {
    assert HomeOk(w.store.tasks, w.store.homes, k);
  }

  lemma ActiveByScore(w: World, k: Key)
    requires Inv(w) && k in w.store.homes.active
    ensures k in w.store.tasks && w.store.tasks[k].place.Active? && w.store.tasks[k].outcome.None?
  {
    assert HomeOk(w.store.tasks, w.store.homes, k);
  }

  lemma KnownWhenCurrent(w: World, i: Identity)
    requires TasksOf(w) && Current(w.store, i)
    ensures Known(w.store.generations, i)
  {
  }

  lemma HoldMirror(w: World, e: Edge)
    requires Inv(w) && MirrorInv(w) && Enabled(w, Hold(e))
    ensures MirrorInv(Apply(w, Hold(e)))
  {
  }

  // The remaining steps neither change a hold nor bring a generation back.
  predicate IsPlain(a: Action) {
    a.Tick? || a.Replace? || a.Promote? || a.Take? || a.Extend? || a.GiveUp? || a.Remove? || a.Forget? || a.ExpireTask?
      || a.PostponeTask?
    || a.ExpireResult? || a.PostponeResult? || a.ExpireTerminal? || a.ExpireDeadLetter?
  }

  lemma PlainMirror(w: World, a: Action)
    requires MirrorInv(w) && Enabled(w, a) && IsPlain(a)
    ensures MirrorInv(Apply(w, a))
  {
    hide Enabled, Apply, MirrorInv;
    PlainHolds(w, a);
    MirrorKept(w, Apply(w, a));
  }

  // The same holds and counters, and no record that was not there.
  ghost predicate BringsBackNothing(w: World, v: World) {
    && v.store.holds == w.store.holds && v.store.generations == w.store.generations && v.log.forced == w.log.forced
    && forall i :: Current(v.store, i) ==> Current(w.store, i)
  }

  lemma WorkHolds(w: World, a: Action)
    requires Enabled(w, a) && (a.Promote? || a.Take? || a.Extend? || a.GiveUp?)
    ensures BringsBackNothing(w, Apply(w, a))
  {
    hide Placed, FirstWaiting;
  }

  lemma DeletionHolds(w: World, a: Action)
    requires Enabled(w, a) && (a.Replace? || a.Remove? || a.ExpireTask? || a.ExpireTerminal?)
    ensures BringsBackNothing(w, Apply(w, a))
  {
    hide Unplaced, Held, HoldsEnlisted;
  }

  lemma IndexHolds(w: World, a: Action)
    requires Enabled(w, a)
    requires a.Tick? || a.Forget? || a.PostponeTask? || a.ExpireResult? || a.PostponeResult? || a.ExpireDeadLetter?
    ensures BringsBackNothing(w, Apply(w, a))
  {
    hide Held;
  }

  lemma PlainHolds(w: World, a: Action)
    requires Enabled(w, a) && IsPlain(a)
    ensures BringsBackNothing(w, Apply(w, a))
  {
    hide BringsBackNothing, Enabled, Apply;
    if a.Promote? || a.Take? || a.Extend? || a.GiveUp? {
      WorkHolds(w, a);
    } else if a.Replace? || a.Remove? || a.ExpireTask? || a.ExpireTerminal? {
      DeletionHolds(w, a);
    } else {
      IndexHolds(w, a);
    }
  }

  // ---- terminal lists ------------------------------------------------------------------

  // A record whose policy, place and expiry entry are as they were.
  ghost predicate SameListing(w: World, v: World, k: Key)
    requires k in v.store.tasks
  {
    && k in w.store.tasks && IdentityOf(v.store, k) == IdentityOf(w.store, k)
    && v.store.tasks[k].outcome == w.store.tasks[k].outcome && v.store.tasks[k].options == w.store.tasks[k].options
    && (v.store.tasks[k].place == w.store.tasks[k].place
      || (!v.store.tasks[k].place.Succeeded? && !v.store.tasks[k].place.Failed?))
    && (IdentityOf(w.store, k) in v.store.kept.terminalExpiry <==>
      IdentityOf(w.store, k) in w.store.kept.terminalExpiry)
    && (IdentityOf(w.store, k) in v.log.unlisted <==> IdentityOf(w.store, k) in w.log.unlisted)
  }

  lemma ListingKept(w: World, v: World)
    requires ListingInv(w)
    requires forall k ::
      k in v.store.tasks ==>
        SameListing(w, v, k)
          || (v.store.tasks[k].outcome.None? && !v.store.tasks[k].place.Succeeded? && !v.store.tasks[k].place.Failed?)
    requires v.store.kept.terminalExpiry.Keys <= w.store.kept.terminalExpiry.Keys
    requires v.store.kept.taskExpiry.Keys <= w.store.kept.taskExpiry.Keys
    requires v.store.kept.deadLetterExpiry.Keys <= w.store.kept.deadLetterExpiry.Keys
    requires v.log.unlisted == w.log.unlisted && forall i :: i in w.log.settled ==> i in v.log.settled
    ensures ListingInv(v)
  {
  }

  lemma DisposedListing(w: World, v: World, k: Key)
    requires ListingInv(w) && k in w.store.tasks && w.store.tasks[k].outcome.Some?
    requires v.store == Disposed(w.store, k, w.clock) && v.log == w.log
    ensures ListingInv(v)
  {
    DisposedListingShape(w.store, k, w.clock);
    forall j | j in v.store.tasks ensures ListingOk(v, j) {
      assert ListingOk(w, j);
      assert IdentityOf(v.store, j) == IdentityOf(w.store, j);
    }
  }

  lemma DisposedListingShape(s: Store, k: Key, now: Time)
    requires k in s.tasks && s.tasks[k].outcome.Some?
    ensures var t := Disposed(s, k, now);
      || (t.tasks == s.tasks - {k} && t.kept.terminalExpiry == s.kept.terminalExpiry - {IdentityOf(s, k)}
          && t.kept.taskExpiry == s.kept.taskExpiry - {IdentityOf(s, k)}
            && t.kept.deadLetterExpiry == s.kept.deadLetterExpiry)
      || (t.kept == s.kept && t.tasks == s.tasks[k := s.tasks[k].(place := PlaceOf(PolicyOf(s.tasks[k])))]
        && t.kept.terminalExpiry == s.kept.terminalExpiry)
  {
  }

  // Before disposal, a task being settled already has the expiry entry its policy calls for.
  lemma OutgoingListing(w: World, k: Key, t: Task, error: Option<Error>)
    requires Inv(w) && ListingInv(w) && Settling(w, k, t)
    ensures ListingInv(World(Outgoing(w, k, t.(place := Nowhere), error), SettledWorld(w, k, t, error).log, w.clock))
  {
    var i := IdentityOf(w.store, k);
    assert i !in w.log.settled;
    var u := World(Outgoing(w, k, t.(place := Nowhere), error), SettledWorld(w, k, t, error).log, w.clock);
    forall j | j in u.store.tasks ensures ListingOk(u, j) {
      if j != k {
        assert ListingOk(w, j);
        assert IdentityOf(u.store, j) == IdentityOf(w.store, j) && IdentityOf(w.store, j) != i;
      }
    }
  }

  // Disposal looks at the outcome and the policy of a record, not at where it stood.
  lemma DisposedFromAnywhere(o: Store, u: Store, k: Key, now: Time)
    requires k in o.tasks && o.tasks[k].outcome.Some? && u == o.(tasks := o.tasks[k := o.tasks[k].(place := Nowhere)])
    ensures Disposed(o, k, now).tasks == Disposed(u, k, now).tasks
    ensures Disposed(o, k, now).kept == Disposed(u, k, now).kept
  {
  }

  lemma ListingSeen(v: World, u: World)
    requires ListingInv(u) && v.store.tasks == u.store.tasks && v.store.kept == u.store.kept && v.log == u.log
    ensures ListingInv(v)
  {
  }

  // What settlement leaves on the lists is what disposal leaves when the record first left the active list.
  lemma SettledFromNowhere(w: World, k: Key, t: Task, error: Option<Error>)
    requires k in w.store.tasks && t.outcome.Some?
    ensures var d := Disposed(Outgoing(w, k, t.(place := Nowhere), error), k, w.clock);
      SettledWorld(w, k, t, error).store.tasks == d.tasks && SettledWorld(w, k, t, error).store.kept == d.kept
  {
    hide Disposed, DisposedShape, Held, Settled, Recorded, Unlocked;
    SettledParts(w, k, t, error);
    Overwritten(w.store.tasks, k, t, t.(place := Nowhere));
    DisposedFromAnywhere(Outgoing(w, k, t, error), Outgoing(w, k, t.(place := Nowhere), error), k, w.clock);
  }

  lemma SettleListing(w: World, k: Key, t: Task, error: Option<Error>)
    requires Inv(w) && ListingInv(w) && Settling(w, k, t)
    ensures ListingInv(SettledWorld(w, k, t, error))
  {
    OutgoingListing(w, k, t, error);
    SettledFromNowhere(w, k, t, error);
    DisposedSeen(World(Outgoing(w, k, t.(place := Nowhere), error), SettledWorld(w, k, t, error).log, w.clock),
                 SettledWorld(w, k, t, error), k);
  }

  lemma DisposedSeen(u: World, v: World, k: Key)
    requires ListingInv(u) && k in u.store.tasks && u.store.tasks[k].outcome.Some?
    requires var d := Disposed(u.store, k, u.clock);
      v.store.tasks == d.tasks && v.store.kept == d.kept && v.log == u.log
    ensures ListingInv(v)
  {
    var d := u.(store := Disposed(u.store, k, u.clock));
    DisposedListing(u, d, k);
    ListingSeen(v, d);
  }

  lemma RetryListing(w: World, k: Key, stall: bool, error: Error, retryAt: Option<Time>)
    requires ListingInv(w) && k in w.store.tasks && w.store.tasks[k].outcome.None? && WillRetry(error, retryAt)
    ensures ListingInv(w.(store := FailedStore(w.store, k, stall, error, retryAt, w.clock)))
  {
  }

  lemma FailListing(w: World, k: Key, stall: bool, error: Error, retryAt: Option<Time>)
    requires Inv(w) && ListingInv(w) && k in w.store.tasks && w.store.tasks[k].place.Active?
    requires w.store.tasks[k].outcome.None?
    ensures ListingInv(World(FailedStore(w.store, k, stall, error, retryAt, w.clock), FailedLog(w, k, error, retryAt),
                             w.clock))
  {
    if WillRetry(error, retryAt) {
      RetryListing(w, k, stall, error, retryAt);
    } else {
      FailureAsSettlement(w, k, stall, error, retryAt);
      SettleListing(w, k, Failing(w.store.tasks[k], stall, error, retryAt, w.clock).(outcome := Some(Failure)),
                    Some(error));
    }
  }

  lemma LetGoListing(w: World, e: Edge)
    requires ListingInv(w) && Enabled(w, LetGo(e))
    ensures ListingInv(Apply(w, LetGo(e)))
  {
    var u := w.(store := Loosened(w.store, e, w.clock));
    forall j | j in u.store.tasks ensures SameListing(w, u, j) {
    }
    ListingKept(w, u);
    if Current(u.store, e.retained) && u.store.tasks[e.retained.key].outcome.Some? && !Held(u.store.holds, e.retained) {
      DisposedListing(u, Apply(w, LetGo(e)), e.retained.key);
    }
  }

  lemma ExpireTerminalListing(w: World, i: Identity)
    requires ListingInv(w) && Enabled(w, ExpireTerminal(i))
    ensures ListingInv(Apply(w, ExpireTerminal(i)))
  {
  }

  ghost predicate ListingShape(w: World, v: World) {
    && (forall k ::
      k in v.store.tasks ==>
        SameListing(w, v, k)
          || (v.store.tasks[k].outcome.None? && !v.store.tasks[k].place.Succeeded? && !v.store.tasks[k].place.Failed?))
    && v.store.kept.terminalExpiry.Keys <= w.store.kept.terminalExpiry.Keys
    && v.store.kept.taskExpiry.Keys <= w.store.kept.taskExpiry.Keys
    && v.store.kept.deadLetterExpiry.Keys <= w.store.kept.deadLetterExpiry.Keys
    && v.log.unlisted == w.log.unlisted && v.log.settled == w.log.settled
  }

  predicate MovesWork(a: Action) {
    a.Promote? || a.Take? || a.Extend? || a.GiveUp? || a.Create?
  }

  predicate DeletesRecord(a: Action) {
    a.Replace? || a.Remove? || a.ForceRemove? || a.ExpireTask?
  }

  predicate TouchesIndexes(a: Action) {
    a.Tick? || a.Hold? || a.Enlist? || a.Leave? || a.Delist? || a.Forget? || a.PostponeTask? || a.ExpireResult?
      || a.PostponeResult? || a.ExpireDeadLetter?
  }

  lemma MovingListing(w: World, a: Action)
    requires Inv(w) && Enabled(w, a) && (a.Extend? || a.GiveUp?)
    ensures ListingShape(w, Apply(w, a))
  {
    ActiveByLock(w, a.key);
    var v := Apply(w, a);
    forall k | k in v.store.tasks ensures SameListing(w, v, k) {
      assert IdentityOf(v.store, k) == IdentityOf(w.store, k);
    }
  }

  lemma StartingListing(w: World, a: Action)
    requires Inv(w) && Enabled(w, a) && (a.Promote? || a.Take? || a.Create?)
    ensures ListingShape(w, Apply(w, a))
  {
    assert HomeOk(w.store.tasks, w.store.homes, a.key);
    var v := Apply(w, a);
    forall k | k in v.store.tasks && k != a.key ensures SameListing(w, v, k) {
      assert IdentityOf(v.store, k) == IdentityOf(w.store, k);
    }
  }

  lemma DeletedListing(s: Store, k: Key)
    requires k in s.tasks
    ensures forall j :: j in Deleted(s, k).tasks ==>
      (IdentityOf(s, j) in Deleted(s, k).kept.terminalExpiry <==> IdentityOf(s, j) in s.kept.terminalExpiry)
  {
  }

  lemma DeletingListing(w: World, a: Action)
    requires Inv(w) && Enabled(w, a) && DeletesRecord(a)
    ensures ListingShape(w, Apply(w, a))
  {
    var v := Apply(w, a);
    if a.ExpireTask? {
      if Current(w.store, a.identity) && w.store.tasks[a.identity.key].outcome.Some? {
        DeletedListing(w.store, a.identity.key);
      }
    } else {
      DeletedListing(w.store, a.key);
    }
    forall k | k in v.store.tasks ensures SameListing(w, v, k) {
      assert IdentityOf(v.store, k) == IdentityOf(w.store, k);
    }
  }

  lemma IndexListing(w: World, a: Action)
    requires Enabled(w, a) && TouchesIndexes(a)
    ensures ListingShape(w, Apply(w, a))
  {
    var v := Apply(w, a);
    forall k | k in v.store.tasks ensures SameListing(w, v, k) {
      assert IdentityOf(v.store, k) == IdentityOf(w.store, k);
    }
  }

  // Steps that settle nothing and re-list nothing leave every remaining record's listing alone.
  lemma PlainListing(w: World, a: Action)
    requires Inv(w) && ListingInv(w) && Enabled(w, a) && (MovesWork(a) || DeletesRecord(a) || TouchesIndexes(a))
    ensures ListingInv(Apply(w, a))
  {
    if a.Extend? || a.GiveUp? {
      MovingListing(w, a);
    } else if MovesWork(a) {
      StartingListing(w, a);
    } else if DeletesRecord(a) {
      DeletingListing(w, a);
    } else {
      IndexListing(w, a);
    }
    ListingKept(w, Apply(w, a));
  }

  lemma SettlingStepListing(w: World, a: Action)
    requires Inv(w) && ListingInv(w) && Enabled(w, a) && (a.Fail? || a.Stall? || a.Succeed?)
    ensures ListingInv(Apply(w, a))
  {
    hide Inv, ListingInv, FailedStore, SucceededStore, FailedLog;
    match a
    case Fail(k, token, error, retryAt) => ActiveByLock(w, k); FailListing(w, k, false, error, retryAt);
    case Stall(k) => ActiveByScore(w, k); FailListing(w, k, true, Stalled, StallRetry(w.store.tasks[k]));
    case Succeed(k, token, value) =>
      SuccessAsSettlement(w, k, token, value);
      SettleListing(w, k, w.store.tasks[k].(success := Some(value), outcome := Some(Success)), None);
  }

  lemma StepKeepsListing(w: World, a: Action)
    requires Inv(w) && ListingInv(w) && Enabled(w, a)
    ensures ListingInv(Apply(w, a))
  {
    hide Inv, ListingInv, Enabled, Apply;
    if a.LetGo? {
      LetGoListing(w, a.edge);
    } else if a.ExpireTerminal? {
      ExpireTerminalListing(w, a.identity);
    } else if a.Fail? || a.Stall? || a.Succeed? {
      SettlingStepListing(w, a);
    } else {
      PlainListing(w, a);
    }
  }

  // ---- whole runs -----------------------------------------------------------------------

  lemma StepIsSound(w: World, a: Action)
    requires Sound(w) && Enabled(w, a)
    ensures Sound(Apply(w, a))
  {
    hide Inv, MirrorInv, ListingInv, DisposalInv, Enabled, Apply;
    StepKeepsInv(w, a);
    StepKeepsMirror(w, a);
    StepKeepsListing(w, a);
    StepKeepsDisposal(w, a);
  }

  lemma {:induction false} RunIsSound(w: World, acts: seq<Action>)
    requires Sound(w) && Legal(w, acts)
    ensures Sound(Run(w, acts))
    decreases |acts|
  {
    hide Sound, Enabled, Apply;
    if acts != [] {
      StepIsSound(w, acts[0]);
      RunIsSound(Apply(w, acts[0]), acts[1..]);
    }
  }

  lemma InitialIsSound(clock: nat)
    ensures Sound(Initial(clock))
  {
  }
}
