/** A policy that deletes a settled record does so at once, or with the last hold on it. */
module TaskDisposal {
  import opened Basics
  import opened TaskModel
  import opened TaskRuns
  import opened TaskInvariant
  import opened TaskLaws

  // Other records and who holds them are as they were, and this one may stay.
  ghost predicate MayStay(s: Store, t: Store, k: Key) {
    && t.tasks - {k} == s.tasks - {k}
    && (forall e :: e in s.holds.retainedBy ==> e in t.holds.retainedBy || e.retained.key == k)
    && (k in t.tasks && t.tasks[k].outcome.Some? ==>
          !Chosen(t.tasks[k].options, t.tasks[k].outcome.value).Delete?
          || !Unheld(t.holds, Identity(k, t.tasks[k].generation)))
  }

  lemma DisposalKept(s: Store, t: Store, k: Key)
    requires DisposalInv(s) && MayStay(s, t, k)
    ensures DisposalInv(t)
  {
    forall j | j in t.tasks && t.tasks[j].outcome.Some? && Chosen(t.tasks[j].options, t.tasks[j].outcome.value).Delete?
      ensures !Unheld(t.holds, Identity(j, t.tasks[j].generation))
    {
      if j != k {
        assert j in t.tasks - {k} && (t.tasks - {k})[j] == t.tasks[j];
        assert j in s.tasks - {k} && (s.tasks - {k})[j] == s.tasks[j];
      }
    }
  }

  // The record is what it was, or has not settled.
  lemma UntouchedMayStay(s: Store, t: Store, k: Key)
    requires DisposalInv(s) && t.tasks - {k} == s.tasks - {k} && s.holds.retainedBy <= t.holds.retainedBy
    requires k in t.tasks && t.tasks[k].outcome.Some? ==>
      k in s.tasks && t.tasks[k].options == s.tasks[k].options && t.tasks[k].outcome == s.tasks[k].outcome
      && t.tasks[k].generation == s.tasks[k].generation
    ensures MayStay(s, t, k)
  {
  }

  lemma SettledMayStay(s: Store, t: Store, k: Key, r: Result, now: Time)
    requires k in s.tasks && SettledAs(s, t, k, r, now)
    ensures MayStay(s, t, k)
  {
    hide OnlyOn, OthersStay;
  }

  lemma RetriedMayStay(s: Store, t: Store, k: Key, stall: bool, at: Time, now: Time)
    requires DisposalInv(s) && k in s.tasks && RetriedAs(s, t, k, stall, at, now)
    ensures MayStay(s, t, k)
  {
    hide OnlyOn, OthersStay;
  }

  lemma SettlingMayStay(w: World, a: Action)
    requires DisposalInv(w.store) && Enabled(w, a) && (a.Fail? || a.Stall? || a.Succeed?)
    ensures MayStay(w.store, Apply(w, a).store, a.key)
  {
    hide Apply, SettledAs, RetriedAs, MayStay, DisposalInv;
    var s, t := w.store, Apply(w, a).store;
    match a
    case Fail(k, token, error, retryAt) =>
      FailedExactly(w, k, token, error, retryAt);
      if retryAt.Some? && !error.Canceled? {
        RetriedMayStay(s, t, k, false, retryAt.value, w.clock);
      } else {
        SettledMayStay(s, t, k, Result(Failure, w.clock, None, Some(error)), w.clock);
      }
    case Stall(k) =>
      StalledExactly(w, k);
      if s.tasks[k].stalled < s.tasks[k].options.maxStalled {
        RetriedMayStay(s, t, k, true, w.clock, w.clock);
      } else {
        SettledMayStay(s, t, k, Result(Failure, w.clock, None, Some(Stalled)), w.clock);
      }
    case Succeed(k, token, value) =>
      SucceededExactly(w, k, token, value);
      SettledMayStay(s, t, k, Result(Success, w.clock, Some(value), None), w.clock);
  }

  // Makes, moves or takes away the record of its key, settling nothing.
  predicate HandlesRecord(a: Action) {
    a.Create? || a.Promote? || a.Take? || a.Extend? || a.GiveUp? || a.Replace? || a.Remove? || a.ForceRemove?
  }

  lemma WorkMayStay(w: World, a: Action)
    requires DisposalInv(w.store) && Enabled(w, a) && HandlesRecord(a)
    ensures MayStay(w.store, Apply(w, a).store, a.key)
  {
    hide OnlyOn, OthersStay, Placed, Unplaced, MayHold, FirstWaiting, HoldsEnlisted;
    match a
    case Create(k, options, holder) => CreatedExactly(w, k, options, holder);
    case Promote(k) => UntouchedMayStay(w.store, Apply(w, a).store, k);
    case Take(k, token, timeout) => UntouchedMayStay(w.store, Apply(w, a).store, k);
    case Extend(k, token, timeout) => UntouchedMayStay(w.store, Apply(w, a).store, k);
    case GiveUp(k, token) => UntouchedMayStay(w.store, Apply(w, a).store, k);
    case _ => RemovedExactly(w, a);
  }

  lemma LetGoKeepsDisposal(w: World, e: Edge)
    requires DisposalInv(w.store) && Enabled(w, LetGo(e))
    ensures DisposalInv(Apply(w, LetGo(e)).store)
  {
    hide Apply, Enabled, OnlyOn, OthersStay, KeptWithRecord;
    LetGoExactly(w, e);
    DisposalKept(w.store, Apply(w, LetGo(e)).store, e.retained.key);
  }

  lemma StepKeepsDisposal(w: World, a: Action)
    requires DisposalInv(w.store) && Enabled(w, a)
    ensures DisposalInv(Apply(w, a).store)
  {
    hide Apply, Enabled, MayStay, DisposalInv;
    if a.LetGo? {
      LetGoKeepsDisposal(w, a.edge);
    } else if a.Fail? || a.Stall? || a.Succeed? {
      SettlingMayStay(w, a);
      DisposalKept(w.store, Apply(w, a).store, a.key);
    } else if HandlesRecord(a) {
      WorkMayStay(w, a);
      DisposalKept(w.store, Apply(w, a).store, a.key);
    } else if a.ExpireTask? {
      ExpiryKeepsDisposal(w, a.identity);
    } else if a.ExpireTerminal? {
      UnlistingKeepsDisposal(w, a.identity);
    } else {
      IndexKeepsDisposal(w, a);
    }
  }

  lemma ExpiryKeepsDisposal(w: World, i: Identity)
    requires DisposalInv(w.store) && Enabled(w, ExpireTask(i))
    ensures DisposalInv(Apply(w, ExpireTask(i)).store)
  {
    hide Apply, OnlyOn, OthersStay;
    ExpiredTaskExactly(w, i);
    DisposalKept(w.store, Apply(w, ExpireTask(i)).store, i.key);
  }

  lemma UnlistingKeepsDisposal(w: World, i: Identity)
    requires DisposalInv(w.store) && Enabled(w, ExpireTerminal(i))
    ensures DisposalInv(Apply(w, ExpireTerminal(i)).store)
  {
    hide Apply, Enabled, OthersStay;
    UnlistedExactly(w, i);
    DisposalKept(w.store, Apply(w, ExpireTerminal(i)).store, i.key);
  }

  lemma IndexKeepsDisposal(w: World, a: Action)
    requires DisposalInv(w.store) && Enabled(w, a)
    requires a.Tick? || a.Hold? || a.Enlist? || a.Leave? || a.Delist? || a.Forget? || a.PostponeTask? || a.ExpireResult?
             || a.PostponeResult? || a.ExpireDeadLetter?
    ensures DisposalInv(Apply(w, a).store)
  {
    hide MayHold, Held;
  }
}
