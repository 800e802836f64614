/** What each step of the task queues leaves behind, field by field. */
module TaskLaws {
  import opened Basics
  import opened TaskModel
  import opened TaskRuns
  import opened TaskInvariant

  // ---- lists --------------------------------------------------------------------------------

  // The task is on this list, with this score or at the end, and on no other.
  predicate OnlyOn(h: Homes, k: Key, p: Place, score: Time) {
    && (k in h.wait <==> p.Wait?) && (p.Wait? ==> h.wait[|h.wait| - 1] == k)
    && (k in h.scheduled <==> p.Scheduled?) && (p.Scheduled? ==> h.scheduled[k] == score)
    && (k in h.active <==> p.Active?) && (p.Active? ==> h.active[k] == score)
    && (k in h.succeeded <==> p.Succeeded?) && (p.Succeeded? ==> h.succeeded[k] == score)
    && (k in h.failed <==> p.Failed?) && (p.Failed? ==> h.failed[k] == score)
  }

  // Every other task is where it was.
  ghost predicate OthersStay(h: Homes, g: Homes, k: Key) {
    forall j :: j != k ==>
      && (j in g.wait <==> j in h.wait)
      && (j in g.scheduled <==> j in h.scheduled) && (j in g.scheduled ==> g.scheduled[j] == h.scheduled[j])
      && (j in g.active <==> j in h.active) && (j in g.active ==> g.active[j] == h.active[j])
      && (j in g.succeeded <==> j in h.succeeded) && (j in g.succeeded ==> g.succeeded[j] == h.succeeded[j])
      && (j in g.failed <==> j in h.failed) && (j in g.failed ==> g.failed[j] == h.failed[j])
  }

  lemma PlacedExactly(h: Homes, k: Key, p: Place, score: Time)
    ensures OnlyOn(Placed(h, k, p, score), k, p, score) && OthersStay(h, Placed(h, k, p, score), k)
  {
  }

  lemma UnplacedExactly(h: Homes, k: Key)
    ensures OnlyOn(Unplaced(h, k), k, Nowhere, 0) && OthersStay(h, Unplaced(h, k), k)
  {
  }

  lemma NowhereAtAnyTime(h: Homes, k: Key, x: Time, y: Time)
    ensures OnlyOn(h, k, Nowhere, x) ==> OnlyOn(h, k, Nowhere, y)
  {
  }

  // ---- offering, taking, giving back ------------------------------------------------------------

  // A record of the next generation of its key; it waits, or is delayed until its delay is over.
  ghost predicate OfferedAs(s: Store, t: Store, k: Key, options: Options, now: Time) {
    var g := if k in s.generations then s.generations[k] + 1 else 1;
    && k in t.tasks && t.tasks - {k} == s.tasks - {k} && t.generations == s.generations[k := g]
    && t.tasks[k] == Task(options, g, if options.delay == 0 then Wait else Scheduled, None, 0, 0, 0, [], None)
    && OnlyOn(t.homes, k, t.tasks[k].place, now + options.delay) && OthersStay(s.homes, t.homes, k)
  }

  lemma CreatedExactly(w: World, k: Key, options: Options, holder: Option<Identity>)
    requires Enabled(w, Create(k, options, holder))
    ensures var s, t := w.store, Apply(w, Create(k, options, holder)).store;
      var g := if k in s.generations then s.generations[k] + 1 else 1;
      && OfferedAs(s, t, k, options, w.clock)
      && (var e := if holder.Some? then {Edge(holder.value, Identity(k, g))} else {};
          t.holds == s.holds.(retainedBy := s.holds.retainedBy + e, retains := s.holds.retains + e))
      && t.kept == s.kept && t.locks == s.locks
  {
    hide OnlyOn, OthersStay, MayHold, Placed;
    PlacedExactly(w.store.homes, k, if options.delay == 0 then Wait else Scheduled, w.clock + options.delay);
  }

  lemma PromotedExactly(w: World, k: Key)
    requires Enabled(w, Promote(k))
    ensures var s, t := w.store, Apply(w, Promote(k)).store;
      && k in s.homes.scheduled && s.homes.scheduled[k] <= w.clock
      && t == s.(tasks := s.tasks[k := s.tasks[k].(place := Wait)], homes := t.homes)
      && OnlyOn(t.homes, k, Wait, w.clock) && OthersStay(s.homes, t.homes, k)
  {
    hide OnlyOn, OthersStay, Placed;
    PlacedExactly(w.store.homes, k, Wait, w.clock);
  }

  // The attempt is counted and leased until its time is over.
  ghost predicate TakenAs(s: Store, t: Store, k: Key, token: Token, until: Time)
    requires k in s.tasks
  {
    && t.tasks == s.tasks[k := s.tasks[k].(place := Active, attempt := s.tasks[k].attempt + 1)]
    && OnlyOn(t.homes, k, Active, until) && OthersStay(s.homes, t.homes, k)
    && t.locks == s.locks[k := Lock(token, until)]
    && t.holds == s.holds && t.kept == s.kept && t.generations == s.generations
  }

  lemma TakenExactly(w: World, k: Key, token: Token, timeout: nat)
    requires Enabled(w, Take(k, token, timeout))
    ensures TakenAs(w.store, Apply(w, Take(k, token, timeout)).store, k, token, w.clock + timeout)
  {
    hide OnlyOn, OthersStay, Placed, FirstWaiting;
    PlacedExactly(w.store.homes, k, Active, w.clock + timeout);
  }

  lemma ExtendedExactly(w: World, k: Key, token: Token, timeout: nat)
    requires Enabled(w, Extend(k, token, timeout)) && w.store.tasks[k].place.Active?
    ensures var s, t := w.store, Apply(w, Extend(k, token, timeout)).store;
      && t.tasks == s.tasks
      && OnlyOn(t.homes, k, Active, w.clock + timeout) && OthersStay(s.homes, t.homes, k)
      && t.locks == s.locks[k := Lock(token, w.clock + timeout)]
      && t.holds == s.holds && t.kept == s.kept && t.generations == s.generations
  {
    hide OnlyOn, OthersStay, Placed;
    PlacedExactly(w.store.homes, k, Active, w.clock + timeout);
    assert w.store.tasks[k := w.store.tasks[k]] == w.store.tasks;
  }

  lemma GivenUpExactly(w: World, k: Key, token: Token)
    requires Enabled(w, GiveUp(k, token))
    ensures var s, t := w.store, Apply(w, GiveUp(k, token)).store;
      && t.tasks == s.tasks[k := s.tasks[k].(place := Wait)]
      && OnlyOn(t.homes, k, Wait, w.clock) && OthersStay(s.homes, t.homes, k)
      && t.locks == s.locks - {k} && t.holds == s.holds && t.kept == s.kept && t.generations == s.generations
  {
    hide OnlyOn, OthersStay, Placed;
    PlacedExactly(w.store.homes, k, Wait, w.clock);
  }

  // ---- failing with a retry left ----------------------------------------------------------------------

  // The attempt is over and counted by its kind; the task waits, or is delayed until its retry is due.
  ghost predicate RetriedAs(s: Store, t: Store, k: Key, stall: bool, at: Time, now: Time)
    requires k in s.tasks
  {
    && k in t.tasks && t.tasks - {k} == s.tasks - {k}
    && t.tasks[k].generation == s.tasks[k].generation && t.tasks[k].options == s.tasks[k].options
    && t.tasks[k].outcome == s.tasks[k].outcome && t.tasks[k].attempt == s.tasks[k].attempt
    && t.tasks[k].handlerFailures == s.tasks[k].handlerFailures + Count(!stall)
    && t.tasks[k].stalled == s.tasks[k].stalled + Count(stall)
    && t.tasks[k].place == (if now < at then Scheduled else Wait)
    && OnlyOn(t.homes, k, t.tasks[k].place, at) && OthersStay(s.homes, t.homes, k)
    && t.locks == s.locks - {k} && t.holds == s.holds && t.kept == s.kept && t.generations == s.generations
  }

  lemma RetriedExactly(s: Store, k: Key, stall: bool, error: Error, retryAt: Option<Time>, now: Time)
    requires k in s.tasks && !error.Canceled? && retryAt.Some?
    ensures RetriedAs(s, FailedStore(s, k, stall, error, retryAt, now), k, stall, retryAt.value, now)
  {
    hide Placed, ErrorsKept, OnlyOn, OthersStay;
    PlacedExactly(s.homes, k, Scheduled, retryAt.value);
    PlacedExactly(s.homes, k, Wait, now);
    WaitsWhenever(FailedStore(s, k, stall, error, retryAt, now).homes, k, now, retryAt.value);
  }

  lemma WaitsWhenever(h: Homes, k: Key, x: Time, y: Time)
    ensures OnlyOn(h, k, Wait, x) ==> OnlyOn(h, k, Wait, y)
  {
  }

  // ---- settling -------------------------------------------------------------------------------------------

  lemma DisposedKeepsResults(s: Store, k: Key, now: Time)
    requires k in s.tasks && s.tasks[k].outcome.Some?
    ensures SameFiles(s.kept, Disposed(s, k, now).kept)
  {
    hide Placed, Unplaced;
  }

  predicate SameFiles(before: Kept, after: Kept) {
    && after.results == before.results && after.resultExpiry == before.resultExpiry
    && after.deadLetters == before.deadLetters && after.deadLetterExpiry == before.deadLetterExpiry
  }

  // A settled record goes where the policy chosen for its outcome says: away if that deletes it and nobody holds it,
  // else to its terminal list, or to none.
  ghost predicate DisposedAs(s: Store, t: Store, k: Key, outcome: Outcome, now: Time)
    requires k in s.tasks
  {
    var i, p := Identity(k, s.tasks[k].generation), Chosen(s.tasks[k].options, outcome);
    if p.Delete? && Unheld(s.holds, i)
    then k !in t.tasks && OnlyOn(t.homes, k, Nowhere, 0) && i !in t.kept.taskExpiry && i !in t.kept.terminalExpiry
    else
      && k in t.tasks && t.tasks[k].generation == i.generation && t.tasks[k].options == s.tasks[k].options
      && t.tasks[k].outcome == Some(outcome)
      && OnlyOn(t.homes, k, if p.MarkSuccess? then Succeeded else if p.MarkFailure? then Failed else Nowhere, now)
  }

  // The entries filed for the record itself go with it, and nothing else does.
  ghost predicate KeptWithRecord(s: Store, t: Store, k: Key)
    requires k in s.tasks
  {
    var i := Identity(k, s.tasks[k].generation);
    t.kept == if k in t.tasks then s.kept
              else s.kept.(taskExpiry := s.kept.taskExpiry - {i}, terminalExpiry := s.kept.terminalExpiry - {i})
  }

  lemma DisposedExactly(s: Store, k: Key, now: Time)
    requires k in s.tasks && s.tasks[k].outcome.Some?
    ensures DisposedAs(s, Disposed(s, k, now), k, s.tasks[k].outcome.value, now)
    ensures Disposed(s, k, now).tasks - {k} == s.tasks - {k} && OthersStay(s.homes, Disposed(s, k, now).homes, k)
    ensures KeptWithRecord(s, Disposed(s, k, now), k)
  {
    hide Placed, Unplaced, OthersStay;
    UnplacedExactly(s.homes, k);
    PlacedExactly(s.homes, k, PlaceOf(PolicyOf(s.tasks[k])), now);
  }

  // Everything settlement writes: the result and how long it is kept, a dead letter for a failure and how long that is
  // kept, when the record goes and when it leaves its list, and where it is until then.
  ghost predicate SettledAs(s: Store, t: Store, k: Key, r: Result, now: Time)
    requires k in s.tasks
  {
    var i, o := Identity(k, s.tasks[k].generation), s.tasks[k].options;
    && t.kept.results == s.kept.results[i := r]
    && t.kept.resultExpiry == s.kept.resultExpiry[i := now + o.resultRetention]
    && (if r.outcome.Failure?
        then t.kept.deadLetters == s.kept.deadLetters[i := now]
          && t.kept.deadLetterExpiry == s.kept.deadLetterExpiry[i := now + o.deadLetterRetention]
        else t.kept.deadLetters == s.kept.deadLetters && t.kept.deadLetterExpiry == s.kept.deadLetterExpiry)
    && DisposedAs(s, t, k, r.outcome, now)
    && (k in t.tasks ==>
          && t.kept.taskExpiry == s.kept.taskExpiry[i := now + o.taskRetention]
          && t.kept.terminalExpiry == if Chosen(o, r.outcome).MarkSuccess? || Chosen(o, r.outcome).MarkFailure?
                                      then s.kept.terminalExpiry[i := now + o.terminalRetention]
                                      else s.kept.terminalExpiry)
    && t.tasks - {k} == s.tasks - {k} && OthersStay(s.homes, t.homes, k)
    && t.locks == s.locks - {k} && t.generations == s.generations
    && t.holds == s.holds.(continuation := s.holds.continuation[i := now])
  }

  lemma SettledExactly(s: Store, k: Key, error: Option<Error>, now: Time)
    requires k in s.tasks && s.tasks[k].outcome.Some? && k !in s.locks
    ensures SettledAs(s, Settled(s, k, error, now), k, ResultOf(s.tasks[k], error, now), now)
  {
    hide OnlyOn, OthersStay;
    var i := Identity(k, s.tasks[k].generation);
    var u := Enlisted(s.(kept := Filed(s.kept, i, s.tasks[k], error, now)), i, now);
    DisposedExactly(u, k, now);
    DisposedKeepsResults(u, k, now);
    DisposedKeepsRest(u, k, now);
  }

  lemma DisposedKeepsRest(s: Store, k: Key, now: Time)
    requires k in s.tasks && s.tasks[k].outcome.Some?
    ensures var t := Disposed(s, k, now);
      && t.holds == s.holds && t.locks == s.locks && t.generations == s.generations
      && (k in t.tasks ==> t.kept == s.kept)
  {
    hide Placed, Unplaced;
  }

  // What was written of the outcome before is part of the same step.
  lemma SettledFromBefore(s: Store, u: Store, t: Store, k: Key, r: Result, now: Time)
    requires k in s.tasks && k in u.tasks && SettledAs(u, t, k, r, now)
    requires u == s.(tasks := u.tasks, locks := s.locks - {k}) && u.tasks - {k} == s.tasks - {k}
    requires u.tasks[k].generation == s.tasks[k].generation && u.tasks[k].options == s.tasks[k].options
    ensures SettledAs(s, t, k, r, now)
  {
    hide OnlyOn, OthersStay;
    assert (s.locks - {k}) - {k} == s.locks - {k};
  }

  lemma SucceededExactly(w: World, k: Key, token: Token, value: Value)
    requires Enabled(w, Succeed(k, token, value))
    ensures var v, i := Apply(w, Succeed(k, token, value)), Identity(k, w.store.tasks[k].generation);
      var r := Result(Success, w.clock, Some(value), None);
      && SettledAs(w.store, v.store, k, r, w.clock)
      && v.log.settled == w.log.settled[i := r] && v.log.terminal == w.log.terminal + [i]
  {
    hide SettledAs, Settled;
    var s := w.store;
    var t := s.tasks[k].(success := Some(value), outcome := Some(Success));
    var u := WithTask(Unlocked(s, k), k, t);
    SettledExactly(u, k, None, w.clock);
    SettledFromBefore(s, u, SucceededStore(s, k, value, w.clock), k, Result(Success, w.clock, Some(value), None),
                      w.clock);
  }

  lemma FailureSettlesExactly(w: World, k: Key, stall: bool, error: Error, retryAt: Option<Time>)
    requires k in w.store.tasks && (retryAt.None? || error.Canceled?)
    ensures var r := Result(Failure, w.clock, None, Some(error)); var i := Identity(k, w.store.tasks[k].generation);
      && SettledAs(w.store, FailedStore(w.store, k, stall, error, retryAt, w.clock), k, r, w.clock)
      && FailedLog(w, k, error, retryAt).settled == w.log.settled[i := r]
      && FailedLog(w, k, error, retryAt).terminal == w.log.terminal + [i]
  {
    hide SettledAs, Settled, ErrorsKept;
    var s := w.store;
    var t0 := Failing(s.tasks[k], stall, error, retryAt, w.clock);
    var u := WithTask(WithTask(Unlocked(s, k), k, t0), k, t0.(outcome := Some(Failure)));
    SettledExactly(u, k, Some(error), w.clock);
    SettledFromBefore(s, u, FailedStore(s, k, stall, error, retryAt, w.clock), k,
                      Result(Failure, w.clock, None, Some(error)), w.clock);
  }

  // A failure is retried exactly if a time for that was given and the task was not canceled; else it settles.
  lemma FailedExactly(w: World, k: Key, token: Token, error: Error, retryAt: Option<Time>)
    requires Enabled(w, Fail(k, token, error, retryAt))
    ensures var v, i := Apply(w, Fail(k, token, error, retryAt)), Identity(k, w.store.tasks[k].generation);
      var r := Result(Failure, w.clock, None, Some(error));
      if retryAt.Some? && !error.Canceled?
      then RetriedAs(w.store, v.store, k, false, retryAt.value, w.clock) && v.log == w.log
      else SettledAs(w.store, v.store, k, r, w.clock) && v.log.settled == w.log.settled[i := r]
  {
    hide SettledAs, RetriedAs, FailedStore;
    if retryAt.Some? && !error.Canceled? {
      RetriedExactly(w.store, k, false, error, retryAt, w.clock);
    } else {
      FailureSettlesExactly(w, k, false, error, retryAt);
    }
  }

  // An attempt whose lease ended is retried at once while its stall budget lasts; then the task has failed.
  lemma StalledExactly(w: World, k: Key)
    requires Enabled(w, Stall(k)) && 0 <= w.clock
    ensures var v, i := Apply(w, Stall(k)), Identity(k, w.store.tasks[k].generation);
      var r := Result(Failure, w.clock, None, Some(Stalled));
      if w.store.tasks[k].stalled < w.store.tasks[k].options.maxStalled
      then RetriedAs(w.store, v.store, k, true, w.clock, w.clock) && v.log == w.log
      else SettledAs(w.store, v.store, k, r, w.clock) && v.log.settled == w.log.settled[i := r]
  {
    hide SettledAs, FailedStore, OnlyOn, OthersStay;
    if w.store.tasks[k].stalled < w.store.tasks[k].options.maxStalled {
      RetriedExactly(w.store, k, true, Stalled, Some(0), w.clock);
      WaitsWhenever(Apply(w, Stall(k)).store.homes, k, 0, w.clock);
    } else {
      FailureSettlesExactly(w, k, true, Stalled, None);
    }
  }

  // ---- letting go -------------------------------------------------------------------------------------------

  // The hold is gone on both sides; a settled record nobody else holds goes where its policy says.
  lemma LetGoExactly(w: World, e: Edge)
    requires Enabled(w, LetGo(e))
    ensures var s, t, i, k := w.store, Apply(w, LetGo(e)).store, e.retained, e.retained.key;
      && t.holds == Holds(s.holds.retainedBy - {e}, s.holds.retains - {e}, s.holds.continuation[e.holder := w.clock])
      && t.locks == s.locks && t.generations == s.generations
      && if k in s.tasks && s.tasks[k].generation == i.generation && s.tasks[k].outcome.Some?
            && Unheld(t.holds, i)
         then
           && DisposedAs(s.(holds := t.holds), t, k, s.tasks[k].outcome.value, w.clock)
           && t.tasks - {k} == s.tasks - {k} && OthersStay(s.homes, t.homes, k) && KeptWithRecord(s, t, k)
         else t.tasks == s.tasks && t.homes == s.homes && t.kept == s.kept
  {
    hide OnlyOn, OthersStay, DisposedAs, Disposed;
    var s := w.store;
    var listed := s.holds.continuation[e.holder := w.clock];
    var u := s.(holds := Holds(s.holds.retainedBy - {e}, s.holds.retains - {e}, listed));
    if Current(u, e.retained) && u.tasks[e.retained.key].outcome.Some? {
      DisposedExactly(u, e.retained.key, w.clock);
      DisposedKeepsRest(u, e.retained.key, w.clock);
    }
  }

  // ---- expiry and removal --------------------------------------------------------------------------------------

  // The record and everything that lists it are gone; other tasks are as they were.
  ghost predicate GoneFrom(s: Store, t: Store, k: Key)
    requires k in s.tasks
  {
    var i := Identity(k, s.tasks[k].generation);
    && t.tasks == s.tasks - {k} && OnlyOn(t.homes, k, Nowhere, 0) && OthersStay(s.homes, t.homes, k)
    && t.kept.taskExpiry == s.kept.taskExpiry - {i} && t.kept.terminalExpiry == s.kept.terminalExpiry - {i}
    && t.generations == s.generations
  }

  lemma DeletedExactly(s: Store, k: Key)
    requires k in s.tasks
    ensures GoneFrom(s, Deleted(s, k), k)
    ensures var t, i := Deleted(s, k), Identity(k, s.tasks[k].generation);
      t == s.(tasks := t.tasks, homes := t.homes,
              kept := s.kept.(taskExpiry := s.kept.taskExpiry - {i}, terminalExpiry := s.kept.terminalExpiry - {i}))
  {
    hide Unplaced, OnlyOn, OthersStay;
    UnplacedExactly(s.homes, k);
  }

  // A due record goes if it has settled; the entry goes in any case.
  lemma ExpiredTaskExactly(w: World, i: Identity)
    requires Enabled(w, ExpireTask(i))
    ensures var s, t := w.store, Apply(w, ExpireTask(i)).store;
      && i !in t.kept.taskExpiry && t.kept.results == s.kept.results && t.holds == s.holds
      && if i.key in s.tasks && s.tasks[i.key].generation == i.generation && s.tasks[i.key].outcome.Some?
         then GoneFrom(s, t, i.key) else t.tasks == s.tasks && t.homes == s.homes
  {
    hide OnlyOn, OthersStay, Deleted;
    if Current(w.store, i) {
      DeletedExactly(w.store, i.key);
    }
  }

  // A due listing ends; the record stays.
  lemma UnlistedExactly(w: World, i: Identity)
    requires Enabled(w, ExpireTerminal(i))
    ensures var s, t := w.store, Apply(w, ExpireTerminal(i)).store;
      && t.kept == s.kept.(terminalExpiry := s.kept.terminalExpiry - {i}) && t.holds == s.holds
      && t.tasks.Keys == s.tasks.Keys && t.tasks - {i.key} == s.tasks - {i.key} && OthersStay(s.homes, t.homes, i.key)
      && t.homes.wait == s.homes.wait && t.homes.scheduled == s.homes.scheduled && t.homes.active == s.homes.active
      && (i.key in s.tasks ==> t.tasks[i.key] == s.tasks[i.key].(place := t.tasks[i.key].place))
      && (i.key in s.tasks && s.tasks[i.key].generation == i.generation ==>
            i.key !in t.homes.succeeded && i.key !in t.homes.failed)
  {
    hide OthersStay;
    UnlistingLeavesOthers(w.store, i);
  }

  lemma UnlistingLeavesOthers(s: Store, i: Identity)
    ensures var t := TerminalUnlisted(s, i);
      OthersStay(s.homes, t.homes, i.key) && t.tasks.Keys == s.tasks.Keys && t.tasks - {i.key} == s.tasks - {i.key}
  {
  }

  // What is due while it is held is looked at again a second later.
  lemma PostponedExactly(w: World, a: Action)
    requires Enabled(w, a) && (a.PostponeTask? || a.PostponeResult?)
    ensures var s, t := w.store, Apply(w, a).store;
      && !Unheld(s.holds, a.identity) && t == s.(kept := t.kept) && t.kept.results == s.kept.results
      && (a.PostponeTask? ==> t.kept == s.kept.(taskExpiry := s.kept.taskExpiry[a.identity := w.clock + 1000]))
      && (a.PostponeResult? ==> t.kept == s.kept.(resultExpiry := s.kept.resultExpiry[a.identity := w.clock + 1000]))
  {
  }

  // Removal takes the record alone; forced removal takes the lease, the inbound holds and everything kept for the
  // generation with it.
  lemma RemovedExactly(w: World, a: Action)
    requires Enabled(w, a) && (a.Remove? || a.Replace? || a.ForceRemove?)
    ensures var s, t, k := w.store, Apply(w, a).store, a.key; var i := Identity(k, s.tasks[k].generation);
      && GoneFrom(s, t, k) && t.holds.retains == s.holds.retains && t.holds.continuation == s.holds.continuation
      && (a.Remove? ==> t.locks == s.locks) && (!a.Remove? ==> t.locks == s.locks - {k})
      && if a.ForceRemove?
         then NothingKept(t.kept, i) && t.holds.retainedBy == set e | e in s.holds.retainedBy && e.retained != i
         else t.kept.results == s.kept.results && t.kept.deadLetters == s.kept.deadLetters && t.holds == s.holds
  {
    hide OnlyOn, OthersStay, Deleted, Held, HoldsEnlisted;
    DeletedExactly(w.store, a.key);
    DeletedExactly(Unlocked(w.store, a.key), a.key);
    assert GoneFrom(w.store, Deleted(Unlocked(w.store, a.key), a.key), a.key);
  }

  predicate NothingKept(kept: Kept, i: Identity) {
    && i !in kept.results && i !in kept.deadLetters && i !in kept.taskExpiry && i !in kept.resultExpiry
    && i !in kept.terminalExpiry && i !in kept.deadLetterExpiry
  }

  lemma ForgottenExactly(w: World, i: Identity)
    requires Enabled(w, Forget(i))
    ensures var s, t := w.store, Apply(w, Forget(i)).store;
      NothingKept(t.kept, i) && t.locks == s.locks - {i.key} && t == s.(kept := t.kept, locks := t.locks)
  {
  }

  // Whatever an attempt comes to, other tasks are as they were.
  lemma AttemptLeavesOthers(w: World, a: Action)
    requires Enabled(w, a) && (a.Take? || a.Extend? || a.GiveUp? || a.Fail? || a.Succeed? || a.Stall? || a.Promote?)
    requires a.Extend? ==> w.store.tasks[a.key].place.Active?
    ensures var s, t := w.store, Apply(w, a).store;
      && OthersStay(s.homes, t.homes, a.key) && t.tasks - {a.key} == s.tasks - {a.key}
      && t.holds.retainedBy == s.holds.retainedBy
  {
    hide OnlyOn, OthersStay, Apply, DisposedAs;
    match a
    case Take(k, token, timeout) => TakenExactly(w, k, token, timeout);
    case Extend(k, token, timeout) => ExtendedExactly(w, k, token, timeout);
    case GiveUp(k, token) => GivenUpExactly(w, k, token);
    case Promote(k) => PromotedExactly(w, k);
    case Fail(k, token, error, retryAt) => FailedExactly(w, k, token, error, retryAt);
    case Succeed(k, token, value) => SucceededExactly(w, k, token, value);
    case Stall(k) => StalledExactly(w, k);
  }
}
