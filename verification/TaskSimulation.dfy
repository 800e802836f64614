/** The task queues simulate the reference model: every step is a short sequence of the model's accepted operations. */
module TaskSimulation {
  import opened Basics
  import opened TaskModel
  import opened TaskRuns
  import opened TaskInvariant
  import opened TaskProofs
  import opened TaskRetention
  import opened TaskMirror
  import opened TaskTheorems
  import M = TaskStateModel

  // ---- which model task a record stands for ---------------------------------------------

  predicate StateMatches(t: Task, state: M.ExecutionState) {
    match t.outcome
    case Some(Success) => state.Done?
    case Some(Failure) => state.Broken?
    case None =>
      match t.place
      case Wait => state.Waiting? || state.RetryScheduled?
      case Scheduled => if 0 < t.handlerFailures + t.stalled then state.RetryScheduled? else state.Delayed?
      case Active => state.Leased?
      case _ => false
  }

  function LeaseToken(s: Store, k: Key): Option<Token>
    requires k in s.tasks
  {
    if s.tasks[k].place.Active? && k in s.locks then Some(s.locks[k].token) else None
  }

  ghost predicate Matches(s: Store, k: Key, r: M.ModelTask)
    requires k in s.tasks
  {
    var t := s.tasks[k];
    && r.id == k && r.generation == t.generation
    && StateMatches(t, r.state) && r.leaseToken == LeaseToken(s, k)
    && r.handlerFailures == t.handlerFailures && r.stalled == t.stalled
    && (forall h :: h in r.retainedBy <==> Edge(h, IdentityOf(s, k)) in s.holds.retainedBy)
  }

  ghost predicate Simulates(s: Store, m: M.Model) {
    (forall k :: k in s.tasks <==> k in m) && (forall k :: k in s.tasks ==> Matches(s, k, m[k]))
  }

  // ---- the model's account of a step -------------------------------------------------------

  // A record disposed of by the step is removed in the model.
  function Disposal(v: World, k: Key): seq<M.Step> {
    if k in v.store.tasks then [] else [M.Remove(k)]
  }

  function StepsOf(w: World, a: Action): seq<M.Step>
    requires Enabled(w, a)
  {
    var s, v := w.store, Apply(w, a);
    match a
    case Create(k, options, holder) =>
      [M.Offer(k, NextGeneration(s, k), 0 < options.delay)] + if holder.Some? then [M.Retain(k, holder.value)] else []
    case Hold(e) => [M.Retain(e.retained.key, e.holder)]
    case Replace(k) => [M.Remove(k)]
    case Promote(k) => if s.tasks[k].handlerFailures + s.tasks[k].stalled == 0 then [M.Promote(k)] else []
    case Take(k, token, timeout) => [M.Acquire(k, token)]
    case Extend(k, token, timeout) => [M.Renew(k, token)]
    case GiveUp(k, token) => [M.GiveBack(k, token)]
    case Fail(k, token, error, retryAt) => [M.Fail(k, token, WillRetry(error, retryAt))] + Disposal(v, k)
    case Succeed(k, token, value) => [M.Succeed(k, token)] + Disposal(v, k)
    case Stall(k) => [M.Expire(k, s.tasks[k].options.maxStalled)] + Disposal(v, k)
    case LetGo(e) =>
      if e in s.holds.retainedBy then [M.Release(e.retained.key, e.holder)] + Disposal(v, e.retained.key) else []
    case Remove(k) => if s.tasks[k].outcome.Some? then [M.Remove(k)] else [M.Withdraw(k)]
    case ForceRemove(k) =>
      if s.tasks[k].outcome.Some? && !Held(s.holds, IdentityOf(s, k)) then [M.Remove(k)] else [M.Withdraw(k)]
    case ExpireTask(i) => if Current(s, i) && s.tasks[i.key].outcome.Some? then [M.Remove(i.key)] else []
    case _ => []
  }

  // ---- records a step leaves alone ------------------------------------------------------------

  ghost predicate SameRecord(s: Store, t: Store, k: Key) {
    && k in s.tasks && k in t.tasks && t.tasks[k] == s.tasks[k]
    && LeaseToken(t, k) == LeaseToken(s, k)
    && (forall h ::
      Edge(h, IdentityOf(s, k)) in t.holds.retainedBy <==> Edge(h, IdentityOf(s, k)) in s.holds.retainedBy)
  }

  lemma SameRecordMatches(s: Store, t: Store, k: Key, r: M.ModelTask)
    requires SameRecord(s, t, k) && Matches(s, k, r)
    ensures Matches(t, k, r)
  {
  }

  // The step changes, adds or drops at most the record of this task.
  ghost predicate OnlyChanges(s: Store, t: Store, k: Key) {
    && (forall j :: j in s.tasks && j != k ==> SameRecord(s, t, j))
    && (forall j :: j in t.tasks && j != k ==> j in s.tasks)
  }

  lemma SubjectSimulates(s: Store, t: Store, k: Key, m: M.Model, n: M.Model)
    requires Simulates(s, m) && OnlyChanges(s, t, k) && n - {k} == m - {k}
    requires k in t.tasks <==> k in n
    requires k in t.tasks ==> Matches(t, k, n[k])
    ensures Simulates(t, n)
  {
    forall j | j != k ensures (j in m <==> j in n) && (j in m ==> n[j] == m[j]) {
      assert j in m - {k} <==> j in n - {k};
      assert j in m ==> (m - {k})[j] == m[j] && (n - {k})[j] == n[j];
    }
    forall j | j in t.tasks ensures Matches(t, j, n[j]) {
      if j != k {
        SameRecordMatches(s, t, j, n[j]);
      }
    }
  }

  predicate TouchesHolds(a: Action, i: Identity) {
    (a.Hold? || a.LetGo?) && a.edge.retained == i
  }

  lemma SettledRetainedBy(s: Store, k: Key, error: Option<Error>, now: Time)
    requires k in s.tasks && s.tasks[k].outcome.Some?
    ensures Settled(s, k, error, now).holds.retainedBy == s.holds.retainedBy
  {
  }

  lemma FailedRetainedBy(s: Store, k: Key, stall: bool, error: Error, retryAt: Option<Time>, now: Time)
    requires k in s.tasks
    ensures FailedStore(s, k, stall, error, retryAt, now).holds.retainedBy == s.holds.retainedBy
  {
  }

  lemma LetGoRetainedBy(s: Store, e: Edge, now: Time)
    ensures HoldReleased(s, e, now).holds.retainedBy == s.holds.retainedBy - {e}
  {
  }

  lemma RetainedByElsewhere(w: World, a: Action, i: Identity, h: Identity)
    requires Enabled(w, a) && !ChangesKey(a, i.key) && !TouchesHolds(a, i)
    ensures Edge(h, i) in Apply(w, a).store.holds.retainedBy <==> Edge(h, i) in w.store.holds.retainedBy
  {
    hide Placed, FailedStore, Settled, FirstWaiting, MayHold, HoldsEnlisted, Owns, DueIn;
    match a
    case Fail(k, token, error, retryAt) => FailedRetainedBy(w.store, k, false, error, retryAt, w.clock);
    case Stall(k) => FailedRetainedBy(w.store, k, true, Stalled, StallRetry(w.store.tasks[k]), w.clock);
    case Succeed(k, token, value) =>
      var t := w.store.tasks[k].(success := Some(value), outcome := Some(Success));
      SettledRetainedBy(WithTask(Unlocked(w.store, k), k, t), k, None, w.clock);
    case LetGo(e) => LetGoRetainedBy(w.store, e, w.clock);
    case _ =>
      if IsPlain(a) {
        PlainHolds(w, a);
      }
  }

  lemma LeaseTokenElsewhere(w: World, a: Action, j: Key)
    requires Enabled(w, a) && !ChangesKey(a, j)
    requires j in w.store.tasks && j in Apply(w, a).store.tasks && Apply(w, a).store.tasks[j] == w.store.tasks[j]
    ensures LeaseToken(Apply(w, a).store, j) == LeaseToken(w.store, j)
  {
    if j in Apply(w, a).store.locks {
      LocksAfter(w, a, j);
    }
    if j in w.store.locks {
      LockStays(w, a, j);
    }
  }

  lemma Elsewhere(w: World, a: Action, j: Key)
    requires Inv(w) && Enabled(w, a) && j in w.store.tasks
    requires !Changes(w.store, a, j) && !TouchesHolds(a, IdentityOf(w.store, j))
    ensures SameRecord(w.store, Apply(w, a).store, j)
  {
    ListedByInv(w, j);
    Untouched(w, a, j);
    LeaseTokenElsewhere(w, a, j);
    forall h
      ensures Edge(h, IdentityOf(w.store, j)) in Apply(w, a).store.holds.retainedBy <==>
        Edge(h, IdentityOf(w.store, j)) in w.store.holds.retainedBy
    {
      RetainedByElsewhere(w, a, IdentityOf(w.store, j), h);
    }
  }

  // ---- steps about one task -----------------------------------------------------------------------

  // The step concerns no other record than this key's.
  ghost predicate OnlyAbout(s: Store, a: Action, k: Key) {
    forall j :: j in s.tasks && j != k ==> !Changes(s, a, j) && !TouchesHolds(a, IdentityOf(s, j))
  }

  lemma StepIsLocal(w: World, a: Action, k: Key)
    requires Inv(w) && Enabled(w, a) && OnlyAbout(w.store, a, k)
    requires forall j :: j in Apply(w, a).store.tasks && j != k ==> j in w.store.tasks
    ensures OnlyChanges(w.store, Apply(w, a).store, k)
  {
    forall j | j in w.store.tasks && j != k ensures SameRecord(w.store, Apply(w, a).store, j) {
      Elsewhere(w, a, j);
    }
  }

  lemma PerformOne(m: M.Model, step: M.Step)
    ensures M.PerformAll(m, [step]) == M.Perform(m, step)
  {
  }

  lemma PerformTwo(m: M.Model, a: M.Step, b: M.Step)
    requires M.Perform(m, a).Ok?
    ensures M.PerformAll(m, [a, b]) == M.Perform(M.Perform(m, a).value, b)
  {
    assert [a, b][1..] == [b];
    PerformOne(M.Perform(m, a).value, b);
  }

  // The settled record is still there, off the active list, or it was disposed of because nothing held it.
  lemma SettledRecord(s: Store, k: Key, error: Option<Error>, now: Time)
    requires k in s.tasks && s.tasks[k].outcome.Some?
    ensures var t := Settled(s, k, error, now);
      if k in t.tasks then t.tasks[k] == s.tasks[k].(place := PlaceOf(PolicyOf(s.tasks[k])))
        else !Held(s.holds, IdentityOf(s, k))
    ensures Settled(s, k, error, now).holds.retainedBy == s.holds.retainedBy
    ensures forall j :: j in Settled(s, k, error, now).tasks ==> j in s.tasks
  {
  }

  // Settling a leased model task, then removing it when the record was disposed of.
  lemma SettlingPerforms(v: World, m: M.Model, k: Key, step: M.Step, r: M.ModelTask)
    requires M.Perform(m, step) == M.Ok(m[k := r]) && (r.state.Done? || r.state.Broken?)
    requires k !in v.store.tasks ==> r.retainedBy == {}
    ensures var n := if k in v.store.tasks then m[k := r] else m - {k};
      M.PerformAll(m, [step] + Disposal(v, k)) == M.Ok(n)
  {
    PerformOne(m, step);
    if k in v.store.tasks {
      assert [step] + Disposal(v, k) == [step];
    } else {
      assert [step] + Disposal(v, k) == [step, M.Remove(k)];
      PerformTwo(m, step, M.Remove(k));
      assert m[k := r] - {k} == m - {k};
    }
  }

  // The settled record matches the settled model task, or nothing held it.
  lemma SettlingMatches(s: Store, k: Key, t: Task, error: Option<Error>, now: Time, before: M.ModelTask, r: M.ModelTask)
    requires k in s.tasks && Matches(s, k, before) && t.outcome.Some? && t.generation == s.tasks[k].generation
    requires r == before.(state := r.state, leaseToken := None, handlerFailures := t.handlerFailures,
                          stalled := t.stalled)
    requires StateMatches(t, r.state)
    ensures var u := Settled(WithTask(Unlocked(s, k), k, t), k, error, now);
      if k in u.tasks then Matches(u, k, r) else r.retainedBy == {}
  {
  }

  lemma SettlingSimulates(s: Store, t: Store, k: Key, m: M.Model, r: M.ModelTask)
    requires Simulates(s, m) && OnlyChanges(s, t, k) && k in m
    requires k in t.tasks ==> Matches(t, k, r)
    ensures Simulates(t, if k in t.tasks then m[k := r] else m - {k})
  {
  }

  // ---- one step of the queues, as the model performs it --------------------------------------------

  // The model performs these steps, and the result is what the queues became.
  ghost predicate Follows(m: M.Model, steps: seq<M.Step>, t: Store) {
    M.PerformAll(m, steps).Ok? && Simulates(t, M.PerformAll(m, steps).value)
  }

  lemma OneStepFollows(s: Store, t: Store, k: Key, m: M.Model, step: M.Step, r: M.ModelTask)
    requires Simulates(s, m) && OnlyChanges(s, t, k) && k in t.tasks && Matches(t, k, r)
    requires M.Perform(m, step) == M.Ok(m[k := r])
    ensures Follows(m, [step], t)
  {
    hide OnlyChanges, Matches;
    PerformOne(m, step);
    assert m[k := r] - {k} == m - {k};
    SubjectSimulates(s, t, k, m, m[k := r]);
  }

  lemma DropFollows(s: Store, t: Store, k: Key, m: M.Model, step: M.Step)
    requires Simulates(s, m) && OnlyChanges(s, t, k) && k !in t.tasks
    requires M.Perform(m, step) == M.Ok(m - {k})
    ensures Follows(m, [step], t)
  {
    PerformOne(m, step);
    assert (m - {k}) - {k} == m - {k};
    SubjectSimulates(s, t, k, m, m - {k});
  }

  // A record changed in nothing the model shows.
  lemma UnseenFollows(s: Store, t: Store, k: Key, m: M.Model)
    requires Simulates(s, m) && OnlyChanges(s, t, k)
    requires k in s.tasks <==> k in t.tasks
    requires k in t.tasks ==> Matches(t, k, m[k])
    ensures Follows(m, [], t)
  {
  }

  // ---- steps that show nothing -----------------------------------------------------------------------

  predicate Quiet(a: Action) {
    a.Tick? || a.Enlist? || a.Leave? || a.Delist? || a.Forget? || a.PostponeTask? || a.ExpireResult?
      || a.PostponeResult? || a.ExpireDeadLetter?
  }

  // The locks of existing tasks are as they were.
  predicate SameLocks(s: Store, t: Store) {
    forall k :: k in s.tasks ==> (k in t.locks <==> k in s.locks) && (k in s.locks ==> t.locks[k] == s.locks[k])
  }

  lemma QuietWork(w: World, a: Action)
    requires Enabled(w, a) && Quiet(a)
    ensures var s, t := w.store, Apply(w, a).store;
      t.tasks == s.tasks && SameLocks(s, t) && t.holds.retainedBy == s.holds.retainedBy
  {
  }

  lemma SameWorkFollows(s: Store, t: Store, m: M.Model)
    requires Simulates(s, m) && t.tasks == s.tasks && SameLocks(s, t) && t.holds.retainedBy == s.holds.retainedBy
    ensures Follows(m, [], t)
  {
  }

  lemma UnlistedMatches(s: Store, i: Identity, r: M.ModelTask)
    requires i.key in s.tasks && Matches(s, i.key, r)
    requires i.key in s.homes.succeeded || i.key in s.homes.failed ==>
      s.tasks[i.key].outcome.Some? && !s.tasks[i.key].place.Active?
    ensures Matches(TerminalUnlisted(s, i), i.key, r)
  {
  }

  // ---- offering and holding ----------------------------------------------------------------------------

  function Offered(k: Key, g: nat, delayed: bool, holder: Option<Identity>): M.ModelTask {
    M.ModelTask(k, g, if delayed then M.Delayed else M.Waiting, None, 0, 0, if holder.Some? then {holder.value} else {})
  }

  lemma CreatedMatches(s: Store, k: Key, options: Options, holder: Option<Identity>, now: Time)
    requires HoldsInv(s) && k !in s.tasks
    ensures Matches(Created(s, k, options, holder, now), k, Offered(k, NextGeneration(s, k), 0 < options.delay, holder))
  {
  }

  lemma OfferPerforms(m: M.Model, k: Key, g: nat, delayed: bool, holder: Option<Identity>)
    requires k !in m
    ensures M.PerformAll(m, [M.Offer(k, g, delayed)] + if holder.Some? then [M.Retain(k, holder.value)] else [])
      == M.Ok(m[k := Offered(k, g, delayed, holder)])
  {
    var offer := M.Offer(k, g, delayed);
    if holder.Some? {
      assert [offer] + [M.Retain(k, holder.value)] == [offer, M.Retain(k, holder.value)];
      PerformTwo(m, offer, M.Retain(k, holder.value));
      var t := Offered(k, g, delayed, None);
      assert t.retainedBy + {holder.value} == {holder.value};
      assert m[k := t][k := Offered(k, g, delayed, holder)] == m[k := Offered(k, g, delayed, holder)];
    } else {
      assert [offer] + [] == [offer];
      PerformOne(m, offer);
    }
  }

  lemma CreateFollows(w: World, k: Key, options: Options, holder: Option<Identity>, m: M.Model)
    requires HoldsInv(w.store) && Enabled(w, Create(k, options, holder)) && Simulates(w.store, m)
    requires OnlyChanges(w.store, Apply(w, Create(k, options, holder)).store, k)
    ensures Follows(m, StepsOf(w, Create(k, options, holder)), Apply(w, Create(k, options, holder)).store)
  {
    var s, t, g := w.store, Apply(w, Create(k, options, holder)).store, NextGeneration(w.store, k);
    CreatedMatches(s, k, options, holder, w.clock);
    OfferPerforms(m, k, g, 0 < options.delay, holder);
    var n := m[k := Offered(k, g, 0 < options.delay, holder)];
    assert n - {k} == m - {k};
    SubjectSimulates(s, t, k, m, n);
  }

  lemma HoldMatches(s: Store, t: Store, e: Edge, r: M.ModelTask)
    requires Current(s, e.retained) && Matches(s, e.retained.key, r)
    requires t.tasks == s.tasks && t.locks == s.locks && t.holds.retainedBy == s.holds.retainedBy + {e}
    ensures Matches(t, e.retained.key, r.(retainedBy := r.retainedBy + {e.holder}))
  {
  }

  lemma HoldFollows(w: World, e: Edge, m: M.Model)
    requires Enabled(w, Hold(e)) && Simulates(w.store, m)
    requires OnlyChanges(w.store, Apply(w, Hold(e)).store, e.retained.key)
    ensures Follows(m, StepsOf(w, Hold(e)), Apply(w, Hold(e)).store)
  {
    var k := e.retained.key;
    HoldMatches(w.store, Apply(w, Hold(e)).store, e, m[k]);
    OneStepFollows(w.store, Apply(w, Hold(e)).store, k, m, M.Retain(k, e.holder),
                   m[k].(retainedBy := m[k].retainedBy + {e.holder}));
  }

  // ---- removal ----------------------------------------------------------------------------------------

  lemma RemovalAllowed(s: Store, k: Key, m: M.Model)
    requires Simulates(s, m) && k in s.tasks && s.tasks[k].outcome.Some? && !Held(s.holds, IdentityOf(s, k))
    ensures M.Perform(m, M.Remove(k)) == M.Ok(m - {k})
  {
  }

  lemma RemovalFollows(w: World, a: Action, m: M.Model)
    requires Enabled(w, a) && Simulates(w.store, m) && (a.Replace? || a.Remove? || a.ForceRemove?)
    requires OnlyChanges(w.store, Apply(w, a).store, a.key)
    ensures Follows(m, StepsOf(w, a), Apply(w, a).store)
  {
    if w.store.tasks[a.key].outcome.Some? && !Held(w.store.holds, IdentityOf(w.store, a.key)) {
      RemovalAllowed(w.store, a.key, m);
      DropFollows(w.store, Apply(w, a).store, a.key, m, M.Remove(a.key));
    } else {
      DropFollows(w.store, Apply(w, a).store, a.key, m, M.Withdraw(a.key));
    }
  }

  // A task is withdrawn only where the reference model refuses to remove it: unsettled, or held.
  lemma WithdrawnIsRefused(w: World, a: Action, k: Key, m: M.Model)
    requires Enabled(w, a) && Simulates(w.store, m) && M.Withdraw(k) in StepsOf(w, a)
    ensures M.Perform(m, M.Remove(k)).Err?
  {
    hide StepsOf, Enabled, Apply, StateMatches, LeaseToken;
    WithdrawnIsRemoved(w, a, k);
    assert Matches(w.store, k, m[k]);
    var i := IdentityOf(w.store, k);
    if Held(w.store.holds, i) {
      var e :| e in w.store.holds.retainedBy && e.retained == i;
      assert Edge(e.holder, i) == e;
      assert e.holder in m[k].retainedBy;
    } else {
      UnsettledInModel(w.store, k, m);
    }
  }

  // When a step of the engine needs one of the three the reference model lacks: the delay of a task that never failed
  // runs out, an attempt is given back, or a task is removed that has not settled or is still held.
  predicate Adds(w: World, a: Action, x: M.Step)
    requires Enabled(w, a)
  {
    match x
    case Promote(k) => a == Promote(k) && w.store.tasks[k].handlerFailures + w.store.tasks[k].stalled == 0
    case GiveBack(k, token) => a == GiveUp(k, token)
    case Withdraw(k) =>
      (a == Remove(k) || a == ForceRemove(k))
        && (w.store.tasks[k].outcome.None? || Held(w.store.holds, IdentityOf(w.store, k)))
    case _ => false
  }

  lemma AddedStepsExactly(w: World, a: Action, x: M.Step)
    requires Enabled(w, a) && M.IsAdded(x)
    ensures x in StepsOf(w, a) <==> Adds(w, a, x)
  {
    hide Apply, Held, Owns, DueIn, FirstWaiting, MayHold;
  }

  // ... and then nothing the reference model has would do.
  lemma AddedIsNeeded(w: World, a: Action, m: M.Model, x: M.Step, y: M.Step)
    requires Inv(w) && MirrorInv(w) && Enabled(w, a) && Simulates(w.store, m)
    requires x in StepsOf(w, a) && M.IsAdded(x) && !M.IsAdded(y)
    ensures StepsOf(w, a) == [x] && M.Perform(m, x).Ok? && M.Perform(m, y) != M.Perform(m, x)
  {
    hide Inv, MirrorInv, Enabled, Apply, Simulates, StepsOf;
    StepFollows(w, a, m);
    AddedIsAlone(w, a, x);
    assert M.PerformAll(m, [x]).Ok? ==> M.Perform(m, x).Ok?;
    if x.Withdraw? {
      WithdrawnIsRefused(w, a, x.id, m);
    }
    M.AddedIsNeeded(m, x, y);
  }

  lemma AddedIsAlone(w: World, a: Action, x: M.Step)
    requires Enabled(w, a) && x in StepsOf(w, a) && M.IsAdded(x)
    ensures StepsOf(w, a) == [x]
  {
    hide Apply, Held, Owns, DueIn, FirstWaiting, MayHold;
  }

  lemma UnsettledInModel(s: Store, k: Key, m: M.Model)
    requires Simulates(s, m) && k in s.tasks && s.tasks[k].outcome.None?
    ensures k in m && !m[k].state.Done? && !m[k].state.Broken?
  {
  }

  lemma WithdrawnIsRemoved(w: World, a: Action, k: Key)
    requires Enabled(w, a) && M.Withdraw(k) in StepsOf(w, a)
    ensures k in w.store.tasks && (w.store.tasks[k].outcome.None? || Held(w.store.holds, IdentityOf(w.store, k)))
  {
    hide Apply, Held, Owns, DueIn, FirstWaiting, MayHold;
  }

  lemma ExpiryFollows(w: World, i: Identity, m: M.Model)
    requires Enabled(w, ExpireTask(i)) && Simulates(w.store, m)
    requires OnlyChanges(w.store, Apply(w, ExpireTask(i)).store, i.key)
    ensures Follows(m, StepsOf(w, ExpireTask(i)), Apply(w, ExpireTask(i)).store)
  {
    if Current(w.store, i) && w.store.tasks[i.key].outcome.Some? {
      assert IdentityOf(w.store, i.key) == i;
      RemovalAllowed(w.store, i.key, m);
      DropFollows(w.store, Apply(w, ExpireTask(i)).store, i.key, m, M.Remove(i.key));
    } else {
      SameWorkFollows(w.store, Apply(w, ExpireTask(i)).store, m);
    }
  }

  // ---- attempts -----------------------------------------------------------------------------------------

  lemma PromoteFollows(w: World, k: Key, m: M.Model)
    requires Enabled(w, Promote(k)) && Simulates(w.store, m) && OnlyChanges(w.store, Apply(w, Promote(k)).store, k)
    requires w.store.tasks[k].place.Scheduled? && w.store.tasks[k].outcome.None?
    ensures Follows(m, StepsOf(w, Promote(k)), Apply(w, Promote(k)).store)
  {
    var t := Apply(w, Promote(k)).store;
    assert Matches(w.store, k, m[k]);
    assert IdentityOf(t, k) == IdentityOf(w.store, k);
    if w.store.tasks[k].handlerFailures + w.store.tasks[k].stalled == 0 {
      OneStepFollows(w.store, t, k, m, M.Promote(k), m[k].(state := M.Waiting));
    } else {
      UnseenFollows(w.store, t, k, m);
    }
  }

  lemma TakeFollows(w: World, k: Key, token: Token, timeout: nat, m: M.Model)
    requires Enabled(w, Take(k, token, timeout)) && Simulates(w.store, m)
    requires OnlyChanges(w.store, Apply(w, Take(k, token, timeout)).store, k)
    requires w.store.tasks[k].place.Wait? && w.store.tasks[k].outcome.None?
    ensures Follows(m, StepsOf(w, Take(k, token, timeout)), Apply(w, Take(k, token, timeout)).store)
  {
    var t := Apply(w, Take(k, token, timeout)).store;
    assert Matches(w.store, k, m[k]);
    assert IdentityOf(t, k) == IdentityOf(w.store, k);
    OneStepFollows(w.store, t, k, m, M.Acquire(k, token), m[k].(state := M.Leased, leaseToken := Some(token)));
  }

  // The model's lease is the lock of a running attempt.
  predicate Running(s: Store, k: Key) {
    k in s.tasks && s.tasks[k].place.Active? && s.tasks[k].outcome.None?
  }

  lemma LeaseIsModelled(s: Store, k: Key, token: Token, now: Time, m: M.Model)
    requires Simulates(s, m) && Running(s, k) && Owns(s, k, token, now)
    ensures k in m && m[k].state.Leased? && m[k].leaseToken == Some(token)
  {
  }

  lemma ExtendFollows(w: World, k: Key, token: Token, timeout: nat, m: M.Model)
    requires Enabled(w, Extend(k, token, timeout)) && Simulates(w.store, m)
    requires OnlyChanges(w.store, Apply(w, Extend(k, token, timeout)).store, k)
    requires Running(w.store, k)
    ensures Follows(m, StepsOf(w, Extend(k, token, timeout)), Apply(w, Extend(k, token, timeout)).store)
  {
    var t := Apply(w, Extend(k, token, timeout)).store;
    LeaseIsModelled(w.store, k, token, w.clock, m);
    assert Matches(w.store, k, m[k]);
    assert IdentityOf(t, k) == IdentityOf(w.store, k);
    OneStepFollows(w.store, t, k, m, M.Renew(k, token), m[k]);
  }

  lemma GiveUpFollows(w: World, k: Key, token: Token, m: M.Model)
    requires Enabled(w, GiveUp(k, token)) && Simulates(w.store, m)
    requires OnlyChanges(w.store, Apply(w, GiveUp(k, token)).store, k)
    requires Running(w.store, k)
    ensures Follows(m, StepsOf(w, GiveUp(k, token)), Apply(w, GiveUp(k, token)).store)
  {
    var t := Apply(w, GiveUp(k, token)).store;
    LeaseIsModelled(w.store, k, token, w.clock, m);
    assert Matches(w.store, k, m[k]);
    assert IdentityOf(t, k) == IdentityOf(w.store, k);
    OneStepFollows(w.store, t, k, m, M.GiveBack(k, token), m[k].(state := M.Waiting, leaseToken := None));
  }

  // ---- failures ------------------------------------------------------------------------------------------

  function FailedModel(r: M.ModelTask, stall: bool, state: M.ExecutionState): M.ModelTask {
    r.(state := state, leaseToken := None,
       handlerFailures := if stall then r.handlerFailures else r.handlerFailures + 1,
       stalled := if stall then r.stalled + 1 else r.stalled)
  }

  lemma RetryMatches(s: Store, k: Key, stall: bool, error: Error, retryAt: Option<Time>, now: Time, r: M.ModelTask,
                     state: M.ExecutionState)
    requires Running(s, k) && Matches(s, k, r) && WillRetry(error, retryAt)
    requires state.RetryScheduled? || (state.Waiting? && retryAt.value <= now)
    ensures var t := FailedStore(s, k, stall, error, retryAt, now);
      k in t.tasks && Matches(t, k, FailedModel(r, stall, state))
  {
  }

  lemma FailureMatches(s: Store, k: Key, stall: bool, error: Error, retryAt: Option<Time>, now: Time, r: M.ModelTask)
    requires Running(s, k) && Matches(s, k, r) && !WillRetry(error, retryAt)
    ensures var t := FailedStore(s, k, stall, error, retryAt, now); var b := FailedModel(r, stall, M.Broken);
      if k in t.tasks then Matches(t, k, b) else b.retainedBy == {}
  {
  }

  // A failed attempt, whether its handler failed or it stalled.
  lemma FailureFollows(s: Store, v: World, k: Key, stall: bool, error: Error, retryAt: Option<Time>, now: Time,
                       m: M.Model,
                       step: M.Step, retried: M.ExecutionState)
    requires Running(s, k) && v.store == FailedStore(s, k, stall, error, retryAt, now)
    requires Simulates(s, m) && OnlyChanges(s, v.store, k)
    requires retried.RetryScheduled? || (retried.Waiting? && (retryAt.Some? ==> retryAt.value <= now))
    requires M.Perform(m, step)
      == M.Ok(m[k := FailedModel(m[k], stall, if WillRetry(error, retryAt) then retried else M.Broken)])
    ensures Follows(m, [step] + Disposal(v, k), v.store)
  {
    if WillRetry(error, retryAt) {
      RetryMatches(s, k, stall, error, retryAt, now, m[k], retried);
      assert [step] + Disposal(v, k) == [step];
      OneStepFollows(s, v.store, k, m, step, FailedModel(m[k], stall, retried));
    } else {
      FailureMatches(s, k, stall, error, retryAt, now, m[k]);
      SettlingPerforms(v, m, k, step, FailedModel(m[k], stall, M.Broken));
      SettlingSimulates(s, v.store, k, m, FailedModel(m[k], stall, M.Broken));
    }
  }

  lemma FailFollows(w: World, k: Key, token: Token, error: Error, retryAt: Option<Time>, m: M.Model)
    requires Enabled(w, Fail(k, token, error, retryAt)) && Simulates(w.store, m) && Running(w.store, k)
    requires OnlyChanges(w.store, Apply(w, Fail(k, token, error, retryAt)).store, k)
    ensures Follows(m, StepsOf(w, Fail(k, token, error, retryAt)), Apply(w, Fail(k, token, error, retryAt)).store)
  {
    hide FailedStore, OnlyChanges, Follows;
    LeaseIsModelled(w.store, k, token, w.clock, m);
    FailureFollows(w.store, Apply(w, Fail(k, token, error, retryAt)), k, false, error, retryAt, w.clock, m,
                   M.Fail(k, token, WillRetry(error, retryAt)), M.RetryScheduled);
  }

  lemma StallFollows(w: World, k: Key, m: M.Model)
    requires Enabled(w, Stall(k)) && Simulates(w.store, m) && Running(w.store, k)
    requires OnlyChanges(w.store, Apply(w, Stall(k)).store, k)
    ensures Follows(m, StepsOf(w, Stall(k)), Apply(w, Stall(k)).store)
  {
    hide FailedStore, OnlyChanges, Follows;
    assert Matches(w.store, k, m[k]);
    FailureFollows(w.store, Apply(w, Stall(k)), k, true, Stalled, StallRetry(w.store.tasks[k]), w.clock, m,
                   M.Expire(k, w.store.tasks[k].options.maxStalled), M.Waiting);
  }

  lemma SucceedFollows(w: World, k: Key, token: Token, value: Value, m: M.Model)
    requires Enabled(w, Succeed(k, token, value)) && Simulates(w.store, m) && Running(w.store, k)
    requires OnlyChanges(w.store, Apply(w, Succeed(k, token, value)).store, k)
    ensures Follows(m, StepsOf(w, Succeed(k, token, value)), Apply(w, Succeed(k, token, value)).store)
  {
    var v := Apply(w, Succeed(k, token, value));
    LeaseIsModelled(w.store, k, token, w.clock, m);
    var r := m[k].(state := M.Done, leaseToken := None);
    SettlingMatches(w.store, k, w.store.tasks[k].(success := Some(value), outcome := Some(Success)), None, w.clock,
                    m[k], r);
    SettlingPerforms(v, m, k, M.Succeed(k, token), r);
    SettlingSimulates(w.store, v.store, k, m, r);
  }

  // ---- letting go -------------------------------------------------------------------------------------------

  lemma LetGoMatches(s: Store, e: Edge, now: Time, r: M.ModelTask)
    requires Current(s, e.retained) && Matches(s, e.retained.key, r)
    requires (s.tasks[e.retained.key].outcome.Some? ==> !s.tasks[e.retained.key].place.Active?)
    ensures var t := HoldReleased(s, e, now); var q := r.(retainedBy := r.retainedBy - {e.holder});
      if e.retained.key in t.tasks then Matches(t, e.retained.key, q)
        else q.retainedBy == {} && (q.state.Done? || q.state.Broken?)
  {
  }

  lemma LetGoFollows(w: World, e: Edge, m: M.Model)
    requires Enabled(w, LetGo(e)) && Simulates(w.store, m)
    requires OnlyChanges(w.store, Apply(w, LetGo(e)).store, e.retained.key)
    requires e in w.store.holds.retainedBy <==> Current(w.store, e.retained)
    requires Current(w.store, e.retained) && w.store.tasks[e.retained.key].outcome.Some? ==>
      !w.store.tasks[e.retained.key].place.Active?
    ensures Follows(m, StepsOf(w, LetGo(e)), Apply(w, LetGo(e)).store)
  {
    var k, v := e.retained.key, Apply(w, LetGo(e));
    if e in w.store.holds.retainedBy {
      var q := m[k].(retainedBy := m[k].retainedBy - {e.holder});
      LetGoMatches(w.store, e, w.clock, m[k]);
      ReleasingPerforms(v, m, k, e.holder);
      SettlingSimulates(w.store, v.store, k, m, q);
    } else {
      SameWorkFollows(w.store, v.store, m);
    }
  }

  lemma ReleasingPerforms(v: World, m: M.Model, k: Key, holder: Identity)
    requires k in m
    requires k !in v.store.tasks ==> m[k].retainedBy - {holder} == {} && (m[k].state.Done? || m[k].state.Broken?)
    ensures M.PerformAll(m, [M.Release(k, holder)] + Disposal(v, k))
      == M.Ok(if k in v.store.tasks then m[k := m[k].(retainedBy := m[k].retainedBy - {holder})] else m - {k})
  {
    var q := m[k].(retainedBy := m[k].retainedBy - {holder});
    PerformOne(m, M.Release(k, holder));
    if k in v.store.tasks {
      assert [M.Release(k, holder)] + Disposal(v, k) == [M.Release(k, holder)];
    } else {
      assert [M.Release(k, holder)] + Disposal(v, k) == [M.Release(k, holder), M.Remove(k)];
      PerformTwo(m, M.Release(k, holder), M.Remove(k));
      assert m[k := q] - {k} == m - {k};
    }
  }

  // ---- every step, every run ----------------------------------------------------------------------------------

  function Subject(a: Action): Option<Key> {
    if a.Hold? || a.LetGo? then Some(a.edge.retained.key)
    else if a.ExpireTask? || a.ExpireTerminal? then Some(a.identity.key)
    else if Quiet(a) then None
    else Some(a.key)
  }

  lemma NoRecordAppears(w: World, a: Action, j: Key)
    requires Enabled(w, a) && j in Apply(w, a).store.tasks && !(a.Create? && a.key == j)
    ensures j in w.store.tasks
  {
    hide Placed, Unplaced, FailedStore, SucceededStore, FirstWaiting, MayHold, HoldsEnlisted, Owns, DueIn, HoldReleased,
         Held, FailedLog;
    if a.Fail? {
      FailedKeys(w.store, a.key, false, a.error, a.retryAt, w.clock, j);
    } else if a.Stall? {
      FailedKeys(w.store, a.key, true, Stalled, StallRetry(w.store.tasks[a.key]), w.clock, j);
    } else if a.Succeed? {
      SucceededKeys(w.store, a.key, a.value, w.clock, j);
    } else if a.LetGo? {
      LetGoKeys(w.store, a.edge, w.clock, j);
    }
  }

  lemma SucceededKeys(s: Store, k: Key, value: Value, now: Time, j: Key)
    requires k in s.tasks && j in SucceededStore(s, k, value, now).tasks
    ensures j in s.tasks
  {
    SettledRecord(WithTask(Unlocked(s, k), k, s.tasks[k].(success := Some(value), outcome := Some(Success))), k, None,
                  now);
  }

  lemma LetGoKeys(s: Store, e: Edge, now: Time, j: Key)
    requires j in HoldReleased(s, e, now).tasks
    ensures j in s.tasks
  {
    var t := Loosened(s, e, now);
    if Current(t, e.retained) && t.tasks[e.retained.key].outcome.Some? && !Held(t.holds, e.retained) {
      DisposalShape(t, e.retained.key, now);
    }
  }

  lemma FailedKeys(s: Store, k: Key, stall: bool, error: Error, retryAt: Option<Time>, now: Time, j: Key)
    requires k in s.tasks && j in FailedStore(s, k, stall, error, retryAt, now).tasks
    ensures j in s.tasks
  {
  }

  lemma SubjectIsAlone(s: Store, a: Action)
    requires Subject(a).Some?
    ensures OnlyAbout(s, a, Subject(a).value)
  {
  }

  lemma SubjectIsLocal(w: World, a: Action)
    requires Inv(w) && Enabled(w, a) && Subject(a).Some?
    ensures OnlyChanges(w.store, Apply(w, a).store, Subject(a).value)
  {
    var k := Subject(a).value;
    assert a.Create? ==> a.key == k;
    SubjectIsAlone(w.store, a);
    forall j | j in Apply(w, a).store.tasks && j != k ensures j in w.store.tasks {
      NoRecordAppears(w, a, j);
    }
    StepIsLocal(w, a, k);
  }

  // What the invariant says of the one record a step is about.
  ghost predicate Fit(s: Store, a: Action) {
    && (a.Create? ==> HoldsInv(s))
    && (a.LetGo? ==> (a.edge in s.holds.retainedBy <==> Current(s, a.edge.retained)))
    && (a.Promote? ==> a.key in s.tasks && s.tasks[a.key].place.Scheduled? && s.tasks[a.key].outcome.None?)
    && (a.Take? ==> a.key in s.tasks && s.tasks[a.key].place.Wait? && s.tasks[a.key].outcome.None?)
    && (a.Extend? || a.GiveUp? || a.Fail? || a.Succeed? || a.Stall? ==> Running(s, a.key))
    && (a.LetGo? || a.ExpireTerminal? ==> Subject(a).value in s.tasks ==> Resting(s, Subject(a).value))
  }

  // Settled is not running, and only settled work is in a terminal list.
  predicate Resting(s: Store, k: Key)
    requires k in s.tasks
  {
    && (s.tasks[k].outcome.Some? ==> !s.tasks[k].place.Active?)
    && (k in s.homes.succeeded || k in s.homes.failed ==> s.tasks[k].outcome.Some?)
  }

  lemma RecordsRest(w: World, k: Key)
    requires Inv(w) && k in w.store.tasks
    ensures Resting(w.store, k)
  {
    ListedByInv(w, k);
    assert TaskOk(w.store.tasks[k], Released(w.log, IdentityOf(w.store, k)));
  }

  lemma HoldIsCurrent(w: World, e: Edge)
    requires Inv(w) && MirrorInv(w) && e in w.store.holds.retains
    ensures e in w.store.holds.retainedBy <==> Current(w.store, e.retained)
  {
  }

  lemma PlacedAsListed(w: World, k: Key)
    requires Inv(w) && (k in w.store.homes.wait || k in w.store.homes.scheduled)
    ensures k in w.store.tasks && w.store.tasks[k].outcome.None?
    ensures if k in w.store.homes.wait then w.store.tasks[k].place.Wait? else w.store.tasks[k].place.Scheduled?
  {
    assert HomeOk(w.store.tasks, w.store.homes, k);
    assert TaskOk(w.store.tasks[k], Released(w.log, IdentityOf(w.store, k)));
  }

  lemma NotBothListed(w: World, k: Key)
    requires Inv(w) && k in w.store.homes.scheduled
    ensures k !in w.store.homes.wait
  {
    assert HomeOk(w.store.tasks, w.store.homes, k);
  }

  lemma StepIsFit(w: World, a: Action)
    requires Inv(w) && MirrorInv(w) && Enabled(w, a)
    ensures Fit(w.store, a)
  {
    if a.LetGo? {
      HoldIsCurrent(w, a.edge);
    } else if a.Promote? {
      PlacedAsListed(w, a.key);
      NotBothListed(w, a.key);
    } else if a.Take? {
      PlacedAsListed(w, a.key);
    } else if a.Extend? || a.GiveUp? || a.Fail? || a.Succeed? {
      ActiveByLock(w, a.key);
    } else if a.Stall? {
      ActiveByScore(w, a.key);
    }
    if (a.LetGo? || a.ExpireTerminal?) && Subject(a).value in w.store.tasks {
      RecordsRest(w, Subject(a).value);
    }
  }

  predicate Retains(a: Action) {
    a.Create? || a.Hold? || a.LetGo? || a.Replace? || a.Remove? || a.ForceRemove? || a.ExpireTask? || a.ExpireTerminal?
  }

  lemma UnlistingFollows(w: World, i: Identity, m: M.Model)
    requires Enabled(w, ExpireTerminal(i)) && Simulates(w.store, m)
    requires OnlyChanges(w.store, Apply(w, ExpireTerminal(i)).store, i.key)
    requires i.key in w.store.tasks ==> Resting(w.store, i.key)
    ensures Follows(m, [], Apply(w, ExpireTerminal(i)).store)
  {
    if i.key in w.store.tasks {
      UnlistedMatches(w.store, i, m[i.key]);
    }
    UnseenFollows(w.store, Apply(w, ExpireTerminal(i)).store, i.key, m);
  }

  lemma RetentionFollows(w: World, a: Action, m: M.Model)
    requires Fit(w.store, a) && Enabled(w, a) && Simulates(w.store, m) && Retains(a)
    requires OnlyChanges(w.store, Apply(w, a).store, Subject(a).value)
    ensures Follows(m, StepsOf(w, a), Apply(w, a).store)
  {
    if a.Create? {
      CreateFollows(w, a.key, a.options, a.holder, m);
    } else if a.Hold? {
      HoldFollows(w, a.edge, m);
    } else if a.LetGo? {
      LetGoFollows(w, a.edge, m);
    } else if a.ExpireTask? {
      ExpiryFollows(w, a.identity, m);
    } else if a.ExpireTerminal? {
      UnlistingFollows(w, a.identity, m);
    } else {
      RemovalFollows(w, a, m);
    }
  }

  lemma AttemptFollows(w: World, a: Action, m: M.Model)
    requires Fit(w.store, a) && Enabled(w, a) && Simulates(w.store, m)
    requires a.Promote? || a.Take? || a.Extend? || a.GiveUp? || a.Fail? || a.Succeed? || a.Stall?
    requires OnlyChanges(w.store, Apply(w, a).store, a.key)
    ensures Follows(m, StepsOf(w, a), Apply(w, a).store)
  {
    match a
    case Promote(k) => PromoteFollows(w, k, m);
    case Take(k, token, timeout) => TakeFollows(w, k, token, timeout, m);
    case Extend(k, token, timeout) => ExtendFollows(w, k, token, timeout, m);
    case GiveUp(k, token) => GiveUpFollows(w, k, token, m);
    case Fail(k, token, error, retryAt) => FailFollows(w, k, token, error, retryAt, m);
    case Succeed(k, token, value) => SucceedFollows(w, k, token, value, m);
    case Stall(k) => StallFollows(w, k, m);
  }

  lemma FitFollows(w: World, a: Action, m: M.Model)
    requires Fit(w.store, a) && Enabled(w, a) && Simulates(w.store, m)
    requires Subject(a).Some? ==> OnlyChanges(w.store, Apply(w, a).store, Subject(a).value)
    ensures Follows(m, StepsOf(w, a), Apply(w, a).store)
  {
    hide OnlyChanges, Follows, Simulates;
    if Quiet(a) {
      QuietWork(w, a);
      SameWorkFollows(w.store, Apply(w, a).store, m);
    } else if Retains(a) {
      RetentionFollows(w, a, m);
    } else {
      AttemptFollows(w, a, m);
    }
  }

  // Every step of the queues is a sequence of steps the model accepts, and leaves both in agreement.
  lemma StepFollows(w: World, a: Action, m: M.Model)
    requires Inv(w) && MirrorInv(w) && Enabled(w, a) && Simulates(w.store, m)
    ensures Follows(m, StepsOf(w, a), Apply(w, a).store)
  {
    StepIsFit(w, a);
    if Subject(a).Some? {
      SubjectIsLocal(w, a);
    }
    FitFollows(w, a, m);
  }

  function StepsOfRun(w: World, acts: seq<Action>): seq<M.Step>
    requires Legal(w, acts)
    decreases |acts|
  {
    if acts == [] then [] else StepsOf(w, acts[0]) + StepsOfRun(Apply(w, acts[0]), acts[1..])
  }

  // The model accepts the whole of every run, and agrees with the queues at its end.
  lemma {:induction false} RunFollows(w: World, acts: seq<Action>, m: M.Model)
    requires Sound(w) && Legal(w, acts) && Simulates(w.store, m)
    ensures Follows(m, StepsOfRun(w, acts), Run(w, acts).store)
    decreases |acts|
  {
    hide Inv, ListingInv, DisposalInv, Enabled, Apply, Simulates, StepsOf;
    if acts != [] {
      var steps, v := StepsOf(w, acts[0]), Apply(w, acts[0]);
      StepFollows(w, acts[0], m);
      StepIsSound(w, acts[0]);
      RunFollows(v, acts[1..], M.PerformAll(m, steps).value);
      M.PerformAppend(m, steps, StepsOfRun(v, acts[1..]));
    }
  }

  lemma {:induction false} OffersAreNumbered(w: World, acts: seq<Action>)
    requires Legal(w, acts)
    ensures forall x :: x in StepsOfRun(w, acts) && x.Offer? ==> 1 <= x.generation
    decreases |acts|
  {
    if acts != [] {
      OffersAreNumbered(Apply(w, acts[0]), acts[1..]);
    }
  }

  // From an empty server on, the queues stay in agreement with a well-formed model.
  lemma QueuesSimulateModel(clock: nat, acts: seq<Action>)
    requires Legal(Initial(clock), acts)
    ensures Follows(map[], StepsOfRun(Initial(clock), acts), Run(Initial(clock), acts).store)
    ensures M.WellFormed(M.PerformAll(map[], StepsOfRun(Initial(clock), acts)).value)
  {
    InitialIsSound(clock);
    RunFollows(Initial(clock), acts, map[]);
    OffersAreNumbered(Initial(clock), acts);
    M.StepsKeepWellFormed(map[], StepsOfRun(Initial(clock), acts));
  }
}
