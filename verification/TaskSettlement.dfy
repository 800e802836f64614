/** What a settlement leaves behind once its script is done: the same whatever holds were given up meanwhile. */
module TaskSettlement {
  import opened Basics
  import opened TaskModel
  import opened TaskRuns
  import opened TaskInvariant
  import opened TaskLaws
  import opened TaskUpkeep
  import opened TaskScript

  // The record is in the list its policy says since this instant, with its expiries.
  ghost predicate StaysAs(s: Store, t: Store, k: Key, outcome: Outcome, now: Time)
    requires k in s.tasks
  {
    var i, o, p := Identity(k, s.tasks[k].generation), s.tasks[k].options, Chosen(s.tasks[k].options, outcome);
    && k in t.tasks && t.tasks[k].generation == i.generation && t.tasks[k].options == o
    && t.tasks[k].outcome == Some(outcome)
    && OnlyOn(t.homes, k, if p.MarkSuccess? then Succeeded else if p.MarkFailure? then Failed else Nowhere, now)
    && i in t.kept.taskExpiry && t.kept.taskExpiry[i] == now + o.taskRetention
    && (p.MarkSuccess? || p.MarkFailure? ==>
          i in t.kept.terminalExpiry && t.kept.terminalExpiry[i] == now + o.terminalRetention)
  }

  // The result, for a failure its dead letter, and how long both are kept.
  ghost predicate ResultFiled(s: Store, t: Store, k: Key, r: Result, now: Time)
    requires k in s.tasks
  {
    var i, o := Identity(k, s.tasks[k].generation), s.tasks[k].options;
    && t.kept.results == s.kept.results[i := r]
    && t.kept.resultExpiry == s.kept.resultExpiry[i := now + o.resultRetention]
    && (if r.outcome.Failure?
        then t.kept.deadLetters == s.kept.deadLetters[i := now]
          && t.kept.deadLetterExpiry == s.kept.deadLetterExpiry[i := now + o.deadLetterRetention]
        else t.kept.deadLetters == s.kept.deadLetters && t.kept.deadLetterExpiry == s.kept.deadLetterExpiry)
  }

  // The lease is over, the result is filed, and the record is where its policy says: gone if that deletes it and nobody
  // held it.
  ghost predicate LeavesBehind(s: Store, t: Store, k: Key, r: Result, now: Time)
    requires k in s.tasks
  {
    var i, o := Identity(k, s.tasks[k].generation), s.tasks[k].options;
    && ResultFiled(s, t, k, r, now) && k !in t.locks
    && if !Chosen(o, r.outcome).Delete? then StaysAs(s, t, k, r.outcome, now)
       else if Unheld(s.holds, i) then k !in t.tasks
       else k !in t.tasks || (!Unheld(t.holds, i) && StaysAs(s, t, k, r.outcome, now))
  }

  lemma SettledLeavesBehind(s: Store, t: Store, k: Key, r: Result, now: Time)
    requires k in s.tasks && SettledAs(s, t, k, r, now)
    ensures LeavesBehind(s, t, k, r, now)
  {
    hide OnlyOn, OthersStay;
  }

  // Another record is disposed of: this one does not notice.
  lemma ElsewhereLeavesBehind(s: Store, t: Store, u: Store, j: Key, k: Key, r: Result, now: Time)
    requires k in s.tasks && LeavesBehind(s, t, k, r, now) && j in t.tasks && j != k
    requires u.tasks - {j} == t.tasks - {j} && OthersStay(t.homes, u.homes, j) && KeptWithRecord(t, u, j)
    requires u.locks == t.locks
    requires forall e :: e in t.holds.retainedBy ==> e in u.holds.retainedBy || e.retained.key == j
    ensures LeavesBehind(s, u, k, r, now)
  {
    if k in t.tasks {
      assert k in t.tasks - {j} && (t.tasks - {j})[k] == t.tasks[k];
    }
    if k in u.tasks {
      assert k in u.tasks - {j} && (u.tasks - {j})[k] == u.tasks[k];
    }
  }

  // It is disposed of itself, now that nobody holds it.
  lemma AgainLeavesBehind(s: Store, t: Store, u: Store, k: Key, r: Result, now: Time)
    requires k in s.tasks && LeavesBehind(s, t, k, r, now) && k in t.tasks && u.locks == t.locks
    requires Unheld(u.holds, Identity(k, s.tasks[k].generation)) && t.tasks[k].outcome.Some?
    requires DisposedAs(t.(holds := u.holds), u, k, t.tasks[k].outcome.value, now)
    requires KeptWithRecord(t, u, k)
    ensures LeavesBehind(s, u, k, r, now)
  {
    hide OnlyOn;
  }

  // Only holds changed, and not the last on this record.
  lemma HeldLeavesBehind(s: Store, t: Store, u: Store, k: Key, r: Result, now: Time)
    requires k in s.tasks && LeavesBehind(s, t, k, r, now) && u == t.(holds := u.holds)
    requires !Unheld(t.holds, Identity(k, s.tasks[k].generation)) ==>
      k !in t.tasks || !Unheld(u.holds, Identity(k, s.tasks[k].generation))
    ensures LeavesBehind(s, u, k, r, now)
  {
    hide OnlyOn;
  }

  lemma LetGoLeavesBehind(s: Store, w: World, e: Edge, k: Key, r: Result)
    requires k in s.tasks && LeavesBehind(s, w.store, k, r, w.clock) && Enabled(w, LetGo(e))
    ensures LeavesBehind(s, Apply(w, LetGo(e)).store, k, r, w.clock)
  {
    hide Apply, Enabled, OthersStay, LeavesBehind, DisposedAs, KeptWithRecord;
    LetGoExactly(w, e);
    var t, u, i := w.store, Apply(w, LetGo(e)).store, e.retained;
    if Current(t, i) && t.tasks[i.key].outcome.Some? && Unheld(u.holds, i) {
      if i.key == k {
        LeftIsCurrent(s, t, k, r, w.clock);
        AgainLeavesBehind(s, t, u, k, r, w.clock);
      } else {
        ElsewhereLeavesBehind(s, t, u, i.key, k, r, w.clock);
      }
    } else {
      if k in t.tasks {
        LeftIsCurrent(s, t, k, r, w.clock);
        if i != Identity(k, s.tasks[k].generation) && !Unheld(t.holds, Identity(k, s.tasks[k].generation)) {
          OthersStayHeld(t.holds, u.holds, e, Identity(k, s.tasks[k].generation));
        }
      }
      HeldLeavesBehind(s, t, u, k, r, w.clock);
    }
  }

  lemma OthersStayHeld(h: Holds, g: Holds, e: Edge, i: Identity)
    requires g.retainedBy == h.retainedBy - {e} && e.retained != i && !Unheld(h, i)
    ensures !Unheld(g, i)
  {
    var d :| d in h.retainedBy && d.retained == i;
    assert d in g.retainedBy;
  }

  lemma LeftIsCurrent(s: Store, t: Store, k: Key, r: Result, now: Time)
    requires k in s.tasks && LeavesBehind(s, t, k, r, now) && k in t.tasks
    ensures t.tasks[k].generation == s.tasks[k].generation && t.tasks[k].outcome == Some(r.outcome)
  {
    hide OnlyOn;
  }

  lemma DelistLeavesBehind(s: Store, w: World, holder: Identity, k: Key, r: Result)
    requires k in s.tasks && LeavesBehind(s, w.store, k, r, w.clock) && Enabled(w, Delist(holder))
    ensures LeavesBehind(s, Apply(w, Delist(holder)).store, k, r, w.clock)
  {
    hide OnlyOn;
  }

  // However many holds are given up afterwards, in whatever order.
  lemma {:induction false} FreedLeavesBehind(s: Store, w: World, acts: seq<Action>, k: Key, r: Result)
    requires k in s.tasks && LeavesBehind(s, w.store, k, r, w.clock)
    requires Legal(w, acts) && forall a :: a in acts ==> Frees(a)
    ensures LeavesBehind(s, Run(w, acts).store, k, r, w.clock) && Run(w, acts).log == w.log
    decreases |acts|
  {
    hide LeavesBehind, Enabled, HoldReleased;
    if acts != [] {
      var a := acts[0];
      assert a in acts && forall b :: b in acts[1..] ==> b in acts;
      match a {
        case LetGo(e) => LetGoLeavesBehind(s, w, e, k, r);
        case Delist(holder) => DelistLeavesBehind(s, w, holder, k, r);
      }
      FreedLeavesBehind(s, Apply(w, a), acts[1..], k, r);
    }
  }

  // A settling step followed by the release of the own holds.
  lemma SettlementLeavesBehind(w: World, core: seq<Action>, first: Action, holder: Identity, budget: int, v: World,
                               r: Result)
    requires Reaches(w, core, v) && ThenGivesUp(core, first, w.store.holds, holder, budget)
    requires (first.Fail? || first.Succeed?) && first.key in w.store.tasks
    requires Enabled(w, first) ==> SettledAs(w.store, Apply(w, first).store, first.key, r, w.clock)
    ensures LeavesBehind(w.store, v.store, first.key, r, w.clock) && Enabled(w, first) && v.log == Apply(w, first).log
  {
    hide Enabled, SettledAs, FailedStore, SucceededStore, Yields, LeavesBehind;
    var popped :| Yields(w.store.holds, holder, budget, popped, core[1..]);
    YieldsFrees(w.store.holds, holder, budget, popped, core[1..]);
    SettledLeavesBehind(w.store, Apply(w, first).store, first.key, r, w.clock);
    FreedLeavesBehind(w.store, Apply(w, first), core[1..], first.key, r);
  }

  lemma SuccessLeavesBehind(w: World, core: seq<Action>, k: Key, token: Token, value: Value, budget: int, v: World)
    requires k in w.store.tasks && Reaches(w, core, v)
    requires ThenGivesUp(core, Succeed(k, token, value), w.store.holds, IdentityOf(w.store, k), budget)
    ensures var i, r := Identity(k, w.store.tasks[k].generation), Result(Success, w.clock, Some(value), None);
      LeavesBehind(w.store, v.store, k, r, w.clock) && v.log.settled == w.log.settled[i := r]
  {
    hide Reaches, ThenGivesUp, LeavesBehind, Apply, Enabled, SettledAs;
    if Enabled(w, Succeed(k, token, value)) {
      SucceededExactly(w, k, token, value);
    }
    SettlementLeavesBehind(w, core, Succeed(k, token, value), IdentityOf(w.store, k), budget, v,
                           Result(Success, w.clock, Some(value), None));
  }

  // A failure that is not to be retried settles; any other leaves the task to be retried at its time.
  lemma FailureLeavesBehind(w: World, core: seq<Action>, k: Key, token: Token, error: Error, retryAt: int, budget: int,
                            v: World)
    requires k in w.store.tasks && Reaches(w, core, v) && -1 <= retryAt
    requires FailsThenGivesUp(core, k, token, error, RetryTime(retryAt), w.store, budget)
    ensures var i, r := Identity(k, w.store.tasks[k].generation), Result(Failure, w.clock, None, Some(error));
      if 0 <= retryAt && !error.Canceled? then RetriedAs(w.store, v.store, k, false, retryAt, w.clock) && v.log == w.log
      else LeavesBehind(w.store, v.store, k, r, w.clock) && v.log.settled == w.log.settled[i := r]
  {
    hide ThenGivesUp, LeavesBehind, Apply, Enabled, SettledAs, RetriedAs;
    var first := Fail(k, token, error, RetryTime(retryAt));
    if Enabled(w, first) {
      FailedExactly(w, k, token, error, RetryTime(retryAt));
    }
    if retryAt < 0 || error.Canceled? {
      SettlementLeavesBehind(w, core, first, IdentityOf(w.store, k), budget, v,
                             Result(Failure, w.clock, None, Some(error)));
    } else {
      OneStepReached(w, first, v);
    }
  }

  // The generation is on neither terminal list, whether its record is there or not.
  predicate OffLists(tasks: map<Key, Task>, h: Homes, i: Identity) {
    i.key in tasks && tasks[i.key].generation == i.generation ==> i.key !in h.succeeded && i.key !in h.failed
  }

  // Nobody comes onto a terminal list, and no other task changes.
  ghost predicate UnlistsNobodyElse(before: map<Key, Task>, h: Homes, after: map<Key, Task>, g: Homes, i: Identity) {
    && after.Keys == before.Keys && g.succeeded.Keys <= h.succeeded.Keys && g.failed.Keys <= h.failed.Keys
    && (forall k :: k in after ==> after[k].generation == before[k].generation)
    && (forall k :: k in after && k != i.key ==> after[k] == before[k])
    && (forall k :: k in h.succeeded && k != i.key ==> k in g.succeeded)
    && (forall k :: k in h.failed && k != i.key ==> k in g.failed)
  }

  lemma UnlistedOff(s: Store, i: Identity)
    ensures var t := TerminalUnlisted(s, i);
      && t.kept == s.kept.(terminalExpiry := s.kept.terminalExpiry - {i})
      && OffLists(t.tasks, t.homes, i) && UnlistsNobodyElse(s.tasks, s.homes, t.tasks, t.homes, i)
  {
    hide UnlistsNobodyElse;
    OthersKeepTheirList(s, i);
  }

  lemma OthersKeepTheirList(s: Store, i: Identity)
    ensures var t := TerminalUnlisted(s, i); UnlistsNobodyElse(s.tasks, s.homes, t.tasks, t.homes, i)
  {
    if Current(s, i) && (i.key in s.homes.succeeded || i.key in s.homes.failed) {
      PlaceOnly(s.tasks, i.key);
    }
  }

  lemma PlaceOnly(tasks: map<Key, Task>, k: Key)
    requires k in tasks
    ensures var after := tasks[k := tasks[k].(place := Nowhere)];
      after.Keys == tasks.Keys && forall j :: j in tasks ==> after[j].generation == tasks[j].generation
  {
  }

  ghost predicate AllOffLists(s: Store, batch: seq<Identity>) {
    forall i :: i in batch ==> i !in s.kept.terminalExpiry && OffLists(s.tasks, s.homes, i)
  }

  lemma OffListsStay(s: Store, t: Store, members: seq<Identity>, n: nat)
    requires n < |members| && AllOffLists(s, members[..n])
    requires UnlistsNobodyElse(s.tasks, s.homes, t.tasks, t.homes, members[n]) && OffLists(t.tasks, t.homes, members[n])
    requires t.kept.terminalExpiry == s.kept.terminalExpiry - {members[n]}
    ensures AllOffLists(t, members[..n + 1])
  {
    forall i | i in members[..n + 1] ensures i !in t.kept.terminalExpiry && OffLists(t.tasks, t.homes, i) {
      assert members[..n + 1] == members[..n] + [members[n]];
    }
  }

  // A new record in place of one that made way is as new as any.
  lemma OfferedInPlace(s: Store, u: Store, t: Store, k: Key, options: Options, now: Time)
    requires k in s.tasks && GoneFrom(s, u, k) && OfferedAs(u, t, k, options, now)
    ensures OfferedAs(s, t, k, options, now)
  {
    hide OnlyOn;
    assert u.tasks - {k} == u.tasks;
  }

  lemma OneStepReached(w: World, a: Action, v: World)
    requires Reaches(w, [a], v)
    ensures Enabled(w, a) && v == Apply(w, a)
  {
    hide Enabled, Apply;
    assert Enabled(w, [a][0]);
    RunOne(w, a);
  }
}
