/** A maintenance pass that did not exhaust its budget has left nothing overdue. */
module TaskCatchUp {
  import opened Basics
  import opened TaskModel
  import opened TaskRuns
  import opened TaskInvariant
  import opened TaskRetention
  import opened TaskTheorems
  import opened TaskRest
  import opened TaskUpkeep
  import opened TaskScript

  // ---- delayed tasks --------------------------------------------------------------------

  lemma DisposedScheduled(s: Store, k: Key, now: Time)
    requires k in s.tasks && s.tasks[k].outcome.Some?
    ensures LeasesShrink(s.homes.scheduled, Disposed(s, k, now).homes.scheduled)
  {
  }

  // A stalled attempt never becomes a delayed task: it is retried at once or settles.
  lemma StalledScheduled(s: Store, k: Key, now: nat)
    requires k in s.tasks
    ensures LeasesShrink(s.homes.scheduled,
                         FailedStore(s, k, true, Stalled, StallRetry(s.tasks[k]), now).homes.scheduled)
  {
    var retryAt := StallRetry(s.tasks[k]);
    if !WillRetry(Stalled, retryAt) {
      var t := Failing(s.tasks[k], true, Stalled, retryAt, now);
      var u := WithTask(WithTask(Unlocked(s, k), k, t), k, t.(outcome := Some(Failure)));
      var i := IdentityOf(u, k);
      DisposedScheduled(Enlisted(u.(kept := Filed(u.kept, i, u.tasks[k], Some(Stalled), now)), i, now), k, now);
    }
  }

  lemma LetGoScheduled(s: Store, e: Edge, now: Time)
    ensures LeasesShrink(s.homes.scheduled, HoldReleased(s, e, now).homes.scheduled)
  {
    var t := Loosened(s, e, now);
    if Current(t, e.retained) && t.tasks[e.retained.key].outcome.Some? && !Held(t.holds, e.retained) {
      DisposedScheduled(t, e.retained.key, now);
    }
  }

  lemma PlainScheduled(w: World, a: Action)
    requires Enabled(w, a) && IsUpkeep(a) && !a.Stall? && !a.LetGo?
    ensures LeasesShrink(w.store.homes.scheduled, Apply(w, a).store.homes.scheduled)
    ensures a.Promote? ==> a.key !in Apply(w, a).store.homes.scheduled
  {
    hide Without, FirstWaiting, MayHold, HoldsEnlisted;
  }

  lemma ScheduledStep(w: World, a: Action)
    requires Enabled(w, a) && IsUpkeep(a)
    ensures LeasesShrink(w.store.homes.scheduled, Apply(w, a).store.homes.scheduled) && Apply(w, a).clock == w.clock
    ensures a.Promote? ==> a.key !in Apply(w, a).store.homes.scheduled
  {
    hide FailedStore, HoldReleased, Placed, Deleted;
    if a.Stall? {
      StalledScheduled(w.store, a.key, w.clock);
    } else if a.LetGo? {
      LetGoScheduled(w.store, a.edge, w.clock);
    } else {
      PlainScheduled(w, a);
    }
  }

  lemma {:induction false} ScheduledRun(w: World, acts: seq<Action>)
    requires Legal(w, acts) && AllUpkeep(acts)
    ensures LeasesShrink(w.store.homes.scheduled, Run(w, acts).store.homes.scheduled) && Run(w, acts).clock == w.clock
    ensures forall k :: Promote(k) in acts ==> k !in Run(w, acts).store.homes.scheduled
    decreases |acts|
  {
    hide Enabled, Apply, IsUpkeep;
    if acts != [] {
      assert acts[0] in acts && forall a :: a in acts[1..] ==> a in acts;
      ScheduledStep(w, acts[0]);
      ScheduledRun(Apply(w, acts[0]), acts[1..]);
      forall k | Promote(k) in acts ensures k !in Run(w, acts).store.homes.scheduled {
        assert Promote(k) == acts[0] || Promote(k) in acts[1..];
      }
    }
  }

  // ---- expiry entries -----------------------------------------------------------------------

  // The four expiry indexes, by the number of their sweeper.
  function Index(n: nat, kept: Kept): map<Identity, Time>
    requires 3 <= n < SWEEPERS
  {
    if n == 3 then kept.taskExpiry else if n == 4 then kept.resultExpiry else if n == 5 then kept.terminalExpiry
      else kept.deadLetterExpiry
  }

  predicate OfKind(n: nat, a: Action)
    requires 3 <= n < SWEEPERS
  {
    if n == 3 then OfTasks(a) else if n == 4 then OfResults(a) else if n == 5 then OfTerminals(a) else OfDeadLetters(a)
  }

  predicate Handles(n: nat, a: Action, i: Identity)
    requires 3 <= n < SWEEPERS
  {
    OfKind(n, a) && EntryOf(a) == Some(i)
  }

  // Nothing but entries for this one generation is added, and none is brought forward.
  predicate OnlyAdds(before: Kept, after: Kept, i: Identity) {
    forall n, j ::
      3 <= n < SWEEPERS && j != i && j in Index(n, after) ==>
        j in Index(n, before) && Index(n, after)[j] == Index(n, before)[j]
  }

  lemma DisposedKept(s: Store, k: Key, now: Time, i: Identity)
    requires k in s.tasks && s.tasks[k].outcome.Some?
    ensures OnlyAdds(s.kept, Disposed(s, k, now).kept, i)
  {
  }

  lemma StalledKept(s: Store, k: Key, now: Time)
    requires k in s.tasks
    ensures OnlyAdds(s.kept, FailedStore(s, k, true, Stalled, StallRetry(s.tasks[k]), now).kept, IdentityOf(s, k))
  {
    var retryAt := StallRetry(s.tasks[k]);
    if !WillRetry(Stalled, retryAt) {
      var t := Failing(s.tasks[k], true, Stalled, retryAt, now);
      var u := WithTask(WithTask(Unlocked(s, k), k, t), k, t.(outcome := Some(Failure)));
      var i := IdentityOf(u, k);
      DisposedKept(Enlisted(u.(kept := Filed(u.kept, i, u.tasks[k], Some(Stalled), now)), i, now), k, now, i);
    }
  }

  lemma LetGoKept(s: Store, e: Edge, now: Time, i: Identity)
    ensures OnlyAdds(s.kept, HoldReleased(s, e, now).kept, i)
  {
    var t := Loosened(s, e, now);
    if Current(t, e.retained) && t.tasks[e.retained.key].outcome.Some? && !Held(t.holds, e.retained) {
      DisposedKept(t, e.retained.key, now, i);
    }
  }

  lemma BookkeepingKept(w: World, a: Action)
    requires Enabled(w, a) && (a.Promote? || a.Enlist? || a.Delist?)
    ensures Apply(w, a).store.kept == w.store.kept
  {
    hide Placed, HoldsEnlisted;
  }

  lemma RecordEntry(n: nat, w: World, a: Action, i: Identity)
    requires 3 <= n < SWEEPERS && Enabled(w, a) && (a.ExpireTask? || a.ExpireTerminal?)
    requires DueIn(Index(n, Apply(w, a).store.kept), i, w.clock)
    ensures DueIn(Index(n, w.store.kept), i, w.clock) && !Handles(n, a, i)
  {
    hide Unplaced, Held;
  }

  lemma IndexEntry(n: nat, w: World, a: Action, i: Identity)
    requires 3 <= n < SWEEPERS && Enabled(w, a)
    requires a.PostponeTask? || a.ExpireResult? || a.PostponeResult? || a.ExpireDeadLetter?
    requires DueIn(Index(n, Apply(w, a).store.kept), i, w.clock)
    ensures DueIn(Index(n, w.store.kept), i, w.clock) && !Handles(n, a, i)
  {
    hide Held;
  }

  lemma PlainEntry(n: nat, w: World, a: Action, i: Identity)
    requires 3 <= n < SWEEPERS && Enabled(w, a) && IsUpkeep(a) && !a.Stall? && !a.LetGo?
    requires DueIn(Index(n, Apply(w, a).store.kept), i, w.clock)
    ensures DueIn(Index(n, w.store.kept), i, w.clock) && !Handles(n, a, i)
  {
    hide Enabled, Apply, Index, DueIn;
    if a.Promote? || a.Enlist? || a.Delist? {
      BookkeepingKept(w, a);
    } else if a.ExpireTask? || a.ExpireTerminal? {
      RecordEntry(n, w, a, i);
    } else {
      IndexEntry(n, w, a, i);
    }
  }

  // An entry of something settled that is due after a step was due before it, and was not what the step handled.
  lemma EntryStep(n: nat, w: World, a: Action, i: Identity)
    requires 3 <= n < SWEEPERS && Inv(w) && Enabled(w, a) && IsUpkeep(a) && i in w.log.settled
    requires DueIn(Index(n, Apply(w, a).store.kept), i, w.clock)
    ensures DueIn(Index(n, w.store.kept), i, w.clock) && !Handles(n, a, i)
  {
    hide FailedStore, HoldReleased, Inv;
    if a.Stall? {
      SettlesTheUnsettled(w, a);
      StalledKept(w.store, a.key, w.clock);
    } else if a.LetGo? {
      LetGoKept(w.store, a.edge, w.clock, Identity(i.key, i.generation + 1));
    } else {
      PlainEntry(n, w, a, i);
    }
  }

  lemma {:induction false} EntryRun(n: nat, w: World, acts: seq<Action>, i: Identity)
    requires 3 <= n < SWEEPERS && Inv(w) && Legal(w, acts) && AllUpkeep(acts) && i in w.log.settled
    ensures Run(w, acts).clock == w.clock && i in Run(w, acts).log.settled
    ensures DueIn(Index(n, Run(w, acts).store.kept), i, w.clock) ==>
      DueIn(Index(n, w.store.kept), i, w.clock) && forall a :: a in acts ==> !Handles(n, a, i)
    decreases |acts|
  {
    hide Inv, Enabled, Apply, Handles, Index, IsUpkeep, DueIn;
    if acts != [] {
      var a, v := acts[0], Apply(w, acts[0]);
      assert a in acts && forall b :: b in acts[1..] ==> b in acts;
      UpkeepStepShrinks(w, a);
      StepKeepsInv(w, a);
      SettledStays(w, a);
      EntryRun(n, v, acts[1..], i);
      if DueIn(Index(n, v.store.kept), i, w.clock) {
        EntryStep(n, w, a, i);
      }
    }
  }

  // ---- what a sweeper leaves behind -------------------------------------------------------------

  // Nothing this sweeper looks after is overdue in the queue; of expiry entries, those of generations settled
  // beforehand.
  ghost predicate Clear(n: nat, q: Queue, settled: set<Identity>, w: World) {
    if n == 0 then forall k :: k in w.store.homes.scheduled && k.queue == q ==> w.clock < w.store.homes.scheduled[k]
    else if n == 1 then ExpiredIn(w.store.homes.active, q, w.clock) == {}
    else if 3 <= n < SWEEPERS then forall i ::
      i in settled && i.key.queue == q ==> !DueIn(Index(n, w.store.kept), i, w.clock)
    else true
  }

  lemma ClearStays(n: nat, q: Queue, settled: set<Identity>, w: World, acts: seq<Action>, v: World, spent: int)
    requires Sound(w) && Swept(w, acts, v, spent) && Clear(n, q, settled, w)
    requires forall i :: i in settled ==> i in w.log.settled
    ensures Clear(n, q, settled, v)
  {
    hide Index, DueIn, Legal;
    if n == 0 {
      ScheduledRun(w, acts);
    } else if n == 1 {
      SweptShrinks(w, acts, v, spent);
    } else if 3 <= n < SWEEPERS {
      forall i | i in settled && i.key.queue == q ensures !DueIn(Index(n, v.store.kept), i, v.clock) {
        EntryRun(n, w, acts, i);
      }
    }
  }

  lemma DueIsBatched(index: map<Key, Time>, q: Queue, now: Time, limit: nat, batch: seq<Key>)
    requires IsDueBatch(OfQueue(index, q), now, limit, batch) && |batch| < limit
    ensures forall k :: k in index && k.queue == q && index[k] <= now ==> k in batch
  {
    forall k | k in index && k.queue == q && index[k] <= now ensures k in batch {
      assert k in OfQueue(index, q);
    }
  }

  lemma PromotedIsClear(q: Queue, settled: set<Identity>, w: World, acts: seq<Action>, v: World, spent: int,
                        limit: nat, batch: seq<Key>)
    requires Swept(w, acts, v, spent) && IsDueBatch(OfQueue(w.store.homes.scheduled, q), w.clock, limit, batch)
    requires |batch| < limit
    requires |acts| == |batch| && forall i :: 0 <= i < |batch| ==> acts[i] == Promote(batch[i])
    ensures Clear(0, q, settled, v)
  {
    ScheduledRun(w, acts);
    DueIsBatched(w.store.homes.scheduled, q, w.clock, limit, batch);
    forall k | k in batch ensures Promote(k) in acts {
      var i :| 0 <= i < |batch| && batch[i] == k;
      assert acts[i] == Promote(k);
    }
  }

  lemma StalledIsClear(q: Queue, settled: set<Identity>, w: World, acts: seq<Action>, v: World, spent: int,
                       limit: nat, batch: seq<Key>)
    requires Swept(w, acts, v, spent) && IsDueBatch(OfQueue(w.store.homes.active, q), w.clock, limit, batch)
    requires |batch| < limit
    requires StallsBatch(batch, acts)
    ensures Clear(1, q, settled, v)
  {
    UpkeepShrinks(w, acts);
    DueIsBatched(w.store.homes.active, q, w.clock, limit, batch);
  }

  lemma DueEntryIsBatched(index: map<Identity, Time>, q: Queue, now: Time, limit: nat, batch: seq<Identity>,
                          i: Identity)
    requires IsDueBatch(OfQueueIdentities(index, q), now, limit, batch) && |batch| < limit && DueIn(index, i, now)
    requires i.key.queue == q
    ensures i in batch
  {
    assert i in OfQueueIdentities(index, q);
  }

  function KindOf(n: nat): Action -> bool
    requires 3 <= n < SWEEPERS
  {
    if n == 3 then OfTasks else if n == 4 then OfResults else if n == 5 then OfTerminals else OfDeadLetters
  }

  // An expiry sweep that found fewer entries than it had budget for left none overdue.
  lemma SweptIndexIsClear(n: nat, q: Queue, settled: set<Identity>, w: World, acts: seq<Action>, v: World, spent: int,
                          limit: nat, batch: seq<Identity>)
    requires 3 <= n < SWEEPERS && Sound(w) && Swept(w, acts, v, spent)
    requires forall i :: i in settled ==> i in w.log.settled
    requires IsDueBatch(OfQueueIdentities(Index(n, w.store.kept), q), w.clock, limit, batch) && |batch| < limit
    requires ExpiresBatch(batch, acts, KindOf(n))
    ensures Clear(n, q, settled, v)
  {
    hide Sound, Swept, IsDueBatch, Clear, Index;
    ExpiredIsClear(n, q, settled, w, acts, v, spent, limit, batch);
  }

  lemma ExpiredIsClear(n: nat, q: Queue, settled: set<Identity>, w: World, acts: seq<Action>, v: World, spent: int,
                       limit: nat, batch: seq<Identity>)
    requires 3 <= n < SWEEPERS && Sound(w) && Swept(w, acts, v, spent)
    requires forall i :: i in settled ==> i in w.log.settled
    requires IsDueBatch(OfQueueIdentities(Index(n, w.store.kept), q), w.clock, limit, batch) && |batch| < limit
    requires |acts| == |batch| && forall j :: 0 <= j < |batch| ==> Handles(n, acts[j], batch[j])
    ensures Clear(n, q, settled, v)
  {
    hide Index, Handles, Legal, Sound, IsDueBatch, DueIn;
    SoundIsInv(w);
    forall i | i in batch ensures exists a :: a in acts && Handles(n, a, i) {
      var j :| 0 <= j < |batch| && batch[j] == i;
      assert acts[j] in acts && Handles(n, acts[j], i);
    }
    forall i | i in settled && i.key.queue == q && DueIn(Index(n, w.store.kept), i, w.clock) ensures i in batch {
      DueEntryIsBatched(Index(n, w.store.kept), q, w.clock, limit, batch, i);
    }
    forall i | i in settled && i.key.queue == q ensures !DueIn(Index(n, v.store.kept), i, v.clock) {
      EntryRun(n, w, acts, i);
    }
  }

  // ---- a whole pass -----------------------------------------------------------------------------------

  // Every sweeper found everything it looks after, except that one holder at a time gives up its holds.
  ghost predicate CaughtUp(q: Queue, settled: set<Identity>, w: World) {
    forall n: nat :: n < SWEEPERS ==> Clear(n, q, settled, w)
  }

  // Nothing of this queue is overdue: no delayed task, no lease, and no expiry entry of any kind.
  ghost predicate NothingDue(q: Queue, s: Store, now: Time) {
    && (forall k :: k in s.homes.scheduled && k.queue == q ==> now < s.homes.scheduled[k])
    && (forall k :: k in s.homes.active && k.queue == q ==> now < s.homes.active[k])
    && (forall i :: i in s.kept.taskExpiry && i.key.queue == q ==> now < s.kept.taskExpiry[i])
    && (forall i :: i in s.kept.resultExpiry && i.key.queue == q ==> now < s.kept.resultExpiry[i])
    && (forall i :: i in s.kept.terminalExpiry && i.key.queue == q ==> now < s.kept.terminalExpiry[i])
    && (forall i :: i in s.kept.deadLetterExpiry && i.key.queue == q ==> now < s.kept.deadLetterExpiry[i])
  }

  // Expiry entries are kept for settled generations only.
  lemma EntriesAreSettled(n: nat, w: World, i: Identity)
    requires Sound(w) && 3 <= n < SWEEPERS && i in Index(n, w.store.kept)
    ensures i in w.log.settled
  {
    assert n == 4 ==> i in w.store.kept.resultExpiry.Keys && i in w.store.kept.results;
  }

  lemma ClearIndexIsNotDue(n: nat, q: Queue, w: World, i: Identity)
    requires Sound(w) && 3 <= n < SWEEPERS && Clear(n, q, w.log.settled.Keys, w)
    requires i in Index(n, w.store.kept) && i.key.queue == q
    ensures w.clock < Index(n, w.store.kept)[i]
  {
    hide Sound, Index;
    EntriesAreSettled(n, w, i);
    assert !DueIn(Index(n, w.store.kept), i, w.clock);
  }

  lemma ClearIndexesAreNotDue(q: Queue, w: World)
    requires Sound(w) && forall n: nat :: 3 <= n < SWEEPERS ==> Clear(n, q, w.log.settled.Keys, w)
    ensures forall n, i :: 3 <= n < SWEEPERS && i in Index(n, w.store.kept) && i.key.queue == q ==>
      w.clock < Index(n, w.store.kept)[i]
  {
    hide Sound, Index, Clear;
    forall n, i | 3 <= n < SWEEPERS && i in Index(n, w.store.kept) && i.key.queue == q
      ensures w.clock < Index(n, w.store.kept)[i]
    {
      ClearIndexIsNotDue(n, q, w, i);
    }
  }

  // Caught up with everything ever settled, nothing is overdue, whatever it belongs to.
  lemma CaughtUpIsNothingDue(q: Queue, w: World)
    requires Sound(w) && CaughtUp(q, w.log.settled.Keys, w)
    ensures NothingDue(q, w.store, w.clock)
  {
    hide Sound;
    ClearIndexesAreNotDue(q, w);
    var kept := w.store.kept;
    assert Index(3, kept) == kept.taskExpiry && Index(4, kept) == kept.resultExpiry;
    assert Index(5, kept) == kept.terminalExpiry && Index(6, kept) == kept.deadLetterExpiry;
    assert Clear(0, q, w.log.settled.Keys, w) && Clear(1, q, w.log.settled.Keys, w);
    forall k | k in w.store.homes.active && k.queue == q ensures w.clock < w.store.homes.active[k] {
      assert k !in ExpiredIn(w.store.homes.active, q, w.clock);
    }
  }

  // Whose turn it is, so many turns after the cursor.
  function Turn(cursor: nat, turns: nat): nat {
    (cursor + turns) % SWEEPERS
  }

  // The sweepers that have had their turn.
  ghost predicate ClearSoFar(q: Queue, settled: set<Identity>, w: World, cursor: nat, turns: nat) {
    forall o: nat :: o < turns ==> Clear(Turn(cursor, o), q, settled, w)
  }

  lemma AllTurnsCatchUp(q: Queue, settled: set<Identity>, w: World, cursor: nat)
    requires ClearSoFar(q, settled, w, cursor, SWEEPERS) && cursor < SWEEPERS
    ensures CaughtUp(q, settled, w)
  {
    forall n: nat | n < SWEEPERS ensures Clear(n, q, settled, w) {
      var o := (n + SWEEPERS - cursor) % SWEEPERS;
      assert Turn(cursor, o) == n;
    }
  }

  // No holder was added to those listed for release, and if there were any, there is one less.
  ghost predicate ReleasesGoOn(q: Queue, before: Holds, after: Holds) {
    ListsNobodyNew(before.continuation, after.continuation) && ListsFewer(q, before.continuation, after.continuation)
  }

  ghost predicate ListedSoFar(q: Queue, before: Holds, after: Holds, cursor: nat, turns: nat) {
    && ListsNobodyNew(before.continuation, after.continuation)
    && ((exists o: nat :: o < turns && Turn(cursor, o) == 2) ==> ListsFewer(q, before.continuation, after.continuation))
  }

  lemma NoneListedYet(q: Queue, h: Holds, cursor: nat)
    ensures ListedSoFar(q, h, h, cursor, 0)
  {
  }

  lemma OneMoreListed(q: Queue, h0: Holds, h1: Holds, h2: Holds, cursor: nat, turns: nat)
    requires ListedSoFar(q, h0, h1, cursor, turns) && ListsNobodyNew(h1.continuation, h2.continuation)
    requires Turn(cursor, turns) == 2 ==> ListsFewer(q, h1.continuation, h2.continuation)
    ensures ListedSoFar(q, h0, h2, cursor, turns + 1)
  {
    if (exists o: nat :: o < turns && Turn(cursor, o) == 2) || Turn(cursor, turns) == 2 {
      FewerLater(q, h0.continuation, h1.continuation, h2.continuation);
    }
  }

  lemma AllTurnsRelease(q: Queue, before: Holds, after: Holds, cursor: nat)
    requires ListedSoFar(q, before, after, cursor, SWEEPERS) && cursor < SWEEPERS
    ensures ReleasesGoOn(q, before, after)
  {
    var o := (2 + SWEEPERS - cursor) % SWEEPERS;
    assert Turn(cursor, o) == 2;
  }

  lemma OneMoreTurn(q: Queue, settled: set<Identity>, w: World, acts: seq<Action>, v: World, spent: int, cursor: nat,
                    turns: nat)
    requires Sound(w) && Swept(w, acts, v, spent) && forall i :: i in settled ==> i in w.log.settled
    requires ClearSoFar(q, settled, w, cursor, turns) && Clear(Turn(cursor, turns), q, settled, v)
    ensures ClearSoFar(q, settled, v, cursor, turns + 1)
  {
    hide Clear, Sound, Swept;
    forall o: nat | o < turns + 1 ensures Clear(Turn(cursor, o), q, settled, v) {
      if o < turns {
        ClearStays(Turn(cursor, o), q, settled, w, acts, v, spent);
      }
    }
  }

  lemma SweptSettles(w: World, acts: seq<Action>, v: World, spent: int)
    requires Sound(w) && Swept(w, acts, v, spent)
    ensures forall i :: i in w.log.settled ==> i in v.log.settled
  {
    hide Index, DueIn, Legal, Sound;
    SoundIsInv(w);
    forall i | i in w.log.settled ensures i in v.log.settled {
      EntryRun(3, w, acts, i);
    }
  }
}
