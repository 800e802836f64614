/** Maintenance of the task queues as runs: which steps it may take, what they cost, and that it adds no lease. */
module TaskUpkeep {
  import opened Basics
  import opened SortedIndex
  import opened TaskModel
  import opened TaskRuns
  import opened TaskInvariant
  import opened TaskRetention
  import opened TaskMirror
  import opened TaskRest

  // ---- scripts as runs ------------------------------------------------------------------

  ghost predicate Reaches(w: World, acts: seq<Action>, v: World) {
    Legal(w, acts) && v == Run(w, acts)
  }

  lemma ReachesNone(w: World)
    ensures Reaches(w, [], w)
  {
  }

  lemma ReachesMore(w: World, xs: seq<Action>, v: World, ys: seq<Action>, u: World)
    requires Reaches(w, xs, v) && Reaches(v, ys, u)
    ensures Reaches(w, xs + ys, u)
  {
    RunAppend(w, xs, ys);
  }

  lemma ReachesOne(w: World, a: Action)
    requires Enabled(w, a)
    ensures Reaches(w, [a], Apply(w, a))
  {
  }

  lemma ReachesSound(w: World, acts: seq<Action>, v: World)
    requires Sound(w) && Reaches(w, acts, v)
    ensures Sound(v)
  {
    RunIsSound(w, acts);
  }

  // ---- cost -----------------------------------------------------------------------------

  // Index maintenance costs one unit of the work budget a step; bookkeeping of the continuation index is free.
  function CostOf(a: Action): nat {
    if a.Promote? || a.Stall? || a.LetGo? || a.ExpireTask? || a.PostponeTask? || a.ExpireResult? || a.PostponeResult?
       || a.ExpireTerminal? || a.ExpireDeadLetter? then 1 else 0
  }

  function Cost(acts: seq<Action>): nat {
    if acts == [] then 0 else CostOf(acts[0]) + Cost(acts[1..])
  }

  lemma {:induction false} CostAppend(xs: seq<Action>, ys: seq<Action>)
    ensures Cost(xs + ys) == Cost(xs) + Cost(ys)
    decreases |xs|
  {
    if xs == [] {
      assert xs + ys == ys;
    } else {
      assert (xs + ys)[0] == xs[0] && (xs + ys)[1..] == xs[1..] + ys;
      CostAppend(xs[1..], ys);
    }
  }

  // ---- what maintenance may do ------------------------------------------------------------

  predicate IsUpkeep(a: Action) {
    CostOf(a) == 1 || a.Enlist? || a.Delist?
  }

  ghost predicate AllUpkeep(acts: seq<Action>) {
    forall a :: a in acts ==> IsUpkeep(a)
  }

  function Releases(freed: seq<Edge>): seq<Action> {
    if freed == [] then [] else [LetGo(freed[0])] + Releases(freed[1..])
  }

  lemma {:induction false} ReleasesAppend(freed: seq<Edge>, e: Edge)
    ensures Releases(freed + [e]) == Releases(freed) + [LetGo(e)]
    decreases |freed|
  {
    if freed == [] {
      assert freed + [e] == [e] && [e][1..] == [];
    } else {
      assert (freed + [e])[0] == freed[0] && (freed + [e])[1..] == freed[1..] + [e];
      ReleasesAppend(freed[1..], e);
    }
  }

  lemma {:induction false} ReleasesCost(freed: seq<Edge>)
    ensures Cost(Releases(freed)) == |freed| && AllUpkeep(Releases(freed))
    decreases |freed|
  {
    if freed != [] {
      ReleasesCost(freed[1..]);
      assert ([LetGo(freed[0])] + Releases(freed[1..]))[1..] == Releases(freed[1..]);
    }
  }

  // Holds are given up one by one; the continuation entry goes with the last.
  function Release(freed: seq<Edge>, holder: Identity, last: bool): seq<Action> {
    Releases(freed) + if last then [Delist(holder)] else []
  }

  lemma ReleaseCost(freed: seq<Edge>, holder: Identity, last: bool)
    ensures Cost(Release(freed, holder, last)) == |freed| && AllUpkeep(Release(freed, holder, last))
  {
    ReleasesCost(freed);
    CostAppend(Releases(freed), if last then [Delist(holder)] else []);
    assert [Delist(holder)][1..] == [];
  }

  // A stretch of maintenance: a legal run of maintenance steps that spent this much of the budget.
  ghost predicate Swept(w: World, acts: seq<Action>, v: World, spent: int) {
    Reaches(w, acts, v) && AllUpkeep(acts) && Cost(acts) == spent
  }

  lemma SweptNone(w: World)
    ensures Swept(w, [], w, 0)
  {
  }

  lemma SweptMore(w: World, xs: seq<Action>, v: World, a: int, ys: seq<Action>, u: World, b: int)
    requires Swept(w, xs, v, a) && Swept(v, ys, u, b)
    ensures Swept(w, xs + ys, u, a + b)
  {
    ReachesMore(w, xs, v, ys, u);
    CostAppend(xs, ys);
    assert forall x :: x in xs + ys ==> x in xs || x in ys;
  }

  // A legal run, maintenance or not, that spent this much of the budget.
  ghost predicate Spends(w: World, acts: seq<Action>, v: World, spent: int) {
    Reaches(w, acts, v) && Cost(acts) == spent
  }

  lemma SpendsNone(w: World)
    ensures Spends(w, [], w, 0)
  {
  }

  lemma SpendsMore(w: World, xs: seq<Action>, v: World, a: int, ys: seq<Action>, u: World, b: int)
    requires Spends(w, xs, v, a) && Spends(v, ys, u, b)
    ensures Spends(w, xs + ys, u, a + b)
  {
    ReachesMore(w, xs, v, ys, u);
    CostAppend(xs, ys);
  }

  lemma SpendsOne(w: World, a: Action)
    requires Enabled(w, a)
    ensures Spends(w, [a], Apply(w, a), CostOf(a))
  {
  }

  lemma SpendsReaches(w: World, acts: seq<Action>, v: World, spent: int)
    requires Spends(w, acts, v, spent)
    ensures Reaches(w, acts, v)
  {
  }

  lemma SpendsSound(w: World, acts: seq<Action>, v: World, spent: int)
    requires Sound(w) && Spends(w, acts, v, spent)
    ensures Sound(v)
  {
    hide Sound;
    ReachesSound(w, acts, v);
  }

  // Nobody who still works begins to give up its holds, except to be gone at the end.
  ghost predicate Parts(core: seq<Action>, s: Store) {
    forall h :: Leave(h) in core ==> !Unsettled(s, h)
  }

  // A script: the clock is read, maintenance runs, then the operation itself, all within one budget; only a removal
  // takes holds from a task at work, and then that task is gone with them.
  ghost predicate Script(w: World, time: nat, batch: nat, upkeep: seq<Action>, core: seq<Action>, v: World) {
    && Reaches(w, [Tick(time)] + upkeep + core, v) && AllUpkeep(upkeep) && Cost(upkeep + core) <= batch
    && Parts(core, v.store)
  }

  lemma ScriptEnds(w: World, time: nat, batch: nat, upkeep: seq<Action>, v: World, left: nat, core: seq<Action>,
                   u: World, spent: int)
    requires Sound(w) && Rested(w.store)
    requires Reaches(w, [Tick(time)] + upkeep, v) && AllUpkeep(upkeep) && Cost(upkeep) + left == batch
    requires Spends(v, core, u, spent) && spent <= left && Parts(core, u.store)
    ensures Script(w, time, batch, upkeep, core, u) && Sound(u) && Rested(u.store)
  {
    hide Sound;
    ReachesMore(w, [Tick(time)] + upkeep, v, core, u);
    CostAppend(upkeep, core);
    ReachesSound(w, [Tick(time)] + upkeep + core, u);
    ScriptRests(w, time, batch, upkeep, core, u);
  }

  // Nothing but maintenance.
  lemma ScriptStops(w: World, time: nat, batch: nat, upkeep: seq<Action>, v: World, left: nat)
    requires Sound(w) && Rested(w.store)
    requires Reaches(w, [Tick(time)] + upkeep, v) && AllUpkeep(upkeep) && Cost(upkeep) + left == batch
    ensures Script(w, time, batch, upkeep, [], v) && Sound(v) && Rested(v.store)
  {
    hide Sound, Rested, Reaches;
    SpendsNone(v);
    ScriptEnds(w, time, batch, upkeep, v, left, [], v, 0);
  }

  // After a script, as before it, nobody at work is listed for giving up its holds.
  lemma ScriptRests(w: World, time: nat, batch: nat, upkeep: seq<Action>, core: seq<Action>, v: World)
    requires Sound(w) && Rested(w.store) && Script(w, time, batch, upkeep, core, v)
    ensures Rested(v.store)
  {
    hide Sound, Unsettled, Legal;
    forall h | h in v.store.holds.continuation ensures !Unsettled(v.store, h) {
      if Unsettled(v.store, h) {
        RunRests(w, [Tick(time)] + upkeep + core, h);
        assert false;
      }
    }
  }

  lemma SweptRests(w: World, acts: seq<Action>, v: World, spent: int)
    requires Sound(w) && Rested(w.store) && Swept(w, acts, v, spent)
    ensures Rested(v.store)
  {
    hide Sound, Unsettled, Legal;
    forall h | h in v.store.holds.continuation ensures !Unsettled(v.store, h) {
      if Unsettled(v.store, h) {
        RunRests(w, acts, h);
      }
    }
  }

  lemma TickRests(w: World, time: nat)
    requires Rested(w.store) && w.clock <= time
    ensures Rested(Apply(w, Tick(time)).store)
  {
  }

  lemma PartsNobody(core: seq<Action>, s: Store)
    requires forall a :: a in core ==> !a.Leave?
    ensures Parts(core, s)
  {
  }

  // ---- one call after another --------------------------------------------------------------

  // One call of an operation: when, within which budget, and the steps it came to.
  datatype Call = Call(time: nat, batch: nat, upkeep: seq<Action>, core: seq<Action>)

  function StepsIn(c: Call): seq<Action> {
    [Tick(c.time)] + c.upkeep + c.core
  }

  ghost predicate Serving(w: World, c: Call) {
    Legal(w, StepsIn(c)) && Script(w, c.time, c.batch, c.upkeep, c.core, Run(w, StepsIn(c)))
  }

  // Each call is a script on the state the calls before it left.
  ghost predicate Serves(w: World, calls: seq<Call>)
    decreases |calls|
  {
    calls == [] || (Serving(w, calls[0]) && Serves(Run(w, StepsIn(calls[0])), calls[1..]))
  }

  ghost function After(w: World, calls: seq<Call>): World
    requires Serves(w, calls)
    decreases |calls|
  {
    if calls == [] then w else After(Run(w, StepsIn(calls[0])), calls[1..])
  }

  function AllSteps(calls: seq<Call>): seq<Action> {
    if calls == [] then [] else StepsIn(calls[0]) + AllSteps(calls[1..])
  }

  // Whatever holds of every run holds of every sequence of calls; and between calls nobody at work gives up its holds.
  lemma {:induction false} ServedIsRun(w: World, calls: seq<Call>)
    requires Sound(w) && Rested(w.store) && Serves(w, calls)
    ensures Reaches(w, AllSteps(calls), After(w, calls))
    ensures Sound(After(w, calls)) && Rested(After(w, calls).store)
    decreases |calls|
  {
    hide Sound, Rested, Legal;
    if calls == [] {
      ReachesNone(w);
    } else {
      var c, v := calls[0], Run(w, StepsIn(calls[0]));
      ReachesSound(w, StepsIn(c), v);
      ScriptRests(w, c.time, c.batch, c.upkeep, c.core, v);
      ServedIsRun(v, calls[1..]);
      ReachesMore(w, StepsIn(c), v, AllSteps(calls[1..]), After(v, calls[1..]));
    }
  }

  lemma SweptStep(w: World, xs: seq<Action>, v: World, spent: int, a: Action)
    requires Swept(w, xs, v, spent) && Enabled(v, a) && IsUpkeep(a)
    ensures Swept(w, xs + [a], Apply(v, a), spent + CostOf(a))
  {
    ReachesOne(v, a);
    assert Cost([a]) == CostOf(a) by { assert [a][1..] == []; }
    SweptMore(w, xs, v, spent, [a], Apply(v, a), CostOf(a));
  }

  // ---- due entries ---------------------------------------------------------------------------

  function OfQueue(index: map<Key, Time>, q: Queue): map<Key, Time> {
    map k | k in index && k.queue == q :: index[k]
  }

  function OfQueueIdentities(index: map<Identity, Time>, q: Queue): map<Identity, Time> {
    map i | i in index && i.key.queue == q :: index[i]
  }

  // The first entries due, as many as the limit allows: lowest scores first, ties in any order.
  ghost predicate IsDueBatch<K(!new)>(index: map<K, Time>, now: Time, limit: nat, keys: seq<K>) {
    && (forall k :: k in keys ==> k in index && index[k] <= now)
    && Distinct(keys) && SortedBy(index, keys) && |keys| <= limit
    && (|keys| < limit ==> forall k :: k in index && index[k] <= now ==> k in keys)
    && (forall k, j :: k in keys && j in index && index[j] < index[k] ==> j in keys)
  }

  // ---- holders listed for release --------------------------------------------------------------

  // Nobody is listed who was not.
  predicate ListsNobodyNew(before: map<Identity, Time>, after: map<Identity, Time>) {
    forall h :: h in after ==> h in before
  }

  lemma ListsNobodyLater(x: map<Identity, Time>, y: map<Identity, Time>, z: map<Identity, Time>)
    requires ListsNobodyNew(x, y) && ListsNobodyNew(y, z)
    ensures ListsNobodyNew(x, z)
  {
  }

  lemma ListsTheSame(continuation: map<Identity, Time>)
    ensures ListsNobodyNew(continuation, continuation)
  {
  }

  // If anybody of this queue was listed, somebody is no more.
  ghost predicate ListsFewer(q: Queue, before: map<Identity, Time>, after: map<Identity, Time>) {
    (exists h :: h in before && h.key.queue == q) ==> exists h :: h in before && h.key.queue == q && h !in after
  }

  // The first of a queue is off the list, or there was none.
  lemma FirstIsOff(q: Queue, before: map<Identity, Time>, after: map<Identity, Time>, first: Option<Identity>)
    requires first.None? ==> OfQueueIdentities(before, q) == map[]
    requires first.Some? ==> first.value in OfQueueIdentities(before, q) && first.value !in after
    ensures ListsFewer(q, before, after)
  {
    if h :| h in before && h.key.queue == q {
      assert h in OfQueueIdentities(before, q);
    }
  }

  lemma FewerLater(q: Queue, x: map<Identity, Time>, y: map<Identity, Time>, z: map<Identity, Time>)
    requires ListsNobodyNew(x, y) && ListsNobodyNew(y, z) && (ListsFewer(q, x, y) || ListsFewer(q, y, z))
    ensures ListsNobodyNew(x, z) && ListsFewer(q, x, z)
  {
    if h :| h in x && h.key.queue == q && h in y {
      assert ListsFewer(q, x, y) ==> exists g :: g in x && g.key.queue == q && g !in y && g !in z;
    }
  }

  // ---- expired leases ----------------------------------------------------------------------------

  function ExpiredIn(active: map<Key, Time>, q: Queue, now: Time): set<Key> {
    set k | k in active && k.queue == q && active[k] <= now
  }

  // No lease appears and no deadline moves.
  predicate LeasesShrink(before: map<Key, Time>, after: map<Key, Time>) {
    forall k :: k in after ==> k in before && after[k] == before[k]
  }

  lemma DisposedActive(s: Store, k: Key, now: Time)
    requires k in s.tasks && s.tasks[k].outcome.Some?
    ensures Disposed(s, k, now).homes.active == s.homes.active - {k}
  {
  }

  lemma FailedActive(s: Store, k: Key, stall: bool, error: Error, retryAt: Option<Time>, now: Time)
    requires k in s.tasks
    ensures FailedStore(s, k, stall, error, retryAt, now).homes.active == s.homes.active - {k}
  {
    if !WillRetry(error, retryAt) {
      var t := Failing(s.tasks[k], stall, error, retryAt, now);
      var u := WithTask(WithTask(Unlocked(s, k), k, t), k, t.(outcome := Some(Failure)));
      var i := IdentityOf(u, k);
      DisposedActive(Enlisted(u.(kept := Filed(u.kept, i, u.tasks[k], Some(error), now)), i, now), k, now);
    }
  }

  lemma UpkeepStepShrinks(w: World, a: Action)
    requires Enabled(w, a) && IsUpkeep(a)
    ensures LeasesShrink(w.store.homes.active, Apply(w, a).store.homes.active)
    ensures a.Stall? ==> a.key !in Apply(w, a).store.homes.active
    ensures Apply(w, a).clock == w.clock
  {
    hide FailedStore, HoldReleased, Placed, Deleted;
    if a.Stall? {
      FailedActive(w.store, a.key, true, Stalled, StallRetry(w.store.tasks[a.key]), w.clock);
    } else if a.LetGo? {
      LetGoActive(w.store, a.edge, w.clock);
    } else {
      PlainUpkeepActive(w, a);
    }
  }

  lemma PlainUpkeepActive(w: World, a: Action)
    requires Enabled(w, a) && IsUpkeep(a) && !a.Stall? && !a.LetGo?
    ensures LeasesShrink(w.store.homes.active, Apply(w, a).store.homes.active) && Apply(w, a).clock == w.clock
  {
    hide Without, FirstWaiting, MayHold, HoldsEnlisted;
  }

  lemma LetGoActive(s: Store, e: Edge, now: Time)
    ensures LeasesShrink(s.homes.active, HoldReleased(s, e, now).homes.active)
  {
    var t := Loosened(s, e, now);
    if Current(t, e.retained) && t.tasks[e.retained.key].outcome.Some? && !Held(t.holds, e.retained) {
      DisposedActive(t, e.retained.key, now);
    }
  }

  lemma {:induction false} UpkeepShrinks(w: World, acts: seq<Action>)
    requires Legal(w, acts) && AllUpkeep(acts)
    ensures LeasesShrink(w.store.homes.active, Run(w, acts).store.homes.active) && Run(w, acts).clock == w.clock
    ensures forall k :: Stall(k) in acts ==> k !in Run(w, acts).store.homes.active
    decreases |acts|
  {
    if acts != [] {
      assert acts[0] in acts && forall a :: a in acts[1..] ==> a in acts;
      UpkeepStepShrinks(w, acts[0]);
      UpkeepShrinks(Apply(w, acts[0]), acts[1..]);
      forall k | Stall(k) in acts ensures k !in Run(w, acts).store.homes.active {
        assert Stall(k) == acts[0] || Stall(k) in acts[1..];
      }
    }
  }

  // A batch of expired leases gone from the active list leaves that many fewer.
  lemma FewerExpired(before: map<Key, Time>, after: map<Key, Time>, q: Queue, now: Time, limit: nat, keys: seq<Key>)
    requires LeasesShrink(before, after) && IsDueBatch(OfQueue(before, q), now, limit, keys)
    requires forall k :: k in keys ==> k !in after
    ensures ExpiredIn(after, q, now) <= ExpiredIn(before, q, now)
    ensures ExpiredIn(after, q, now) == {} || |ExpiredIn(after, q, now)| + limit <= |ExpiredIn(before, q, now)|
  {
    var gone := set k | k in keys;
    var x, y := ExpiredIn(before, q, now), ExpiredIn(after, q, now);
    assert y <= x;
    if |keys| < limit {
      assert y == {};
    } else {
      forall k | k in gone ensures k in x && k !in y {
        assert k in OfQueue(before, q);
      }
      SetOfDistinct(keys);
      assert gone !! y && gone + y <= x;
      SubsetCount(gone + y, x);
    }
  }

  lemma {:induction false} SetOfDistinct<K>(keys: seq<K>)
    requires Distinct(keys)
    ensures |set k | k in keys| == |keys|
    decreases |keys|
  {
    if keys != [] {
      var front, last := keys[..|keys| - 1], keys[|keys| - 1];
      SetOfDistinct(front);
      assert (set k | k in keys) == (set k | k in front) + {last} by {
        assert keys == front + [last];
      }
      assert last !in front;
    }
  }

  lemma {:induction false} SubsetCount<K>(x: set<K>, y: set<K>)
    requires x <= y
    ensures |x| <= |y|
    decreases |x|
  {
    if x != {} {
      var k :| k in x;
      SubsetCount(x - {k}, y - {k});
    }
  }

  const SWEEPERS: nat := 7

  lemma SweptShrinks(w: World, acts: seq<Action>, v: World, spent: int)
    requires Swept(w, acts, v, spent)
    ensures LeasesShrink(w.store.homes.active, v.store.homes.active) && v.clock == w.clock
  {
    UpkeepShrinks(w, acts);
  }

  lemma {:induction false} UpkeepIssuesNoToken(w: World, acts: seq<Action>)
    requires Legal(w, acts) && AllUpkeep(acts)
    ensures Run(w, acts).log.tokens == w.log.tokens
    decreases |acts|
  {
    if acts != [] {
      assert acts[0] in acts && forall a :: a in acts[1..] ==> a in acts;
      UpkeepIssuesNoToken(Apply(w, acts[0]), acts[1..]);
    }
  }
}
