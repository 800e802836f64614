/** Runs of the task queues: the atomic steps every script is made of, and the history they leave. */
module TaskRuns {
  import opened Basics
  import opened TaskModel

  // What happened, kept beside the store and never collected.
  datatype Log = Log(
    settled: map<Identity, Result>,
    terminal: seq<Identity>,
    released: map<Identity, nat>,
    tokens: set<Token>,
    forced: set<Identity>,
    unlisted: set<Identity>)

  datatype World = World(store: Store, log: Log, clock: nat)

  datatype Action =
    | Tick(now: nat)
    | Create(key: Key, options: Options, holder: Option<Identity>)
    | Hold(edge: Edge)
    | Replace(key: Key)
    | Promote(key: Key)
    | Take(key: Key, token: Token, timeout: nat)
    | Extend(key: Key, token: Token, timeout: nat)
    | GiveUp(key: Key, token: Token)
    | Fail(key: Key, token: Token, error: Error, retryAt: Option<Time>)
    | Succeed(key: Key, token: Token, value: Value)
    | Stall(key: Key)
    | Enlist(owner: Identity)
    | Leave(owner: Identity)
    | LetGo(edge: Edge)
    | Delist(owner: Identity)
    | Remove(key: Key)
    | ForceRemove(key: Key)
    | Forget(identity: Identity)
    | ExpireTask(identity: Identity)
    | PostponeTask(identity: Identity)
    | ExpireResult(identity: Identity)
    | PostponeResult(identity: Identity)
    | ExpireTerminal(identity: Identity)
    | ExpireDeadLetter(identity: Identity)

  function EmptyStore(): Store {
    Store(map[], map[], Homes([], map[], map[], map[], map[]), map[], Holds({}, {}, map[]),
          Kept(map[], map[], map[], map[], map[], map[]))
  }

  function Initial(clock: nat): World {
    World(EmptyStore(), Log(map[], [], map[], {}, {}, {}), clock)
  }

  // A lock owns its task until its deadline.
  predicate Owns(s: Store, k: Key, token: Token, now: Time) {
    k in s.locks && s.locks[k].token == token && now < s.locks[k].until
  }

  predicate Locked(s: Store, k: Key, now: Time) {
    k in s.locks && now < s.locks[k].until
  }

  predicate DueIn<K(==)>(index: map<K, Time>, k: K, now: Time) {
    k in index && index[k] <= now
  }

  function HeldBy(h: Holds, holder: Identity): set<Edge> {
    set e | e in h.retains && e.holder == holder
  }

  function HoldersOf(h: Holds, retained: Identity): set<Edge> {
    set e | e in h.retainedBy && e.retained == retained
  }

  function MaxRelationships(s: Store, i: Identity): nat {
    if i.key in s.tasks then s.tasks[i.key].options.maxRelationships else 1000
  }

  // The hold is new, both ends still have room, and its holder has not settled.
  predicate MayHold(s: Store, e: Edge, limit: nat) {
    && Unsettled(s, e.holder)
    && e !in s.holds.retainedBy
    && |HeldBy(s.holds, e.holder)| < MaxRelationships(s, e.holder)
    && |HoldersOf(s.holds, e.retained)| < limit
  }

  // Identities never run ahead of the generation counter.
  predicate Known(generations: map<Key, nat>, i: Identity) {
    i.key in generations && i.generation <= generations[i.key]
  }

  function NextGeneration(s: Store, k: Key): nat {
    1 + if k in s.generations then s.generations[k] else 0
  }

  predicate FirstWaiting(wait: seq<Key>, k: Key) {
    k in wait && forall i, j :: 0 <= i < j < |wait| && wait[j] == k ==> wait[i].queue != k.queue
  }

  // Whatever this generation still holds is enlisted for release.
  predicate HoldsEnlisted(h: Holds, holder: Identity) {
    (exists e :: e in h.retains && e.holder == holder) ==> holder in h.continuation
  }

  predicate Enabled(w: World, a: Action) {
    var s, now := w.store, w.clock;
    match a
    case Tick(later) => now <= later
    case Create(k, options, holder) =>
      k !in s.tasks
        && (holder.Some? ==>
          MayHold(s, Edge(holder.value, Identity(k, NextGeneration(s, k))), options.maxRelationships))
    case Hold(e) => Current(s, e.retained) && MayHold(s, e, MaxRelationships(s, e.retained))
    case Replace(k) => k in s.tasks && s.tasks[k].outcome.Some? && !Held(s.holds, IdentityOf(s, k))
    case Promote(k) => DueIn(s.homes.scheduled, k, now) && k in s.tasks
    case Take(k, token, timeout) =>
      k in s.tasks && FirstWaiting(s.homes.wait, k) && !Locked(s, k, now) && token !in w.log.tokens && 0 < timeout
    case Extend(k, token, timeout) => k in s.tasks && Owns(s, k, token, now) && 0 < timeout
    case GiveUp(k, token) => k in s.tasks && Owns(s, k, token, now)
    case Fail(k, token, error, retryAt) => k in s.tasks && Owns(s, k, token, now)
    case Succeed(k, token, value) => k in s.tasks && Owns(s, k, token, now)
    case Stall(k) => k in s.tasks && DueIn(s.homes.active, k, now) && !Locked(s, k, now)
    case Enlist(holder) => Known(s.generations, holder) && !Unsettled(s, holder)
    case Leave(holder) => Current(s, holder)
    case LetGo(e) => e in s.holds.retains && e.holder in s.holds.continuation
    case Delist(holder) => forall e :: e in s.holds.retains ==> e.holder != holder
    case Remove(k) =>
      && k in s.tasks && !Locked(s, k, now)
      && !Held(s.holds, IdentityOf(s, k)) && HoldsEnlisted(s.holds, IdentityOf(s, k))
    case ForceRemove(k) => k in s.tasks && HoldsEnlisted(s.holds, IdentityOf(s, k))
    case Forget(i) => Known(s.generations, i) && i.key !in s.tasks
    case ExpireTask(i) =>
      DueIn(s.kept.taskExpiry, i, now) && (Current(s, i) && s.tasks[i.key].outcome.Some? ==> !Held(s.holds, i))
    case PostponeTask(i) =>
      DueIn(s.kept.taskExpiry, i, now) && Current(s, i) && s.tasks[i.key].outcome.Some? && Held(s.holds, i)
    case ExpireResult(i) => DueIn(s.kept.resultExpiry, i, now) && !Held(s.holds, i)
    case PostponeResult(i) => DueIn(s.kept.resultExpiry, i, now) && Held(s.holds, i)
    case ExpireTerminal(i) => DueIn(s.kept.terminalExpiry, i, now)
    case ExpireDeadLetter(i) => DueIn(s.kept.deadLetterExpiry, i, now)
  }

  function NewTask(options: Options, generation: nat, place: Place): Task {
    Task(options, generation, place, None, 0, 0, 0, [], None)
  }

  function Created(s: Store, k: Key, options: Options, holder: Option<Identity>, now: Time): Store
    requires k !in s.tasks
  {
    var g := NextGeneration(s, k);
    var p := if 0 < options.delay then Scheduled else Wait;
    var e := if holder.Some? then {Edge(holder.value, Identity(k, g))} else {};
    s.(tasks := s.tasks[k := NewTask(options, g, p)],
       generations := s.generations[k := g],
       homes := Placed(s.homes, k, p, now + options.delay),
       holds := s.holds.(retainedBy := s.holds.retainedBy + e, retains := s.holds.retains + e))
  }

  function WithTask(s: Store, k: Key, t: Task): Store {
    s.(tasks := s.tasks[k := t])
  }

  function Unlocked(s: Store, k: Key): Store {
    s.(locks := s.locks - {k})
  }

  // The record after one more failure of this kind.
  function Failing(t: Task, stall: bool, error: Error, retryAt: Option<Time>, now: Time): Task {
    t.(stalled := if stall then t.stalled + 1 else t.stalled,
       handlerFailures := if stall then t.handlerFailures else t.handlerFailures + 1,
       errors := ErrorsKept(t.errors, Entry(error, now, retryAt), t.options.maxErrors))
  }

  predicate WillRetry(error: Error, retryAt: Option<Time>) {
    !error.Canceled? && retryAt.Some?
  }

  function FailedStore(s: Store, k: Key, stall: bool, error: Error, retryAt: Option<Time>, now: Time): Store
    requires k in s.tasks
  {
    var t := Failing(s.tasks[k], stall, error, retryAt, now);
    var u := WithTask(Unlocked(s, k), k, t);
    if !WillRetry(error, retryAt) then Settled(WithTask(u, k, t.(outcome := Some(Failure))), k, Some(error), now)
    else if now < retryAt.value then Moved(u, k, Scheduled, retryAt.value)
    else Moved(u, k, Wait, now)
  }

  // A stalled attempt is retried at once until the stall budget is spent.
  function StallRetry(t: Task): Option<Time> {
    if t.options.maxStalled < t.stalled + 1 then None else Some(0)
  }

  function SucceededStore(s: Store, k: Key, value: Value, now: Time): Store
    requires k in s.tasks
  {
    Settled(WithTask(Unlocked(s, k), k, s.tasks[k].(success := Some(value), outcome := Some(Success))), k, None, now)
  }

  function TakenStore(s: Store, k: Key, token: Token, until: Time): Store
    requires k in s.tasks
  {
    var u := WithTask(s, k, s.tasks[k].(attempt := s.tasks[k].attempt + 1));
    Moved(u, k, Active, until).(locks := s.locks[k := Lock(token, until)])
  }

  function ExtendedStore(s: Store, k: Key, until: Time): Store
    requires k in s.tasks && k in s.locks
  {
    Moved(s, k, Active, until).(locks := s.locks[k := s.locks[k].(until := until)])
  }

  // Forced removal revokes the lease, the inbound holds and everything kept for the generation.
  function Purged(s: Store, k: Key): Store
    requires k in s.tasks
  {
    var i := IdentityOf(s, k);
    var d := Deleted(Unlocked(s, k), k);
    d.(holds := d.holds.(retainedBy := set e | e in d.holds.retainedBy && e.retained != i),
       kept := Kept(d.kept.results - {i}, d.kept.deadLetters - {i}, d.kept.taskExpiry,
                    d.kept.resultExpiry - {i}, d.kept.terminalExpiry, d.kept.deadLetterExpiry - {i}))
  }

  // Forced removal of a generation whose record went away while its own holds were being released.
  function Forgotten(s: Store, i: Identity): Store {
    Unlocked(s, i.key).(kept := Kept(s.kept.results - {i}, s.kept.deadLetters - {i}, s.kept.taskExpiry - {i},
                    s.kept.resultExpiry - {i}, s.kept.terminalExpiry - {i}, s.kept.deadLetterExpiry - {i}))
  }

  function TerminalUnlisted(s: Store, i: Identity): Store {
    var u := s.(kept := s.kept.(terminalExpiry := s.kept.terminalExpiry - {i}));
    if Current(s, i) && (i.key in s.homes.succeeded || i.key in s.homes.failed)
    then u.(tasks := s.tasks[i.key := s.tasks[i.key].(place := Nowhere)],
            homes := s.homes.(succeeded := s.homes.succeeded - {i.key}, failed := s.homes.failed - {i.key}))
    else u
  }

  function TaskExpired(s: Store, i: Identity): Store {
    var d := if Current(s, i) && s.tasks[i.key].outcome.Some? then Deleted(s, i.key) else s;
    d.(kept := d.kept.(taskExpiry := d.kept.taskExpiry - {i}))
  }

  function Recorded(log: Log, i: Identity, r: Result): Log {
    log.(settled := log.settled[i := r], terminal := log.terminal + [i])
  }

  function Released(log: Log, i: Identity): nat {
    if i in log.released then log.released[i] else 0
  }

  function FailedLog(w: World, k: Key, error: Error, retryAt: Option<Time>): Log
    requires k in w.store.tasks
  {
    if WillRetry(error, retryAt) then w.log
    else Recorded(w.log, IdentityOf(w.store, k), Result(Failure, w.clock, None, Some(error)))
  }

  function Apply(w: World, a: Action): World
    requires Enabled(w, a)
  {
    var s, log, now := w.store, w.log, w.clock;
    match a
    case Tick(later) => w.(clock := later)
    case Create(k, options, holder) => w.(store := Created(s, k, options, holder, now))
    case Hold(e) =>
      w.(store := s.(holds := s.holds.(retainedBy := s.holds.retainedBy + {e}, retains := s.holds.retains + {e})))
    case Replace(k) => w.(store := Unlocked(Deleted(s, k), k))
    case Promote(k) => w.(store := Moved(s, k, Wait, now))
    case Take(k, token, timeout) =>
      w.(store := TakenStore(s, k, token, now + timeout), log := log.(tokens := log.tokens + {token}))
    case Extend(k, token, timeout) => w.(store := ExtendedStore(s, k, now + timeout))
    case GiveUp(k, token) =>
      var i := IdentityOf(s, k);
      w.(store := Moved(Unlocked(s, k), k, Wait, now), log := log.(released := log.released[i := Released(log, i) + 1]))
    case Fail(k, token, error, retryAt) =>
      w.(store := FailedStore(s, k, false, error, retryAt, now), log := FailedLog(w, k, error, retryAt))
    case Succeed(k, token, value) =>
      w.(store := SucceededStore(s, k, value, now),
         log := Recorded(log, IdentityOf(s, k), Result(Success, now, Some(value), None)))
    case Stall(k) =>
      var retryAt := StallRetry(s.tasks[k]);
      w.(store := FailedStore(s, k, true, Stalled, retryAt, now), log := FailedLog(w, k, Stalled, retryAt))
    case Enlist(holder) => w.(store := Enlisted(s, holder, now))
    case Leave(holder) => w.(store := Enlisted(s, holder, now))
    case LetGo(e) => w.(store := HoldReleased(s, e, now))
    case Delist(holder) => w.(store := s.(holds := s.holds.(continuation := s.holds.continuation - {holder})))
    case Remove(k) => w.(store := Deleted(s, k))
    case ForceRemove(k) => w.(store := Purged(s, k), log := log.(forced := log.forced + {IdentityOf(s, k)}))
    case Forget(i) => w.(store := Forgotten(s, i))
    case ExpireTask(i) => w.(store := TaskExpired(s, i))
    case PostponeTask(i) => w.(store := s.(kept := s.kept.(taskExpiry := s.kept.taskExpiry[i := now + 1000])))
    case ExpireResult(i) =>
      w.(store := s.(kept := s.kept.(results := s.kept.results - {i}, resultExpiry := s.kept.resultExpiry - {i})))
    case PostponeResult(i) => w.(store := s.(kept := s.kept.(resultExpiry := s.kept.resultExpiry[i := now + 1000])))
    case ExpireTerminal(i) => w.(store := TerminalUnlisted(s, i), log := log.(unlisted := log.unlisted + {i}))
    case ExpireDeadLetter(i) =>
      w.(store := s.(kept := s.kept.(deadLetters := s.kept.deadLetters - {i},
                                     deadLetterExpiry := s.kept.deadLetterExpiry - {i})))
  }

  predicate Legal(w: World, acts: seq<Action>)
    decreases |acts|
  {
    acts == [] || (Enabled(w, acts[0]) && Legal(Apply(w, acts[0]), acts[1..]))
  }

  function Run(w: World, acts: seq<Action>): World
    requires Legal(w, acts)
    decreases |acts|
  {
    if acts == [] then w else Run(Apply(w, acts[0]), acts[1..])
  }

  lemma {:induction false} RunAppend(w: World, xs: seq<Action>, ys: seq<Action>)
    requires Legal(w, xs) && Legal(Run(w, xs), ys)
    ensures Legal(w, xs + ys) && Run(w, xs + ys) == Run(Run(w, xs), ys)
    decreases |xs|
  {
    if xs == [] {
      assert xs + ys == ys;
    } else {
      RunAppend(Apply(w, xs[0]), xs[1..], ys);
      assert (xs + ys)[0] == xs[0] && (xs + ys)[1..] == xs[1..] + ys;
    }
  }

  lemma RunOne(w: World, a: Action)
    requires Enabled(w, a)
    ensures Legal(w, [a]) && Run(w, [a]) == Apply(w, a)
  {
  }
}
