/** The task queues as a value: task records, the five lists, locks, result-retention holds and expiry indexes. */
module TaskModel {
  import opened Basics

  type Queue(==, !new, 0)
  type TaskId(==, !new, 0)
  type Token(==, !new, 0)
  type Value(==, !new, 0)
  type Schema(==, !new, 0)

  datatype Key = Key(queue: Queue, id: TaskId)
  // One generation of a task: what holds, results and expiry entries are filed under.
  datatype Identity = Identity(key: Key, generation: nat)
  // The holder keeps the retained generation from being disposed of.
  datatype Edge = Edge(holder: Identity, retained: Identity)

  datatype Policy = Keep | Delete | MarkSuccess | MarkFailure
  datatype Outcome = Success | Failure
  datatype Place = Wait | Scheduled | Active | Succeeded | Failed | Nowhere
  datatype Error = Stalled | Canceled | Raised(value: Value)
  datatype Entry = Entry(error: Error, at: Time, retryAt: Option<Time>)
  datatype Lock = Lock(token: Token, until: Time)
  datatype Result = Result(outcome: Outcome, at: Time, value: Option<Value>, error: Option<Error>)

  datatype Options = Options(
    payload: Value,
    schema: Schema,
    historyEnabled: bool,
    delay: nat,
    onSuccess: Policy,
    onFailure: Policy,
    maxStalled: nat,
    maxErrors: nat,
    maxRelationships: nat,
    taskRetention: nat,
    resultRetention: nat,
    terminalRetention: nat,
    deadLetterRetention: nat)

  datatype Task = Task(
    options: Options,
    generation: nat,
    place: Place,
    outcome: Option<Outcome>,
    attempt: nat,
    handlerFailures: nat,
    stalled: nat,
    errors: seq<Entry>,
    success: Option<Value>)

  datatype Homes = Homes(wait: seq<Key>, scheduled: map<Key, Time>, active: map<Key, Time>, succeeded: map<Key, Time>,
                         failed: map<Key, Time>)
  datatype Holds = Holds(retainedBy: set<Edge>, retains: set<Edge>, continuation: map<Identity, Time>)
  datatype Kept = Kept(results: map<Identity, Result>, deadLetters: map<Identity, Time>,
                       taskExpiry: map<Identity, Time>, resultExpiry: map<Identity, Time>,
                       terminalExpiry: map<Identity, Time>, deadLetterExpiry: map<Identity, Time>)

  datatype Store = Store(
    tasks: map<Key, Task>,
    generations: map<Key, nat>,
    homes: Homes,
    locks: map<Key, Lock>,
    holds: Holds,
    kept: Kept)

  // ---- list membership --------------------------------------------------------

  function Without(wait: seq<Key>, k: Key): (r: seq<Key>)
    ensures forall j :: j in r <==> j in wait && j != k
  {
    if wait == [] then []
    else if wait[0] == k then Without(wait[1..], k)
    else [wait[0]] + Without(wait[1..], k)
  }

  function Unplaced(h: Homes, k: Key): Homes {
    Homes(Without(h.wait, k), h.scheduled - {k}, h.active - {k}, h.succeeded - {k}, h.failed - {k})
  }

  // The lists after k left whatever list it was in and joined this one.
  function Placed(h: Homes, k: Key, p: Place, score: Time): Homes {
    var u := Unplaced(h, k);
    match p
    case Wait => u.(wait := u.wait + [k])
    case Scheduled => u.(scheduled := u.scheduled[k := score])
    case Active => u.(active := u.active[k := score])
    case Succeeded => u.(succeeded := u.succeeded[k := score])
    case Failed => u.(failed := u.failed[k := score])
    case Nowhere => u
  }

  function Moved(s: Store, k: Key, p: Place, score: Time): Store
    requires k in s.tasks
  {
    s.(tasks := s.tasks[k := s.tasks[k].(place := p)], homes := Placed(s.homes, k, p, score))
  }

  function IdentityOf(s: Store, k: Key): Identity
    requires k in s.tasks
  {
    Identity(k, s.tasks[k].generation)
  }

  // The record of this very generation is still there.
  predicate Current(s: Store, i: Identity) {
    i.key in s.tasks && s.tasks[i.key].generation == i.generation
  }

  predicate Unsettled(s: Store, i: Identity) {
    Current(s, i) && s.tasks[i.key].outcome.None?
  }

  predicate Held(h: Holds, i: Identity) {
    exists e :: e in h.retainedBy && e.retained == i
  }

  // Deleting a record takes it out of every list and out of its own expiry indexes.
  function Deleted(s: Store, k: Key): Store
    requires k in s.tasks
  {
    var i := IdentityOf(s, k);
    s.(tasks := s.tasks - {k},
       homes := Unplaced(s.homes, k),
       kept := s.kept.(taskExpiry := s.kept.taskExpiry - {i}, terminalExpiry := s.kept.terminalExpiry - {i}))
  }

  // ---- settlement ---------------------------------------------------------------

  function PolicyOf(t: Task): Policy
    requires t.outcome.Some?
  {
    if t.outcome.value.Success? then t.options.onSuccess else t.options.onFailure
  }

  function PlaceOf(p: Policy): Place {
    match p
    case MarkSuccess => Succeeded
    case MarkFailure => Failed
    case _ => Nowhere
  }

  // A settled task goes where its policy says; a delete policy disposes of it as soon as nothing holds it.
  function Disposed(s: Store, k: Key, now: Time): Store
    requires k in s.tasks && s.tasks[k].outcome.Some?
  {
    var p := PolicyOf(s.tasks[k]);
    if p.Delete? && !Held(s.holds, IdentityOf(s, k)) then Deleted(s, k) else Moved(s, k, PlaceOf(p), now)
  }

  function ResultOf(t: Task, error: Option<Error>, now: Time): Result
    requires t.outcome.Some?
  {
    if t.outcome.value.Success? then Result(Success, now, t.success, None) else Result(Failure, now, None, error)
  }

  // The result is filed, and everything kept for the settled generation is given its expiry.
  function Filed(kept: Kept, i: Identity, t: Task, error: Option<Error>, now: Time): Kept
    requires t.outcome.Some?
  {
    var failed := t.outcome.value.Failure?;
    var marked := PolicyOf(t).MarkSuccess? || PolicyOf(t).MarkFailure?;
    Kept(kept.results[i := ResultOf(t, error, now)],
         if failed then kept.deadLetters[i := now] else kept.deadLetters,
         kept.taskExpiry[i := now + t.options.taskRetention],
         kept.resultExpiry[i := now + t.options.resultRetention],
         if marked then kept.terminalExpiry[i := now + t.options.terminalRetention] else kept.terminalExpiry,
         if failed then kept.deadLetterExpiry[i := now + t.options.deadLetterRetention] else kept.deadLetterExpiry)
  }

  // Settlement of a record whose outcome has just been written; its own holds are enlisted for release.
  function Settled(s: Store, k: Key, error: Option<Error>, now: Time): Store
    requires k in s.tasks && s.tasks[k].outcome.Some?
  {
    var i := IdentityOf(s, k);
    Disposed(Enlisted(s.(kept := Filed(s.kept, i, s.tasks[k], error, now)), i, now), k, now)
  }

  // ---- result-retention holds -----------------------------------------------------

  function Enlisted(s: Store, holder: Identity, now: Time): Store {
    s.(holds := s.holds.(continuation := s.holds.continuation[holder := now]))
  }

  // One hold is given up; a settled task nothing holds any more is disposed of as its policy says.
  function HoldReleased(s: Store, e: Edge, now: Time): Store {
    var t := s.(holds := Holds(s.holds.retainedBy - {e}, s.holds.retains - {e}, s.holds.continuation[e.holder := now]));
    if Current(t, e.retained) && t.tasks[e.retained.key].outcome.Some? && !Held(t.holds, e.retained)
    then Disposed(t, e.retained.key, now) else t
  }

  // ---- failure --------------------------------------------------------------------

  // The newest failures, as many as the record may keep.
  function ErrorsKept(errors: seq<Entry>, e: Entry, max: nat): seq<Entry> {
    if max == 0 then []
    else if |errors| < max then errors + [e]
    else errors[|errors| - max + 1..] + [e]
  }
}
