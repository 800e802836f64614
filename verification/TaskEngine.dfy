/** The task engine's script: Redis keys as fields, its helpers and one method per registered operation. */
module TaskEngine {
  import opened Basics
  import opened SortedIndex
  import opened TaskModel
  import opened TaskRuns
  import opened TaskInvariant
  import opened TaskProofs
  import opened TaskSettle
  import opened TaskRetention
  import opened TaskMirror
  import opened TaskRest
  import opened TaskUpkeep
  import opened TaskScript
  import opened TaskCatchUp
  import opened TaskDrain
  import opened TaskTurns
  import opened TaskHolding
  import opened TaskLaws
  import opened TaskSettlement
  import opened TaskTiming

  datatype Refusal =
    | InvalidLockTimeout | InvalidRetryAt
    | TaskNotFound | LeaseLost | TaskExists | NotTerminal | TaskLeased | TaskHeld
    | HolderNotFound | HolderReplaced | HolderSettled | HolderLimit | RetainedLimit
  datatype Offer = Fresh(task: Task) | Existing(task: Task)
  datatype Reply<+T> = Ok(value: T) | Refused(reason: Refusal)

  datatype Progress = Allowed | Unavailable | OtherSchema | Disabled | NotLeased

  // This generation is there and was offered with this schema.
  predicate OfSchema(s: Store, i: Identity, schema: Schema) {
    Current(s, i) && s.tasks[i.key].options.schema == schema
  }

  // ... and it records a history.
  predicate Recording(s: Store, i: Identity, schema: Schema) {
    OfSchema(s, i, schema) && s.tasks[i.key].options.historyEnabled
  }

  // The offer wants a hold its holder does not have yet.
  predicate WantsHold(s: Store, k: Key, holder: Option<Identity>, throwOnExists: bool, duplicates: Duplicates) {
    holder.Some? && (Joins(s, k, holder, throwOnExists, duplicates) || Creates(s, k, throwOnExists, duplicates))
  }

  // Every refusal of an offer has exactly its reason, in the state the offer finds.
  ghost predicate RefusedExactly(s: Store, k: Key, options: Options, holder: Option<Identity>, throwOnExists: bool,
                                 duplicates: Duplicates, reply: Reply<Offer>) {
    var live, wants := Live(s, holder), WantsHold(s, k, holder, throwOnExists, duplicates);
    && (reply == Refused(HolderNotFound) <==> holder.Some? && holder.value.key !in s.tasks)
    && (reply == Refused(HolderReplaced) <==> holder.Some? && holder.value.key in s.tasks && !Current(s, holder.value))
    && (reply == Refused(HolderSettled) <==>
      holder.Some? && Current(s, holder.value) && s.tasks[holder.value.key].outcome.Some?)
    && (reply == Refused(TaskExists) <==> live && k in s.tasks && throwOnExists)
    && (reply == Refused(NotTerminal) <==>
      live && k in s.tasks && !throwOnExists && duplicates.NewGeneration? && s.tasks[k].outcome.None?)
    && (reply == Refused(TaskHeld) <==> live && k in s.tasks && !throwOnExists && duplicates.NewGeneration?
                                        && s.tasks[k].outcome.Some? && Held(s.holds, IdentityOf(s, k)))
    && (reply == Refused(HolderLimit) <==> live && wants && Full(s, holder.value))
    && (reply == Refused(RetainedLimit) <==>
      live && wants && !Full(s, holder.value) && NoRoom(s, k, options, duplicates))
    && (reply.Refused? ==>
      reply.reason in {HolderNotFound, HolderReplaced, HolderSettled, TaskExists, NotTerminal, TaskHeld, HolderLimit,
                       RetainedLimit})
  }

  // An offer for a new record is refused for nothing but a limit.
  lemma FreshRefusedExactly(s: Store, k: Key, options: Options, holder: Option<Identity>, limit: Option<Refusal>)
    requires Live(s, holder) && (k in s.tasks ==> Replaceable(s, k))
    requires limit == Some(HolderLimit) <==> holder.Some? && Full(s, holder.value)
    requires limit == Some(RetainedLimit) <==> holder.Some? && !Full(s, holder.value) && options.maxRelationships == 0
    requires limit.Some? ==> limit.value == HolderLimit || limit.value == RetainedLimit
    ensures limit.Some? ==> RefusedExactly(s, k, options, holder, false, NewGeneration, Refused(limit.value))
    ensures limit.None? ==> forall t :: RefusedExactly(s, k, options, holder, false, NewGeneration, Ok(Fresh(t)))
  {
    hide Held, Full, Crowded;
  }

  // What was done: nothing for a refusal, except that at a limit the generation to be replaced has gone already; the
  // one missing hold for a record that is there; and else a new record, the old one making way.
  ghost predicate DoneExactly(s: Store, k: Key, options: Options, holder: Option<Identity>, throwOnExists: bool,
                              duplicates: Duplicates, reply: Reply<Offer>, core: seq<Action>) {
    match reply
    case Refused(reason) =>
      var atLimit := reason.HolderLimit? || reason.RetainedLimit?;
      core == if atLimit && k in s.tasks && duplicates.NewGeneration? then [Replace(k)] else []
    case Ok(Existing(_)) =>
      && k in s.tasks && !throwOnExists && duplicates.ReturnExisting?
      && core == (if Joins(s, k, holder, throwOnExists, duplicates) then [Hold(Edge(holder.value, IdentityOf(s, k)))]
                  else [])
    case Ok(Fresh(_)) =>
      && Creates(s, k, throwOnExists, duplicates)
      && core == if k in s.tasks then [Replace(k), Create(k, options, holder)] else [Create(k, options, holder)]
  }

  // The refusals that come before anything is written.
  ghost predicate RefusedEarly(s: Store, k: Key, holder: Option<Identity>, throwOnExists: bool, duplicates: Duplicates,
                               reason: Refusal) {
    var anew := k in s.tasks && !throwOnExists && duplicates.NewGeneration?;
    match reason
    case HolderNotFound => holder.Some? && holder.value.key !in s.tasks
    case HolderReplaced => holder.Some? && holder.value.key in s.tasks && !Current(s, holder.value)
    case HolderSettled => holder.Some? && Current(s, holder.value) && s.tasks[holder.value.key].outcome.Some?
    case TaskExists => Live(s, holder) && k in s.tasks && throwOnExists
    case NotTerminal => Live(s, holder) && anew && s.tasks[k].outcome.None?
    case TaskHeld => Live(s, holder) && anew && s.tasks[k].outcome.Some? && Held(s.holds, IdentityOf(s, k))
    case _ => false
  }

  lemma EarlyIsExact(s: Store, k: Key, options: Options, holder: Option<Identity>, throwOnExists: bool,
                     duplicates: Duplicates, reason: Refusal)
    requires RefusedEarly(s, k, holder, throwOnExists, duplicates, reason)
    ensures RefusedExactly(s, k, options, holder, throwOnExists, duplicates, Refused(reason))
    ensures DoneExactly(s, k, options, holder, throwOnExists, duplicates, Refused(reason), [])
  {
    hide Held, Full, Crowded;
  }

  // For a record that is to be returned the options offered do not matter.
  lemma AnyOptionsReturn(s: Store, k: Key, o: Options, options: Options, holder: Option<Identity>, reply: Reply<Offer>,
                         core: seq<Action>)
    requires k in s.tasks && (reply.Ok? ==> reply.value.Existing?)
    requires RefusedExactly(s, k, o, holder, false, ReturnExisting, reply)
    requires DoneExactly(s, k, o, holder, false, ReturnExisting, reply, core)
    ensures RefusedExactly(s, k, options, holder, false, ReturnExisting, reply)
    ensures DoneExactly(s, k, options, holder, false, ReturnExisting, reply, core)
  {
    hide Held, Full, Crowded;
  }

  // For a key that is free it does not matter what was to be done with duplicates.
  lemma FreeKeyHasNoDuplicates(s: Store, k: Key, options: Options, holder: Option<Identity>, throwOnExists: bool,
                               duplicates: Duplicates, reply: Reply<Offer>, core: seq<Action>)
    requires k !in s.tasks && Live(s, holder) && (reply.Ok? ==> reply.value.Fresh?)
    requires RefusedExactly(s, k, options, holder, false, NewGeneration, reply)
    requires DoneExactly(s, k, options, holder, false, NewGeneration, reply, core)
    ensures RefusedExactly(s, k, options, holder, throwOnExists, duplicates, reply)
    ensures DoneExactly(s, k, options, holder, throwOnExists, duplicates, reply, core)
  {
    hide Held, Full, Crowded;
  }

  class TaskEngine {
    var tasks: map<Key, Task>
    var generations: map<Key, nat>
    var homes: Homes
    var locks: map<Key, Lock>
    var holds: Holds
    var kept: Kept
    // Which sweeper each queue's next maintenance begins with.
    var cursors: map<Queue, nat>
    // Set once per script: the server's time, and how much index work the script may still do.
    var now: nat
    var remaining: nat
    ghost var log: Log

    ghost function Contents(): Store
      reads this
    {
      Store(tasks, generations, homes, locks, holds, kept)
    }

    ghost function State(): World
      reads this
    {
      World(Contents(), log, now)
    }

    // Every list agrees with the records, also between the steps of a script.
    ghost predicate Listed()
      reads this
    {
      HomesInv(tasks, homes)
    }

    ghost predicate Valid()
      reads this
    {
      Sound(State()) && Rested(Contents()) && forall q :: q in cursors ==> cursors[q] < SWEEPERS
    }

    constructor (time: nat)
      ensures Valid() && State() == Initial(time) && cursors == map[]
    {
      tasks, generations, locks, cursors := map[], map[], map[], map[];
      homes := Homes([], map[], map[], map[], map[]);
      holds := Holds({}, {}, map[]);
      kept := Kept(map[], map[], map[], map[], map[], map[]);
      log := Log(map[], [], map[], {}, {}, {});
      now, remaining := time, 0;
      new;
      InitialIsSound(time);
    }

    // ---- list membership ------------------------------------------------------------------

    // Removes the task from the one list its record names; no other list holds it.
    method RemoveFromCurrentLists(k: Key)
      requires Listed() && k in tasks
      modifies `homes
      ensures homes == Unplaced(old(homes), k)
      ensures OnlyOn(homes, k, Nowhere, now) && OthersStay(old(homes), homes, k)
    {
      hide OnlyOn, OthersStay, HomesInv, Unplaced;
      UnplacedExactly(homes, k);
      NowhereAtAnyTime(Unplaced(homes, k), k, 0, now);
      LeavingOneIsLeavingAll(tasks, homes, k);
      match tasks[k].place
      case Wait => homes := homes.(wait := RemoveFirst(homes.wait, k));
      case Scheduled => homes := homes.(scheduled := homes.scheduled - {k});
      case Active => homes := homes.(active := homes.active - {k});
      case Succeeded => homes := homes.(succeeded := homes.succeeded - {k});
      case Failed => homes := homes.(failed := homes.failed - {k});
      case Nowhere =>
    }

    // A source known to be empty is not searched, which is safe when the record names no list.
    method MoveToList(k: Key, place: Place, score: Time, sourceKnownEmpty: bool)
      requires Listed() && k in tasks && (sourceKnownEmpty ==> tasks[k].place.Nowhere?)
      modifies `homes, `tasks
      ensures Contents() == Moved(old(Contents()), k, place, score) && Listed()
      ensures tasks == old(tasks)[k := old(tasks)[k].(place := place)]
      ensures OnlyOn(homes, k, place, score) && OthersStay(old(homes), homes, k)
    {
      hide OnlyOn, OthersStay;
      PlacedExactly(homes, k, place, score);
      PlacedHomes(tasks, homes, k, tasks[k].(place := place), score);
      if sourceKnownEmpty {
        NowhereIsUnplaced(tasks, homes, k);
      } else {
        RemoveFromCurrentLists(k);
      }
      match place {
        case Wait => homes := homes.(wait := homes.wait + [k]);
        case Scheduled => homes := homes.(scheduled := homes.scheduled[k := score]);
        case Active => homes := homes.(active := homes.active[k := score]);
        case Succeeded => homes := homes.(succeeded := homes.succeeded[k := score]);
        case Failed => homes := homes.(failed := homes.failed[k := score]);
        case Nowhere =>
      }
      tasks := tasks[k := tasks[k].(place := place)];
    }

    method DeleteTask(k: Key, sourceKnownEmpty: bool)
      requires Listed() && k in tasks && (sourceKnownEmpty ==> tasks[k].place.Nowhere?)
      modifies `homes, `tasks, `kept
      ensures Contents() == Deleted(old(Contents()), k) && Listed() && k !in tasks
      ensures GoneFrom(old(Contents()), Contents(), k)
    {
      hide GoneFrom, OnlyOn, OthersStay;
      ghost var s := Contents();
      var i := Identity(k, tasks[k].generation);
      DeletedAfterLeaving(s, k, now);
      DeletedExactly(s, k);
      UnplacedHomes(tasks, homes, k);
      MoveToList(k, Nowhere, now, sourceKnownEmpty);
      kept := kept.(taskExpiry := kept.taskExpiry - {i}, terminalExpiry := kept.terminalExpiry - {i});
      tasks := tasks - {k};
      assert Contents() == Deleted(Moved(s, k, Nowhere, now), k);
    }

    // ---- disposal ----------------------------------------------------------------------------

    method HasRetentionHolds(i: Identity) returns (held: bool)
      ensures held == Held(holds, i) && (held <==> !Unheld(holds, i))
    {
      held := exists e :: e in holds.retainedBy && e.retained == i;
    }

    method ApplyCompletionPolicy(k: Key)
      requires Listed() && k in tasks && tasks[k].outcome.Some?
      modifies `homes, `tasks, `kept
      ensures Contents() == Disposed(old(Contents()), k, now) && Listed()
      ensures DisposedAs(old(Contents()), Contents(), k, old(tasks)[k].outcome.value, now)
      ensures tasks - {k} == old(tasks) - {k} && OthersStay(old(homes), homes, k)
      ensures KeptWithRecord(old(Contents()), Contents(), k)
    {
      hide OnlyOn, OthersStay, DisposedAs, KeptWithRecord, GoneFrom;
      ghost var s := Contents();
      DisposedExactly(s, k, now);
      var policy := if tasks[k].outcome.value.Success? then tasks[k].options.onSuccess else tasks[k].options.onFailure;
      var place := if policy.MarkSuccess? then Succeeded else if policy.MarkFailure? then Failed else Nowhere;
      MoveToList(k, place, now, false);
      if policy.Delete? {
        var held := HasRetentionHolds(Identity(k, tasks[k].generation));
        if !held {
          DeletedAfterLeaving(s, k, now);
          DeleteTask(k, true);
        }
      }
    }

    // ---- release of holds -----------------------------------------------------------------------

    // Takes holds off the holder's side, as many as the limit allows, in any order.
    method PopHolds(holder: Identity, limit: nat) returns (popped: seq<Edge>)
      modifies `holds
      ensures TakesOff(old(holds), holder, limit, popped)
      ensures HeldBy(holds, holder) == {} <==> |HeldBy(old(holds), holder)| <= limit
      ensures |holds.retains| + |popped| == |old(holds.retains)|
      ensures holds == old(holds).(retains := old(holds.retains) - set e | e in popped)
    {
      ghost var before := holds.retains;
      var mine := HeldBy(holds, holder);
      ghost var all := mine;
      popped := [];
      while |popped| < limit && mine != {}
        invariant holds == old(holds)
        invariant Distinct(popped) && |popped| <= limit && mine <= all
        invariant forall e :: e in popped <==> e in all && e !in mine
        invariant |popped| + |mine| == |all|
        decreases |mine|
      {
        var e :| e in mine;
        popped, mine := popped + [e], mine - {e};
      }
      TakenOffIsAll(holds, holder, limit, popped, holds.retains - set e | e in popped);
      TakenOffCount(holds, holder, limit, popped, holds.retains - set e | e in popped);
      holds := holds.(retains := holds.retains - set e | e in popped);
    }

    // Gives up at most a budgeted batch of the holder's holds; what remains is listed for later calls.
    method ReleaseOwnedHolds(holder: Identity) returns (ghost popped: seq<Edge>, ghost acts: seq<Action>)
      requires Listed()
      modifies `homes, `tasks, `kept, `holds, `remaining
      ensures |popped| == Min(old(remaining), |HeldBy(old(holds), holder)|) && remaining == old(remaining) - |popped|
      ensures acts == Release(popped, holder, HeldBy(holds, holder) == {})
      ensures Yields(old(holds), holder, old(remaining), popped, acts)
      ensures Reaches(World(Enlisted(old(Contents()), holder, now), log, now), acts, State()) && Listed()
      ensures forall e :: e in popped ==> e in old(holds.retains) && e.holder == holder
      ensures remaining == 0 || holder !in holds.continuation
      ensures holder in holds.continuation <==> HeldBy(holds, holder) != {}
      ensures HeldBy(holds, holder) == {} || |holds.retains| + old(remaining) == |old(holds.retains)|
      ensures 0 < remaining ==> ListsNobodyNew(old(holds.continuation), holds.continuation)
    {
      hide Reaches, HomesInv, HeldBy, TakesOff, Yields, Releasing;
      ghost var w := World(Enlisted(Contents(), holder, now), log, now);
      ghost var before := holds;
      var batch := PopHolds(holder, remaining);
      popped := batch;
      TakenOffEach(before, holder, remaining, batch);
      ReleasingNone(w, batch, Contents(), before.continuation);
      remaining := remaining - |batch|;
      ghost var retains := holds;
      ghost var v := GiveUpEach(batch, holder, w, before.continuation);
      ReleaseEnds(w, batch, v, Contents(), before.continuation, holder);
      SameHoldsLeft(retains, holds, holder);
      var left := HeldBy(holds, holder);
      ghost var after := holds;
      if left == {} {
        holds := holds.(continuation := holds.continuation - {holder});
      } else {
        holds := holds.(continuation := holds.continuation[holder := now]);
      }
      SameHoldsLeft(after, holds, holder);
      acts := Release(popped, holder, left == {});
      YieldsAsReleased(before, holder, old(remaining), popped, left == {});
    }

    // The popped holds one after another.
    method GiveUpEach(batch: seq<Edge>, holder: Identity, ghost w: World, ghost continuation: map<Identity, Time>)
      returns (ghost v: World)
      requires Listed() && Distinct(batch)
      requires forall e :: e in batch ==> e in w.store.holds.retains && e.holder == holder
      requires Releasing(w, batch, 0, w, Contents(), continuation) && w.clock == now
      requires w.store.holds.continuation == continuation[holder := now]
      modifies `homes, `tasks, `kept, `holds
      ensures Listed() && Releasing(w, batch, |batch|, v, Contents(), continuation)
      ensures v.store.holds.continuation == continuation[holder := now]
      ensures holds.retains == old(holds.retains) && holds.continuation == continuation
    {
      hide Reaches, GivenUp, HomesInv;
      v := w;
      var i := 0;
      while i < |batch|
        invariant i <= |batch| && Listed() && holds.retains == old(holds.retains)
        invariant Releasing(w, batch, i, v, Contents(), continuation)
        invariant v.store.holds.continuation == continuation[holder := now]
        invariant Pending(batch, i) <= v.store.holds.retains
      {
        var e := batch[i];
        assert e in batch;
        ReleasingOneMore(w, batch, i, v, Contents(), continuation, holder);
        v := Apply(v, LetGo(e));
        GivenUpRetains(Contents(), e, now);
        GiveUpHold(e);
        i := i + 1;
      }
    }

    // One popped hold: a settled task nothing holds any more is disposed of as its policy says.
    method GiveUpHold(e: Edge)
      requires Listed()
      modifies `homes, `tasks, `kept, `holds
      ensures Contents() == GivenUp(old(Contents()), e, now) && Listed()
      ensures holds == old(holds).(retainedBy := old(holds.retainedBy) - {e})
      ensures var s, k := old(Contents()).(holds := holds), e.retained.key;
        if Current(s, e.retained) && s.tasks[k].outcome.Some? && Unheld(holds, e.retained)
        then DisposedAs(s, Contents(), k, s.tasks[k].outcome.value, now) && tasks - {k} == s.tasks - {k}
          && OthersStay(s.homes, homes, k) && KeptWithRecord(s, Contents(), k)
        else Contents() == s
    {
      hide DisposedAs, KeptWithRecord, OthersStay, HomesInv, Disposed;
      LetGoHomes(Contents(), e, now);
      holds := holds.(retainedBy := holds.retainedBy - {e});
      var k := e.retained.key;
      if k in tasks && tasks[k].generation == e.retained.generation && tasks[k].outcome.Some? {
        var held := HasRetentionHolds(e.retained);
        if !held {
          ApplyCompletionPolicy(k);
        }
      }
    }

    // ---- settlement ------------------------------------------------------------------------------

    method PersistTerminalResult(k: Key, error: Option<Error>)
      requires k in tasks && tasks[k].outcome.Some?
      modifies `kept
      ensures var i := Identity(k, tasks[k].generation); var f := Filed(old(kept), i, tasks[k], error, now);
        kept == f.(taskExpiry := old(kept.taskExpiry), terminalExpiry := old(kept.terminalExpiry))
      ensures var t := tasks[k]; var i, failed := Identity(k, t.generation), t.outcome.value.Failure?;
        && kept.results == old(kept.results)[i := Result(t.outcome.value, now, if failed then None else t.success,
                                                         if failed then error else None)]
        && kept.resultExpiry == old(kept.resultExpiry)[i := now + t.options.resultRetention]
        && kept.deadLetters == (if failed then old(kept.deadLetters)[i := now] else old(kept.deadLetters))
        && kept.deadLetterExpiry == if failed then old(kept.deadLetterExpiry)[i := now + t.options.deadLetterRetention]
                                    else old(kept.deadLetterExpiry)
    {
      var t, i := tasks[k], Identity(k, tasks[k].generation);
      if t.outcome.value.Success? {
        kept := kept.(results := kept.results[i := Result(Success, now, t.success, None)]);
      } else {
        kept := kept.(results := kept.results[i := Result(Failure, now, None, error)],
                      deadLetters := kept.deadLetters[i := now],
                      deadLetterExpiry := kept.deadLetterExpiry[i := now + t.options.deadLetterRetention]);
      }
      kept := kept.(resultExpiry := kept.resultExpiry[i := now + t.options.resultRetention]);
    }

    method ScheduleTerminalRetention(k: Key)
      requires k in tasks && tasks[k].outcome.Some?
      modifies `kept
      ensures var i := Identity(k, tasks[k].generation); var f := Filed(old(kept), i, tasks[k], None, now);
        kept == old(kept).(taskExpiry := f.taskExpiry, terminalExpiry := f.terminalExpiry)
      ensures var t := tasks[k]; var i, p := Identity(k, t.generation), Chosen(t.options, t.outcome.value);
        && kept.taskExpiry == old(kept.taskExpiry)[i := now + t.options.taskRetention]
        && kept.terminalExpiry == if p.MarkSuccess? || p.MarkFailure?
                                  then old(kept.terminalExpiry)[i := now + t.options.terminalRetention]
                                  else old(kept.terminalExpiry)
    {
      var t, i := tasks[k], Identity(k, tasks[k].generation);
      kept := kept.(taskExpiry := kept.taskExpiry[i := now + t.options.taskRetention]);
      var policy := if t.outcome.value.Success? then t.options.onSuccess else t.options.onFailure;
      if policy.MarkSuccess? || policy.MarkFailure? {
        kept := kept.(terminalExpiry := kept.terminalExpiry[i := now + t.options.terminalRetention]);
      }
    }

    method SettleTask(k: Key, error: Option<Error>) returns (ghost popped: seq<Edge>, ghost acts: seq<Action>)
      requires Listed() && k in tasks && tasks[k].outcome.Some?
      modifies `homes, `tasks, `kept, `holds, `remaining
      ensures |popped| <= old(remaining) && remaining == old(remaining) - |popped|
      ensures Yields(old(holds), old(IdentityOf(Contents(), k)), old(remaining), popped, acts)
      ensures Reaches(World(Settled(old(Contents()), k, error, now), log, now), acts, State()) && Listed()
      ensures 0 < remaining ==> ListsNobodyNew(old(holds.continuation), holds.continuation)
    {
      hide Settled, Reaches, Disposed, HomesInv, HeldBy, ListsNobodyNew, Release, Yields;
      var i := Identity(k, tasks[k].generation);
      SettledInOrder(Contents(), k, error, now);
      PersistTerminalResult(k, error);
      ScheduleTerminalRetention(k);
      assert Contents() == FiledStore(old(Contents()), k, error, now);
      ApplyCompletionPolicy(k);
      popped, acts := ReleaseOwnedHolds(i);
    }

    // Drops the oldest failures until the new one fits.
    method AppendTaskError(k: Key, e: Entry)
      requires k in tasks
      modifies `tasks
      ensures var t := old(tasks)[k];
        tasks == old(tasks)[k := t.(errors := ErrorsKept(t.errors, e, t.options.maxErrors))]
    {
      var max := tasks[k].options.maxErrors;
      var errors := tasks[k].errors;
      ghost var n := 0;
      while max <= |errors| && 0 < |errors|
        invariant n <= |tasks[k].errors| && errors == tasks[k].errors[n..]
        invariant 0 < n ==> max <= |errors| + 1
        decreases |errors|
      {
        errors, n := errors[1..], n + 1;
      }
      ErrorsKeptByDropping(tasks[k].errors, e, max, n);
      if 0 < max {
        errors := errors + [e];
      }
      tasks := tasks[k := tasks[k].(errors := errors)];
    }

    // One failed attempt: the lease ends, the failure is counted and recorded, and the task is retried or settles.
    method FailTask(k: Key, error: Error, retryAt: Option<Time>, stall: bool)
      returns (ghost popped: seq<Edge>, ghost acts: seq<Action>)
      requires Listed() && k in tasks
      modifies `homes, `tasks, `kept, `holds, `remaining, `locks, `log
      ensures |popped| <= old(remaining) && remaining == old(remaining) - |popped|
      ensures Fails(old(State()), k, stall, error, retryAt, old(remaining), popped, acts, State())
      ensures Listed() && log == FailedLog(old(State()), k, error, retryAt)
      ensures 0 < remaining ==> ListsNobodyNew(old(holds.continuation), holds.continuation)
    {
      hide Settled, Reaches, Disposed, ErrorsKept, Yields, ListsNobodyNew, HomesInv, Placed;
      ghost var w := State();
      ListsTheSame(holds.continuation);
      ghost var failing := Failing(tasks[k], stall, error, retryAt, now);
      locks := locks - {k};
      var t := tasks[k];
      tasks := tasks[k := if stall then t.(stalled := t.stalled + 1) else t.(handlerFailures := t.handlerFailures + 1)];
      AppendTaskError(k, Entry(error, now, retryAt));
      assert tasks == w.store.tasks[k := failing];
      SamePlaceHomes(w.store.tasks, homes, k, failing);
      log := FailedLog(w, k, error, retryAt);
      if !error.Canceled? && retryAt.Some? {
        popped, acts := [], [];
        if now < retryAt.value {
          MoveToList(k, Scheduled, retryAt.value, false);
        } else {
          MoveToList(k, Wait, now, false);
        }
        ReachesNone(State());
      } else {
        SamePlaceHomes(w.store.tasks, homes, k, failing.(outcome := Some(Failure)));
        Overwritten(w.store.tasks, k, failing, failing.(outcome := Some(Failure)));
        tasks := tasks[k := tasks[k].(outcome := Some(Failure))];
        popped, acts := SettleTask(k, Some(error));
      }
    }

    // ---- sweepers --------------------------------------------------------------------------------

    // Due delayed tasks join the waiting list.
    method SyncDelayed(q: Queue) returns (ghost batch: seq<Key>, ghost acts: seq<Action>)
      requires Listed()
      modifies this
      ensures Swept(old(State()), acts, State(), old(remaining) - remaining) && Listed() && cursors == old(cursors)
      ensures IsDueBatch(OfQueue(old(homes.scheduled), q), now, old(remaining), batch)
      ensures old(remaining) - remaining == |batch|
      ensures |acts| == |batch| && forall i :: 0 <= i < |batch| ==> acts[i] == Promote(batch[i])
      ensures holds == old(holds)
    {
      hide Swept, Distinct, SortedBy, DueIn, Placed;
      ghost var w := State();
      acts := [];
      SweptNone(w);
      var items := DueBatch(OfQueue(homes.scheduled, q), now, remaining);
      DueKeys(homes.scheduled, q, now, remaining, items);
      batch := items;
      remaining := remaining - |items|;
      var i := 0;
      while i < |items|
        invariant i <= |items| == |batch| && Listed() && now == w.clock && log == w.log && cursors == old(cursors)
        invariant remaining == old(remaining) - |items| && Swept(w, acts, State(), i) && holds == old(holds)
        invariant |acts| == i && forall j :: 0 <= j < i ==> acts[j] == Promote(items[j])
        invariant forall j :: i <= j < |items| ==> DueIn(homes.scheduled, items[j], now)
      {
        ghost var v := State();
        ScheduledIsTask(tasks, homes, items[i], now);
        OthersStayScheduled(homes, items, i, now);
        SweptStep(w, acts, v, i, Promote(items[i]));
        acts := acts + [Promote(items[i])];
        MoveToList(items[i], Wait, now, false);
        i := i + 1;
      }
    }

    // An attempt whose lease ended is retried, or settles as failed once the stall budget is spent.
    method StallTask(k: Key) returns (ghost popped: seq<Edge>, ghost acts: seq<Action>)
      requires Sound(State()) && DueIn(homes.active, k, now)
      modifies this
      ensures Swept(old(State()), acts, State(), 1 + |popped|) && Sound(State())
      ensures remaining + |popped| == old(remaining)
      ensures State().store.homes.active == old(State()).store.homes.active - {k}
      ensures now == old(now) && cursors == old(cursors)
      ensures Stall(k) in acts && forall a :: a in acts ==> a == Stall(k) || Frees(a)
      ensures 0 < remaining ==> ListsNobodyNew(old(holds.continuation), holds.continuation)
    {
      hide Sound, Fails, Swept, FailedStore;
      ghost var v := State();
      ExpiredIsWork(v, k);
      var retryAt := if tasks[k].options.maxStalled < tasks[k].stalled + 1 then None else Some(0);
      ghost var more;
      popped, more := FailTask(k, Stalled, retryAt, true);
      StallAndRelease(v, k, old(remaining), popped, more, State());
      acts := [Stall(k)] + more;
    }

    // Expired leases end, as many as the budget allows.
    method SyncLocks(q: Queue) returns (ghost batch: seq<Key>, ghost acts: seq<Action>)
      requires Sound(State())
      modifies this
      ensures Swept(old(State()), acts, State(), old(remaining) - remaining) && Sound(State())
      ensures cursors == old(cursors)
      ensures IsDueBatch(OfQueue(old(homes.active), q), now, old(remaining), batch) && StallsBatch(batch, acts)
      ensures remaining + |batch| <= old(remaining)
      ensures 0 < remaining ==> ListsNobodyNew(old(holds.continuation), holds.continuation)
    {
      hide Sound, Swept, StallsBatch, ListsNobodyNew, DueIn, Distinct, SortedBy;
      ghost var w := State();
      acts := [];
      SweptNone(w);
      ListsTheSame(holds.continuation);
      StallsNothing();
      var ids := DueBatch(OfQueue(homes.active, q), now, remaining);
      DueKeys(homes.active, q, now, remaining, ids);
      batch := ids;
      remaining := remaining - |ids|;
      var i := 0;
      ghost var spent := 0;
      while i < |ids|
        invariant i <= |ids| == |batch| && i <= spent && Sound(State()) && now == w.clock && cursors == old(cursors)
        invariant remaining == old(remaining) - |ids| - (spent - i) && Swept(w, acts, State(), spent)
        invariant StallsBatch(ids[..i], acts)
        invariant 0 < remaining ==> ListsNobodyNew(w.store.holds.continuation, holds.continuation)
        invariant forall j :: i <= j < |ids| ==> DueIn(homes.active, ids[j], now)
      {
        ghost var v := State();
        ExpiredIsWork(v, ids[i]);
        OthersStayDue(homes.active, ids, i, now);
        if ids[i] !in locks || locks[ids[i]].until <= now {
          ghost var popped, more := StallTask(ids[i]);
          SweptMore(w, acts, v, spent, more, State(), 1 + |popped|);
          StallsOneMore(ids, i, acts, more);
          if 0 < remaining {
            ListsNobodyLater(w.store.holds.continuation, v.store.holds.continuation, holds.continuation);
          }
          acts, spent := acts + more, spent + 1 + |popped|;
        }
        i := i + 1;
      }
      assert ids[..i] == ids;
    }

    // The holder enlisted longest gives up what the budget allows.
    method SyncRetentionContinuations(q: Queue) returns (ghost holder: Option<Identity>, ghost acts: seq<Action>)
      requires Sound(State()) && Rested(Contents())
      modifies this
      ensures Swept(old(State()), acts, State(), old(remaining) - remaining) && Sound(State())
      ensures cursors == old(cursors)
      ensures holder.None? ==>
        acts == [] && (old(remaining) == 0 || OfQueueIdentities(old(holds.continuation), q) == map[])
      ensures LetsGo(q, old(remaining), old(holds), holds)
      ensures holder.Some? ==> ThenGivesUp(acts, Enlist(holder.value), old(holds), holder.value, old(remaining))
      ensures 0 < remaining ==> ListsNobodyNew(old(holds.continuation), holds.continuation)
      ensures 0 < remaining ==> ListsFewer(q, old(holds.continuation), holds.continuation)
      ensures holder.Some? ==> remaining == 0 || holder.value !in holds.continuation
      ensures holder.Some? ==> var index := OfQueueIdentities(old(holds.continuation), q);
        holder.value in index && forall i :: i in index ==> index[holder.value] <= index[i]
    {
      hide Sound, Swept, Reaches, Release, Known, Unsettled, ListsFewer;
      ghost var w := State();
      holder, acts := None, [];
      SweptNone(w);
      var index := OfQueueIdentities(holds.continuation, q);
      if 0 < remaining && index != map[] {
        var i := First(index);
        holder := Some(i);
        EnlistedIsKnown(w, i);
        SoundIsListed(w);
        ghost var popped, more := ReleaseOwnedHolds(i);
        ReleaseSweeps(w, i, popped, HeldBy(holds, i) == {}, State());
        acts := [BeginRelease(w.store, i)] + more;
        assert acts[1..] == more && acts[0] == Enlist(i);
        SweptSound(w, acts, State(), |popped|);
      }
      if 0 < remaining {
        FirstIsOff(q, w.store.holds.continuation, holds.continuation, holder);
      }
    }

    // ---- expiry -------------------------------------------------------------------------------------

    // An entry that is due: a settled record goes unless it is held, and an entry for anything else is dropped.
    method ExpireTaskEntry(i: Identity) returns (ghost act: Action)
      requires Listed() && DueIn(kept.taskExpiry, i, now)
      modifies `homes, `tasks, `kept, `holds
      ensures OfTasks(act) && EntryOf(act) == Some(i) && Enabled(old(State()), act)
      ensures State() == Apply(old(State()), act)
      ensures Listed() && OthersKept(old(kept.taskExpiry), kept.taskExpiry, i)
      ensures holds.continuation == old(holds.continuation)
      ensures var settled := i.key in old(tasks) && old(tasks)[i.key].generation == i.generation
                             && old(tasks)[i.key].outcome.Some?;
        if settled && !Unheld(old(holds), i)
        then Contents() == old(Contents()).(kept := old(kept).(taskExpiry := old(kept.taskExpiry)[i := now + 1000]))
        else i !in kept.taskExpiry && if settled then i.key !in tasks else tasks == old(tasks)
    {
      hide HomesInv, Held, Unheld, Enabled, Apply, TaskExpired, Postponed;
      if i.key in tasks && tasks[i.key].generation == i.generation && tasks[i.key].outcome.Some? {
        var held := HasRetentionHolds(i);
        if held {
          PostponesHere(State(), i);
          PostponeExpiry(i);
          act := PostponeTask(i);
        } else {
          ExpiresHere(State(), i);
          DropExpiredRecord(i);
          act := ExpireTask(i);
        }
      } else {
        EntryDropped(State(), i);
        kept := kept.(taskExpiry := kept.taskExpiry - {i});
        act := ExpireTask(i);
      }
    }

    method PostponeExpiry(i: Identity)
      modifies `kept
      ensures Contents() == Postponed(old(Contents()), i, now) && OthersKept(old(kept.taskExpiry), kept.taskExpiry, i)
      ensures kept == old(kept).(taskExpiry := old(kept.taskExpiry)[i := now + 1000])
    {
      kept := kept.(taskExpiry := kept.taskExpiry[i := now + 1000]);
    }

    method DropExpiredRecord(i: Identity)
      requires Listed() && Current(Contents(), i) && tasks[i.key].outcome.Some? && !Held(holds, i)
      modifies `homes, `tasks, `kept, `holds
      ensures Contents() == TaskExpired(old(Contents()), i) && Listed() && i.key !in tasks
      ensures kept.taskExpiry == old(kept.taskExpiry) - {i} && holds.continuation == old(holds.continuation)
    {
      assert IdentityOf(Contents(), i.key) == i;
      DeleteTask(i.key, false);
      NobodyLeft(holds, i);
      holds := holds.(retainedBy := set e | e in holds.retainedBy && e.retained != i);
      kept := kept.(taskExpiry := kept.taskExpiry - {i});
    }

    method SyncTaskExpiry(q: Queue) returns (ghost batch: seq<Identity>, ghost acts: seq<Action>)
      requires Listed()
      modifies this
      ensures Swept(old(State()), acts, State(), old(remaining) - remaining) && Listed() && cursors == old(cursors)
      ensures IsDueBatch(OfQueueIdentities(old(kept.taskExpiry), q), now, old(remaining), batch)
      ensures ExpiresBatch(batch, acts, OfTasks)
      ensures remaining + |batch| == old(remaining) && holds.continuation == old(holds.continuation)
    {
      hide Swept, Apply, Enabled, HomesInv;
      ghost var w := State();
      acts := [];
      SweptNone(w);
      var members := DueBatch(OfQueueIdentities(kept.taskExpiry, q), now, remaining);
      DueEntries(kept.taskExpiry, q, now, remaining, members);
      batch := members;
      remaining := remaining - |members|;
      var n := 0;
      while n < |members|
        invariant n <= |members| == |batch| && Listed() && now == w.clock && cursors == old(cursors)
        invariant remaining == old(remaining) - |members| && Swept(w, acts, State(), n)
        invariant ExpiresBatch(members[..n], acts, OfTasks) && holds.continuation == old(holds.continuation)
        invariant forall j :: n <= j < |members| ==> DueIn(kept.taskExpiry, members[j], now)
      {
        ghost var v := State();
        ghost var act := ExpireTaskEntry(members[n]);
        SweptStep(w, acts, v, n, act);
        assert members[..n + 1] == members[..n] + [members[n]];
        acts := acts + [act];
        n := n + 1;
      }
      assert members[..n] == members;
    }

    method ExpireResultEntry(i: Identity) returns (ghost act: Action)
      requires DueIn(kept.resultExpiry, i, now)
      modifies `kept
      ensures OfResults(act) && EntryOf(act) == Some(i) && Enabled(old(State()), act)
      ensures State() == Apply(old(State()), act)
      ensures OthersKept(old(kept.resultExpiry), kept.resultExpiry, i)
      ensures kept == if Unheld(holds, i)
        then old(kept).(results := old(kept.results) - {i}, resultExpiry := old(kept.resultExpiry) - {i})
        else old(kept).(resultExpiry := old(kept.resultExpiry)[i := now + 1000])
    {
      var held := HasRetentionHolds(i);
      if held {
        act := PostponeResult(i);
        kept := kept.(resultExpiry := kept.resultExpiry[i := now + 1000]);
      } else {
        act := ExpireResult(i);
        kept := kept.(results := kept.results - {i}, resultExpiry := kept.resultExpiry - {i});
      }
    }

    // Results are kept as long as anything holds their generation.
    method SyncResultExpiry(q: Queue) returns (ghost batch: seq<Identity>, ghost acts: seq<Action>)
      modifies this
      ensures Swept(old(State()), acts, State(), old(remaining) - remaining) && cursors == old(cursors)
      ensures tasks == old(tasks) && homes == old(homes) && holds == old(holds)
      ensures IsDueBatch(OfQueueIdentities(old(kept.resultExpiry), q), now, old(remaining), batch)
      ensures ExpiresBatch(batch, acts, OfResults)
      ensures remaining + |batch| == old(remaining)
    {
      hide Swept, Apply, Enabled;
      ghost var w := State();
      acts := [];
      SweptNone(w);
      var members := DueBatch(OfQueueIdentities(kept.resultExpiry, q), now, remaining);
      DueEntries(kept.resultExpiry, q, now, remaining, members);
      batch := members;
      remaining := remaining - |members|;
      var n := 0;
      while n < |members|
        invariant n <= |members| == |batch| && now == w.clock && cursors == old(cursors) && tasks == old(tasks)
        invariant homes == old(homes) && holds == old(holds)
        invariant remaining == old(remaining) - |members| && Swept(w, acts, State(), n)
        invariant ExpiresBatch(members[..n], acts, OfResults)
        invariant forall j :: n <= j < |members| ==> DueIn(kept.resultExpiry, members[j], now)
      {
        ghost var v := State();
        ghost var act := ExpireResultEntry(members[n]);
        SweptStep(w, acts, v, n, act);
        assert members[..n + 1] == members[..n] + [members[n]];
        acts := acts + [act];
        n := n + 1;
      }
      assert members[..n] == members;
    }

    method ExpireTerminalEntry(i: Identity) returns (ghost act: Action)
      requires Listed() && DueIn(kept.terminalExpiry, i, now)
      modifies `homes, `tasks, `kept, `log
      ensures OfTerminals(act) && EntryOf(act) == Some(i) && Enabled(old(State()), act)
      ensures State() == Apply(old(State()), act)
      ensures Listed() && OthersKept(old(kept.terminalExpiry), kept.terminalExpiry, i)
      ensures kept == old(kept).(terminalExpiry := old(kept.terminalExpiry) - {i}) && OffLists(tasks, homes, i)
      ensures UnlistsNobodyElse(old(tasks), old(homes), tasks, homes, i)
    {
      hide Enabled, Apply, HomesInv, OffLists, UnlistsNobodyElse;
      UnlistsHere(State(), i);
      UnlistedOff(Contents(), i);
      act := ExpireTerminal(i);
      var k := i.key;
      log := log.(unlisted := log.unlisted + {i});
      if k in tasks && tasks[k].generation == i.generation {
        if k in homes.succeeded || k in homes.failed {
          ListedIsPlaced(tasks, homes, k);
          UnlistedHomes(tasks, homes, k);
          homes := homes.(succeeded := homes.succeeded - {k}, failed := homes.failed - {k});
          tasks := tasks[k := tasks[k].(place := Nowhere)];
        }
      }
      kept := kept.(terminalExpiry := kept.terminalExpiry - {i});
    }

    method SyncTerminalExpiry(q: Queue) returns (ghost batch: seq<Identity>, ghost acts: seq<Action>)
      requires Listed()
      modifies this
      ensures Swept(old(State()), acts, State(), old(remaining) - remaining) && Listed() && cursors == old(cursors)
      ensures IsDueBatch(OfQueueIdentities(old(kept.terminalExpiry), q), now, old(remaining), batch)
      ensures ExpiresBatch(batch, acts, OfTerminals)
      ensures remaining + |batch| == old(remaining) && holds == old(holds)
      ensures AllOffLists(Contents(), batch)
    {
      hide Swept, Apply, Enabled, HomesInv, OffLists, UnlistsNobodyElse;
      ghost var w := State();
      acts := [];
      SweptNone(w);
      var members := DueBatch(OfQueueIdentities(kept.terminalExpiry, q), now, remaining);
      DueEntries(kept.terminalExpiry, q, now, remaining, members);
      batch := members;
      remaining := remaining - |members|;
      var n := 0;
      while n < |members|
        invariant n <= |members| == |batch| && Listed() && now == w.clock && cursors == old(cursors)
        invariant remaining == old(remaining) - |members| && Swept(w, acts, State(), n)
        invariant ExpiresBatch(members[..n], acts, OfTerminals) && holds == old(holds)
        invariant AllOffLists(Contents(), members[..n])
        invariant forall j :: n <= j < |members| ==> DueIn(kept.terminalExpiry, members[j], now)
      {
        ghost var v := State();
        ghost var act := ExpireTerminalEntry(members[n]);
        OffListsStay(v.store, Contents(), members, n);
        SweptStep(w, acts, v, n, act);
        assert members[..n + 1] == members[..n] + [members[n]];
        acts := acts + [act];
        n := n + 1;
      }
      assert members[..n] == members;
    }

    method ExpireDeadLetterEntry(i: Identity) returns (ghost act: Action)
      requires DueIn(kept.deadLetterExpiry, i, now)
      modifies `kept
      ensures OfDeadLetters(act) && EntryOf(act) == Some(i) && Enabled(old(State()), act)
      ensures State() == Apply(old(State()), act)
      ensures OthersKept(old(kept.deadLetterExpiry), kept.deadLetterExpiry, i)
    {
      act := ExpireDeadLetter(i);
      kept := kept.(deadLetters := kept.deadLetters - {i}, deadLetterExpiry := kept.deadLetterExpiry - {i});
    }

    method SyncDeadLetterExpiry(q: Queue) returns (ghost batch: seq<Identity>, ghost acts: seq<Action>)
      modifies this
      ensures Swept(old(State()), acts, State(), old(remaining) - remaining) && cursors == old(cursors)
      ensures tasks == old(tasks) && homes == old(homes) && holds == old(holds)
      ensures IsDueBatch(OfQueueIdentities(old(kept.deadLetterExpiry), q), now, old(remaining), batch)
      ensures ExpiresBatch(batch, acts, OfDeadLetters)
      ensures remaining + |batch| == old(remaining)
    {
      hide Swept, Apply, Enabled;
      ghost var w := State();
      acts := [];
      SweptNone(w);
      var members := DueBatch(OfQueueIdentities(kept.deadLetterExpiry, q), now, remaining);
      DueEntries(kept.deadLetterExpiry, q, now, remaining, members);
      batch := members;
      remaining := remaining - |members|;
      var n := 0;
      while n < |members|
        invariant n <= |members| == |batch| && now == w.clock && cursors == old(cursors) && tasks == old(tasks)
        invariant homes == old(homes) && holds == old(holds)
        invariant remaining == old(remaining) - |members| && Swept(w, acts, State(), n)
        invariant ExpiresBatch(members[..n], acts, OfDeadLetters)
        invariant forall j :: n <= j < |members| ==> DueIn(kept.deadLetterExpiry, members[j], now)
      {
        ghost var v := State();
        ghost var act := ExpireDeadLetterEntry(members[n]);
        SweptStep(w, acts, v, n, act);
        assert members[..n + 1] == members[..n] + [members[n]];
        acts := acts + [act];
        n := n + 1;
      }
      assert members[..n] == members;
    }

    // ---- all sweepers in turn --------------------------------------------------------------------------

    function CursorOf(q: Queue): nat
      reads this
    {
      if q in cursors then cursors[q] else 0
    }

    method Sweep(index: nat, q: Queue, ghost settled: set<Identity>) returns (ghost acts: seq<Action>)
      requires Sound(State()) && Rested(Contents()) && index < SWEEPERS && forall i :: i in settled ==> i in log.settled
      modifies this
      ensures Swept(old(State()), acts, State(), old(remaining) - remaining) && Sound(State())
      ensures cursors == old(cursors)
      ensures Retires(index, q, old(remaining), old(State()), State())
      ensures 0 < remaining ==>
        Clear(index, q, settled, State()) && ListsNobodyNew(old(holds.continuation), holds.continuation)
      ensures 0 < remaining && index == 2 ==> ListsFewer(q, old(holds.continuation), holds.continuation)
    {
      if index < 3 {
        acts := SweepWork(index, q, settled);
      } else {
        acts := SweepIndex(index, q, settled);
      }
    }

    // Delayed tasks, expired leases, and holds still to be given up.
    method SweepWork(index: nat, q: Queue, ghost settled: set<Identity>) returns (ghost acts: seq<Action>)
      requires Sound(State()) && Rested(Contents()) && index < 3
      modifies this
      ensures Swept(old(State()), acts, State(), old(remaining) - remaining) && Sound(State())
      ensures cursors == old(cursors)
      ensures Retires(index, q, old(remaining), old(State()), State())
      ensures 0 < remaining ==>
        Clear(index, q, settled, State()) && ListsNobodyNew(old(holds.continuation), holds.continuation)
      ensures 0 < remaining && index == 2 ==> ListsFewer(q, old(holds.continuation), holds.continuation)
    {
      hide Sound, Rested, Swept, IsDueBatch, HomesInv, Backlog, LetsGo, ExpiredIn, ListsFewer;
      ghost var w, limit := State(), remaining;
      SoundIsListed(w);
      ghost var batch, holder;
      if index == 0 {
        batch, acts := SyncDelayed(q);
        SweptShrinks(w, acts, State(), limit - remaining);
        PromotedRetires(q, limit, w, acts, State(), limit - remaining, batch);
        if 0 < remaining {
          PromotedIsClear(q, settled, w, acts, State(), limit - remaining, limit, batch);
        }
      } else if index == 1 {
        batch, acts := SyncLocks(q);
        SweptShrinks(w, acts, State(), limit - remaining);
        StalledRetires(q, limit, w, acts, State(), limit - remaining, batch);
        if 0 < remaining {
          StalledIsClear(q, settled, w, acts, State(), limit - remaining, limit, batch);
        }
      } else {
        holder, acts := SyncRetentionContinuations(q);
      }
      SweptSound(w, acts, State(), limit - remaining);
    }

    // The four expiry indexes.
    method SweepIndex(index: nat, q: Queue, ghost settled: set<Identity>) returns (ghost acts: seq<Action>)
      requires Sound(State()) && 3 <= index < SWEEPERS && forall i :: i in settled ==> i in log.settled
      modifies this
      ensures Swept(old(State()), acts, State(), old(remaining) - remaining) && Sound(State())
      ensures cursors == old(cursors)
      ensures Retires(index, q, old(remaining), old(State()), State())
      ensures 0 < remaining ==>
        Clear(index, q, settled, State()) && ListsNobodyNew(old(holds.continuation), holds.continuation)
    {
      hide Sound, Swept, IsDueBatch, HomesInv, ExpiresBatch, Clear, Retires, Backlog, LetsGo;
      ghost var w, limit := State(), remaining;
      SoundIsListed(w);
      ghost var batch;
      if index == 3 {
        batch, acts := SyncTaskExpiry(q);
      } else if index == 4 {
        batch, acts := SyncResultExpiry(q);
      } else if index == 5 {
        batch, acts := SyncTerminalExpiry(q);
      } else {
        batch, acts := SyncDeadLetterExpiry(q);
      }
      SweptShrinks(w, acts, State(), limit - remaining);
      SweptSound(w, acts, State(), limit - remaining);
      EntriesRetire(index, q, limit, w, acts, State(), limit - remaining, batch);
      if 0 < remaining {
        SweptIndexIsClear(index, q, settled, w, acts, State(), limit - remaining, limit, batch);
      }
    }

    // Maintenance begins with another sweeper on every call and stops when the budget is spent; if it is not, nothing
    // the sweepers look after is overdue.
    method SyncAll(q: Queue) returns (ghost acts: seq<Action>)
      requires Valid()
      modifies this
      ensures Swept(old(State()), acts, State(), old(remaining) - remaining) && Valid()
      ensures cursors == old(cursors)[q := (old(CursorOf(q)) + 1) % SWEEPERS]
      ensures Retires(old(CursorOf(q)), q, old(remaining), old(State()), State())
      ensures 0 < remaining ==> CaughtUp(q, old(log.settled).Keys, State())
      ensures 0 < remaining ==> ReleasesGoOn(q, old(holds), holds)
    {
      hide Sound, Rested, Swept, Retires, Clear, ListedSoFar, ListsFewer, ListsNobodyNew;
      ghost var w, settled := State(), log.settled.Keys;
      var cursor := CursorOf(q);
      acts := [];
      SweptNone(w);
      RetiresNone(cursor, q, w);
      NoneListedYet(q, holds, cursor);
      var offset := 0;
      while offset < SWEEPERS && 0 < remaining
        invariant offset <= SWEEPERS && Sound(State()) && Rested(Contents()) && cursors == old(cursors)
        invariant Swept(w, acts, State(), old(remaining) - remaining)
        invariant offset == 0 ==> State() == w && remaining == old(remaining)
        invariant 0 < offset ==> Retires(cursor, q, old(remaining), w, State())
        invariant forall i :: i in settled ==> i in log.settled
        invariant 0 < remaining ==> ClearSoFar(q, settled, State(), cursor, offset)
        invariant 0 < remaining ==> ListedSoFar(q, w.store.holds, holds, cursor, offset)
      {
        ghost var v := State();
        ghost var before := remaining;
        ghost var more := Sweep(Turn(cursor, offset), q, settled);
        SweptShrinks(v, more, State(), before - remaining);
        SweptRests(v, more, State(), before - remaining);
        SweptMore(w, acts, v, old(remaining) - before, more, State(), before - remaining);
        if 0 < offset {
          RetiresStays(cursor, q, old(remaining), w, v, more, State(), before - remaining);
        }
        if 0 < remaining {
          OneMoreTurn(q, settled, v, more, State(), before - remaining, cursor, offset);
          OneMoreListed(q, w.store.holds, v.store.holds, holds, cursor, offset);
        }
        SweptSettles(v, more, State(), before - remaining);
        acts, offset := acts + more, offset + 1;
      }
      if 0 < remaining {
        AllTurnsCatchUp(q, settled, State(), cursor);
        AllTurnsRelease(q, w.store.holds, holds, cursor);
      }
      cursors := cursors[q := (cursor + 1) % SWEEPERS];
    }

    // ---- operations -----------------------------------------------------------------------------------

    // Every operation that maintains first: the server's clock is read and the sweepers run.
    method Open(q: Queue, time: nat, batch: nat) returns (ghost upkeep: seq<Action>)
      requires Valid() && now <= time
      modifies this
      ensures Reaches(old(State()), [Tick(time)] + upkeep, State()) && Valid()
      ensures AllUpkeep(upkeep) && Cost(upkeep) + remaining == batch && now == time
      ensures cursors == old(cursors)[q := (old(CursorOf(q)) + 1) % SWEEPERS]
      ensures Retires(old(CursorOf(q)), q, batch, Apply(old(State()), Tick(time)), State())
      ensures 0 < remaining ==> CaughtUp(q, old(log.settled).Keys, State()) && ReleasesGoOn(q, old(holds), holds)
    {
      hide Sound, Rested, Retires, CaughtUp, ReleasesGoOn;
      ghost var w := State();
      SpendsOne(w, Tick(time));
      now, remaining := time, batch;
      SpendsSound(w, [Tick(time)], State(), 0);
      TickRests(w, time);
      ghost var v := State();
      upkeep := SyncAll(q);
      SweptShrinks(v, upkeep, State(), batch - remaining);
      ReachesMore(w, [Tick(time)], v, upkeep, State());
    }

    // Maintenance on its own; it reports how much of its budget it spent.
    method Maintain(q: Queue, time: nat, batch: nat) returns (spent: nat, ghost upkeep: seq<Action>)
      requires Valid() && now <= time
      modifies this
      ensures Valid() && Script(old(State()), time, batch, upkeep, [], State()) && now == time
      ensures Maintains(q, batch, Apply(old(State()), Tick(time)), old(CursorOf(q)), State(), CursorOf(q))
      ensures spent == Cost(upkeep)
      ensures spent < batch ==> CaughtUp(q, old(log.settled).Keys, State()) && ReleasesGoOn(q, old(holds), holds)
    {
      hide Sound, Rested, Retires, CaughtUp, Parts, ReleasesGoOn;
      ghost var w := State();
      upkeep := Open(q, time, batch);
      spent := batch - remaining;
      ScriptStops(w, time, batch, upkeep, State(), remaining);
      MaintenanceTakesTurns(q, batch, w, time, upkeep, State(), old(CursorOf(q)));
    }

    // A worker repeats maintenance: at one instant, seven calls for each batch of any one backlog end it, whatever else
    // there is to do.
    method DrainBacklog(q: Queue, time: nat, batch: nat, rounds: nat)
      requires Valid() && now <= time
      modifies this
      ensures Valid() && now <= time
      ensures forall n: nat ::
        n < SWEEPERS && n != 2 && Backlog(n, q, old(State()).(clock := time)) <= batch * rounds ==>
        Backlog(n, q, State().(clock := time)) == 0
    {
      hide Sound, Rested, Maintains, Script, CaughtUp, ReleasesGoOn, Backlog;
      ghost var first := State().(clock := time);
      ghost var ws, turns := [first], [CursorOf(q)];
      var n := 0;
      while n < SWEEPERS * rounds
        invariant n <= SWEEPERS * rounds && Valid() && now <= time
        invariant |ws| == |turns| == n + 1 && Maintained(q, batch, ws, turns)
        invariant ws[0] == first && ws[n] == State().(clock := time) && turns[n] == CursorOf(q)
      {
        var spent, upkeep := Maintain(q, time, batch);
        MaintainedOnce(q, batch, ws, turns, State(), CursorOf(q));
        ws, turns, n := ws + [State()], turns + [CursorOf(q)], n + 1;
      }
      forall m: nat | m < SWEEPERS && m != 2 && Backlog(m, q, first) <= batch * rounds
        ensures Backlog(m, q, State().(clock := time)) == 0
      {
        BacklogDrains(m, q, batch, ws, turns, 0, rounds);
      }
    }

    // Repeated at one instant until it spends nothing and lists nobody, maintenance comes to an end, and then nothing
    // of the queue is overdue, whatever it was due for and whenever it became due, and nobody has holds still to give
    // up.
    method CatchUp(q: Queue, time: nat, batch: nat)
      requires Valid() && now <= time && 0 < batch
      modifies this
      ensures Valid() && now == time
      ensures NothingDue(q, Contents(), now) && forall h :: h in holds.continuation ==> h.key.queue != q
    {
      hide Sound, Rested, Maintains, Reaches, AllUpkeep, CaughtUp, NothingDue, ReleasesGoOn, Workload, Parts;
      var spent := 1;
      while 0 < spent || OfQueueIdentities(holds.continuation, q) != map[]
        invariant Valid() && now <= time
        invariant spent == 0 ==> now == time && CaughtUp(q, log.settled.Keys, State())
        decreases Workload(Contents(), time), |OfQueueIdentities(holds.continuation, q)|, spent
      {
        ghost var w := State();
        ghost var upkeep;
        spent, upkeep := Maintain(q, time, batch);
        assert [Tick(time)] + upkeep + [] == [Tick(time)] + upkeep;
        MaintenancePays(w, time, upkeep, State());
        if spent == 0 {
          IdleMaintenanceSettlesNothing(w, time, upkeep, State());
          GoingOnIsFewer(q, w.store.holds, holds);
        }
      }
      CaughtUpIsNothingDue(q, State());
      assert forall h :: h in holds.continuation && h.key.queue == q ==> h in OfQueueIdentities(holds.continuation, q);
    }

    // The head of the queue goes to the active list, its attempt is counted and it is locked.
    method LockTask(k: Key, token: Token, timeout: nat)
      requires Listed() && Enabled(State(), Take(k, token, timeout))
      modifies `homes, `tasks, `locks, `log
      ensures State() == Apply(old(State()), Take(k, token, timeout))
    {
      hide OnlyOn, OthersStay, FirstWaiting, Placed, HomesInv;
      ghost var s := Contents();
      TakenInOrder(s, k, token, now + timeout);
      MoveToList(k, Active, now + timeout, false);
      tasks := tasks[k := tasks[k].(attempt := tasks[k].attempt + 1)];
      locks := locks[k := Lock(token, now + timeout)];
      log := log.(tokens := log.tokens + {token});
    }

    method TakeTask(q: Queue, time: nat, batch: nat, token: Token, timeout: int)
      returns (reply: Reply<Option<(Key, Task)>>, ghost upkeep: seq<Action>, ghost found: World,
               ghost core: seq<Action>)
      requires Valid() && now <= time && token !in log.tokens
      modifies this
      ensures Valid()
      ensures reply == Refused(InvalidLockTimeout) <==> timeout <= 0
      ensures reply.Refused? ==> timeout <= 0 && State() == old(State())
      ensures reply.Ok? ==> Script(old(State()), time, batch, upkeep, core, State())
      ensures reply.Ok? ==> Reaches(old(State()), [Tick(time)] + upkeep, found) && found.clock == time
      ensures reply == Ok(None) ==> core == [] && State() == found && forall k :: k in homes.wait ==> k.queue != q
      ensures reply == Ok(None) && Cost(upkeep) < batch ==>
        CaughtUp(q, old(log.settled).Keys, State()) && ReleasesGoOn(q, old(holds), holds)
      ensures reply.Ok? && reply.value.Some? ==> var (k, t) := reply.value.value;
        && k.queue == q && core == [Take(k, token, timeout)]
        && k in tasks && t == tasks[k] && Owns(Contents(), k, token, now)
      ensures reply.Ok? && reply.value.Some? ==> var (k, t) := reply.value.value;
        && k in found.store.tasks && TakenAs(found.store, Contents(), k, token, time + timeout)
        && k in found.store.homes.wait
        && (forall i, j :: 0 <= i < j < |found.store.homes.wait| && found.store.homes.wait[j] == k ==>
              found.store.homes.wait[i].queue != q)
        && (k in old(homes.scheduled) ==> old(homes.scheduled)[k] <= time)
    {
      hide Sound, Rested, Parts, Reaches, Spends, Script, CaughtUp, ReleasesGoOn, TakenAs, Enabled, Apply, FirstWaiting,
           Inv, Owns;
      upkeep, core, found := [], [], State();
      if timeout <= 0 {
        return Refused(InvalidLockTimeout), [], found, [];
      }
      ghost var w := State();
      upkeep := Open(q, time, batch);
      ghost var v := State();
      found := v;
      SoundIsListed(v);
      var head := HeadOf(homes.wait, q);
      if head.None? {
        ScriptStops(w, time, batch, upkeep, v, remaining);
        return Ok(None), upkeep, found, [];
      }
      var k := head.value;
      TokensFresh(w, time, upkeep, v, token);
      HeadIsLeased(v, k, token, timeout);
      if k in locks && now < locks[k].until {
        assert false;
      }
      core := [Take(k, token, timeout)];
      SpendsOne(v, Take(k, token, timeout));
      SoundIsInv(w);
      if k in w.store.homes.scheduled {
        UpkeepIsNotEarly(w, time, upkeep, v, k, token, timeout);
      }
      LockTask(k, token, timeout);
      PartsNobody(core, State().store);
      ScriptEnds(w, time, batch, upkeep, v, remaining, core, State(), 0);
      reply := Ok(Some((k, tasks[k])));
    }

    method HoldsLease(k: Key, token: Token) returns (owner: bool)
      ensures owner == Owns(Contents(), k, token, now)
      ensures owner <==> k in locks && locks[k].token == token && now < locks[k].until
    {
      owner := k in locks && now < locks[k].until && locks[k].token == token;
    }

    // Renewal moves the deadline of the lock and of the active list together.
    method ExtendLock(time: nat, k: Key, token: Token, timeout: int) returns (reply: Reply<()>, ghost core: seq<Action>)
      requires Valid() && now <= time
      modifies this
      ensures Valid()
      ensures reply == Refused(InvalidLockTimeout) <==> timeout <= 0
      ensures timeout <= 0 ==> State() == old(State())
      ensures 0 < timeout ==> Script(old(State()), time, 0, [], core, State())
      ensures reply == Refused(LeaseLost) ==> core == [] && !Owns(Contents(), k, token, now)
      ensures reply.Ok? ==>
        core == [Extend(k, token, timeout)] && Owns(Contents(), k, token, now) && locks[k].until == now + timeout
      ensures reply.Ok? ==>
        && tasks == old(tasks) && holds == old(holds) && kept == old(kept)
        && locks == old(locks)[k := Lock(token, time + timeout)]
        && OnlyOn(homes, k, Active, time + timeout) && OthersStay(old(homes), homes, k)
      ensures reply.Refused? ==> reply.reason == InvalidLockTimeout || reply.reason == LeaseLost
      ensures reply.Refused? ==> Contents() == old(Contents())
    {
      hide Sound, Rested, Parts, Reaches, Spends, Script, OnlyOn, OthersStay, Apply;
      core := [];
      if timeout <= 0 {
        return Refused(InvalidLockTimeout), [];
      }
      ghost var w := State();
      TickSpends(w, time);
      now := time;
      ghost var v := State();
      var owner := HoldsLease(k, token);
      if !owner {
        ScriptStops(w, time, 0, [], v, 0);
        return Refused(LeaseLost), [];
      }
      LeasedIsWork(v, k);
      LeasedIsActive(v, k);
      core := [Extend(k, token, timeout)];
      SpendsOne(v, Extend(k, token, timeout));
      ProlongLease(k, token, timeout);
      PartsNobody(core, State().store);
      ScriptEnds(w, time, 0, [], v, 0, core, State(), 0);
      reply := Ok(());
    }

    method ProlongLease(k: Key, ghost token: Token, timeout: nat)
      requires Listed() && Enabled(State(), Extend(k, token, timeout)) && tasks[k].place.Active?
      modifies `homes, `tasks, `locks
      ensures State() == Apply(old(State()), Extend(k, token, timeout)) && Owns(Contents(), k, token, now)
      ensures tasks == old(tasks) && locks == old(locks)[k := Lock(token, now + timeout)]
      ensures OnlyOn(homes, k, Active, now + timeout) && OthersStay(old(homes), homes, k)
    {
      hide OnlyOn, OthersStay, HomesInv;
      ExtendedExactly(State(), k, token, timeout);
      ExtendedInOrder(Contents(), k, now + timeout);
      locks := locks[k := locks[k].(until := now + timeout)];
      MoveToList(k, Active, now + timeout, false);
    }

    // A worker gives its attempt back: the task waits again at once, and no stall is counted.
    method RemoveLock(time: nat, k: Key, token: Token) returns (reply: Reply<()>, ghost core: seq<Action>)
      requires Valid() && now <= time
      modifies this
      ensures Valid() && Script(old(State()), time, 0, [], core, State())
      ensures reply.Refused? ==> reply.reason == LeaseLost && core == [] && !Owns(Contents(), k, token, now)
      ensures reply.Refused? ==> Contents() == old(Contents())
      ensures reply.Ok? ==> core == [GiveUp(k, token)] && k in homes.wait && k !in locks
      ensures reply.Ok? ==>
        && k in old(tasks) && tasks == old(tasks)[k := old(tasks)[k].(place := Wait)] && locks == old(locks) - {k}
        && OnlyOn(homes, k, Wait, time) && OthersStay(old(homes), homes, k) && holds == old(holds) && kept == old(kept)
    {
      hide Sound, Rested, Parts, Reaches, Spends, Script, OnlyOn, OthersStay;
      core := [];
      ghost var w := State();
      TickSpends(w, time);
      now := time;
      ghost var v := State();
      var owner := HoldsLease(k, token);
      if !owner {
        ScriptStops(w, time, 0, [], v, 0);
        return Refused(LeaseLost), [];
      }
      LeasedIsWork(v, k);
      GivenUpExactly(v, k, token);
      core := [GiveUp(k, token)];
      SpendsOne(v, GiveUp(k, token));
      ReturnAttempt(k, token);
      PartsNobody(core, State().store);
      ScriptEnds(w, time, 0, [], v, 0, core, State(), 0);
      reply := Ok(());
    }

    method ReturnAttempt(k: Key, ghost token: Token)
      requires Listed() && Enabled(State(), GiveUp(k, token))
      modifies `homes, `tasks, `locks, `log
      ensures State() == Apply(old(State()), GiveUp(k, token))
      ensures k in homes.wait && k !in locks
    {
      ghost var i := IdentityOf(Contents(), k);
      locks := locks - {k};
      MoveToList(k, Wait, now, false);
      log := log.(released := log.released[i := Released(log, i) + 1]);
    }

    // ---- settling operations ------------------------------------------------------------------------------

    method WriteSuccess(time: nat, batch: nat, k: Key, token: Token, value: Value)
      returns (reply: Reply<()>, ghost upkeep: seq<Action>, ghost found: World, ghost core: seq<Action>)
      requires Valid() && now <= time
      modifies this
      ensures Valid() && Script(old(State()), time, batch, upkeep, core, State())
      ensures Reaches(old(State()), [Tick(time)] + upkeep, found) && Reaches(found, core, State())
      ensures reply == Refused(TaskNotFound) <==> k !in found.store.tasks
      ensures reply == Refused(LeaseLost) <==> k in found.store.tasks && !Owns(found.store, k, token, time)
      ensures reply.Refused? ==> core == [] && (reply.reason == TaskNotFound || reply.reason == LeaseLost)
      ensures reply.Ok? ==>
        ThenGivesUp(core, Succeed(k, token, value), found.store.holds, IdentityOf(found.store, k), batch - Cost(upkeep))
      ensures reply.Ok? ==>
        var i, r := Identity(k, found.store.tasks[k].generation), Result(Success, time, Some(value), None);
        LeavesBehind(found.store, Contents(), k, r, time) && log.settled == found.log.settled[i := r]
      ensures reply.Ok? && found.store.tasks[k].options.onSuccess.Delete? && k in tasks ==>
        !Unheld(holds, Identity(k, found.store.tasks[k].generation))
    {
      hide Sound, Rested, Parts, Reaches, Spends, Script, ThenGivesUp, OnlyOn;
      core := [];
      ghost var w := State();
      upkeep := Open(k.queue, time, batch);
      found := State();
      ghost var left := remaining;
      ScriptStops(w, time, batch, upkeep, found, left);
      ReachesNone(found);
      if k !in tasks {
        return Refused(TaskNotFound), upkeep, found, [];
      }
      var owner := HoldsLease(k, token);
      if !owner {
        return Refused(LeaseLost), upkeep, found, [];
      }
      core := Complete(k, token, value);
      ScriptEnds(w, time, batch, upkeep, found, left, core, State(), left - remaining);
      SpendsReaches(found, core, State(), left - remaining);
      SuccessLeavesBehind(found, core, k, token, value, left, State());
      reply := Ok(());
    }

    method Complete(k: Key, ghost token: Token, value: Value) returns (ghost core: seq<Action>)
      requires Sound(State()) && Enabled(State(), Succeed(k, token, value))
      modifies this
      ensures Spends(old(State()), core, State(), old(remaining) - remaining) && remaining <= old(remaining)
      ensures ThenGivesUp(core, Succeed(k, token, value), old(holds), old(IdentityOf(Contents(), k)), old(remaining))
      ensures Parts(core, Contents()) && cursors == old(cursors)
    {
      hide Sound, Reaches, Spends, Settled, ThenFrees, ThenGivesUp, Yields, Parts;
      ghost var v := State();
      LeasedIsWork(v, k);
      SamePlaceHomes(tasks, homes, k, tasks[k].(success := Some(value), outcome := Some(Success)));
      locks := locks - {k};
      tasks := tasks[k := tasks[k].(success := Some(value), outcome := Some(Success))];
      log := Recorded(log, IdentityOf(v.store, k), Result(Success, now, Some(value), None));
      ghost var popped, more := SettleTask(k, None);
      ThenReleaseSpends(v, Succeed(k, token, value), IdentityOf(v.store, k), old(remaining), popped, more, State());
      core := [Succeed(k, token, value)] + more;
      FreesParts(core, Succeed(k, token, value), Contents());
    }

    // A negative instant means that the failure is final.
    method WriteError(time: nat, batch: nat, k: Key, token: Token, error: Error, retryAt: int)
      returns (reply: Reply<()>, ghost upkeep: seq<Action>, ghost found: World, ghost core: seq<Action>)
      requires Valid() && now <= time
      modifies this
      ensures Valid()
      ensures reply == Refused(InvalidRetryAt) <==> retryAt < -1
      ensures retryAt < -1 ==> State() == old(State())
      ensures -1 <= retryAt ==> Script(old(State()), time, batch, upkeep, core, State())
      ensures -1 <= retryAt ==> Reaches(old(State()), [Tick(time)] + upkeep, found) && Reaches(found, core, State())
      ensures reply == Refused(TaskNotFound) <==> -1 <= retryAt && k !in found.store.tasks
      ensures reply == Refused(LeaseLost) <==>
        -1 <= retryAt && k in found.store.tasks && !Owns(found.store, k, token, time)
      ensures reply.Refused? ==> core == [] && reply.reason in {InvalidRetryAt, TaskNotFound, LeaseLost}
      ensures reply.Ok? ==>
        FailsThenGivesUp(core, k, token, error, RetryTime(retryAt), found.store, batch - Cost(upkeep))
      ensures reply.Ok? && 0 <= retryAt && !error.Canceled? ==>
        && RetriedAs(found.store, Contents(), k, false, retryAt, time) && log == found.log
        && k in tasks && tasks[k].outcome.None? && k !in locks
        && if time < retryAt then k in homes.scheduled && homes.scheduled[k] == retryAt else k in homes.wait
      ensures reply.Ok? && (retryAt < 0 || error.Canceled?) ==>
        var i, r := Identity(k, found.store.tasks[k].generation), Result(Failure, time, None, Some(error));
        LeavesBehind(found.store, Contents(), k, r, time) && log.settled == found.log.settled[i := r]
      ensures reply.Ok? && (retryAt < 0 || error.Canceled?) && found.store.tasks[k].options.onFailure.Delete? ==>
        k !in tasks || !Unheld(holds, Identity(k, found.store.tasks[k].generation))
    {
      hide Sound, Rested, Parts, Reaches, Spends, Script, FailsThenGivesUp;
      upkeep, core, found := [], [], State();
      if retryAt < -1 {
        return Refused(InvalidRetryAt), [], found, [];
      }
      ghost var w := State();
      upkeep := Open(k.queue, time, batch);
      found := State();
      ghost var left := remaining;
      ScriptStops(w, time, batch, upkeep, found, left);
      ReachesNone(found);
      if k !in tasks {
        return Refused(TaskNotFound), upkeep, found, [];
      }
      var owner := HoldsLease(k, token);
      if !owner {
        return Refused(LeaseLost), upkeep, found, [];
      }
      LeasedIsWork(found, k);
      core := GiveFailure(k, token, error, RetryTime(retryAt));
      ScriptEnds(w, time, batch, upkeep, found, left, core, State(), left - remaining);
      SpendsReaches(found, core, State(), left - remaining);
      FailureLeavesBehind(found, core, k, token, error, retryAt, left, State());
      reply := Ok(());
    }

    method GiveFailure(k: Key, ghost token: Token, error: Error, retryAt: Option<Time>)
      returns (ghost core: seq<Action>)
      requires Sound(State()) && Enabled(State(), Fail(k, token, error, retryAt))
      modifies this
      ensures Spends(old(State()), core, State(), old(remaining) - remaining) && remaining <= old(remaining)
      ensures FailsThenGivesUp(core, k, token, error, retryAt, old(Contents()), old(remaining))
      ensures Parts(core, Contents()) && cursors == old(cursors)
    {
      hide Sound, Fails, Spends, ThenFrees, ThenGivesUp, FailedLog, Parts;
      ghost var v := State();
      LeasedIsWork(v, k);
      ghost var popped, more := FailTask(k, error, retryAt, false);
      FailSpends(v, k, token, error, retryAt, old(remaining), popped, more, State());
      core := [Fail(k, token, error, retryAt)] + more;
      FreesParts(core, Fail(k, token, error, retryAt), Contents());
    }

    // ---- removal ------------------------------------------------------------------------------------------

    method RemoveTask(time: nat, batch: nat, k: Key)
      returns (reply: Reply<()>, ghost upkeep: seq<Action>, ghost found: World, ghost core: seq<Action>)
      requires Valid() && now <= time
      modifies this
      ensures Valid() && Script(old(State()), time, batch, upkeep, core, State())
      ensures Reaches(old(State()), [Tick(time)] + upkeep, found) && Reaches(found, core, State())
      ensures var leased := k in found.store.locks && time < found.store.locks[k].until;
        && (reply == Refused(TaskLeased) <==> leased)
        && (reply == Refused(TaskHeld) <==>
              !leased && k in found.store.tasks
                && !Unheld(found.store.holds, Identity(k, found.store.tasks[k].generation)))
      ensures reply.Refused? ==> core == [] && (reply.reason == TaskLeased || reply.reason == TaskHeld)
      ensures reply.Ok? ==> k !in tasks && (k !in found.store.tasks ==> core == [])
      ensures reply.Ok? && k in found.store.tasks ==>
        Withdraws(core, found.store, IdentityOf(found.store, k), batch - Cost(upkeep), Remove(k))
    {
      hide Sound, Rested, Parts, Reaches, Spends, Script, Withdraws;
      core := [];
      ghost var w := State();
      upkeep := Open(k.queue, time, batch);
      found := State();
      ghost var left := remaining;
      ScriptStops(w, time, batch, upkeep, found, left);
      ReachesNone(found);
      if k in locks && now < locks[k].until {
        return Refused(TaskLeased), upkeep, found, [];
      }
      if k !in tasks {
        return Ok(()), upkeep, found, [];
      }
      var held := HasRetentionHolds(Identity(k, tasks[k].generation));
      if held {
        return Refused(TaskHeld), upkeep, found, [];
      }
      core := DropTask(k);
      ScriptEnds(w, time, batch, upkeep, found, left, core, State(), left - remaining);
      SpendsReaches(found, core, State(), left - remaining);
      reply := Ok(());
    }

    // The task gives up its own holds, then its record goes.
    method DropTask(k: Key) returns (ghost core: seq<Action>)
      requires Sound(State()) && Removable(State(), k)
      modifies this
      ensures Spends(old(State()), core, State(), old(remaining) - remaining) && remaining <= old(remaining)
      ensures k !in tasks && Parts(core, Contents()) && cursors == old(cursors)
      ensures Withdraws(core, old(Contents()), old(IdentityOf(Contents(), k)), old(remaining), Remove(k))
    {
      hide Sound, Reaches, Spends, BeginRelease, Release, Withdraws, Yields, Parts;
      ghost var v := State();
      var i := Identity(k, tasks[k].generation);
      SoundIsListed(v);
      ghost var popped, more := ReleaseOwnedHolds(i);
      ghost var last := HeldBy(holds, i) == {};
      RemovalSpends(v, k, popped, last, State());
      RemovalCore(v.store, i, old(remaining), popped, more, Remove(k));
      core := [BeginRelease(v.store, i)] + more + [Remove(k)];
      DeleteTask(k, false);
      WithdrawalParts(core, v.store, i, old(remaining), Remove(k), Contents());
    }

    // Administrative removal: the lease is revoked and inbound holds are dropped with everything kept for the
    // generation.
    method ForceRemoveTask(time: nat, batch: nat, k: Key)
      returns (ghost upkeep: seq<Action>, ghost found: World, ghost core: seq<Action>)
      requires Valid() && now <= time
      modifies this
      ensures Valid() && Script(old(State()), time, batch, upkeep, core, State())
      ensures Reaches(old(State()), [Tick(time)] + upkeep, found) && Reaches(found, core, State())
      ensures k !in tasks
      ensures k in found.store.tasks ==> var i := Identity(k, found.store.tasks[k].generation);
        k !in locks && NothingKept(kept, i) && Unheld(holds, i)
      ensures if k !in found.store.tasks then core == []
              else WithdrawsByForce(core, found.store, IdentityOf(found.store, k), batch - Cost(upkeep))
    {
      hide Sound, Rested, Parts, Reaches, Spends, Script, WithdrawsByForce;
      core := [];
      ghost var w := State();
      upkeep := Open(k.queue, time, batch);
      found := State();
      ghost var left := remaining;
      ScriptStops(w, time, batch, upkeep, found, left);
      ReachesNone(found);
      if k in tasks {
        core := PurgeTask(k);
        ScriptEnds(w, time, batch, upkeep, found, left, core, State(), left - remaining);
        SpendsReaches(found, core, State(), left - remaining);
      }
    }

    method PurgeTask(k: Key) returns (ghost core: seq<Action>)
      requires Sound(State()) && k in tasks
      modifies this
      ensures Spends(old(State()), core, State(), old(remaining) - remaining) && remaining <= old(remaining)
      ensures k !in tasks && Parts(core, Contents()) && cursors == old(cursors)
      ensures k !in locks && NothingKept(kept, old(IdentityOf(Contents(), k)))
        && Unheld(holds, old(IdentityOf(Contents(), k)))
      ensures WithdrawsByForce(core, old(Contents()), old(IdentityOf(Contents(), k)), old(remaining))
    {
      hide Sound, Reaches, Spends, BeginRelease, Release, HomesInv, Withdraws, Yields, ForcedStep, Parts, Apply,
           Enabled, HeldBy;
      ghost var v := State();
      var i := Identity(k, tasks[k].generation);
      SoundIsListed(v);
      locks := locks - {k};
      ghost var popped, more := ReleaseOwnedHolds(i);
      ghost var last := HeldBy(holds, i) == {};
      ForcedRemovalSpends(v, k, popped, last, State());
      ghost var u := WithLocks(State(), v.store.locks);
      ghost var act := ForcedStep(u.store, i);
      RemovalCore(v.store, i, old(remaining), popped, more, act);
      ForcedStepIsOneOfTwo(u.store, i);
      core := [BeginRelease(v.store, i)] + more + [act];
      DropEverything(k, i, u);
      WithdrawalParts(core, v.store, i, old(remaining), act, Contents());
    }

    method DropKept(i: Identity)
      modifies `kept, `holds
      ensures Contents() == Dropped(old(Contents()), i) && NothingKept(kept, i) && Unheld(holds, i)
    {
      holds := holds.(retainedBy := set e | e in holds.retainedBy && e.retained != i);
      kept := Kept(kept.results - {i}, kept.deadLetters - {i}, kept.taskExpiry - {i},
                   kept.resultExpiry - {i}, kept.terminalExpiry - {i}, kept.deadLetterExpiry - {i});
    }

    method DropEverything(k: Key, i: Identity, ghost u: World)
      requires Listed() && Sound(u) && i.key == k && State().store == Unlocked(u.store, k) && State().clock == u.clock
      requires State().log == u.log
      requires k in u.store.tasks ==> IdentityOf(u.store, k) == i
      requires Enabled(u, ForcedStep(u.store, i))
      modifies `homes, `tasks, `kept, `holds, `log
      ensures State() == Apply(u, ForcedStep(u.store, i)) && k !in tasks
      ensures NothingKept(kept, i) && Unheld(holds, i) && locks == old(locks)
    {
      hide Sound, HomesInv, HoldsInv, Dropped, Deleted, Purged, Forgotten, GoneFrom;
      SoundHolds(u);
      DropKept(i);
      if k in tasks {
        DroppedIsPurged(u.store, k);
        DeletedExactly(Contents(), k);
        DeleteTask(k, false);
        log := log.(forced := log.forced + {i});
      } else {
        DroppedIsForgotten(u.store, i);
      }
    }

    // ---- creation -------------------------------------------------------------------------------------------

    method ValidateLiveHolder(holder: Identity) returns (refusal: Option<Refusal>)
      ensures refusal.None? <==> Unsettled(Contents(), holder)
      ensures refusal == Some(HolderNotFound) <==> holder.key !in tasks
      ensures refusal == Some(HolderReplaced) <==> holder.key in tasks && !Current(Contents(), holder)
      ensures refusal.Some? ==>
        refusal.value == HolderNotFound || refusal.value == HolderReplaced || refusal.value == HolderSettled
    {
      if holder.key !in tasks {
        return Some(HolderNotFound);
      }
      if tasks[holder.key].generation != holder.generation {
        return Some(HolderReplaced);
      }
      refusal := if tasks[holder.key].outcome.Some? then Some(HolderSettled) else None;
    }

    // A hold that exists already is granted again, also at the limit.
    method AcquireRetentionHold(e: Edge) returns (refusal: Option<Refusal>)
      requires e.holder.key in tasks && e.retained.key in tasks
      modifies `holds
      ensures var full := tasks[e.holder.key].options.maxRelationships <= |HeldBy(old(holds), e.holder)|;
        var crowded := tasks[e.retained.key].options.maxRelationships <= |HoldersOf(old(holds), e.retained)|;
        && (refusal == Some(HolderLimit) <==> e !in old(holds.retainedBy) && full)
        && (refusal == Some(RetainedLimit) <==> e !in old(holds.retainedBy) && !full && crowded)
      ensures refusal.Some? ==> refusal.value == HolderLimit || refusal.value == RetainedLimit
      ensures holds == if refusal.Some? || e in old(holds.retainedBy) then old(holds)
        else old(holds).(retainedBy := old(holds.retainedBy) + {e}, retains := old(holds.retains) + {e})
    {
      if e in holds.retainedBy {
        return None;
      }
      if tasks[e.holder.key].options.maxRelationships <= |HeldBy(holds, e.holder)| {
        return Some(HolderLimit);
      }
      if tasks[e.retained.key].options.maxRelationships <= |HoldersOf(holds, e.retained)| {
        return Some(RetainedLimit);
      }
      holds := holds.(retainedBy := holds.retainedBy + {e}, retains := holds.retains + {e});
      refusal := None;
    }

    // A hold on an existing task.
    method HoldExisting(k: Key, holder: Identity) returns (refusal: Option<Refusal>, ghost core: seq<Action>)
      requires k in tasks && Unsettled(Contents(), holder)
      modifies `holds
      ensures Spends(old(State()), core, State(), 0)
      ensures var s, e := old(Contents()), Edge(holder, old(IdentityOf(Contents(), k)));
        && (refusal == Some(HolderLimit) <==> e !in s.holds.retainedBy && Full(s, holder))
        && (refusal == Some(RetainedLimit) <==> e !in s.holds.retainedBy && !Full(s, holder) && Crowded(s, e.retained))
        && (refusal.None? ==> e in holds.retainedBy && core == if e in s.holds.retainedBy then [] else [Hold(e)])
        && holds == if refusal.Some? || e in s.holds.retainedBy then s.holds
                    else s.holds.(retainedBy := s.holds.retainedBy + {e}, retains := s.holds.retains + {e})
      ensures refusal.Some? ==> core == [] && (refusal.value == HolderLimit || refusal.value == RetainedLimit)
    {
      hide Spends, HeldBy, HoldersOf;
      var e := Edge(holder, Identity(k, tasks[k].generation));
      ghost var v := State();
      core := if e in holds.retainedBy then [] else [Hold(e)];
      SpendsNone(v);
      refusal := AcquireRetentionHold(e);
      if refusal.Some? {
        core := [];
      } else if core != [] {
        SpendsOne(v, Hold(e));
      }
    }

    method WriteDraft(k: Key, options: Options)
      requires k !in tasks
      modifies `tasks, `generations
      ensures Contents() == Drafted(old(Contents()), k, options)
    {
      generations := generations[k := 1 + if k in generations then generations[k] else 0];
      tasks := tasks[k := NewTask(options, generations[k], Nowhere)];
    }

    // Deletes the record just written and takes the generation counter back.
    method UndoDraft(k: Key, options: Options, ghost w: World)
      requires Listed() && Sound(w) && k !in w.store.tasks && Contents() == Drafted(w.store, k, options)
      modifies `tasks, `generations, `homes, `kept
      ensures Contents() == w.store
    {
      DraftIsUndone(w, k, options);
      DeleteTask(k, false);
      generations := CountedDown(generations, k);
    }

    // Writes the record and takes the hold its creator asked for.
    method HoldDraft(k: Key, options: Options, holder: Option<Identity>) returns (refusal: Option<Refusal>)
      requires Sound(State()) && k !in tasks && Live(Contents(), holder)
      modifies `tasks, `generations, `holds
      ensures refusal == Some(HolderLimit) <==> holder.Some? && Full(old(Contents()), holder.value)
      ensures refusal == Some(RetainedLimit) <==>
        holder.Some? && !Full(old(Contents()), holder.value) && options.maxRelationships == 0
      ensures refusal.Some? ==> refusal.value == HolderLimit || refusal.value == RetainedLimit
      ensures var d := Drafted(old(Contents()), k, options);
        Contents() == if refusal.None? && holder.Some?
                      then WithHold(d, Edge(holder.value, Identity(k, NextGeneration(old(Contents()), k)))) else d
    {
      hide Sound, HeldBy, HoldersOf, Full;
      ghost var w := State();
      WriteDraft(k, options);
      refusal := None;
      if holder.Some? {
        DraftLimits(w, k, options, holder.value);
        FreshIsUnheld(w, holder.value, k);
        refusal := AcquireRetentionHold(Edge(holder.value, Identity(k, generations[k])));
      }
    }

    // Lists the record with its hold; a refused hold undoes the record.
    method DraftTask(k: Key, options: Options, holder: Option<Identity>) returns (refusal: Option<Refusal>)
      requires Sound(State()) && k !in tasks && Live(Contents(), holder)
      modifies `tasks, `generations, `holds, `homes, `kept
      ensures refusal.Some? ==> State() == old(State())
      ensures refusal == Some(HolderLimit) <==> holder.Some? && Full(old(Contents()), holder.value)
      ensures refusal == Some(RetainedLimit) <==>
        holder.Some? && !Full(old(Contents()), holder.value) && options.maxRelationships == 0
      ensures refusal.Some? ==> refusal.value == HolderLimit || refusal.value == RetainedLimit
      ensures refusal.None? <==> Enabled(old(State()), Create(k, options, holder))
      ensures refusal.None? ==> State() == Apply(old(State()), Create(k, options, holder)) && k in tasks
      ensures refusal.None? ==> OfferedAs(old(Contents()), Contents(), k, options, now)
    {
      hide Sound, HomesInv, Created, OfferedAs, Full, Enabled, Apply;
      ghost var w := State();
      SoundIsListed(w);
      DraftIsListed(w.store, k, options);
      CreatedInOrder(w.store, k, options, holder, now);
      DraftIsOffered(w, k, options, holder);
      refusal := HoldDraft(k, options, holder);
      if refusal.Some? {
        UndoDraft(k, options, w);
      } else {
        CreatedExactly(w, k, options, holder);
        MoveToList(k, if 0 < options.delay then Scheduled else Wait, now + options.delay, true);
      }
    }

    method CreateTask(time: nat, batch: nat, k: Key, options: Options, holder: Option<Identity>, throwOnExists: bool,
                      duplicates: Duplicates)
      returns (reply: Reply<Offer>, ghost upkeep: seq<Action>, ghost found: World, ghost core: seq<Action>)
      requires Valid() && now <= time
      modifies this
      ensures Valid() && Script(old(State()), time, batch, upkeep, core, State())
      ensures Reaches(old(State()), [Tick(time)] + upkeep, found) && Reaches(found, core, State())
      ensures RefusedExactly(found.store, k, options, holder, throwOnExists, duplicates, reply)
      ensures DoneExactly(found.store, k, options, holder, throwOnExists, duplicates, reply, core)
      ensures reply.Ok? && reply.value.Fresh? ==> OfferedAs(found.store, Contents(), k, options, time)
      ensures reply.Ok? && reply.value.Fresh? && 0 < options.delay ==>
        k in homes.scheduled && homes.scheduled[k] == time + options.delay && k !in homes.wait
      ensures reply.Ok? && reply.value.Existing? ==> Contents() == found.store.(holds := holds)
      ensures reply.Refused? && core == [] ==> State() == found
      ensures core == [Replace(k)] ==> k !in tasks
      ensures reply.Ok? ==> k in tasks && reply.value.task == tasks[k]
      ensures reply.Ok? && holder.Some? ==> Holding(Contents(), Edge(holder.value, IdentityOf(Contents(), k)))
    {
      hide Sound, Rested, Parts, Reaches, Cost, AllUpkeep, Script, Unsettled, RefusedExactly, DoneExactly, OthersStay;
      ghost var w := State();
      upkeep := Open(k.queue, time, batch);
      found := State();
      ghost var left := remaining;
      reply, core := AnswerOffer(k, options, holder, throwOnExists, duplicates);
      ScriptEnds(w, time, batch, upkeep, found, left, core, State(), 0);
      SpendsReaches(found, core, State(), 0);
      if reply.Ok? && holder.Some? {
        RestedHolds(Contents(), Edge(holder.value, IdentityOf(Contents(), k)));
      }
    }

    // The offer itself, once maintenance is done.
    method AnswerOffer(k: Key, options: Options, holder: Option<Identity>, throwOnExists: bool, duplicates: Duplicates)
      returns (reply: Reply<Offer>, ghost core: seq<Action>)
      requires Sound(State())
      modifies `tasks, `generations, `holds, `homes, `kept, `locks
      ensures Spends(old(State()), core, State(), 0) && Parts(core, Contents())
      ensures RefusedExactly(old(Contents()), k, options, holder, throwOnExists, duplicates, reply)
      ensures DoneExactly(old(Contents()), k, options, holder, throwOnExists, duplicates, reply, core)
      ensures reply.Ok? && reply.value.Fresh? ==> OfferedAs(old(Contents()), Contents(), k, options, now)
      ensures reply.Ok? && reply.value.Existing? ==> Contents() == old(Contents()).(holds := holds)
      ensures reply.Refused? && core == [] ==> Contents() == old(Contents())
      ensures core == [Replace(k)] ==> k !in tasks
      ensures reply.Ok? ==> k in tasks && reply.value.task == tasks[k]
      ensures reply.Ok? && holder.Some? ==>
        Edge(holder.value, IdentityOf(Contents(), k)) in holds.retainedBy && Unsettled(Contents(), holder.value)
    {
      hide Sound, Spends, Parts, Held, Full, Crowded, OfferedAs, RefusedExactly, DoneExactly;
      ghost var found := Contents();
      SpendsNone(State());
      PartsNobody([], found);
      forall reason | RefusedEarly(found, k, holder, throwOnExists, duplicates, reason)
        ensures RefusedExactly(found, k, options, holder, throwOnExists, duplicates, Refused(reason))
        ensures DoneExactly(found, k, options, holder, throwOnExists, duplicates, Refused(reason), [])
      {
        EarlyIsExact(found, k, options, holder, throwOnExists, duplicates, reason);
      }
      if holder.Some? {
        var bad := ValidateLiveHolder(holder.value);
        if bad.Some? {
          return Refused(bad.value), [];
        }
      }
      if k in tasks {
        if throwOnExists {
          return Refused(TaskExists), [];
        }
        if duplicates.ReturnExisting? {
          reply, core := OfferExisting(k, holder);
          AnyOptionsReturn(found, k, found.tasks[k].options, options, holder, reply, core);
          return;
        }
        if tasks[k].outcome.None? {
          return Refused(NotTerminal), [];
        }
        var held := HasRetentionHolds(Identity(k, tasks[k].generation));
        if held {
          return Refused(TaskHeld), [];
        }
      }
      reply, core := OfferFresh(k, options, holder);
      if k !in found.tasks {
        FreeKeyHasNoDuplicates(found, k, options, holder, throwOnExists, duplicates, reply, core);
      }
    }

    // The record is there and is returned, with the hold that was asked for.
    method OfferExisting(k: Key, holder: Option<Identity>) returns (reply: Reply<Offer>, ghost core: seq<Action>)
      requires k in tasks && Live(Contents(), holder)
      modifies `holds
      ensures Spends(old(State()), core, State(), 0) && Parts(core, Contents())
      ensures RefusedExactly(old(Contents()), k, tasks[k].options, holder, false, ReturnExisting, reply)
      ensures DoneExactly(old(Contents()), k, tasks[k].options, holder, false, ReturnExisting, reply, core)
      ensures core != [Replace(k)] && (reply.Refused? ==> holds == old(holds))
      ensures reply.Ok? ==> reply.value.task == tasks[k] && reply.value.Existing?
      ensures reply.Ok? && holder.Some? ==>
        Edge(holder.value, IdentityOf(Contents(), k)) in holds.retainedBy && Unsettled(Contents(), holder.value)
    {
      hide Spends, Parts, Held, Full, Crowded;
      core := [];
      SpendsNone(State());
      if holder.Some? {
        var limit;
        limit, core := HoldExisting(k, holder.value);
        PartsNobody(core, Contents());
        if limit.Some? {
          return Refused(limit.value), core;
        }
      }
      PartsNobody(core, Contents());
      reply := Ok(Existing(tasks[k]));
    }

    // A new record, in place of the one that is there if any.
    method OfferFresh(k: Key, options: Options, holder: Option<Identity>)
      returns (reply: Reply<Offer>, ghost core: seq<Action>)
      requires Sound(State()) && Live(Contents(), holder) && (k in tasks ==> Replaceable(Contents(), k))
      modifies `tasks, `generations, `holds, `homes, `kept, `locks
      ensures Spends(old(State()), core, State(), 0) && Parts(core, Contents())
      ensures RefusedExactly(old(Contents()), k, options, holder, false, NewGeneration, reply)
      ensures DoneExactly(old(Contents()), k, options, holder, false, NewGeneration, reply, core)
      ensures reply.Ok? ==> reply.value.Fresh? && OfferedAs(old(Contents()), Contents(), k, options, now)
      ensures reply.Refused? && core == [] ==> Contents() == old(Contents())
      ensures core == [Replace(k)] ==> k !in tasks
      ensures reply.Ok? ==> k in tasks && reply.value.task == tasks[k]
      ensures reply.Ok? && holder.Some? ==>
        Edge(holder.value, IdentityOf(Contents(), k)) in holds.retainedBy && Unsettled(Contents(), holder.value)
    {
      hide Sound, Spends, Parts, Held, Full, Crowded, Apply, Enabled, Unsettled, RefusedExactly, OfferedAs, GoneFrom;
      ghost var v := State();
      core := [];
      SpendsNone(v);
      if k in tasks {
        core := ReplaceTask(k, holder);
      }
      ghost var u := State();
      SpendsSound(v, core, u, 0);
      PartsNobody(core, Contents());
      var limit := DraftTask(k, options, holder);
      FreshRefusedExactly(v.store, k, options, holder, limit);
      if limit.None? && k in v.store.tasks {
        OfferedInPlace(v.store, u.store, Contents(), k, options, now);
      }
      if limit.Some? {
        return Refused(limit.value), core;
      }
      if holder.Some? {
        CreatedIsHeld(u, k, options, holder.value);
      }
      SpendsOne(u, Create(k, options, holder));
      SpendsMore(v, core, u, 0, [Create(k, options, holder)], State(), 0);
      core := core + [Create(k, options, holder)];
      PartsNobody(core, Contents());
      reply := Ok(Fresh(tasks[k]));
    }

    // A settled generation nothing holds makes way for the next.
    method ReplaceTask(k: Key, ghost holder: Option<Identity>) returns (ghost core: seq<Action>)
      requires Sound(State()) && Replaceable(Contents(), k) && Live(Contents(), holder)
      modifies `tasks, `homes, `kept, `locks
      ensures core == [Replace(k)] && Spends(old(State()), core, State(), 0)
      ensures GoneFrom(old(Contents()), Contents(), k)
      ensures k !in tasks && Live(Contents(), holder)
      ensures holder.Some? ==> (Full(Contents(), holder.value) <==> Full(old(Contents()), holder.value))
    {
      hide Sound, Spends, Full, GoneFrom;
      ghost var v := State();
      SoundIsListed(v);
      SpendsOne(v, Replace(k));
      RemovedExactly(v, Replace(k));
      if holder.Some? {
        ReplacedIsStillHeldOff(v, k, holder.value);
      }
      DeleteTask(k, false);
      locks := locks - {k};
      core := [Replace(k)];
    }

    // Progress may be recorded exactly under a running lease of this very generation, offered with this schema and with
    // a history: the list, the deadline and the outcome looked at besides can never say otherwise.
    method ProgressAllowed(time: nat, k: Key, generation: nat, schema: Schema, token: Token) returns (reply: Progress)
      requires Valid() && now <= time
      modifies this
      ensures Valid() && now == time && Contents() == old(Contents()) && Script(old(State()), time, 0, [], [], State())
      ensures reply == Unavailable <==> !Current(Contents(), Identity(k, generation))
      ensures reply == OtherSchema <==>
        Current(Contents(), Identity(k, generation)) && tasks[k].options.schema != schema
      ensures reply == Disabled <==>
        OfSchema(Contents(), Identity(k, generation), schema) && !tasks[k].options.historyEnabled
      ensures reply == NotLeased <==>
        Recording(Contents(), Identity(k, generation), schema) && !Owns(Contents(), k, token, now)
      ensures reply == Allowed <==>
        Recording(Contents(), Identity(k, generation), schema) && Owns(Contents(), k, token, now)
    {
      hide Sound, Rested, Parts, Reaches, Script;
      ghost var w := State();
      TickSpends(w, time);
      now := time;
      ScriptStops(w, time, 0, [], State(), 0);
      if k !in tasks || tasks[k].generation != generation {
        return Unavailable;
      }
      if tasks[k].options.schema != schema {
        return OtherSchema;
      }
      if !tasks[k].options.historyEnabled {
        return Disabled;
      }
      var deadline := if k in homes.active then homes.active[k] else 0;
      var owner := HoldsLease(k, token);
      if owner {
        LeasedIsActive(State(), k);
      }
      reply := if owner && now < deadline && tasks[k].place.Active? && tasks[k].outcome.None? then Allowed
        else NotLeased;
    }

    // ---- reads ------------------------------------------------------------------------------------------------

    // Whatever result a generation has, it is the one its settlement wrote.
    method GetResult(i: Identity) returns (result: Option<Result>)
      requires Valid()
      ensures result.Some? <==> i in kept.results
      ensures result.Some? ==> i in log.settled && result.value == log.settled[i]
    {
      result := if i in kept.results then Some(kept.results[i]) else None;
    }
  }
}
