/** The failures a task record keeps, against every failure its generation ever had. */
module TaskFailures {
  import opened Basics
  import opened TaskModel
  import opened TaskRuns
  import opened TaskInvariant
  import opened TaskProofs
  import opened TaskRetention
  import opened TaskTheorems
  import opened TaskRest

  // ---- every failure of a generation, oldest first ---------------------------------------

  function FailureIn(w: World, a: Action, i: Identity): seq<Entry>
    requires Enabled(w, a)
  {
    if !Current(w.store, i) then []
    else if a.Fail? && a.key == i.key then [Entry(a.error, w.clock, a.retryAt)]
    else if a.Stall? && a.key == i.key then [Entry(Stalled, w.clock, StallRetry(w.store.tasks[a.key]))]
    else []
  }

  function FailuresOf(w: World, acts: seq<Action>, i: Identity): seq<Entry>
    requires Legal(w, acts)
    decreases |acts|
  {
    if acts == [] then [] else FailureIn(w, acts[0], i) + FailuresOf(Apply(w, acts[0]), acts[1..], i)
  }

  // A worker reports an attempt of this generation as stalled and asks for a retry. No client does so, but the script
  // accepts it and counts a handler failure that is recorded as a stall.
  function StallReportedIn(w: World, a: Action, i: Identity): nat
    requires Enabled(w, a)
  {
    Count(Current(w.store, i) && a.Fail? && a.key == i.key && a.error.Stalled? && a.retryAt.Some?)
  }

  function StallsReported(w: World, acts: seq<Action>, i: Identity): nat
    requires Legal(w, acts)
    decreases |acts|
  {
    if acts == [] then 0 else StallReportedIn(w, acts[0], i) + StallsReported(Apply(w, acts[0]), acts[1..], i)
  }

  // Whoever asks for a retry of what a handler raised only, as clients do, reports none.
  lemma {:induction false} ClientsReportNoStall(w: World, acts: seq<Action>, i: Identity)
    requires Legal(w, acts) && forall a :: a in acts && a.Fail? && a.retryAt.Some? ==> a.error.Raised?
    ensures StallsReported(w, acts, i) == 0
    decreases |acts|
  {
    if acts != [] {
      assert acts[0] in acts && forall a :: a in acts[1..] ==> a in acts;
      ClientsReportNoStall(Apply(w, acts[0]), acts[1..], i);
    }
  }

  // The newest entries, as many as may be kept.
  function Newest(all: seq<Entry>, max: nat): seq<Entry> {
    if |all| <= max then all else all[|all| - max..]
  }

  // The failures of handlers, as opposed to the stalls and cancellations the engine itself records.
  function OfHandlers(entries: seq<Entry>): seq<Entry> {
    if entries == [] then []
    else if entries[0].error.Raised? then [entries[0]] + OfHandlers(entries[1..])
    else OfHandlers(entries[1..])
  }

  lemma {:induction false} OfHandlersAppend(xs: seq<Entry>, ys: seq<Entry>)
    ensures OfHandlers(xs + ys) == OfHandlers(xs) + OfHandlers(ys)
    decreases |xs|
  {
    if xs == [] {
      assert xs + ys == ys;
    } else {
      assert (xs + ys)[0] == xs[0] && (xs + ys)[1..] == xs[1..] + ys;
      OfHandlersAppend(xs[1..], ys);
    }
  }

  lemma {:induction false} NoHandlerFailures(entries: seq<Entry>)
    ensures OfHandlers(entries) == [] <==> forall e :: e in entries ==> !e.error.Raised?
    decreases |entries|
  {
    if entries != [] {
      NoHandlerFailures(entries[1..]);
    }
  }

  lemma NewestGrows(all: seq<Entry>, e: Entry, max: nat)
    ensures ErrorsKept(Newest(all, max), e, max) == Newest(all + [e], max)
  {
    if 0 < max {
      if |all| <= max {
        if |all| < max {
          assert ErrorsKept(all, e, max) == all + [e];
        } else {
          assert (all + [e])[1..] == all[1..] + [e];
        }
      } else {
        assert all[|all| - max..][1..] == all[|all| - max + 1..];
        assert (all + [e])[|all| + 1 - max..] == all[|all| + 1 - max..] + [e];
      }
    }
  }

  // ---- what the record knows of them ----------------------------------------------------------

  // The record keeps the newest failures, and while it is unsettled its counter counts the handlers' among all of them
  // and the stalls workers reported.
  predicate Remembers(t: Task, all: seq<Entry>, reported: nat) {
    && t.errors == Newest(all, t.options.maxErrors)
    && (t.outcome.None? ==> t.handlerFailures == |OfHandlers(all)| + reported)
  }

  predicate SameFailures(t: Task, u: Task) {
    u.errors == t.errors && u.options == t.options && u.handlerFailures == t.handlerFailures
  }

  lemma FailedRecord(s: Store, k: Key, stall: bool, error: Error, retryAt: Option<Time>, now: Time)
    requires k in s.tasks
    ensures var t := FailedStore(s, k, stall, error, retryAt, now);
      var f := Failing(s.tasks[k], stall, error, retryAt, now);
      k in t.tasks ==>
        SameFailures(t.tasks[k], f)
          && (t.tasks[k].outcome.None? ==> WillRetry(error, retryAt) && s.tasks[k].outcome.None?)
  {
  }

  lemma FailureRemembered(s: Store, k: Key, stall: bool, error: Error, retryAt: Option<Time>, now: Time,
                          all: seq<Entry>, reported: nat)
    requires k in s.tasks && Remembers(s.tasks[k], all, reported) && (stall ==> error.Stalled?)
    ensures var t := FailedStore(s, k, stall, error, retryAt, now);
      var more := Count(!stall && error.Stalled? && retryAt.Some?);
      k in t.tasks ==> Remembers(t.tasks[k], all + [Entry(error, now, retryAt)], reported + more)
  {
    var e := Entry(error, now, retryAt);
    FailedRecord(s, k, stall, error, retryAt, now);
    NewestGrows(all, e, s.tasks[k].options.maxErrors);
    OfHandlersAppend(all, [e]);
    assert OfHandlers([e]) == if error.Raised? then [e] else [] by { assert [e][1..] == []; }
  }

  predicate KeepsErrors(t: Task, u: Task) {
    SameFailures(t, u) && (u.outcome.None? ==> t.outcome.None?)
  }

  lemma OtherStepsKeepErrors(w: World, a: Action, k: Key)
    requires Enabled(w, a) && k in w.store.tasks && k in Apply(w, a).store.tasks
    requires !a.Fail? && !a.Stall? && !a.Succeed? && !a.LetGo?
    ensures KeepsErrors(w.store.tasks[k], Apply(w, a).store.tasks[k])
  {
    hide Placed, Unplaced, FirstWaiting, HoldsEnlisted, Owns, Held, DueIn, MayHold, Released;
  }

  lemma SucceededKeepsErrors(s: Store, k: Key, value: Value, now: Time, j: Key)
    requires k in s.tasks && j in s.tasks && j in SucceededStore(s, k, value, now).tasks
    ensures KeepsErrors(s.tasks[j], SucceededStore(s, k, value, now).tasks[j])
  {
    if j != k {
      SucceededElsewhere(s, k, value, now, j);
    }
  }

  lemma LetGoKeepsErrors(s: Store, e: Edge, now: Time, j: Key)
    requires j in s.tasks && j in HoldReleased(s, e, now).tasks
    ensures KeepsErrors(s.tasks[j], HoldReleased(s, e, now).tasks[j])
  {
    var t := Loosened(s, e, now);
    if Current(t, e.retained) && t.tasks[e.retained.key].outcome.Some? && !Held(t.holds, e.retained) {
      DisposalShape(t, e.retained.key, now);
    }
  }

  lemma StepRemembered(w: World, a: Action, i: Identity, all: seq<Entry>, reported: nat)
    requires Enabled(w, a) && Current(w.store, i) && Remembers(w.store.tasks[i.key], all, reported)
    requires Current(Apply(w, a).store, i)
    ensures Remembers(Apply(w, a).store.tasks[i.key], all + FailureIn(w, a, i), reported + StallReportedIn(w, a, i))
  {
    hide FailedStore, SucceededStore, HoldReleased;
    var k := i.key;
    if a.Fail? {
      if a.key == k {
        FailureRemembered(w.store, k, false, a.error, a.retryAt, w.clock, all, reported);
      } else {
        FailedElsewhere(w.store, a.key, false, a.error, a.retryAt, w.clock, k);
        assert all + [] == all;
      }
    } else if a.Stall? {
      if a.key == k {
        FailureRemembered(w.store, k, true, Stalled, StallRetry(w.store.tasks[k]), w.clock, all, reported);
      } else {
        FailedElsewhere(w.store, a.key, true, Stalled, StallRetry(w.store.tasks[a.key]), w.clock, k);
        assert all + [] == all;
      }
    } else {
      assert all + [] == all;
      if a.Succeed? {
        SucceededKeepsErrors(w.store, a.key, a.value, w.clock, k);
      } else if a.LetGo? {
        LetGoKeepsErrors(w.store, a.edge, w.clock, k);
      } else {
        OtherStepsKeepErrors(w, a, k);
      }
    }
  }

  // A new record has failed at nothing yet.
  lemma NewRemembersNothing(w: World, a: Action, i: Identity)
    requires Inv(w) && Enabled(w, a) && !Current(w.store, i) && Current(Apply(w, a).store, i)
    ensures !Known(w.store.generations, i) && Remembers(Apply(w, a).store.tasks[i.key], [], 0)
  {
    if Known(w.store.generations, i) {
      GoneStaysGone(w, a, i);
    }
    OnlyCreationAdds(w, a, i);
  }

  lemma OnlyCreationAdds(w: World, a: Action, i: Identity)
    requires Enabled(w, a) && !Current(w.store, i) && Current(Apply(w, a).store, i)
    ensures a.Create? && a.key == i.key && Apply(w, a).store.tasks[i.key].errors == []
    ensures Apply(w, a).store.tasks[i.key].handlerFailures == 0
  {
    hide Placed, HoldReleased, FailedStore, SucceededStore, FirstWaiting, HoldsEnlisted, Owns, MayHold, Held, DueIn;
    match a
    case Fail(k, token, error, retryAt) => FailedStaysGone(w.store, k, false, error, retryAt, w.clock, i);
    case Stall(k) => FailedStaysGone(w.store, k, true, Stalled, StallRetry(w.store.tasks[k]), w.clock, i);
    case Succeed(k, token, value) => SucceededStaysGone(w.store, k, value, w.clock, i);
    case LetGo(e) => LetGoStaysGone(w.store, e, w.clock, i);
    case Create(k, options, holder) =>
    case _ => OtherGenerations(w, a, i.key);
  }

  // These are the failures of the generation so far, or there has been no such generation yet.
  predicate RemembersSoFar(s: Store, i: Identity, before: seq<Entry>, reported: nat) {
    if Current(s, i) then Remembers(s.tasks[i.key], before, reported)
    else !Known(s.generations, i) && before == [] && reported == 0
  }

  // What the record remembers before a step, it remembers after it with that step's failure added.
  lemma RemembersOneMore(w: World, a: Action, i: Identity, before: seq<Entry>, reported: nat)
    requires Inv(w) && Enabled(w, a) && Current(Apply(w, a).store, i) && RemembersSoFar(w.store, i, before, reported)
    ensures Remembers(Apply(w, a).store.tasks[i.key], before + FailureIn(w, a, i), reported + StallReportedIn(w, a, i))
  {
    hide Inv, Remembers, Apply, Enabled;
    if Current(w.store, i) {
      StepRemembered(w, a, i, before, reported);
    } else {
      NewRemembersNothing(w, a, i);
      assert before + FailureIn(w, a, i) == [];
    }
  }

  lemma {:induction false} RunRemembers(w: World, acts: seq<Action>, i: Identity, before: seq<Entry>, reported: nat)
    requires Inv(w) && Legal(w, acts) && RemembersSoFar(w.store, i, before, reported)
    ensures Current(Run(w, acts).store, i) ==>
      Remembers(Run(w, acts).store.tasks[i.key], before + FailuresOf(w, acts, i), reported + StallsReported(w, acts, i))
    decreases |acts|, 0
  {
    hide Inv, Remembers, Apply, Enabled;
    if acts == [] {
      assert before + [] == before;
    } else {
      var a, v := acts[0], Apply(w, acts[0]);
      StepKeepsInv(w, a);
      var more := before + FailureIn(w, a, i);
      assert before + FailuresOf(w, acts, i) == more + FailuresOf(v, acts[1..], i);
      if Current(v.store, i) {
        RemembersOneMore(w, a, i, before, reported);
        RunRemembers(v, acts[1..], i, more, reported + StallReportedIn(w, a, i));
      } else {
        GoneForNow(w, a, acts[1..], i, before, reported);
      }
    }
  }

  // A generation that is gone after a step is gone for good, or was never there.
  lemma GoneForNow(w: World, a: Action, rest: seq<Action>, i: Identity, before: seq<Entry>, reported: nat)
    requires Inv(w) && Enabled(w, a) && Legal(Apply(w, a), rest) && !Current(Apply(w, a).store, i)
    requires RemembersSoFar(w.store, i, before, reported)
    ensures Current(Run(Apply(w, a), rest).store, i) ==>
      Remembers(Run(Apply(w, a), rest).store.tasks[i.key],
                before + FailureIn(w, a, i) + FailuresOf(Apply(w, a), rest, i),
                reported + StallReportedIn(w, a, i) + StallsReported(Apply(w, a), rest, i))
    decreases |rest|, 1
  {
    hide Apply, Enabled, Remembers;
    var v := Apply(w, a);
    StepKeepsInv(w, a);
    if Known(v.store.generations, i) {
      GoneForGood(v, rest, i);
    } else {
      GenerationsGrow(w, a);
      assert !Current(w.store, i);
      assert before + FailureIn(w, a, i) == [];
      RunRemembers(v, rest, i, [], 0);
    }
  }

  // ---- whether the history is whole ------------------------------------------------------------------

  // The failures the record no longer keeps.
  function Evicted(all: seq<Entry>, max: nat): seq<Entry> {
    all[..|all| - |Newest(all, max)|]
  }

  // As many handler failures are kept as were counted exactly when none was evicted, and then they are all of them in
  // order.
  lemma CountTellsEviction(all: seq<Entry>, max: nat)
    ensures |OfHandlers(Newest(all, max))| <= |OfHandlers(all)|
    ensures |OfHandlers(all)| <= |OfHandlers(Newest(all, max))| <==> forall e ::
      e in Evicted(all, max) ==> !e.error.Raised?
    ensures |OfHandlers(all)| <= |OfHandlers(Newest(all, max))| ==> OfHandlers(Newest(all, max)) == OfHandlers(all)
  {
    var gone, kept := Evicted(all, max), Newest(all, max);
    assert all == gone + kept;
    OfHandlersAppend(gone, kept);
    NoHandlerFailures(gone);
  }

  // In every reachable state an unsettled record can tell from its own counter whether its handler failures are all
  // there, unless a worker once reported a stall: then it takes one for missing.
  lemma HistoryIsWholeExactly(clock: nat, acts: seq<Action>, i: Identity)
    requires Legal(Initial(clock), acts) && Unsettled(Run(Initial(clock), acts).store, i)
    ensures var t := Run(Initial(clock), acts).store.tasks[i.key]; var all := FailuresOf(Initial(clock), acts, i);
      var reported := StallsReported(Initial(clock), acts, i);
      && t.errors == Newest(all, t.options.maxErrors)
      && t.handlerFailures == |OfHandlers(all)| + reported
      && (t.handlerFailures <= |OfHandlers(t.errors)| <==>
          reported == 0 && forall e :: e in Evicted(all, t.options.maxErrors) ==> !e.error.Raised?)
      && (t.handlerFailures <= |OfHandlers(t.errors)| ==> OfHandlers(t.errors) == OfHandlers(all))
  {
    hide Inv, Legal, Run, FailuresOf, StallsReported, Evicted, OfHandlers, Newest;
    InitialInv(clock);
    RunRemembers(Initial(clock), acts, i, [], 0);
    var t, all := Run(Initial(clock), acts).store.tasks[i.key], FailuresOf(Initial(clock), acts, i);
    assert [] + all == all;
    CountTellsEviction(all, t.options.maxErrors);
  }
}
