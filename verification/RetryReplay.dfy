/** Deciding the retry of a failed task: its failure history is replayed through a stepped schedule. */
module RetryReplay {
  import opened Basics
  import opened TaskModel
  import opened TaskRuns
  import opened TaskInvariant
  import opened TaskRetention
  import opened TaskMirror
  import opened TaskTheorems
  import opened TaskRest
  import opened TaskFailures

  const MAX_SAFE: int := 9007199254740991

  // What a schedule answers to one more failure: a delay and where it stands now, that it is done, or that it failed
  // itself.
  datatype Answer<S> = Again(state: S, delay: nat) | Done | Broken
  datatype Schedule<!S> = Schedule(start: S, step: (S, Time, Error) -> Answer<S>)

  datatype Verdict = RunAt(time: Time) | NoRetry | PolicyFailed

  predicate SafeTime(t: int) {
    -MAX_SAFE <= t <= MAX_SAFE
  }

  // ---- replay --------------------------------------------------------------------------------

  // The verdict after the remaining failures, from where the schedule stands.
  function Replay<S>(schedule: Schedule<S>, state: S, time: Time, failures: seq<Entry>): Verdict
    decreases |failures|
  {
    if failures == [] then RunAt(time)
    else match schedule.step(state, failures[0].at, failures[0].error)
      case Broken => PolicyFailed
      case Done => NoRetry
      case Again(next, delay) =>
        var at := failures[0].at + delay;
        if SafeTime(at) then Replay(schedule, next, at, failures[1..]) else NoRetry
  }

  method NextRunAt<S>(schedule: Schedule<S>, createdAt: Time, failures: seq<Entry>) returns (verdict: Verdict)
    ensures verdict == Replay(schedule, schedule.start, createdAt, failures)
  {
    var state, time := schedule.start, createdAt;
    var n := 0;
    while n < |failures|
      invariant n <= |failures|
      invariant Replay(schedule, schedule.start, createdAt, failures) == Replay(schedule, state, time, failures[n..])
    {
      assert failures[n..][1..] == failures[n + 1..];
      var answer := schedule.step(state, failures[n].at, failures[n].error);
      if answer.Broken? {
        return PolicyFailed;
      }
      if answer.Done? {
        return NoRetry;
      }
      time := failures[n].at + answer.delay;
      if !SafeTime(time) {
        return NoRetry;
      }
      state, n := answer.state, n + 1;
    }
    verdict := RunAt(time);
  }

  // Where the schedule stands after being shown these failures in order, if it went on after each.
  function StandsAfter<S>(schedule: Schedule<S>, state: S, failures: seq<Entry>): Option<S>
    decreases |failures|
  {
    if failures == [] then Some(state)
    else match schedule.step(state, failures[0].at, failures[0].error)
      case Again(next, delay) =>
        if SafeTime(failures[0].at + delay) then StandsAfter(schedule, next, failures[1..]) else None
      case _ => None
  }

  predicate GoesOn<S>(schedule: Schedule<S>, state: S, failure: Entry) {
    var answer := schedule.step(state, failure.at, failure.error);
    answer.Again? && SafeTime(failure.at + answer.delay)
  }

  // The retry is timed by the newest failure alone, but only after the schedule went on after every earlier one.
  lemma {:induction false} NewestFailureDecides<S>(schedule: Schedule<S>, state: S, time: Time, earlier: seq<Entry>,
                                                   newest: Entry)
    ensures var stand := StandsAfter(schedule, state, earlier);
      var verdict := Replay(schedule, state, time, earlier + [newest]);
      verdict.RunAt? <==> stand.Some? && GoesOn(schedule, stand.value, newest)
    ensures var stand := StandsAfter(schedule, state, earlier);
      var verdict := Replay(schedule, state, time, earlier + [newest]);
      verdict.RunAt? ==> verdict.time == newest.at + schedule.step(stand.value, newest.at, newest.error).delay
    decreases |earlier|
  {
    var all := earlier + [newest];
    if earlier == [] {
      assert all[1..] == [];
    } else {
      assert all[0] == earlier[0] && all[1..] == earlier[1..] + [newest];
      var answer := schedule.step(state, earlier[0].at, earlier[0].error);
      if answer.Again? {
        NewestFailureDecides(schedule, answer.state, earlier[0].at + answer.delay, earlier[1..], newest);
      }
    }
  }

  // The schedule failed itself on this failure, having gone on after every earlier one.
  ghost predicate BreaksAt<S>(schedule: Schedule<S>, state: S, failures: seq<Entry>, n: nat)
    requires n < |failures|
  {
    var stand := StandsAfter(schedule, state, failures[..n]);
    stand.Some? && schedule.step(stand.value, failures[n].at, failures[n].error).Broken?
  }

  ghost predicate Breaks<S>(schedule: Schedule<S>, state: S, failures: seq<Entry>) {
    exists n: nat :: n < |failures| && BreaksAt(schedule, state, failures, n)
  }

  // One failure later in a longer history.
  lemma BreaksLater<S>(schedule: Schedule<S>, state: S, failures: seq<Entry>, n: nat)
    requires 0 < n < |failures| && GoesOn(schedule, state, failures[0])
    ensures BreaksAt(schedule, state, failures, n) <==>
      BreaksAt(schedule, schedule.step(state, failures[0].at, failures[0].error).state, failures[1..], n - 1)
  {
    assert failures[..n][0] == failures[0] && failures[..n][1..] == failures[1..][..n - 1];
  }

  lemma GoesOnFirst<S>(schedule: Schedule<S>, state: S, failures: seq<Entry>, n: nat)
    requires 0 < n < |failures| && BreaksAt(schedule, state, failures, n)
    ensures GoesOn(schedule, state, failures[0])
  {
    assert failures[..n][0] == failures[0];
  }

  // The policy is reported as failed exactly when the schedule failed itself somewhere on the way.
  lemma {:induction false} ReplayBreaks<S>(schedule: Schedule<S>, state: S, time: Time, failures: seq<Entry>)
    ensures Replay(schedule, state, time, failures).PolicyFailed? <==> Breaks(schedule, state, failures)
    decreases |failures|
  {
    if failures != [] {
      var answer := schedule.step(state, failures[0].at, failures[0].error);
      assert BreaksAt(schedule, state, failures, 0) <==> answer.Broken? by {
        assert failures[..0] == [];
      }
      if GoesOn(schedule, state, failures[0]) {
        ReplayBreaks(schedule, answer.state, failures[0].at + answer.delay, failures[1..]);
        if n: nat :| n < |failures| && BreaksAt(schedule, state, failures, n) {
          BreaksLater(schedule, state, failures, n);
        }
        if n: nat :| n < |failures[1..]| && BreaksAt(schedule, answer.state, failures[1..], n) {
          BreaksLater(schedule, state, failures, n + 1);
        }
      } else if n: nat :| n < |failures| && BreaksAt(schedule, state, failures, n) {
        if 0 < n {
          GoesOnFirst(schedule, state, failures, n);
        }
      }
    }
  }

  // ---- the same, as a trace of the schedule ---------------------------------------------------------

  // From the one stand, shown this failure, the schedule goes on to the other, with a delay that ends at a safe
  // instant.
  predicate Steps<S(==)>(schedule: Schedule<S>, before: S, failure: Entry, after: S) {
    var answer := schedule.step(before, failure.at, failure.error);
    && answer.Again? && answer.state == after
    && -9007199254740991 <= failure.at + answer.delay <= 9007199254740991
  }

  // The schedule goes through these stands, from its start, as it is shown the failures in order.
  ghost predicate Trace<S>(schedule: Schedule<S>, stands: seq<S>, failures: seq<Entry>) {
    && |stands| == |failures| + 1 && stands[0] == schedule.start
    && forall n :: 0 <= n < |failures| ==> Steps(schedule, stands[n], failures[n], stands[n + 1])
  }

  ghost predicate TraceFrom<S>(schedule: Schedule<S>, state: S, stands: seq<S>, failures: seq<Entry>) {
    Trace(schedule.(start := state), stands, failures)
  }

  lemma {:induction false} StandIsTraced<S>(schedule: Schedule<S>, state: S, failures: seq<Entry>)
    returns (stands: seq<S>)
    requires StandsAfter(schedule, state, failures).Some?
    ensures TraceFrom(schedule, state, stands, failures)
    ensures stands[|failures|] == StandsAfter(schedule, state, failures).value
    decreases |failures|
  {
    if failures == [] {
      stands := [state];
    } else {
      var next := schedule.step(state, failures[0].at, failures[0].error).state;
      var rest := StandIsTraced(schedule, next, failures[1..]);
      stands := [state] + rest;
      forall n | 0 <= n < |failures| ensures Steps(schedule, stands[n], failures[n], stands[n + 1]) {
        if 0 < n {
          assert Steps(schedule, rest[n - 1], failures[1..][n - 1], rest[n]);
        }
      }
    }
  }

  lemma {:induction false} TraceStands<S>(schedule: Schedule<S>, state: S, stands: seq<S>, failures: seq<Entry>)
    requires TraceFrom(schedule, state, stands, failures)
    ensures StandsAfter(schedule, state, failures) == Some(stands[|failures|])
    decreases |failures|
  {
    if failures != [] {
      assert Steps(schedule, stands[0], failures[0], stands[1]);
      forall n | 0 <= n < |failures[1..]|
        ensures Steps(schedule, stands[1..][n], failures[1..][n], stands[1..][n + 1])
      {
        assert Steps(schedule, stands[n + 1], failures[n + 1], stands[n + 2]);
      }
      TraceStands(schedule, stands[1], stands[1..], failures[1..]);
    }
  }

  // ---- the decision ------------------------------------------------------------------------------

  // What is written for the failed attempt, and whether the caller is told that the policy could not be applied.
  datatype Decision = Decision(retryAt: Option<Time>, policyError: bool)

  // The schedule fails itself when, after going through these stands, it is shown the next failure.
  ghost predicate BreaksAfter<S>(schedule: Schedule<S>, stands: seq<S>, failures: seq<Entry>) {
    var n := |stands| - 1;
    && 0 <= n < |failures| && Trace(schedule, stands, failures[..n])
    && schedule.step(stands[n], failures[n].at, failures[n].error).Broken?
  }

  lemma GoingOnIsTraced<S(!new)>(schedule: Schedule<S>, earlier: seq<Entry>, newest: Entry)
    ensures var stand := StandsAfter(schedule, schedule.start, earlier);
      (stand.Some? && GoesOn(schedule, stand.value, newest) <==>
        exists stands :: Trace(schedule, stands, earlier + [newest]))
      && forall stands :: Trace(schedule, stands, earlier + [newest]) ==> stand == Some(stands[|earlier|])
  {
    var stand, all, n := StandsAfter(schedule, schedule.start, earlier), earlier + [newest], |earlier|;
    if stand.Some? && GoesOn(schedule, stand.value, newest) {
      var stands := StandIsTraced(schedule, schedule.start, earlier);
      var more := stands + [schedule.step(stand.value, newest.at, newest.error).state];
      forall m | 0 <= m < |all| ensures Steps(schedule, more[m], all[m], more[m + 1]) {
        if m < n {
          assert Steps(schedule, stands[m], earlier[m], stands[m + 1]);
        }
      }
      assert Trace(schedule, more, all);
    }
    forall stands | Trace(schedule, stands, all)
      ensures stand == Some(stands[n]) && GoesOn(schedule, stand.value, newest)
    {
      forall m | 0 <= m < n ensures Steps(schedule, stands[..n + 1][m], earlier[m], stands[..n + 1][m + 1]) {
        assert Steps(schedule, stands[m], all[m], stands[m + 1]);
      }
      TraceStands(schedule, schedule.start, stands[..n + 1], earlier);
      assert Steps(schedule, stands[n], all[n], stands[n + 1]);
    }
  }

  lemma BreakingIsTraced<S(!new)>(schedule: Schedule<S>, failures: seq<Entry>)
    ensures Breaks(schedule, schedule.start, failures) <==> exists stands :: BreaksAfter(schedule, stands, failures)
  {
    if n: nat :| n < |failures| && BreaksAt(schedule, schedule.start, failures, n) {
      var stands := StandIsTraced(schedule, schedule.start, failures[..n]);
      assert BreaksAfter(schedule, stands, failures);
    }
    if stands :| BreaksAfter(schedule, stands, failures) {
      var n := |stands| - 1;
      TraceStands(schedule, schedule.start, stands, failures[..n]);
      assert BreaksAt(schedule, schedule.start, failures, n);
    }
  }

  predicate MayRetry<S>(t: Task, schedule: Option<Schedule<S>>, maxRetries: int, failure: Error) {
    schedule.Some? && t.handlerFailures < maxRetries && failure.Raised?
  }

  method Decide<S(!new)>(t: Task, createdAt: Time, schedule: Option<Schedule<S>>, maxRetries: int, failure: Error,
                   failedAt: Time)
    returns (decision: Decision)
    ensures decision == Decided(t, createdAt, schedule, maxRetries, failure, failedAt)
    ensures var all := OfHandlers(t.errors) + [Entry(failure, failedAt, None)];
      var canRetry := schedule.Some? && t.handlerFailures < maxRetries && failure.Raised?;
      var whole := t.handlerFailures <= |OfHandlers(t.errors)|;
      && (decision.retryAt.Some? <==> canRetry && whole && exists stands :: Trace(schedule.value, stands, all))
      && (decision.retryAt.Some? ==> forall stands :: Trace(schedule.value, stands, all) ==>
            var answer := schedule.value.step(stands[|all| - 1], failedAt, failure);
            answer.Again? && decision.retryAt.value == failedAt + answer.delay)
      && (decision.policyError <==> canRetry && (whole ==> exists stands :: BreaksAfter(schedule.value, stands, all)))
  {
    if schedule.Some? {
      GoingOnIsTraced(schedule.value, OfHandlers(t.errors), Entry(failure, failedAt, None));
      BreakingIsTraced(schedule.value, OfHandlers(t.errors) + [Entry(failure, failedAt, None)]);
    }
    DecidedExactly(t, createdAt, schedule, maxRetries, failure, failedAt);
    var canRetry := schedule.Some? && t.handlerFailures < maxRetries && failure.Raised?;
    var handlerErrors := OfHandlers(t.errors);
    if canRetry && |handlerErrors| < t.handlerFailures {
      return Decision(None, true);
    }
    if !canRetry {
      return Decision(None, false);
    }
    var verdict := NextRunAt(schedule.value, createdAt + t.options.delay,
                             handlerErrors + [Entry(failure, failedAt, None)]);
    decision := if verdict.RunAt? then Decision(Some(verdict.time), false) else Decision(None, verdict.PolicyFailed?);
  }

  function Decided<S>(t: Task, createdAt: Time, schedule: Option<Schedule<S>>, maxRetries: int, failure: Error,
                      failedAt: Time): Decision {
    if !MayRetry(t, schedule, maxRetries, failure) then Decision(None, false)
    else if |OfHandlers(t.errors)| < t.handlerFailures then Decision(None, true)
    else
      var s := schedule.value;
      match Replay(s, s.start, createdAt + t.options.delay, OfHandlers(t.errors) + [Entry(failure, failedAt, None)])
      case RunAt(time) => Decision(Some(time), false)
      case NoRetry => Decision(None, false)
      case PolicyFailed => Decision(None, true)
  }

  // Some handler failure is no longer kept.
  predicate Truncated(t: Task) {
    |OfHandlers(t.errors)| < t.handlerFailures
  }

  // A retry is due exactly if one may be made, no failure is missing, and the schedule goes on after each of them and
  // after the new one; it is due the schedule's delay after the new failure. The caller is told of a policy error
  // exactly if a retry might have been made but a failure is missing or the schedule failed itself on one of them. When
  // the task was created does not matter.
  ghost predicate DecidedRight<S>(t: Task, schedule: Option<Schedule<S>>, maxRetries: int, failure: Error,
                                  failedAt: Time, decision: Decision) {
    if !MayRetry(t, schedule, maxRetries, failure) then decision.retryAt.None? && !decision.policyError
    else
      var s, earlier, newest := schedule.value, OfHandlers(t.errors), Entry(failure, failedAt, None);
      var stand := StandsAfter(s, s.start, earlier);
      && (decision.retryAt.Some? <==> !Truncated(t) && stand.Some? && GoesOn(s, stand.value, newest))
      && (decision.retryAt.Some? ==> decision.retryAt.value == failedAt + s.step(stand.value, failedAt, failure).delay)
      && (decision.policyError <==> Truncated(t) || Breaks(s, s.start, earlier + [newest]))
  }

  lemma DecidedExactly<S>(t: Task, createdAt: Time, schedule: Option<Schedule<S>>, maxRetries: int, failure: Error,
                          failedAt: Time)
    ensures DecidedRight(t, schedule, maxRetries, failure, failedAt,
                         Decided(t, createdAt, schedule, maxRetries, failure, failedAt))
  {
    if MayRetry(t, schedule, maxRetries, failure) {
      var s, earlier, newest := schedule.value, OfHandlers(t.errors), Entry(failure, failedAt, None);
      NewestFailureDecides(s, s.start, createdAt + t.options.delay, earlier, newest);
      ReplayBreaks(s, s.start, createdAt + t.options.delay, earlier + [newest]);
    }
  }

  // A retry is decided by replaying every handler failure the generation ever had, once and in order, with no stall
  // among them; when one of them is no longer kept, or a worker once reported a stall for one, no retry is decided and
  // the caller is told.
  lemma ReplayIsComplete<S>(clock: nat, acts: seq<Action>, i: Identity, createdAt: Time, s: Schedule<S>,
                            maxRetries: int, failure: Error, failedAt: Time)
    requires Legal(Initial(clock), acts) && Unsettled(Run(Initial(clock), acts).store, i)
    requires Run(Initial(clock), acts).store.tasks[i.key].handlerFailures < maxRetries && failure.Raised?
    ensures var t := Run(Initial(clock), acts).store.tasks[i.key]; var all := FailuresOf(Initial(clock), acts, i);
      var decision := Decided(t, createdAt, Some(s), maxRetries, failure, failedAt);
      if 0 < StallsReported(Initial(clock), acts, i)
        || (exists e :: e in Evicted(all, t.options.maxErrors) && e.error.Raised?)
      then decision == Decision(None, true)
      else
        var verdict := Replay(s, s.start, createdAt + t.options.delay,
                              OfHandlers(all) + [Entry(failure, failedAt, None)]);
        decision == Decision(if verdict.RunAt? then Some(verdict.time) else None, verdict.PolicyFailed?)
  {
    hide Legal, Run, FailuresOf, StallsReported, Evicted, OfHandlers, Newest, Replay;
    HistoryIsWholeExactly(clock, acts, i);
  }

  // ---- the cap over a whole run ----------------------------------------------------------------------

  // A failure of this generation that is to be retried.
  function RetryIn(w: World, a: Action, i: Identity): nat
    requires Enabled(w, a)
  {
    Count(Current(w.store, i) && a.Fail? && a.key == i.key && a.retryAt.Some?)
  }

  function RetriesOf(w: World, acts: seq<Action>, i: Identity): nat
    requires Legal(w, acts)
    decreases |acts|
  {
    if acts == [] then 0 else RetryIn(w, acts[0], i) + RetriesOf(Apply(w, acts[0]), acts[1..], i)
  }

  // The retry time of a failure is what deciding came to, on the record as it then was.
  ghost predicate IsDecided<S>(t: Task, schedule: Option<Schedule<S>>, maxRetries: int, error: Error,
                               retryAt: Option<Time>) {
    exists createdAt, failedAt :: retryAt == Decided(t, createdAt, schedule, maxRetries, error, failedAt).retryAt
  }

  // Workers report failures of this generation only as decided.
  ghost predicate AsDecided<S>(w: World, acts: seq<Action>, i: Identity, schedule: Option<Schedule<S>>, maxRetries: int)
    requires Legal(w, acts)
    decreases |acts|
  {
    acts == [] || (
      && (acts[0].Fail? && Current(w.store, i) && acts[0].key == i.key ==>
            IsDecided(w.store.tasks[i.key], schedule, maxRetries, acts[0].error, acts[0].retryAt))
      && AsDecided(Apply(w, acts[0]), acts[1..], i, schedule, maxRetries))
  }

  lemma FailuresAreCounted(w: World, a: Action, i: Identity)
    requires Enabled(w, a) && Current(w.store, i) && Current(Apply(w, a).store, i)
    ensures w.store.tasks[i.key].handlerFailures + RetryIn(w, a, i) <= Apply(w, a).store.tasks[i.key].handlerFailures
  {
    hide FailedStore, SucceededStore, HoldReleased;
    var k := i.key;
    if a.Fail? {
      if a.key == k {
        FailedRecord(w.store, k, false, a.error, a.retryAt, w.clock);
      } else {
        FailedElsewhere(w.store, a.key, false, a.error, a.retryAt, w.clock, k);
      }
    } else if a.Stall? {
      if a.key == k {
        FailedRecord(w.store, k, true, Stalled, StallRetry(w.store.tasks[k]), w.clock);
      } else {
        FailedElsewhere(w.store, a.key, true, Stalled, StallRetry(w.store.tasks[a.key]), w.clock, k);
      }
    } else if a.Succeed? {
      SucceededKeepsErrors(w.store, a.key, a.value, w.clock, k);
    } else if a.LetGo? {
      LetGoKeepsErrors(w.store, a.edge, w.clock, k);
    } else {
      OtherStepsKeepErrors(w, a, k);
    }
  }

  lemma {:induction false} GoneIsNotRetried(w: World, acts: seq<Action>, i: Identity)
    requires Legal(w, acts) && Known(w.store.generations, i) && !Current(w.store, i)
    ensures RetriesOf(w, acts, i) == 0
    decreases |acts|
  {
    hide Apply, Enabled;
    if acts != [] {
      GoneStaysGone(w, acts[0], i);
      GenerationsGrow(w, acts[0]);
      GoneIsNotRetried(Apply(w, acts[0]), acts[1..], i);
    }
  }

  lemma DecidedIsCapped<S>(t: Task, schedule: Option<Schedule<S>>, maxRetries: int, error: Error, retryAt: Option<Time>)
    requires IsDecided(t, schedule, maxRetries, error, retryAt) && retryAt.Some?
    ensures t.handlerFailures < maxRetries
  {
  }

  // However a run goes on, a generation whose workers report failures as decided is retried no more often than the cap
  // leaves over what it has failed already.
  lemma {:induction false} RetriesAreCapped<S>(w: World, acts: seq<Action>, i: Identity, schedule: Option<Schedule<S>>,
                                               maxRetries: int)
    requires Inv(w) && Legal(w, acts) && Current(w.store, i) && AsDecided(w, acts, i, schedule, maxRetries)
    ensures RetriesOf(w, acts, i) == 0 || w.store.tasks[i.key].handlerFailures + RetriesOf(w, acts, i) <= maxRetries
    decreases |acts|
  {
    hide Apply, Enabled, IsDecided;
    if acts != [] {
      var a, v := acts[0], Apply(w, acts[0]);
      StepKeepsInv(w, a);
      if RetryIn(w, a, i) == 1 {
        DecidedIsCapped(w.store.tasks[i.key], schedule, maxRetries, a.error, a.retryAt);
      }
      if Current(v.store, i) {
        FailuresAreCounted(w, a, i);
        RetriesAreCapped(v, acts[1..], i, schedule, maxRetries);
      } else {
        KnownWhenCurrent(w, i);
        GenerationsGrow(w, a);
        GoneIsNotRetried(v, acts[1..], i);
      }
    }
  }
}
