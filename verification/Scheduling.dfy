/** Materialising the ticks of a cron expression: which are offered, and in what order the durable cursor moves. */
module Scheduling {
  import opened Basics

  // ---- ticks -------------------------------------------------------------------------------

  // The ticks of a cron expression, numbered; there is always a next one and a previous one.
  ghost predicate Ticks(at: int -> Time) {
    forall i, j :: i < j ==> at(i) < at(j)
  }

  lemma {:induction false} TicksSpread(at: int -> Time, i: int, n: nat)
    requires Ticks(at)
    ensures at(i) + n <= at(i + n)
    decreases n
  {
    if n != 0 {
      TicksSpread(at, i, n - 1);
      assert at(i + (n - 1)) < at(i + n);
    }
  }

  // The number of the first tick after t, searched upwards from one that is not after it.
  ghost function FirstAfterFrom(at: int -> Time, t: Time, i: int): (n: int)
    requires Ticks(at) && at(i) <= t
    ensures at(n - 1) <= t < at(n)
    decreases t - at(i)
  {
    assert at(i) < at(i + 1);
    if t < at(i + 1) then i + 1 else FirstAfterFrom(at, t, i + 1)
  }

  ghost function FirstAfter(at: int -> Time, t: Time): (n: int)
    requires Ticks(at)
    ensures at(n - 1) <= t < at(n)
  {
    var d := if t < at(0) then at(0) - t else 0;
    TicksSpread(at, -d, d);
    FirstAfterFrom(at, t, -d)
  }

  lemma InOrder(at: int -> Time, i: int, j: int)
    requires Ticks(at)
    ensures at(i) < at(j) <==> i < j
  {
  }

  lemma FirstAfterIsOnly(at: int -> Time, t: Time, n: int)
    requires Ticks(at) && at(n - 1) <= t < at(n)
    ensures n == FirstAfter(at, t)
  {
    var m := FirstAfter(at, t);
    InOrder(at, n - 1, m);
    InOrder(at, m - 1, n);
  }

  // The next tick strictly after an instant, and the last one strictly before it.
  ghost function Next(at: int -> Time, t: Time): Time
    requires Ticks(at)
  {
    at(FirstAfter(at, t))
  }

  ghost function Previous(at: int -> Time, t: Time): Time
    requires Ticks(at)
  {
    at(FirstAfter(at, t - 1) - 1)
  }

  lemma PreviousOfTick(at: int -> Time, n: int)
    requires Ticks(at)
    ensures Previous(at, at(n)) == at(n - 1)
  {
    assert at(n - 1) < at(n);
    FirstAfterIsOnly(at, at(n) - 1, n);
  }

  // ---- bounded backfill ------------------------------------------------------------------------

  // How many ticks there are from one instant to another, both included.
  ghost function CountBetween(at: int -> Time, from: Time, to: Time): nat
    requires Ticks(at)
  {
    var first, after := FirstAfter(at, from - 1), FirstAfter(at, to);
    if first < after then after - first else 0
  }

  // The last n ticks up to an instant, oldest first.
  ghost predicate LatestTicks(at: int -> Time, now: Time, ticks: seq<Time>)
    requires Ticks(at)
  {
    forall k :: 0 <= k < |ticks| ==> ticks[k] == at(FirstAfter(at, now) - |ticks| + k)
  }

  function Reversed(s: seq<Time>): (r: seq<Time>)
    ensures |r| == |s| && forall k :: 0 <= k < |s| ==> r[k] == s[|s| - 1 - k]
  {
    if s == [] then [] else Reversed(s[1..]) + [s[0]]
  }

  // A cron expression as the scheduler uses it; parsing and time zones are someone else's.
  datatype Cron = Cron(next: Time -> Time, prev: Time -> Time)

  ghost predicate CronOf(cron: Cron, at: int -> Time) {
    Ticks(at) && forall t :: cron.next(t) == Next(at, t) && cron.prev(t) == Previous(at, t)
  }

  lemma NotYetMissed(at: int -> Time, from: Time, now: Time, n: nat)
    requires Ticks(at) && at(FirstAfter(at, now) - 1 - n) < from
    ensures CountBetween(at, from, now) <= n
  {
    InOrder(at, FirstAfter(at, now) - 1 - n, FirstAfter(at, from - 1));
  }

  lemma StillMissed(at: int -> Time, from: Time, now: Time, n: nat)
    requires Ticks(at) && from <= at(FirstAfter(at, now) - 1 - n)
    ensures n < CountBetween(at, from, now)
  {
    InOrder(at, FirstAfter(at, from - 1) - 1, FirstAfter(at, now) - 1 - n);
  }

  lemma ReversedIsLatest(at: int -> Time, now: Time, found: seq<Time>)
    requires Ticks(at) && forall k :: 0 <= k < |found| ==> found[k] == at(FirstAfter(at, now) - 1 - k)
    ensures LatestTicks(at, now, Reversed(found))
  {
    hide FirstAfter, Ticks, Reversed;
    var after, ticks := FirstAfter(at, now), Reversed(found);
    forall k | 0 <= k < |ticks| ensures ticks[k] == at(after - |ticks| + k) {
      assert ticks[k] == found[|found| - 1 - k] && after - 1 - (|found| - 1 - k) == after - |ticks| + k;
    }
  }

  // Walks back from the next tick: exactly the latest ticks missed, as many as the bound allows, oldest first.
  method RecentBackfill(cron: Cron, ghost at: int -> Time, firstMissed: Time, now: Time, maximum: nat)
    returns (ticks: seq<Time>)
    requires CronOf(cron, at)
    ensures LatestTicks(at, now, ticks) && |ticks| == Min(maximum, CountBetween(at, firstMissed, now))
  {
    hide FirstAfter, CountBetween, LatestTicks;
    ghost var after := FirstAfter(at, now);
    var found := [];
    var cursor := cron.next(now);
    var index := 0;
    while index < maximum
      invariant index <= maximum && |found| == index <= CountBetween(at, firstMissed, now)
      invariant cursor == at(after - index)
      invariant forall k :: 0 <= k < index ==> found[k] == at(after - 1 - k)
    {
      var tick := cron.prev(cursor);
      PreviousOfTick(at, after - index);
      if tick < firstMissed {
        NotYetMissed(at, firstMissed, now, index);
        break;
      }
      StillMissed(at, firstMissed, now, index);
      found, cursor, index := found + [tick], tick, index + 1;
    }
    ReversedIsLatest(at, now, found);
    ticks := Reversed(found);
  }

  // ---- one observation ------------------------------------------------------------------------------

  datatype Missed = Skip | Coalesce | Backfill(maximum: nat)

  // No tick after the first due one has come yet.
  ghost predicate NothingMissed(at: int -> Time, firstDue: Time, observedAt: Time) {
    forall i :: firstDue < at(i) ==> observedAt < at(i)
  }

  lemma NothingMissedExactly(at: int -> Time, firstDue: Time, observedAt: Time)
    requires Ticks(at)
    ensures NothingMissed(at, firstDue, observedAt) <==> observedAt < Next(at, firstDue)
  {
    var n := FirstAfter(at, firstDue);
    if observedAt < at(n) {
      forall i | firstDue < at(i) ensures observedAt < at(i) {
        InOrder(at, n - 1, i);
        assert i == n || at(n) < at(i);
      }
    }
  }

  // The last tick that has come.
  ghost predicate IsLatestTick(at: int -> Time, now: Time, t: Time) {
    exists i :: at(i) == t && t <= now < at(i + 1)
  }

  lemma BeforeNextIsLatest(at: int -> Time, now: Time)
    requires Ticks(at)
    ensures IsLatestTick(at, now, Previous(at, Next(at, now)))
  {
    var n := FirstAfter(at, now);
    PreviousOfTick(at, n);
    assert at(n - 1) <= now < at(n - 1 + 1);
  }

  // The ticks one observation offers: the first due one if no other was missed; and else none, the latest, or the
  // latest few as the policy says.
  ghost predicate Selected(at: int -> Time, missed: Missed, firstDue: Time, observedAt: Time, ticks: seq<Time>)
    requires Ticks(at)
  {
    if NothingMissed(at, firstDue, observedAt) then ticks == [firstDue]
    else match missed
      case Skip => ticks == []
      case Coalesce => |ticks| == 1 && IsLatestTick(at, observedAt, ticks[0])
      case Backfill(maximum) =>
        LatestTicks(at, observedAt, ticks) && |ticks| == Min(maximum, CountBetween(at, firstDue, observedAt))
  }

  method SelectTicks(cron: Cron, ghost at: int -> Time, missed: Missed, firstDue: Time, observedAt: Time)
    returns (ticks: seq<Time>)
    requires CronOf(cron, at) && firstDue <= observedAt
    ensures Selected(at, missed, firstDue, observedAt, ticks)
  {
    NothingMissedExactly(at, firstDue, observedAt);
    BeforeNextIsLatest(at, observedAt);
    var following := cron.next(firstDue);
    var nextFuture := cron.next(observedAt);
    if observedAt < following {
      ticks := [firstDue];
    } else if missed.Skip? {
      ticks := [];
    } else if missed.Coalesce? {
      ticks := [cron.prev(nextFuture)];
    } else {
      ticks := RecentBackfill(cron, at, firstDue, observedAt, missed.maximum);
    }
  }

  // What a selection is, tick by tick: the first due one if no other has come since; else nothing, the last that came,
  // or the last few that came since, without a gap and as many as the bound allows.
  lemma SelectionPlainly(at: int -> Time, missed: Missed, firstDue: Time, observedAt: Time, ticks: seq<Time>)
    requires Ticks(at) && firstDue <= observedAt && Selected(at, missed, firstDue, observedAt, ticks)
    ensures var alone := forall i :: firstDue < at(i) ==> observedAt < at(i);
      if alone then ticks == [firstDue]
      else match missed
        case Skip => ticks == []
        case Coalesce =>
          |ticks| == 1 && ticks[0] <= observedAt && exists i :: at(i) == ticks[0] && observedAt < at(i + 1)
        case Backfill(maximum) =>
          && |ticks| <= maximum
          && (forall t :: t in ticks ==> firstDue <= t <= observedAt && exists i :: at(i) == t)
          && (forall m, n :: 0 <= m < n < |ticks| ==> ticks[m] < ticks[n])
          && (forall i :: firstDue <= at(i) <= observedAt && at(i) !in ticks ==>
                |ticks| == maximum && forall t :: t in ticks ==> at(i) < t)
  {
    if missed.Backfill? && !NothingMissed(at, firstDue, observedAt) {
      BackfillPlainly(at, firstDue, observedAt, missed.maximum, ticks);
    }
  }

  lemma BackfillPlainly(at: int -> Time, firstDue: Time, observedAt: Time, maximum: nat, ticks: seq<Time>)
    requires Ticks(at) && LatestTicks(at, observedAt, ticks)
    requires |ticks| == Min(maximum, CountBetween(at, firstDue, observedAt))
    ensures |ticks| <= maximum
    ensures forall t :: t in ticks ==> firstDue <= t <= observedAt && exists i :: at(i) == t
    ensures forall m, n :: 0 <= m < n < |ticks| ==> ticks[m] < ticks[n]
    ensures forall i :: firstDue <= at(i) <= observedAt && at(i) !in ticks ==>
      |ticks| == maximum && forall t :: t in ticks ==> at(i) < t
  {
    hide FirstAfter, Ticks;
    var first, after := FirstAfter(at, firstDue - 1), FirstAfter(at, observedAt);
    forall n | 0 <= n < |ticks| ensures firstDue <= ticks[n] <= observedAt && ticks[n] == at(after - |ticks| + n) {
      InOrder(at, after - |ticks| + n, first);
      InOrder(at, after - 1, after - |ticks| + n);
    }
    forall m, n | 0 <= m < n < |ticks| ensures ticks[m] < ticks[n] {
      InOrder(at, after - |ticks| + m, after - |ticks| + n);
    }
    forall i | firstDue <= at(i) <= observedAt && at(i) !in ticks
      ensures |ticks| == maximum && forall t :: t in ticks ==> at(i) < t
    {
      EarlierThanAll(at, firstDue, observedAt, maximum, ticks, i);
    }
  }

  lemma IsAmong(at: int -> Time, observedAt: Time, ticks: seq<Time>, i: int)
    requires Ticks(at) && LatestTicks(at, observedAt, ticks)
    requires FirstAfter(at, observedAt) - |ticks| <= i < FirstAfter(at, observedAt)
    ensures at(i) in ticks
  {
    hide FirstAfter;
    assert ticks[i - (FirstAfter(at, observedAt) - |ticks|)] == at(i);
  }

  lemma EarlierThanAll(at: int -> Time, firstDue: Time, observedAt: Time, maximum: nat, ticks: seq<Time>, i: int)
    requires Ticks(at) && LatestTicks(at, observedAt, ticks)
    requires |ticks| == Min(maximum, CountBetween(at, firstDue, observedAt))
    requires firstDue <= at(i) <= observedAt && at(i) !in ticks
    ensures |ticks| == maximum && forall t :: t in ticks ==> at(i) < t
  {
    hide FirstAfter, Ticks;
    var first, after := FirstAfter(at, firstDue - 1), FirstAfter(at, observedAt);
    InOrder(at, first - 1, i);
    InOrder(at, i, after);
    if after - |ticks| <= i {
      IsAmong(at, observedAt, ticks, i);
      assert false;
    }
    forall n | 0 <= n < |ticks| ensures at(i) < ticks[n] {
      InOrder(at, i, after - |ticks| + n);
    }
  }

  // The bound of the backfill was not reached.
  ghost predicate Unbounded(at: int -> Time, missed: Missed, firstDue: Time, observedAt: Time)
    requires Ticks(at)
  {
    missed.Backfill? && CountBetween(at, firstDue, observedAt) <= missed.maximum
  }

  ghost predicate Covers(at: int -> Time, from: Time, to: Time, times: set<Time>) {
    forall i :: from <= at(i) < to ==> at(i) in times
  }

  lemma NoBacklogCovers(at: int -> Time, firstDue: Time, observedAt: Time, i: int)
    requires Ticks(at) && firstDue <= observedAt < Next(at, firstDue) && firstDue <= at(i) < Next(at, observedAt)
    ensures at(i) == firstDue
  {
    hide FirstAfter;
    var after := FirstAfter(at, firstDue);
    FirstAfterIsOnly(at, observedAt, after);
    InOrder(at, i, after);
    InOrder(at, i, after - 1);
  }

  lemma BackfillCovers(at: int -> Time, firstDue: Time, observedAt: Time, ticks: seq<Time>, i: int)
    requires Ticks(at) && LatestTicks(at, observedAt, ticks) && |ticks| == CountBetween(at, firstDue, observedAt)
    requires firstDue <= at(i) < Next(at, observedAt)
    ensures at(i) in ticks
  {
    hide FirstAfter;
    var first, after := FirstAfter(at, firstDue - 1), FirstAfter(at, observedAt);
    InOrder(at, first - 1, i);
    InOrder(at, i, after);
    assert ticks[i - (after - |ticks|)] == at(i);
  }

  // An observation that stays within its bound selects every tick it is about to pass.
  lemma SelectionCovers(at: int -> Time, missed: Missed, firstDue: Time, observedAt: Time, ticks: seq<Time>)
    requires Ticks(at) && firstDue <= observedAt && Selected(at, missed, firstDue, observedAt, ticks)
    requires Unbounded(at, missed, firstDue, observedAt)
    ensures Covers(at, firstDue, Next(at, observedAt), set t | t in ticks)
  {
    hide FirstAfter, CountBetween, LatestTicks, Next, Ticks, NothingMissed;
    NothingMissedExactly(at, firstDue, observedAt);
    forall i | firstDue <= at(i) < Next(at, observedAt) ensures at(i) in ticks {
      if observedAt < Next(at, firstDue) {
        NoBacklogCovers(at, firstDue, observedAt, i);
      } else {
        BackfillCovers(at, firstDue, observedAt, ticks, i);
      }
    }
  }

  // ---- many schedulers, crashing at any point -----------------------------------------------------------

  type Worker(==, !new, 0)

  // What one scheduler has still to do: offer these ticks, then move the cursor it saw to the next future tick.
  datatype Round = Round(firstDue: Time, nextFuture: Time, pending: seq<Time>)
  // The durable cursor, everything offered so far, and the rounds under way.
  datatype Schedule = Schedule(next: Option<Time>, offered: set<Time>, rounds: map<Worker, Round>)

  datatype Step =
    | Observe(worker: Worker, observedAt: Time, startAt: Option<Time>, ticks: seq<Time>)
    | OfferTick(worker: Worker)
    | Consume(worker: Worker, serverTime: Time)
    | Crash(worker: Worker)

  // The cursor an observation finds, after setting it if nobody had.
  ghost function CursorSeen(at: int -> Time, s: Schedule, step: Step): Time
    requires Ticks(at) && step.Observe?
  {
    if s.next.Some? then s.next.value else if step.startAt.Some? then step.startAt.value else Next(at, step.observedAt)
  }

  ghost predicate Enabled(at: int -> Time, missed: Missed, s: Schedule, step: Step)
    requires Ticks(at)
  {
    match step
    case Observe(w, observedAt, startAt, ticks) =>
      CursorSeen(at, s, step) <= observedAt ==> Selected(at, missed, CursorSeen(at, s, step), observedAt, ticks)
    case OfferTick(w) => w in s.rounds && s.rounds[w].pending != []
    case Consume(w, serverTime) => w in s.rounds && s.rounds[w].pending == []
    case Crash(w) => true
  }

  // The cursor moves only from the very value the round began with, when that is due, and only forwards.
  function Consumed(next: Option<Time>, r: Round, serverTime: Time): Option<Time> {
    if next == Some(r.firstDue) && r.firstDue <= serverTime && r.firstDue < r.nextFuture then Some(r.nextFuture)
      else next
  }

  ghost function Apply(at: int -> Time, missed: Missed, s: Schedule, step: Step): Schedule
    requires Ticks(at) && Enabled(at, missed, s, step)
  {
    match step
    case Observe(w, observedAt, startAt, ticks) =>
      var firstDue := CursorSeen(at, s, step);
      var t := s.(next := Some(firstDue));
      if observedAt < firstDue then t.(rounds := t.rounds - {w})
      else t.(rounds := t.rounds[w := Round(firstDue, Next(at, observedAt), ticks)])
    case OfferTick(w) =>
      var r := s.rounds[w];
      s.(offered := s.offered + {r.pending[0]}, rounds := s.rounds[w := r.(pending := r.pending[1..])])
    case Consume(w, serverTime) =>
      s.(next := Consumed(s.next, s.rounds[w], serverTime), rounds := s.rounds - {w})
    case Crash(w) => s.(rounds := s.rounds - {w})
  }

  ghost predicate Legal(at: int -> Time, missed: Missed, s: Schedule, steps: seq<Step>)
    requires Ticks(at)
    decreases |steps|
  {
    steps == [] || (Enabled(at, missed, s, steps[0]) && Legal(at, missed, Apply(at, missed, s, steps[0]), steps[1..]))
  }

  ghost function Run(at: int -> Time, missed: Missed, s: Schedule, steps: seq<Step>): Schedule
    requires Ticks(at) && Legal(at, missed, s, steps)
    decreases |steps|
  {
    if steps == [] then s else Run(at, missed, Apply(at, missed, s, steps[0]), steps[1..])
  }

  // Whatever the policy, the cursor only moves forwards, and nothing offered is forgotten.
  lemma {:induction false} CursorOnlyGrows(at: int -> Time, missed: Missed, s: Schedule, steps: seq<Step>)
    requires Ticks(at) && Legal(at, missed, s, steps)
    ensures var t := Run(at, missed, s, steps);
      s.offered <= t.offered && (s.next.Some? ==> t.next.Some? && s.next.value <= t.next.value)
    decreases |steps|
  {
    if steps != [] {
      CursorOnlyGrows(at, missed, Apply(at, missed, s, steps[0]), steps[1..]);
    }
  }

  // No observation of the run reached the bound of the backfill.
  ghost predicate WithinBound(at: int -> Time, missed: Missed, s: Schedule, steps: seq<Step>)
    requires Ticks(at) && Legal(at, missed, s, steps)
    decreases |steps|
  {
    steps == [] || (
      && (steps[0].Observe? && CursorSeen(at, s, steps[0]) <= steps[0].observedAt ==>
            Unbounded(at, missed, CursorSeen(at, s, steps[0]), steps[0].observedAt))
      && WithinBound(at, missed, Apply(at, missed, s, steps[0]), steps[1..]))
  }

  // Every tick below the cursor was offered, and each round under way still offers what it is about to pass.
  ghost predicate Covered(at: int -> Time, origin: Time, s: Schedule) {
    && (s.next.Some? ==> origin <= s.next.value && Covers(at, origin, s.next.value, s.offered))
    && (forall w :: w in s.rounds ==>
          s.next.Some?
            && Covers(at, s.rounds[w].firstDue, s.rounds[w].nextFuture, s.offered + (set t | t in s.rounds[w].pending)))
  }

  lemma StepKeepsCovered(at: int -> Time, missed: Missed, origin: Time, s: Schedule, step: Step)
    requires Ticks(at) && Enabled(at, missed, s, step) && Covered(at, origin, s)
    requires s.next.None? && step.Observe? ==> origin == CursorSeen(at, s, step)
    requires step.Observe? && CursorSeen(at, s, step) <= step.observedAt ==>
      Unbounded(at, missed, CursorSeen(at, s, step), step.observedAt)
    ensures Covered(at, origin, Apply(at, missed, s, step))
  {
    hide FirstAfter, Ticks, Unbounded, Selected;
    match step
    case Observe(w, observedAt, startAt, ticks) =>
      if CursorSeen(at, s, step) <= observedAt {
        SelectionCovers(at, missed, CursorSeen(at, s, step), observedAt, ticks);
      }
    case OfferTick(w) =>
      var r := s.rounds[w];
      assert forall t :: t in r.pending ==> t == r.pending[0] || t in r.pending[1..];
    case Consume(w, serverTime) =>
    case Crash(w) =>
  }

  // Where the cursor stood when it was first set.
  ghost function FirstCursor(at: int -> Time, missed: Missed, s: Schedule, steps: seq<Step>): Option<Time>
    requires Ticks(at) && Legal(at, missed, s, steps)
    decreases |steps|
  {
    if s.next.Some? || steps == [] then s.next else FirstCursor(at, missed, Apply(at, missed, s, steps[0]), steps[1..])
  }

  // Under a backfill that never reaches its bound, every tick from the first cursor on was offered before the cursor
  // passed it: for any number of schedulers, interleaved in any way and crashing at any point.
  lemma EveryTickIsOffered(at: int -> Time, missed: Missed, s: Schedule, steps: seq<Step>)
    requires Ticks(at) && Legal(at, missed, s, steps) && WithinBound(at, missed, s, steps) && s.rounds == map[]
    ensures var t, origin := Run(at, missed, s, steps), FirstCursor(at, missed, s, steps);
      t.next.Some? ==> origin.Some? && origin.value <= t.next.value && Covers(at, origin.value, t.next.value, t.offered)
  {
    var origin := FirstCursor(at, missed, s, steps);
    FirstCursorStays(at, missed, s, steps);
    if origin.Some? {
      RunKeepsCovered(at, missed, origin.value, s, steps);
    }
  }

  lemma {:induction false} FirstCursorStays(at: int -> Time, missed: Missed, s: Schedule, steps: seq<Step>)
    requires Ticks(at) && Legal(at, missed, s, steps)
    ensures Run(at, missed, s, steps).next.Some? <==> FirstCursor(at, missed, s, steps).Some?
    decreases |steps|
  {
    hide FirstAfter, Ticks, Selected;
    if steps != [] {
      FirstCursorStays(at, missed, Apply(at, missed, s, steps[0]), steps[1..]);
      if s.next.Some? {
        CursorOnlyGrows(at, missed, s, steps);
      }
    }
  }

  lemma {:induction false} RunKeepsCovered(at: int -> Time, missed: Missed, origin: Time, s: Schedule, steps: seq<Step>)
    requires Ticks(at) && Legal(at, missed, s, steps) && WithinBound(at, missed, s, steps) && Covered(at, origin, s)
    requires s.next.None? ==> FirstCursor(at, missed, s, steps) == Some(origin)
    ensures Covered(at, origin, Run(at, missed, s, steps))
    decreases |steps|
  {
    hide FirstAfter, Ticks, Selected, Covered, Unbounded;
    if steps != [] {
      StepKeepsCovered(at, missed, origin, s, steps[0]);
      RunKeepsCovered(at, missed, origin, Apply(at, missed, s, steps[0]), steps[1..]);
    }
  }

  // ---- nothing is offered early -------------------------------------------------------------------------

  ghost predicate IsTick(at: int -> Time, t: Time) {
    exists i :: at(i) == t
  }

  lemma LatestTicksAreDue(at: int -> Time, firstDue: Time, now: Time, ticks: seq<Time>, k: nat)
    requires Ticks(at) && LatestTicks(at, now, ticks) && |ticks| <= CountBetween(at, firstDue, now) && k < |ticks|
    ensures firstDue <= ticks[k] <= now && IsTick(at, ticks[k])
  {
    hide FirstAfter;
    var first, after := FirstAfter(at, firstDue - 1), FirstAfter(at, now);
    var i := after - |ticks| + k;
    assert first <= i <= after - 1;
    InOrder(at, first - 1, i);
    InOrder(at, first, i);
    InOrder(at, i, after - 1);
    assert at(i) == ticks[k];
  }

  // The latest tick is not before the first due one, if another has come since.
  lemma LatestIsDue(at: int -> Time, firstDue: Time, observedAt: Time, t: Time)
    requires Ticks(at) && IsLatestTick(at, observedAt, t) && !NothingMissed(at, firstDue, observedAt)
    ensures firstDue <= t <= observedAt && IsTick(at, t)
  {
    var i :| at(i) == t && t <= observedAt < at(i + 1);
    var j :| firstDue < at(j) && at(j) <= observedAt;
    InOrder(at, j, i + 1);
    InOrder(at, i, j);
  }

  // Whatever an observation selects had come by then, is no earlier than what was first due, and is a tick or just
  // that.
  lemma SelectionIsDue(at: int -> Time, missed: Missed, firstDue: Time, observedAt: Time, ticks: seq<Time>, t: Time)
    requires Ticks(at) && firstDue <= observedAt && Selected(at, missed, firstDue, observedAt, ticks) && t in ticks
    ensures firstDue <= t <= observedAt && (t == firstDue || IsTick(at, t))
  {
    hide FirstAfter, CountBetween, LatestTicks, NothingMissed, IsLatestTick, Ticks, IsTick;
    if !NothingMissed(at, firstDue, observedAt) {
      if missed.Coalesce? {
        LatestIsDue(at, firstDue, observedAt, t);
      } else {
        var k :| 0 <= k < |ticks| && ticks[k] == t;
        LatestTicksAreDue(at, firstDue, observedAt, ticks, k);
      }
    }
  }

  // An instant the schedule may come to: where it began, or a later tick.
  ghost predicate OnSchedule(at: int -> Time, origin: Time, t: Time) {
    t == origin || (origin <= t && IsTick(at, t))
  }

  ghost predicate PunctualRound(at: int -> Time, origin: Time, latest: Time, r: Round) {
    && OnSchedule(at, origin, r.firstDue) && OnSchedule(at, origin, r.nextFuture)
    && forall t :: t in r.pending ==> OnSchedule(at, origin, t) && t <= latest
  }

  // Everything offered or about to be is on schedule and had come by the latest observation.
  ghost predicate Punctual(at: int -> Time, origin: Time, latest: Time, s: Schedule) {
    && (s.next.Some? ==> OnSchedule(at, origin, s.next.value))
    && (forall t :: t in s.offered ==> OnSchedule(at, origin, t) && t <= latest)
    && (forall w :: w in s.rounds ==> s.next.Some? && PunctualRound(at, origin, latest, s.rounds[w]))
  }

  lemma StepKeepsPunctual(at: int -> Time, missed: Missed, origin: Time, latest: Time, s: Schedule, step: Step)
    requires Ticks(at) && Enabled(at, missed, s, step) && Punctual(at, origin, latest, s)
    requires s.next.None? && step.Observe? ==> origin == CursorSeen(at, s, step)
    requires step.Observe? ==> step.observedAt <= latest
    ensures Punctual(at, origin, latest, Apply(at, missed, s, step))
  {
    hide FirstAfter, Ticks, Selected, IsTick;
    match step
    case Observe(w, observedAt, startAt, ticks) =>
      var firstDue := CursorSeen(at, s, step);
      assert OnSchedule(at, origin, firstDue);
      if firstDue <= observedAt {
        NextIsTick(at, observedAt);
        forall t | t in ticks ensures OnSchedule(at, origin, t) && t <= latest {
          SelectionIsDue(at, missed, firstDue, observedAt, ticks, t);
        }
      }
    case OfferTick(w) =>
      var r := s.rounds[w];
      assert PunctualRound(at, origin, latest, r);
      assert r.pending[0] in r.pending && forall t :: t in r.pending[1..] ==> t in r.pending;
    case _ =>
  }

  lemma NextIsTick(at: int -> Time, t: Time)
    requires Ticks(at)
    ensures IsTick(at, Next(at, t)) && t < Next(at, t)
  {
  }

  // Under every policy, whatever was offered is the instant the schedule began with or a later tick, and had come when
  // some scheduler looked: for any number of schedulers, interleaved in any way and crashing at any point.
  lemma {:induction false} NothingEarlyIsOffered(at: int -> Time, missed: Missed, origin: Time, latest: Time,
                                                 s: Schedule,
                                                 steps: seq<Step>)
    requires Ticks(at) && Legal(at, missed, s, steps) && Punctual(at, origin, latest, s)
    requires s.next.None? && FirstCursor(at, missed, s, steps).Some? ==>
      FirstCursor(at, missed, s, steps) == Some(origin)
    requires forall step :: step in steps && step.Observe? ==> step.observedAt <= latest
    ensures Punctual(at, origin, latest, Run(at, missed, s, steps))
    decreases |steps|
  {
    hide FirstAfter, Ticks, Selected, Punctual;
    if steps != [] {
      assert steps[0] in steps && forall step :: step in steps[1..] ==> step in steps;
      FirstCursorStays(at, missed, s, steps);
      StepKeepsPunctual(at, missed, origin, latest, s, steps[0]);
      NothingEarlyIsOffered(at, missed, origin, latest, Apply(at, missed, s, steps[0]), steps[1..]);
    }
  }

  // ---- the cursor moves on -----------------------------------------------------------------------------

  // Whoever observes first sets the cursor: to the instant asked for, or else to the next tick.
  lemma ObservationSetsCursor(at: int -> Time, missed: Missed, s: Schedule, step: Step)
    requires Ticks(at) && Enabled(at, missed, s, step) && step.Observe?
    ensures var next := Apply(at, missed, s, step).next;
      if s.next.Some? then next == s.next
      else if step.startAt.Some? then next == step.startAt
      else next.Some? && IsFirstAfter(at, step.observedAt, next.value)
  {
    NextIsFirst(at, step.observedAt);
  }

  // The first tick after an instant.
  ghost predicate IsFirstAfter(at: int -> Time, t: Time, tick: Time) {
    t < tick && (exists i :: at(i) == tick) && forall i :: t < at(i) ==> tick <= at(i)
  }

  lemma NextIsFirst(at: int -> Time, t: Time)
    requires Ticks(at)
    ensures IsFirstAfter(at, t, Next(at, t))
  {
    var n := FirstAfter(at, t);
    forall i | t < at(i) ensures at(n) <= at(i) {
      InOrder(at, n - 1, i);
      assert i == n || at(n) < at(i);
    }
  }

  // The worker is in this round, and the cursor has not been moved past it, or has been moved on by another.
  ghost predicate InRound(s: Schedule, w: Worker, firstDue: Time, nextFuture: Time) {
    && w in s.rounds && s.rounds[w].firstDue == firstDue && s.rounds[w].nextFuture == nextFuture
    && s.next.Some? && firstDue <= s.next.value
  }

  predicate EndsRound(step: Step, w: Worker) {
    (step.Observe? || step.Consume? || step.Crash?) && step.worker == w
  }

  lemma StepStaysInRound(at: int -> Time, missed: Missed, s: Schedule, step: Step, w: Worker, firstDue: Time,
                         nextFuture: Time)
    requires Ticks(at) && Enabled(at, missed, s, step) && InRound(s, w, firstDue, nextFuture) && !EndsRound(step, w)
    ensures InRound(Apply(at, missed, s, step), w, firstDue, nextFuture)
    ensures !step.Consume? ==> Apply(at, missed, s, step).next == s.next
  {
    hide Ticks, FirstAfter, Selected;
  }

  lemma {:induction false} RunStaysInRound(at: int -> Time, missed: Missed, s: Schedule, steps: seq<Step>, w: Worker,
                                           firstDue: Time, nextFuture: Time)
    requires Ticks(at) && Legal(at, missed, s, steps) && InRound(s, w, firstDue, nextFuture)
    requires forall step :: step in steps ==> !EndsRound(step, w)
    ensures InRound(Run(at, missed, s, steps), w, firstDue, nextFuture)
    ensures (forall step :: step in steps ==> !step.Consume?) ==> Run(at, missed, s, steps).next == s.next
    decreases |steps|
  {
    hide Ticks, Apply, Enabled, InRound, EndsRound;
    if steps != [] {
      assert steps[0] in steps && forall step :: step in steps[1..] ==> step in steps;
      StepStaysInRound(at, missed, s, steps[0], w, firstDue, nextFuture);
      RunStaysInRound(at, missed, Apply(at, missed, s, steps[0]), steps[1..], w, firstDue, nextFuture);
    }
  }

  // A worker that finds the cursor due and ends its round moves it on, unless another did so meanwhile; undisturbed, it
  // moves it past every tick up to its observation, to the first one after it.
  lemma RoundPasses(at: int -> Time, missed: Missed, s: Schedule, observed: Step, steps: seq<Step>, serverTime: Time)
    requires Ticks(at) && observed.Observe? && Enabled(at, missed, s, observed)
    requires s.next.Some? || observed.startAt.Some?
    requires var due := if s.next.Some? then s.next.value else observed.startAt.value;
      due <= observed.observedAt && due <= serverTime
    requires Legal(at, missed, Apply(at, missed, s, observed), steps)
    requires forall step :: step in steps ==> !EndsRound(step, observed.worker)
    requires var v := Run(at, missed, Apply(at, missed, s, observed), steps);
      Enabled(at, missed, v, Consume(observed.worker, serverTime))
    ensures var v := Run(at, missed, Apply(at, missed, s, observed), steps);
      var u := Apply(at, missed, v, Consume(observed.worker, serverTime));
      && u.next.Some? && (if s.next.Some? then s.next.value else observed.startAt.value) < u.next.value
      && ((forall step :: step in steps ==> !step.Consume?) ==> IsFirstAfter(at, observed.observedAt, u.next.value))
  {
    hide FirstAfter, Selected, IsFirstAfter, Legal, Run;
    var due := if s.next.Some? then s.next.value else observed.startAt.value;
    NextIsTick(at, observed.observedAt);
    NextIsFirst(at, observed.observedAt);
    RunStaysInRound(at, missed, Apply(at, missed, s, observed), steps, observed.worker, due,
                    Next(at, observed.observedAt));
  }

  // Whatever the workers' clocks say, the cursor does not leave an instant before the server's clock has reached it.
  lemma {:induction false} CursorWaits(at: int -> Time, missed: Missed, s: Schedule, steps: seq<Step>, cursor: Time)
    requires Ticks(at) && Legal(at, missed, s, steps) && s.next == Some(cursor)
    requires forall step :: step in steps && step.Consume? ==> step.serverTime < cursor
    ensures Run(at, missed, s, steps).next == Some(cursor)
    decreases |steps|
  {
    hide FirstAfter, Selected, Ticks;
    if steps != [] {
      assert steps[0] in steps && forall step :: step in steps[1..] ==> step in steps;
      CursorWaits(at, missed, Apply(at, missed, s, steps[0]), steps[1..], cursor);
    }
  }
}
