/** How the primitive changes of the task store affect each part of its invariant. */
module TaskProofs {
  import opened Basics
  import opened TaskModel
  import opened TaskRuns
  import opened TaskInvariant

  // ---- lists ---------------------------------------------------------------------

  lemma {:induction false} WithoutKeepsOrder(wait: seq<Key>, k: Key)
    requires NoRepeats(wait)
    ensures NoRepeats(Without(wait, k))
  {
    if wait != [] {
      var rest := wait[1..];
      assert NoRepeats(rest);
      WithoutKeepsOrder(rest, k);
      if wait[0] != k {
        var r := [wait[0]] + Without(rest, k);
        forall i, j | 0 <= i < j < |r| ensures r[i] != r[j] {
          if i == 0 {
            assert r[j] in Without(rest, k) && r[j] in rest;
          }
        }
      }
    }
  }

  lemma UnplacedHomes(tasks: map<Key, Task>, h: Homes, k: Key)
    requires HomesInv(tasks, h)
    ensures HomesInv(tasks - {k}, Unplaced(h, k))
  {
    WithoutKeepsOrder(h.wait, k);
    forall j ensures HomeOk(tasks - {k}, Unplaced(h, k), j) {
      assert HomeOk(tasks, h, j);
    }
  }

  lemma AppendedOnce(wait: seq<Key>, k: Key)
    requires NoRepeats(wait) && k !in wait
    ensures NoRepeats(wait + [k])
  {
  }

  lemma PlacedItself(h: Homes, k: Key, p: Place, score: Time)
    ensures var g := Placed(h, k, p, score);
      && (k in g.wait <==> p.Wait?) && (k in g.scheduled <==> p.Scheduled?) && (k in g.active <==> p.Active?)
      && (k in g.succeeded <==> p.Succeeded?) && (k in g.failed <==> p.Failed?)
  {
    assert k in Unplaced(h, k).wait + [k];
  }

  lemma PlacedOthers(h: Homes, k: Key, p: Place, score: Time, j: Key)
    requires j != k
    ensures var g := Placed(h, k, p, score);
      && (j in g.wait <==> j in h.wait) && (j in g.scheduled <==> j in h.scheduled)
        && (j in g.active <==> j in h.active)
      && (j in g.succeeded <==> j in h.succeeded) && (j in g.failed <==> j in h.failed)
  {
    var u := Unplaced(h, k);
    assert j in u.wait + [k] <==> j in u.wait;
  }

  lemma PlacedHome(tasks: map<Key, Task>, h: Homes, k: Key, t: Task, score: Time, j: Key)
    requires HomeOk(tasks, h, j)
    ensures HomeOk(tasks[k := t], Placed(h, k, t.place, score), j)
  {
    hide Placed;
    if j == k {
      PlacedItself(h, k, t.place, score);
    } else {
      PlacedOthers(h, k, t.place, score, j);
    }
  }

  lemma PlacedHomes(tasks: map<Key, Task>, h: Homes, k: Key, t: Task, score: Time)
    requires HomesInv(tasks, h)
    ensures HomesInv(tasks[k := t], Placed(h, k, t.place, score))
  {
    UnplacedHomes(tasks, h, k);
    var after, p := tasks[k := t], Placed(h, k, t.place, score);
    forall j ensures HomeOk(after, p, j) {
      PlacedHome(tasks, h, k, t, score, j);
    }
    AppendedOnce(Without(h.wait, k), k);
  }

  lemma SamePlaceHomes(tasks: map<Key, Task>, h: Homes, k: Key, t: Task)
    requires HomesInv(tasks, h) && k in tasks && t.place == tasks[k].place
    ensures HomesInv(tasks[k := t], h)
  {
    var after := tasks[k := t];
    forall j ensures HomeOk(after, h, j) {
      assert HomeOk(tasks, h, j);
    }
  }

  // ---- records -------------------------------------------------------------------

  lemma TasksUpdated(tasks: map<Key, Task>, generations: map<Key, nat>, log: Log, k: Key, t: Task)
    requires TasksInv(tasks, generations, log) && k in tasks && t.generation == tasks[k].generation
    requires TaskOk(t, Released(log, Identity(k, t.generation)))
    ensures TasksInv(tasks[k := t], generations, log)
  {
  }

  lemma TasksRemoved(tasks: map<Key, Task>, generations: map<Key, nat>, log: Log, k: Key)
    requires TasksInv(tasks, generations, log)
    ensures TasksInv(tasks - {k}, generations, log)
  {
  }

  // ---- disposal -------------------------------------------------------------------

  // Disposal either deletes the record or moves it to the place its policy names; nothing else in the records changes.
  ghost predicate DisposedShape(s: Store, t: Store, k: Key, now: Time)
    requires k in s.tasks && s.tasks[k].outcome.Some?
  {
    var p := PlaceOf(PolicyOf(s.tasks[k]));
    && t.generations == s.generations && t.locks == s.locks && t.holds == s.holds
    && t.kept.results == s.kept.results && t.kept.resultExpiry == s.kept.resultExpiry
    && t.kept.deadLetters == s.kept.deadLetters && t.kept.deadLetterExpiry == s.kept.deadLetterExpiry
    && ((t.tasks == s.tasks - {k} && t.homes == Unplaced(s.homes, k) && !Held(s.holds, IdentityOf(s, k))
         && t.kept.taskExpiry == s.kept.taskExpiry - {IdentityOf(s, k)})
        || (t.tasks == s.tasks[k := s.tasks[k].(place := p)] && t.homes == Placed(s.homes, k, p, now)
          && t.kept == s.kept))
  }

  lemma DisposalShape(s: Store, k: Key, now: Time)
    requires k in s.tasks && s.tasks[k].outcome.Some?
    ensures DisposedShape(s, Disposed(s, k, now), k, now)
  {
  }

  lemma DisposedHomes(s: Store, t: Store, k: Key, now: Time, tasks: map<Key, Task>)
    requires k in s.tasks && s.tasks[k].outcome.Some? && DisposedShape(s, t, k, now)
    requires HomesInv(tasks, s.homes) && s.tasks == tasks[k := s.tasks[k]]
    ensures HomesInv(t.tasks, t.homes)
  {
    if t.tasks == s.tasks - {k} && t.homes == Unplaced(s.homes, k) {
      UnplacedHomes(tasks, s.homes, k);
      assert tasks - {k} == t.tasks;
    } else {
      PlacedHomes(tasks, s.homes, k, t.tasks[k], now);
      assert tasks[k := t.tasks[k]] == t.tasks;
    }
  }

  lemma DisposedLocks(s: Store, t: Store, k: Key, now: Time, tokens: set<Token>)
    requires k in s.tasks && s.tasks[k].outcome.Some? && DisposedShape(s, t, k, now)
    requires forall j :: j in s.homes.active && j != k ==> j in s.locks && s.locks[j].until == s.homes.active[j]
    requires forall j :: j in s.locks && now < s.locks[j].until ==> j in s.homes.active && j != k
    requires forall j :: j in s.locks ==> s.locks[j].token in tokens
    ensures LocksInv(t.homes.active, t.locks, tokens, now)
  {
    assert t.homes.active == s.homes.active - {k};
  }

  // A hold stays on an existing record, and its holder stays unsettled or enlisted.
  lemma DisposedHolds(s: Store, t: Store, k: Key, now: Time)
    requires k in s.tasks && s.tasks[k].outcome.Some? && DisposedShape(s, t, k, now)
    requires HoldsInv(s)
    ensures HoldsInv(t)
  {
  }

  lemma DisposedSettled(s: Store, t: Store, k: Key, now: Time, log: Log)
    requires k in s.tasks && s.tasks[k].outcome.Some? && DisposedShape(s, t, k, now)
    requires SettledInv(s, log)
    ensures SettledInv(t, log)
  {
  }

  lemma DisposedExpiry(s: Store, t: Store, k: Key, now: Time)
    requires k in s.tasks && s.tasks[k].outcome.Some? && DisposedShape(s, t, k, now)
    requires ExpiryInv(s)
    ensures ExpiryInv(t)
  {
  }
}
