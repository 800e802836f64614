/** Where retention promises less than it seems to: the exact conditions, and runs that reach them. */
module TaskLimits {
  import opened Basics
  import opened TaskModel
  import opened TaskRuns
  import opened TaskInvariant
  import opened TaskRetention
  import opened TaskMirror
  import opened TaskTheorems
  import opened TaskRest
  import opened TaskHolding
  import opened TaskScript
  import opened TaskKeeping
  import opened TaskLaws
  import opened TaskFailures

  // ---- tombstones -----------------------------------------------------------------------

  // The holder's side of a hold is matched by the held side exactly when the held generation was not removed by force.
  lemma TombstonesExactly(w: World, acts: seq<Action>, e: Edge)
    requires Sound(w) && Legal(w, acts) && e in Run(w, acts).store.holds.retains
    ensures e in Run(w, acts).store.holds.retainedBy <==> e.retained !in Run(w, acts).log.forced
    ensures e.retained in Run(w, acts).log.forced ==> !Current(Run(w, acts).store, e.retained)
  {
    RunIsSound(w, acts);
  }

  function HeldTask(h: Key, r: Key, o: Options): seq<Action> {
    [Create(h, o, None), Create(r, o, Some(Identity(h, 1)))]
  }

  function FirstRun(o: Options): Task {
    NewTask(o, 1, if 0 < o.delay then Scheduled else Wait)
  }

  lemma HeldTaskRuns(h: Key, r: Key, o: Options)
    requires h != r && 0 < o.maxRelationships
    ensures Legal(Initial(0), HeldTask(h, r, o))
    ensures var s := Run(Initial(0), HeldTask(h, r, o)).store; var e := Edge(Identity(h, 1), Identity(r, 1));
      && s.holds == Holds({e}, {e}, map[])
      && s.tasks == map[h := FirstRun(o), r := FirstRun(o)]
      && s.locks == map[] && Run(Initial(0), HeldTask(h, r, o)).log == Initial(0).log
        && Run(Initial(0), HeldTask(h, r, o)).clock == 0
      && (o.delay == 0 ==> s.homes.wait == [h, r])
  {
    var w0 := Initial(0);
    var a, b := Create(h, o, None), Create(r, o, Some(Identity(h, 1)));
    var w1 := Apply(w0, a);
    var e := Edge(Identity(h, 1), Identity(r, 1));
    assert HeldBy(w1.store.holds, e.holder) == {} && HoldersOf(w1.store.holds, e.retained) == {};
    assert Without([h], r) == [h] + Without([], r) by { assert [h][1..] == []; }
    assert w1.store.homes.wait == (if o.delay == 0 then [h] else []);
    RunOne(w0, a);
    RunOne(w1, b);
    RunAppend(w0, [a], [b]);
    assert [a] + [b] == HeldTask(h, r, o);
  }

  // A forced removal leaves the holder's side of the hold behind.
  lemma ForcedRemovalLeavesTombstone(h: Key, r: Key, o: Options)
    requires h != r && 0 < o.maxRelationships
    ensures var acts := HeldTask(h, r, o) + [ForceRemove(r)]; var e := Edge(Identity(h, 1), Identity(r, 1));
      && Legal(Initial(0), acts)
      && e in Run(Initial(0), acts).store.holds.retains && e !in Run(Initial(0), acts).store.holds.retainedBy
  {
    InitialInv(0);
    HeldTaskRuns(h, r, o);
    RunExtend(Initial(0), HeldTask(h, r, o), ForceRemove(r));
  }

  // ---- listed without an end of its own --------------------------------------------------------

  predicate Listed(s: Store, k: Key) {
    k in s.homes.succeeded || k in s.homes.failed
  }

  // A task in a terminal list is due to leave it exactly when its terminal retention has not ended before; in any case
  // its record is due to go, and the list entry with it.
  lemma ListedWithoutExpiry(w: World, acts: seq<Action>, k: Key)
    requires Sound(w) && Legal(w, acts) && Listed(Run(w, acts).store, k)
    ensures var v := Run(w, acts);
      && k in v.store.tasks && IdentityOf(v.store, k) in v.store.kept.taskExpiry
      && (IdentityOf(v.store, k) in v.store.kept.terminalExpiry <==> IdentityOf(v.store, k) !in v.log.unlisted)
  {
    RunIsSound(w, acts);
    ListedIsMarked(Run(w, acts), k);
  }

  lemma ListedIsMarked(w: World, k: Key)
    requires Sound(w) && Listed(w.store, k)
    ensures k in w.store.tasks && Marked(w.store.tasks[k])
    ensures w.store.tasks[k].place == PlaceOf(PolicyOf(w.store.tasks[k]))
    ensures IdentityOf(w.store, k) in w.store.kept.taskExpiry
    ensures IdentityOf(w.store, k) in w.store.kept.terminalExpiry <==> IdentityOf(w.store, k) !in w.log.unlisted
  {
    assert HomeOk(w.store.tasks, w.store.homes, k);
    assert ListingOk(w, k);
  }

  lemma PlacedIsListed(w: World, i: Identity)
    requires Sound(w) && Current(w.store, i)
    requires (w.store.tasks[i.key].place.Succeeded? || w.store.tasks[i.key].place.Failed?)
    ensures Listed(w.store, i.key)
  {
    assert HomeOk(w.store.tasks, w.store.homes, i.key);
  }

  lemma LetGoKeepsPlace(s: Store, e: Edge, now: Time, i: Identity)
    requires Current(s, i) && Marked(s.tasks[i.key]) && s.tasks[i.key].place == PlaceOf(PolicyOf(s.tasks[i.key]))
    ensures Current(HoldReleased(s, e, now), i) ==> HoldReleased(s, e, now).tasks[i.key].place == s.tasks[i.key].place
  {
    hide Placed, Unplaced;
  }

  // A task whose stay on its list has ended before leaves the list in no step that leaves its record.
  lemma StepKeepsListed(w: World, a: Action, i: Identity)
    requires Sound(w) && Enabled(w, a) && Current(w.store, i) && Listed(w.store, i.key)
    requires i !in w.store.kept.terminalExpiry
    requires Current(Apply(w, a).store, i)
    ensures Listed(Apply(w, a).store, i.key) && i !in Apply(w, a).store.kept.terminalExpiry
  {
    hide Sound, Inv, Enabled, Apply, Listed, Marked, HoldReleased, ListedIsSettled, Changes;
    var v := Apply(w, a);
    assert IdentityOf(w.store, i.key) == i by { CurrentIdentity(w.store, i); }
    SoundIsInv(w);
    ListedIsMarked(w, i.key);
    ListedByInv(w, i.key);
    RunOne(w, a);
    RunIsSound(w, [a]);
    if !Changes(w.store, a, i.key) {
      Untouched(w, a, i.key);
    } else {
      SettledIsQuiet(w, i.key) by { MarkedIsSettled(w, i.key); }
      ChangeKeepsPlace(w, a, i);
    }
    UnlistedStays(w, a);
    PlaceStays(w, v, i);
    PlacedIsListed(v, i);
    CurrentIdentity(v.store, i);
    ListedIsMarked(v, i.key);
  }

  lemma CurrentIdentity(s: Store, i: Identity)
    requires Current(s, i)
    ensures IdentityOf(s, i.key) == i
  {
  }

  lemma MarkedIsSettled(w: World, k: Key)
    requires k in w.store.tasks && Marked(w.store.tasks[k])
    ensures w.store.tasks[k].outcome.Some?
  {
  }

  lemma PlaceStays(w: World, v: World, i: Identity)
    requires i.key in w.store.tasks && i.key in v.store.tasks
    requires v.store.tasks[i.key].place == w.store.tasks[i.key].place
    requires Marked(w.store.tasks[i.key]) && w.store.tasks[i.key].place == PlaceOf(PolicyOf(w.store.tasks[i.key]))
    ensures v.store.tasks[i.key].place.Succeeded? || v.store.tasks[i.key].place.Failed?
  {
  }

  lemma ChangeKeepsPlace(w: World, a: Action, i: Identity)
    requires Enabled(w, a) && Current(w.store, i) && Changes(w.store, a, i.key) && i !in w.store.kept.terminalExpiry
    requires Marked(w.store.tasks[i.key]) && w.store.tasks[i.key].place == PlaceOf(PolicyOf(w.store.tasks[i.key]))
    requires i.key !in w.store.homes.active && i.key !in w.store.homes.wait && i.key !in w.store.homes.scheduled
    requires !Locked(w.store, i.key, w.clock)
    requires Current(Apply(w, a).store, i)
    ensures Apply(w, a).store.tasks[i.key].place == w.store.tasks[i.key].place
  {
    hide Placed, Unplaced, HoldReleased, FailedStore, SucceededStore, MayHold, HoldsEnlisted, Held;
    if a.LetGo? {
      LetGoKeepsPlace(w.store, a.edge, w.clock, i);
    }
  }

  lemma UnlistedStays(w: World, a: Action)
    requires Enabled(w, a)
    ensures w.log.unlisted <= Apply(w, a).log.unlisted
  {
    hide Placed, Unplaced, HoldReleased, FailedStore, SucceededStore, MayHold, HoldsEnlisted, Held, FirstWaiting;
  }

  // Once its stay has ended, a task that is listed again is listed exactly as long as its record is there.
  lemma {:induction false} ListedWithItsRecord(w: World, acts: seq<Action>, i: Identity)
    requires Sound(w) && Legal(w, acts) && Current(w.store, i) && Listed(w.store, i.key)
    requires i !in w.store.kept.terminalExpiry
    ensures Current(Run(w, acts).store, i) ==>
      Listed(Run(w, acts).store, i.key) && i !in Run(w, acts).store.kept.terminalExpiry
    decreases |acts|
  {
    hide Sound, Inv, Enabled, Apply, Current, Listed;
    if acts != [] {
      var a, v := acts[0], Apply(w, acts[0]);
      RunOne(w, a);
      RunIsSound(w, [a]);
      if Current(v.store, i) {
        StepKeepsListed(w, a, i);
        ListedWithItsRecord(v, acts[1..], i);
      } else {
        KnownBySound(w, i);
        GenerationsGrow(w, a);
        GoneForGood(v, acts[1..], i);
      }
    }
  }

  // Letting go of the last hold puts a marked task on its terminal list, also when its stay there had already ended:
  // with an expiry exactly if it still had one just before.
  lemma LastReleaseLists(w: World, e: Edge)
    requires Sound(w) && Enabled(w, LetGo(e)) && e in w.store.holds.retainedBy
    requires HoldersOf(w.store.holds, e.retained) == {e}
    requires Marked(w.store.tasks[e.retained.key])
    ensures var s := Apply(w, LetGo(e)).store;
      && Listed(s, e.retained.key) && Current(s, e.retained) && e.retained in s.kept.taskExpiry
      && (e.retained in s.kept.terminalExpiry <==> e.retained in w.store.kept.terminalExpiry)
  {
    var k, v := e.retained.key, Apply(w, LetGo(e));
    var t := Loosened(w.store, e, w.clock);
    assert Current(t, e.retained);
    assert !Held(t.holds, e.retained) by {
      assert forall f ::
        f in w.store.holds.retainedBy && f.retained == e.retained ==> f in HoldersOf(w.store.holds, e.retained);
    }
    assert IdentityOf(w.store, k) == e.retained;
  }

  // A task that is marked on success, held while its stay on the list ends, and let go of afterwards.
  function Relisted(h: Key, r: Key, o: Options, t0: Token, t1: Token, x: Value): seq<Action> {
    HeldTask(h, r, o) + [Take(h, t0, 1)] + [Take(r, t1, 1)] + [Succeed(r, t1, x)] + [ExpireTerminal(Identity(r, 1))]
      + [Succeed(h, t0, x)] + [LetGo(Edge(Identity(h, 1), Identity(r, 1)))]
  }

  // Both tasks run, and the first holds the second.
  predicate BothRun(w: World, h: Key, r: Key, o: Options, t0: Token, t1: Token) {
    && h in w.store.tasks && w.store.tasks[h].options == o && IdentityOf(w.store, h) == Identity(h, 1)
    && r in w.store.tasks && w.store.tasks[r].options == o && IdentityOf(w.store, r) == Identity(r, 1)
    && Owns(w.store, h, t0, w.clock) && Owns(w.store, r, t1, w.clock) && w.clock == 0
    && var e := Edge(Identity(h, 1), Identity(r, 1)); w.store.holds.retainedBy == {e} && w.store.holds.retains == {e}
  }

  // The head of the waiting list is leased; everybody behind it stays where it is.
  ghost predicate TakenAhead(w: World, v: World, k: Key, token: Token, rest: seq<Key>)
    requires k in w.store.tasks
  {
    && v.store.homes.wait == rest && v.store.holds == w.store.holds && v.clock == w.clock
      && v.log.tokens == w.log.tokens + {token}
    && k in v.store.tasks && v.store.tasks[k].options == w.store.tasks[k].options
      && v.store.tasks[k].generation == w.store.tasks[k].generation
    && v.store.locks == w.store.locks[k := Lock(token, w.clock + 1)]
    && forall j :: j in w.store.tasks && j != k ==> j in v.store.tasks && v.store.tasks[j] == w.store.tasks[j]
  }

  lemma HeadIsTaken(w: World, k: Key, token: Token, rest: seq<Key>)
    requires k in w.store.tasks && w.store.homes.wait == [k] + rest && k !in rest && k !in w.store.locks
    requires token !in w.log.tokens
    ensures Enabled(w, Take(k, token, 1)) && TakenAhead(w, Apply(w, Take(k, token, 1)), k, token, rest)
  {
    assert ([k] + rest)[1..] == rest;
    WithoutAbsent(rest, k);
  }

  lemma BothTaken(w: World, h: Key, r: Key, o: Options, t0: Token, t1: Token)
    requires h != r && t0 != t1 && o.delay == 0 && 0 < o.maxRelationships
    requires Legal(Initial(0), HeldTask(h, r, o)) && w == Run(Initial(0), HeldTask(h, r, o))
    ensures Enabled(w, Take(h, t0, 1)) && Enabled(Apply(w, Take(h, t0, 1)), Take(r, t1, 1))
    ensures BothRun(Apply(Apply(w, Take(h, t0, 1)), Take(r, t1, 1)), h, r, o, t0, t1)
  {
    hide Enabled, Apply, Legal;
    HeldTaskRuns(h, r, o);
    assert [h, r] == [h] + [r] && [r] == [r] + [];
    HeadIsTaken(w, h, t0, [r]);
    HeadIsTaken(Apply(w, Take(h, t0, 1)), r, t1, []);
  }

  // The holder runs on; the held task has settled, and its stay on the list has ended.
  predicate Expired(w: World, h: Key, r: Key, o: Options, t0: Token) {
    && h in w.store.tasks && Owns(w.store, h, t0, w.clock) && w.clock == 0 && IdentityOf(w.store, h) == Identity(h, 1)
    && r in w.store.tasks && IdentityOf(w.store, r) == Identity(r, 1)
    && w.store.tasks[r].outcome == Some(Success) && w.store.tasks[r].options == o && Identity(r, 1) in w.log.unlisted
    && var e := Edge(Identity(h, 1), Identity(r, 1)); w.store.holds.retainedBy == {e} && w.store.holds.retains == {e}
  }

  lemma StayEnded(w: World, h: Key, r: Key, o: Options, t0: Token, t1: Token, x: Value)
    requires h != r && o.onSuccess.MarkSuccess? && o.terminalRetention == 0 && BothRun(w, h, r, o, t0, t1)
    ensures Enabled(w, Succeed(r, t1, x)) && Enabled(Apply(w, Succeed(r, t1, x)), ExpireTerminal(Identity(r, 1)))
    ensures Expired(Apply(Apply(w, Succeed(r, t1, x)), ExpireTerminal(Identity(r, 1))), h, r, o, t0)
  {
    var v := Apply(w, Succeed(r, t1, x));
    SucceededElsewhere(w.store, r, x, w.clock, h);
    assert v.store.tasks[r].outcome == Some(Success) && v.store.tasks[r].options == o;
  }

  lemma HolderSettles(w: World, h: Key, r: Key, o: Options, t0: Token, x: Value)
    requires h != r && Expired(w, h, r, o, t0)
    ensures var e := Edge(Identity(h, 1), Identity(r, 1));
      && Enabled(w, Succeed(h, t0, x)) && Enabled(Apply(w, Succeed(h, t0, x)), LetGo(e))
      && var v := Apply(w, Succeed(h, t0, x));
        && e in v.store.holds.retainedBy && HoldersOf(v.store.holds, e.retained) == {e}
        && r in v.store.tasks && v.store.tasks[r] == w.store.tasks[r] && e.retained in v.log.unlisted
  {
    SucceededElsewhere(w.store, h, x, w.clock, r);
    SettledHoldings(WithTask(Unlocked(w.store, h), h, w.store.tasks[h].(success := Some(x), outcome := Some(Success))),
                    h, None, w.clock);
  }

  lemma RelistedWithoutExpiry(h: Key, r: Key, o: Options, t0: Token, t1: Token, x: Value)
    requires h != r && t0 != t1
    requires o.delay == 0 && 0 < o.maxRelationships && o.onSuccess.MarkSuccess? && o.terminalRetention == 0
    ensures Legal(Initial(0), Relisted(h, r, o, t0, t1, x))
    ensures var s := Run(Initial(0), Relisted(h, r, o, t0, t1, x)).store;
      Listed(s, r) && Current(s, Identity(r, 1)) && Identity(r, 1) !in s.kept.terminalExpiry
        && Identity(r, 1) in s.kept.taskExpiry
  {
    var w := Initial(0);
    InitialIsSound(0);
    HeldTaskRuns(h, r, o);
    var acts := HeldTask(h, r, o);
    BothTaken(Run(w, acts), h, r, o, t0, t1);
    RunExtend(w, acts, Take(h, t0, 1));
    acts := acts + [Take(h, t0, 1)];
    RunExtend(w, acts, Take(r, t1, 1));
    acts := acts + [Take(r, t1, 1)];
    StayEnded(Run(w, acts), h, r, o, t0, t1, x);
    RunExtend(w, acts, Succeed(r, t1, x));
    acts := acts + [Succeed(r, t1, x)];
    RunExtend(w, acts, ExpireTerminal(Identity(r, 1)));
    acts := acts + [ExpireTerminal(Identity(r, 1))];
    HolderSettles(Run(w, acts), h, r, o, t0, x);
    RunExtend(w, acts, Succeed(h, t0, x));
    acts := acts + [Succeed(h, t0, x)];
    RunIsSound(w, acts);
    var e := Edge(Identity(h, 1), Identity(r, 1));
    LastReleaseLists(Run(w, acts), e);
    RunExtend(w, acts, LetGo(e));
  }

  // ---- a replacement refused half-way -------------------------------------------------------

  // A delayed task that may hold nothing, and one that has run and kept its record.
  function Finished(h: Key, k: Key, oh: Options, o: Options, t: Token, x: Value): seq<Action> {
    [Create(h, oh, None)] + [Create(k, o, None)] + [Take(k, t, 1)] + [Succeed(k, t, x)]
  }

  // The one is delayed, the other waits alone.
  predicate BothOffered(w: World, h: Key, k: Key, oh: Options, o: Options) {
    && w.clock == 0 && w.log.tokens == {} && w.store.locks == map[] && w.store.holds == Holds({}, {}, map[])
    && w.store.homes.wait == [k]
    && w.store.tasks == map[h := NewTask(oh, 1, Scheduled), k := NewTask(o, 1, Wait)]
  }

  lemma BothAreOffered(h: Key, k: Key, oh: Options, o: Options)
    requires h != k && 0 < oh.delay && o.delay == 0
    ensures Legal(Initial(0), [Create(h, oh, None)] + [Create(k, o, None)])
    ensures BothOffered(Run(Initial(0), [Create(h, oh, None)] + [Create(k, o, None)]), h, k, oh, o)
  {
    var w0, a, b := Initial(0), Create(h, oh, None), Create(k, o, None);
    RunOne(w0, a);
    RunOne(Apply(w0, a), b);
    RunAppend(w0, [a], [b]);
    assert Without([], k) == [];
  }

  lemma TakenAndDone(w: World, h: Key, k: Key, oh: Options, o: Options, t: Token, x: Value)
    requires h != k && oh.maxRelationships == 0 && o.onSuccess.Keep? && BothOffered(w, h, k, oh, o)
    ensures Enabled(w, Take(k, t, 1)) && Enabled(Apply(w, Take(k, t, 1)), Succeed(k, t, x))
    ensures RefusedAtLimit(Apply(Apply(w, Take(k, t, 1)), Succeed(k, t, x)), Identity(h, 1), k)
  {
    var u := Apply(w, Take(k, t, 1));
    TakenFirst(w, h, k, oh, o, t);
    SucceededElsewhere(u.store, k, x, u.clock, h);
    DoneAndKept(u, k, x);
    assert HeldBy(w.store.holds, Identity(h, 1)) == {};
  }

  lemma TakenFirst(w: World, h: Key, k: Key, oh: Options, o: Options, t: Token)
    requires h != k && BothOffered(w, h, k, oh, o)
    ensures Enabled(w, Take(k, t, 1))
    ensures var u := Apply(w, Take(k, t, 1));
      && Owns(u.store, k, t, u.clock) && k in u.store.tasks && u.store.tasks[k].options == o
        && u.store.holds == w.store.holds
      && h in u.store.tasks && u.store.tasks[h] == w.store.tasks[h]
  {
    hide Enabled, Apply;
    assert [k] == [k] + [];
    HeadIsTaken(w, k, t, []);
  }

  lemma DoneAndKept(w: World, k: Key, x: Value)
    requires k in w.store.tasks && w.store.tasks[k].options.onSuccess.Keep? && w.store.holds == Holds({}, {}, map[])
    ensures var s := SucceededStore(w.store, k, x, w.clock); k in s.tasks && s.tasks[k].outcome == Some(Success)
    ensures var s := SucceededStore(w.store, k, x, w.clock); s.holds.retainedBy == {} && s.holds.retains == {}
  {
  }

  // A live holder that is full offers a new generation of a settled task: the old one may go, the new one may not come.
  ghost predicate RefusedAtLimit(w: World, holder: Identity, k: Key) {
    && k in w.store.tasks && Live(w.store, Some(holder)) && Full(w.store, holder)
    && Creates(w.store, k, false, NewGeneration) && Enabled(w, Replace(k))
  }

  // Such an offer finds no record to return to: the old generation is gone and no options make the new one possible.
  lemma RefusedReplacementDropsRecord(w: World, holder: Identity, k: Key, options: Options)
    requires RefusedAtLimit(w, holder, k)
    ensures var v := Apply(w, Replace(k)); k !in v.store.tasks && !Enabled(v, Create(k, options, Some(holder)))
  {
    ReplacedIsStillHeldOff(w, k, holder);
  }

  lemma OffersAreRefusedAtLimit(h: Key, k: Key, oh: Options, o: Options, t: Token, x: Value)
    requires h != k && 0 < oh.delay && oh.maxRelationships == 0 && o.delay == 0 && o.onSuccess.Keep?
    ensures Legal(Initial(0), Finished(h, k, oh, o, t, x))
    ensures RefusedAtLimit(Run(Initial(0), Finished(h, k, oh, o, t, x)), Identity(h, 1), k)
  {
    hide RefusedAtLimit, BothOffered;
    var w := Initial(0);
    InitialInv(0);
    BothAreOffered(h, k, oh, o);
    var acts := [Create(h, oh, None)] + [Create(k, o, None)];
    TakenAndDone(Run(w, acts), h, k, oh, o, t, x);
    RunExtend(w, acts, Take(k, t, 1));
    acts := acts + [Take(k, t, 1)];
    RunExtend(w, acts, Succeed(k, t, x));
  }

  // ---- how many holds there may be --------------------------------------------------------------

  // Nobody holds, nor is held by, more than the limit it was offered with.
  ghost predicate WithinLimit(s: Store, i: Identity) {
    Current(s, i) ==>
      && |set e | e in s.holds.retains && e.holder == i| <= s.tasks[i.key].options.maxRelationships
      && |set e | e in s.holds.retainedBy && e.retained == i| <= s.tasks[i.key].options.maxRelationships
  }

  ghost predicate HoldsNoMore(s: Store, t: Store) {
    t.holds.retains <= s.holds.retains && t.holds.retainedBy <= s.holds.retainedBy
  }

  lemma SettledHoldsNoMore(s: Store, t: Store, k: Key, r: Result, now: Time)
    requires k in s.tasks && SettledAs(s, t, k, r, now)
    ensures HoldsNoMore(s, t)
  {
    hide OnlyOn, OthersStay, DisposedAs;
  }

  lemma RetriedHoldsNoMore(s: Store, t: Store, k: Key, stall: bool, at: Time, now: Time)
    requires k in s.tasks && RetriedAs(s, t, k, stall, at, now)
    ensures HoldsNoMore(s, t)
  {
    hide OnlyOn, OthersStay;
  }

  lemma AttemptHoldsNoMore(w: World, a: Action)
    requires Enabled(w, a) && (a.Fail? || a.Stall? || a.Succeed?)
    ensures HoldsNoMore(w.store, Apply(w, a).store)
  {
    hide Apply, SettledAs, RetriedAs, HoldsNoMore;
    var s, t := w.store, Apply(w, a).store;
    match a
    case Fail(k, token, error, retryAt) =>
      FailedExactly(w, k, token, error, retryAt);
      if retryAt.Some? && !error.Canceled? {
        RetriedHoldsNoMore(s, t, k, false, retryAt.value, w.clock);
      } else {
        SettledHoldsNoMore(s, t, k, Result(Failure, w.clock, None, Some(error)), w.clock);
      }
    case Stall(k) =>
      StalledExactly(w, k);
      if s.tasks[k].stalled < s.tasks[k].options.maxStalled {
        RetriedHoldsNoMore(s, t, k, true, w.clock, w.clock);
      } else {
        SettledHoldsNoMore(s, t, k, Result(Failure, w.clock, None, Some(Stalled)), w.clock);
      }
    case Succeed(k, token, value) =>
      SucceededExactly(w, k, token, value);
      SettledHoldsNoMore(s, t, k, Result(Success, w.clock, Some(value), None), w.clock);
  }

  lemma OthersHoldNoMore(w: World, a: Action)
    requires Enabled(w, a) && !a.Create? && !a.Hold?
    ensures HoldsNoMore(w.store, Apply(w, a).store)
  {
    hide OnlyOn, OthersStay, Placed, Unplaced, FailedStore, SucceededStore, HoldReleased, DisposedAs, Held, MayHold;
    if a.Fail? || a.Stall? || a.Succeed? {
      AttemptHoldsNoMore(w, a);
    } else if a.LetGo? {
      LetGoExactly(w, a.edge);
    }
  }

  lemma FewerAreWithin(s: Store, t: Store, i: Identity)
    requires WithinLimit(s, i) && Current(s, i) && Current(t, i)
    requires t.tasks[i.key].options == s.tasks[i.key].options
    requires HoldsNoMore(s, t)
    ensures WithinLimit(t, i)
  {
    Fewer(set e | e in t.holds.retains && e.holder == i, set e | e in s.holds.retains && e.holder == i);
    Fewer(set e | e in t.holds.retainedBy && e.retained == i, set e | e in s.holds.retainedBy && e.retained == i);
  }

  lemma {:induction false} Fewer(xs: set<Edge>, ys: set<Edge>)
    requires xs <= ys
    ensures |xs| <= |ys|
    decreases |xs|
  {
    if xs != {} {
      var x :| x in xs;
      Fewer(xs - {x}, ys - {x});
    }
  }

  // One more hold, for which both ends had room.
  lemma OneMoreIsWithin(s: Store, t: Store, e: Edge, limit: nat, i: Identity)
    requires WithinLimit(s, i) && Current(s, i) && Current(t, i) && MayHold(s, e, limit)
    requires t.tasks[i.key].options == s.tasks[i.key].options
    requires e.retained == i ==> limit <= s.tasks[i.key].options.maxRelationships
    requires t.holds.retains == s.holds.retains + {e} && t.holds.retainedBy == s.holds.retainedBy + {e}
    ensures WithinLimit(t, i)
  {
    hide MayHold;
    RoomForBoth(s, e, limit);
    OneMoreOwned(s.holds.retains, t.holds.retains, e, i);
    OneMoreInbound(s.holds.retainedBy, t.holds.retainedBy, e, i);
  }

  lemma RoomForBoth(s: Store, e: Edge, limit: nat)
    requires MayHold(s, e, limit)
    ensures Current(s, e.holder)
    ensures |set d | d in s.holds.retains && d.holder == e.holder| < s.tasks[e.holder.key].options.maxRelationships
    ensures |set d | d in s.holds.retainedBy && d.retained == e.retained| < limit
  {
    assert HeldBy(s.holds, e.holder) == set d | d in s.holds.retains && d.holder == e.holder;
    assert HoldersOf(s.holds, e.retained) == set d | d in s.holds.retainedBy && d.retained == e.retained;
  }

  lemma OneMoreOwned(before: set<Edge>, after: set<Edge>, e: Edge, i: Identity)
    requires after == before + {e}
    ensures |set d | d in after && d.holder == i|
      <= |set d | d in before && d.holder == i| + if e.holder == i then 1 else 0
  {
    var owned := set d | d in before && d.holder == i;
    assert (set d | d in after && d.holder == i) == if e.holder == i then owned + {e} else owned;
  }

  lemma OneMoreInbound(before: set<Edge>, after: set<Edge>, e: Edge, i: Identity)
    requires after == before + {e}
    ensures |set d | d in after && d.retained == i|
      <= |set d | d in before && d.retained == i| + if e.retained == i then 1 else 0
  {
    var inbound := set d | d in before && d.retained == i;
    assert (set d | d in after && d.retained == i) == if e.retained == i then inbound + {e} else inbound;
  }

  // A new record holds nothing, and is held at most by whoever created it.
  lemma CreatedIsWithin(w: World, k: Key, options: Options, holder: Option<Identity>)
    requires Inv(w) && Enabled(w, Create(k, options, holder))
    ensures var t := Apply(w, Create(k, options, holder)).store; k in t.tasks && WithinLimit(t, IdentityOf(t, k))
  {
    var t := Apply(w, Create(k, options, holder)).store;
    var i := Identity(k, NextGeneration(w.store, k));
    assert !Known(w.store.generations, i);
    assert (set e | e in t.holds.retains && e.holder == i) == {};
    var inbound := set e | e in t.holds.retainedBy && e.retained == i;
    assert inbound == if holder.Some? then {Edge(holder.value, i)} else {};
  }

  lemma StepIsWithin(w: World, a: Action, i: Identity)
    requires Inv(w) && Enabled(w, a) && WithinLimit(w.store, i) && Current(w.store, i)
    ensures WithinLimit(Apply(w, a).store, i)
  {
    hide Inv, WithinLimit, MayHold, Placed;
    if !Current(Apply(w, a).store, i) {
      GoneIsWithin(Apply(w, a).store, i);
    } else {
      OptionsStay(w, a, i);
      match a
      case Create(k, options, holder) =>
        if holder.Some? {
          var e := Edge(holder.value, Identity(k, NextGeneration(w.store, k)));
          OneMoreIsWithin(w.store, Apply(w, a).store, e, options.maxRelationships, i);
        } else {
          FewerAreWithin(w.store, Apply(w, a).store, i);
        }
      case Hold(e) => OneMoreIsWithin(w.store, Apply(w, a).store, e, MaxRelationships(w.store, e.retained), i);
      case _ =>
        OthersHoldNoMore(w, a);
        FewerAreWithin(w.store, Apply(w, a).store, i);
    }
  }

  lemma GoneIsWithin(s: Store, i: Identity)
    requires !Current(s, i)
    ensures WithinLimit(s, i)
  {
  }

  // From an empty server on, however holds were taken, given up and left behind.
  lemma {:induction false} LimitsAreKept(w: World, acts: seq<Action>, i: Identity)
    requires Inv(w) && Legal(w, acts) && WithinLimit(w.store, i)
    ensures WithinLimit(Run(w, acts).store, i)
    decreases |acts|
  {
    hide Inv, Enabled, Apply, WithinLimit, Current;
    if acts != [] {
      var a, v := acts[0], Apply(w, acts[0]);
      StepKeepsInv(w, a);
      if Current(w.store, i) {
        StepIsWithin(w, a, i);
      } else if !Current(v.store, i) {
        GoneIsWithin(v.store, i);
      } else {
        OnlyCreationAdds(w, a, i);
        CreatedIsCurrent(w, a, i);
        CreatedIsWithin(w, a.key, a.options, a.holder);
      }
      LimitsAreKept(v, acts[1..], i);
    }
  }

  lemma CreatedIsCurrent(w: World, a: Action, i: Identity)
    requires Enabled(w, a) && a.Create? && a.key == i.key && Current(Apply(w, a).store, i)
    ensures IdentityOf(Apply(w, a).store, i.key) == i
  {
  }
}
