/** The small reference model of a task queue: what each accepted operation does to a task, and when it is refused. */
module TaskStateModel {
  import opened Basics
  import opened TaskModel

  datatype ExecutionState = Delayed | Waiting | Leased | RetryScheduled | Done | Broken

  datatype ModelTask = ModelTask(
    id: Key,
    generation: nat,
    state: ExecutionState,
    leaseToken: Option<Token>,
    handlerFailures: nat,
    stalled: nat,
    retainedBy: set<Identity>)

  type Model = map<Key, ModelTask>

  datatype ModelError = TaskNotFound | TaskAlreadyExists | TaskNotRunnable | LeaseLost | TaskNotSettled | TaskRetained
  datatype ModelResult<+A> = Ok(value: A) | Err(error: ModelError)

  datatype Step =
    | Offer(id: Key, generation: nat, delayed: bool)
    | Acquire(id: Key, token: Token)
    | Renew(id: Key, token: Token)
    | Fail(id: Key, token: Token, retry: bool)
    | Succeed(id: Key, token: Token)
    | Expire(id: Key, maxStalled: nat)
    | Retain(id: Key, holder: Identity)
    | Release(id: Key, holder: Identity)
    | Remove(id: Key)
    // Steps of the engine the reference model leaves out: a delay runs out, a worker gives its attempt back,
    // an operator withdraws a task that has not settled or is held.
    | Promote(id: Key)
    | GiveBack(id: Key, token: Token)
    | Withdraw(id: Key)

  predicate IsAdded(step: Step) {
    step.Promote? || step.GiveBack? || step.Withdraw?
  }

  function CurrentLease(m: Model, id: Key, token: Token): ModelResult<ModelTask> {
    if id !in m then Err(TaskNotFound)
    else if m[id].state.Leased? && m[id].leaseToken == Some(token) then Ok(m[id])
    else Err(LeaseLost)
  }

  function OnLease(m: Model, id: Key, token: Token, change: ModelTask -> ModelTask): ModelResult<Model> {
    var found := CurrentLease(m, id, token);
    if found.Err? then Err(found.error) else Ok(m[id := change(found.value)])
  }

  function Perform(m: Model, step: Step): ModelResult<Model> {
    match step
    case Offer(id, generation, delayed) =>
      if id in m then Err(TaskAlreadyExists)
      else Ok(m[id := ModelTask(id, generation, if delayed then Delayed else Waiting, None, 0, 0, {})])
    case Acquire(id, token) =>
      if id !in m then Err(TaskNotFound)
      else if !m[id].state.Waiting? && !m[id].state.RetryScheduled? then Err(TaskNotRunnable)
      else Ok(m[id := m[id].(state := Leased, leaseToken := Some(token))])
    case Renew(id, token) => OnLease(m, id, token, (t: ModelTask) => t)
    case Fail(id, token, retry) =>
      var state := if retry then RetryScheduled else Broken;
      OnLease(m, id, token,
              (t: ModelTask) => t.(state := state, leaseToken := None, handlerFailures := t.handlerFailures + 1))
    case Succeed(id, token) => OnLease(m, id, token, (t: ModelTask) => t.(state := Done, leaseToken := None))
    case Expire(id, maxStalled) =>
      if id !in m then Err(TaskNotFound)
      else if !m[id].state.Leased? then Err(TaskNotRunnable)
      else
        var stalled := m[id].stalled + 1;
        var state := if stalled > maxStalled then Broken else Waiting;
        Ok(m[id := m[id].(state := state, leaseToken := None, stalled := stalled)])
    case Retain(id, holder) =>
      if id !in m then Err(TaskNotFound) else Ok(m[id := m[id].(retainedBy := m[id].retainedBy + {holder})])
    case Release(id, holder) =>
      if id !in m then Err(TaskNotFound) else Ok(m[id := m[id].(retainedBy := m[id].retainedBy - {holder})])
    case Remove(id) =>
      if id !in m then Err(TaskNotFound)
      else if !m[id].state.Done? && !m[id].state.Broken? then Err(TaskNotSettled)
      else if m[id].retainedBy != {} then Err(TaskRetained)
      else Ok(m - {id})
    case Promote(id) =>
      if id !in m then Err(TaskNotFound)
      else if !m[id].state.Delayed? then Err(TaskNotRunnable)
      else Ok(m[id := m[id].(state := Waiting)])
    case GiveBack(id, token) => OnLease(m, id, token, (t: ModelTask) => t.(state := Waiting, leaseToken := None))
    case Withdraw(id) => if id !in m then Err(TaskNotFound) else Ok(m - {id})
  }

  // No operation the reference model has does what an added step does, unless it could have removed the task.
  lemma AddedIsNeeded(m: Model, added: Step, other: Step)
    requires IsAdded(added) && !IsAdded(other) && Perform(m, added).Ok?
    requires added.Withdraw? ==> Perform(m, Remove(added.id)).Err?
    ensures Perform(m, other) != Perform(m, added)
  {
    var id := added.id;
    if Perform(m, other).Ok? {
      var n, v := Perform(m, other).value, Perform(m, added).value;
      assert id in n && (other.Offer? || other.id != id ==> n[id] == m[id]);
      assert added.Withdraw? <==> id !in v;
    }
  }

  function PerformAll(m: Model, steps: seq<Step>): ModelResult<Model>
    decreases |steps|
  {
    if steps == [] then Ok(m)
    else
      var r := Perform(m, steps[0]);
      if r.Err? then r else PerformAll(r.value, steps[1..])
  }

  lemma {:induction false} PerformAppend(m: Model, xs: seq<Step>, ys: seq<Step>)
    requires PerformAll(m, xs).Ok?
    ensures PerformAll(m, xs + ys) == PerformAll(PerformAll(m, xs).value, ys)
    decreases |xs|
  {
    if xs == [] {
      assert xs + ys == ys;
    } else {
      PerformAppend(Perform(m, xs[0]).value, xs[1..], ys);
      assert (xs + ys)[0] == xs[0] && (xs + ys)[1..] == xs[1..] + ys;
    }
  }

  // A task is filed under its own identifier, has a generation, and has a token exactly while it is leased.
  ghost predicate WellFormed(m: Model) {
    forall id ::
      id in m ==> m[id].id == id && 1 <= m[id].generation && (m[id].state.Leased? <==> m[id].leaseToken.Some?)
  }

  lemma {:induction false} StepsKeepWellFormed(m: Model, steps: seq<Step>)
    requires WellFormed(m) && PerformAll(m, steps).Ok?
    requires forall s :: s in steps && s.Offer? ==> 1 <= s.generation
    ensures WellFormed(PerformAll(m, steps).value)
    decreases |steps|
  {
    if steps != [] {
      assert steps[0] in steps && forall s :: s in steps[1..] ==> s in steps;
      StepsKeepWellFormed(Perform(m, steps[0]).value, steps[1..]);
    }
  }
}
