/**
  The task runner of go/platform/async/async.go. Any number of submissions are at work at once, each with its own
  place in Submit and then in execute; every access under the mutex, every channel operation, every look at the
  context and every call of a task function is one step. One access can fail to give the mutex back, that in which
  execute asks an error for its text. Prune is also given as the loop it is.
*/
module AsyncRunner {
  import opened Options

  datatype Status = Pending | Running | Done | Failed

  datatype Failure = ClosedBeforeStart | FromFunction(text: nat) | Panicked(value: nat)

  datatype Result = Result(data: Option<nat>, error: Option<Failure>)

  datatype Task = Task(status: Status, completed: int, result: Result)

  /** How a task function comes back. An error has no text when its Error method panics or never returns. */
  datatype Outcome = Value(data: nat) | Error(data: nat, text: Option<nat>) | Panic(value: nat)

  /** The outcome can be recorded: it is no error, or an error that can tell its text. */
  predicate Speaks(outcome: Outcome) {
    outcome.Error? ==> outcome.text.Some?
  }

  const NEW_TASK := Task(Pending, 0, Result(None, None))

  predicate Terminal(status: Status) {
    status != Pending && status != Running
  }

  function FailTask(t: Task, now: int, why: Failure): Task {
    t.(status := Failed, completed := now, result := Result(None, Some(why)))
  }

  /** The end of execute: the function's result, or what recover caught, or as far as it got. */
  function Finished(t: Task, now: int, outcome: Outcome): Task {
    match outcome
    case Value(data) => t.(status := Done, completed := now, result := Result(Some(data), None))
    case Error(data, Some(text)) =>
      t.(status := Failed, completed := now, result := Result(Some(data), Some(FromFunction(text))))
    case Error(_, None) => t.(status := Failed, completed := now)
    case Panic(value) => FailTask(t, now, Panicked(value))
  }

  // --------------------------------------------------------------------- prune

  predicate Prunable(t: Task, cutoff: int) {
    t.status != Pending && t.status != Running && t.completed < cutoff
  }

  function Kept(tasks: map<nat, Task>, cutoff: int): map<nat, Task> {
    map id | id in tasks && !Prunable(tasks[id], cutoff) :: tasks[id]
  }

  class TaskTable {
    var tasks: map<nat, Task>

    /** Deletes while ranging over the keys, in whatever order they come. */
    method Prune(cutoff: int) returns (removed: nat)
      modifies this
      ensures tasks == Kept(old(tasks), cutoff)
      ensures forall id :: id in old(tasks) ==>
        var t := old(tasks)[id];
        id in tasks <==> t.status == Pending || t.status == Running || cutoff <= t.completed
      ensures forall id :: id in tasks ==> id in old(tasks) && tasks[id] == old(tasks)[id]
      ensures removed == |old(tasks)| - |tasks|
    {
      removed := 0;
      var left := tasks.Keys;
      while left != {}
        invariant left <= tasks.Keys <= old(tasks).Keys
        invariant forall id :: id in tasks ==> tasks[id] == old(tasks)[id]
        invariant forall id :: id in old(tasks) && id !in left ==>
          (id in tasks <==> !Prunable(old(tasks)[id], cutoff))
        invariant removed == |old(tasks)| - |tasks|
      {
        var id :| id in left;
        if tasks[id].status != Pending && tasks[id].status != Running && tasks[id].completed < cutoff {
          assert tasks.Keys == (tasks - {id}).Keys + {id};
          tasks := tasks - {id};
          removed := removed + 1;
        }
        left := left - {id};
      }
    }
  }

  // ------------------------------------------------------------------- machine

  /**
    Where a submission is: in Submit up to Refused or Spawned, and from there in the goroutine that runs execute.
    Blocked is a select that found nothing ready. Stuck is the recover closure waiting for the mutex its own
    goroutine holds.
  */
  datatype Place =
    | Registered
    | Selecting
    | Blocked
    | Rejected
    | Refused
    | Spawned
    | InFunction
    | Returning(outcome: Outcome)
    | Stuck
    | Recorded
    | Over

  /**
    A submission: its place, its record, and whether the record is still in the runner's table. The rest is history:
    whether the runner was already closed when it began, how often its function has been called, what the function
    came back with, and the clock when that was recorded.
  */
  datatype Job = Job(place: Place, task: Task, listed: bool, late: bool, calls: nat, returned: Option<Outcome>,
                     stamped: int)

  /**
    `slots` is the number of tokens in the semaphore channel, which exists when `limit` is positive. `mutex` is the
    submission that holds the mutex between steps; a step that takes it and gives it back does not show.
  */
  datatype State = State(limit: int, closed: bool, slots: nat, jobs: map<nat, Job>, mutex: Option<nat>)

  datatype Move =
    | CheckContext
    | TakeSlot
    | SeeClosed
    | Block
    | Refuse(now: int)
    | Begin
    | Return(outcome: Outcome)
    | Record(now: int)
    | Release

  /** Pass is a Release that finds a blocked submission: the channel hands it the slot there and then. */
  datatype Action =
    | Submit(id: nat)
    | Go(id: nat, move: Move)
    | Pass(id: nat, heir: nat)
    | Prune(cutoff: int)
    | Close

  predicate NoneBlocked(s: State) {
    forall id :: id in s.jobs ==> s.jobs[id].place != Blocked
  }

  predicate NeedsMutex(m: Move) {
    m.Refuse? || m.Begin? || m.Record?
  }

  predicate InPlace(s: State, j: Job, m: Move) {
    match m
    case CheckContext => j.place == Registered
    case TakeSlot => j.place == Selecting && s.slots < s.limit
    case SeeClosed => j.place == Selecting && s.closed
    case Block => j.place == Selecting && s.slots >= s.limit && !s.closed
    case Refuse(_) => j.place == Rejected
    case Begin => j.place == Spawned
    case Return(_) => j.place == InFunction
    case Record(_) => j.place.Returning?
    case Release => j.place == Recorded && (s.limit > 0 ==> NoneBlocked(s))
  }

  predicate Enabled(s: State, j: Job, m: Move) {
    InPlace(s, j, m) && (NeedsMutex(m) ==> s.mutex == None)
  }

  function Moved(s: State, j: Job, m: Move): Job
    requires InPlace(s, j, m)
  {
    match m
    case CheckContext => j.(place := if s.closed then Rejected else if s.limit > 0 then Selecting else Spawned)
    case TakeSlot => j.(place := Spawned)
    case SeeClosed => j.(place := Rejected)
    case Block => j.(place := Blocked)
    case Refuse(now) => j.(place := Refused, task := FailTask(j.task, now, ClosedBeforeStart), stamped := now)
    case Begin => j.(place := InFunction, task := j.task.(status := Running), calls := j.calls + 1)
    case Return(outcome) => j.(place := Returning(outcome), returned := Some(outcome))
    case Record(now) =>
      j.(place := if Speaks(j.place.outcome) then Recorded else Stuck,
         task := Finished(j.task, now, j.place.outcome), stamped := now)
    case Release => j.(place := Over)
  }

  function SlotsAfter(s: State, m: Move): nat {
    if m.TakeSlot? then s.slots + 1 else if m.Release? && s.limit > 0 && s.slots > 0 then s.slots - 1 else s.slots
  }

  /** The mutex stays taken when an error will not tell its text: the panic leaves the section without unlocking. */
  function MutexAfter(s: State, id: nat, j: Job): Option<nat> {
    if j.place == Stuck then Some(id) else s.mutex
  }

  predicate CanPass(s: State, id: nat, heir: nat) {
    && s.limit > 0
    && id in s.jobs && s.jobs[id].place == Recorded
    && heir in s.jobs && s.jobs[heir].place == Blocked
  }

  function Step(s: State, a: Action): State {
    match a
    case Submit(id) =>
      if id in s.jobs || s.mutex.Some? then s
      else s.(jobs := s.jobs[id := Job(Registered, NEW_TASK, true, s.closed, 0, None, 0)])
    case Go(id, m) =>
      if id !in s.jobs || !Enabled(s, s.jobs[id], m) then s
      else
        var j := Moved(s, s.jobs[id], m);
        s.(jobs := s.jobs[id := j], slots := SlotsAfter(s, m), mutex := MutexAfter(s, id, j))
    case Pass(id, heir) =>
      if !CanPass(s, id, heir) then s
      else s.(jobs := s.jobs[id := s.jobs[id].(place := Over)][heir := s.jobs[heir].(place := Spawned)])
    case Prune(cutoff) =>
      if s.mutex.Some? then s else s.(jobs := map id | id in s.jobs :: Unlisted(s.jobs[id], cutoff))
    case Close => s.(closed := true, jobs := map id | id in s.jobs :: Woken(s.jobs[id]))
  }

  function Unlisted(j: Job, cutoff: int): Job {
    j.(listed := j.listed && !Prunable(j.task, cutoff))
  }

  /** The end of the context wakes every select that waits for it. */
  function Woken(j: Job): Job {
    if j.place == Blocked then j.(place := Rejected) else j
  }

  function Init(limit: int): State {
    State(limit, false, 0, map[], None)
  }

  function After(s: State, acts: seq<Action>): State {
    if acts == [] then s else Step(After(s, acts[..|acts| - 1]), acts[|acts| - 1])
  }

  /** The table of the runner in a state. */
  function Table(s: State): map<nat, Task> {
    map id | id in s.jobs && s.jobs[id].listed :: s.jobs[id].task
  }

  /** What a Get comes back with, if it does. */
  datatype Answer = Blocks | NoTask | Snapshot(task: Task)

  function Get(s: State, id: nat): Answer {
    if s.mutex.Some? then Blocks else if id in Table(s) then Snapshot(Table(s)[id]) else NoTask
  }

  // ----------------------------------------------------------------- invariant

  predicate HoldsSlot(place: Place) {
    place.Spawned? || place.InFunction? || place.Returning? || place.Stuck? || place.Recorded?
  }

  predicate HasRun(place: Place) {
    place.InFunction? || place.Returning? || place.Stuck? || place.Recorded? || place.Over?
  }

  /** A record as execute leaves it: done without an error, or failed with one that is not the runner's own. */
  predicate Settled(t: Task) {
    if t.status == Done then t.result.data.Some? && t.result.error == None
    else t.status == Failed && t.result.error.Some? && t.result.error.value != ClosedBeforeStart
  }

  /** What the record of a task looks like at each place. */
  predicate RecordAt(place: Place, t: Task) {
    match place
    case Refused => t.status == Failed && t.result == Result(None, Some(ClosedBeforeStart))
    case InFunction => t == NEW_TASK.(status := Running)
    case Returning(_) => t == NEW_TASK.(status := Running)
    case Stuck => t.status == Failed && t.result == NEW_TASK.result
    case Recorded => Settled(t)
    case Over => Settled(t)
    case _ => t == NEW_TASK
  }

  predicate JobSound(s: State, id: nat, j: Job) {
    && RecordAt(j.place, j.task)
    && j.calls == (if HasRun(j.place) then 1 else 0)
    && (!Terminal(j.task.status) ==> j.listed)
    && (j.late ==> s.closed && (j.place == Registered || j.place == Rejected || j.place == Refused))
    && (j.place == Rejected || j.place == Refused ==> s.closed)
    && (j.place == Selecting || j.place == Blocked ==> s.limit > 0)
    && (j.place == Blocked ==> s.slots == s.limit && !s.closed)
    && (j.place == Stuck <==> s.mutex == Some(id))
  }

  function Holders(s: State): set<nat> {
    set id | id in s.jobs && HoldsSlot(s.jobs[id].place)
  }

  ghost predicate SlotsSound(s: State) {
    s.limit > 0 ==> |Holders(s)| == s.slots <= s.limit
  }

  ghost predicate Sound(s: State) {
    && SlotsSound(s)
    && (forall id :: id in s.jobs ==> JobSound(s, id, s.jobs[id]))
    && (s.mutex.Some? ==> s.mutex.value in s.jobs)
  }
  lemma MovedSound(s: State, id: nat, m: Move)
    requires Sound(s) && id in s.jobs && Enabled(s, s.jobs[id], m)
    ensures JobSound(Step(s, Go(id, m)), id, Moved(s, s.jobs[id], m))
  {
    assert JobSound(s, id, s.jobs[id]);
  }

  /** A step of one submission leaves what the others rely on. */
  lemma OthersSound(s: State, id: nat, m: Move, k: nat)
    requires Sound(s) && id in s.jobs && Enabled(s, s.jobs[id], m) && k in s.jobs && k != id
    ensures JobSound(Step(s, Go(id, m)), k, s.jobs[k])
  {
    assert JobSound(s, k, s.jobs[k]) && JobSound(s, id, s.jobs[id]);
  }

  /** Which moves take a slot and which give one back. */
  lemma MovedHolds(s: State, j: Job, m: Move)
    requires Enabled(s, j, m) && s.limit > 0
    ensures HoldsSlot(Moved(s, j, m).place) == (m.TakeSlot? || (HoldsSlot(j.place) && !m.Release?))
    ensures m.TakeSlot? ==> !HoldsSlot(j.place) && s.slots < s.limit
    ensures m.Release? ==> HoldsSlot(j.place)
  {}

  lemma HoldersAfter(s: State, id: nat, j: Job)
    ensures Holders(s.(jobs := s.jobs[id := j])) == if HoldsSlot(j.place) then Holders(s) + {id} else Holders(s) - {id}
  {}

  lemma GoSlots(s: State, id: nat, m: Move)
    requires SlotsSound(s) && s.limit > 0 && id in s.jobs && Enabled(s, s.jobs[id], m)
    ensures SlotsSound(Step(s, Go(id, m)))
  {
    var j := Moved(s, s.jobs[id], m);
    MovedHolds(s, s.jobs[id], m);
    hide Enabled, Moved, HoldsSlot;
    assert HoldsSlot(s.jobs[id].place) <==> id in Holders(s);
    HoldersAfter(s, id, j);
    assert Holders(Step(s, Go(id, m))) == Holders(s.(jobs := s.jobs[id := j]));
  }

  /** A slot handed over is one holder for another. */
  lemma PassSlots(s: State, id: nat, heir: nat)
    requires SlotsSound(s) && CanPass(s, id, heir)
    ensures SlotsSound(Step(s, Pass(id, heir)))
  {
    assert Holders(Step(s, Pass(id, heir))) == Holders(s) - {id} + {heir};
  }

  lemma StepSlots(s: State, a: Action)
    requires SlotsSound(s)
    ensures SlotsSound(Step(s, a))
  {
    match a
    case Go(id, m) =>
      if s.limit > 0 && id in s.jobs && Enabled(s, s.jobs[id], m) {
        GoSlots(s, id, m);
      }
    case Pass(id, heir) =>
      if CanPass(s, id, heir) {
        PassSlots(s, id, heir);
      }
    case _ => assert Holders(Step(s, a)) == Holders(s);
  }

  lemma PassSound(s: State, id: nat, heir: nat, k: nat)
    requires Sound(s) && CanPass(s, id, heir) && k in s.jobs
    ensures k in Step(s, Pass(id, heir)).jobs
    ensures JobSound(Step(s, Pass(id, heir)), k, Step(s, Pass(id, heir)).jobs[k])
  {
    assert JobSound(s, k, s.jobs[k]);
  }

  /** The actions of nobody in particular. */
  lemma CommonSound(s: State, a: Action, k: nat)
    requires Sound(s) && !a.Go? && !a.Pass? && k in Step(s, a).jobs
    ensures JobSound(Step(s, a), k, Step(s, a).jobs[k])
  {
    if k in s.jobs {
      assert JobSound(s, k, s.jobs[k]);
    }
  }

  lemma StepJobs(s: State, a: Action, k: nat)
    requires Sound(s) && k in Step(s, a).jobs
    ensures JobSound(Step(s, a), k, Step(s, a).jobs[k])
  {
    match a
    case Go(id, m) =>
      if id in s.jobs && Enabled(s, s.jobs[id], m) {
        if k == id {
          MovedSound(s, id, m);
        } else {
          OthersSound(s, id, m, k);
        }
      }
    case Pass(id, heir) =>
      if CanPass(s, id, heir) {
        PassSound(s, id, heir, k);
      }
    case _ => CommonSound(s, a, k);
  }

  lemma StepSound(s: State, a: Action)
    requires Sound(s)
    ensures Sound(Step(s, a))
  {
    StepSlots(s, a);
    forall k | k in Step(s, a).jobs
      ensures JobSound(Step(s, a), k, Step(s, a).jobs[k])
    {
      StepJobs(s, a, k);
    }
  }

  lemma {:induction false} RunSound(s: State, acts: seq<Action>)
    requires Sound(s)
    ensures Sound(After(s, acts)) && After(s, acts).limit == s.limit
  {
    hide Sound;
    if acts != [] {
      RunSound(s, acts[..|acts| - 1]);
      StepSound(After(s, acts[..|acts| - 1]), acts[|acts| - 1]);
    }
  }

  lemma EveryRunSound(limit: int, acts: seq<Action>)
    ensures Sound(After(Init(limit), acts)) && After(Init(limit), acts).limit == limit
  {
    assert Holders(Init(limit)) == {};
    RunSound(Init(limit), acts);
  }

  // ------------------------------------------------------------------ theorems

  function InStatus(s: State, status: Status): set<nat> {
    set id | id in s.jobs && s.jobs[id].task.status == status
  }

  /** With a positive limit, never more tasks run than it allows, and the slots taken are those not yet given back. */
  lemma RunningWithinLimit(limit: int, acts: seq<Action>)
    requires limit > 0
    ensures
      var s := After(Init(limit), acts);
      |InStatus(s, Running)| <= |Holders(s)| == s.slots <= limit
  {
    var s := After(Init(limit), acts);
    EveryRunSound(limit, acts);
    forall id | id in InStatus(s, Running)
      ensures id in Holders(s)
    {
      assert JobSound(s, id, s.jobs[id]);
    }
    SubsetSize(InStatus(s, Running), Holders(s));
  }

  lemma {:induction false} SubsetSize(a: set<nat>, b: set<nat>)
    requires a <= b
    ensures |a| <= |b|
  {
    if a != {} {
      var x :| x in a;
      SubsetSize(a - {x}, b - {x});
    }
  }

  /** Submit waits only while every slot is held and the runner is open. */
  lemma BlocksOnlyWhenFull(limit: int, acts: seq<Action>, id: nat)
    requires id in After(Init(limit), acts).jobs && After(Init(limit), acts).jobs[id].place == Blocked
    ensures
      var s := After(Init(limit), acts);
      !s.closed && |Holders(s)| == limit
  {
    var s := After(Init(limit), acts);
    EveryRunSound(limit, acts);
    assert JobSound(s, id, s.jobs[id]);
  }

  /** A runner is open until it is closed. */
  lemma {:induction false} ClosedExactly(limit: int, acts: seq<Action>)
    ensures After(Init(limit), acts).closed <==> Close in acts
  {
    hide Enabled, Moved, MutexAfter, SlotsAfter;
    if acts != [] {
      var n := |acts| - 1;
      ClosedExactly(limit, acts[..n]);
      assert Close in acts <==> Close in acts[..n] || acts[n] == Close;
    }
  }

  /** A task is failed unrun only in a run with a Close in it: no other task, and no limit, makes Submit fail. */
  lemma FailsOnlyWhenClosed(limit: int, acts: seq<Action>, id: nat)
    requires id in After(Init(limit), acts).jobs
    ensures
      var j := After(Init(limit), acts).jobs[id];
      j.task.result.error == Some(ClosedBeforeStart) || j.place == Rejected ==> Close in acts
  {
    var s := After(Init(limit), acts);
    EveryRunSound(limit, acts);
    ClosedExactly(limit, acts);
    assert JobSound(s, id, s.jobs[id]);
  }

  /** On an open runner with a slot free, or without a limit, a submission gets its goroutine by steps of its own. */
  lemma StartsWhenFree(s: State, id: nat)
    requires id in s.jobs && s.jobs[id].place == Registered && !s.closed && (s.limit > 0 ==> s.slots < s.limit)
    ensures
      var t := After(s, [Go(id, CheckContext)] + if s.limit > 0 then [Go(id, TakeSlot)] else []);
      id in t.jobs && t.jobs[id] == s.jobs[id].(place := Spawned)
  {
    AfterFirst(s, Go(id, CheckContext), if s.limit > 0 then [Go(id, TakeSlot)] else []);
    if s.limit > 0 {
      var t := Step(s, Go(id, CheckContext));
      AfterFirst(t, Go(id, TakeSlot), []);
      assert [Go(id, TakeSlot)] + [] == [Go(id, TakeSlot)];
    }
  }

  /** The life of one task: no step skips a stage or goes back, and a finished record never changes again. */
  predicate Advances(before: Task, after: Task) {
    || after == before
    || (before.status == Pending && after == before.(status := Running))
    || (before.status == Pending && after.status == Failed && after.result.error == Some(ClosedBeforeStart))
    || (before.status == Running && Terminal(after.status))
  }

  lemma MoveAdvances(s: State, id: nat, m: Move)
    requires id in s.jobs && JobSound(s, id, s.jobs[id]) && Enabled(s, s.jobs[id], m)
    ensures Advances(s.jobs[id].task, Moved(s, s.jobs[id], m).task)
  {}

  lemma StepAdvances(s: State, a: Action, id: nat)
    requires Sound(s) && id in s.jobs
    ensures id in Step(s, a).jobs && Advances(s.jobs[id].task, Step(s, a).jobs[id].task)
  {
    assert JobSound(s, id, s.jobs[id]);
    hide Sound, JobSound, Moved, MutexAfter, SlotsAfter, Prunable;
    match a
    case Go(k, m) =>
      if k == id && Enabled(s, s.jobs[id], m) {
        MoveAdvances(s, id, m);
      }
    case _ =>
  }

  lemma {:induction false} ResultsAreFinal(s: State, acts: seq<Action>, id: nat)
    requires Sound(s) && id in s.jobs && Terminal(s.jobs[id].task.status)
    ensures Sound(After(s, acts)) && id in After(s, acts).jobs && After(s, acts).jobs[id].task == s.jobs[id].task
  {
    hide Step, Sound;
    if acts != [] {
      var t := After(s, acts[..|acts| - 1]);
      ResultsAreFinal(s, acts[..|acts| - 1], id);
      StepSound(t, acts[|acts| - 1]);
      StepAdvances(t, acts[|acts| - 1], id);
    }
  }

  /**
    Prune takes out of the table what the loop of Prune takes out, or waits for the mutex; every task not yet finished
    stays in it.
  */
  lemma PruneKeepsUnfinished(s: State, cutoff: int)
    requires Sound(s)
    ensures Table(Step(s, Prune(cutoff))) == if s.mutex == None then Kept(Table(s), cutoff) else Table(s)
    ensures forall id :: id in Table(s) ==>
      (id in Table(Step(s, Prune(cutoff))) <==>
       s.mutex.Some? || Table(s)[id].status in {Pending, Running} || cutoff <= Table(s)[id].completed)
    ensures forall id :: id in s.jobs && !Terminal(s.jobs[id].task.status) ==>
      id in Table(s) && id in Table(Step(s, Prune(cutoff)))
  {
    forall id | id in s.jobs && !Terminal(s.jobs[id].task.status)
      ensures id in Table(s) && id in Table(Step(s, Prune(cutoff)))
    {
      assert JobSound(s, id, s.jobs[id]);
    }
  }

  /** A task's function is called at most once, and a task refused because the runner was closed never ran. */
  lemma CalledAtMostOnce(limit: int, acts: seq<Action>, id: nat)
    requires id in After(Init(limit), acts).jobs
    ensures
      var j := After(Init(limit), acts).jobs[id];
      && j.calls <= 1
      && (j.task.status == Done ==> j.calls == 1)
      && (j.task.status == Failed ==> (j.calls == 0 <==> j.task.result.error == Some(ClosedBeforeStart)))
  {
    var s := After(Init(limit), acts);
    EveryRunSound(limit, acts);
    assert JobSound(s, id, s.jobs[id]);
  }

  /** Whatever a Get shows is whole: a failed task has its error, a finished one its data, any other neither. */
  lemma GetShowsWholeRecords(limit: int, acts: seq<Action>, id: nat)
    requires Get(After(Init(limit), acts), id).Snapshot?
    ensures
      var t := Get(After(Init(limit), acts), id).task;
      match t.status
      case Failed => t.result.error.Some?
      case Done => t.result.data.Some? && t.result.error == None
      case _ => t.result == NEW_TASK.result && t.completed == NEW_TASK.completed
  {
    var s := After(Init(limit), acts);
    EveryRunSound(limit, acts);
    assert JobSound(s, id, s.jobs[id]);
  }

  /** What was recorded of a task is what its function came back with, data, text and panic value included. */
  predicate Agrees(t: Task, outcome: Outcome, now: int) {
    t.completed == now &&
    match outcome
    case Value(data) => t.status == Done && t.result.data == Some(data) && t.result.error == None
    case Error(data, Some(text)) =>
      t.status == Failed && t.result.data == Some(data) && t.result.error == Some(FromFunction(text))
    case Error(_, None) => t.status == Failed && t.result.data == None && t.result.error == None
    case Panic(value) => t.status == Failed && t.result.data == None && t.result.error == Some(Panicked(value))
  }

  /** The outcome in the history is that of the place, and the record agrees with it from the moment it is made. */
  predicate Told(j: Job) {
    match j.place
    case Returning(outcome) => j.returned == Some(outcome) && j.task.result == NEW_TASK.result
    case Stuck => j.returned.Some? && !Speaks(j.returned.value) && Agrees(j.task, j.returned.value, j.stamped)
    case Recorded => j.returned.Some? && Speaks(j.returned.value) && Agrees(j.task, j.returned.value, j.stamped)
    case Over => j.returned.Some? && Speaks(j.returned.value) && Agrees(j.task, j.returned.value, j.stamped)
    case Refused => j.returned == None && j.task.completed == j.stamped
    case _ => j.returned == None
  }

  lemma MoveTold(s: State, id: nat, m: Move)
    requires Sound(s) && id in s.jobs && Told(s.jobs[id]) && Enabled(s, s.jobs[id], m)
    ensures Told(Moved(s, s.jobs[id], m))
  {
    assert JobSound(s, id, s.jobs[id]);
  }

  ghost predicate AllTold(s: State) {
    forall id :: id in s.jobs ==> Told(s.jobs[id])
  }

  lemma StepTold(s: State, a: Action)
    requires Sound(s) && AllTold(s)
    ensures AllTold(Step(s, a))
  {
    forall k | k in Step(s, a).jobs ensures Told(Step(s, a).jobs[k]) {
      JobTold(s, a, k);
    }
  }

  lemma JobTold(s: State, a: Action, k: nat)
    requires Sound(s) && AllTold(s) && k in Step(s, a).jobs
    ensures Told(Step(s, a).jobs[k])
  {
    match a
    case Go(id, m) =>
      if id == k && id in s.jobs && Enabled(s, s.jobs[id], m) {
        MoveTold(s, id, m);
      }
      hide Moved, Told, Sound;
    case _ =>
  }

  lemma {:induction false} RunTold(limit: int, acts: seq<Action>)
    ensures AllTold(After(Init(limit), acts))
  {
    hide Step, AllTold, Sound;
    if acts == [] {
      NothingTold(limit);
    } else {
      RunTold(limit, acts[..|acts| - 1]);
      EveryRunSound(limit, acts[..|acts| - 1]);
      StepTold(After(Init(limit), acts[..|acts| - 1]), acts[|acts| - 1]);
    }
  }

  lemma NothingTold(limit: int)
    ensures AllTold(Init(limit))
  {}

  /** What a function came back with stays in the history, and so does the clock of its record. */
  predicate Remembers(j: Job, k: Job) {
    && (j.returned.Some? ==> k.returned == j.returned)
    && (Terminal(j.task.status) ==> k.stamped == j.stamped)
  }

  lemma MoveRemembers(s: State, id: nat, m: Move)
    requires id in s.jobs && JobSound(s, id, s.jobs[id]) && Told(s.jobs[id]) && Enabled(s, s.jobs[id], m)
    ensures Remembers(s.jobs[id], Moved(s, s.jobs[id], m))
  {
    hide Agrees, Finished, FailTask;
  }

  lemma StepRemembers(s: State, a: Action, id: nat)
    requires Sound(s) && AllTold(s) && id in s.jobs
    ensures id in Step(s, a).jobs && Remembers(s.jobs[id], Step(s, a).jobs[id])
  {
    assert JobSound(s, id, s.jobs[id]) && Told(s.jobs[id]);
    hide Sound, JobSound, Told, Moved, MutexAfter, SlotsAfter, Prunable;
    match a
    case Go(k, m) =>
      if k == id && Enabled(s, s.jobs[id], m) {
        MoveRemembers(s, id, m);
      }
    case _ =>
  }

  lemma {:induction false} RunRemembers(s: State, acts: seq<Action>, id: nat)
    requires Sound(s) && AllTold(s) && id in s.jobs && s.jobs[id].returned.Some?
    ensures
      var t := After(s, acts);
      Sound(t) && AllTold(t) && id in t.jobs && t.jobs[id].returned == s.jobs[id].returned
  {
    hide Step, Sound, AllTold;
    if acts != [] {
      var t := After(s, acts[..|acts| - 1]);
      RunRemembers(s, acts[..|acts| - 1], id);
      StepSound(t, acts[|acts| - 1]);
      StepTold(t, acts[|acts| - 1]);
      StepRemembers(t, acts[|acts| - 1], id);
    }
  }

  lemma ToldMeans(s: State, id: nat, outcome: Outcome)
    requires Sound(s) && AllTold(s) && id in s.jobs && s.jobs[id].returned == Some(outcome)
    ensures
      var j := s.jobs[id];
      && j.task.status != Pending
      && (j.task.status != Running ==> Agrees(j.task, outcome, j.stamped))
  {
    assert JobSound(s, id, s.jobs[id]) && Told(s.jobs[id]);
  }

  lemma {:induction false} AfterJoined(s: State, first: seq<Action>, second: seq<Action>)
    ensures After(s, first + second) == After(After(s, first), second)
  {
    hide Step;
    var both := first + second;
    if second == [] {
      assert both == first;
    } else {
      AfterJoined(s, first, second[..|second| - 1]);
      assert both[..|both| - 1] == first + second[..|second| - 1];
    }
  }

  /**
    In every run: once the function of a task has come back, the record is as it was while the function ran, or says
    what the function came back with, status, data, text and panic value, for the rest of the run.
  */
  lemma RecordTellsOutcome(limit: int, before: seq<Action>, id: nat, outcome: Outcome, later: seq<Action>)
    requires id in After(Init(limit), before).jobs && After(Init(limit), before).jobs[id].place == InFunction
    ensures
      var end := After(Init(limit), before + [Go(id, Return(outcome))] + later);
      && id in end.jobs
      && var t := end.jobs[id].task;
      t.status == Running ||
      match outcome
      case Value(data) => t.status == Done && t.result == Result(Some(data), None)
      case Error(data, Some(text)) => t.status == Failed && t.result == Result(Some(data), Some(FromFunction(text)))
      case Error(_, None) => t.status == Failed && t.result == Result(None, None)
      case Panic(value) => t.status == Failed && t.result == Result(None, Some(Panicked(value)))
  {
    var s, back := After(Init(limit), before), before + [Go(id, Return(outcome))];
    var t := After(Init(limit), back);
    assert back[..|before|] == before;
    EveryRunSound(limit, back);
    RunTold(limit, back);
    assert t.jobs[id].returned == Some(outcome);
    hide Step, Sound, AllTold;
    AfterJoined(Init(limit), back, later);
    RunRemembers(t, later, id);
    ToldMeans(After(t, later), id, outcome);
  }

  // ------------------------------------------------------------- after a close

  /** A submission that has not begun by the time the runner is closed, or began after that. */
  predicate Late(s: State, id: nat) {
    s.closed && (id in s.jobs ==> s.jobs[id].late)
  }

  lemma {:induction false} LateStaysLate(s: State, acts: seq<Action>, id: nat)
    requires Late(s, id)
    ensures Late(After(s, acts), id) && (id in s.jobs ==> id in After(s, acts).jobs)
  {
    if acts != [] {
      LateStaysLate(s, acts[..|acts| - 1], id);
    }
  }

  /** A submission begun after the runner was closed never has its function called, whatever happens later. */
  lemma SubmitAfterCloseNeverRuns(limit: int, before: seq<Action>, id: nat, later: seq<Action>)
    requires After(Init(limit), before).closed && id !in After(Init(limit), before).jobs
    ensures
      var end := After(Init(limit), before + [Submit(id)] + later);
      && (After(Init(limit), before).mutex == None ==> id in end.jobs)
      && (id in end.jobs ==> end.jobs[id].calls == 0 && end.jobs[id].task.status in {Pending, Failed})
  {
    var s := After(Init(limit), before);
    var begun := before + [Submit(id)];
    assert begun[..|before|] == before;
    AfterJoined(Init(limit), begun, later);
    LateStaysLate(Step(s, Submit(id)), later, id);
    EveryRunSound(limit, begun + later);
    var end := After(Init(limit), begun + later);
    if id in end.jobs {
      assert JobSound(end, id, end.jobs[id]);
    }
  }

  predicate Turned(s: State, id: nat) {
    id in s.jobs && (s.jobs[id].place == Rejected || s.jobs[id].place == Refused)
  }

  lemma {:induction false} TurnedStays(s: State, acts: seq<Action>, id: nat)
    requires Turned(s, id)
    ensures Turned(After(s, acts), id)
  {
    hide Turned, Step;
    if acts != [] {
      TurnedStays(s, acts[..|acts| - 1], id);
      StepTurned(After(s, acts[..|acts| - 1]), acts[|acts| - 1], id);
    }
  }

  lemma StepTurned(s: State, a: Action, id: nat)
    requires Turned(s, id)
    ensures Turned(Step(s, a), id)
  {}

  /**
    A runner closed while a Submit waits for a slot: the task is never run, is recorded as failed by the next step of
    its Submit if the mutex can be had, and no record but that is ever made for it.
  */
  lemma ClosedWhileWaiting(limit: int, before: seq<Action>, id: nat, later: seq<Action>, now: int)
    requires id in After(Init(limit), before).jobs && After(Init(limit), before).jobs[id].place == Blocked
    ensures
      var end := After(Init(limit), before + [Close] + later);
      && id in end.jobs && end.jobs[id].calls == 0
      && (end.jobs[id].task == NEW_TASK ||
          (end.jobs[id].task.status == Failed && end.jobs[id].task.result == Result(None, Some(ClosedBeforeStart))))
      && (end.mutex == None ==> Step(end, Go(id, Refuse(now))).jobs[id].task.status == Failed)
  {
    var closed := before + [Close];
    assert closed[..|before|] == before;
    AfterJoined(Init(limit), closed, later);
    CloseTurns(After(Init(limit), before), id);
    TurnedStays(Step(After(Init(limit), before), Close), later, id);
    EveryRunSound(limit, closed + later);
    hide Step, Init;
    TurnedRecord(After(Init(limit), closed + later), id, now);
  }

  lemma CloseTurns(s: State, id: nat)
    requires id in s.jobs && s.jobs[id].place == Blocked
    ensures Turned(Step(s, Close), id)
  {}

  lemma TurnedRecord(s: State, id: nat, now: int)
    requires Sound(s) && Turned(s, id)
    ensures s.jobs[id].calls == 0
    ensures s.jobs[id].task == NEW_TASK ||
            (s.jobs[id].task.status == Failed && s.jobs[id].task.result == Result(None, Some(ClosedBeforeStart)))
    ensures s.mutex == None ==> Step(s, Go(id, Refuse(now))).jobs[id].task.status == Failed
  {
    assert JobSound(s, id, s.jobs[id]);
  }

  // ------------------------------------------------------------ giving back

  /** The steps by which a task that holds a slot comes to give it back: its own. */
  function WayOut(place: Place, outcome: Outcome, now: int): seq<Move> {
    match place
    case Spawned => [Begin, Return(outcome), Record(now)]
    case InFunction => [Return(outcome), Record(now)]
    case Returning(_) => [Record(now)]
    case _ => []
  }

  function Goes(id: nat, moves: seq<Move>): seq<Action> {
    seq(|moves|, i requires 0 <= i < |moves| => Go(id, moves[i]))
  }

  /** The outcome a task's function has come back with, or will. */
  function OutcomeAt(place: Place, outcome: Outcome): Outcome {
    if place.Returning? then place.outcome else outcome
  }

  lemma FirstPlace(s: State, j: Job, outcome: Outcome, now: int)
    requires HoldsSlot(j.place) && !j.place.Recorded? && !j.place.Stuck? && s.mutex == None
    requires Speaks(OutcomeAt(j.place, outcome))
    ensures
      var moves := WayOut(j.place, outcome, now);
      && Enabled(s, j, moves[0])
      && var k := Moved(s, j, moves[0]);
      && moves[1..] == WayOut(k.place, outcome, now) && HoldsSlot(k.place) && !k.place.Stuck?
      && (k.place.Recorded? || Speaks(OutcomeAt(k.place, outcome))) && SlotsAfter(s, moves[0]) == s.slots
  {}

  /** The last step: the slot is left in the channel, or handed to a submission that waits for it. */
  ghost function GiveBack(s: State, id: nat): Action {
    if s.limit <= 0 || NoneBlocked(s) then Go(id, Release)
    else
      var heir :| heir in s.jobs && s.jobs[heir].place == Blocked;
      Pass(id, heir)
  }

  lemma AfterFirst(s: State, first: Action, rest: seq<Action>)
    ensures After(s, [first] + rest) == After(Step(s, first), rest)
  {
    AfterJoined(s, [first], rest);
    assert [first][..0] == [];
  }

  /** Nothing but the task's own steps is needed to record what its function came back with. */
  lemma {:induction false} OwnStepsRecord(s: State, id: nat, outcome: Outcome, now: int)
    requires id in s.jobs && HoldsSlot(s.jobs[id].place) && !s.jobs[id].place.Stuck?
    requires s.jobs[id].place.Recorded? || (s.mutex == None && Speaks(OutcomeAt(s.jobs[id].place, outcome)))
    ensures
      var t := After(s, Goes(id, WayOut(s.jobs[id].place, outcome, now)));
      && t.limit == s.limit && t.slots == s.slots && t.mutex == s.mutex
      && id in t.jobs && t.jobs == s.jobs[id := t.jobs[id]] && t.jobs[id].place == Recorded
    decreases |WayOut(s.jobs[id].place, outcome, now)|
  {
    var moves := WayOut(s.jobs[id].place, outcome, now);
    if !s.jobs[id].place.Recorded? {
      FirstPlace(s, s.jobs[id], outcome, now);
      hide Enabled, Moved, WayOut;
      var t := Step(s, Go(id, moves[0]));
      AfterFirst(s, Go(id, moves[0]), Goes(id, moves[1..]));
      assert Goes(id, moves) == [Go(id, moves[0])] + Goes(id, moves[1..]);
      OwnStepsRecord(t, id, outcome, now);
    }
  }

  lemma GivesBack(s: State, id: nat)
    requires Sound(s) && id in s.jobs && s.jobs[id].place.Recorded?
    ensures
      var t := Step(s, GiveBack(s, id));
      && id in t.jobs && t.jobs[id].place == Over && Settled(t.jobs[id].task)
      && (s.limit > 0 ==> t.slots == if NoneBlocked(s) then s.slots - 1 else s.slots)
  {
    assert JobSound(s, id, s.jobs[id]);
    assert id in Holders(s);
  }

  predicate HasEnded(s: State, id: nat) {
    id in s.jobs && s.jobs[id].place == Over
  }

  /**
    However its function comes back, by value, panic or an error that tells its text, a task gives its slot back by
    its own steps, to a waiting submission if there is one, and its record is final by then.
  */
  lemma SlotComesBack(s: State, id: nat, outcome: Outcome, now: int)
    requires Sound(s) && id in s.jobs && HoldsSlot(s.jobs[id].place)
    requires s.jobs[id].place.Recorded? || (s.mutex == None && Speaks(OutcomeAt(s.jobs[id].place, outcome)))
    ensures
      var t := After(s, Goes(id, WayOut(s.jobs[id].place, outcome, now)));
      var u := Step(t, GiveBack(t, id));
      && HasEnded(u, id) && Settled(u.jobs[id].task)
      && (s.limit > 0 ==> u.slots == if NoneBlocked(s) then s.slots - 1 else s.slots)
  {
    var own := Goes(id, WayOut(s.jobs[id].place, outcome, now));
    var t := After(s, own);
    assert JobSound(s, id, s.jobs[id]);
    OwnStepsRecord(s, id, outcome, now);
    RunSound(s, own);
    GivesBack(t, id);
    assert NoneBlocked(t) <==> NoneBlocked(s) by {
      forall k | k in s.jobs
        ensures s.jobs[k].place == Blocked <==> t.jobs[k].place == Blocked
      {}
    }
  }

  /** The run lets the function of submission `id` come back with `outcome` only. */
  predicate ComesBackWith(acts: seq<Action>, id: nat, outcome: Outcome) {
    forall a :: a in acts && a.Go? && a.id == id && a.move.Return? ==> a.move.outcome == outcome
  }

  /** The slot of a task is lost: somebody holds the mutex for good before the task is recorded, or its error will. */
  predicate Lost(s: State, id: nat, outcome: Outcome) {
    && id in s.jobs && HoldsSlot(s.jobs[id].place) && !s.jobs[id].place.Recorded?
    && (s.mutex.Some? || !Speaks(OutcomeAt(s.jobs[id].place, outcome)))
  }

  lemma StepLost(s: State, a: Action, id: nat, outcome: Outcome)
    requires Lost(s, id, outcome) && ComesBackWith([a], id, outcome)
    ensures Lost(Step(s, a), id, outcome)
  {
    assert a in [a];
  }

  lemma {:induction false} LostForGood(s: State, acts: seq<Action>, id: nat, outcome: Outcome)
    requires Lost(s, id, outcome) && ComesBackWith(acts, id, outcome)
    ensures Lost(After(s, acts), id, outcome)
  {
    hide Lost, Step;
    if acts != [] {
      LostForGood(s, acts[..|acts| - 1], id, outcome);
      StepLost(After(s, acts[..|acts| - 1]), acts[|acts| - 1], id, outcome);
    }
  }

  lemma OwnComesBackWith(s: State, id: nat, outcome: Outcome, now: int, last: Action)
    requires id in s.jobs && (last == Go(id, Release) || last.Pass?)
    ensures ComesBackWith(Goes(id, WayOut(s.jobs[id].place, outcome, now)) + [last], id, outcome)
  {}

  lemma AfterLast(s: State, acts: seq<Action>, a: Action)
    ensures After(s, acts + [a]) == Step(After(s, acts), a)
  {
    assert (acts + [a])[..|acts|] == acts;
  }

  lemma CanComeBack(s: State, id: nat, outcome: Outcome)
    requires Sound(s) && id in s.jobs && HoldsSlot(s.jobs[id].place)
    requires s.jobs[id].place.Recorded? || (s.mutex == None && Speaks(OutcomeAt(s.jobs[id].place, outcome)))
    ensures exists acts :: ComesBackWith(acts, id, outcome) && HasEnded(After(s, acts), id)
  {
    var own := Goes(id, WayOut(s.jobs[id].place, outcome, 0));
    var last := GiveBack(After(s, own), id);
    SlotComesBack(s, id, outcome, 0);
    OwnComesBackWith(s, id, outcome, 0, last);
    hide Step, Sound, ComesBackWith, HasEnded;
    AfterLast(s, own, last);
    assert HasEnded(After(s, own + [last]), id);
  }

  lemma CannotComeBack(s: State, id: nat, outcome: Outcome, acts: seq<Action>)
    requires Lost(s, id, outcome) && ComesBackWith(acts, id, outcome)
    ensures !HasEnded(After(s, acts), id)
  {
    LostForGood(s, acts, id, outcome);
    LostNotOver(After(s, acts), id, outcome);
  }

  /**
    For every reachable state and every task that holds a slot: some run in which its function comes back with
    `outcome` ends with the slot given back if and only if the outcome is recorded already, or the mutex is free and the
    outcome, if an error, can tell its text.
  */
  lemma SlotComesBackExactly(s: State, id: nat, outcome: Outcome)
    requires Sound(s) && id in s.jobs && HoldsSlot(s.jobs[id].place)
    ensures
      (exists acts :: ComesBackWith(acts, id, outcome) && HasEnded(After(s, acts), id)) <==>
      s.jobs[id].place.Recorded? || (s.mutex == None && Speaks(OutcomeAt(s.jobs[id].place, outcome)))
  {
    if s.jobs[id].place.Recorded? || (s.mutex == None && Speaks(OutcomeAt(s.jobs[id].place, outcome))) {
      CanComeBack(s, id, outcome);
    } else {
      assert Lost(s, id, outcome);
      hide After, Lost, ComesBackWith, HasEnded;
      forall acts | ComesBackWith(acts, id, outcome)
        ensures !HasEnded(After(s, acts), id)
      {
        CannotComeBack(s, id, outcome, acts);
      }
    }
  }

  lemma LostNotOver(s: State, id: nat, outcome: Outcome)
    requires Lost(s, id, outcome)
    ensures !HasEnded(s, id)
  {}

  /** While somebody holds the mutex for good: the tasks, their records and what is listed stay as they are. */
  predicate Frozen(s: State, t: State) {
    && t.mutex == s.mutex && t.jobs.Keys == s.jobs.Keys
    && forall id :: id in s.jobs ==>
         t.jobs[id].(place := s.jobs[id].place, returned := s.jobs[id].returned) == s.jobs[id]
  }

  lemma StepFrozen(s: State, a: Action)
    requires s.mutex.Some?
    ensures Frozen(s, Step(s, a))
  {
    hide Finished, FailTask, Prunable, NoneBlocked;
    assert Step(s, a).jobs.Keys == s.jobs.Keys;
  }

  predicate Keeps(s: State, id: nat) {
    s.mutex.Some? && id in s.jobs && HoldsSlot(s.jobs[id].place) && !s.jobs[id].place.Recorded?
  }

  lemma StepKeeps(s: State, a: Action, id: nat)
    requires Keeps(s, id)
    ensures Keeps(Step(s, a), id)
  {}

  lemma {:induction false} StaysHolder(s: State, acts: seq<Action>, id: nat)
    requires Keeps(s, id)
    ensures Keeps(After(s, acts), id)
  {
    hide Keeps, Step;
    if acts != [] {
      StaysHolder(s, acts[..|acts| - 1], id);
      StepKeeps(After(s, acts[..|acts| - 1]), acts[|acts| - 1], id);
    }
  }

  /** Then no submission registers, no record changes, no Get returns and no task not yet recorded gives its slot back. */
  lemma {:induction false} MutexHeldForGood(s: State, acts: seq<Action>)
    requires s.mutex.Some?
    ensures Frozen(s, After(s, acts)) && Table(After(s, acts)) == Table(s)
    ensures forall id :: Get(After(s, acts), id) == Blocks
    ensures forall id :: id in Holders(s) && !s.jobs[id].place.Recorded? ==> id in Holders(After(s, acts))
  {
    hide Step;
    if acts != [] {
      MutexHeldForGood(s, acts[..|acts| - 1]);
      StepFrozen(After(s, acts[..|acts| - 1]), acts[|acts| - 1]);
    }
    forall id | id in Holders(s) && !s.jobs[id].place.Recorded?
      ensures id in Holders(After(s, acts))
    {
      StaysHolder(s, acts, id);
    }
  }

  /** An error that will not tell its text, and the attempt to record it. */
  function Silent(id: nat, data: nat, now: int): seq<Action> {
    [Go(id, Return(Error(data, None))), Go(id, Record(now))]
  }

  lemma SilentSticks(s: State, id: nat, data: nat, now: int)
    requires id in s.jobs && s.jobs[id].place == InFunction && s.mutex == None
    ensures
      var t := Step(Step(s, Silent(id, data, now)[0]), Silent(id, data, now)[1]);
      && t.mutex == Some(id) && t.jobs == s.jobs[id := t.jobs[id]] && t.jobs[id].place == Stuck
  {}

  /**
    One task that returns an error whose Error method panics stops the runner, whatever else it is doing: however the
    run goes on, no other submission registers, no Get returns, and that task and every other not yet recorded keep
    their slots.
  */
  lemma SilentErrorStopsRunner(s: State, id: nat, data: nat, now: int, later: seq<Action>)
    requires id in s.jobs && s.jobs[id].place == InFunction && s.mutex == None
    ensures
      var end := After(s, Silent(id, data, now) + later);
      && end.mutex == Some(id) && end.jobs.Keys == s.jobs.Keys
      && (forall k :: Get(end, k) == Blocks)
      && (forall k :: k in Holders(s) && !s.jobs[k].place.Recorded? ==> k in Holders(end))
  {
    var own := Silent(id, data, now);
    var t := Step(Step(s, own[0]), own[1]);
    SilentSticks(s, id, data, now);
    hide Step, After, Get, Table;
    AfterFirst(s, own[0], [own[1]] + later);
    AfterFirst(Step(s, own[0]), own[1], later);
    assert own + later == [own[0]] + ([own[1]] + later);
    MutexHeldForGood(t, later);
  }
}
