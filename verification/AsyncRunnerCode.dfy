/**
  Submit, execute, failTask and Close as they are written, against the machine of AsyncRunner. Before each step of a
  submission everybody else may do anything; each method is proved to take exactly the machine's steps for it.
*/
module AsyncRunnerCode {
  import opened AsyncRunner
  import opened Options

  ghost predicate Reaches(s: State, t: State) {
    exists acts :: After(s, acts) == t
  }

  lemma ReachesNothing(s: State)
    ensures Reaches(s, s)
  {
    assert After(s, []) == s;
  }

  lemma ReachesOn(s: State, t: State, u: State)
    requires Reaches(s, t) && Reaches(t, u)
    ensures Reaches(s, u)
  {
    var a :| After(s, a) == t;
    var b :| After(t, b) == u;
    AfterJoined(s, a, b);
    assert After(s, a + b) == u;
  }

  lemma ReachesStep(s: State, t: State, a: Action)
    requires Reaches(s, t)
    ensures Reaches(s, Step(t, a))
  {
    AfterFirst(t, a, []);
    assert [a] + [] == [a];
    assert After(t, [a]) == Step(t, a);
    ReachesOn(s, t, Step(t, a));
  }

  // --------------------------------------------------------------- the others

  /** An action that is a step of somebody else, or of nobody in particular. */
  predicate Foreign(a: Action, id: nat) {
    match a
    case Submit(k) => k != id
    case Go(k, _) => k != id
    case Pass(k, _) => k != id
    case _ => true
  }

  ghost predicate ByOthers(s: State, t: State, id: nat) {
    exists acts :: (forall a :: a in acts ==> Foreign(a, id)) && After(s, acts) == t
  }

  /** What the others can do to a submission: take its record out of the table, and end its wait for a slot. */
  predicate LeftAs(j: Job, k: Job) {
    && k.(listed := j.listed, place := j.place) == j
    && (k.place == j.place || (j.place == Blocked && (k.place == Spawned || k.place == Rejected)))
  }

  lemma StepLeaves(s: State, a: Action, id: nat)
    requires id in s.jobs && Foreign(a, id)
    ensures id in Step(s, a).jobs && LeftAs(s.jobs[id], Step(s, a).jobs[id])
    ensures TurnedBy(s.jobs[id], Step(s, a), id)
  {}

  /** A wait that ended without a slot ended because the runner was closed. */
  predicate TurnedBy(j: Job, t: State, id: nat) {
    id in t.jobs && (t.jobs[id].place == Rejected && j.place != Rejected ==> t.closed)
  }

  lemma {:induction false} OthersLeave(s: State, acts: seq<Action>, id: nat)
    requires id in s.jobs && forall a :: a in acts ==> Foreign(a, id)
    ensures id in After(s, acts).jobs && LeftAs(s.jobs[id], After(s, acts).jobs[id])
    ensures TurnedBy(s.jobs[id], After(s, acts), id)
  {
    hide Step, Foreign;
    if acts != [] {
      var t := After(s, acts[..|acts| - 1]);
      OthersLeave(s, acts[..|acts| - 1], id);
      StepLeaves(t, acts[|acts| - 1], id);
      StepLasts(t, acts[|acts| - 1]);
    }
  }

  /** A closed runner stays closed, a mutex held between steps stays held, and the limit never changes. */
  predicate Lasts(s: State, t: State) {
    t.limit == s.limit && (s.closed ==> t.closed) && (s.mutex.Some? ==> t.mutex.Some?)
  }

  lemma StepLasts(s: State, a: Action)
    ensures Lasts(s, Step(s, a))
  {}

  lemma {:induction false} RunLasts(s: State, acts: seq<Action>)
    ensures Lasts(s, After(s, acts))
  {
    hide Step;
    if acts != [] {
      RunLasts(s, acts[..|acts| - 1]);
      StepLasts(After(s, acts[..|acts| - 1]), acts[|acts| - 1]);
    }
  }

  lemma OthersTurn(s: State, t: State, id: nat)
    requires ByOthers(s, t, id)
    ensures Reaches(s, t) && Lasts(s, t)
    ensures id in s.jobs ==> id in t.jobs && LeftAs(s.jobs[id], t.jobs[id]) && TurnedBy(s.jobs[id], t, id)
  {
    var acts :| (forall a :: a in acts ==> Foreign(a, id)) && After(s, acts) == t;
    RunLasts(s, acts);
    if id in s.jobs {
      OthersLeave(s, acts, id);
    }
  }

  // ----------------------------------------------------------------- the code

  /**
    How a Submit ends: with a goroutine started, with the task failed, or not: it waits for a slot, or for a mutex
    that nobody will give back.
  */
  datatype Submitted = Started | TurnedDown | Waiting | Hung

  /** How execute ends, or where it hangs: on a mutex that another task holds, or on the one it holds itself. */
  datatype Executed = Through | HungBefore | HungAfter | HungOnItself

  predicate Plain(m: Move) {
    m.CheckContext? || m.Refuse? || m.Begin? || m.Return? || m.Record?
  }

  class Runner {
    /** The script: what the others do before the k-th step seen here, the clock, and which ready case select takes. */
    const meanwhile: (nat, State) -> State
    const clock: nat -> int
    const takesSlot: nat -> bool
    ghost const origin: State
    var s: State
    var time: nat
    /** How often a blocked Submit is looked at again before it is left waiting. */
    var patience: nat

    constructor (meanwhile: (nat, State) -> State, clock: nat -> int, takesSlot: nat -> bool, s: State, patience: nat)
      ensures this.meanwhile == meanwhile && this.clock == clock && this.takesSlot == takesSlot
      ensures this.s == origin == s && Reaches(origin, s)
    {
      this.meanwhile, this.clock, this.takesSlot := meanwhile, clock, takesSlot;
      this.s, this.origin, this.time, this.patience := s, s, 0, patience;
      new;
      ReachesNothing(s);
    }

    /** Listed or not, the record and the place of `id` are those of `j`. */
    ghost predicate At(id: nat, j: Job)
      reads this
    {
      Fair(id) && Reaches(origin, s) && id in s.jobs && s.jobs[id].(listed := j.listed) == j
    }

    /** The others do what they like, with steps of their own. */
    ghost predicate Fair(id: nat) {
      forall k: nat, t: State :: ByOthers(t, meanwhile(k, t), id)
    }

    method Yield(id: nat, ghost j: Job) returns (ghost k: Job)
      requires At(id, j)
      modifies this`s, this`time
      ensures At(id, k) && LeftAs(j, k) && Lasts(old(s), s) && TurnedBy(j, s, id)
    {
      hide Reaches, ByOthers;
      ghost var before := s;
      s := meanwhile(time, s);
      assert ByOthers(before, s, id);
      time := time + 1;
      OthersTurn(before, s, id);
      ReachesOn(origin, before, s);
      k := s.jobs[id].(listed := j.listed);
    }

    /** One step of this submission. */
    method Act(id: nat, a: Action)
      requires Fair(id) && Reaches(origin, s)
      modifies this`s
      ensures Fair(id) && Reaches(origin, s) && s == Step(old(s), a)
    {
      hide Reaches;
      ReachesStep(origin, s, a);
      s := Step(s, a);
    }

    /** A move that no channel is needed for, after whatever the others do before it; or none, for want of the mutex. */
    method Do(id: nat, m: Move, ghost j: Job) returns (ok: bool)
      requires At(id, j) && Plain(m) && InPlace(s, j, m)
      modifies this`s, this`time
      ensures Lasts(old(s), s) && InPlace(s, j, m)
      ensures ok ==> At(id, Moved(s, j, m)) && s.mutex == MutexAfter(s, id, Moved(s, j, m))
      ensures !ok ==> At(id, j) && NeedsMutex(m) && s.mutex.Some?
    {
      hide Reaches, Fair;
      ghost var k := Yield(id, j);
      ok := !NeedsMutex(m) || s.mutex == None;
      if ok {
        StepLasts(s, Go(id, m));
        Act(id, Go(id, m));
      }
    }

    method FailTask(id: nat, ghost j: Job) returns (ok: bool, now: int)
      requires At(id, j) && j.place == Rejected
      modifies this`s, this`time
      ensures Lasts(old(s), s)
      ensures
        if ok then At(id, j.(place := Refused, stamped := now, task := AsyncRunner.FailTask(j.task, now, ClosedBeforeStart)))
        else At(id, j) && s.mutex.Some?
    {
      now := clock(time);
      ok := Do(id, Refuse(now), j);
    }

    /** A task id nobody uses yet is registered, and then the runner is asked for a slot. */
    method Submit(id: nat) returns (r: Submitted, ghost now: int)
      requires Fair(id) && Reaches(origin, s) && id !in s.jobs
      modifies this
      ensures
        var j := Job(Registered, NEW_TASK, true, old(s.closed), 0, None, 0);
        match r
        case Started => At(id, j.(place := Spawned))
        case Waiting => At(id, j.(place := Blocked))
        case TurnedDown =>
          At(id, j.(place := Refused, stamped := now, task := AsyncRunner.FailTask(NEW_TASK, now, ClosedBeforeStart)))
        case Hung => s.mutex.Some? && (id in s.jobs ==> At(id, j.(place := Rejected)))
      ensures old(s.closed) ==> r == TurnedDown || r == Hung
      ensures r == TurnedDown ==> s.closed
      ensures old(s.mutex.Some?) ==> r == Hung && s.jobs == old(s.jobs)
    {
      hide Reaches, Fair;
      ghost var j := Job(Registered, NEW_TASK, true, s.closed, 0, None, 0);
      now := 0;
      if s.mutex.Some? {
        return Hung, now;
      }
      Act(id, Action.Submit(id));
      ghost var ok := Do(id, CheckContext, j);
      if s.closed {
        r, now := TurnDown(id, j.(place := Rejected));
      } else if s.limit > 0 {
        r := Select(id, j.(place := Selecting));
        if r == TurnedDown {
          r, now := TurnDown(id, j.(place := Rejected));
        }
      } else {
        r := Started;
      }
    }

    method TurnDown(id: nat, ghost j: Job) returns (r: Submitted, now: int)
      requires At(id, j) && j.place == Rejected
      modifies this`s, this`time
      ensures (r == TurnedDown || r == Hung) && Lasts(old(s), s)
      ensures r == TurnedDown ==>
        At(id, j.(place := Refused, stamped := now, task := AsyncRunner.FailTask(j.task, now, ClosedBeforeStart)))
      ensures r == Hung ==> At(id, j) && s.mutex.Some?
    {
      var ok;
      ok, now := FailTask(id, j);
      r := if ok then TurnedDown else Hung;
    }

    /** The select: a slot when one is free, or the end of the runner, or a wait for whichever comes first. */
    method Select(id: nat, ghost j: Job) returns (r: Submitted)
      requires At(id, j) && j.place == Selecting
      modifies this
      ensures r != Hung && (r == TurnedDown ==> s.closed)
      ensures At(id, j.(place := match r case Started => Spawned case TurnedDown => Rejected case _ => Blocked))
    {
      hide Reaches, Fair;
      ghost var k := Yield(id, j);
      if s.slots < s.limit && (!s.closed || takesSlot(time)) {
        Act(id, Go(id, TakeSlot));
        return Started;
      }
      if s.closed {
        Act(id, Go(id, SeeClosed));
        return TurnedDown;
      }
      Act(id, Go(id, Block));
      r := Await(id, j.(place := Blocked));
    }

    /** A blocked select: the first event that concerns it decides. */
    method Await(id: nat, ghost j: Job) returns (r: Submitted)
      requires At(id, j) && j.place == Blocked
      modifies this
      ensures r != Hung && (r == TurnedDown ==> s.closed)
      ensures At(id, j.(place := match r case Started => Spawned case TurnedDown => Rejected case _ => Blocked))
    {
      hide Reaches, Fair;
      while true
        invariant At(id, j)
        decreases patience
      {
        ghost var k := Yield(id, j);
        if s.jobs[id].place == Spawned {
          return Started;
        }
        if s.jobs[id].place == Rejected {
          return TurnedDown;
        }
        if patience == 0 {
          return Waiting;
        }
        patience := patience - 1;
      }
    }

    /** The deferred receive: a blocked submission has the slot from then on, if there is one. */
    method GiveUpSlot(id: nat, ghost j: Job)
      requires At(id, j) && j.place == Recorded
      modifies this`s, this`time
      ensures At(id, j.(place := Over))
    {
      hide Reaches, Fair;
      ghost var k := Yield(id, j);
      if heir :| heir in s.jobs && s.jobs[heir].place == Blocked && s.limit > 0 {
        Act(id, Pass(id, heir));
      } else {
        Act(id, Go(id, Release));
      }
    }

    /**
      The goroutine: marks the task running, calls the function, which comes back with `outcome`, records it, and only
      then, recovered or not, gives up the slot. It hangs when somebody holds the mutex for good, and itself does so
      exactly when the outcome is an error that cannot tell its text.
    */
    method Execute(id: nat, outcome: Outcome, ghost j: Job) returns (e: Executed, now: int)
      requires At(id, j) && j.place == Spawned
      modifies this`s, this`time
      ensures
        var running := j.(place := InFunction, task := j.task.(status := Running), calls := j.calls + 1);
        var back := running.(place := Returning(outcome), returned := Some(outcome));
        match e
        case Through =>
          Speaks(outcome) && At(id, back.(place := Over, stamped := now, task := Finished(running.task, now, outcome)))
        case HungBefore => s.mutex.Some? && At(id, j)
        case HungAfter => s.mutex.Some? && At(id, back)
        case HungOnItself =>
          && !Speaks(outcome) && s.mutex == Some(id)
          && At(id, back.(place := Stuck, stamped := now, task := Finished(running.task, now, outcome)))
      ensures e == Through ==>
        && id in s.jobs
        && var t := s.jobs[id].task;
        && t.completed == now
        && match outcome
           case Value(data) => t.status == Done && t.result.data == Some(data) && t.result.error == None
           case Error(data, text) =>
             && t.status == Failed && t.result.data == Some(data)
             && text.Some? && t.result.error == Some(FromFunction(text.value))
           case Panic(value) => t.status == Failed && t.result == Result(None, Some(Panicked(value)))
    {
      hide Reaches, Fair;
      now := 0;
      var ok := Do(id, Begin, j);
      if !ok {
        return HungBefore, now;
      }
      ghost var running := j.(place := InFunction, task := j.task.(status := Running), calls := j.calls + 1);
      ok := Do(id, Return(outcome), running);
      now := clock(time);
      ghost var back := running.(place := Returning(outcome), returned := Some(outcome));
      ok := Do(id, Record(now), back);
      if !ok {
        return HungAfter, now;
      }
      if !Speaks(outcome) {
        return HungOnItself, now;
      }
      GiveUpSlot(id, back.(place := Recorded, stamped := now, task := Finished(running.task, now, outcome)));
      e := Through;
    }

    method Close()
      requires Reaches(origin, s)
      modifies this`s
      ensures Reaches(origin, s) && s == Step(old(s), Action.Close)
    {
      ReachesStep(origin, s, Action.Close);
      s := Step(s, Action.Close);
    }
  }
}
