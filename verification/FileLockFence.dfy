/** The fence: a counter that never repeats or falls back, host crashes included, as long as no
    reclaim catches a live occupancy's record. With reclaim off none does. */
module FileLockFence {
  import opened FileSystem
  import opened FileLock
  import opened FileLockSafety
  import opened FileLockExclusion

  /** The counter on disk is durable content and at least `v`. */
  predicate CounterFrom(d: Disk, v: nat) {
    Fence in d.dir && FileAt(d, Fence).synced && FileAt(d, Fence).bytes.Counter? && FileAt(d, Fence).bytes.value >= v
  }

  /** `next` is what advanceFence computes from the counter on `d`. */
  predicate NextOf(d: Disk, next: nat) {
    if Fence !in d.dir then next == 1
    else FileAt(d, Fence).bytes.Counter? && FileAt(d, Fence).bytes.value < MAX_FENCE
         && next == FileAt(d, Fence).bytes.value + 1
  }

  predicate Increasing(xs: seq<nat>) {
    forall i, j :: 0 <= i < j < |xs| ==> xs[i] < xs[j]
  }

  ghost predicate FencePcOk(d: Disk, entered: seq<nat>, pc: Pc) {
    pc.Inside? ==>
      match pc.step
      case CreateFence(next) => NextOf(d, next)
      case WriteFence(next, _, _) => NextOf(d, next)
      case SealFence(next, _, _) => NextOf(d, next)
      case RenameFence(next, _, _) => NextOf(d, next)
      case SyncFence(next, _) => CounterFrom(d, next) && forall v :: v in entered ==> v < next
      case _ => true
  }

  /** Every fence handed out is on disk in every version of the directory that a host crash
      could bring back. */
  ghost predicate Fenced(s: State) {
    && Increasing(s.entered)
    && (forall i, v :: 0 <= i < |s.past| && v in s.entered ==> CounterFrom(s.past[i], v))
    && (forall p :: p in s.procs && s.procs[p].alive ==> FencePcOk(s.disk, s.entered, s.procs[p].pc))
  }

  lemma IncreasingAppend(xs: seq<nat>, v: nat)
    requires Increasing(xs) && forall x :: x in xs ==> x < v
    ensures Increasing(xs + [v])
  {
    forall i | 0 <= i < |xs| ensures xs[i] < v {
      assert xs[i] in xs;
    }
  }

  /** The two steps that move the counter: the rename that replaces it, and the directory
      fsync after which the fence is handed out. */
  lemma CounterFenced(s: State, p: Pid, mine: Rec, step: InsideStep, call: Call, ino: Ino)
    requires Safe(s) && LiveExclusive(s) && Fenced(s) && p in s.procs
    requires s.procs[p] == Proc(true, Inside(mine, step)) && (step.RenameFence? || step.SyncFence?)
    ensures Fenced(AdvanceStep(s, p, mine, step, call, ino))
  {
    var t := AdvanceStep(s, p, mine, step, call, ino);
    assert PcOk(s.disk, s.procs[p].pc) && FencePcOk(s.disk, s.entered, s.procs[p].pc);
    forall q | q in s.procs && s.procs[q].alive && q != p ensures !s.procs[q].pc.Inside? {
      if s.procs[q].pc.Inside? {
        OneAlive(s, p, q);
      }
    }
    hide Safe, LiveExclusive, PcOk;
    if step.RenameFence? && call == Ok {
      var last := |s.past| - 1;
      forall v | v in s.entered ensures v < step.next {
        assert CounterFrom(s.past[last], v);
      }
    } else if step.SyncFence? && call == Ok {
      IncreasingAppend(s.entered, step.next);
    }
  }

  /** `t` differs from `s` by a move of `p` that leaves the counter alone. */
  ghost predicate Quiet(s: State, t: State, p: Pid) {
    && p in t.procs && t.procs == s.procs[p := t.procs[p]]
    && t.entered == s.entered && Same(s.disk, t.disk, Fence)
    && (t.past == s.past || t.past == s.past + [t.disk] || t.past == [t.disk])
    && FencePcOk(t.disk, t.entered, t.procs[p].pc)
  }

  lemma QuietFenced(s: State, t: State, p: Pid)
    requires Safe(s) && Fenced(s) && Quiet(s, t, p)
    ensures Fenced(t)
  {
    var last := |s.past| - 1;
    forall i, v | 0 <= i < |t.past| && v in t.entered ensures CounterFrom(t.past[i], v) {
      assert CounterFrom(s.past[last], v);
    }
  }

  lemma QuietInside(s: State, p: Pid, mine: Rec, step: InsideStep, call: Call, ino: Ino)
    requires p in s.procs && s.procs[p].pc == Inside(mine, step) && FencePcOk(s.disk, s.entered, s.procs[p].pc)
    requires !Advancing(step)
    requires var t := InsideStepOf(s, p, mine, step, call, ino); !t.wrapped && Same(s.disk, t.disk, Fence)
    ensures Quiet(s, InsideStepOf(s, p, mine, step, call, ino), p)
  {
  }

  lemma QuietAdvance(s: State, p: Pid, mine: Rec, step: InsideStep, call: Call, ino: Ino)
    requires p in s.procs && s.procs[p].pc == Inside(mine, step) && FencePcOk(s.disk, s.entered, s.procs[p].pc)
    requires Advancing(step) && !step.RenameFence? && !step.SyncFence?
    requires Same(s.disk, AdvanceStep(s, p, mine, step, call, ino).disk, Fence)
    ensures Quiet(s, AdvanceStep(s, p, mine, step, call, ino), p)
  {
  }

  /** Outside the window no history about the fence changes. */
  ghost predicate NoFenceEvent(s: State, t: State) {
    && t.entered == s.entered && t.wrapped == s.wrapped
    && (t.past == s.past || t.past == s.past + [t.disk])
  }

  lemma NoEventOutside(s: State, p: Pid, stale: Ages, call: Call, ino: Ino)
    requires p in s.procs && !s.procs[p].pc.Inside?
    ensures NoFenceEvent(s, GoStep(s, p, stale, call, ino))
  {
    match s.procs[p].pc
    case Staging(_, _, _, _) => NoEventStaging(s, p, s.procs[p].pc, call);
    case Aside(_, _, _, _, _) => NoEventAside(s, p, s.procs[p].pc, call);
    case _ =>
  }

  lemma NoEventStaging(s: State, p: Pid, pc: Pc, call: Call)
    requires pc.Staging?
    ensures NoFenceEvent(s, StagingStep(s, p, pc, call))
  {
  }

  lemma NoEventAside(s: State, p: Pid, pc: Pc, call: Call)
    requires pc.Aside?
    ensures NoFenceEvent(s, AsideStepOf(s, p, pc, call))
  {
  }

  lemma QuietOutside(s: State, p: Pid, stale: Ages, call: Call, ino: Ino)
    requires p in s.procs && !s.procs[p].pc.Inside?
    requires Same(s.disk, GoStep(s, p, stale, call, ino).disk, Fence)
    ensures Quiet(s, GoStep(s, p, stale, call, ino), p)
  {
    Entrances(s, p, stale, call, ino);
    NoEventOutside(s, p, stale, call, ino);
  }

  lemma GoFenced(s: State, p: Pid, stale: Ages, call: Call, ino: Ino)
    requires Safe(s) && LiveExclusive(s) && Fenced(s) && p in s.procs && s.procs[p].alive
    requires !GoStep(s, p, stale, call, ino).wrapped
    ensures Fenced(GoStep(s, p, stale, call, ino))
  {
    var pc := s.procs[p].pc;
    assert PcOk(s.disk, pc) && FencePcOk(s.disk, s.entered, pc);
    if pc.Inside? && (pc.step.RenameFence? || pc.step.SyncFence?) {
      CounterFenced(s, p, pc.mine, pc.step, call, ino);
    } else {
      LockNotOwned(s, p);
      UntouchedBy(s, p, stale, call, ino, Fence);
      if !pc.Inside? {
        QuietOutside(s, p, stale, call, ino);
      } else if Advancing(pc.step) {
        QuietAdvance(s, p, pc.mine, pc.step, call, ino);
      } else {
        QuietInside(s, p, pc.mine, pc.step, call, ino);
      }
      QuietFenced(s, GoStep(s, p, stale, call, ino), p);
    }
  }

  lemma HostCrashFenced(s: State, d: Disk)
    requires Safe(s) && Fenced(s)
    ensures Fenced(HostCrashStep(s, d))
  {
    if CrashOutcome(s.past, d) {
      assert EntryFrom(s.past, d, Fence);
    }
  }

  lemma OperatorFence(s: State)
    requires |s.past| > 0 && s.past[|s.past| - 1] == s.disk
    ensures var t := OperatorStep(s);
            && t.entered == s.entered && (t.past == s.past || t.past == s.past + [t.disk])
            && (forall v :: CounterFrom(s.disk, v) ==> CounterFrom(t.disk, v))
            && (forall p :: p in t.procs ==> p in s.procs)
            && (forall p :: p in t.procs && t.procs[p].alive && FencePcOk(s.disk, s.entered, s.procs[p].pc) ==>
                  s.procs[p].alive && FencePcOk(t.disk, t.entered, t.procs[p].pc))
            && (forall p :: p in t.procs && t.procs[p].alive ==> s.procs[p].alive)
  {}

  lemma OperatorFenced(s: State)
    requires Safe(s) && Fenced(s)
    ensures Fenced(OperatorStep(s))
  {
    var t := OperatorStep(s);
    var last := |s.past| - 1;
    OperatorFence(s);
    hide OperatorStep, CounterFrom, FencePcOk;
    forall i, v | 0 <= i < |t.past| && v in t.entered ensures CounterFrom(t.past[i], v) {
      assert CounterFrom(s.past[last], v);
    }
  }

  lemma StepFenced(s: State, stale: Ages, a: Action)
    requires Safe(s) && LiveExclusive(s) && Fenced(s) && !Step(s, stale, a).wrapped
    ensures Fenced(Step(s, stale, a))
  {
    match a
    case Go(p, call, ino) => if p in s.procs && s.procs[p].alive { GoFenced(s, p, stale, call, ino); }
    case OperatorClear => OperatorFenced(s);
    case HostCrash(d) => HostCrashFenced(s, d);
    case _ =>
  }

  /** An acquisition reads the counter and finds the largest value a counter can hold. */
  ghost predicate ReadsMaximum(s: State, a: Action) {
    && a.Go? && a.call == Ok
    && a.p in s.procs && s.procs[a.p].alive
    && s.procs[a.p].pc.Inside? && s.procs[a.p].pc.step == ReadFence
    && Fence in s.disk.dir && FileAt(s.disk, Fence).bytes == Counter(0xFFFF_FFFF_FFFF_FFFF)
  }

  ghost predicate MaximumRead(s: State, stale: Ages, acts: seq<Action>)
    decreases |acts|
  {
    acts != [] && (ReadsMaximum(s, acts[0]) || MaximumRead(Step(s, stale, acts[0]), stale, acts[1..]))
  }

  lemma WrappedInside(s: State, p: Pid, mine: Rec, step: InsideStep, call: Call, ino: Ino)
    ensures InsideStepOf(s, p, mine, step, call, ino).wrapped <==>
      || s.wrapped
      || (step == ReadFence && call == Ok && Fence in s.disk.dir
          && FileAt(s.disk, Fence).bytes == Counter(0xFFFF_FFFF_FFFF_FFFF))
  {
    if Advancing(step) {
      assert AdvanceStep(s, p, mine, step, call, ino).wrapped == s.wrapped;
    }
  }

  lemma WrappedStep(s: State, stale: Ages, a: Action)
    ensures Step(s, stale, a).wrapped <==> s.wrapped || ReadsMaximum(s, a)
  {
    match a
    case Go(p, call, ino) =>
      if p in s.procs && s.procs[p].alive {
        match s.procs[p].pc
        case Inside(mine, step) => WrappedInside(s, p, mine, step, call, ino);
        case _ => NoEventOutside(s, p, stale, call, ino);
      }
    case _ =>
  }

  /** The mark of a run: it is there, for good, if and only if the run has read the counter at its maximum. */
  lemma {:induction false} WrappedExactly(s: State, stale: Ages, acts: seq<Action>)
    ensures After(s, stale, acts).wrapped <==> s.wrapped || MaximumRead(s, stale, acts)
    decreases |acts|
  {
    if acts != [] {
      WrappedStep(s, stale, acts[0]);
      WrappedExactly(Step(s, stale, acts[0]), stale, acts[1..]);
    }
  }

  lemma {:induction false} FencesKept(s: State, stale: Ages, acts: seq<Action>)
    requires Safe(s) && LiveExclusive(s) && Fenced(s) && SparesOccupants(s, stale, acts)
    requires !After(s, stale, acts).wrapped
    ensures Increasing(After(s, stale, acts).entered) && Fenced(After(s, stale, acts))
    decreases |acts|
  {
    if acts != [] {
      var t := Step(s, stale, acts[0]);
      if t.wrapped { WrappedExactly(t, stale, acts[1..]); }
      StepSafe(s, stale, acts[0]);
      StepLive(s, stale, acts[0]);
      StepFenced(s, stale, acts[0]);
      FencesKept(t, stale, acts[1..]);
    }
  }

  // ----------------------------------------------------- the fence of the one inside

  /** Whoever is inside alive with a fence has the last one handed out. */
  ghost predicate HeldIsLast(s: State) {
    forall p :: p in s.procs && Occupies(s.procs[p]) ==> FenceIsLast(s.entered, s.procs[p].pc)
  }

  predicate FenceIsLast(entered: seq<nat>, pc: Pc)
    requires pc.Inside?
  {
    pc.step.Held? ==> entered != [] && entered[|entered| - 1] == pc.step.fence
  }

  lemma HeldByAdvancing(s: State, p: Pid, mine: Rec, step: InsideStep, call: Call, ino: Ino)
    requires p in s.procs && s.procs[p].pc == Inside(mine, step) && Advancing(step)
    ensures var t := AdvanceStep(s, p, mine, step, call, ino);
            && t.procs[p].pc.Inside? && FenceIsLast(t.entered, t.procs[p].pc)
            && (t.entered == s.entered || step.SyncFence?)
  {}

  lemma HeldByInside(s: State, p: Pid, mine: Rec, step: InsideStep, call: Call, ino: Ino)
    requires p in s.procs && s.procs[p].pc == Inside(mine, step) && FenceIsLast(s.entered, s.procs[p].pc)
    ensures var t := InsideStepOf(s, p, mine, step, call, ino);
            && (t.procs[p].pc.Inside? ==> FenceIsLast(t.entered, t.procs[p].pc))
            && (t.entered == s.entered || step.SyncFence?)
  {
    if Advancing(step) {
      HeldByAdvancing(s, p, mine, step, call, ino);
    }
  }

  lemma GoHeld(s: State, p: Pid, stale: Ages, call: Call, ino: Ino)
    requires Safe(s) && LiveExclusive(s) && HeldIsLast(s) && p in s.procs && s.procs[p].alive
    ensures HeldIsLast(GoStep(s, p, stale, call, ino))
  {
    hide InsideStepOf, StagingStep, AsideStepOf, LiveExclusive, Safe;
    var pc, t := s.procs[p].pc, GoStep(s, p, stale, call, ino);
    Entrances(s, p, stale, call, ino);
    if pc.Inside? {
      HeldByInside(s, p, pc.mine, pc.step, call, ino);
      forall q | q in t.procs && Occupies(t.procs[q]) ensures q == p {
        OneAlive(s, p, q);
      }
    } else {
      NoEventOutside(s, p, stale, call, ino);
    }
  }

  lemma StepHeld(s: State, stale: Ages, a: Action)
    requires Safe(s) && LiveExclusive(s) && HeldIsLast(s)
    ensures HeldIsLast(Step(s, stale, a))
  {
    match a
    case Go(p, call, ino) => if p in s.procs && s.procs[p].alive { GoHeld(s, p, stale, call, ino); }
    case _ =>
  }

  lemma {:induction false} HeldKept(s: State, stale: Ages, acts: seq<Action>)
    requires Safe(s) && LiveExclusive(s) && HeldIsLast(s) && SparesOccupants(s, stale, acts)
    ensures HeldIsLast(After(s, stale, acts))
    decreases |acts|
  {
    hide Safe, LiveExclusive, HeldIsLast, Step;
    if acts != [] {
      StepSafe(s, stale, acts[0]);
      StepLive(s, stale, acts[0]);
      StepHeld(s, stale, acts[0]);
      HeldKept(Step(s, stale, acts[0]), stale, acts[1..]);
    }
  }

  // ------------------------------------------------------------------- main results

  /** With reclaim on at any age: as long as no reclaim catches a live occupancy's record and no
      acquisition reads the counter at its maximum, fences strictly increase in the order they
      are handed out, and the process inside holds the highest. */
  lemma SparingRunsKeepFences(s: State, stale: Ages, acts: seq<Action>)
    requires Init(s) && SparesOccupants(s, stale, acts) && !After(s, stale, acts).wrapped
    ensures Increasing(After(s, stale, acts).entered)
    ensures HeldIsLast(After(s, stale, acts))
  {
    FencesKept(s, stale, acts);
    HeldKept(s, stale, acts);
  }

  /** With reclaim off, fences strictly increase in the order they are handed out, in every run
      in which no acquisition reads the counter at its maximum. */
  lemma FencesIncrease(s: State, stale: Ages, acts: seq<Action>)
    requires Init(s) && Off(stale)
    requires !After(s, stale, acts).wrapped
    ensures Increasing(After(s, stale, acts).entered)
  {
    ReclaimOffSpares(s, stale, acts);
    SparingRunsKeepFences(s, stale, acts);
  }
}
