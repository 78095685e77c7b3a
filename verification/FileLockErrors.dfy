/** Which errors an Acquire can end in when none of its own system calls fails, whatever everybody else does. */
module FileLockErrors {
  import opened FileSystem
  import opened FileLock
  import opened FileLockSafety
  import opened FileLockExclusion
  import opened FileLockFence
  import opened FileLockReclaim
  import opened Options

  predicate Writing(pc: Pc) {
    (pc.Staging? && pc.at.Write?) || (pc.Inside? && pc.step.WriteFence?)
  }

  /** The error a call made at this place ends the Acquire in when it fails, if it does. */
  function ErrorFor(pc: Pc): Option<Outcome> {
    match pc
    case Attempt => Some(ClaimFailed)
    case Staging(_, _, _, _) => Some(ClaimFailed)
    case Inside(_, SyncLink) => Some(ClaimFailed)
    case Inside(_, ReadFence) => Some(FenceFailed)
    case Inside(_, CreateFence(_)) => Some(FenceFailed)
    case Inside(_, WriteFence(_, _, _)) => Some(FenceFailed)
    case Inside(_, SealFence(_, _, _)) => Some(FenceFailed)
    case Inside(_, RenameFence(_, _, _)) => Some(FenceFailed)
    case Inside(_, SyncFence(_, _)) => Some(FenceFailed)
    case Reserve(_, _) => Some(StaleLock)
    case SetAside(_, _, _) => Some(StaleLock)
    case Aside(_, _, tomb, _, StatTomb) => Some(LostAside(tomb))
    case Aside(_, _, tomb, _, Restore) => Some(TwoInside(tomb))
    case Wait => Some(GaveUp)
    case _ => None
  }

  /** No call of `p` fails that would end its Acquire; a write may be cut short and go on, and the reading of a record to
      judge, the look at the one set aside, and every clean-up may fail. */
  predicate NoFault(s: State, a: Action, p: Pid) {
    a.Go? && a.p == p && p in s.procs ==>
      a.call == Ok || (a.call == Short && Writing(s.procs[p].pc)) || ErrorFor(s.procs[p].pc) == None
  }

  ghost predicate NoFaults(s: State, stale: Ages, acts: seq<Action>, p: Pid)
    decreases |acts|
  {
    acts == [] || (NoFault(s, acts[0], p) && NoFaults(Step(s, stale, acts[0]), stale, acts[1..], p))
  }

  /** `p` reads the counter, which is there and is no number of 64 bits. */
  predicate ReadsBadCounter(s: State, a: Action, p: Pid) {
    && a.Go? && a.p == p && p in s.procs && s.procs[p].pc.Inside? && s.procs[p].pc.step.ReadFence?
    && Fence in s.disk.dir
    && !(FileAt(s.disk, Fence).bytes.Counter? && FileAt(s.disk, Fence).bytes.value <= MAX_FENCE)
  }

  /** `p` holds a record set aside while another claim's record is at the lock name. */
  predicate MeetsAnother(s: State, a: Action, p: Pid) {
    && a.Go? && a.p == p && p in s.procs && s.procs[p].pc.Aside?
    && Lock in s.disk.dir && FileAt(s.disk, Lock).bytes.Claim?
    && FileAt(s.disk, Lock).bytes.id != IdOf(s.procs[p].pc.caught)
  }

  ghost predicate SawBadCounter(s: State, stale: Ages, acts: seq<Action>, p: Pid)
    decreases |acts|
  {
    acts != [] && (ReadsBadCounter(s, acts[0], p) || SawBadCounter(Step(s, stale, acts[0]), stale, acts[1..], p))
  }

  ghost predicate MetAnother(s: State, stale: Ages, acts: seq<Action>, p: Pid)
    decreases |acts|
  {
    acts != [] && (MeetsAnother(s, acts[0], p) || MetAnother(Step(s, stale, acts[0]), stale, acts[1..], p))
  }

  /** An ending without a call that failed; `bad` and `met` tell what the process has come across. */
  predicate Blameless(last: Outcome, bad: bool, met: bool) {
    match last
    case NotCalled => true
    case Left => true
    case Killed => true
    case FenceFailed => bad
    case TwoInside(_) => met
    case _ => false
  }

  predicate OnCourse(pc: Pc, bad: bool, met: bool) {
    match pc
    case Idle(last) => Blameless(last, bad, met)
    case Discard(_, after) => !after.ToError?
    case Inside(_, DropFence(_)) => false
    case Inside(_, Undo(last)) => Blameless(last, bad, met)
    case Inside(_, Remove(last)) => Blameless(last, bad, met)
    case _ => true
  }

  lemma StagingOnCourse(s: State, p: Pid, pc: Pc, call: Call, bad: bool, met: bool)
    requires p in s.procs && s.procs[p].pc == pc && pc.Staging? && PcOk(s.disk, pc)
    requires call == Ok || (call == Short && pc.at.Write?)
    ensures p in StagingStep(s, p, pc, call).procs && OnCourse(StagingStep(s, p, pc, call).procs[p].pc, bad, met)
  {}

  lemma AdvanceOnCourse(s: State, p: Pid, mine: Rec, step: InsideStep, call: Call, ino: Ino, bad: bool, met: bool)
    requires p in s.procs && s.procs[p].pc == Inside(mine, step) && PcOk(s.disk, s.procs[p].pc)
    requires Advancing(step) && !step.DropFence? && (call == Ok || (call == Short && step.WriteFence?))
    ensures var t := AdvanceStep(s, p, mine, step, call, ino); p in t.procs && OnCourse(t.procs[p].pc, bad, met)
  {}

  lemma InsideOnCourse(s: State, p: Pid, mine: Rec, step: InsideStep, call: Call, ino: Ino, bad: bool, met: bool)
    requires p in s.procs && s.procs[p].pc == Inside(mine, step) && OnCourse(s.procs[p].pc, bad, met) && !Advancing(step)
    requires call == Ok || ErrorFor(Inside(mine, step)) == None
    requires ReadsBadCounter(s, Go(p, call, ino), p) ==> bad
    ensures var t := InsideStepOf(s, p, mine, step, call, ino); p in t.procs && OnCourse(t.procs[p].pc, bad, met)
  {}

  lemma AsideOnCourse(s: State, p: Pid, pc: Pc, call: Call, ino: Ino, bad: bool, met: bool)
    requires p in s.procs && s.procs[p].pc == pc && pc.Aside? && PcOk(s.disk, pc)
    requires call == Ok || ErrorFor(pc) == None
    requires Lock in s.disk.dir ==> MeetsAnother(s, Go(p, call, ino), p)
    requires MeetsAnother(s, Go(p, call, ino), p) ==> met
    ensures p in AsideStepOf(s, p, pc, call).procs && OnCourse(AsideStepOf(s, p, pc, call).procs[p].pc, bad, met)
  {}

  /** The record at the lock name is not the one a reclaimer has set aside. */
  lemma AnotherAtLock(s: State, stale: Ages, p: Pid, call: Call, ino: Ino)
    requires Safe(s) && Accounted(s, stale) && p in s.procs && s.procs[p].pc.Aside? && Lock in s.disk.dir
    ensures MeetsAnother(s, Go(p, call, ino), p)
  {
    assert DiskOk(s.past[|s.past| - 1], s.serial);
    assert PcListed(s.ledger, stale, p, s.procs[p].pc);
  }

  lemma LoopOnCourse(s: State, p: Pid, stale: Ages, call: Call, ino: Ino, bad: bool, met: bool)
    requires p in s.procs && OnCourse(s.procs[p].pc, bad, met) && (call == Ok || ErrorFor(s.procs[p].pc) == None)
    requires var pc := s.procs[p].pc; !pc.Staging? && !pc.Inside? && !pc.Aside?
    ensures p in GoStep(s, p, stale, call, ino).procs
    ensures OnCourse(GoStep(s, p, stale, call, ino).procs[p].pc, bad, met)
  {
    hide Free, SetLockFate, Rename, Create, Unlink, FileAt, SetAsideStep, ReserveStep;
    match s.procs[p].pc
    case SetAside(judged, seen, tomb) => SetAsideOnCourse(s, p, judged, seen, tomb, call, bad, met);
    case Reserve(judged, seen) => ReserveOnCourse(s, p, judged, seen, call, ino, bad, met);
    case _ =>
  }

  lemma SetAsideOnCourse(s: State, p: Pid, judged: Rec, seen: int, tomb: nat, call: Call, bad: bool, met: bool)
    requires p in s.procs && s.procs[p].pc == SetAside(judged, seen, tomb) && call == Ok
    ensures var t := SetAsideStep(s, p, judged, seen, tomb, call); p in t.procs && OnCourse(t.procs[p].pc, bad, met)
  {}

  lemma ReserveOnCourse(s: State, p: Pid, judged: Rec, seen: int, call: Call, ino: Ino, bad: bool, met: bool)
    requires p in s.procs && s.procs[p].pc == Reserve(judged, seen) && call == Ok
    ensures var t := ReserveStep(s, p, judged, seen, call, ino); p in t.procs && OnCourse(t.procs[p].pc, bad, met)
  {}

  lemma OwnStepOnCourse(s: State, stale: Ages, p: Pid, call: Call, ino: Ino, bad: bool, met: bool)
    requires Safe(s) && Accounted(s, stale) && p in s.procs && OnCourse(s.procs[p].pc, bad, met)
    requires NoFault(s, Go(p, call, ino), p)
    ensures p in GoStep(s, p, stale, call, ino).procs
    ensures var a := Go(p, call, ino);
            OnCourse(GoStep(s, p, stale, call, ino).procs[p].pc, bad || ReadsBadCounter(s, a, p), met || MeetsAnother(s, a, p))
  {
    hide StagingStep, AsideStepOf, InsideStepOf, AdvanceStep, Accounted, OnCourse, PcOk;
    var pc := s.procs[p].pc;
    var now, also := bad || ReadsBadCounter(s, Go(p, call, ino), p), met || MeetsAnother(s, Go(p, call, ino), p);
    assert PcOk(s.disk, pc);
    MoreIsFine(pc, bad, met, now, also);
    match pc
    case Staging(_, _, _, _) => StagingOnCourse(s, p, pc, call, now, also);
    case Inside(mine, step) =>
      if Advancing(step) {
        NotDropping(mine, step, now, also);
        AdvanceOnCourse(s, p, mine, step, call, ino, now, also);
        InsideIsAdvance(s, p, mine, step, call, ino);
      } else {
        InsideOnCourse(s, p, mine, step, call, ino, now, also);
      }
    case Aside(_, _, _, _, _) =>
      if Lock in s.disk.dir { AnotherAtLock(s, stale, p, call, ino); }
      AsideOnCourse(s, p, pc, call, ino, now, also);
    case _ => LoopOnCourse(s, p, stale, call, ino, now, also);
  }

  lemma NotDropping(mine: Rec, step: InsideStep, bad: bool, met: bool)
    requires OnCourse(Inside(mine, step), bad, met)
    ensures !step.DropFence?
  {}

  lemma InsideIsAdvance(s: State, p: Pid, mine: Rec, step: InsideStep, call: Call, ino: Ino)
    requires Advancing(step)
    ensures InsideStepOf(s, p, mine, step, call, ino) == AdvanceStep(s, p, mine, step, call, ino)
  {}

  /** What others do leaves a process where it is, or kills it. */
  lemma OthersOnCourse(s: State, stale: Ages, a: Action, p: Pid, bad: bool, met: bool)
    requires p in s.procs && OnCourse(s.procs[p].pc, bad, met) && !(a.Go? && a.p == p)
    ensures p in Step(s, stale, a).procs && OnCourse(Step(s, stale, a).procs[p].pc, bad, met)
  {
    hide GoStep;
    match a
    case Go(q, call, ino) => if q in s.procs && s.procs[q].alive { Entrances(s, q, stale, call, ino); }
    case _ =>
  }

  lemma StepOnCourse(s: State, stale: Ages, a: Action, p: Pid, bad: bool, met: bool)
    requires Safe(s) && Accounted(s, stale) && p in s.procs && OnCourse(s.procs[p].pc, bad, met) && NoFault(s, a, p)
    ensures p in Step(s, stale, a).procs
    ensures OnCourse(Step(s, stale, a).procs[p].pc, bad || ReadsBadCounter(s, a, p), met || MeetsAnother(s, a, p))
  {
    hide GoStep, Safe, Accounted, ReadsBadCounter, MeetsAnother;
    if a.Go? && a.p == p {
      OwnStepOnCourse(s, stale, p, a.call, a.ino, bad, met);
      MoreIsFine(s.procs[p].pc, bad, met, bad || ReadsBadCounter(s, a, p), met || MeetsAnother(s, a, p));
    } else {
      OthersOnCourse(s, stale, a, p, bad, met);
      MoreIsFine(Step(s, stale, a).procs[p].pc, bad, met, bad || ReadsBadCounter(s, a, p), met || MeetsAnother(s, a, p));
    }
  }

  lemma MoreIsFine(pc: Pc, bad: bool, met: bool, now: bool, also: bool)
    requires OnCourse(pc, bad, met) && (bad ==> now) && (met ==> also)
    ensures OnCourse(pc, now, also)
  {}

  lemma {:induction false} RunOnCourse(s: State, stale: Ages, acts: seq<Action>, p: Pid, bad: bool, met: bool)
    requires Safe(s) && Accounted(s, stale) && PastListed(s) && p in s.procs && OnCourse(s.procs[p].pc, bad, met)
    requires NoFaults(s, stale, acts, p)
    ensures var t := After(s, stale, acts);
            && p in t.procs
            && OnCourse(t.procs[p].pc, bad || SawBadCounter(s, stale, acts, p), met || MetAnother(s, stale, acts, p))
    decreases |acts|
  {
    hide Safe, Accounted, PastListed, OnCourse, Step, NoFault, ReadsBadCounter, MeetsAnother;
    if acts != [] {
      var a := acts[0];
      StepSafe(s, stale, a);
      StepKeepsAccount(s, stale, a);
      StepOnCourse(s, stale, a, p, bad, met);
      RunOnCourse(Step(s, stale, a), stale, acts[1..], p, bad || ReadsBadCounter(s, a, p), met || MeetsAnother(s, a, p));
    }
  }

  /**
    From any reachable state: an Acquire that begins, or begins its loop again, and none of whose own calls that matter
    fails, does not end in an error, whatever everybody else does in between, except when the counter it read was no
    number of 64 bits, or when it had set a record aside while another claim was at the lock name.
  */
  lemma NoFaultNoError(s: State, stale: Ages, before: seq<Action>, later: seq<Action>, p: Pid)
    requires Init(s)
    requires var t := After(s, stale, before); p in t.procs && t.procs[p].pc == Attempt && NoFaults(t, stale, later, p)
    ensures var t := After(s, stale, before);
            var u := After(t, stale, later);
            && p in u.procs
            && (u.procs[p].pc.Idle? ==>
                  match u.procs[p].pc.last
                  case NotCalled => true
                  case Left => true
                  case Killed => true
                  case FenceFailed => SawBadCounter(t, stale, later, p)
                  case TwoInside(_) => MetAnother(t, stale, later, p)
                  case ClaimFailed => false
                  case StaleLock => false
                  case LostAside(_) => false
                  case GaveUp => false)
  {
    hide Safe, Accounted, PastListed, Step;
    InitAccounted(s, stale);
    EveryRunAccounted(s, stale, before);
    RunOnCourse(After(s, stale, before), stale, later, p, false, false);
  }

  // ---------------------------------------------------------- and a call that matters

  /** On the way out with this error, or out already. */
  predicate EndsIn(pc: Pc, error: Outcome) {
    match pc
    case Idle(last) => last == error || last == Killed
    case Discard(_, ToError(e)) => e == error
    case Inside(_, DropFence(_)) => error == FenceFailed
    case Inside(_, Undo(last)) => last == error
    case Inside(_, Remove(last)) => last == error
    case _ => false
  }

  lemma StagingFails(s: State, p: Pid, pc: Pc)
    requires p in s.procs && s.procs[p].pc == pc && pc.Staging?
    ensures p in StagingStep(s, p, pc, Fail).procs && EndsIn(StagingStep(s, p, pc, Fail).procs[p].pc, ClaimFailed)
  {}

  lemma InsideFails(s: State, p: Pid, mine: Rec, step: InsideStep, ino: Ino)
    requires p in s.procs && s.procs[p].pc == Inside(mine, step) && ErrorFor(Inside(mine, step)).Some?
    ensures var t := InsideStepOf(s, p, mine, step, Fail, ino);
            p in t.procs && EndsIn(t.procs[p].pc, ErrorFor(Inside(mine, step)).value)
  {
    if Advancing(step) {
      assert EndsIn(AdvanceStep(s, p, mine, step, Fail, ino).procs[p].pc, FenceFailed);
    }
  }

  lemma AsideFails(s: State, p: Pid, pc: Pc)
    requires p in s.procs && s.procs[p].pc == pc && pc.Aside? && ErrorFor(pc).Some?
    ensures p in AsideStepOf(s, p, pc, Fail).procs && EndsIn(AsideStepOf(s, p, pc, Fail).procs[p].pc, ErrorFor(pc).value)
  {}

  lemma CallFails(s: State, stale: Ages, p: Pid, ino: Ino)
    requires p in s.procs && ErrorFor(s.procs[p].pc).Some?
    ensures var t := GoStep(s, p, stale, Fail, ino);
            p in t.procs && EndsIn(t.procs[p].pc, ErrorFor(s.procs[p].pc).value)
  {
    hide StagingStep, AsideStepOf, InsideStepOf;
    match s.procs[p].pc
    case Staging(_, _, _, _) => StagingFails(s, p, s.procs[p].pc);
    case Inside(mine, step) => InsideFails(s, p, mine, step, ino);
    case Aside(_, _, _, _, _) => AsideFails(s, p, s.procs[p].pc);
    case _ =>
  }

  lemma InsideStillEnds(s: State, p: Pid, mine: Rec, step: InsideStep, call: Call, ino: Ino, error: Outcome)
    requires p in s.procs && EndsIn(Inside(mine, step), error)
    ensures var t := InsideStepOf(s, p, mine, step, call, ino); p in t.procs && EndsIn(t.procs[p].pc, error)
  {}

  lemma StillEnds(s: State, stale: Ages, a: Action, p: Pid, error: Outcome)
    requires p in s.procs && EndsIn(s.procs[p].pc, error) && a != Start(p)
    ensures p in Step(s, stale, a).procs && EndsIn(Step(s, stale, a).procs[p].pc, error)
  {
    hide InsideStepOf;
    match a
    case Go(q, call, ino) =>
      if q in s.procs && s.procs[q].alive {
        if q == p {
          if s.procs[p].pc.Inside? { InsideStillEnds(s, p, s.procs[p].pc.mine, s.procs[p].pc.step, call, ino, error); }
        } else {
          Entrances(s, q, stale, call, ino);
          hide GoStep;
        }
      }
    case _ =>
  }

  /** A call that matters and fails decides the error: the Acquire ends in it, or its process is killed, whatever happens
      after, until the process calls Acquire again. */
  lemma FailedCallIsReported(s: State, stale: Ages, p: Pid, ino: Ino, later: seq<Action>)
    requires p in s.procs && s.procs[p].alive && ErrorFor(s.procs[p].pc).Some? && Start(p) !in later
    ensures var u := After(Step(s, stale, Go(p, Fail, ino)), stale, later);
            p in u.procs && EndsIn(u.procs[p].pc, ErrorFor(s.procs[p].pc).value)
  {
    CallFails(s, stale, p, ino);
    EndsLater(Step(s, stale, Go(p, Fail, ino)), stale, later, p, ErrorFor(s.procs[p].pc).value);
  }

  lemma {:induction false} EndsLater(s: State, stale: Ages, acts: seq<Action>, p: Pid, error: Outcome)
    requires p in s.procs && EndsIn(s.procs[p].pc, error) && Start(p) !in acts
    ensures p in After(s, stale, acts).procs && EndsIn(After(s, stale, acts).procs[p].pc, error)
    decreases |acts|
  {
    hide Step, EndsIn;
    if acts != [] {
      StillEnds(s, stale, acts[0], p, error);
      EndsLater(Step(s, stale, acts[0]), stale, acts[1..], p, error);
    }
  }
}
