/**
  Acquire and release as they are written, against the state machine. A process makes one system call at a time and
  sees nothing but its reply; before each call everybody else may do anything. Every method below is proved to make
  exactly the calls the machine makes and to end where the machine ends, so that what holds of all runs of the
  machine holds of this code.
*/
module FileLockCode {
  import opened FileSystem
  import opened FileLock
  import opened FileLockExclusion
  import opened FileLockFence
  import opened FileLockProgress
  import opened FileLockSafety
  import opened Options

  // -------------------------------------------------------------- system calls

  datatype Purpose = ForClaim | ForFence | ForTomb

  datatype SysCall =
    | CreateTemp(purpose: Purpose)
    | WriteAll(ino: Ino, bytes: Bytes)
    | Flush(ino: Ino, bytes: Bytes)     // fsync, close and chmod of what was written
    | StatName(name: Name)
    | LinkName(from: Name, to: Name)
    | RemoveName(name: Name)
    | RenameName(from: Name, to: Name)
    | ReadName(name: Name)              // open, fstat and read through the handle
    | Compare(name: Name, rec: Rec)     // the same, against a record
    | SyncDir
    | Sleep
    | Nothing

  datatype Reply =
    | Done
    | Failed
    | Partly
    | Missing
    | Exists
    | Created(serial: nat, ino: Ino)
    | Found(rec: Rec)

  function TempName(purpose: Purpose, serial: nat): Name {
    match purpose
    case ForClaim => ClaimTmp(serial)
    case ForFence => FenceTmp(serial)
    case ForTomb => Tomb(serial)
  }

  /** What a call does to the directory. */
  function Kernel(d: Disk, c: SysCall, call: Call, serial: nat, ino: Ino): Disk {
    if call == Fail then d
    else if call == Short then if c.WriteAll? then Put(d, c.ino, File(Partial, false)) else d
    else
      match c
      case CreateTemp(purpose) => if Free(d, ino) then Create(d, TempName(purpose, serial), ino) else d
      case WriteAll(i, bytes) => Put(d, i, File(bytes, false))
      case Flush(i, bytes) => Put(d, i, File(bytes, true))
      case LinkName(from, to) => if from in d.dir && to !in d.dir then Link(d, from, to) else d
      case RemoveName(name) => Unlink(d, name)
      case RenameName(from, to) => if from in d.dir then Rename(d, from, to) else d
      case _ => d
  }

  /** What a call tells its caller. */
  function ReplyTo(d: Disk, c: SysCall, call: Call, serial: nat, ino: Ino): Reply {
    if call == Fail then Failed
    else if call == Short then if c.WriteAll? then Partly else Failed
    else
      match c
      case CreateTemp(_) => Created(serial, ino)
      case StatName(name) => if name in d.dir then Found(Rec(d.dir[name], FileAt(d, name).bytes)) else Missing
      case LinkName(from, to) => if from !in d.dir then Missing else if to in d.dir then Exists else Done
      case RenameName(from, _) => if from in d.dir then Done else Missing
      case ReadName(name) => if name in d.dir then Found(Rec(d.dir[name], FileAt(d, name).bytes)) else Missing
      case Compare(name, rec) => if Holds(d, name, rec) then Done else Missing
      case _ => Done
  }

  /** The replies there are to each call. */
  predicate Answer(c: SysCall, r: Reply) {
    match c
    case CreateTemp(_) => r.Created? || r.Failed?
    case WriteAll(_, _) => r.Done? || r.Partly? || r.Failed?
    case StatName(_) => r.Found? || r.Missing? || r.Failed?
    case ReadName(_) => r.Found? || r.Missing? || r.Failed?
    case LinkName(_, _) => r.Done? || r.Missing? || r.Exists? || r.Failed?
    case RenameName(_, _) => r.Done? || r.Missing? || r.Failed?
    case Compare(_, _) => r.Done? || r.Missing? || r.Failed?
    case _ => r.Done? || r.Failed?
  }

  lemma ReplyAnswers(d: Disk, c: SysCall, call: Call, serial: nat, ino: Ino)
    ensures Answer(c, ReplyTo(d, c, call, serial, ino))
  {}

  /** A process at this place makes a call on a name of its own, which nobody else can have taken away. */
  predicate OnOwnName(pc: Pc) {
    || (pc.Staging? && (pc.at.Stat? || pc.at.LinkUp?))
    || (pc.Inside? && pc.step.RenameFence?)
    || (pc.Aside? && (pc.move.StatTomb? || pc.move.Restore?))
  }

  lemma OwnNameThere(d: Disk, pc: Pc, stale: int, call: Call, serial: nat, ino: Ino)
    requires PcOk(d, pc) && OnOwnName(pc)
    ensures !ReplyTo(d, NextCall(pc, stale), call, serial, ino).Missing?
  {}

  /** The call a process makes next. */
  function NextCall(pc: Pc, stale: int): SysCall {
    match pc
    case Idle(_) => Nothing
    case Attempt => CreateTemp(ForClaim)
    case Staging(tmp, ino, bytes, at) =>
      (match at
       case Write => WriteAll(ino, bytes)
       case Seal => Flush(ino, bytes)
       case Stat => StatName(ClaimTmp(tmp))
       case LinkUp(_) => LinkName(ClaimTmp(tmp), Lock))
    case Discard(name, _) => RemoveName(name)
    case Inside(mine, step) => NextInside(mine, step)
    case Judge => if stale <= 0 then Nothing else ReadName(Lock)
    case Reserve(_, _) => CreateTemp(ForTomb)
    case SetAside(_, _, tomb) => RenameName(Lock, Tomb(tomb))
    case Aside(judged, _, tomb, _, move) =>
      (match move
       case StatTomb => StatName(Tomb(tomb))
       case CheckTomb => Compare(Tomb(tomb), judged)
       case RemoveJudged => RemoveName(Tomb(tomb))
       case Restore => LinkName(Tomb(tomb), Lock))
    case Wait => Sleep
  }

  function NextInside(mine: Rec, step: InsideStep): SysCall {
    match step
    case DropTmp(tmp) => RemoveName(ClaimTmp(tmp))
    case SyncLink => SyncDir
    case ReadFence => ReadName(Fence)
    case CreateFence(_) => CreateTemp(ForFence)
    case WriteFence(next, _, ino) => WriteAll(ino, Counter(next))
    case SealFence(next, _, ino) => Flush(ino, Counter(next))
    case RenameFence(_, tmp, _) => RenameName(FenceTmp(tmp), Fence)
    case SyncFence(_, _) => SyncDir
    case DropFence(tmp) => RemoveName(FenceTmp(tmp))
    case Held(_) => Nothing
    case Undo(_) => Compare(Lock, mine)
    case Remove(_) => RemoveName(Lock)
  }

  /** Where a process is after a reply; `caught` is the record that a rename has moved, which no reply tells. */
  function PcAfter(pc: Pc, r: Reply, now: int, stale: int, caught: Rec): Pc {
    match pc
    case Idle(_) => pc
    case Attempt =>
      if r.Created? then Staging(r.serial, r.ino, Claim(r.serial, now), Write) else Idle(ClaimFailed)
    case Staging(tmp, _, bytes, at) =>
      var failed := Discard(ClaimTmp(tmp), ToError(ClaimFailed));
      (match at
       case Write => if r.Done? then pc.(at := Seal) else if r.Partly? then pc else failed
       case Seal => if r.Done? then pc.(at := Stat) else failed
       case Stat => if r.Found? then pc.(at := LinkUp(Rec(r.rec.ino, bytes))) else failed
       case LinkUp(mine) =>
         if r.Done? then Inside(mine, DropTmp(tmp))
         else if r.Exists? then Discard(ClaimTmp(tmp), ToReclaim)
         else failed)
    case Discard(_, after) =>
      (match after
       case ToReclaim => Judge
       case ToWait => Wait
       case ToError(e) => Idle(e))
    case Inside(mine, step) => InsideAfter(mine, step, r)
    case Judge =>
      if stale > 0 && r.Found? && r.rec.bytes.Claim? && now - r.rec.bytes.since > stale then Reserve(r.rec, now)
      else Wait
    case Reserve(judged, seen) => if r.Created? then SetAside(judged, seen, r.serial) else Idle(StaleLock)
    case SetAside(judged, seen, tomb) =>
      if r.Done? then Aside(judged, seen, tomb, caught, StatTomb)
      else Discard(Tomb(tomb), if r.Missing? then ToWait else ToError(StaleLock))
    case Aside(_, _, tomb, _, move) =>
      (match move
       case StatTomb => if r.Found? then pc.(move := CheckTomb) else Idle(LostAside(tomb))
       case CheckTomb => if r.Done? then pc.(move := RemoveJudged) else pc.(move := Restore)
       case RemoveJudged => Wait
       case Restore => if r.Done? then Discard(Tomb(tomb), ToWait) else Idle(TwoInside(tomb)))
    case Wait => if r.Done? then Attempt else Idle(GaveUp)
  }

  function InsideAfter(mine: Rec, step: InsideStep, r: Reply): Pc {
    var failed := Inside(mine, Undo(FenceFailed));
    match step
    case DropTmp(_) => Inside(mine, SyncLink)
    case SyncLink => if r.Done? then Inside(mine, ReadFence) else Inside(mine, Undo(ClaimFailed))
    case ReadFence =>
      if r.Missing? then Inside(mine, CreateFence(1))
      else if r.Found? && r.rec.bytes.Counter? && r.rec.bytes.value <= MAX_FENCE
      then Inside(mine, CreateFence(Successor(r.rec.bytes.value)))
      else failed
    case CreateFence(next) => if r.Created? then Inside(mine, WriteFence(next, r.serial, r.ino)) else failed
    case WriteFence(next, tmp, ino) =>
      if r.Done? then Inside(mine, SealFence(next, tmp, ino))
      else if r.Partly? then Inside(mine, step) else Inside(mine, DropFence(tmp))
    case SealFence(next, tmp, ino) =>
      if r.Done? then Inside(mine, RenameFence(next, tmp, ino)) else Inside(mine, DropFence(tmp))
    case RenameFence(next, tmp, _) =>
      if r.Done? then Inside(mine, SyncFence(next, tmp)) else Inside(mine, DropFence(tmp))
    case SyncFence(next, tmp) => if r.Done? then Inside(mine, Held(next)) else Inside(mine, DropFence(tmp))
    case DropFence(_) => failed
    case Held(_) => Inside(mine, step)
    case Undo(last) => if r.Done? then Inside(mine, Remove(last)) else Idle(last)
    case Remove(last) => Idle(last)
  }

  /** The record a rename of the lock name moves. */
  function CaughtNow(d: Disk): Rec {
    if Lock in d.dir then Rec(d.dir[Lock], FileAt(d, Lock).bytes) else Rec(0, Empty)
  }

  /** One step of process p is one system call: its effect on the directory, and the next place by its reply. */
  ghost predicate OneCall(s: State, t: State, p: Pid, stale: Ages, call: Call, ino: Ino)
    requires p in s.procs
  {
    var c := NextCall(s.procs[p].pc, stale(p));
    && t.disk == Kernel(s.disk, c, call, s.serial, ino)
    && t.procs == s.procs[p := Proc(true, PcAfter(s.procs[p].pc, ReplyTo(s.disk, c, call, s.serial, ino), s.now, stale(p),
                                                  CaughtNow(s.disk)))]
  }

  lemma StageWriteIsOneCall(s: State, p: Pid, stale: Ages, call: Call, ino: Ino)
    requires p in s.procs && s.procs[p].alive && s.procs[p].pc.Staging? && (s.procs[p].pc.at.Write? || s.procs[p].pc.at.Seal?)
    ensures OneCall(s, StagingStep(s, p, s.procs[p].pc, call), p, stale, call, ino)
  {}

  lemma StageLinkIsOneCall(s: State, p: Pid, stale: Ages, call: Call, ino: Ino)
    requires p in s.procs && s.procs[p].alive && s.procs[p].pc.Staging? && (s.procs[p].pc.at.Stat? || s.procs[p].pc.at.LinkUp?)
    ensures OneCall(s, StagingStep(s, p, s.procs[p].pc, call), p, stale, call, ino)
  {}

  lemma StagingIsOneCall(s: State, p: Pid, stale: Ages, call: Call, ino: Ino)
    requires p in s.procs && s.procs[p].alive && s.procs[p].pc.Staging?
    ensures OneCall(s, StagingStep(s, p, s.procs[p].pc, call), p, stale, call, ino)
  {
    hide OneCall, StagingStep;
    if s.procs[p].pc.at.Write? || s.procs[p].pc.at.Seal? {
      StageWriteIsOneCall(s, p, stale, call, ino);
    } else {
      StageLinkIsOneCall(s, p, stale, call, ino);
    }
  }

  lemma AdvanceIsOneCall(s: State, p: Pid, mine: Rec, step: InsideStep, stale: Ages, call: Call, ino: Ino)
    requires p in s.procs && s.procs[p] == Proc(true, Inside(mine, step)) && Advancing(step)
    requires step.CreateFence? && call == Ok ==> Free(s.disk, ino)
    ensures OneCall(s, AdvanceStep(s, p, mine, step, call, ino), p, stale, call, ino)
  {}

  lemma EnteringIsOneCall(s: State, p: Pid, mine: Rec, step: InsideStep, stale: Ages, call: Call, ino: Ino)
    requires p in s.procs && s.procs[p] == Proc(true, Inside(mine, step))
    requires step.DropTmp? || step.SyncLink? || step.ReadFence?
    ensures OneCall(s, InsideStepOf(s, p, mine, step, call, ino), p, stale, call, ino)
  {}

  lemma LeavingIsOneCall(s: State, p: Pid, mine: Rec, step: InsideStep, stale: Ages, call: Call, ino: Ino)
    requires p in s.procs && s.procs[p] == Proc(true, Inside(mine, step))
    requires step.Held? || step.Undo? || step.Remove?
    ensures OneCall(s, InsideStepOf(s, p, mine, step, call, ino), p, stale, call, ino)
  {}

  lemma InsideIsOneCall(s: State, p: Pid, mine: Rec, step: InsideStep, stale: Ages, call: Call, ino: Ino)
    requires p in s.procs && s.procs[p] == Proc(true, Inside(mine, step))
    requires step.CreateFence? && call == Ok ==> Free(s.disk, ino)
    ensures OneCall(s, InsideStepOf(s, p, mine, step, call, ino), p, stale, call, ino)
  {
    hide OneCall, AdvanceStep;
    if Advancing(step) {
      AdvanceIsOneCall(s, p, mine, step, stale, call, ino);
    } else if step.Held? || step.Undo? || step.Remove? {
      LeavingIsOneCall(s, p, mine, step, stale, call, ino);
    } else {
      EnteringIsOneCall(s, p, mine, step, stale, call, ino);
    }
  }

  lemma StatTombIsOneCall(s: State, p: Pid, stale: Ages, call: Call, ino: Ino)
    requires p in s.procs && s.procs[p].alive && s.procs[p].pc.Aside? && s.procs[p].pc.move.StatTomb?
    ensures OneCall(s, AsideStepOf(s, p, s.procs[p].pc, call), p, stale, call, ino)
  {}

  lemma CheckTombIsOneCall(s: State, p: Pid, stale: Ages, call: Call, ino: Ino)
    requires p in s.procs && s.procs[p].alive && s.procs[p].pc.Aside? && s.procs[p].pc.move.CheckTomb?
    ensures OneCall(s, AsideStepOf(s, p, s.procs[p].pc, call), p, stale, call, ino)
  {}

  lemma RemoveJudgedIsOneCall(s: State, p: Pid, stale: Ages, call: Call, ino: Ino)
    requires p in s.procs && s.procs[p].alive && s.procs[p].pc.Aside? && s.procs[p].pc.move.RemoveJudged?
    ensures OneCall(s, AsideStepOf(s, p, s.procs[p].pc, call), p, stale, call, ino)
  {}

  lemma RestoreIsOneCall(s: State, p: Pid, stale: Ages, call: Call, ino: Ino)
    requires p in s.procs && s.procs[p].alive && s.procs[p].pc.Aside? && s.procs[p].pc.move.Restore?
    ensures OneCall(s, AsideStepOf(s, p, s.procs[p].pc, call), p, stale, call, ino)
  {}

  lemma AsideIsOneCall(s: State, p: Pid, stale: Ages, call: Call, ino: Ino)
    requires p in s.procs && s.procs[p].alive && s.procs[p].pc.Aside?
    ensures OneCall(s, AsideStepOf(s, p, s.procs[p].pc, call), p, stale, call, ino)
  {
    hide OneCall, AsideStepOf;
    match s.procs[p].pc.move
    case StatTomb => StatTombIsOneCall(s, p, stale, call, ino);
    case CheckTomb => CheckTombIsOneCall(s, p, stale, call, ino);
    case RemoveJudged => RemoveJudgedIsOneCall(s, p, stale, call, ino);
    case Restore => RestoreIsOneCall(s, p, stale, call, ino);
  }

  lemma JudgeIsOneCall(s: State, p: Pid, stale: Ages, call: Call, ino: Ino)
    requires p in s.procs && s.procs[p].alive && s.procs[p].pc.Judge?
    ensures OneCall(s, GoStep(s, p, stale, call, ino), p, stale, call, ino)
  {}

  lemma ReserveIsOneCall(s: State, p: Pid, stale: Ages, call: Call, ino: Ino)
    requires p in s.procs && s.procs[p].alive && s.procs[p].pc.Reserve?
    requires call == Ok ==> Free(s.disk, ino)
    ensures OneCall(s, GoStep(s, p, stale, call, ino), p, stale, call, ino)
  {}

  lemma SetAsideIsOneCall(s: State, p: Pid, stale: Ages, call: Call, ino: Ino)
    requires p in s.procs && s.procs[p].alive && s.procs[p].pc.SetAside?
    ensures OneCall(s, GoStep(s, p, stale, call, ino), p, stale, call, ino)
  {}

  lemma LoopIsOneCall(s: State, p: Pid, stale: Ages, call: Call, ino: Ino)
    requires p in s.procs && s.procs[p].alive
    requires var pc := s.procs[p].pc; pc.Idle? || pc.Attempt? || pc.Discard? || pc.Wait?
    requires s.procs[p].pc.Attempt? && call == Ok ==> Free(s.disk, ino)
    ensures OneCall(s, GoStep(s, p, stale, call, ino), p, stale, call, ino)
  {}

  /** Each step of the machine is one system call: no step touches the directory, or knows of it, in any other way. */
  lemma StepIsOneCall(s: State, p: Pid, stale: Ages, call: Call, ino: Ino)
    requires p in s.procs && s.procs[p].alive
    requires NextCall(s.procs[p].pc, stale(p)).CreateTemp? && call == Ok ==> Free(s.disk, ino)
    ensures OneCall(s, GoStep(s, p, stale, call, ino), p, stale, call, ino)
  {
    hide OneCall, StagingStep, InsideStepOf, AsideStepOf, AttemptStep, DiscardStep, JudgeStep, ReserveStep, SetAsideStep;
    match s.procs[p].pc
    case Staging(_, _, _, _) => StagingIsOneCall(s, p, stale, call, ino);
    case Inside(mine, step) => InsideIsOneCall(s, p, mine, step, stale, call, ino);
    case Aside(_, _, _, _, _) => AsideIsOneCall(s, p, stale, call, ino);
    case Judge => JudgeIsOneCall(s, p, stale, call, ino);
    case Reserve(_, _) => ReserveIsOneCall(s, p, stale, call, ino);
    case SetAside(_, _, _) => SetAsideIsOneCall(s, p, stale, call, ino);
    case _ => LoopIsOneCall(s, p, stale, call, ino);
  }

  // ----------------------------------------------------------------- the world

  lemma ReachesOn(s: State, stale: Ages, t: State, u: State)
    requires Reaches(s, stale, t) && Reaches(t, stale, u)
    ensures Reaches(s, stale, u)
  {
    var a :| After(s, stale, a) == t;
    var b :| After(t, stale, b) == u;
    AfterConcat(s, stale, a, b);
    assert After(s, stale, a + b) == u;
  }

  lemma ReachesGo(s: State, stale: Ages, p: Pid, call: Call, ino: Ino)
    requires p in s.procs && s.procs[p].alive
    ensures Reaches(s, stale, GoStep(s, p, stale, call, ino))
  {
    ReachesItself(s, stale);
    ReachesStep(s, stale, s, Go(p, call, ino));
  }

  lemma ReachedOk(s: State, stale: Ages, t: State, p: Pid)
    requires Safe(s) && Reaches(s, stale, t) && p in t.procs
    ensures PcOk(t.disk, t.procs[p].pc)
  {
    var acts :| After(s, stale, acts) == t;
    EveryRunSafe(s, stale, acts);
  }

  /** How a call turns out: as the script says, but a new file needs a free inode, and patience ends. */
  predicate Denied(c: SysCall, call: Call, d: Disk, ino: Ino, shorts: nat, polls: nat) {
    || (c.CreateTemp? && !Free(d, ino))
    || (c.Sleep? && polls == 0)
    || (c.WriteAll? && call == Short && shorts == 0)
  }

  function Granted(c: SysCall, call: Call, d: Disk, ino: Ino, shorts: nat, polls: nat): Call {
    if Denied(c, call, d, ino, shorts, polls) then Fail else call
  }

  lemma Replied(origin: State, stale: Ages, s: State, p: Pid, pc: Pc, call: Call, ino: Ino)
    requires Reaches(origin, stale, s) && p in s.procs && s.procs[p].pc == pc
    ensures var c := NextCall(pc, stale(p));
            var r := ReplyTo(s.disk, c, call, s.serial, ino);
            Answer(c, r) && (Safe(origin) && OnOwnName(pc) ==> !r.Missing?)
  {
    hide NextCall, Reaches, Safe, PcOk, OnOwnName, Answer, ReplyTo;
    ReplyAnswers(s.disk, NextCall(pc, stale(p)), call, s.serial, ino);
    if Safe(origin) && OnOwnName(pc) {
      ReachedOk(origin, stale, s, p);
      OwnNameThere(s.disk, pc, stale(p), call, s.serial, ino);
    }
  }

  /** The state, and a script: what everybody else does before the k-th call seen here, and how that call turns out. */
  class World {
    const stale: Ages
    const meanwhile: (nat, State) -> State
    const result: nat -> Call
    const inode: nat -> Ino
    ghost const origin: State
    var s: State
    var time: nat
    /** How many more writes may be cut short, and how many more polls there are until the context is done. */
    var shorts: nat
    var polls: nat
    /** How many calls of the process have failed. */
    var faults: nat
    /** The clock when the last call came back, and what it would have caught. */
    var now: int
    ghost var caught: Rec

    /** Others run the machine too, and leave the place of p alone. */
    ghost predicate Fair(p: Pid) {
      forall k: nat, t: State :: p in t.procs && t.procs[p].alive ==> Undisturbed(p, t, meanwhile(k, t))
    }

    ghost predicate Undisturbed(p: Pid, t: State, u: State)
      requires p in t.procs
    {
      Reaches(t, stale, u) && p in u.procs && u.procs[p] == t.procs[p]
    }

    /** Process p is at this place, after some run of the machine from the state it all began in. */
    ghost predicate Ready(p: Pid, pc: Pc)
      reads this
    {
      Fair(p) && Reaches(origin, stale, s) && p in s.procs && s.procs[p] == Proc(true, pc)
    }

    constructor (stale: Ages, meanwhile: (nat, State) -> State, result: nat -> Call, inode: nat -> Ino, s: State,
                 shorts: nat, polls: nat)
      ensures this.stale == stale && this.meanwhile == meanwhile && this.result == result && this.inode == inode
      ensures this.s == origin == s && Reaches(origin, stale, s)
    {
      this.stale, this.meanwhile, this.result, this.inode := stale, meanwhile, result, inode;
      this.s, this.origin, this.time, this.shorts, this.polls := s, s, 0, shorts, polls;
      this.faults, this.now, this.caught := 0, 0, Rec(0, Empty);
      new;
      ReachesItself(s, stale);
    }

    /** Process p, which is not at work, calls Acquire. */
    method Begin(p: Pid)
      requires Fair(p) && Reaches(origin, stale, s)
      requires p in s.procs ==> s.procs[p].alive && s.procs[p].pc.Idle?
      modifies this
      ensures Ready(p, Attempt) && faults == old(faults)
    {
      ReachesStep(origin, stale, s, Start(p));
      s := Move(s, p, Attempt);
    }

    /** The check that a release begins with. */
    method BeginRelease(p: Pid, mine: Rec, ghost fence: nat) returns (same: bool)
      requires Ready(p, Inside(mine, Held(fence)))
      modifies this
      ensures Ready(p, if same then Inside(mine, Remove(Left)) else Idle(Left))
    {
      ghost var before := s;
      s := meanwhile(time, s);
      var call := result(time);
      time := time + 1;
      assert Undisturbed(p, before, s);
      ReachesOn(origin, stale, before, s);
      same := ReplyTo(s.disk, Compare(Lock, mine), call, s.serial, 0) == Done;
      ReachesStep(origin, stale, s, Action.Release(p, call));
      s := CheckOwn(s, p, mine, Left, call);
    }

    /** One system call of process p: all it learns is the reply and the time. */
    method Do(p: Pid, c: SysCall, ghost pc: Pc) returns (r: Reply)
      requires Ready(p, pc) && c == NextCall(pc, stale(p))
      modifies this
      ensures Ready(p, PcAfter(pc, r, now, stale(p), caught))
      ensures if r.Partly? then shorts < old(shorts) else shorts == old(shorts)
      ensures if c.Sleep? && r.Done? then polls < old(polls) else polls == old(polls)
      ensures faults == old(faults) + if r.Failed? then 1 else 0
      ensures Answer(c, r) && (Safe(origin) && OnOwnName(pc) ==> !r.Missing?)
    {
      hide GoStep, NextCall, PcAfter, Reaches, Safe, PcOk, OnOwnName, Answer, Free;
      var t, ino := meanwhile(time, s), inode(time);
      var call := Granted(c, result(time), t.disk, ino, shorts, polls);
      assert Undisturbed(p, s, t);
      ReachesOn(origin, stale, s, t);
      r := ReplyTo(t.disk, c, call, t.serial, ino);
      Replied(origin, stale, t, p, pc, call, ino);
      StepIsOneCall(t, p, stale, call, ino);
      ReachesGo(t, stale, p, call, ino);
      ReachesOn(origin, stale, t, GoStep(t, p, stale, call, ino));
      s, time, now, caught := GoStep(t, p, stale, call, ino), time + 1, t.now, CaughtNow(t.disk);
      shorts, polls := if r.Partly? then shorts - 1 else shorts, if c.Sleep? && r.Done? then polls - 1 else polls;
      faults := if r.Failed? then faults + 1 else faults;
    }
  }

  // ------------------------------------------------------------------ the code

  /** How an Acquire ends: inside with a fence, or with an error. */
  datatype Acquired = Entered(mine: Rec, fence: nat) | Refused(error: Outcome)

  datatype Claimed = Mine(mine: Rec) | AlreadyClaimed | ClaimError

  /** One process that uses the lock. The last argument of a call is only its place in the machine. */
  class Store {
    const w: World
    const p: Pid

    constructor (w: World, p: Pid)
      ensures this.w == w && this.p == p
    {
      this.w, this.p := w, p;
    }

    ghost predicate Ready(pc: Pc)
      reads w
    {
      w.Ready(p, pc)
    }

    /** writeTemp, as claim uses it. */
    method WriteRecord() returns (tmp: Option<(nat, Ino, Bytes)>)
      requires Ready(Attempt)
      modifies w
      ensures w.polls == old(w.polls) && w.faults >= old(w.faults)
      ensures tmp.None? ==> w.faults > old(w.faults)
      ensures match tmp
              case None => Ready(Idle(ClaimFailed))
              case Some((serial, ino, bytes)) => Ready(Staging(serial, ino, bytes, Stat))
    {
      hide World.Ready, Safe;
      var r := w.Do(p, CreateTemp(ForClaim), Attempt);
      if !r.Created? {
        return None;
      }
      var serial, ino, bytes := r.serial, r.ino, Bytes.Claim(r.serial, w.now);
      ghost var at := Staging(serial, ino, bytes, Write);
      r := w.Do(p, WriteAll(ino, bytes), at);
      while r.Partly?
        invariant Ready(PcAfter(at, r, w.now, w.stale(p), w.caught)) && w.polls == old(w.polls)
        invariant w.faults >= old(w.faults) && Answer(WriteAll(ino, bytes), r) && (r.Failed? ==> w.faults > old(w.faults))
        decreases if r.Partly? then w.shorts + 1 else 0
      {
        r := w.Do(p, WriteAll(ino, bytes), at);
      }
      if r.Done? {
        r := w.Do(p, Flush(ino, bytes), at.(at := Seal));
      }
      if !r.Done? {
        r := w.Do(p, RemoveName(ClaimTmp(serial)), Discard(ClaimTmp(serial), ToError(ClaimFailed)));
        return None;
      }
      tmp := Some((serial, ino, bytes));
    }

    method Claim() returns (claimed: Claimed)
      requires Ready(Attempt)
      modifies w
      ensures w.polls == old(w.polls) && w.faults >= old(w.faults)
      ensures Safe(w.origin) && claimed == ClaimError ==> w.faults > old(w.faults)
      ensures match claimed
              case Mine(mine) => Ready(Inside(mine, ReadFence))
              case AlreadyClaimed => Ready(Judge)
              case ClaimError => Ready(Idle(ClaimFailed))
    {
      hide World.Ready, Safe;
      var tmp := WriteRecord();
      if tmp.None? {
        return ClaimError;
      }
      var (serial, ino, bytes) := tmp.value;
      var name := ClaimTmp(serial);
      var found := w.Do(p, StatName(name), Staging(serial, ino, bytes, Stat));
      if !found.Found? {
        var removed := w.Do(p, RemoveName(name), Discard(name, ToError(ClaimFailed)));
        return ClaimError;
      }
      var mine := Rec(found.rec.ino, bytes);
      ghost var linking := Staging(serial, ino, bytes, LinkUp(mine));
      var linked := w.Do(p, LinkName(name, Lock), linking);
      var removed := w.Do(p, RemoveName(name), PcAfter(linking, linked, w.now, w.stale(p), w.caught));
      if !linked.Done? {
        return if linked.Exists? then AlreadyClaimed else ClaimError;
      }
      var synced := w.Do(p, SyncDir, Inside(mine, SyncLink));
      if !synced.Done? {
        ReleaseOwn(mine, ClaimFailed);
        return ClaimError;
      }
      claimed := Mine(mine);
    }

    method ReleaseOwn(mine: Rec, ghost last: Outcome)
      requires Ready(Inside(mine, Undo(last)))
      modifies w
      ensures w.polls == old(w.polls) && w.faults >= old(w.faults) && Ready(Idle(last))
    {
      hide World.Ready, Safe;
      var same := w.Do(p, Compare(Lock, mine), Inside(mine, Undo(last)));
      if !same.Done? {
        return;
      }
      var removed := w.Do(p, RemoveName(Lock), Inside(mine, Remove(last)));
    }

    /** writeTemp, as advanceFence uses it. */
    method WriteCounter(mine: Rec, next: nat) returns (tmp: Option<(nat, Ino)>)
      requires Ready(Inside(mine, CreateFence(next)))
      modifies w
      ensures w.polls == old(w.polls) && w.faults >= old(w.faults)
      ensures tmp.None? ==> w.faults > old(w.faults)
      ensures match tmp
              case None => Ready(Inside(mine, Undo(FenceFailed)))
              case Some((serial, ino)) => Ready(Inside(mine, RenameFence(next, serial, ino)))
    {
      hide World.Ready, Safe;
      var r := w.Do(p, CreateTemp(ForFence), Inside(mine, CreateFence(next)));
      if !r.Created? {
        return None;
      }
      var serial, ino := r.serial, r.ino;
      ghost var writing := Inside(mine, WriteFence(next, serial, ino));
      r := w.Do(p, WriteAll(ino, Counter(next)), writing);
      while r.Partly?
        invariant Ready(PcAfter(writing, r, w.now, w.stale(p), w.caught)) && w.polls == old(w.polls)
        invariant w.faults >= old(w.faults) && Answer(WriteAll(ino, Counter(next)), r)
        invariant r.Failed? ==> w.faults > old(w.faults)
        decreases if r.Partly? then w.shorts + 1 else 0
      {
        r := w.Do(p, WriteAll(ino, Counter(next)), writing);
      }
      if r.Done? {
        r := w.Do(p, Flush(ino, Counter(next)), Inside(mine, SealFence(next, serial, ino)));
      }
      if !r.Done? {
        r := w.Do(p, RemoveName(FenceTmp(serial)), Inside(mine, DropFence(serial)));
        return None;
      }
      tmp := Some((serial, ino));
    }

    method WriteAtomic(mine: Rec, next: nat) returns (ok: bool)
      requires Ready(Inside(mine, CreateFence(next)))
      modifies w
      ensures w.polls == old(w.polls) && w.faults >= old(w.faults)
      ensures Safe(w.origin) && !ok ==> w.faults > old(w.faults)
      ensures Ready(Inside(mine, if ok then Held(next) else Undo(FenceFailed)))
    {
      hide World.Ready, Safe;
      var tmp := WriteCounter(mine, next);
      if tmp.None? {
        return false;
      }
      var (serial, ino) := tmp.value;
      var r := w.Do(p, RenameName(FenceTmp(serial), Fence), Inside(mine, RenameFence(next, serial, ino)));
      if r.Done? {
        r := w.Do(p, SyncDir, Inside(mine, SyncFence(next, serial)));
      }
      if !r.Done? {
        var removed := w.Do(p, RemoveName(FenceTmp(serial)), Inside(mine, DropFence(serial)));
        return false;
      }
      ok := true;
    }

    method AdvanceFence(mine: Rec) returns (fence: Option<nat>)
      requires Ready(Inside(mine, ReadFence))
      modifies w
      ensures w.polls == old(w.polls) && w.faults >= old(w.faults)
      ensures Ready(Inside(mine, match fence case Some(n) => Held(n) case None => Undo(FenceFailed)))
    {
      hide World.Ready, Safe;
      var next := 1;
      var r := w.Do(p, ReadName(Fence), Inside(mine, ReadFence));
      if r.Found? {
        if !r.rec.bytes.Counter? || r.rec.bytes.value > MAX_FENCE {
          return None;
        }
        next := Successor(r.rec.bytes.value);
      } else if !r.Missing? {
        return None;
      }
      var ok := WriteAtomic(mine, next);
      fence := if ok then Some(next) else None;
    }

    method Enter(mine: Rec) returns (a: Acquired)
      requires Ready(Inside(mine, ReadFence))
      modifies w
      ensures w.faults >= old(w.faults) && (a.Refused? ==> a.error == FenceFailed)
      ensures match a
              case Entered(m, fence) => m == mine && Ready(Inside(mine, Held(fence)))
              case Refused(error) => Ready(Idle(error))
    {
      hide World.Ready, Safe;
      var fence := AdvanceFence(mine);
      if fence.None? {
        ReleaseOwn(mine, FenceFailed);
        return Refused(FenceFailed);
      }
      a := Entered(mine, fence.value);
    }

    method Reclaim() returns (err: Option<Outcome>)
      requires Ready(Judge)
      modifies w
      ensures w.polls == old(w.polls) && w.faults >= old(w.faults)
      ensures match err case None => Ready(Wait) case Some(e) => Ready(Idle(e))
      ensures err.Some? ==> err.value == StaleLock || err.value.LostAside? || err.value.TwoInside?
      ensures err == Some(StaleLock) ==> w.faults > old(w.faults)
      ensures Safe(w.origin) && err.Some? && err.value.LostAside? ==> w.faults > old(w.faults)
    {
      hide World.Ready, Safe;
      if w.stale(p) <= 0 {
        var r := w.Do(p, Nothing, Judge);
        return None;
      }
      var r := w.Do(p, ReadName(Lock), Judge);
      if !r.Found? || !r.rec.bytes.Claim? || w.now - r.rec.bytes.since <= w.stale(p) {
        return None;
      }
      err := TakeAside(r.rec, w.now);
    }

    method TakeAside(judged: Rec, ghost seen: int) returns (err: Option<Outcome>)
      requires Ready(Reserve(judged, seen))
      modifies w
      ensures w.polls == old(w.polls) && w.faults >= old(w.faults)
      ensures match err case None => Ready(Wait) case Some(e) => Ready(Idle(e))
      ensures err.Some? ==> err.value == StaleLock || err.value.LostAside? || err.value.TwoInside?
      ensures err == Some(StaleLock) ==> w.faults > old(w.faults)
      ensures Safe(w.origin) && err.Some? && err.value.LostAside? ==> w.faults > old(w.faults)
    {
      hide World.Ready, Safe;
      var r := w.Do(p, CreateTemp(ForTomb), Reserve(judged, seen));
      if !r.Created? {
        return Some(StaleLock);
      }
      var serial := r.serial;
      var tomb := Tomb(serial);
      r := w.Do(p, RenameName(Lock, tomb), SetAside(judged, seen, serial));
      if !r.Done? {
        var removed := w.Do(p, RemoveName(tomb), Discard(tomb, if r.Missing? then ToWait else ToError(StaleLock)));
        return if r.Missing? then None else Some(StaleLock);
      }
      ghost var aside := Aside(judged, seen, serial, w.caught, StatTomb);
      r := w.Do(p, StatName(tomb), aside);
      if !r.Found? {
        return Some(LostAside(serial));
      }
      r := w.Do(p, Compare(tomb, judged), aside.(move := CheckTomb));
      if r.Done? {
        var removed := w.Do(p, RemoveName(tomb), aside.(move := RemoveJudged));
        return None;
      }
      r := w.Do(p, LinkName(tomb, Lock), aside.(move := Restore));
      if !r.Done? {
        return Some(TwoInside(serial));
      }
      var removed := w.Do(p, RemoveName(tomb), Discard(tomb, ToWait));
      err := None;
    }

    method Acquire() returns (a: Acquired)
      requires w.Fair(p) && Reaches(w.origin, w.stale, w.s)
      requires p in w.s.procs ==> w.s.procs[p].alive && w.s.procs[p].pc.Idle?
      modifies w
      ensures match a
              case Entered(mine, fence) => Ready(Inside(mine, Held(fence)))
              case Refused(error) => Ready(Idle(error))
      ensures a == Refused(StaleLock) ==> w.faults > old(w.faults)
      ensures Safe(w.origin) && a.Refused? && !a.error.TwoInside? && a.error != FenceFailed ==> w.faults > old(w.faults)
    {
      hide World.Ready, Safe;
      w.Begin(p);
      while true
        invariant Ready(Attempt) && w.faults >= old(w.faults)
        decreases w.polls
      {
        var claimed := Claim();
        match claimed {
          case Mine(mine) =>
            a := Enter(mine);
            return;
          case ClaimError =>
            return Refused(ClaimFailed);
          case AlreadyClaimed =>
        }
        var err := Reclaim();
        if err.Some? {
          return Refused(err.value);
        }
        var waited := w.Do(p, Sleep, Wait);
        if !waited.Done? {
          return Refused(GaveUp);
        }
      }
    }
  }

  /** What Acquire hands out: a release that acts once. */
  class Occupancy {
    const store: Store
    const mine: Rec
    ghost const fence: nat
    var released: bool

    constructor (store: Store, mine: Rec, ghost fence: nat)
      ensures this.store == store && this.mine == mine && this.fence == fence && !released
    {
      this.store, this.mine, this.fence, this.released := store, mine, fence, false;
    }

    method Release()
      requires !released ==> store.Ready(Inside(mine, Held(fence)))
      modifies this, store.w
      ensures released
      ensures if old(released) then store.w.s == old(store.w.s) else store.Ready(Idle(Left))
    {
      if released {
        return;
      }
      released := true;
      var same := store.w.BeginRelease(store.p, mine, fence);
      if same {
        var removed := store.w.Do(store.p, RemoveName(Lock), Inside(mine, Remove(Left)));
      }
    }
  }

  // ---------------------------------------------------------------- consequences

  /**
    What the code may rely on when Acquire has let it in, with reclaim off: its own record is at the lock name, no
    other process is inside, and its fence is above every fence handed out before it.
  */
  lemma InsideMeansAlone(w: World, p: Pid, mine: Rec, fence: nat)
    requires Init(w.origin) && Off(w.stale) && w.Ready(p, Inside(mine, Held(fence)))
    ensures AloneWith(w.s, p, mine, fence)
  {
    var acts :| After(w.origin, w.stale, acts) == w.s;
    RunEndsAlone(w.origin, w.stale, acts, w.s, p, mine, fence);
  }

  ghost predicate AloneWith(s: State, p: Pid, mine: Rec, fence: nat) {
    && Holds(s.disk, Lock, mine)
    && (forall q :: q in s.procs && s.procs[q].pc.Inside? ==> q == p)
    && (!s.wrapped ==> HighestLast(s.entered, fence))
  }

  /** The last fence handed out is this one, and every earlier one is below it. */
  predicate HighestLast(entered: seq<nat>, fence: nat) {
    && entered != [] && entered[|entered| - 1] == fence
    && forall i :: 0 <= i < |entered| - 1 ==> entered[i] < fence
  }

  lemma RunEndsAlone(s: State, stale: Ages, acts: seq<Action>, t: State, p: Pid, mine: Rec, fence: nat)
    requires Init(s) && Off(stale) && After(s, stale, acts) == t
    requires p in t.procs && t.procs[p] == Proc(true, Inside(mine, Held(fence)))
    ensures AloneWith(t, p, mine, fence)
  {
    hide After, Init, SparesOccupants;
    MutualExclusion(s, stale, acts);
    if !t.wrapped {
      InitOff(s, stale, acts);
      SparingRunsKeepFences(s, stale, acts);
      assert FenceIsLast(t.entered, t.procs[p].pc);
    }
  }

  lemma InitOff(s: State, stale: Ages, acts: seq<Action>)
    requires Init(s) && Off(stale)
    ensures SparesOccupants(s, stale, acts)
  {
    ReclaimOffSpares(s, stale, acts);
  }

  /** With reclaim on at any age the same holds among live processes, if no reclaim has caught the record of one. */
  lemma InsideMeansAloneAlive(w: World, acts: seq<Action>, p: Pid, mine: Rec, fence: nat)
    requires Init(w.origin) && w.Ready(p, Inside(mine, Held(fence)))
    requires After(w.origin, w.stale, acts) == w.s && SparesOccupants(w.origin, w.stale, acts)
    ensures Holds(w.s.disk, Lock, mine)
    ensures forall q :: q in w.s.procs && Occupies(w.s.procs[q]) ==> q == p
    ensures !w.s.wrapped ==> HighestLast(w.s.entered, fence)
  {
    RunEndsAloneAlive(w.origin, w.stale, acts, w.s, p, mine, fence);
  }

  lemma RunEndsAloneAlive(s: State, stale: Ages, acts: seq<Action>, t: State, p: Pid, mine: Rec, fence: nat)
    requires Init(s) && After(s, stale, acts) == t && SparesOccupants(s, stale, acts)
    requires p in t.procs && t.procs[p] == Proc(true, Inside(mine, Held(fence)))
    ensures Holds(t.disk, Lock, mine)
    ensures forall q :: q in t.procs && Occupies(t.procs[q]) ==> q == p
    ensures !t.wrapped ==> HighestLast(t.entered, fence)
  {
    hide After, Init, SparesOccupants;
    LiveExclusion(s, stale, acts, p);
    if !t.wrapped {
      SparingRunsKeepFences(s, stale, acts);
      assert FenceIsLast(t.entered, t.procs[p].pc);
    }
  }
}
