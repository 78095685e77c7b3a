/**
 The lock protocol as a state machine: any number of processes run Acquire and
 release against one directory, one system call at a time, in any interleaving.
 Any call may fail, a process may crash before any call, the operator may clear
 the record of a dead holder, the clock may be set to anything, and the host may
 crash and lose every directory change since the last directory fsync.
 */
module FileLock {
  import opened FileSystem

  type Pid = nat

  /** StaleAfter of each process's store; reclaim is off for those at zero or below. */
  type Ages = Pid -> int

  /** Reclaim is off for everybody. */
  ghost predicate Off(stale: Ages) {
    forall p :: stale(p) <= 0
  }

  const MAX_FENCE: nat := 0xffff_ffff_ffff_ffff

  /** The four calls made on the staged record. */
  datatype StageStep = Write | Seal | Stat | LinkUp(mine: Rec)

  /** What an occupancy does between its link and its remove. */
  datatype InsideStep =
    | DropTmp(tmp: nat)
    | SyncLink
    | ReadFence
    | CreateFence(next: nat)
    | WriteFence(next: nat, tmp: nat, ino: Ino)
    | SealFence(next: nat, tmp: nat, ino: Ino)
    | RenameFence(next: nat, tmp: nat, ino: Ino)
    | SyncFence(next: nat, tmp: nat)
    | DropFence(tmp: nat)
    | Held(fence: nat)
    | Undo(last: Outcome)
    | Remove(last: Outcome)

  /** What a reclaimer does with the record its rename caught. */
  datatype AsideStep = StatTomb | CheckTomb | RemoveJudged | Restore

  /** Where an Acquire goes once it has removed a temporary name. */
  datatype Next = ToReclaim | ToWait | ToError(error: Outcome)

  /** How the last Acquire of a process ended. */
  datatype Outcome =
    | NotCalled
    | Left                    // the occupancy is over
    | ClaimFailed
    | FenceFailed
    | StaleLock               // wraps coordination.ErrStaleLock
    | LostAside(tomb: nat)    // the record was set aside and could not be looked at
    | TwoInside(tomb: nat)    // the restore was refused; the record is preserved
    | GaveUp                  // ctx was done
    | Killed

  /** A process's program counter with the locals that are live there. `seen` is the
      clock reading at which a reclaimer judged the record. */
  datatype Pc =
    | Idle(last: Outcome)
    | Attempt
    | Staging(tmp: nat, ino: Ino, bytes: Bytes, at: StageStep)
    | Discard(name: Name, after: Next)
    | Inside(mine: Rec, step: InsideStep)
    | Judge
    | Reserve(judged: Rec, seen: int)
    | SetAside(judged: Rec, seen: int, tomb: nat)
    | Aside(judged: Rec, seen: int, tomb: nat, caught: Rec, move: AsideStep)
    | Wait

  datatype Proc = Proc(alive: bool, pc: Pc)

  /** What became of a published record. */
  datatype Fate =
    | AtLock
    | Taken(tomb: nat, who: Pid)                  // set aside, its reclaimer not done with it
    | Preserved(tomb: nat, error: Outcome)       // set aside for good, reported by an error
    | Rubbish(tomb: nat, who: Pid, seen: int)     // judged stale, but its removal failed
    | Reclaimed(who: Pid, seen: int)
    | Released(claim: nat)                          // removed by the release of that claim
    | Cleared                                    // removed by the operator
    | Stranded(tomb: nat)                        // set aside when the host crashed, and still there
    | LostToHost                                 // a host crash took back the name it had

  datatype Listing = Listing(rec: Rec, fate: Fate)

  /** `past` holds every version of the directory since its last fsync, the
      current one last. `ledger`, `entered` and `wrapped` are
      history: no process reads them. */
  datatype State = State(
    disk: Disk,
    past: seq<Disk>,
    procs: map<Pid, Proc>,
    now: int,
    serial: nat,
    ledger: map<nat, Listing>,
    entered: seq<nat>,
    wrapped: bool
  )

  /** Outcome of one system call. `Short` is a write that stored only part of its bytes so far. */
  datatype Call = Ok | Fail | Short

  datatype Action =
    | Start(p: Pid)
    | Go(p: Pid, call: Call, ino: Ino)    // `ino` is the inode a new file gets
    | Release(p: Pid, call: Call)
    | Crash(p: Pid)
    | SetClock(now: int)
    | OperatorClear
    | HostCrash(disk: Disk)

  // ---------------------------------------------------------------- updates

  function Move(s: State, p: Pid, pc: Pc): State {
    s.(procs := s.procs[p := Proc(true, pc)])
  }

  function OnDisk(s: State, d: Disk): State {
    s.(disk := d, past := s.past + [d])
  }

  function SetFate(s: State, id: nat, fate: Fate): State {
    if id in s.ledger then s.(ledger := s.ledger[id := s.ledger[id].(fate := fate)]) else s
  }

  /** Records what happens to the record the lock name is bound to. */
  function SetLockFate(s: State, fate: Fate): State {
    if Lock in s.disk.dir && FileAt(s.disk, Lock).bytes.Claim?
    then SetFate(s, FileAt(s.disk, Lock).bytes.id, fate)
    else s
  }

  function Publish(s: State, mine: Rec): State {
    if mine.bytes.Claim? then s.(ledger := s.ledger[mine.bytes.id := Listing(mine, AtLock)]) else s
  }

  /** CreateTemp: a fresh name on an inode no other name refers to. */
  function NewFile(s: State, name: Name, ino: Ino): State {
    OnDisk(s, Create(s.disk, name, ino)).(serial := s.serial + 1)
  }

  // ------------------------------------------------------------------ steps

  /** Acquire's loop head and writeTemp's create. The record is stamped here, once per attempt. */
  function AttemptStep(s: State, p: Pid, call: Call, ino: Ino): State {
    if call != Ok then Move(s, p, Idle(ClaimFailed))
    else if !Free(s.disk, ino) then s
    else
      Move(NewFile(s, ClaimTmp(s.serial), ino), p,
           Staging(s.serial, ino, Claim(s.serial, s.now), Write))
  }

  /** claim up to and including its link. */
  function StagingStep(s: State, p: Pid, pc: Pc, call: Call): State
    requires pc.Staging?
  {
    var name := ClaimTmp(pc.tmp);
    match pc.at
    case Write =>
      (match call
       case Ok => Move(OnDisk(s, Put(s.disk, pc.ino, File(pc.bytes, false))), p, pc.(at := Seal))
       case Short => OnDisk(s, Put(s.disk, pc.ino, File(Partial, false)))
       case Fail => Move(s, p, Discard(name, ToError(ClaimFailed))))
    case Seal =>
      if call == Ok
      then Move(OnDisk(s, Put(s.disk, pc.ino, File(pc.bytes, true))), p, pc.(at := Stat))
      else Move(s, p, Discard(name, ToError(ClaimFailed)))
    case Stat =>
      if call == Ok && name in s.disk.dir
      then Move(s, p, pc.(at := LinkUp(Rec(s.disk.dir[name], pc.bytes))))
      else Move(s, p, Discard(name, ToError(ClaimFailed)))
    case LinkUp(mine) =>
      if call != Ok || name !in s.disk.dir then Move(s, p, Discard(name, ToError(ClaimFailed)))
      else if Lock in s.disk.dir then Move(s, p, Discard(name, ToReclaim))
      else Move(Publish(OnDisk(s, Link(s.disk, name, Lock)), mine), p, Inside(mine, DropTmp(pc.tmp)))
  }

  /** Every "remove the temporary name and go on"; a failed remove is ignored. */
  function DiscardStep(s: State, p: Pid, pc: Pc, call: Call): State
    requires pc.Discard?
  {
    var s1 := if call == Ok then OnDisk(s, Unlink(s.disk, pc.name)) else s;
    Move(s1, p, match pc.after
                case ToReclaim => Judge
                case ToWait => Wait
                case ToError(e) => Idle(e))
  }

  /** releaseOwn's check: any failure to look counts as "not mine". */
  function CheckOwn(s: State, p: Pid, mine: Rec, last: Outcome, call: Call): State {
    if call == Ok && Holds(s.disk, Lock, mine) then Move(s, p, Inside(mine, Remove(last))) else Move(s, p, Idle(last))
  }

  /** The steps of advanceFence that rewrite the counter. */
  predicate Advancing(step: InsideStep) {
    step.CreateFence? || step.WriteFence? || step.SealFence? || step.RenameFence? || step.SyncFence? || step.DropFence?
  }

  /** advanceFence from its temporary file to the directory fsync that makes the counter durable. */
  function AdvanceStep(s: State, p: Pid, mine: Rec, step: InsideStep, call: Call, ino: Ino): State
    requires Advancing(step)
  {
    match step
    case CreateFence(next) =>
      if call != Ok then Move(s, p, Inside(mine, Undo(FenceFailed)))
      else if !Free(s.disk, ino) then s
      else Move(NewFile(s, FenceTmp(s.serial), ino), p, Inside(mine, WriteFence(next, s.serial, ino)))
    case WriteFence(next, tmp, i) =>
      (match call
       case Ok => Move(OnDisk(s, Put(s.disk, i, File(Counter(next), false))), p, Inside(mine, SealFence(next, tmp, i)))
       case Short => OnDisk(s, Put(s.disk, i, File(Partial, false)))
       case Fail => Move(s, p, Inside(mine, DropFence(tmp))))
    case SealFence(next, tmp, i) =>
      if call == Ok
      then Move(OnDisk(s, Put(s.disk, i, File(Counter(next), true))), p, Inside(mine, RenameFence(next, tmp, i)))
      else Move(s, p, Inside(mine, DropFence(tmp)))
    case RenameFence(next, tmp, _) =>
      if call == Ok && FenceTmp(tmp) in s.disk.dir
      then Move(OnDisk(s, Rename(s.disk, FenceTmp(tmp), Fence)), p, Inside(mine, SyncFence(next, tmp)))
      else Move(s, p, Inside(mine, DropFence(tmp)))
    case SyncFence(next, tmp) =>
      if call == Ok
      then Move(s.(past := [s.disk], entered := s.entered + [next]), p, Inside(mine, Held(next)))
      else Move(s, p, Inside(mine, DropFence(tmp)))
    case DropFence(tmp) =>
      Move(if call == Ok then OnDisk(s, Unlink(s.disk, FenceTmp(tmp))) else s, p, Inside(mine, Undo(FenceFailed)))
  }

  /** The end of claim, enter with advanceFence, and releaseOwn. */
  function InsideStepOf(s: State, p: Pid, mine: Rec, step: InsideStep, call: Call, ino: Ino): State {
    match step
    case DropTmp(tmp) =>
      Move(if call == Ok then OnDisk(s, Unlink(s.disk, ClaimTmp(tmp))) else s, p, Inside(mine, SyncLink))
    case SyncLink =>
      if call == Ok then Move(s.(past := [s.disk]), p, Inside(mine, ReadFence))
      else Move(s, p, Inside(mine, Undo(ClaimFailed)))
    case ReadFence =>
      if call != Ok then Move(s, p, Inside(mine, Undo(FenceFailed)))
      else if Fence !in s.disk.dir then Move(s, p, Inside(mine, CreateFence(1)))
      else if !FileAt(s.disk, Fence).bytes.Counter? then Move(s, p, Inside(mine, Undo(FenceFailed)))
      else
        var n := FileAt(s.disk, Fence).bytes.value;
        if n > MAX_FENCE then Move(s, p, Inside(mine, Undo(FenceFailed)))
        else Move(s.(wrapped := s.wrapped || n == MAX_FENCE), p, Inside(mine, CreateFence(Successor(n))))
    case Held(_) => s
    case Undo(last) => CheckOwn(s, p, mine, last, call)
    case Remove(last) =>
      if call == Ok
      then Move(OnDisk(SetLockFate(s, Released(IdOf(mine))), Unlink(s.disk, Lock)), p, Idle(last))
      else Move(s, p, Idle(last))
    case _ => AdvanceStep(s, p, mine, step, call, ino)
  }

  /** reclaim: judge the record at the lock name. Off unless `stale` is positive. */
  function JudgeStep(s: State, p: Pid, stale: int, call: Call): State {
    if stale <= 0 || call != Ok || Lock !in s.disk.dir then Move(s, p, Wait)
    else
      var rec := Rec(s.disk.dir[Lock], FileAt(s.disk, Lock).bytes);
      if rec.bytes.Claim? && s.now - rec.bytes.since > stale
      then Move(s, p, Reserve(rec, s.now))
      else Move(s, p, Wait)
  }

  /** reserveTomb */
  function ReserveStep(s: State, p: Pid, judged: Rec, seen: int, call: Call, ino: Ino): State {
    if call != Ok then Move(s, p, Idle(StaleLock))
    else if !Free(s.disk, ino) then s
    else Move(NewFile(s, Tomb(s.serial), ino), p, SetAside(judged, seen, s.serial))
  }

  /** takeAside's rename. A failed close of the reserved file ends like any other failed rename. */
  function SetAsideStep(s: State, p: Pid, judged: Rec, seen: int, tomb: nat, call: Call): State {
    if call != Ok then Move(s, p, Discard(Tomb(tomb), ToError(StaleLock)))
    else if Lock !in s.disk.dir then Move(s, p, Discard(Tomb(tomb), ToWait))
    else
      var caught := Rec(s.disk.dir[Lock], FileAt(s.disk, Lock).bytes);
      Move(OnDisk(SetLockFate(s, Taken(tomb, p)), Rename(s.disk, Lock, Tomb(tomb))), p,
           Aside(judged, seen, tomb, caught, StatTomb))
  }

  /** takeAside after its rename. */
  function AsideStepOf(s: State, p: Pid, pc: Pc, call: Call): State
    requires pc.Aside?
  {
    var name := Tomb(pc.tomb);
    match pc.move
    case StatTomb =>
      if call == Ok && name in s.disk.dir then Move(s, p, pc.(move := CheckTomb))
      else Move(SetFate(s, IdOf(pc.caught), Preserved(pc.tomb, LostAside(pc.tomb))), p, Idle(LostAside(pc.tomb)))
    case CheckTomb =>
      if call == Ok && Holds(s.disk, name, pc.judged) then Move(s, p, pc.(move := RemoveJudged))
      else Move(s, p, pc.(move := Restore))
    case RemoveJudged =>
      if call == Ok
      then Move(OnDisk(SetFate(s, IdOf(pc.caught), Reclaimed(p, pc.seen)), Unlink(s.disk, name)), p, Wait)
      else Move(SetFate(s, IdOf(pc.caught), Rubbish(pc.tomb, p, pc.seen)), p, Wait)
    case Restore =>
      if call == Ok && Lock !in s.disk.dir && name in s.disk.dir
      then Move(OnDisk(SetFate(s, IdOf(pc.caught), AtLock), Link(s.disk, name, Lock)), p, Discard(name, ToWait))
      else Move(SetFate(s, IdOf(pc.caught), Preserved(pc.tomb, TwoInside(pc.tomb))), p, Idle(TwoInside(pc.tomb)))
  }

  /** The next system call of process `p`. */
  function GoStep(s: State, p: Pid, stale: Ages, call: Call, ino: Ino): State
    requires p in s.procs
  {
    var pc := s.procs[p].pc;
    match pc
    case Idle(_) => s
    case Attempt => AttemptStep(s, p, call, ino)
    case Staging(_, _, _, _) => StagingStep(s, p, pc, call)
    case Discard(_, _) => DiscardStep(s, p, pc, call)
    case Inside(mine, step) => InsideStepOf(s, p, mine, step, call, ino)
    case Judge => JudgeStep(s, p, stale(p), call)
    case Reserve(judged, seen) => ReserveStep(s, p, judged, seen, call, ino)
    case SetAside(judged, seen, tomb) => SetAsideStep(s, p, judged, seen, tomb, call)
    case Aside(_, _, _, _, _) => AsideStepOf(s, p, pc, call)
    case Wait => Move(s, p, if call == Ok then Attempt else Idle(GaveUp))
  }

  /** A live process is inside with the record the lock name holds. */
  ghost predicate HolderLives(s: State) {
    exists p :: p in s.procs && s.procs[p].alive && s.procs[p].pc.Inside?
                && Lock in s.disk.dir && FileAt(s.disk, Lock).bytes == s.procs[p].pc.mine.bytes
  }

  /** The operator removes the lock of a holder that is provably gone, which ends that occupancy. */
  ghost function OperatorStep(s: State): State {
    if Lock !in s.disk.dir || HolderLives(s) then s
    else
      var bytes := FileAt(s.disk, Lock).bytes;
      var s1 := SetLockFate(s, Cleared);
      OnDisk(s1, Unlink(s.disk, Lock)).(
        procs := map p | p in s.procs ::
                   if s.procs[p].pc.Inside? && s.procs[p].pc.mine.bytes == bytes
                   then Proc(false, Idle(Killed)) else s.procs[p])
  }

  /** A file as a host crash may leave it: unsynced content can be lost. */
  predicate Survives(before: File, after: File) {
    after == before || (!before.synced && (after.bytes.Empty? || after.bytes.Partial?))
  }

  /** After a host crash each name is bound to what it was bound to in some version of
      the directory since the last fsync, independently of the other names. */
  ghost predicate CrashOutcome(past: seq<Disk>, d: Disk) {
    forall n: Name :: EntryFrom(past, d, n)
  }

  ghost predicate EntryFrom(past: seq<Disk>, d: Disk, n: Name) {
    exists k :: 0 <= k < |past| && SameEntry(past[k], d, n)
  }

  predicate SameEntry(before: Disk, after: Disk, n: Name) {
    && (n in before.dir <==> n in after.dir)
    && (n in before.dir ==>
          && before.dir[n] == after.dir[n]
          && Survives(FileAt(before, n), FileAt(after, n)))
  }

  /** What a host crash makes of a listed record: one that is back at the lock name is there
      again whatever had become of it, and one that has lost its name is lost. */
  function Rebooted(l: Listing, d: Disk): Listing {
    if Holds(d, Lock, l.rec) then l.(fate := AtLock)
    else
      match l.fate
      case AtLock => l.(fate := LostToHost)
      case Taken(tomb, _) => l.(fate := if Holds(d, Tomb(tomb), l.rec) then Stranded(tomb) else LostToHost)
      case Preserved(tomb, _) => if Holds(d, Tomb(tomb), l.rec) then l else l.(fate := LostToHost)
      case Rubbish(tomb, _, _) => if Holds(d, Tomb(tomb), l.rec) then l else l.(fate := LostToHost)
      case Stranded(tomb) => if Holds(d, Tomb(tomb), l.rec) then l else l.(fate := LostToHost)
      case _ => l
  }

  ghost function HostCrashStep(s: State, d: Disk): State {
    if !CrashOutcome(s.past, d) then s
    else s.(disk := d, past := [d],
            ledger := map id | id in s.ledger :: Rebooted(s.ledger[id], d),
            procs := map p | p in s.procs :: Proc(false, Idle(Killed)))
  }

  /** One step of the whole system; an action that is not enabled changes nothing. */
  ghost function Step(s: State, stale: Ages, a: Action): State {
    match a
    case Start(p) =>
      if p !in s.procs || (s.procs[p].alive && s.procs[p].pc.Idle?) then Move(s, p, Attempt) else s
    case Go(p, call, ino) => if p in s.procs && s.procs[p].alive then GoStep(s, p, stale, call, ino) else s
    case Release(p, call) =>
      if p in s.procs && s.procs[p].alive && s.procs[p].pc.Inside? && s.procs[p].pc.step.Held?
      then CheckOwn(s, p, s.procs[p].pc.mine, Left, call) else s
    case Crash(p) => if p in s.procs then s.(procs := s.procs[p := Proc(false, s.procs[p].pc)]) else s
    case SetClock(now) => s.(now := now)
    case OperatorClear => OperatorStep(s)
    case HostCrash(d) => HostCrashStep(s, d)
  }

  /** The state after a run. */
  ghost function After(s: State, stale: Ages, acts: seq<Action>): State
    decreases |acts|
  {
    if acts == [] then s else After(Step(s, stale, acts[0]), stale, acts[1..])
  }

  /** A store nobody is using: possibly with a counter, stray files, and the complete
      record of a holder that died earlier. */
  ghost predicate Init(s: State) {
    && s.procs == map[] && s.past == [s.disk] && s.entered == [] && !s.wrapped
    && (forall n :: n in s.disk.dir ==> SerialOf(n) < s.serial)
    && (Lock in s.disk.dir ==>
          && FileAt(s.disk, Lock).synced && FileAt(s.disk, Lock).bytes.Claim?
          && FileAt(s.disk, Lock).bytes.id < s.serial)
    && s.ledger == if Lock in s.disk.dir
                   then map[FileAt(s.disk, Lock).bytes.id :=
                              Listing(Rec(s.disk.dir[Lock], FileAt(s.disk, Lock).bytes), AtLock)]
                   else map[]
  }

  // ---------------------------------------------------------------- helpers

  function IdOf(rec: Rec): nat {
    if rec.bytes.Claim? then rec.bytes.id else 0
  }

  function SerialOf(n: Name): int {
    match n
    case Lock => -1
    case Fence => -1
    case ClaimTmp(k) => k
    case FenceTmp(k) => k
    case Tomb(k) => k
  }

  /** uint64 addition of one. */
  function Successor(n: nat): nat {
    (n + 1) % (MAX_FENCE + 1)
  }
}
