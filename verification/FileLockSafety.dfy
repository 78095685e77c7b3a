/** What every step of the lock protocol keeps, whatever the configuration. */
module FileLockSafety {
  import opened FileSystem
  import opened FileLock

  /** Stray names are older than any name still to come, and the lock name is bound to
      nothing or to one complete, durable holder record. */
  ghost predicate DiskOk(d: Disk, serial: nat) {
    && (forall n :: n in d.dir ==> SerialOf(n) < serial)
    && (Lock in d.dir ==>
          && FileAt(d, Lock).synced && FileAt(d, Lock).bytes.Claim?
          && FileAt(d, Lock).bytes.id < serial)
  }

  /** The serial numbers whose names or records belong to a process at `pc`. */
  ghost predicate Owns(pc: Pc, k: int) {
    match pc
    case Staging(tmp, _, _, _) => k == tmp
    case Discard(name, _) => SerialOf(name) == k
    case SetAside(_, _, tomb) => k == tomb
    case Aside(_, _, tomb, _, _) => k == tomb
    case Inside(mine, step) => k == IdOf(mine) || OwnsFenceTmp(step, k)
    case _ => false
  }

  ghost predicate OwnsFenceTmp(step: InsideStep, k: int) {
    match step
    case WriteFence(_, tmp, _) => k == tmp
    case SealFence(_, tmp, _) => k == tmp
    case RenameFence(_, tmp, _) => k == tmp
    case SyncFence(_, tmp) => k == tmp
    case DropFence(tmp) => k == tmp
    case _ => false
  }

  /** What a process at `pc` may rely on in the directory. */
  ghost predicate PcOk(d: Disk, pc: Pc) {
    match pc
    case Staging(tmp, ino, bytes, at) =>
      && bytes.Claim? && bytes.id == tmp
      && Sole(d, ClaimTmp(tmp), ino)
      && (at.Stat? || at.LinkUp? ==> FileOf(d, ino) == File(bytes, true))
      && (at.LinkUp? ==> at.mine == Rec(ino, bytes))
    case Discard(name, _) => name.ClaimTmp? || name.Tomb?
    case Inside(mine, step) => mine.bytes.Claim? && FenceStepOk(d, mine, step)
    case Reserve(judged, _) => judged.bytes.Claim?
    case SetAside(judged, _, tomb) =>
      judged.bytes.Claim? && Tomb(tomb) in d.dir && Sole(d, Tomb(tomb), d.dir[Tomb(tomb)])
    case Aside(judged, _, tomb, caught, move) =>
      && caught.bytes.Claim?
      && Tomb(tomb) in d.dir && d.dir[Tomb(tomb)] == caught.ino
      && FileOf(d, caught.ino) == File(caught.bytes, true)
      && (move.RemoveJudged? ==> caught == judged)
    case _ => true
  }

  ghost predicate FenceStepOk(d: Disk, mine: Rec, step: InsideStep) {
    match step
    case DropTmp(tmp) => tmp == IdOf(mine)
    case WriteFence(_, tmp, ino) => Sole(d, FenceTmp(tmp), ino)
    case SealFence(_, tmp, ino) => Sole(d, FenceTmp(tmp), ino)
    case RenameFence(next, tmp, ino) => Sole(d, FenceTmp(tmp), ino) && FileOf(d, ino) == File(Counter(next), true)
    case _ => true
  }

  ghost predicate Safe(s: State) {
    && |s.past| > 0 && s.past[|s.past| - 1] == s.disk
    && (forall i :: 0 <= i < |s.past| ==> DiskOk(s.past[i], s.serial))
    && (forall p :: p in s.procs ==> PcOk(s.disk, s.procs[p].pc))
    && (forall p, k :: p in s.procs && Owns(s.procs[p].pc, k) ==> k < s.serial)
    && (forall p :: p in s.procs && s.procs[p].pc.Aside? ==> IdOf(s.procs[p].pc.caught) < s.serial)
    && (forall p, q, k :: p in s.procs && q in s.procs && Owns(s.procs[p].pc, k) && Owns(s.procs[q].pc, k) ==> p == q)
  }

  // ------------------------------------------------- what leaves a bystander alone

  lemma CreateFrame(d: Disk, name: Name, ino: Ino, pc: Pc, serial: nat)
    requires PcOk(d, pc) && Free(d, ino) && name !in d.dir
    requires forall k :: Owns(pc, k) ==> k < serial
    requires SerialOf(name) == serial
    ensures PcOk(Create(d, name, ino), pc)
  {
  }

  lemma PutFrame(d: Disk, name: Name, ino: Ino, file: File, pc: Pc)
    requires PcOk(d, pc) && Sole(d, name, ino) && SerialOf(name) >= 0
    requires !Owns(pc, SerialOf(name))
    ensures PcOk(Put(d, ino, file), pc)
  {
  }

  lemma LinkFrame(d: Disk, from: Name, pc: Pc)
    requires PcOk(d, pc) && SerialOf(from) >= 0 && !Owns(pc, SerialOf(from)) && from in d.dir
    ensures PcOk(Link(d, from, Lock), pc)
  {
  }

  lemma UnlinkFrame(d: Disk, name: Name, pc: Pc)
    requires PcOk(d, pc) && (SerialOf(name) >= 0 ==> !Owns(pc, SerialOf(name)))
    ensures PcOk(Unlink(d, name), pc)
  {
  }

  lemma RenameFrame(d: Disk, from: Name, to: Name, pc: Pc)
    requires PcOk(d, pc) && from in d.dir && from != to
    requires SerialOf(from) >= 0 ==> !Owns(pc, SerialOf(from))
    requires SerialOf(to) >= 0 ==> !Owns(pc, SerialOf(to))
    ensures PcOk(Rename(d, from, to), pc)
  {
  }

  /** A step of process `p` is safe when its own new position is sound, what it newly owns
      is new, and every bystander's position still is. */
  lemma MoveKeepsSafe(s: State, t: State, p: Pid, proc: Proc)
    requires Safe(s)
    requires t.procs == s.procs[p := proc] && s.serial <= t.serial
    requires |t.past| > 0 && t.past[|t.past| - 1] == t.disk
    requires forall i :: 0 <= i < |t.past| ==> t.past[i] in s.past || t.past[i] == t.disk
    requires DiskOk(t.disk, t.serial) && PcOk(t.disk, proc.pc)
    requires forall k :: Owns(proc.pc, k) ==>
               (p in s.procs && Owns(s.procs[p].pc, k)) || s.serial <= k < t.serial
    requires proc.pc.Aside? ==> IdOf(proc.pc.caught) < s.serial
    requires forall q :: q in s.procs && q != p ==> PcOk(t.disk, s.procs[q].pc)
    ensures Safe(t)
  {
  }

  /** `t` is `s` with process `p` moved and the directory changed to `d`. */
  ghost predicate Changed(s: State, t: State, p: Pid, pc: Pc, d: Disk, serial: nat) {
    && p in s.procs && p in t.procs
    && t.procs == s.procs[p := t.procs[p]] && t.procs[p].pc == pc
    && t.disk == d && t.serial == serial
    && (t.past == s.past + [d] || (d == s.disk && (t.past == s.past || t.past == [d])))
  }

  ghost predicate NothingNew(before: Pc, after: Pc) {
    forall k :: Owns(after, k) ==> Owns(before, k)
  }

  lemma StaySafe(s: State, t: State, p: Pid, pc: Pc)
    requires Safe(s) && Changed(s, t, p, pc, s.disk, s.serial)
    requires PcOk(s.disk, pc) && NothingNew(s.procs[p].pc, pc)
    requires pc.Aside? ==> IdOf(pc.caught) < s.serial
    ensures Safe(t)
  {
    MoveKeepsSafe(s, t, p, t.procs[p]);
  }

  lemma NewFileSafe(s: State, t: State, p: Pid, pc: Pc, name: Name, ino: Ino)
    requires Safe(s) && Changed(s, t, p, pc, Create(s.disk, name, ino), s.serial + 1)
    requires Free(s.disk, ino) && SerialOf(name) == s.serial
    requires PcOk(t.disk, pc) && !pc.Aside?
    requires forall k :: Owns(pc, k) ==> Owns(s.procs[p].pc, k) || k == s.serial
    ensures Safe(t)
  {
    forall q | q in s.procs && q != p ensures PcOk(t.disk, s.procs[q].pc) {
      CreateFrame(s.disk, name, ino, s.procs[q].pc, s.serial);
    }
    MoveKeepsSafe(s, t, p, t.procs[p]);
  }

  lemma PutSafe(s: State, t: State, p: Pid, pc: Pc, name: Name, ino: Ino, file: File)
    requires Safe(s) && Changed(s, t, p, pc, Put(s.disk, ino, file), s.serial)
    requires Sole(s.disk, name, ino) && SerialOf(name) >= 0 && Owns(s.procs[p].pc, SerialOf(name))
    requires PcOk(t.disk, pc) && NothingNew(s.procs[p].pc, pc)
    requires pc.Aside? ==> IdOf(pc.caught) < s.serial
    ensures Safe(t)
  {
    forall q | q in s.procs && q != p ensures PcOk(t.disk, s.procs[q].pc) {
      PutFrame(s.disk, name, ino, file, s.procs[q].pc);
    }
    MoveKeepsSafe(s, t, p, t.procs[p]);
  }

  lemma LinkSafe(s: State, t: State, p: Pid, pc: Pc, from: Name)
    requires Safe(s) && from in s.disk.dir && Changed(s, t, p, pc, Link(s.disk, from, Lock), s.serial)
    requires SerialOf(from) >= 0 && Owns(s.procs[p].pc, SerialOf(from))
    requires FileAt(s.disk, from).synced && FileAt(s.disk, from).bytes.Claim? && FileAt(s.disk, from).bytes.id < s.serial
    requires PcOk(t.disk, pc) && NothingNew(s.procs[p].pc, pc)
    requires pc.Aside? ==> IdOf(pc.caught) < s.serial
    ensures Safe(t)
  {
    forall q | q in s.procs && q != p ensures PcOk(t.disk, s.procs[q].pc) {
      LinkFrame(s.disk, from, s.procs[q].pc);
    }
    MoveKeepsSafe(s, t, p, t.procs[p]);
  }

  lemma UnlinkSafe(s: State, t: State, p: Pid, pc: Pc, name: Name)
    requires Safe(s) && Changed(s, t, p, pc, Unlink(s.disk, name), s.serial)
    requires SerialOf(name) >= 0 ==> Owns(s.procs[p].pc, SerialOf(name))
    requires PcOk(t.disk, pc) && NothingNew(s.procs[p].pc, pc)
    requires pc.Aside? ==> IdOf(pc.caught) < s.serial
    ensures Safe(t)
  {
    forall q | q in s.procs && q != p ensures PcOk(t.disk, s.procs[q].pc) {
      UnlinkFrame(s.disk, name, s.procs[q].pc);
    }
    MoveKeepsSafe(s, t, p, t.procs[p]);
  }

  lemma RenameSafe(s: State, t: State, p: Pid, pc: Pc, from: Name, to: Name)
    requires Safe(s) && from in s.disk.dir && from != to && to != Lock
    requires Changed(s, t, p, pc, Rename(s.disk, from, to), s.serial)
    requires SerialOf(from) >= 0 ==> Owns(s.procs[p].pc, SerialOf(from))
    requires SerialOf(to) >= 0 ==> Owns(s.procs[p].pc, SerialOf(to))
    requires PcOk(t.disk, pc) && NothingNew(s.procs[p].pc, pc)
    requires pc.Aside? ==> IdOf(pc.caught) < s.serial
    ensures Safe(t)
  {
    forall q | q in s.procs && q != p ensures PcOk(t.disk, s.procs[q].pc) {
      RenameFrame(s.disk, from, to, s.procs[q].pc);
    }
    MoveKeepsSafe(s, t, p, t.procs[p]);
  }

  // ------------------------------------------------------------ every kind of step

  lemma AttemptSafe(s: State, p: Pid, call: Call, ino: Ino)
    requires Safe(s) && p in s.procs && s.procs[p].pc.Attempt?
    ensures Safe(AttemptStep(s, p, call, ino))
  {
    var t := AttemptStep(s, p, call, ino);
    if call != Ok {
      StaySafe(s, t, p, t.procs[p].pc);
    } else if Free(s.disk, ino) {
      NewFileSafe(s, t, p, t.procs[p].pc, ClaimTmp(s.serial), ino);
    }
  }

  lemma StagingSafe(s: State, p: Pid, call: Call)
    requires Safe(s) && p in s.procs && s.procs[p].pc.Staging?
    ensures Safe(StagingStep(s, p, s.procs[p].pc, call))
  {
    var pc := s.procs[p].pc;
    var t := StagingStep(s, p, pc, call);
    var name := ClaimTmp(pc.tmp);
    assert Owns(pc, pc.tmp);
    if pc.at.Write? && call != Fail {
      PutSafe(s, t, p, t.procs[p].pc, name, pc.ino, FileOf(t.disk, pc.ino));
    } else if pc.at.Seal? && call == Ok {
      PutSafe(s, t, p, t.procs[p].pc, name, pc.ino, FileOf(t.disk, pc.ino));
    } else if pc.at.LinkUp? && call == Ok && Lock !in s.disk.dir {
      LinkSafe(s, t, p, t.procs[p].pc, name);
    } else {
      StaySafe(s, t, p, t.procs[p].pc);
    }
  }

  lemma DiscardSafe(s: State, p: Pid, call: Call)
    requires Safe(s) && p in s.procs && s.procs[p].pc.Discard?
    ensures Safe(DiscardStep(s, p, s.procs[p].pc, call))
  {
    var pc := s.procs[p].pc;
    var t := DiscardStep(s, p, pc, call);
    if call == Ok {
      UnlinkSafe(s, t, p, t.procs[p].pc, pc.name);
    } else {
      StaySafe(s, t, p, t.procs[p].pc);
    }
  }

  lemma FenceFileSafe(s: State, p: Pid, mine: Rec, step: InsideStep, call: Call, ino: Ino)
    requires Safe(s) && p in s.procs && s.procs[p].pc == Inside(mine, step)
    requires step.WriteFence? || step.SealFence?
    ensures Safe(AdvanceStep(s, p, mine, step, call, ino))
  {
    var t := AdvanceStep(s, p, mine, step, call, ino);
    if (step.WriteFence? && call != Fail) || (step.SealFence? && call == Ok) {
      PutSafe(s, t, p, t.procs[p].pc, FenceTmp(step.tmp), step.ino, FileOf(t.disk, step.ino));
    } else {
      StaySafe(s, t, p, t.procs[p].pc);
    }
  }

  lemma FenceNameSafe(s: State, p: Pid, mine: Rec, step: InsideStep, call: Call, ino: Ino)
    requires Safe(s) && p in s.procs && s.procs[p].pc == Inside(mine, step)
    requires step.CreateFence? || step.RenameFence?
    ensures Safe(AdvanceStep(s, p, mine, step, call, ino))
  {
    var t := AdvanceStep(s, p, mine, step, call, ino);
    if step.CreateFence? && call == Ok {
      if Free(s.disk, ino) { NewFileSafe(s, t, p, t.procs[p].pc, FenceTmp(s.serial), ino); }
    } else if step.RenameFence? && call == Ok {
      RenameSafe(s, t, p, t.procs[p].pc, FenceTmp(step.tmp), Fence);
    } else {
      StaySafe(s, t, p, t.procs[p].pc);
    }
  }

  lemma FenceEndSafe(s: State, p: Pid, mine: Rec, step: InsideStep, call: Call, ino: Ino)
    requires Safe(s) && p in s.procs && s.procs[p].pc == Inside(mine, step)
    requires step.SyncFence? || step.DropFence?
    ensures Safe(AdvanceStep(s, p, mine, step, call, ino))
  {
    var t := AdvanceStep(s, p, mine, step, call, ino);
    if step.DropFence? && call == Ok {
      UnlinkSafe(s, t, p, t.procs[p].pc, FenceTmp(step.tmp));
    } else {
      StaySafe(s, t, p, t.procs[p].pc);
    }
  }

  lemma AdvanceSafe(s: State, p: Pid, mine: Rec, step: InsideStep, call: Call, ino: Ino)
    requires Safe(s) && p in s.procs && s.procs[p].pc == Inside(mine, step) && Advancing(step)
    ensures Safe(AdvanceStep(s, p, mine, step, call, ino))
  {
    hide Safe, AdvanceStep;
    if step.WriteFence? || step.SealFence? {
      FenceFileSafe(s, p, mine, step, call, ino);
    } else if step.CreateFence? || step.RenameFence? {
      FenceNameSafe(s, p, mine, step, call, ino);
    } else {
      FenceEndSafe(s, p, mine, step, call, ino);
    }
  }

  lemma CheckOwnSafe(s: State, p: Pid, mine: Rec, last: Outcome, call: Call)
    requires Safe(s) && p in s.procs && s.procs[p].pc.Inside? && s.procs[p].pc.mine == mine
    ensures Safe(CheckOwn(s, p, mine, last, call))
  {
    var t := CheckOwn(s, p, mine, last, call);
    StaySafe(s, t, p, t.procs[p].pc);
  }

  lemma InsideSafe(s: State, p: Pid, mine: Rec, step: InsideStep, call: Call, ino: Ino)
    requires Safe(s) && p in s.procs && s.procs[p].pc == Inside(mine, step)
    ensures Safe(InsideStepOf(s, p, mine, step, call, ino))
  {
    if Advancing(step) {
      AdvanceSafe(s, p, mine, step, call, ino);
    } else if step.Undo? {
      CheckOwnSafe(s, p, mine, step.last, call);
    } else if step.DropTmp? || step.Remove? {
      UnlinkInsideSafe(s, p, mine, step, call, ino);
    } else if step.SyncLink? || step.ReadFence? {
      LookInsideSafe(s, p, mine, step, call, ino);
    }
  }

  lemma UnlinkInsideSafe(s: State, p: Pid, mine: Rec, step: InsideStep, call: Call, ino: Ino)
    requires Safe(s) && p in s.procs && s.procs[p].pc == Inside(mine, step)
    requires step.DropTmp? || step.Remove?
    ensures Safe(InsideStepOf(s, p, mine, step, call, ino))
  {
    var t := InsideStepOf(s, p, mine, step, call, ino);
    var name := if step.Remove? then Lock else ClaimTmp(step.tmp);
    if call == Ok {
      UnlinkSafe(s, t, p, t.procs[p].pc, name);
    } else {
      StaySafe(s, t, p, t.procs[p].pc);
    }
  }

  lemma LookInsideSafe(s: State, p: Pid, mine: Rec, step: InsideStep, call: Call, ino: Ino)
    requires Safe(s) && p in s.procs && s.procs[p].pc == Inside(mine, step)
    requires step.SyncLink? || step.ReadFence?
    ensures Safe(InsideStepOf(s, p, mine, step, call, ino))
  {
    var t := InsideStepOf(s, p, mine, step, call, ino);
    assert PcOk(s.disk, s.procs[p].pc);
    LookInside(s, p, mine, step, call, ino);
    hide Safe, InsideStepOf;
    StaySafe(s, t, p, t.procs[p].pc);
  }

  lemma LookInside(s: State, p: Pid, mine: Rec, step: InsideStep, call: Call, ino: Ino)
    requires p in s.procs && s.procs[p].pc == Inside(mine, step) && PcOk(s.disk, s.procs[p].pc)
    requires |s.past| > 0 && s.past[|s.past| - 1] == s.disk && (step.SyncLink? || step.ReadFence?)
    ensures var t := InsideStepOf(s, p, mine, step, call, ino);
            && p in t.procs && t.procs[p].pc.Inside? && Changed(s, t, p, t.procs[p].pc, s.disk, s.serial)
            && PcOk(s.disk, t.procs[p].pc) && NothingNew(s.procs[p].pc, t.procs[p].pc)
  {}

  lemma ReclaimSafe(s: State, p: Pid, stale: Ages, call: Call, ino: Ino)
    requires Safe(s) && p in s.procs
    requires var pc := s.procs[p].pc; pc.Judge? || pc.Reserve? || pc.SetAside? || pc.Wait?
    ensures Safe(GoStep(s, p, stale, call, ino))
  {
    var pc := s.procs[p].pc;
    if pc.Reserve? && call == Ok {
      ReserveSafe(s, p, pc.judged, pc.seen, ino);
    } else if pc.SetAside? && call == Ok && Lock in s.disk.dir {
      SetAsideSafe(s, p, pc.judged, pc.seen, pc.tomb);
    } else {
      var t := GoStep(s, p, stale, call, ino);
      assert PcOk(s.disk, pc);
      LookAround(s, p, stale, call, ino);
      hide Safe, GoStep;
      StaySafe(s, t, p, t.procs[p].pc);
    }
  }

  lemma ReserveSafe(s: State, p: Pid, judged: Rec, seen: int, ino: Ino)
    requires Safe(s) && p in s.procs && s.procs[p].pc == Reserve(judged, seen)
    ensures Safe(ReserveStep(s, p, judged, seen, Ok, ino))
  {
    var t := ReserveStep(s, p, judged, seen, Ok, ino);
    if Free(s.disk, ino) { NewFileSafe(s, t, p, t.procs[p].pc, Tomb(s.serial), ino); }
  }

  lemma SetAsideSafe(s: State, p: Pid, judged: Rec, seen: int, tomb: nat)
    requires Safe(s) && p in s.procs && s.procs[p].pc == SetAside(judged, seen, tomb) && Lock in s.disk.dir
    ensures Safe(SetAsideStep(s, p, judged, seen, tomb, Ok))
  {
    var t := SetAsideStep(s, p, judged, seen, tomb, Ok);
    RenameSafe(s, t, p, t.procs[p].pc, Lock, Tomb(tomb));
  }

  lemma LookAround(s: State, p: Pid, stale: Ages, call: Call, ino: Ino)
    requires p in s.procs && PcOk(s.disk, s.procs[p].pc)
    requires s.procs[p].pc.Reserve? ==> call != Ok
    requires s.procs[p].pc.SetAside? ==> call != Ok || Lock !in s.disk.dir
    requires var pc := s.procs[p].pc; pc.Judge? || pc.Reserve? || pc.SetAside? || pc.Wait?
    requires |s.past| > 0 && s.past[|s.past| - 1] == s.disk
    ensures var t := GoStep(s, p, stale, call, ino);
            && p in t.procs && !t.procs[p].pc.Aside? && Changed(s, t, p, t.procs[p].pc, s.disk, s.serial)
            && PcOk(s.disk, t.procs[p].pc) && NothingNew(s.procs[p].pc, t.procs[p].pc)
  {}

  lemma AsideSafe(s: State, p: Pid, pc: Pc, call: Call)
    requires Safe(s) && p in s.procs && s.procs[p].pc == pc && pc.Aside?
    ensures Safe(AsideStepOf(s, p, pc, call))
  {
    if pc.move.RemoveJudged? || pc.move.Restore? {
      SettleSafe(s, p, pc, call);
    } else {
      LookAsideSafe(s, p, pc, call);
    }
  }

  lemma LookAsideSafe(s: State, p: Pid, pc: Pc, call: Call)
    requires Safe(s) && p in s.procs && s.procs[p].pc == pc && pc.Aside?
    requires pc.move.StatTomb? || pc.move.CheckTomb?
    ensures Safe(AsideStepOf(s, p, pc, call))
  {
    var t := AsideStepOf(s, p, pc, call);
    StaySafe(s, t, p, t.procs[p].pc);
  }

  lemma SettleSafe(s: State, p: Pid, pc: Pc, call: Call)
    requires Safe(s) && p in s.procs && s.procs[p].pc == pc && pc.Aside?
    requires pc.move.RemoveJudged? || pc.move.Restore?
    ensures Safe(AsideStepOf(s, p, pc, call))
  {
    var t := AsideStepOf(s, p, pc, call);
    if pc.move.RemoveJudged? && call == Ok {
      UnlinkSafe(s, t, p, t.procs[p].pc, Tomb(pc.tomb));
    } else if pc.move.Restore? && call == Ok && Lock !in s.disk.dir {
      LinkSafe(s, t, p, t.procs[p].pc, Tomb(pc.tomb));
    } else {
      StaySafe(s, t, p, t.procs[p].pc);
    }
  }

  lemma GoSafe(s: State, p: Pid, stale: Ages, call: Call, ino: Ino)
    requires Safe(s) && p in s.procs
    ensures Safe(GoStep(s, p, stale, call, ino))
  {
    match s.procs[p].pc
    case Idle(_) =>
    case Attempt => AttemptSafe(s, p, call, ino);
    case Staging(_, _, _, _) => StagingSafe(s, p, call);
    case Discard(_, _) => DiscardSafe(s, p, call);
    case Inside(mine, step) => InsideSafe(s, p, mine, step, call, ino);
    case Aside(_, _, _, _, _) => AsideSafe(s, p, s.procs[p].pc, call);
    case _ => ReclaimSafe(s, p, stale, call, ino);
  }

  lemma OperatorSafe(s: State)
    requires Safe(s)
    ensures Safe(OperatorStep(s))
  {
    var t := OperatorStep(s);
    if t != s {
      forall p | p in s.procs ensures PcOk(t.disk, s.procs[p].pc) {
        UnlinkFrame(s.disk, Lock, s.procs[p].pc);
      }
    }
  }

  lemma HostCrashSafe(s: State, d: Disk)
    requires Safe(s)
    ensures Safe(HostCrashStep(s, d))
  {
    if CrashOutcome(s.past, d) {
      forall n | n in d.dir ensures SerialOf(n) < s.serial {
        assert EntryFrom(s.past, d, n);
      }
      assert EntryFrom(s.past, d, Lock);
    }
  }

  lemma StepSafe(s: State, stale: Ages, a: Action)
    requires Safe(s)
    ensures Safe(Step(s, stale, a))
  {
    match a
    case Start(p) =>
      if p !in s.procs || (s.procs[p].alive && s.procs[p].pc.Idle?) {
        MoveKeepsSafe(s, Step(s, stale, a), p, Proc(true, Attempt));
      }
    case Go(p, call, ino) => if p in s.procs { GoSafe(s, p, stale, call, ino); }
    case Release(p, call) =>
      if Step(s, stale, a) != s { StaySafe(s, Step(s, stale, a), p, Step(s, stale, a).procs[p].pc); }
    case Crash(p) =>
      if p in s.procs { StaySafe(s, Step(s, stale, a), p, s.procs[p].pc); }
    case SetClock(_) =>
    case OperatorClear => OperatorSafe(s);
    case HostCrash(d) => HostCrashSafe(s, d);
  }

  // ------------------------------------------------------- what a step leaves alone

  predicate TouchesLock(pc: Pc) {
    || (pc.Staging? && pc.at.LinkUp?)
    || (pc.Inside? && pc.step.Remove?)
    || pc.SetAside?
    || (pc.Aside? && pc.move.Restore?)
  }

  /** The temporary names of a process at `pc`. */
  ghost predicate OwnName(pc: Pc, n: Name) {
    match pc
    case Staging(tmp, _, _, _) => n == ClaimTmp(tmp)
    case Discard(name, _) => n == name
    case SetAside(_, _, tomb) => n == Tomb(tomb)
    case Aside(_, _, tomb, _, _) => n == Tomb(tomb)
    case Inside(_, DropTmp(tmp)) => n == ClaimTmp(tmp)
    case Inside(_, step) => n.FenceTmp? && OwnsFenceTmp(step, n.serial)
    case _ => false
  }

  lemma OwnNameOwned(d: Disk, pc: Pc, n: Name)
    requires PcOk(d, pc) && OwnName(pc, n)
    ensures Owns(pc, SerialOf(n))
  {}

  ghost predicate Touches(pc: Pc, n: Name) {
    || OwnName(pc, n)
    || (n == Lock && TouchesLock(pc))
    || (n == Fence && pc.Inside? && pc.step.RenameFence?)
  }

  lemma UntouchedBy(s: State, p: Pid, stale: Ages, call: Call, ino: Ino, n: Name)
    requires p in s.procs && PcOk(s.disk, s.procs[p].pc) && SerialOf(n) < s.serial && !Touches(s.procs[p].pc, n)
    ensures Same(s.disk, GoStep(s, p, stale, call, ino).disk, n)
  {
    match s.procs[p].pc
    case Inside(mine, step) =>
      if Advancing(step) {
        UntouchedAdvancing(s, p, mine, step, call, ino, n);
      } else {
        UntouchedInside(s, p, mine, step, call, ino, n);
      }
    case Staging(_, _, _, _) => UntouchedStaging(s, p, s.procs[p].pc, call, n);
    case Aside(_, _, _, _, _) => UntouchedAside(s, p, s.procs[p].pc, call, n);
    case SetAside(judged, seen, tomb) => UntouchedSetAside(s, p, judged, seen, tomb, call, n);
    case Reserve(judged, seen) => UntouchedReserve(s, p, judged, seen, call, ino, n);
    case Attempt => UntouchedAttempt(s, p, call, ino, n);
    case Discard(_, _) => UntouchedDiscard(s, p, s.procs[p].pc, call, n);
    case Judge =>
    case Idle(_) =>
    case Wait =>
  }

  lemma UntouchedAttempt(s: State, p: Pid, call: Call, ino: Ino, n: Name)
    requires SerialOf(n) < s.serial
    ensures Same(s.disk, AttemptStep(s, p, call, ino).disk, n)
  {
    if call == Ok && Free(s.disk, ino) {
      assert AttemptStep(s, p, call, ino).disk == Create(s.disk, ClaimTmp(s.serial), ino);
      CreateSame(s.disk, ClaimTmp(s.serial), ino, n);
    }
  }

  lemma UntouchedReserve(s: State, p: Pid, judged: Rec, seen: int, call: Call, ino: Ino, n: Name)
    requires SerialOf(n) < s.serial
    ensures Same(s.disk, ReserveStep(s, p, judged, seen, call, ino).disk, n)
  {
    if call == Ok && Free(s.disk, ino) {
      assert ReserveStep(s, p, judged, seen, call, ino).disk == Create(s.disk, Tomb(s.serial), ino);
      CreateSame(s.disk, Tomb(s.serial), ino, n);
    }
  }

  lemma UntouchedSetAside(s: State, p: Pid, judged: Rec, seen: int, tomb: nat, call: Call, n: Name)
    requires n != Lock && n != Tomb(tomb)
    ensures Same(s.disk, SetAsideStep(s, p, judged, seen, tomb, call).disk, n)
  {
    if call == Ok && Lock in s.disk.dir {
      assert SetAsideStep(s, p, judged, seen, tomb, call).disk == Rename(s.disk, Lock, Tomb(tomb));
      MoveSame(s.disk, Lock, Tomb(tomb), n);
    }
  }

  lemma UntouchedDiscard(s: State, p: Pid, pc: Pc, call: Call, n: Name)
    requires pc.Discard? && n != pc.name
    ensures Same(s.disk, DiscardStep(s, p, pc, call).disk, n)
  {
    if call == Ok {
      assert DiscardStep(s, p, pc, call).disk == Unlink(s.disk, pc.name);
      UnlinkSame(s.disk, pc.name, n);
    }
  }

  lemma UntouchedStaging(s: State, p: Pid, pc: Pc, call: Call, n: Name)
    requires PcOk(s.disk, pc) && pc.Staging? && !Touches(pc, n)
    ensures Same(s.disk, StagingStep(s, p, pc, call).disk, n)
  {
    var name := ClaimTmp(pc.tmp);
    var d := StagingStep(s, p, pc, call).disk;
    assert n != name by { assert Owns(pc, pc.tmp); }
    if (pc.at.Write? && call != Fail) || (pc.at.Seal? && call == Ok) {
      assert d == Put(s.disk, pc.ino, FileOf(d, pc.ino));
      PutSame(s.disk, name, pc.ino, FileOf(d, pc.ino), n);
    } else if pc.at.LinkUp? && call == Ok && Lock !in s.disk.dir {
      assert d == Link(s.disk, name, Lock);
      LinkSame(s.disk, name, Lock, n);
    } else {
      assert d == s.disk;
    }
  }

  lemma UntouchedAside(s: State, p: Pid, pc: Pc, call: Call, n: Name)
    requires PcOk(s.disk, pc) && pc.Aside? && !Touches(pc, n)
    ensures Same(s.disk, AsideStepOf(s, p, pc, call).disk, n)
  {
    var name := Tomb(pc.tomb);
    var d := AsideStepOf(s, p, pc, call).disk;
    assert n != name by { assert Owns(pc, pc.tomb); }
    if pc.move.RemoveJudged? && call == Ok {
      assert d == Unlink(s.disk, name);
      UnlinkSame(s.disk, name, n);
    } else if pc.move.Restore? && call == Ok && Lock !in s.disk.dir {
      assert d == Link(s.disk, name, Lock);
      LinkSame(s.disk, name, Lock, n);
    } else {
      assert d == s.disk;
    }
  }

  lemma UntouchedAdvancing(s: State, p: Pid, mine: Rec, step: InsideStep, call: Call, ino: Ino, n: Name)
    requires PcOk(s.disk, Inside(mine, step)) && SerialOf(n) < s.serial
    requires Advancing(step) && !Touches(Inside(mine, step), n)
    ensures Same(s.disk, AdvanceStep(s, p, mine, step, call, ino).disk, n)
  {
    var d := AdvanceStep(s, p, mine, step, call, ino).disk;
    if step.CreateFence? {
      if call == Ok && Free(s.disk, ino) {
        assert d == Create(s.disk, FenceTmp(s.serial), ino);
        CreateSame(s.disk, FenceTmp(s.serial), ino, n);
      }
    } else {
      assert n != FenceTmp(step.tmp) by { assert Owns(Inside(mine, step), step.tmp); }
      if (step.WriteFence? && call != Fail) || (step.SealFence? && call == Ok) {
        assert d == Put(s.disk, step.ino, FileOf(d, step.ino));
        PutSame(s.disk, FenceTmp(step.tmp), step.ino, FileOf(d, step.ino), n);
      } else if step.RenameFence? && call == Ok {
        assert d == Rename(s.disk, FenceTmp(step.tmp), Fence);
        MoveSame(s.disk, FenceTmp(step.tmp), Fence, n);
      } else if step.DropFence? && call == Ok {
        assert d == Unlink(s.disk, FenceTmp(step.tmp));
        UnlinkSame(s.disk, FenceTmp(step.tmp), n);
      } else {
        assert d == s.disk;
      }
    }
  }

  lemma UntouchedInside(s: State, p: Pid, mine: Rec, step: InsideStep, call: Call, ino: Ino, n: Name)
    requires PcOk(s.disk, Inside(mine, step)) && !Advancing(step) && !Touches(Inside(mine, step), n)
    ensures Same(s.disk, InsideStepOf(s, p, mine, step, call, ino).disk, n)
  {
    var d := InsideStepOf(s, p, mine, step, call, ino).disk;
    if step.DropTmp? && call == Ok {
      assert n != ClaimTmp(step.tmp) by { assert Owns(Inside(mine, step), step.tmp); }
      assert d == Unlink(s.disk, ClaimTmp(step.tmp));
      UnlinkSame(s.disk, ClaimTmp(step.tmp), n);
    } else if step.Remove? && call == Ok {
      assert d == Unlink(s.disk, Lock);
      UnlinkSame(s.disk, Lock, n);
    } else {
      assert d == s.disk;
    }
  }

  lemma {:induction false} AfterConcat(s: State, stale: Ages, a: seq<Action>, b: seq<Action>)
    ensures After(s, stale, a + b) == After(After(s, stale, a), stale, b)
    decreases |a|
  {
    if a == [] {
      assert a + b == b;
    } else {
      assert (a + b)[0] == a[0] && (a + b)[1..] == a[1..] + b;
      AfterConcat(Step(s, stale, a[0]), stale, a[1..], b);
    }
  }

  /** The structural invariant holds in every reachable state, host crashes included. */
  lemma {:induction false} EveryRunSafe(s: State, stale: Ages, acts: seq<Action>)
    requires Safe(s)
    ensures Safe(After(s, stale, acts))
    decreases |acts|
  {
    if acts != [] {
      StepSafe(s, stale, acts[0]);
      EveryRunSafe(Step(s, stale, acts[0]), stale, acts[1..]);
    }
  }

  /** In every reachable state, host crashes included, and in every version of the directory
      a host crash could still bring back, the lock name is bound to nothing or to one
      complete, durable claim record. */
  lemma LockNeverPartial(s: State, stale: Ages, acts: seq<Action>)
    requires Init(s)
    ensures var t := After(s, stale, acts);
            && (Lock in t.disk.dir ==> FileAt(t.disk, Lock).bytes.Claim?)
            && (forall d :: CrashOutcome(t.past, d) && Lock in d.dir ==> FileAt(d, Lock).bytes.Claim?)
  {
    EveryRunSafe(s, stale, acts);
    var t := After(s, stale, acts);
    forall d | CrashOutcome(t.past, d) && Lock in d.dir ensures FileAt(d, Lock).bytes.Claim? {
      assert EntryFrom(t.past, d, Lock);
    }
  }
}
