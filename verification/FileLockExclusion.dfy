/** Mutual exclusion: with reclaim off, and as long as reclaim catches no live occupancy's record. */
module FileLockExclusion {
  import opened FileSystem
  import opened FileLock
  import opened FileLockSafety

  /** Every occupancy, of a live or of a crashed process, has its own record under the lock
      name from its link to its remove, and nobody is reclaiming. */
  ghost predicate Exclusive(s: State) {
    forall p :: p in s.procs ==> ExclusivePc(s.disk, s.procs[p].pc)
  }

  ghost predicate ExclusivePc(d: Disk, pc: Pc) {
    && (pc.Inside? ==> Holds(d, Lock, pc.mine))
    && !Reclaiming(pc)
  }

  /** Two occupancies cannot both have their own record at one name. */
  lemma OneInside(s: State, p: Pid, q: Pid)
    requires Safe(s) && Exclusive(s) && p in s.procs && q in s.procs
    requires s.procs[p].pc.Inside? && s.procs[q].pc.Inside?
    ensures p == q
  {
    var k := IdOf(s.procs[p].pc.mine);
    assert ExclusivePc(s.disk, s.procs[p].pc) && ExclusivePc(s.disk, s.procs[q].pc);
    assert PcOk(s.disk, s.procs[p].pc) && PcOk(s.disk, s.procs[q].pc);
    assert Owns(s.procs[p].pc, k) && Owns(s.procs[q].pc, k);
  }

  /** Where one call can take process `p` from `pc`: it is inside afterwards only if it was
      inside with the same record, or has just linked that record. */
  ghost predicate Entrance(s: State, t: State, p: Pid, pc: Pc) {
    && p in t.procs && t.procs == s.procs[p := t.procs[p]]
    && (t.procs[p].pc.Inside? ==>
          || (pc.Inside? && pc.mine == t.procs[p].pc.mine)
          || (pc.Staging? && pc.at.LinkUp? && t.procs[p].pc == Inside(pc.at.mine, DropTmp(pc.tmp))
              && ClaimTmp(pc.tmp) in s.disk.dir && t.disk == Link(s.disk, ClaimTmp(pc.tmp), Lock)
              && Lock !in s.disk.dir))
  }

  lemma Entrances(s: State, p: Pid, stale: Ages, call: Call, ino: Ino)
    requires p in s.procs
    ensures Entrance(s, GoStep(s, p, stale, call, ino), p, s.procs[p].pc)
  {
    hide StagingStep, InsideStepOf, AsideStepOf;
    match s.procs[p].pc
    case Inside(mine, step) => EntranceInside(s, p, mine, step, call, ino);
    case Staging(_, _, _, _) => EntranceStaging(s, p, s.procs[p].pc, call);
    case Aside(_, _, _, _, _) => EntranceAside(s, p, s.procs[p].pc, call);
    case _ =>
  }

  lemma EntranceAside(s: State, p: Pid, pc: Pc, call: Call)
    requires p in s.procs && s.procs[p].pc == pc && pc.Aside?
    ensures Entrance(s, AsideStepOf(s, p, pc, call), p, pc)
  {
  }

  /** At work on reclaiming a record. */
  predicate Reclaiming(pc: Pc) {
    pc.Reserve? || pc.SetAside? || pc.Aside?
  }

  /** With reclaim off nobody starts it. */
  lemma StaysOff(s: State, p: Pid, stale: Ages, call: Call, ino: Ino)
    requires p in s.procs && stale(p) <= 0 && !Reclaiming(s.procs[p].pc)
    ensures p in GoStep(s, p, stale, call, ino).procs && !Reclaiming(GoStep(s, p, stale, call, ino).procs[p].pc)
  {
    hide StagingStep, InsideStepOf;
    match s.procs[p].pc
    case Inside(mine, step) => InsideStaysOff(s, p, mine, step, call, ino);
    case Staging(_, _, _, _) => StagingStaysOff(s, p, s.procs[p].pc, call);
    case _ =>
  }

  lemma InsideStaysOff(s: State, p: Pid, mine: Rec, step: InsideStep, call: Call, ino: Ino)
    requires p in s.procs && s.procs[p].pc == Inside(mine, step)
    ensures p in InsideStepOf(s, p, mine, step, call, ino).procs
    ensures !Reclaiming(InsideStepOf(s, p, mine, step, call, ino).procs[p].pc)
  {
    if Advancing(step) {
      assert !Reclaiming(AdvanceStep(s, p, mine, step, call, ino).procs[p].pc);
    }
  }

  lemma StagingStaysOff(s: State, p: Pid, pc: Pc, call: Call)
    requires p in s.procs && s.procs[p].pc == pc && pc.Staging?
    ensures p in StagingStep(s, p, pc, call).procs && !Reclaiming(StagingStep(s, p, pc, call).procs[p].pc)
  {
  }

  lemma EntranceInside(s: State, p: Pid, mine: Rec, step: InsideStep, call: Call, ino: Ino)
    requires p in s.procs && s.procs[p].pc == Inside(mine, step)
    ensures Entrance(s, InsideStepOf(s, p, mine, step, call, ino), p, s.procs[p].pc)
  {
    if Advancing(step) {
      EntranceAdvancing(s, p, mine, step, call, ino);
    }
  }

  lemma EntranceAdvancing(s: State, p: Pid, mine: Rec, step: InsideStep, call: Call, ino: Ino)
    requires p in s.procs && s.procs[p].pc == Inside(mine, step) && Advancing(step)
    ensures Entrance(s, AdvanceStep(s, p, mine, step, call, ino), p, s.procs[p].pc)
  {
  }

  lemma EntranceStaging(s: State, p: Pid, pc: Pc, call: Call)
    requires p in s.procs && s.procs[p].pc == pc && pc.Staging?
    ensures Entrance(s, StagingStep(s, p, pc, call), p, pc)
  {
  }

  lemma GoExclusive(s: State, p: Pid, stale: Ages, call: Call, ino: Ino)
    requires Safe(s) && Exclusive(s) && p in s.procs && stale(p) <= 0
    ensures Exclusive(GoStep(s, p, stale, call, ino))
  {
    var pc := s.procs[p].pc;
    var t := GoStep(s, p, stale, call, ino);
    assert ExclusivePc(s.disk, pc) && PcOk(s.disk, pc);
    Entrances(s, p, stale, call, ino);
    StaysOff(s, p, stale, call, ino);
    if !TouchesLock(pc) {
      if pc.Discard? || pc.Inside? { assert PcOk(s.disk, pc); }
      LockNotOwned(s, p);
      UntouchedBy(s, p, stale, call, ino, Lock);
    }
    forall q | q in t.procs ensures ExclusivePc(t.disk, t.procs[q].pc) {
      if q != p {
        assert ExclusivePc(s.disk, s.procs[q].pc);
        if s.procs[q].pc.Inside? && pc.Inside? {
          OneInside(s, p, q);
          assert false;
        }
      }
    }
  }

  lemma LockNotOwned(s: State, p: Pid)
    requires Safe(s) && p in s.procs
    ensures !Owns(s.procs[p].pc, SerialOf(Lock)) && !Owns(s.procs[p].pc, SerialOf(Fence))
  {
    assert PcOk(s.disk, s.procs[p].pc);
  }

  lemma StepExclusive(s: State, stale: Ages, a: Action)
    requires Safe(s) && Exclusive(s) && Off(stale)
    ensures Exclusive(Step(s, stale, a))
  {
    match a
    case Go(p, call, ino) => if p in s.procs && s.procs[p].alive { GoExclusive(s, p, stale, call, ino); }
    case _ =>
  }

  /** Exclusion once established is kept by every run. */
  lemma {:induction false} ExclusionKept(s: State, stale: Ages, acts: seq<Action>)
    requires Safe(s) && Exclusive(s) && Off(stale)
    ensures var t := After(s, stale, acts);
            && Safe(t) && Exclusive(t)
            && (forall p :: p in t.procs && t.procs[p].pc.Inside? ==> Holds(t.disk, Lock, t.procs[p].pc.mine))
            && (forall p, q :: p in t.procs && q in t.procs && t.procs[p].pc.Inside? && t.procs[q].pc.Inside? ==> p == q)
    decreases |acts|
  {
    if acts == [] {
      forall p | p in s.procs && s.procs[p].pc.Inside? ensures Holds(s.disk, Lock, s.procs[p].pc.mine) {
        assert ExclusivePc(s.disk, s.procs[p].pc);
      }
      forall p, q | p in s.procs && q in s.procs && s.procs[p].pc.Inside? && s.procs[q].pc.Inside? ensures p == q {
        OneInside(s, p, q);
      }
    } else {
      StepSafe(s, stale, acts[0]);
      StepExclusive(s, stale, acts[0]);
      ExclusionKept(Step(s, stale, acts[0]), stale, acts[1..]);
    }
  }

  /** Mutual exclusion: in every reachable state at most one occupancy is between its link
      and its remove, and the lock name is bound to that occupancy's own record. */
  lemma MutualExclusion(s: State, stale: Ages, acts: seq<Action>)
    requires Init(s) && Off(stale)
    ensures var t := After(s, stale, acts);
            && (forall p :: p in t.procs && t.procs[p].pc.Inside? ==> Holds(t.disk, Lock, t.procs[p].pc.mine))
            && (forall p, q :: p in t.procs && q in t.procs && t.procs[p].pc.Inside? && t.procs[q].pc.Inside? ==> p == q)
  {
    ExclusionKept(s, stale, acts);
  }

  // ------------------------------------------ reclaim on, and only of the dead

  /** Every occupancy of a live process has its own record under the lock name. */
  ghost predicate LiveExclusive(s: State) {
    forall p :: p in s.procs && Occupies(s.procs[p]) ==> Holds(s.disk, Lock, s.procs[p].pc.mine)
  }

  predicate Occupies(proc: Proc) {
    proc.alive && proc.pc.Inside?
  }

  lemma OneAlive(s: State, p: Pid, q: Pid)
    requires Safe(s) && LiveExclusive(s) && p in s.procs && q in s.procs
    requires Occupies(s.procs[p]) && Occupies(s.procs[q])
    ensures p == q
  {
    var k := IdOf(s.procs[p].pc.mine);
    assert PcOk(s.disk, s.procs[p].pc) && PcOk(s.disk, s.procs[q].pc);
    assert Owns(s.procs[p].pc, k) && Owns(s.procs[q].pc, k);
  }

  /** The action is a reclaimer's rename, and it catches the record of a live occupancy. */
  ghost predicate CatchesOccupant(s: State, a: Action) {
    && a.Go? && a.call == Ok && a.p in s.procs && s.procs[a.p].alive && s.procs[a.p].pc.SetAside?
    && exists q :: q in s.procs && Occupies(s.procs[q]) && Holds(s.disk, Lock, s.procs[q].pc.mine)
  }

  /** No reclaim of the run catches the record of an occupancy still between its link and its
      remove, unless its process is dead: neither one judged stale too early, nor one that has
      taken a stale record's place by the time of the rename. */
  ghost predicate SparesOccupants(s: State, stale: Ages, acts: seq<Action>)
    decreases |acts|
  {
    acts != [] ==> !CatchesOccupant(s, acts[0]) && SparesOccupants(Step(s, stale, acts[0]), stale, acts[1..])
  }

  /** While somebody else is inside alive, a call leaves the lock name alone unless it catches the record there. */
  lemma LockStays(s: State, p: Pid, stale: Ages, call: Call, ino: Ino, q: Pid)
    requires Safe(s) && LiveExclusive(s) && p in s.procs && q in s.procs && p != q
    requires s.procs[p].alive && Occupies(s.procs[q])
    requires !(s.procs[p].pc.SetAside? && call == Ok)
    ensures Same(s.disk, GoStep(s, p, stale, call, ino).disk, Lock)
  {
    var pc := s.procs[p].pc;
    assert PcOk(s.disk, pc);
    if pc.Inside? {
      OneAlive(s, p, q);
    } else if !TouchesLock(pc) {
      LockNotOwned(s, p);
      UntouchedBy(s, p, stale, call, ino, Lock);
    } else if pc.Staging? {
      assert StagingStep(s, p, pc, call).disk == s.disk;
    } else if pc.Aside? {
      assert AsideStepOf(s, p, pc, call).disk == s.disk;
    }
  }

  /** A process that is inside after its own call has its record under the lock name. */
  lemma OwnLockHeld(s: State, p: Pid, stale: Ages, call: Call, ino: Ino)
    requires Safe(s) && LiveExclusive(s) && p in s.procs && s.procs[p].alive
    requires p in GoStep(s, p, stale, call, ino).procs && GoStep(s, p, stale, call, ino).procs[p].pc.Inside?
    ensures Holds(GoStep(s, p, stale, call, ino).disk, Lock, GoStep(s, p, stale, call, ino).procs[p].pc.mine)
  {
    var pc := s.procs[p].pc;
    assert PcOk(s.disk, pc);
    Entrances(s, p, stale, call, ino);
    if pc.Inside? && !pc.step.Remove? {
      LockNotOwned(s, p);
      UntouchedBy(s, p, stale, call, ino, Lock);
    }
  }

  lemma GoLive(s: State, p: Pid, stale: Ages, call: Call, ino: Ino)
    requires Safe(s) && LiveExclusive(s) && p in s.procs && s.procs[p].alive && !CatchesOccupant(s, Go(p, call, ino))
    ensures LiveExclusive(GoStep(s, p, stale, call, ino))
  {
    var t := GoStep(s, p, stale, call, ino);
    Entrances(s, p, stale, call, ino);
    hide GoStep;
    forall q | q in t.procs && Occupies(t.procs[q]) ensures Holds(t.disk, Lock, t.procs[q].pc.mine) {
      if q == p {
        OwnLockHeld(s, p, stale, call, ino);
      } else {
        LockStays(s, p, stale, call, ino, q);
      }
    }
  }

  lemma StepLive(s: State, stale: Ages, a: Action)
    requires Safe(s) && LiveExclusive(s) && !CatchesOccupant(s, a)
    ensures LiveExclusive(Step(s, stale, a))
  {
    match a
    case Go(p, call, ino) => if p in s.procs && s.procs[p].alive { GoLive(s, p, stale, call, ino); }
    case _ =>
  }

  lemma OffCatchesNothing(s: State, a: Action)
    requires Exclusive(s)
    ensures !CatchesOccupant(s, a)
  {
    if a.Go? && a.p in s.procs {
      assert ExclusivePc(s.disk, s.procs[a.p].pc);
    }
  }

  lemma {:induction false} ReclaimOffSpares(s: State, stale: Ages, acts: seq<Action>)
    requires Safe(s) && Exclusive(s) && Off(stale)
    ensures SparesOccupants(s, stale, acts)
    decreases |acts|
  {
    if acts != [] {
      OffCatchesNothing(s, acts[0]);
      StepSafe(s, stale, acts[0]);
      StepExclusive(s, stale, acts[0]);
      ReclaimOffSpares(Step(s, stale, acts[0]), stale, acts[1..]);
    }
  }

  lemma {:induction false} LiveExclusionKept(s: State, stale: Ages, acts: seq<Action>)
    requires Safe(s) && LiveExclusive(s) && SparesOccupants(s, stale, acts)
    ensures Safe(After(s, stale, acts)) && LiveExclusive(After(s, stale, acts))
    decreases |acts|
  {
    hide Safe, LiveExclusive, Step;
    if acts != [] {
      StepSafe(s, stale, acts[0]);
      StepLive(s, stale, acts[0]);
      LiveExclusionKept(Step(s, stale, acts[0]), stale, acts[1..]);
    }
  }

  /** Every record a release has removed was its own. */
  ghost predicate OwnReleases(s: State) {
    forall id :: id in s.ledger && s.ledger[id].fate.Released? ==> s.ledger[id].fate.claim == id
  }

  lemma RemoveIsOwn(s: State, p: Pid, mine: Rec, step: InsideStep, call: Call, ino: Ino)
    requires OwnReleases(s) && p in s.procs && s.procs[p].pc == Inside(mine, step)
    requires PcOk(s.disk, s.procs[p].pc) && Holds(s.disk, Lock, mine)
    ensures OwnReleases(InsideStepOf(s, p, mine, step, call, ino))
  {
    if Advancing(step) {
      assert AdvanceStep(s, p, mine, step, call, ino).ledger == s.ledger;
    }
  }

  lemma StagingReleasesNone(s: State, p: Pid, pc: Pc, call: Call)
    requires OwnReleases(s) && pc.Staging?
    ensures OwnReleases(StagingStep(s, p, pc, call))
  {}

  lemma AsideReleasesNone(s: State, p: Pid, pc: Pc, call: Call)
    requires OwnReleases(s) && pc.Aside?
    ensures OwnReleases(AsideStepOf(s, p, pc, call))
  {}

  lemma StepOwnReleases(s: State, stale: Ages, a: Action)
    requires Safe(s) && LiveExclusive(s) && OwnReleases(s)
    ensures OwnReleases(Step(s, stale, a))
  {
    hide StagingStep, InsideStepOf, AsideStepOf;
    match a
    case Go(p, call, ino) =>
      if p in s.procs && s.procs[p].alive {
        assert PcOk(s.disk, s.procs[p].pc);
        match s.procs[p].pc
        case Staging(_, _, _, _) => StagingReleasesNone(s, p, s.procs[p].pc, call);
        case Inside(mine, step) => RemoveIsOwn(s, p, mine, step, call, ino);
        case Aside(_, _, _, _, _) => AsideReleasesNone(s, p, s.procs[p].pc, call);
        case _ =>
      }
    case _ =>
  }

  lemma {:induction false} OwnReleasesKept(s: State, stale: Ages, acts: seq<Action>)
    requires Safe(s) && LiveExclusive(s) && OwnReleases(s) && SparesOccupants(s, stale, acts)
    ensures OwnReleases(After(s, stale, acts))
    decreases |acts|
  {
    hide Safe, LiveExclusive, OwnReleases, Step;
    if acts != [] {
      StepSafe(s, stale, acts[0]);
      StepLive(s, stale, acts[0]);
      StepOwnReleases(s, stale, acts[0]);
      OwnReleasesKept(Step(s, stale, acts[0]), stale, acts[1..]);
    }
  }

  /** A release removes only its own record, in every run that catches no live occupancy's record. */
  lemma ReleasesOwnOnly(s: State, stale: Ages, acts: seq<Action>)
    requires Init(s) && SparesOccupants(s, stale, acts)
    ensures OwnReleases(After(s, stale, acts))
  {
    OwnReleasesKept(s, stale, acts);
  }

  /** With reclaim on at any age: a run whose reclaims catch no live occupancy's record has at
      most one live occupancy at a time, and the lock name is bound to that one's own record. */
  lemma LiveExclusion(s: State, stale: Ages, acts: seq<Action>, p: Pid)
    requires Init(s) && SparesOccupants(s, stale, acts)
    requires p in After(s, stale, acts).procs && Occupies(After(s, stale, acts).procs[p])
    ensures var t := After(s, stale, acts);
            && Holds(t.disk, Lock, t.procs[p].pc.mine)
            && forall q :: q in t.procs && Occupies(t.procs[q]) ==> q == p
  {
    var t := After(s, stale, acts);
    LiveExclusionKept(s, stale, acts);
    forall q | q in t.procs && Occupies(t.procs[q]) ensures q == p {
      OneAlive(t, p, q);
    }
  }
}
