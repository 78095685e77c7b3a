/**
 What undisturbed callers achieve, and where the documented promises "two occupancies never
 share a fence" and "a release removes only its own record" stop holding.
 */
module FileLockProgress {
  import opened FileSystem
  import opened FileLock
  import opened FileLockSafety
  import opened FileLockExclusion
  import opened FileLockFence

  /** `t` can be reached from `s`. */
  ghost predicate Reaches(s: State, stale: Ages, t: State) {
    exists acts :: After(s, stale, acts) == t
  }

  lemma ReachesStep(s: State, stale: Ages, t: State, a: Action)
    requires Reaches(s, stale, t)
    ensures Reaches(s, stale, Step(t, stale, a))
  {
    var acts :| After(s, stale, acts) == t;
    AfterConcat(s, stale, acts, [a]);
    assert After(s, stale, acts + [a]) == Step(t, stale, a);
  }

  /** One successful call of a live process. */
  lemma Ran(s: State, stale: Ages, t: State, p: Pid, ino: Ino) returns (u: State)
    requires Reaches(s, stale, t) && p in t.procs && t.procs[p].alive
    ensures Reaches(s, stale, u) && u == GoStep(t, p, stale, Ok, ino)
  {
    u := Step(t, stale, Go(p, Ok, ino));
    ReachesStep(s, stale, t, Go(p, Ok, ino));
  }

  lemma RanStaging(s: State, stale: Ages, t: State, p: Pid, pc: Pc) returns (u: State)
    requires Reaches(s, stale, t) && p in t.procs && t.procs[p] == Proc(true, pc) && pc.Staging?
    ensures Reaches(s, stale, u) && u == StagingStep(t, p, pc, Ok)
  {
    u := Ran(s, stale, t, p, 0);
  }

  lemma RanInside(s: State, stale: Ages, t: State, p: Pid, mine: Rec, step: InsideStep) returns (u: State)
    requires Reaches(s, stale, t) && p in t.procs && t.procs[p] == Proc(true, Inside(mine, step))
    ensures Reaches(s, stale, u) && u == InsideStepOf(t, p, mine, step, Ok, 0)
  {
    u := Ran(s, stale, t, p, 0);
  }

  lemma RanAdvance(s: State, stale: Ages, t: State, p: Pid, mine: Rec, step: InsideStep, ino: Ino) returns (u: State)
    requires Reaches(s, stale, t) && p in t.procs && t.procs[p] == Proc(true, Inside(mine, step)) && Advancing(step)
    ensures Reaches(s, stale, u) && u == AdvanceStep(t, p, mine, step, Ok, ino)
  {
    u := Ran(s, stale, t, p, ino);
  }

  lemma RanAttempt(s: State, stale: Ages, t: State, p: Pid, ino: Ino) returns (u: State)
    requires Reaches(s, stale, t) && p in t.procs && t.procs[p] == Proc(true, Attempt)
    ensures Reaches(s, stale, u) && u == AttemptStep(t, p, Ok, ino)
  {
    u := Ran(s, stale, t, p, ino);
  }

  lemma RanAside(s: State, stale: Ages, t: State, p: Pid, pc: Pc) returns (u: State)
    requires Reaches(s, stale, t) && p in t.procs && t.procs[p] == Proc(true, pc) && pc.Aside?
    ensures Reaches(s, stale, u) && u == AsideStepOf(t, p, pc, Ok)
  {
    u := Ran(s, stale, t, p, 0);
  }

  /** Nothing but the directory, its versions, the serial counter and `p` differs. */
  ghost predicate OnlyMoved(s: State, t: State, p: Pid, pc: Pc, d: Disk, serial: nat) {
    && t.procs == s.procs[p := Proc(true, pc)] && t.disk == d && t.serial == serial
    && t.now == s.now && t.entered == s.entered && t.ledger == s.ledger && t.wrapped == s.wrapped
  }

  lemma StagingBegins(s0: State, stale: Ages, s: State, p: Pid, ino: Ino) returns (t: State)
    requires Reaches(s0, stale, s) && p in s.procs && s.procs[p] == Proc(true, Attempt)
    requires Free(s.disk, ino)
    ensures Reaches(s0, stale, t)
    ensures var bytes := Claim(s.serial, s.now);
            OnlyMoved(s, t, p, Staging(s.serial, ino, bytes, Seal),
                      Disk(s.disk.dir[ClaimTmp(s.serial) := ino], s.disk.files[ino := File(bytes, false)]), s.serial + 1)
  {
    hide After, Step, Reaches;
    var bytes := Claim(s.serial, s.now);
    var a := RanAttempt(s0, stale, s, p, ino);
    assert OnlyMoved(s, a, p, Staging(s.serial, ino, bytes, Write), Create(s.disk, ClaimTmp(s.serial), ino), s.serial + 1);
    t := RanStaging(s0, stale, a, p, Staging(s.serial, ino, bytes, Write));
    assert t.disk.files == s.disk.files[ino := File(bytes, false)];
  }

  /** The four calls that stage a complete, durable record under a fresh name. */
  lemma StagingSucceeds(s0: State, stale: Ages, s: State, p: Pid, ino: Ino) returns (t: State)
    requires Reaches(s0, stale, s) && p in s.procs && s.procs[p] == Proc(true, Attempt)
    requires Free(s.disk, ino)
    ensures Reaches(s0, stale, t)
    ensures var bytes := Claim(s.serial, s.now);
            OnlyMoved(s, t, p, Staging(s.serial, ino, bytes, LinkUp(Rec(ino, bytes))),
                      Disk(s.disk.dir[ClaimTmp(s.serial) := ino], s.disk.files[ino := File(bytes, true)]), s.serial + 1)
  {
    hide After, Step, Reaches;
    var bytes := Claim(s.serial, s.now);
    var d := Disk(s.disk.dir[ClaimTmp(s.serial) := ino], s.disk.files[ino := File(bytes, true)]);
    var b := StagingBegins(s0, stale, s, p, ino);
    var c := RanStaging(s0, stale, b, p, Staging(s.serial, ino, bytes, Seal));
    assert c.disk.files == d.files;
    assert OnlyMoved(s, c, p, Staging(s.serial, ino, bytes, Stat), d, s.serial + 1);
    t := RanStaging(s0, stale, c, p, Staging(s.serial, ino, bytes, Stat));
  }

  /** A claim nobody disturbs succeeds: its calls bind the lock name to the new record. */
  lemma ClaimSucceeds(s0: State, stale: Ages, s: State, p: Pid, ino: Ino) returns (t: State)
    requires Reaches(s0, stale, s) && p in s.procs && s.procs[p] == Proc(true, Attempt)
    requires Lock !in s.disk.dir && Free(s.disk, ino) && ClaimTmp(s.serial) !in s.disk.dir
    ensures Reaches(s0, stale, t)
    ensures var mine := Rec(ino, Claim(s.serial, s.now));
            && t.procs == s.procs[p := Proc(true, Inside(mine, ReadFence))]
            && t.disk == Disk(s.disk.dir[Lock := ino], s.disk.files[ino := File(mine.bytes, true)])
            && t.ledger == s.ledger[s.serial := Listing(mine, AtLock)]
            && t.serial == s.serial + 1 && t.now == s.now && t.entered == s.entered && t.wrapped == s.wrapped
  {
    hide After, Step, Reaches;
    var mine := Rec(ino, Claim(s.serial, s.now));
    var d := StagingSucceeds(s0, stale, s, p, ino);
    var e := RanStaging(s0, stale, d, p, d.procs[p].pc);
    t := LinkedSucceeds(s0, stale, e, p, mine, s.serial);
    assert t.disk.dir == s.disk.dir[Lock := ino];
  }

  lemma LinkedSucceeds(s0: State, stale: Ages, s: State, p: Pid, mine: Rec, tmp: nat) returns (t: State)
    requires Reaches(s0, stale, s) && p in s.procs && s.procs[p] == Proc(true, Inside(mine, DropTmp(tmp)))
    ensures Reaches(s0, stale, t)
    ensures OnlyMoved(s, t, p, Inside(mine, ReadFence), Unlink(s.disk, ClaimTmp(tmp)), s.serial)
  {
    hide After, Step, Reaches;
    var f := RanInside(s0, stale, s, p, mine, DropTmp(tmp));
    t := RanInside(s0, stale, f, p, mine, SyncLink);
  }

  lemma CounterStaged(s0: State, stale: Ages, s: State, p: Pid, mine: Rec, next: nat, ino: Ino) returns (t: State)
    requires Reaches(s0, stale, s) && p in s.procs && s.procs[p] == Proc(true, Inside(mine, CreateFence(next)))
    requires Free(s.disk, ino)
    ensures Reaches(s0, stale, t)
    ensures OnlyMoved(s, t, p, Inside(mine, SealFence(next, s.serial, ino)),
                      Disk(s.disk.dir[FenceTmp(s.serial) := ino], s.disk.files[ino := File(Counter(next), false)]),
                      s.serial + 1)
  {
    hide After, Step, Reaches;
    var a := RanAdvance(s0, stale, s, p, mine, CreateFence(next), ino);
    assert OnlyMoved(s, a, p, Inside(mine, WriteFence(next, s.serial, ino)),
                     Create(s.disk, FenceTmp(s.serial), ino), s.serial + 1);
    t := RanAdvance(s0, stale, a, p, mine, WriteFence(next, s.serial, ino), ino);
    assert t.disk.files == s.disk.files[ino := File(Counter(next), false)];
  }

  lemma CounterSwapped(s0: State, stale: Ages, s: State, p: Pid, mine: Rec, next: nat, tmp: nat, ino: Ino) returns (t: State)
    requires Reaches(s0, stale, s) && p in s.procs && s.procs[p] == Proc(true, Inside(mine, SealFence(next, tmp, ino)))
    requires Sole(s.disk, FenceTmp(tmp), ino)
    ensures Reaches(s0, stale, t)
    ensures OnlyMoved(s, t, p, Inside(mine, SyncFence(next, tmp)),
                      Disk((s.disk.dir - {FenceTmp(tmp)})[Fence := ino], s.disk.files[ino := File(Counter(next), true)]),
                      s.serial)
  {
    hide After, Step, Reaches;
    var c := RanAdvance(s0, stale, s, p, mine, SealFence(next, tmp, ino), ino);
    assert OnlyMoved(s, c, p, Inside(mine, RenameFence(next, tmp, ino)),
                     Put(s.disk, ino, File(Counter(next), true)), s.serial);
    t := RanAdvance(s0, stale, c, p, mine, RenameFence(next, tmp, ino), ino);
  }

  /** advanceFence, undisturbed, hands out the value it computed. */
  lemma AdvanceSucceeds(s0: State, stale: Ages, s: State, p: Pid, mine: Rec, next: nat, ino: Ino) returns (t: State)
    requires Reaches(s0, stale, s) && p in s.procs && s.procs[p] == Proc(true, Inside(mine, CreateFence(next)))
    requires Free(s.disk, ino) && FenceTmp(s.serial) !in s.disk.dir
    ensures Reaches(s0, stale, t) && t.procs == s.procs[p := Proc(true, Inside(mine, Held(next)))]
    ensures t.entered == s.entered + [next] && t.serial == s.serial + 1 && t.now == s.now && t.wrapped == s.wrapped
    ensures t.disk == Disk(s.disk.dir[Fence := ino], s.disk.files[ino := File(Counter(next), true)])
  {
    hide After, Step, Reaches;
    var b := CounterStaged(s0, stale, s, p, mine, next, ino);
    var d := CounterSwapped(s0, stale, b, p, mine, next, s.serial, ino);
    assert d.disk.dir == s.disk.dir[Fence := ino];
    assert d.disk.files == s.disk.files[ino := File(Counter(next), true)];
    t := RanAdvance(s0, stale, d, p, mine, SyncFence(next, s.serial), ino);
  }

  /** The fence an undisturbed occupancy is handed: 1 the first time, else one more than the counter, and 0 after its
      maximum. The counter is that fence from then on. */
  lemma FenceHandedOut(s0: State, stale: Ages, s: State, p: Pid, mine: Rec, ino: Ino) returns (t: State, fence: nat)
    requires Reaches(s0, stale, s) && p in s.procs && s.procs[p] == Proc(true, Inside(mine, ReadFence))
    requires Free(s.disk, ino) && FenceTmp(s.serial) !in s.disk.dir
    requires Fence in s.disk.dir ==>
      FileAt(s.disk, Fence).bytes.Counter? && FileAt(s.disk, Fence).bytes.value <= 0xffff_ffff_ffff_ffff
    ensures Reaches(s0, stale, t) && t.procs == s.procs[p := Proc(true, Inside(mine, Held(fence)))]
    ensures t.entered == s.entered + [fence] && Fence in t.disk.dir && FileAt(t.disk, Fence) == File(Counter(fence), true)
    ensures if Fence !in s.disk.dir then fence == 1
            else if FileAt(s.disk, Fence).bytes.value < 0xffff_ffff_ffff_ffff
            then fence == FileAt(s.disk, Fence).bytes.value + 1
            else fence == 0
  {
    hide After, Step, Reaches, Free;
    var a := RanInside(s0, stale, s, p, mine, ReadFence);
    fence := if Fence !in s.disk.dir then 1 else Successor(FileAt(s.disk, Fence).bytes.value);
    assert a.disk == s.disk && a.procs == s.procs[p := Proc(true, Inside(mine, CreateFence(fence)))];
    t := AdvanceSucceeds(s0, stale, a, p, mine, fence, ino);
  }

  /** The order of fences ends exactly where the counter is at its maximum: whichever
      occupancy reads it there, and is not disturbed, is handed fence 0. */
  lemma CounterWrapsToZero(s: State, stale: Ages, p: Pid, mine: Rec, ino: Ino)
    requires Safe(s) && p in s.procs && s.procs[p] == Proc(true, Inside(mine, ReadFence))
    requires Fence in s.disk.dir && FileAt(s.disk, Fence).bytes == Counter(MAX_FENCE)
    requires Free(s.disk, ino) && s.entered != []
    ensures exists acts :: After(s, stale, acts).entered == s.entered + [0]
    ensures !Increasing(s.entered + [0])
  {
    assert After(s, stale, []) == s;
    var a := RanInside(s, stale, s, p, mine, ReadFence);
    assert a.procs[p].pc == Inside(mine, CreateFence(0));
    assert DiskOk(s.past[|s.past| - 1], s.serial);
    var t := AdvanceSucceeds(s, stale, a, p, mine, 0, ino);
    var acts :| After(s, stale, acts) == t;
    var e := s.entered + [0];
    assert !(e[0] < e[|e| - 1]);
  }

  /** A failed acquisition that had published its record ends with its error in at most two more calls, and leaves the
      record at the lock name exactly when the record is there and the look at it or its removal fails. */
  lemma UndoRemovesExactly(s: State, stale: Ages, p: Pid, mine: Rec, last: Outcome, look: Call, drop: Call)
    requires p in s.procs && s.procs[p] == Proc(true, Inside(mine, Undo(last)))
    ensures var t := Step(Step(s, stale, Go(p, look, 0)), stale, Go(p, drop, 0));
            && p in t.procs && t.procs[p] == Proc(true, Idle(last))
            && (Holds(t.disk, Lock, mine) <==> Holds(s.disk, Lock, mine) && !(look == Ok && drop == Ok))
            && (forall n :: n != Lock ==> Same(s.disk, t.disk, n))
  {
    if look == Ok && Holds(s.disk, Lock, mine) {
      var a := Step(s, stale, Go(p, look, 0));
      assert a == Move(s, p, Inside(mine, Remove(last)));
      assert Step(a, stale, Go(p, drop, 0)) == InsideStepOf(a, p, mine, Remove(last), drop, 0);
    } else {
      assert Step(s, stale, Go(p, look, 0)) == Move(s, p, Idle(last));
    }
  }

  /** A release ends the occupancy in at most two calls, frees the lock name exactly when the releaser's own record is
      there and neither the look nor the removal fails, and changes no other name. */
  lemma ReleaseFreesExactly(s: State, stale: Ages, p: Pid, mine: Rec, fence: nat, look: Call, drop: Call)
    requires p in s.procs && s.procs[p] == Proc(true, Inside(mine, Held(fence)))
    ensures var t := Step(Step(s, stale, Action.Release(p, look)), stale, Go(p, drop, 0));
            && p in t.procs && t.procs[p] == Proc(true, Idle(Left))
            && (Holds(s.disk, Lock, mine) && look == Ok && drop == Ok ==> t.disk.dir == s.disk.dir - {Lock})
            && (!(Holds(s.disk, Lock, mine) && look == Ok && drop == Ok) ==> t.disk == s.disk)
            && t.disk.files == s.disk.files
  {
    var a := Step(s, stale, Action.Release(p, look));
    if look == Ok && Holds(s.disk, Lock, mine) {
      assert a == Move(s, p, Inside(mine, Remove(Left)));
      assert Step(a, stale, Go(p, drop, 0)) == InsideStepOf(a, p, mine, Remove(Left), drop, 0);
    } else {
      assert a == Move(s, p, Idle(Left));
      assert Step(a, stale, Go(p, drop, 0)) == a;
    }
  }

  // ------------------------------------------------- reclaim on: a fence given out twice

  lemma StaleRecordJudged(s0: State, stale: Ages, s: State, p: Pid, rec: Rec, ino: Ino) returns (t: State)
    requires Reaches(s0, stale, s) && p in s.procs && s.procs[p] == Proc(true, Judge)
    requires Holds(s.disk, Lock, rec) && rec.bytes.Claim? && 0 < stale(p) < s.now - rec.bytes.since
    requires Free(s.disk, ino)
    ensures Reaches(s0, stale, t)
    ensures OnlyMoved(s, t, p, SetAside(rec, s.now, s.serial), Create(s.disk, Tomb(s.serial), ino), s.serial + 1)
  {
    var a := Ran(s0, stale, s, p, ino);
    assert a == Move(s, p, Reserve(rec, s.now));
    t := Ran(s0, stale, a, p, ino);
  }

  /** A waiter that finds a stale record removes exactly that record and tries again. */
  lemma StaleRecordReclaimed(s0: State, stale: Ages, s: State, p: Pid, rec: Rec, ino: Ino) returns (t: State)
    requires Reaches(s0, stale, s) && p in s.procs && s.procs[p] == Proc(true, Judge)
    requires Holds(s.disk, Lock, rec) && rec.bytes.Claim? && 0 < stale(p) < s.now - rec.bytes.since
    requires Free(s.disk, ino) && Tomb(s.serial) !in s.disk.dir
    ensures Reaches(s0, stale, t) && t.procs == s.procs[p := Proc(true, Wait)]
    ensures t.disk.dir == s.disk.dir - {Lock} && t.serial == s.serial + 1
    ensures t.disk.files == s.disk.files[ino := File(Empty, false)]
    ensures t.entered == s.entered && t.now == s.now && t.wrapped == s.wrapped
  {
    hide After, Step, Reaches;
    var b := StaleRecordJudged(s0, stale, s, p, rec, ino);
    var c := Ran(s0, stale, b, p, ino);
    assert c.disk == Rename(b.disk, Lock, Tomb(s.serial));
    t := CaughtReclaimed(s0, stale, c, p, Aside(rec, s.now, s.serial, rec, StatTomb));
    assert t.disk.dir == s.disk.dir - {Lock};
  }

  lemma CaughtReclaimed(s0: State, stale: Ages, s: State, p: Pid, pc: Pc) returns (t: State)
    requires Reaches(s0, stale, s) && p in s.procs && s.procs[p] == Proc(true, pc)
    requires pc.Aside? && pc.move == StatTomb && Holds(s.disk, Tomb(pc.tomb), pc.judged)
    ensures Reaches(s0, stale, t) && t.procs == s.procs[p := Proc(true, Wait)]
    ensures t.disk == Unlink(s.disk, Tomb(pc.tomb)) && t.serial == s.serial
    ensures t.entered == s.entered && t.now == s.now && t.wrapped == s.wrapped
  {
    var a := RanAside(s0, stale, s, p, pc);
    var b := RanAside(s0, stale, a, p, pc.(move := CheckTomb));
    t := RanAside(s0, stale, b, p, pc.(move := RemoveJudged));
  }

  /**
    A waiter with nothing to reclaim, its StaleAfter unset, the record gone, unreadable, not a claim or not older than
    that, touches nothing, waits, and then begins its loop again.
  */
  lemma WaitsAndTriesAgain(s0: State, stale: Ages, s: State, p: Pid, call: Call) returns (t: State, u: State)
    requires Reaches(s0, stale, s) && p in s.procs && s.procs[p] == Proc(true, Judge)
    requires
      || stale(p) <= 0 || call != Ok || Lock !in s.disk.dir || !FileAt(s.disk, Lock).bytes.Claim?
      || s.now - FileAt(s.disk, Lock).bytes.since <= stale(p)
    ensures Reaches(s0, stale, t) && t == Step(s, stale, Go(p, call, 0)) && OnlyMoved(s, t, p, Wait, s.disk, s.serial)
    ensures Reaches(s0, stale, u) && OnlyMoved(s, u, p, Attempt, s.disk, s.serial)
  {
    hide After, Reaches;
    t := Step(s, stale, Go(p, call, 0));
    ReachesStep(s0, stale, s, Go(p, call, 0));
    u := Ran(s0, stale, t, p, 0);
  }

  /** A waiter that finds the record it judged gone already drops the name it reserved and goes back to waiting. */
  lemma GoneBeforeSetAside(s0: State, stale: Ages, s: State, p: Pid, judged: Rec, seen: int, tomb: nat) returns (t: State)
    requires Reaches(s0, stale, s) && p in s.procs && s.procs[p] == Proc(true, SetAside(judged, seen, tomb))
    requires Lock !in s.disk.dir
    ensures Reaches(s0, stale, t) && OnlyMoved(s, t, p, Wait, Unlink(s.disk, Tomb(tomb)), s.serial)
  {
    hide After, Reaches;
    var a := Ran(s0, stale, s, p, 0);
    t := Ran(s0, stale, a, p, 0);
  }

  /** A waiter that has caught another record than the one it judged puts it back and goes back to waiting. */
  lemma CaughtRestored(s0: State, stale: Ages, s: State, p: Pid, pc: Pc) returns (t: State)
    requires Reaches(s0, stale, s) && p in s.procs && s.procs[p] == Proc(true, pc)
    requires pc.Aside? && pc.move == StatTomb && Holds(s.disk, Tomb(pc.tomb), pc.caught) && pc.caught != pc.judged
    requires Lock !in s.disk.dir
    ensures Reaches(s0, stale, t) && t.procs == s.procs[p := Proc(true, Wait)]
    ensures t.disk.dir == s.disk.dir[Lock := pc.caught.ino] - {Tomb(pc.tomb)} && t.disk.files == s.disk.files
    ensures Holds(t.disk, Lock, pc.caught)
  {
    hide After, Step, Reaches;
    var a := RanAside(s0, stale, s, p, pc);
    var b := RanAside(s0, stale, a, p, pc.(move := CheckTomb));
    var c := RanAside(s0, stale, b, p, pc.(move := Restore));
    t := RanDiscard(s0, stale, c, p, Discard(Tomb(pc.tomb), ToWait));
  }

  lemma RanDiscard(s0: State, stale: Ages, s: State, p: Pid, pc: Pc) returns (t: State)
    requires Reaches(s0, stale, s) && p in s.procs && s.procs[p] == Proc(true, pc) && pc.Discard?
    ensures Reaches(s0, stale, t) && t == DiscardStep(s, p, pc, Ok)
  {
    t := Ran(s0, stale, s, p, 0);
  }

  /** An attempt that finds the lock name taken ends up judging the record there. */
  lemma ClaimRefused(s0: State, stale: Ages, s: State, p: Pid, ino: Ino) returns (t: State)
    requires Reaches(s0, stale, s) && p in s.procs && s.procs[p] == Proc(true, Attempt)
    requires Lock in s.disk.dir && Free(s.disk, ino) && ClaimTmp(s.serial) !in s.disk.dir
    ensures Reaches(s0, stale, t)
    ensures OnlyMoved(s, t, p, Judge, Disk(s.disk.dir, s.disk.files[ino := File(Claim(s.serial, s.now), true)]), s.serial + 1)
  {
    hide After, Step, Reaches;
    var d := StagingSucceeds(s0, stale, s, p, ino);
    var e := RanStaging(s0, stale, d, p, d.procs[p].pc);
    assert e == Move(d, p, Discard(ClaimTmp(s.serial), ToReclaim));
    t := Ran(s0, stale, e, p, ino);
    assert t.disk.dir == s.disk.dir;
  }

  /** A store that has never been used. */
  const EMPTY_STORE: State := State(Disk(map[], map[]), [Disk(map[], map[])], map[], 0, 0, map[], [], false)

  lemma StartAndClaim(s0: State, stale: Ages, s: State, p: Pid, ino: Ino) returns (t: State)
    requires Reaches(s0, stale, s) && p !in s.procs
    requires s.disk.dir.Keys == {} && Fence !in s.disk.dir
    ensures Reaches(s0, stale, t)
    ensures var mine := Rec(ino, Claim(s.serial, s.now));
            && t.procs == s.procs[p := Proc(true, Inside(mine, CreateFence(1)))]
            && t.disk.dir == map[Lock := ino] && FileAt(t.disk, Lock).bytes == mine.bytes
            && t.ledger == s.ledger[s.serial := Listing(mine, AtLock)]
            && t.serial == s.serial + 1 && t.now == s.now && t.entered == s.entered && t.wrapped == s.wrapped
  {
    ReachesStep(s0, stale, s, Start(p));
    var a := Step(s, stale, Start(p));
    assert a == Move(s, p, Attempt);
    var b := ClaimSucceeds(s0, stale, a, p, ino);
    assert b.disk.dir == map[Lock := ino];
    t := RanInside(s0, stale, b, p, Rec(ino, Claim(s.serial, s.now)), ReadFence);
  }

  /** Every name in the directory is older than the names still to come. */
  predicate NamesPast(d: Disk, serial: nat) {
    forall n :: n in d.dir ==> SerialOf(n) < serial
  }

  /** A second caller finds a stale record, reclaims it, leaves every other name alone and is
      back at the head of its loop. */
  lemma Overtake(s0: State, stale: Ages, s: State, p: Pid, rec: Rec, ino: Ino) returns (t: State)
    requires Reaches(s0, stale, s) && p !in s.procs
    requires Holds(s.disk, Lock, rec) && rec.bytes.Claim? && 0 < stale(p) < s.now - rec.bytes.since
    requires Free(s.disk, ino) && NamesPast(s.disk, s.serial)
    ensures Reaches(s0, stale, t) && t.procs == s.procs[p := Proc(true, Attempt)]
    ensures t.disk.dir == s.disk.dir - {Lock} && t.serial > s.serial
    ensures t.entered == s.entered && t.now == s.now && t.wrapped == s.wrapped
  {
    hide After;
    ReachesStep(s0, stale, s, Start(p));
    var a := Step(s, stale, Start(p));
    assert a == Move(s, p, Attempt);
    var b := ClaimRefused(s0, stale, a, p, ino);
    var c := StaleRecordReclaimed(s0, stale, b, p, rec, ino);
    t := Ran(s0, stale, c, p, 0);
  }

  lemma ReachesItself(s: State, stale: Ages)
    ensures Reaches(s, stale, s)
  {
    assert After(s, stale, []) == s;
  }

  lemma ClockMoved(s0: State, stale: Ages, s: State, now: int) returns (t: State)
    requires Reaches(s0, stale, s)
    ensures Reaches(s0, stale, t) && t == s.(now := now)
  {
    ReachesStep(s0, stale, s, SetClock(now));
    t := Step(s, stale, SetClock(now));
  }

  /** With reclaim on, whoever holds the lock name can be overtaken at any moment, once the clock has moved. */
  lemma Overtaken(stale: Ages, s: State, q: Pid, mine: Rec, spare: Ino, ino: Ino) returns (t: State, next: Rec)
    requires Reaches(EMPTY_STORE, stale, s) && stale(q) > 0 && q !in s.procs
    requires Holds(s.disk, Lock, mine) && mine.bytes.Claim? && NamesPast(s.disk, s.serial)
    requires Free(s.disk, spare) && Free(s.disk, ino)
    ensures Reaches(EMPTY_STORE, stale, t) && t.entered == s.entered && t.wrapped == s.wrapped
    ensures next.ino == ino && next.bytes.Claim? && next.bytes.id >= s.serial && t.serial > next.bytes.id
    ensures t.procs == s.procs[q := Proc(true, Inside(next, ReadFence))]
    ensures t.disk.dir == s.disk.dir[Lock := ino] && FileAt(t.disk, Lock).bytes == next.bytes
    ensures IdOf(next) in t.ledger
  {
    hide After, Step, Reaches;
    var since := mine.bytes.since + stale(q) + 1;
    var a := ClockMoved(EMPTY_STORE, stale, s, since);
    var b := Overtake(EMPTY_STORE, stale, a, q, mine, spare);
    next := Rec(ino, Claim(b.serial, since));
    t := ClaimSucceeds(EMPTY_STORE, stale, b, q, ino);
    assert t.disk.dir == s.disk.dir[Lock := ino];
  }

  /** The actions of a run that reaches a state. */
  lemma RunTo(s: State, stale: Ages, t: State) returns (acts: seq<Action>)
    requires Reaches(s, stale, t)
    ensures After(s, stale, acts) == t
  {
    acts :| After(s, stale, acts) == t;
  }

  /** With reclaim on for process `q`, two overlapping occupancies can be handed the same fence: another process is
      overtaken by `q` between reading the counter and rewriting it, whatever its own StaleAfter. */
  lemma ReclaimCanShareAFence(stale: Ages, q: Pid) returns (acts: seq<Action>)
    requires stale(q) > 0
    ensures Init(EMPTY_STORE) && !After(EMPTY_STORE, stale, acts).wrapped
    ensures After(EMPTY_STORE, stale, acts).entered == [1, 1]
  {
    hide After, Step, Reaches;
    var s, first := EMPTY_STORE, Rec(0, Claim(0, 0));
    ReachesItself(s, stale);
    var p := q + 1;
    var a := StartAndClaim(s, stale, s, p, 0);
    var b, second := Overtaken(stale, a, q, first, 1, 2);
    assert b.disk.dir == map[Lock := 2];
    var c := RanInside(s, stale, b, q, second, ReadFence);
    var d := AdvanceSucceeds(s, stale, c, p, first, 1, 3);
    assert d.disk.dir == map[Lock := 2, Fence := 3];
    var e := AdvanceSucceeds(s, stale, d, q, second, 1, 4);
    assert e.entered == [1, 1];
    acts := RunTo(s, stale, e);
  }

  ghost predicate FencesAlwaysIncrease(stale: Ages) {
    forall s, acts :: Init(s) && !After(s, stale, acts).wrapped ==> Increasing(After(s, stale, acts).entered)
  }

  /** The documented order of fences holds in all runs, but for the counter's wrap-around, exactly with reclaim off. */
  lemma FencesIncreaseExactly(stale: Ages)
    ensures FencesAlwaysIncrease(stale) <==> Off(stale)
  {
    if Off(stale) {
      forall s, acts | Init(s) && !After(s, stale, acts).wrapped
        ensures Increasing(After(s, stale, acts).entered)
      {
        FencesIncrease(s, stale, acts);
      }
    } else {
      var q :| stale(q) > 0;
      var acts := ReclaimCanShareAFence(stale, q);
      var entered := After(EMPTY_STORE, stale, acts).entered;
      assert !(entered[0] < entered[1]);
    }
  }

  lemma ReleaseBegun(s0: State, stale: Ages, s: State, p: Pid, mine: Rec, fence: nat) returns (t: State)
    requires Reaches(s0, stale, s) && p in s.procs && s.procs[p] == Proc(true, Inside(mine, Held(fence)))
    requires Holds(s.disk, Lock, mine)
    ensures Reaches(s0, stale, t) && t == Move(s, p, Inside(mine, Remove(Left)))
  {
    ReachesStep(s0, stale, s, Action.Release(p, Ok));
    t := Step(s, stale, Action.Release(p, Ok));
  }

  /** A release has removed the record of another occupancy, whose process is alive and inside. */
  ghost predicate SuccessorRemoved(s: State) {
    exists id, p ::
      && id in s.ledger && s.ledger[id].fate.Released? && s.ledger[id].fate.claim != id
      && p in s.procs && Occupies(s.procs[p]) && IdOf(s.procs[p].pc.mine) == id
  }

  /** With reclaim on for process `q`, a release can remove its successor's record: another holder is
      overtaken by `q` between the check and the remove of its own release, whatever its own StaleAfter. */
  lemma ReleaseCanRemoveSuccessor(stale: Ages, q: Pid) returns (acts: seq<Action>)
    requires stale(q) > 0
    ensures Init(EMPTY_STORE) && SuccessorRemoved(After(EMPTY_STORE, stale, acts))
  {
    hide After, Step, Reaches;
    var s, first := EMPTY_STORE, Rec(0, Claim(0, 0));
    ReachesItself(s, stale);
    var p := q + 1;
    var a := StartAndClaim(s, stale, s, p, 0);
    var b := AdvanceSucceeds(s, stale, a, p, first, 1, 3);
    assert b.disk.dir == map[Lock := 0, Fence := 3];
    var c := ReleaseBegun(s, stale, b, p, first, 1);
    var d, second := Overtaken(stale, c, q, first, 1, 2);
    var e := RanInside(s, stale, d, p, first, Remove(Left));
    var id := IdOf(second);
    assert id in e.ledger && e.ledger[id].fate == Released(0);
    assert q in e.procs && Occupies(e.procs[q]) && e.procs[q].pc.mine == second;
    acts := RunTo(s, stale, e);
  }

  ghost predicate ReleasesAlwaysOwn(stale: Ages) {
    forall s, acts :: Init(s) ==> OwnReleases(After(s, stale, acts))
  }

  /** The documented promise that a release removes only its own record holds in all runs exactly with reclaim off. */
  lemma ReleasesOwnExactly(stale: Ages)
    ensures ReleasesAlwaysOwn(stale) <==> Off(stale)
  {
    if Off(stale) {
      forall s, acts | Init(s) ensures OwnReleases(After(s, stale, acts)) {
        ReclaimOffSpares(s, stale, acts);
        ReleasesOwnOnly(s, stale, acts);
      }
    } else {
      var q :| stale(q) > 0;
      var acts := ReleaseCanRemoveSuccessor(stale, q);
      assert !OwnReleases(After(EMPTY_STORE, stale, acts));
    }
  }
}
