/** What reclaim may destroy: every published record is accounted for, in every run, whatever
    StaleAfter is. */
module FileLockReclaim {
  import opened FileSystem
  import opened FileLock
  import opened FileLockFence
  import opened FileLockSafety

  ghost predicate NoOwner(s: State, tomb: nat) {
    forall p :: p in s.procs ==> !Owns(s.procs[p].pc, tomb)
  }

  /** The clock reading `seen` put this record past StaleAfter. */
  predicate StaleAt(rec: Rec, seen: int, stale: int) {
    rec.bytes.Claim? && seen - rec.bytes.since > stale
  }

  /** What the ledger says about a record is true of the directory and of its reclaimer. */
  ghost predicate ListingOk(s: State, stale: Ages, id: nat, l: Listing) {
    && l.rec.bytes.Claim? && l.rec.bytes.id == id && id < s.serial
    && match l.fate
       case AtLock => Holds(s.disk, Lock, l.rec)
       case Taken(tomb, who) =>
         && who in s.procs && s.procs[who].pc.Aside?
         && s.procs[who].pc.tomb == tomb && s.procs[who].pc.caught == l.rec
       case Preserved(tomb, error) =>
         && (error == TwoInside(tomb) || error == LostAside(tomb))
         && tomb < s.serial && Holds(s.disk, Tomb(tomb), l.rec) && NoOwner(s, tomb)
       case Rubbish(tomb, who, seen) =>
         && StaleAt(l.rec, seen, stale(who))
         && tomb < s.serial && Holds(s.disk, Tomb(tomb), l.rec) && NoOwner(s, tomb)
       case Stranded(tomb) => tomb < s.serial && Holds(s.disk, Tomb(tomb), l.rec) && NoOwner(s, tomb)
       case Reclaimed(who, seen) => StaleAt(l.rec, seen, stale(who))
       case Released(_) => true
       case Cleared => true
       case LostToHost => true
  }

  ghost predicate PcListed(ledger: map<nat, Listing>, stale: Ages, p: Pid, pc: Pc) {
    match pc
    case Staging(tmp, _, _, _) => tmp !in ledger
    case Inside(mine, _) => IdOf(mine) in ledger && ledger[IdOf(mine)].rec == mine
    case Reserve(judged, seen) => StaleAt(judged, seen, stale(p))
    case SetAside(judged, seen, _) => StaleAt(judged, seen, stale(p))
    case Aside(judged, seen, tomb, caught, _) =>
      && StaleAt(judged, seen, stale(p))
      && IdOf(caught) in ledger && ledger[IdOf(caught)] == Listing(caught, Taken(tomb, p))
    case _ => true
  }

  ghost predicate LockListed(s: State) {
    Lock in s.disk.dir && FileAt(s.disk, Lock).bytes.Claim? ==>
      var id := FileAt(s.disk, Lock).bytes.id;
      id in s.ledger && s.ledger[id].fate == AtLock
  }

  ghost predicate Accounted(s: State, stale: Ages) {
    && (forall id :: id in s.ledger ==> ListingOk(s, stale, id, s.ledger[id]))
    && (forall p :: p in s.procs ==> PcListed(s.ledger, stale, p, s.procs[p].pc))
    && LockListed(s)
  }

  // ---------------------------------------------------------------- quiet steps

  /** A move of `p` that touches neither the lock name, nor any set-aside name without an
      owner, nor the ledger. */
  ghost predicate QuietMove(s: State, t: State, stale: Ages, p: Pid) {
    && p in s.procs && p in t.procs && t.procs == s.procs[p := t.procs[p]]
    && t.ledger == s.ledger && s.serial <= t.serial
    && Same(s.disk, t.disk, Lock)
    && (forall k: nat :: k < s.serial && !Owns(s.procs[p].pc, k) ==> Same(s.disk, t.disk, Tomb(k)))
    && (forall k :: Owns(t.procs[p].pc, k) ==> Owns(s.procs[p].pc, k) || s.serial <= k)
    && (s.procs[p].pc.Aside? ==>
          t.procs[p].pc.Aside? && t.procs[p].pc.tomb == s.procs[p].pc.tomb && t.procs[p].pc.caught == s.procs[p].pc.caught)
    && PcListed(s.ledger, stale, p, t.procs[p].pc)
  }

  lemma QuietAccounted(s: State, t: State, stale: Ages, p: Pid)
    requires Safe(s) && Accounted(s, stale) && QuietMove(s, t, stale, p)
    ensures Accounted(t, stale)
  {
    forall id | id in t.ledger ensures ListingOk(t, stale, id, t.ledger[id]) {
      assert ListingOk(s, stale, id, s.ledger[id]);
    }
  }

  /** The lock name holds one listed record, and only that one is listed as there. */
  lemma OneAtLock(s: State, stale: Ages, id: nat)
    requires Accounted(s, stale) && id in s.ledger && s.ledger[id].fate == AtLock
    ensures Lock in s.disk.dir && FileAt(s.disk, Lock).bytes == s.ledger[id].rec.bytes
    ensures FileAt(s.disk, Lock).bytes.Claim? && FileAt(s.disk, Lock).bytes.id == id
    ensures s.ledger[id].rec == Rec(s.disk.dir[Lock], FileAt(s.disk, Lock).bytes)
  {
    assert ListingOk(s, stale, id, s.ledger[id]);
  }

  // ------------------------------------------------- steps that change a record's fate

  lemma LinkAccounted(s: State, stale: Ages, p: Pid, pc: Pc)
    requires Safe(s) && Accounted(s, stale) && p in s.procs && s.procs[p].pc == pc
    requires pc.Staging? && pc.at.LinkUp? && Lock !in s.disk.dir
    ensures Accounted(StagingStep(s, p, pc, Ok), stale)
  {
    var t := StagingStep(s, p, pc, Ok);
    assert PcOk(s.disk, pc) && PcListed(s.ledger, stale, p, pc);
    assert Owns(pc, pc.tmp);
    forall id | id in t.ledger ensures ListingOk(t, stale, id, t.ledger[id]) {
      if id in s.ledger {
        assert ListingOk(s, stale, id, s.ledger[id]);
      }
    }
    forall q | q in t.procs ensures PcListed(t.ledger, stale, q, t.procs[q].pc) {
      if q != p {
        assert PcListed(s.ledger, stale, q, s.procs[q].pc);
        if s.procs[q].pc.Staging? {
          assert Owns(s.procs[q].pc, s.procs[q].pc.tmp);
        }
      }
    }
  }

  lemma RemoveAccounted(s: State, stale: Ages, p: Pid, mine: Rec, last: Outcome, ino: Ino)
    requires Safe(s) && Accounted(s, stale) && p in s.procs && s.procs[p].pc == Inside(mine, Remove(last))
    ensures Accounted(InsideStepOf(s, p, mine, Remove(last), Ok, ino), stale)
  {
    var t := InsideStepOf(s, p, mine, Remove(last), Ok, ino);
    var u := SetLockFate(s, Released(IdOf(mine)));
    assert t.ledger == u.ledger && t.disk == Unlink(s.disk, Lock);
    DepartAccounted(s, t, stale, p, Released(IdOf(mine)));
  }

  /** The lock name is unbound and its record gets a fate that claims nothing more. */
  lemma DepartAccounted(s: State, t: State, stale: Ages, p: Pid, fate: Fate)
    requires Safe(s) && Accounted(s, stale) && p in s.procs && p in t.procs
    requires fate.Released? && t.procs == s.procs[p := t.procs[p]]
    requires !s.procs[p].pc.Aside? && t.procs[p].pc.Idle?
    requires t.ledger == SetLockFate(s, fate).ledger && t.disk == Unlink(s.disk, Lock) && t.serial == s.serial
    ensures Accounted(t, stale)
  {
    var last := |s.past| - 1;
    assert DiskOk(s.past[last], s.serial);
    hide Safe, Owns, DiskOk;
    forall id | id in t.ledger ensures ListingOk(t, stale, id, t.ledger[id]) {
      DepartListing(s, t, stale, p, fate, id);
    }
    hide ListingOk;
    forall q | q in t.procs ensures PcListed(t.ledger, stale, q, t.procs[q].pc) {
      assert PcListed(s.ledger, stale, q, s.procs[q].pc);
    }
  }

  lemma DepartListing(s: State, t: State, stale: Ages, p: Pid, fate: Fate, id: nat)
    requires Accounted(s, stale) && p in s.procs && p in t.procs
    requires fate.Released? && t.procs == s.procs[p := t.procs[p]]
    requires !s.procs[p].pc.Aside? && t.procs[p].pc.Idle?
    requires t.ledger == SetLockFate(s, fate).ledger && t.disk == Unlink(s.disk, Lock) && t.serial == s.serial
    requires id in t.ledger
    ensures ListingOk(t, stale, id, t.ledger[id])
  {
    assert ListingOk(s, stale, id, s.ledger[id]);
    if s.ledger[id].fate == AtLock { OneAtLock(s, stale, id); }
  }

  lemma SetAsideAccounted(s: State, stale: Ages, p: Pid, judged: Rec, seen: int, tomb: nat)
    requires Safe(s) && Accounted(s, stale) && p in s.procs && s.procs[p].pc == SetAside(judged, seen, tomb)
    requires Lock in s.disk.dir
    ensures Accounted(SetAsideStep(s, p, judged, seen, tomb, Ok), stale)
  {
    var t := SetAsideStep(s, p, judged, seen, tomb, Ok);
    assert PcOk(s.disk, s.procs[p].pc) && PcListed(s.ledger, stale, p, s.procs[p].pc);
    assert Owns(s.procs[p].pc, tomb);
    var last := |s.past| - 1;
    assert DiskOk(s.past[last], s.serial);
    var caught := FileAt(s.disk, Lock).bytes.id;
    OneAtLock(s, stale, caught);
    forall id | id in t.ledger ensures ListingOk(t, stale, id, t.ledger[id]) {
      assert ListingOk(s, stale, id, s.ledger[id]);
      if s.ledger[id].fate == AtLock { OneAtLock(s, stale, id); }
    }
    forall q | q in t.procs ensures PcListed(t.ledger, stale, q, t.procs[q].pc) {
      assert PcListed(s.ledger, stale, q, s.procs[q].pc);
    }
  }

  /** Process `p` settles the record it caught: the record's fate leaves `Taken`. */
  lemma SettleAccounted(s: State, t: State, stale: Ages, p: Pid, pc: Pc, fate: Fate)
    requires Safe(s) && Accounted(s, stale) && p in s.procs && s.procs[p].pc == pc && pc.Aside?
    requires p in t.procs && t.procs == s.procs[p := t.procs[p]] && t.serial == s.serial
    requires t.ledger == SetFate(s, IdOf(pc.caught), fate).ledger
    requires !fate.Taken? && ListingOk(t, stale, IdOf(pc.caught), Listing(pc.caught, fate))
    requires fate != AtLock ==> Same(s.disk, t.disk, Lock)
    requires fate == AtLock ==> Lock !in s.disk.dir && t.disk == Link(s.disk, Tomb(pc.tomb), Lock)
    requires forall k: nat :: k != pc.tomb && k < s.serial ==> Same(s.disk, t.disk, Tomb(k))
    requires t.procs[p].pc.Idle? || t.procs[p].pc == Wait || t.procs[p].pc == Discard(Tomb(pc.tomb), ToWait)
    ensures Accounted(t, stale)
  {
    assert PcListed(s.ledger, stale, p, pc);
    hide Safe, ListingOk;
    forall id | id in t.ledger ensures ListingOk(t, stale, id, t.ledger[id]) {
      SettleListing(s, t, stale, p, pc, fate, id);
    }
    forall q | q in t.procs ensures PcListed(t.ledger, stale, q, t.procs[q].pc) {
      SettlePc(s, t, stale, p, pc, fate, q);
    }
    SettleLock(s, t, stale, p, pc, fate);
  }

  lemma SettleListing(s: State, t: State, stale: Ages, p: Pid, pc: Pc, fate: Fate, id: nat)
    requires p in s.procs && s.procs[p].pc == pc && pc.Aside?
    requires p in t.procs && t.procs == s.procs[p := t.procs[p]] && t.serial == s.serial
    requires t.ledger == SetFate(s, IdOf(pc.caught), fate).ledger
    requires !fate.Taken? && ListingOk(t, stale, IdOf(pc.caught), Listing(pc.caught, fate))
    requires fate != AtLock ==> Same(s.disk, t.disk, Lock)
    requires fate == AtLock ==> Lock !in s.disk.dir
    requires forall k: nat :: k != pc.tomb && k < s.serial ==> Same(s.disk, t.disk, Tomb(k))
    requires t.procs[p].pc.Idle? || t.procs[p].pc == Wait || t.procs[p].pc == Discard(Tomb(pc.tomb), ToWait)
    requires PcListed(s.ledger, stale, p, pc)
    requires id in s.ledger && ListingOk(s, stale, id, s.ledger[id])
    ensures ListingOk(t, stale, id, t.ledger[id])
  {
    assert Owns(pc, pc.tomb);
  }

  lemma SettlePc(s: State, t: State, stale: Ages, p: Pid, pc: Pc, fate: Fate, q: Pid)
    requires p in s.procs && s.procs[p].pc == pc && pc.Aside? && PcListed(s.ledger, stale, p, pc)
    requires p in t.procs && t.procs == s.procs[p := t.procs[p]]
    requires t.ledger == SetFate(s, IdOf(pc.caught), fate).ledger
    requires t.procs[p].pc.Idle? || t.procs[p].pc == Wait || t.procs[p].pc == Discard(Tomb(pc.tomb), ToWait)
    requires q in s.procs && PcListed(s.ledger, stale, q, s.procs[q].pc)
    ensures PcListed(t.ledger, stale, q, t.procs[q].pc)
  {}

  lemma SettleLock(s: State, t: State, stale: Ages, p: Pid, pc: Pc, fate: Fate)
    requires LockListed(s) && pc.Aside? && PcListed(s.ledger, stale, p, pc)
    requires t.ledger == SetFate(s, IdOf(pc.caught), fate).ledger
    requires ListingOk(t, stale, IdOf(pc.caught), Listing(pc.caught, fate))
    requires fate != AtLock ==> Same(s.disk, t.disk, Lock)
    ensures LockListed(t)
  {}

  lemma AsideMoves(s: State, p: Pid, pc: Pc, call: Call)
    requires pc.Aside?
    ensures var t := AsideStepOf(s, p, pc, call);
            p in t.procs && t.procs == s.procs[p := t.procs[p]] && t.serial == s.serial
  {
    if pc.move.StatTomb? || pc.move.CheckTomb? {
      LookMoves(s, p, pc, call);
    } else {
      SettleMoves(s, p, pc, call);
    }
    hide AsideStepOf;
  }

  lemma LookMoves(s: State, p: Pid, pc: Pc, call: Call)
    requires pc.Aside? && (pc.move.StatTomb? || pc.move.CheckTomb?)
    ensures var t := AsideStepOf(s, p, pc, call);
            p in t.procs && t.procs == s.procs[p := t.procs[p]] && t.serial == s.serial
  {}

  lemma SettleMoves(s: State, p: Pid, pc: Pc, call: Call)
    requires pc.Aside? && (pc.move.RemoveJudged? || pc.move.Restore?)
    ensures var t := AsideStepOf(s, p, pc, call);
            p in t.procs && t.procs == s.procs[p := t.procs[p]] && t.serial == s.serial
  {}

  lemma AsideLeaves(s: State, p: Pid, pc: Pc, call: Call)
    requires pc.Aside? && p in AsideStepOf(s, p, pc, call).procs && !AsideStepOf(s, p, pc, call).procs[p].pc.Aside?
    ensures pc.move != CheckTomb && (pc.move == StatTomb ==> call != Ok || Tomb(pc.tomb) !in s.disk.dir)
  {}

  lemma AsideRestores(s: State, p: Pid, pc: Pc)
    requires pc.Aside? && pc.move.Restore? && Lock !in s.disk.dir && Tomb(pc.tomb) in s.disk.dir
    ensures var t := AsideStepOf(s, p, pc, Ok);
            && t.ledger == SetFate(s, IdOf(pc.caught), AtLock).ledger
            && p in t.procs && t.procs[p].pc == Discard(Tomb(pc.tomb), ToWait)
  {}

  lemma OtherTombsStay(s: State, p: Pid, pc: Pc, call: Call, k: nat)
    requires PcOk(s.disk, pc) && pc.Aside? && k != pc.tomb
    ensures Same(s.disk, AsideStepOf(s, p, pc, call).disk, Tomb(k))
  {
    UntouchedAside(s, p, pc, call, Tomb(k));
  }

  lemma AsideAccounted(s: State, stale: Ages, p: Pid, pc: Pc, call: Call)
    requires Safe(s) && Accounted(s, stale) && p in s.procs && s.procs[p].pc == pc && pc.Aside?
    requires p in AsideStepOf(s, p, pc, call).procs && !AsideStepOf(s, p, pc, call).procs[p].pc.Aside?
    ensures Accounted(AsideStepOf(s, p, pc, call), stale)
  {
    hide AsideStepOf, Accounted, ListingOk, DroppedFate;
    var t := AsideStepOf(s, p, pc, call);
    assert PcOk(s.disk, pc);
    AsideMoves(s, p, pc, call);
    AsideLeaves(s, p, pc, call);
    forall k: nat | k != pc.tomb && k < s.serial ensures Same(s.disk, t.disk, Tomb(k)) {
      OtherTombsStay(s, p, pc, call, k);
    }
    if pc.move.Restore? && call == Ok && Lock !in s.disk.dir {
      AsideRestores(s, p, pc);
      RestoredListing(s, stale, p, pc);
      SettleAccounted(s, t, stale, p, pc, AtLock);
    } else {
      DroppedListing(s, stale, p, pc, call);
      NotTaken(p, pc, call);
      SettleAccounted(s, t, stale, p, pc, DroppedFate(p, pc, call));
    }
  }

  lemma NotTaken(p: Pid, pc: Pc, call: Call)
    requires pc.Aside?
    ensures !DroppedFate(p, pc, call).Taken? && DroppedFate(p, pc, call) != AtLock
  {}

  function DroppedFate(p: Pid, pc: Pc, call: Call): Fate
    requires pc.Aside?
  {
    match pc.move
    case StatTomb => Preserved(pc.tomb, LostAside(pc.tomb))
    case RemoveJudged => if call == Ok then Reclaimed(p, pc.seen) else Rubbish(pc.tomb, p, pc.seen)
    case _ => Preserved(pc.tomb, TwoInside(pc.tomb))
  }

  lemma RestoredListing(s: State, stale: Ages, p: Pid, pc: Pc)
    requires Safe(s) && Accounted(s, stale) && p in s.procs && s.procs[p].pc == pc && pc.Aside?
    requires pc.move.Restore? && Lock !in s.disk.dir
    ensures ListingOk(AsideStepOf(s, p, pc, Ok), stale, IdOf(pc.caught), Listing(pc.caught, AtLock))
    ensures AsideStepOf(s, p, pc, Ok).disk == Link(s.disk, Tomb(pc.tomb), Lock)
  {
    assert PcOk(s.disk, pc) && PcListed(s.ledger, stale, p, pc);
    assert ListingOk(s, stale, IdOf(pc.caught), s.ledger[IdOf(pc.caught)]);
  }

  lemma DroppedListing(s: State, stale: Ages, p: Pid, pc: Pc, call: Call)
    requires Safe(s) && Accounted(s, stale) && p in s.procs && s.procs[p].pc == pc && pc.Aside?
    requires pc.move == StatTomb ==> call != Ok
    requires pc.move != CheckTomb && (pc.move == Restore ==> call != Ok || Lock in s.disk.dir)
    ensures var t := AsideStepOf(s, p, pc, call);
            && ListingOk(t, stale, IdOf(pc.caught), Listing(pc.caught, DroppedFate(p, pc, call)))
            && Same(s.disk, t.disk, Lock)
            && t.ledger == SetFate(s, IdOf(pc.caught), DroppedFate(p, pc, call)).ledger
            && (t.procs[p].pc.Idle? || t.procs[p].pc == Wait)
  {
    var t := AsideStepOf(s, p, pc, call);
    assert PcOk(s.disk, pc) && PcListed(s.ledger, stale, p, pc);
    assert ListingOk(s, stale, IdOf(pc.caught), s.ledger[IdOf(pc.caught)]);
    assert Owns(pc, pc.tomb);
    forall q | q in t.procs ensures !Owns(t.procs[q].pc, pc.tomb) {
    }
  }

  // ------------------------------------------------------------------ quiet positions

  ghost predicate QuietShape(s: State, t: State, stale: Ages, p: Pid) {
    && p in s.procs && p in t.procs && t.procs == s.procs[p := t.procs[p]]
    && t.ledger == s.ledger && s.serial <= t.serial
    && (forall k :: Owns(t.procs[p].pc, k) ==> Owns(s.procs[p].pc, k) || s.serial <= k)
    && (s.procs[p].pc.Aside? ==>
          t.procs[p].pc.Aside? && t.procs[p].pc.tomb == s.procs[p].pc.tomb && t.procs[p].pc.caught == s.procs[p].pc.caught)
    && PcListed(s.ledger, stale, p, t.procs[p].pc)
  }

  lemma QuietStaging(s: State, stale: Ages, p: Pid, pc: Pc, call: Call)
    requires p in s.procs && s.procs[p].pc == pc && pc.Staging? && PcListed(s.ledger, stale, p, pc)
    requires !(pc.at.LinkUp? && call == Ok && Lock !in s.disk.dir && ClaimTmp(pc.tmp) in s.disk.dir)
    ensures QuietShape(s, StagingStep(s, p, pc, call), stale, p)
  {
  }

  lemma QuietAdvancing(s: State, stale: Ages, p: Pid, mine: Rec, step: InsideStep, call: Call, ino: Ino)
    requires p in s.procs && s.procs[p].pc == Inside(mine, step) && PcListed(s.ledger, stale, p, Inside(mine, step))
    requires Advancing(step)
    ensures QuietShape(s, AdvanceStep(s, p, mine, step, call, ino), stale, p)
  {
  }

  lemma QuietInside(s: State, stale: Ages, p: Pid, mine: Rec, step: InsideStep, call: Call, ino: Ino)
    requires p in s.procs && s.procs[p].pc == Inside(mine, step) && PcListed(s.ledger, stale, p, Inside(mine, step))
    requires !Advancing(step) && (step.Remove? ==> call != Ok)
    ensures QuietShape(s, InsideStepOf(s, p, mine, step, call, ino), stale, p)
  {
  }

  lemma QuietAttempt(s: State, stale: Ages, p: Pid, call: Call, ino: Ino)
    requires p in s.procs && s.procs[p].pc.Attempt? && s.serial !in s.ledger
    ensures QuietShape(s, AttemptStep(s, p, call, ino), stale, p)
  {
  }

  lemma QuietDiscard(s: State, stale: Ages, p: Pid, pc: Pc, call: Call)
    requires p in s.procs && s.procs[p].pc == pc && pc.Discard?
    ensures QuietShape(s, DiscardStep(s, p, pc, call), stale, p)
  {
  }

  lemma QuietJudging(s: State, stale: Ages, p: Pid, call: Call, ino: Ino)
    requires p in s.procs && PcListed(s.ledger, stale, p, s.procs[p].pc)
    requires var pc := s.procs[p].pc; pc.Idle? || pc.Judge? || pc.Reserve? || pc.SetAside? || pc.Wait?
    requires s.procs[p].pc.SetAside? ==> call != Ok || Lock !in s.disk.dir
    ensures QuietShape(s, GoStep(s, p, stale, call, ino), stale, p)
  {
  }

  lemma QuietLooking(s: State, stale: Ages, p: Pid, pc: Pc, call: Call)
    requires p in s.procs && s.procs[p].pc == pc && pc.Aside? && PcListed(s.ledger, stale, p, pc)
    requires AsideStepOf(s, p, pc, call).procs[p].pc.Aside?
    ensures QuietShape(s, AsideStepOf(s, p, pc, call), stale, p)
    ensures AsideStepOf(s, p, pc, call).disk == s.disk
  {
  }

  /** The calls that decide a record's fate. */
  ghost predicate Decides(s: State, pc: Pc, call: Call) {
    || (pc.Staging? && pc.at.LinkUp? && call == Ok && Lock !in s.disk.dir && ClaimTmp(pc.tmp) in s.disk.dir)
    || (pc.Inside? && pc.step.Remove? && call == Ok)
    || (pc.SetAside? && call == Ok && Lock in s.disk.dir)
    || (pc.Aside? && pc.move != CheckTomb && (pc.move.StatTomb? ==> call != Ok))
  }

  lemma QuietGo(s: State, stale: Ages, p: Pid, call: Call, ino: Ino)
    requires Safe(s) && Accounted(s, stale) && p in s.procs && !Decides(s, s.procs[p].pc, call)
    ensures QuietShape(s, GoStep(s, p, stale, call, ino), stale, p)
  {
    var pc := s.procs[p].pc;
    assert PcListed(s.ledger, stale, p, pc) && PcOk(s.disk, pc);
    match pc
    case Attempt =>
      forall id | id in s.ledger ensures id < s.serial { assert ListingOk(s, stale, id, s.ledger[id]); }
      QuietAttempt(s, stale, p, call, ino);
    case Staging(_, _, _, _) => QuietStaging(s, stale, p, pc, call);
    case Discard(_, _) => QuietDiscard(s, stale, p, pc, call);
    case Inside(mine, step) =>
      if Advancing(step) { QuietAdvancing(s, stale, p, mine, step, call, ino); }
      else { QuietInside(s, stale, p, mine, step, call, ino); }
    case Aside(_, _, _, _, _) => QuietLooking(s, stale, p, pc, call);
    case _ => QuietJudging(s, stale, p, call, ino);
  }

  /** A call that decides nothing leaves the lock name alone. */
  lemma QuietLock(s: State, stale: Ages, p: Pid, call: Call, ino: Ino)
    requires Safe(s) && p in s.procs && !Decides(s, s.procs[p].pc, call)
    ensures Same(s.disk, GoStep(s, p, stale, call, ino).disk, Lock)
  {
    var pc := s.procs[p].pc;
    assert PcOk(s.disk, pc);
    if TouchesLock(pc) {
      if pc.Staging? { assert StagingStep(s, p, pc, call).disk == s.disk; }
    } else {
      UntouchedBy(s, p, stale, call, ino, Lock);
    }
  }

  lemma GoAccounted(s: State, stale: Ages, p: Pid, call: Call, ino: Ino)
    requires Safe(s) && Accounted(s, stale) && p in s.procs
    ensures Accounted(GoStep(s, p, stale, call, ino), stale)
  {
    var pc := s.procs[p].pc;
    assert PcOk(s.disk, pc);
    if Decides(s, pc, call) {
      match pc
      case Staging(_, _, _, _) => LinkAccounted(s, stale, p, pc);
      case Inside(mine, step) => RemoveAccounted(s, stale, p, mine, step.last, ino);
      case SetAside(judged, seen, tomb) => SetAsideAccounted(s, stale, p, judged, seen, tomb);
      case Aside(_, _, _, _, _) => AsideAccounted(s, stale, p, pc, call);
    } else {
      var t := GoStep(s, p, stale, call, ino);
      QuietGo(s, stale, p, call, ino);
      QuietLock(s, stale, p, call, ino);
      forall k: nat | k < s.serial && !Owns(pc, k) ensures Same(s.disk, t.disk, Tomb(k)) {
        UntouchedBy(s, p, stale, call, ino, Tomb(k));
      }
      QuietAccounted(s, t, stale, p);
    }
  }

  /** What the operator's clearing changes, when it changes anything. */
  ghost predicate ClearsLock(s: State, t: State) {
    && t.ledger == SetLockFate(s, Cleared).ledger && t.disk == Unlink(s.disk, Lock) && t.serial == s.serial
    && t.procs.Keys == s.procs.Keys
    && forall p :: p in s.procs ==> t.procs[p] == s.procs[p] || (s.procs[p].pc.Inside? && t.procs[p].pc == Idle(Killed))
  }

  lemma OperatorClears(s: State)
    ensures OperatorStep(s) == s || ClearsLock(s, OperatorStep(s))
  {}

  lemma OperatorListings(s: State, t: State, stale: Ages)
    requires Accounted(s, stale) && ClearsLock(s, t)
    ensures forall id :: id in t.ledger ==> ListingOk(t, stale, id, t.ledger[id])
  {
    forall id | id in t.ledger ensures ListingOk(t, stale, id, t.ledger[id]) {
      assert ListingOk(s, stale, id, s.ledger[id]);
      if s.ledger[id].fate == AtLock { OneAtLock(s, stale, id); }
    }
  }

  lemma OperatorAccounted(s: State, stale: Ages)
    requires Safe(s) && Accounted(s, stale)
    ensures Accounted(OperatorStep(s), stale)
  {
    hide OperatorStep, Safe;
    var t := OperatorStep(s);
    OperatorClears(s);
    if t != s {
      OperatorListings(s, t, stale);
      forall q | q in t.procs ensures PcListed(t.ledger, stale, q, t.procs[q].pc) {
        assert PcListed(s.ledger, stale, q, s.procs[q].pc);
      }
    }
  }

  lemma StillAccounted(s: State, t: State, stale: Ages, p: Pid)
    requires Safe(s) && Accounted(s, stale)
    requires p in t.procs && t.procs == s.procs[p := t.procs[p]]
    requires t.ledger == s.ledger && t.serial == s.serial && t.disk == s.disk
    requires p in s.procs && s.procs[p].pc.Aside? ==> t.procs[p].pc == s.procs[p].pc
    requires forall k :: Owns(t.procs[p].pc, k) ==> p in s.procs && Owns(s.procs[p].pc, k)
    requires PcListed(s.ledger, stale, p, t.procs[p].pc)
    ensures Accounted(t, stale)
  {
    forall id | id in t.ledger ensures ListingOk(t, stale, id, t.ledger[id]) {
      assert ListingOk(s, stale, id, s.ledger[id]);
    }
  }

  // ---------------------------------------------------------------- host crashes

  /** The record at the lock name in this version of the directory is listed with its inode and bytes. */
  ghost predicate Remembers(ledger: map<nat, Listing>, d: Disk) {
    Lock in d.dir && FileAt(d, Lock).bytes.Claim? ==>
      var rec := Rec(d.dir[Lock], FileAt(d, Lock).bytes);
      IdOf(rec) in ledger && ledger[IdOf(rec)].rec == rec
  }

  ghost predicate PastListed(s: State) {
    forall i :: 0 <= i < |s.past| ==> Remembers(s.ledger, s.past[i])
  }

  /** No listing is dropped, and none changes its record. */
  ghost predicate RecsKept(before: map<nat, Listing>, after: map<nat, Listing>) {
    forall id :: id in before ==> id in after && after[id].rec == before[id].rec
  }

  ghost predicate PastGrows(s: State, t: State) {
    t.past == s.past || t.past == s.past + [t.disk] || t.past == [t.disk]
  }

  lemma AccountedRemembers(s: State, stale: Ages)
    requires Accounted(s, stale)
    ensures Remembers(s.ledger, s.disk)
  {
    if Lock in s.disk.dir && FileAt(s.disk, Lock).bytes.Claim? {
      OneAtLock(s, stale, FileAt(s.disk, Lock).bytes.id);
    }
  }

  lemma PastStaysListed(s: State, t: State, stale: Ages)
    requires PastListed(s) && Accounted(t, stale)
    requires RecsKept(s.ledger, t.ledger) && PastGrows(s, t)
    ensures PastListed(t)
  {
    AccountedRemembers(t, stale);
    forall i | 0 <= i < |t.past| ensures Remembers(t.ledger, t.past[i]) {
      if t.past[i] != t.disk {
        assert Remembers(s.ledger, s.past[i]);
      }
    }
  }

  lemma PastInside(s: State, p: Pid, mine: Rec, step: InsideStep, call: Call, ino: Ino)
    requires p in s.procs && !Advancing(step)
    ensures PastGrows(s, InsideStepOf(s, p, mine, step, call, ino))
  {}

  lemma PastAdvancing(s: State, p: Pid, mine: Rec, step: InsideStep, call: Call, ino: Ino)
    requires p in s.procs && Advancing(step)
    ensures PastGrows(s, AdvanceStep(s, p, mine, step, call, ino))
  {}

  lemma PastGo(s: State, p: Pid, stale: Ages, call: Call, ino: Ino)
    requires p in s.procs
    ensures PastGrows(s, GoStep(s, p, stale, call, ino))
  {
    hide StagingStep, AsideStepOf, AdvanceStep;
    match s.procs[p].pc
    case Inside(mine, step) =>
      if Advancing(step) {
        PastAdvancing(s, p, mine, step, call, ino);
      } else {
        PastInside(s, p, mine, step, call, ino);
      }
    case _ => NoEventOutside(s, p, stale, call, ino);
  }

  lemma LinkKeepsRecs(s: State, stale: Ages, p: Pid, pc: Pc)
    requires Safe(s) && Accounted(s, stale) && p in s.procs && s.procs[p].pc == pc && Decides(s, pc, Ok) && pc.Staging?
    ensures RecsKept(s.ledger, StagingStep(s, p, pc, Ok).ledger)
  {
    assert PcOk(s.disk, pc) && PcListed(s.ledger, stale, p, pc);
    assert StagingStep(s, p, pc, Ok).ledger == Publish(s, pc.at.mine).ledger;
  }

  lemma DecisionKeepsRecs(s: State, stale: Ages, p: Pid, call: Call, ino: Ino)
    requires Safe(s) && Accounted(s, stale) && p in s.procs && Decides(s, s.procs[p].pc, call)
    ensures RecsKept(s.ledger, GoStep(s, p, stale, call, ino).ledger)
  {
    hide StagingStep, AsideStepOf, AdvanceStep, Safe, Accounted;
    var pc := s.procs[p].pc;
    match pc
    case Staging(_, _, _, _) => LinkKeepsRecs(s, stale, p, pc);
    case Inside(mine, step) => RemoveLedger(s, p, mine, step, call, ino);
    case SetAside(_, _, _) =>
    case Aside(_, _, _, _, _) => AsideKeepsRecs(s, p, pc, call);
  }

  lemma GoKeepsRecs(s: State, stale: Ages, p: Pid, call: Call, ino: Ino)
    requires Safe(s) && Accounted(s, stale) && p in s.procs
    ensures RecsKept(s.ledger, GoStep(s, p, stale, call, ino).ledger)
  {
    hide GoStep, Safe, Accounted, Decides;
    if Decides(s, s.procs[p].pc, call) {
      DecisionKeepsRecs(s, stale, p, call, ino);
    } else {
      QuietGo(s, stale, p, call, ino);
    }
  }

  /** The only listing a reclaimer's call can change is that of the record it caught. */
  ghost predicate OnlyCaught(s: State, p: Pid, pc: Pc, call: Call)
    requires pc.Aside?
  {
    var after := AsideStepOf(s, p, pc, call).ledger;
    || after == s.ledger
    || after == SetFate(s, IdOf(pc.caught), DroppedFate(p, pc, call)).ledger
    || after == SetFate(s, IdOf(pc.caught), AtLock).ledger
  }

  lemma StatLedger(s: State, p: Pid, pc: Pc, call: Call)
    requires pc.Aside? && pc.move.StatTomb?
    ensures OnlyCaught(s, p, pc, call)
  {}

  lemma CheckLedger(s: State, p: Pid, pc: Pc, call: Call)
    requires pc.Aside? && pc.move.CheckTomb?
    ensures OnlyCaught(s, p, pc, call)
  {}

  lemma DropLedger(s: State, p: Pid, pc: Pc, call: Call)
    requires pc.Aside? && pc.move.RemoveJudged?
    ensures OnlyCaught(s, p, pc, call)
  {}

  lemma RestoreLedger(s: State, p: Pid, pc: Pc, call: Call)
    requires pc.Aside? && pc.move.Restore?
    ensures OnlyCaught(s, p, pc, call)
  {}

  lemma AsideLedger(s: State, p: Pid, pc: Pc, call: Call)
    requires pc.Aside?
    ensures OnlyCaught(s, p, pc, call)
  {
    hide OnlyCaught;
    match pc.move
    case StatTomb => StatLedger(s, p, pc, call);
    case CheckTomb => CheckLedger(s, p, pc, call);
    case RemoveJudged => DropLedger(s, p, pc, call);
    case Restore => RestoreLedger(s, p, pc, call);
  }

  lemma AsideKeepsRecs(s: State, p: Pid, pc: Pc, call: Call)
    requires pc.Aside?
    ensures RecsKept(s.ledger, AsideStepOf(s, p, pc, call).ledger)
  {
    hide AsideStepOf, DroppedFate;
    AsideLedger(s, p, pc, call);
  }

  /** A host crash brings back at most a record that some version of the directory since the last fsync had. */
  lemma CrashRemembers(s: State, d: Disk)
    requires Safe(s) && PastListed(s) && CrashOutcome(s.past, d)
    ensures Remembers(s.ledger, d)
    ensures Lock in d.dir ==> FileAt(d, Lock).bytes.Claim?
  {
    assert EntryFrom(s.past, d, Lock);
    var k :| 0 <= k < |s.past| && SameEntry(s.past[k], d, Lock);
    assert DiskOk(s.past[k], s.serial) && Remembers(s.ledger, s.past[k]);
  }

  lemma HostCrashAccounted(s: State, stale: Ages, d: Disk)
    requires Safe(s) && Accounted(s, stale) && PastListed(s) && CrashOutcome(s.past, d)
    ensures Accounted(HostCrashStep(s, d), stale) && PastListed(HostCrashStep(s, d))
  {
    var t := HostCrashStep(s, d);
    CrashRemembers(s, d);
    forall id | id in t.ledger ensures ListingOk(t, stale, id, t.ledger[id]) {
      assert ListingOk(s, stale, id, s.ledger[id]);
    }
  }

  // -------------------------------------------------------------------- every step

  lemma StepAccounted(s: State, stale: Ages, a: Action)
    requires Safe(s) && Accounted(s, stale) && !a.HostCrash?
    ensures Accounted(Step(s, stale, a), stale)
    ensures RecsKept(s.ledger, Step(s, stale, a).ledger) && PastGrows(s, Step(s, stale, a))
  {
    hide GoStep;
    match a
    case Start(p) => if Step(s, stale, a) != s { StillAccounted(s, Step(s, stale, a), stale, p); }
    case Go(p, call, ino) =>
      if p in s.procs && s.procs[p].alive {
        GoAccounted(s, stale, p, call, ino);
        GoKeepsRecs(s, stale, p, call, ino);
        PastGo(s, p, stale, call, ino);
      }
    case Release(p, call) =>
      if Step(s, stale, a) != s {
        assert PcListed(s.ledger, stale, p, s.procs[p].pc);
        StillAccounted(s, Step(s, stale, a), stale, p);
      }
    case Crash(p) =>
      if p in s.procs {
        assert PcListed(s.ledger, stale, p, s.procs[p].pc);
        StillAccounted(s, Step(s, stale, a), stale, p);
      }
    case SetClock(now) => ClockAccounted(s, stale, now);
    case OperatorClear => OperatorAccounted(s, stale);
  }

  lemma ClockAccounted(s: State, stale: Ages, now: int)
    requires Accounted(s, stale)
    ensures Accounted(s.(now := now), stale)
  {
    forall id | id in s.ledger ensures ListingOk(s.(now := now), stale, id, s.ledger[id]) {
      assert ListingOk(s, stale, id, s.ledger[id]);
    }
  }

  /** The account of every record ever published is kept by every step, host crashes included. */
  lemma StepKeepsAccount(s: State, stale: Ages, a: Action)
    requires Safe(s) && Accounted(s, stale) && PastListed(s)
    ensures Accounted(Step(s, stale, a), stale) && PastListed(Step(s, stale, a))
  {
    hide Accounted, PastListed;
    if a.HostCrash? {
      if CrashOutcome(s.past, a.disk) {
        HostCrashAccounted(s, stale, a.disk);
      }
    } else {
      StepAccounted(s, stale, a);
      PastStaysListed(s, Step(s, stale, a), stale);
    }
  }

  lemma InitAccounted(s: State, stale: Ages)
    requires Init(s)
    ensures Safe(s) && Accounted(s, stale) && PastListed(s)
  {
  }

  lemma {:induction false} EveryRunAccounted(s: State, stale: Ages, acts: seq<Action>)
    requires Safe(s) && Accounted(s, stale) && PastListed(s)
    ensures var t := After(s, stale, acts); Safe(t) && Accounted(t, stale) && PastListed(t)
    decreases |acts|
  {
    hide Accounted, PastListed, Safe, Step;
    if acts != [] {
      StepSafe(s, stale, acts[0]);
      StepKeepsAccount(s, stale, acts[0]);
      EveryRunAccounted(Step(s, stale, acts[0]), stale, acts[1..]);
    }
  }

  // ------------------------------------------------- what only a host crash can lose

  ghost predicate NoHostCrash(acts: seq<Action>) {
    forall i :: 0 <= i < |acts| ==> !acts[i].HostCrash?
  }

  ghost predicate NothingLost(ledger: map<nat, Listing>) {
    forall id :: id in ledger ==> !ledger[id].fate.LostToHost? && !ledger[id].fate.Stranded?
  }

  lemma DecisionLosesNothing(s: State, stale: Ages, p: Pid, call: Call, ino: Ino)
    requires NothingLost(s.ledger) && p in s.procs && Decides(s, s.procs[p].pc, call)
    ensures NothingLost(GoStep(s, p, stale, call, ino).ledger)
  {
    hide StagingStep, AsideStepOf, AdvanceStep;
    var pc := s.procs[p].pc;
    match pc
    case Staging(_, _, _, _) => LinkListing(s, p, pc, call);
    case Inside(mine, step) => RemoveLedger(s, p, mine, step, call, ino);
    case SetAside(_, _, _) =>
    case Aside(_, _, _, _, _) => AsideLosesNothing(s, p, pc, call);
  }

  lemma RemoveLedger(s: State, p: Pid, mine: Rec, step: InsideStep, call: Call, ino: Ino)
    requires step.Remove?
    ensures var after := InsideStepOf(s, p, mine, step, call, ino).ledger;
            after == s.ledger || after == SetLockFate(s, Released(IdOf(mine))).ledger
  {}

  lemma GoLosesNothing(s: State, stale: Ages, p: Pid, call: Call, ino: Ino)
    requires Safe(s) && Accounted(s, stale) && NothingLost(s.ledger) && p in s.procs
    ensures NothingLost(GoStep(s, p, stale, call, ino).ledger)
  {
    hide GoStep, NothingLost, Safe, Accounted, Decides;
    if Decides(s, s.procs[p].pc, call) {
      DecisionLosesNothing(s, stale, p, call, ino);
    } else {
      QuietGo(s, stale, p, call, ino);
    }
  }

  lemma StepLosesNothing(s: State, stale: Ages, a: Action)
    requires Safe(s) && Accounted(s, stale) && NothingLost(s.ledger) && !a.HostCrash?
    ensures NothingLost(Step(s, stale, a).ledger)
  {
    hide GoStep, Accounted, Safe;
    match a
    case Go(p, call, ino) =>
      if p in s.procs && s.procs[p].alive {
        GoLosesNothing(s, stale, p, call, ino);
      }
    case _ =>
  }

  lemma AsideLosesNothing(s: State, p: Pid, pc: Pc, call: Call)
    requires pc.Aside? && NothingLost(s.ledger)
    ensures NothingLost(AsideStepOf(s, p, pc, call).ledger)
  {
    hide AsideStepOf;
    AsideLedger(s, p, pc, call);
  }

  /** In a run without a host crash no record is lost: each is at the lock name, under a set-aside name that its
      reclaimer is at work on or has reported, or was released, cleared or rightly reclaimed. */
  lemma {:induction false} OnlyHostCrashesLose(s: State, stale: Ages, acts: seq<Action>)
    requires Safe(s) && Accounted(s, stale) && NothingLost(s.ledger) && NoHostCrash(acts)
    ensures NothingLost(After(s, stale, acts).ledger)
    decreases |acts|
  {
    if acts != [] {
      StepSafe(s, stale, acts[0]);
      StepAccounted(s, stale, acts[0]);
      StepLosesNothing(s, stale, acts[0]);
      OnlyHostCrashesLose(Step(s, stale, acts[0]), stale, acts[1..]);
    }
  }

  /** Where a record may be found, or what may have removed it. */
  ghost predicate AccountedFor(d: Disk, stale: Ages, rec: Rec, fate: Fate) {
    || (fate.AtLock? && Holds(d, Lock, rec))
    || (fate.Taken? && Holds(d, Tomb(fate.tomb), rec))
    || (fate.Preserved? && Holds(d, Tomb(fate.tomb), rec) && fate.error in {TwoInside(fate.tomb), LostAside(fate.tomb)})
    || (fate.Rubbish? && Holds(d, Tomb(fate.tomb), rec) && StaleAt(rec, fate.seen, stale(fate.who)))
    || (fate.Stranded? && Holds(d, Tomb(fate.tomb), rec))
    || fate.Released? || fate.Cleared? || fate.LostToHost?
    || (fate.Reclaimed? && StaleAt(rec, fate.seen, stale(fate.who)))
  }

  /** In every run, every record ever published is bound, with its own inode and bytes, to the
      lock name or to a set-aside name, or was removed by a release or by the operator, or lost
      its name in a host crash, or was reclaimed: then its reclaimer's clock read more than
      StaleAfter past that very record's stamp. Without a host crash none is lost. */
  lemma ReclaimDestroysOnlyStaleRecords(s: State, stale: Ages, acts: seq<Action>)
    requires Init(s)
    ensures var t := After(s, stale, acts);
            forall id :: id in t.ledger ==>
              && t.ledger[id].rec.bytes.Claim? && t.ledger[id].rec.bytes.id == id
              && AccountedFor(t.disk, stale, t.ledger[id].rec, t.ledger[id].fate)
    ensures NoHostCrash(acts) ==> NothingLost(After(s, stale, acts).ledger)
  {
    InitAccounted(s, stale);
    EveryRunAccounted(s, stale, acts);
    if NoHostCrash(acts) {
      OnlyHostCrashesLose(s, stale, acts);
    }
    var t := After(s, stale, acts);
    forall id | id in t.ledger ensures
        && t.ledger[id].rec.bytes.Claim? && t.ledger[id].rec.bytes.id == id
        && AccountedFor(t.disk, stale, t.ledger[id].rec, t.ledger[id].fate)
    {
      var fate := t.ledger[id].fate;
      assert ListingOk(t, stale, id, t.ledger[id]);
      if fate.Taken? { assert PcOk(t.disk, t.procs[fate.who].pc); }
    }
  }

  predicate Settled(fate: Fate) {
    !fate.AtLock? && !fate.Taken?
  }

  /** A settled fate is final, and in particular a preserved record stays where the error said,
      unless a host crash brings the record back to the lock name or takes its name away. */
  lemma SettledStays(s: State, stale: Ages, a: Action, id: nat)
    requires Safe(s) && Accounted(s, stale) && id in s.ledger && Settled(s.ledger[id].fate)
    ensures var t := Step(s, stale, a);
            && id in t.ledger && t.ledger[id].rec == s.ledger[id].rec
            && (|| t.ledger[id] == s.ledger[id]
                || (a.HostCrash? && t.ledger[id].fate.AtLock? && Holds(t.disk, Lock, t.ledger[id].rec))
                || (a.HostCrash? && t.ledger[id].fate.LostToHost?))
  {
    match a
    case Go(p, call, ino) =>
      if p in s.procs && s.procs[p].alive {
        if Decides(s, s.procs[p].pc, call) {
          SettledAtDecision(s, stale, p, call, ino, id);
        } else {
          QuietGo(s, stale, p, call, ino);
        }
      }
    case _ =>
  }

  lemma SettledAtDecision(s: State, stale: Ages, p: Pid, call: Call, ino: Ino, id: nat)
    requires Safe(s) && Accounted(s, stale) && id in s.ledger && Settled(s.ledger[id].fate)
    requires p in s.procs && Decides(s, s.procs[p].pc, call)
    ensures var t := GoStep(s, p, stale, call, ino); id in t.ledger && t.ledger[id] == s.ledger[id]
  {
    hide StagingStep, AsideStepOf, AdvanceStep, DroppedFate;
    var pc := s.procs[p].pc;
    assert PcListed(s.ledger, stale, p, pc) && PcOk(s.disk, pc);
    match pc
    case Staging(_, _, _, _) => LinkListing(s, p, pc, call);
    case Inside(mine, step) => RemoveLedger(s, p, mine, step, call, ino);
    case SetAside(judged, seen, tomb) =>
    case Aside(_, _, _, _, _) => AsideLedger(s, p, pc, call);
  }

  /** A record is set aside for good by one call only, and that call ends its Acquire with the error that says so. */
  lemma PreservedIsReported(s: State, stale: Ages, a: Action, id: nat)
    requires Safe(s) && Accounted(s, stale) && id in s.ledger && !s.ledger[id].fate.Preserved?
    requires id in Step(s, stale, a).ledger && Step(s, stale, a).ledger[id].fate.Preserved?
    ensures a.Go? && a.p in s.procs && s.procs[a.p].alive && s.procs[a.p].pc.Aside?
    ensures var pc, fate := s.procs[a.p].pc, Step(s, stale, a).ledger[id].fate;
            && pc.caught == s.ledger[id].rec && fate.tomb == pc.tomb
            && Step(s, stale, a).procs[a.p] == Proc(true, Idle(fate.error))
  {
    match a
    case Go(p, call, ino) =>
      if p in s.procs && s.procs[p].alive {
        var pc := s.procs[p].pc;
        assert PcListed(s.ledger, stale, p, pc) && PcOk(s.disk, pc);
        if Decides(s, pc, call) {
          match pc
          case Staging(_, _, _, _) => LinkListing(s, p, pc, call);
          case Inside(_, _) =>
          case SetAside(_, _, _) =>
          case Aside(_, _, _, _, _) => PreservedAside(s, p, pc, call, id);
        } else {
          QuietGo(s, stale, p, call, ino);
        }
      }
    case _ =>
  }

  lemma LinkListing(s: State, p: Pid, pc: Pc, call: Call)
    requires pc.Staging? && Decides(s, pc, call)
    ensures StagingStep(s, p, pc, call).ledger == Publish(s, pc.at.mine).ledger
  {}

  lemma PreservedAside(s: State, p: Pid, pc: Pc, call: Call, id: nat)
    requires p in s.procs && s.procs[p].pc == pc && pc.Aside?
    requires IdOf(pc.caught) in s.ledger && s.ledger[IdOf(pc.caught)].rec == pc.caught
    requires id in s.ledger && !s.ledger[id].fate.Preserved?
    requires var t := AsideStepOf(s, p, pc, call); id in t.ledger && t.ledger[id].fate.Preserved?
    ensures var t := AsideStepOf(s, p, pc, call);
            && id == IdOf(pc.caught) && pc.caught == s.ledger[id].rec && t.ledger[id].fate.tomb == pc.tomb
            && t.procs[p] == Proc(true, Idle(t.ledger[id].fate.error))
  {}

  /** The step sets record `id` aside for good and ends its process's Acquire with the error of that fate. */
  ghost predicate Reports(s: State, stale: Ages, a: Action, id: nat, fate: Fate)
    requires fate.Preserved?
  {
    && a.Go? && a.p in s.procs && s.procs[a.p].pc.Aside?
    && id in s.ledger && s.procs[a.p].pc.caught == s.ledger[id].rec && s.procs[a.p].pc.tomb == fate.tomb
    && a.p in Step(s, stale, a).procs && Step(s, stale, a).procs[a.p] == Proc(true, Idle(fate.error))
  }

  lemma LastStep(s: State, stale: Ages, acts: seq<Action>)
    requires acts != []
    ensures After(s, stale, acts) == Step(After(s, stale, acts[..|acts| - 1]), stale, acts[|acts| - 1])
  {
    var before, last := acts[..|acts| - 1], acts[|acts| - 1];
    assert acts == before + [last];
    AfterConcat(s, stale, before, [last]);
    assert After(Step(After(s, stale, before), stale, last), stale, []) == Step(After(s, stale, before), stale, last);
  }

  /** Every record that a run leaves set aside for good was reported: some step of the run ended the Acquire of the
      process that had caught it, with the error that names where it is. */
  lemma {:induction false} PreservedWasReported(s: State, stale: Ages, acts: seq<Action>, id: nat)
    requires Init(s)
    requires id in After(s, stale, acts).ledger && After(s, stale, acts).ledger[id].fate.Preserved?
    ensures exists k :: 0 <= k < |acts| &&
              Reports(After(s, stale, acts[..k]), stale, acts[k], id, After(s, stale, acts).ledger[id].fate)
    decreases |acts|
  {
    hide Step, Safe, Accounted, PastListed, Reports;
    InitAccounted(s, stale);
    if acts != [] {
      var before, last := acts[..|acts| - 1], acts[|acts| - 1];
      var t := After(s, stale, before);
      LastStep(s, stale, acts);
      EveryRunAccounted(s, stale, before);
      if id in t.ledger && t.ledger[id].fate.Preserved? {
        SettledStays(t, stale, last, id);
        PreservedWasReported(s, stale, before, id);
        var k :| 0 <= k < |before| && Reports(After(s, stale, before[..k]), stale, before[k], id, t.ledger[id].fate);
        assert acts[..k] == before[..k] && acts[k] == before[k];
      } else {
        ReportedNow(t, stale, last, id);
      }
    }
  }

  lemma ReportedNow(s: State, stale: Ages, a: Action, id: nat)
    requires Safe(s) && Accounted(s, stale) && (id in s.ledger ==> !s.ledger[id].fate.Preserved?)
    requires id in Step(s, stale, a).ledger && Step(s, stale, a).ledger[id].fate.Preserved?
    ensures Reports(s, stale, a, id, Step(s, stale, a).ledger[id].fate)
  {
    NewListing(s, stale, a, id);
    PreservedIsReported(s, stale, a, id);
  }

  /** A record that was not listed before is listed at the lock name. */
  lemma NewListing(s: State, stale: Ages, a: Action, id: nat)
    requires Safe(s) && Accounted(s, stale) && id in Step(s, stale, a).ledger
    ensures id in s.ledger || Step(s, stale, a).ledger[id].fate == AtLock
  {
    match a
    case Go(p, call, ino) =>
      if p in s.procs && s.procs[p].alive {
        if Decides(s, s.procs[p].pc, call) {
          NewAtDecision(s, stale, p, call, ino, id);
        } else {
          QuietGo(s, stale, p, call, ino);
        }
      }
    case _ =>
  }

  lemma NewAtDecision(s: State, stale: Ages, p: Pid, call: Call, ino: Ino, id: nat)
    requires p in s.procs && Decides(s, s.procs[p].pc, call)
    ensures var after := GoStep(s, p, stale, call, ino).ledger;
            id in after ==> id in s.ledger || after[id].fate == AtLock
  {
    hide StagingStep, AsideStepOf, AdvanceStep;
    var pc := s.procs[p].pc;
    match pc
    case Staging(_, _, _, _) => LinkListing(s, p, pc, call);
    case Inside(_, _) =>
    case SetAside(_, _, _) =>
    case Aside(_, _, _, _, _) => AsideLedger(s, p, pc, call);
  }

  // --------------------------------------------- a reclaimed holder removes nothing

  /** The occupancy that published record `id` has removed no record and is not about to. */
  ghost predicate RemovesNothing(s: State, id: nat) {
    && (forall v :: v in s.ledger ==> s.ledger[v].fate != Released(id))
    && (forall p :: p in s.procs && s.procs[p].pc.Inside? && s.procs[p].pc.step.Remove? ==> IdOf(s.procs[p].pc.mine) != id)
  }

  /** releaseOwn's check does not pass for a record that is not listed at the lock name. */
  lemma CheckFails(s: State, stale: Ages, mine: Rec, id: nat)
    requires Accounted(s, stale) && Holds(s.disk, Lock, mine) && mine.bytes.Claim? && IdOf(mine) == id
    ensures id in s.ledger && s.ledger[id].fate == AtLock
  {
  }

  lemma RemoveEntry(s: State, p: Pid, mine: Rec, step: InsideStep, call: Call, ino: Ino)
    requires p in s.procs && s.procs[p].pc == Inside(mine, step)
    ensures var pc := InsideStepOf(s, p, mine, step, call, ino).procs[p].pc;
            pc.Inside? && pc.step.Remove? ==> pc.mine == mine && Holds(s.disk, Lock, mine)
  {
    if Advancing(step) {
      assert !(AdvanceStep(s, p, mine, step, call, ino).procs[p].pc.step.Remove?);
    }
  }

  /** A call by `p` that can make `id` a remover is its own remove. */
  ghost predicate NoNewRemover(s: State, t: State, p: Pid, id: nat) {
    && p in t.procs && t.procs == s.procs[p := t.procs[p]] && s.serial <= t.serial
    && !(t.procs[p].pc.Inside? && t.procs[p].pc.step.Remove?)
    && forall v :: v in t.ledger && t.ledger[v].fate == Released(id) ==> v in s.ledger && s.ledger[v].fate == Released(id)
  }

  lemma AsideRemovesNothing(s: State, p: Pid, call: Call, id: nat)
    requires p in s.procs && s.procs[p].pc.Aside? && Decides(s, s.procs[p].pc, call)
    ensures NoNewRemover(s, AsideStepOf(s, p, s.procs[p].pc, call), p, id)
  {
    var pc := s.procs[p].pc;
    var t := AsideStepOf(s, p, pc, call);
    assert t.ledger == SetFate(s, IdOf(pc.caught), DroppedFate(p, pc, call)).ledger
        || t.ledger == SetFate(s, IdOf(pc.caught), AtLock).ledger;
  }

  lemma LinkRemovesNothing(s: State, p: Pid, call: Call, id: nat)
    requires p in s.procs && s.procs[p].pc.Staging? && Decides(s, s.procs[p].pc, call)
    ensures NoNewRemover(s, StagingStep(s, p, s.procs[p].pc, call), p, id)
  {
    var pc := s.procs[p].pc;
    assert StagingStep(s, p, pc, call).ledger == Publish(s, pc.at.mine).ledger;
  }

  lemma DecisionRemovesNothing(s: State, stale: Ages, p: Pid, call: Call, ino: Ino, id: nat)
    requires p in s.procs && Decides(s, s.procs[p].pc, call)
    requires s.procs[p].pc.Inside? ==> IdOf(s.procs[p].pc.mine) != id
    ensures NoNewRemover(s, GoStep(s, p, stale, call, ino), p, id)
  {
    hide StagingStep, AsideStepOf;
    match s.procs[p].pc
    case Staging(_, _, _, _) => LinkRemovesNothing(s, p, call, id);
    case Inside(mine, step) =>
    case SetAside(judged, seen, tomb) =>
    case Aside(_, _, _, _, _) => AsideRemovesNothing(s, p, call, id);
  }

  lemma GoRemovesNothing(s: State, stale: Ages, p: Pid, call: Call, ino: Ino, id: nat)
    requires Safe(s) && Accounted(s, stale) && p in s.procs
    requires id in s.ledger && s.ledger[id].fate.Reclaimed? && RemovesNothing(s, id)
    ensures RemovesNothing(GoStep(s, p, stale, call, ino), id)
  {
    var pc := s.procs[p].pc;
    var t := GoStep(s, p, stale, call, ino);
    assert PcOk(s.disk, pc);
    if Decides(s, pc, call) {
      DecisionRemovesNothing(s, stale, p, call, ino, id);
    } else {
      QuietGo(s, stale, p, call, ino);
      if pc.Inside? {
        RemoveEntry(s, p, pc.mine, pc.step, call, ino);
        if Holds(s.disk, Lock, pc.mine) { CheckFails(s, stale, pc.mine, IdOf(pc.mine)); }
      } else {
        NeverStraightToRemove(s, stale, p, call, ino);
      }
    }
  }

  lemma NeverStraightToRemove(s: State, stale: Ages, p: Pid, call: Call, ino: Ino)
    requires p in s.procs && !s.procs[p].pc.Inside? && !Decides(s, s.procs[p].pc, call)
    ensures p in GoStep(s, p, stale, call, ino).procs
    ensures !GoStep(s, p, stale, call, ino).procs[p].pc.Inside?
  {
    hide StagingStep, AsideStepOf;
    match s.procs[p].pc
    case Staging(_, _, _, _) => StagingNotInside(s, p, s.procs[p].pc, call);
    case Aside(_, _, _, _, _) => AsideNotInside(s, p, s.procs[p].pc, call);
    case _ =>
  }

  lemma StagingNotInside(s: State, p: Pid, pc: Pc, call: Call)
    requires p in s.procs && s.procs[p].pc == pc && pc.Staging? && !Decides(s, pc, call)
    ensures p in StagingStep(s, p, pc, call).procs && !StagingStep(s, p, pc, call).procs[p].pc.Inside?
  {}

  lemma AsideNotInside(s: State, p: Pid, pc: Pc, call: Call)
    requires p in s.procs && s.procs[p].pc == pc && pc.Aside?
    ensures p in AsideStepOf(s, p, pc, call).procs && !AsideStepOf(s, p, pc, call).procs[p].pc.Inside?
  {}

  lemma ReleaseRemovesNothing(s: State, stale: Ages, p: Pid, call: Call, id: nat)
    requires Safe(s) && Accounted(s, stale) && p in s.procs && s.procs[p].pc.Inside?
    requires id in s.ledger && s.ledger[id].fate.Reclaimed? && RemovesNothing(s, id)
    ensures RemovesNothing(CheckOwn(s, p, s.procs[p].pc.mine, Left, call), id)
  {
    var mine := s.procs[p].pc.mine;
    assert PcOk(s.disk, s.procs[p].pc);
    if Holds(s.disk, Lock, mine) { CheckFails(s, stale, mine, IdOf(mine)); }
  }

  lemma OperatorRemovesNothing(s: State, id: nat)
    requires RemovesNothing(s, id)
    ensures RemovesNothing(OperatorStep(s), id)
  {
    assert OperatorStep(s).ledger == s.ledger || OperatorStep(s).ledger == SetLockFate(s, Cleared).ledger;
  }

  lemma StepRemovesNothing(s: State, stale: Ages, a: Action, id: nat)
    requires Safe(s) && Accounted(s, stale) && !a.HostCrash?
    requires id in s.ledger && s.ledger[id].fate.Reclaimed? && RemovesNothing(s, id)
    ensures RemovesNothing(Step(s, stale, a), id)
  {
    hide GoStep, CheckOwn, OperatorStep, Accounted, Safe;
    match a
    case Go(p, call, ino) => if p in s.procs && s.procs[p].alive { GoRemovesNothing(s, stale, p, call, ino, id); }
    case Release(p, call) =>
      if p in s.procs && s.procs[p].alive && s.procs[p].pc.Inside? && s.procs[p].pc.step.Held? {
        ReleaseRemovesNothing(s, stale, p, call, id);
      }
    case OperatorClear => OperatorRemovesNothing(s, id);
    case _ =>
  }

  /** The occupancy of record `id` is over for good: nobody is inside with it or about to link it. */
  ghost predicate Gone(s: State, id: nat) {
    && id < s.serial
    && forall p :: p in s.procs ==> NotWith(s.procs[p].pc, id)
  }

  predicate NotWith(pc: Pc, id: nat) {
    && (pc.Inside? ==> IdOf(pc.mine) != id)
    && (pc.Staging? ==> pc.tmp != id)
  }

  lemma NotWithStaging(s: State, p: Pid, pc: Pc, call: Call, id: nat)
    requires p in s.procs && s.procs[p].pc == pc && pc.Staging? && PcOk(s.disk, pc) && NotWith(pc, id)
    ensures p in StagingStep(s, p, pc, call).procs && NotWith(StagingStep(s, p, pc, call).procs[p].pc, id)
  {}

  lemma NotWithInside(s: State, p: Pid, mine: Rec, step: InsideStep, call: Call, ino: Ino, id: nat)
    requires p in s.procs && s.procs[p].pc == Inside(mine, step) && IdOf(mine) != id
    ensures p in InsideStepOf(s, p, mine, step, call, ino).procs
    ensures NotWith(InsideStepOf(s, p, mine, step, call, ino).procs[p].pc, id)
  {
    if Advancing(step) {
      assert NotWith(AdvanceStep(s, p, mine, step, call, ino).procs[p].pc, id);
    }
  }

  lemma NotWithAside(s: State, p: Pid, pc: Pc, call: Call, id: nat)
    requires p in s.procs && s.procs[p].pc == pc && pc.Aside?
    ensures p in AsideStepOf(s, p, pc, call).procs && NotWith(AsideStepOf(s, p, pc, call).procs[p].pc, id)
  {}

  lemma NotWithGo(s: State, stale: Ages, p: Pid, call: Call, ino: Ino, id: nat)
    requires p in s.procs && id < s.serial && PcOk(s.disk, s.procs[p].pc) && NotWith(s.procs[p].pc, id)
    ensures p in GoStep(s, p, stale, call, ino).procs
    ensures NotWith(GoStep(s, p, stale, call, ino).procs[p].pc, id)
  {
    hide StagingStep, AsideStepOf, InsideStepOf, PcOk;
    match s.procs[p].pc
    case Staging(_, _, _, _) => NotWithStaging(s, p, s.procs[p].pc, call, id);
    case Inside(mine, step) => NotWithInside(s, p, mine, step, call, ino, id);
    case Aside(_, _, _, _, _) => NotWithAside(s, p, s.procs[p].pc, call, id);
    case _ =>
  }

  lemma GoneGo(s: State, stale: Ages, p: Pid, call: Call, ino: Ino, id: nat)
    requires Safe(s) && Accounted(s, stale) && p in s.procs && Gone(s, id)
    ensures Gone(GoStep(s, p, stale, call, ino), id)
    ensures RemovesNothing(s, id) ==> RemovesNothing(GoStep(s, p, stale, call, ino), id)
  {
    hide GoStep, Accounted, Decides;
    assert PcOk(s.disk, s.procs[p].pc);
    NotWithGo(s, stale, p, call, ino, id);
    if Decides(s, s.procs[p].pc, call) {
      DecisionRemovesNothing(s, stale, p, call, ino, id);
    } else {
      QuietGo(s, stale, p, call, ino);
    }
  }

  lemma StepGone(s: State, stale: Ages, a: Action, id: nat)
    requires Safe(s) && Accounted(s, stale) && Gone(s, id)
    ensures Gone(Step(s, stale, a), id)
    ensures RemovesNothing(s, id) ==> RemovesNothing(Step(s, stale, a), id)
  {
    hide GoStep, Accounted, Safe;
    match a
    case Go(p, call, ino) =>
      if p in s.procs && s.procs[p].alive {
        GoneGo(s, stale, p, call, ino, id);
      }
    case OperatorClear => if RemovesNothing(s, id) { OperatorRemovesNothing(s, id); }
    case _ =>
  }

  /** A host crash ends every occupancy. */
  lemma CrashEndsAll(s: State, stale: Ages, d: Disk, id: nat)
    requires Accounted(s, stale) && id in s.ledger && RemovesNothing(s, id) && CrashOutcome(s.past, d)
    ensures Gone(HostCrashStep(s, d), id) && RemovesNothing(HostCrashStep(s, d), id)
  {
    assert ListingOk(s, stale, id, s.ledger[id]);
  }

  /** Nothing is removed by an occupancy that is over, or whose record has been reclaimed. */
  ghost predicate Harmless(s: State, id: nat) {
    RemovesNothing(s, id) && (Gone(s, id) || (id in s.ledger && s.ledger[id].fate.Reclaimed?))
  }

  lemma StepHarmless(s: State, stale: Ages, a: Action, id: nat)
    requires Safe(s) && Accounted(s, stale) && Harmless(s, id)
    ensures Harmless(Step(s, stale, a), id)
  {
    hide RemovesNothing, Gone, Accounted, Safe;
    if Gone(s, id) {
      StepGone(s, stale, a, id);
    } else if !a.HostCrash? {
      SettledStays(s, stale, a, id);
      StepRemovesNothing(s, stale, a, id);
    } else if CrashOutcome(s.past, a.disk) {
      CrashEndsAll(s, stale, a.disk, id);
    }
  }

  lemma {:induction false} HarmlessKept(s: State, stale: Ages, acts: seq<Action>, id: nat)
    requires Safe(s) && Accounted(s, stale) && PastListed(s) && Harmless(s, id)
    ensures Harmless(After(s, stale, acts), id)
    decreases |acts|
  {
    hide Safe, Accounted, PastListed, Harmless, Step;
    if acts != [] {
      StepSafe(s, stale, acts[0]);
      StepKeepsAccount(s, stale, acts[0]);
      StepHarmless(s, stale, acts[0], id);
      HarmlessKept(Step(s, stale, acts[0]), stale, acts[1..], id);
    }
  }

  /** An occupancy whose release has removed a record is over. */
  ghost predicate ReleasedGone(s: State) {
    forall v :: v in s.ledger && s.ledger[v].fate.Released? ==> Gone(s, s.ledger[v].fate.claim)
  }

  lemma NoneReleased(s: State)
    requires Init(s)
    ensures ReleasedGone(s)
  {}

  /** No two processes are inside with one claim, or about to be. */
  lemma NobodyElseWith(s: State, p: Pid, q: Pid)
    requires Safe(s) && p in s.procs && q in s.procs && p != q && s.procs[p].pc.Inside?
    ensures NotWith(s.procs[q].pc, IdOf(s.procs[p].pc.mine)) && IdOf(s.procs[p].pc.mine) < s.serial
  {
    var k := IdOf(s.procs[p].pc.mine);
    assert Owns(s.procs[p].pc, k);
    assert !Owns(s.procs[q].pc, k);
  }

  /** The remove of a release ends its occupancy. */
  lemma RemoveEnds(s: State, p: Pid, mine: Rec, last: Outcome, ino: Ino)
    requires Safe(s) && p in s.procs && s.procs[p].pc == Inside(mine, Remove(last))
    ensures Gone(InsideStepOf(s, p, mine, Remove(last), Ok, ino), IdOf(mine))
  {
    var t := InsideStepOf(s, p, mine, Remove(last), Ok, ino);
    forall q | q in t.procs && q != p ensures NotWith(t.procs[q].pc, IdOf(mine)) {
      NobodyElseWith(s, p, q);
    }
    assert Owns(s.procs[p].pc, IdOf(mine));
  }

  lemma GoReleasedGone(s: State, stale: Ages, p: Pid, call: Call, ino: Ino)
    requires Safe(s) && Accounted(s, stale) && p in s.procs && ReleasedGone(s)
    ensures ReleasedGone(GoStep(s, p, stale, call, ino))
  {
    var t := GoStep(s, p, stale, call, ino);
    forall v | v in t.ledger && t.ledger[v].fate.Released? ensures Gone(t, t.ledger[v].fate.claim) {
      ReleasedByNow(s, stale, p, call, ino, v);
    }
  }

  lemma ReleasedByNow(s: State, stale: Ages, p: Pid, call: Call, ino: Ino, v: nat)
    requires Safe(s) && Accounted(s, stale) && p in s.procs && ReleasedGone(s)
    requires v in GoStep(s, p, stale, call, ino).ledger && GoStep(s, p, stale, call, ino).ledger[v].fate.Released?
    ensures Gone(GoStep(s, p, stale, call, ino), GoStep(s, p, stale, call, ino).ledger[v].fate.claim)
  {
    var pc := s.procs[p].pc;
    var c := GoStep(s, p, stale, call, ino).ledger[v].fate.claim;
    if Decides(s, pc, call) && pc.Inside? && IdOf(pc.mine) == c {
      RemoveEnds(s, p, pc.mine, pc.step.last, ino);
    } else {
      hide GoStep, Safe, Accounted, Gone;
      if Decides(s, pc, call) {
        DecisionRemovesNothing(s, stale, p, call, ino, c);
      } else {
        QuietGo(s, stale, p, call, ino);
      }
      GoneGo(s, stale, p, call, ino, c);
    }
  }

  lemma StepReleasedGone(s: State, stale: Ages, a: Action)
    requires Safe(s) && Accounted(s, stale) && ReleasedGone(s)
    ensures ReleasedGone(Step(s, stale, a))
  {
    if a.Go? {
      if a.p in s.procs && s.procs[a.p].alive {
        GoReleasedGone(s, stale, a.p, a.call, a.ino);
      }
    } else {
      var t := Step(s, stale, a);
      forall v | v in t.ledger && t.ledger[v].fate.Released? ensures Gone(t, t.ledger[v].fate.claim) {
        ReleasedBefore(s, stale, a, v);
        StepGone(s, stale, a, t.ledger[v].fate.claim);
      }
    }
  }

  /** Nothing but a call of a process releases a record. */
  lemma ReleasedBefore(s: State, stale: Ages, a: Action, v: nat)
    requires !a.Go? && v in Step(s, stale, a).ledger && Step(s, stale, a).ledger[v].fate.Released?
    ensures v in s.ledger && s.ledger[v].fate == Step(s, stale, a).ledger[v].fate
  {}

  lemma {:induction false} EveryRunReleasedGone(s: State, stale: Ages, acts: seq<Action>)
    requires Safe(s) && Accounted(s, stale) && PastListed(s) && ReleasedGone(s)
    ensures ReleasedGone(After(s, stale, acts))
    decreases |acts|
  {
    hide Safe, Accounted, PastListed, ReleasedGone, Step;
    if acts != [] {
      StepSafe(s, stale, acts[0]);
      StepKeepsAccount(s, stale, acts[0]);
      StepReleasedGone(s, stale, acts[0]);
      EveryRunReleasedGone(Step(s, stale, acts[0]), stale, acts[1..]);
    }
  }

  lemma InsideRemovesNothing(s: State, p: Pid)
    requires Safe(s) && ReleasedGone(s) && p in s.procs && s.procs[p].pc.Inside? && !s.procs[p].pc.step.Remove?
    ensures RemovesNothing(s, IdOf(s.procs[p].pc.mine))
  {
    forall q | q in s.procs && s.procs[q].pc.Inside? && s.procs[q].pc.step.Remove?
      ensures IdOf(s.procs[q].pc.mine) != IdOf(s.procs[p].pc.mine)
    {
      NobodyElseWith(s, p, q);
    }
  }

  /** Once a holder's record has been removed by a completed reclaim while the holder is inside and its release has
      not passed its check, the holder removes nothing in any later state, whatever record or inode the lock name is
      bound to by then, and whatever a host crash brings back. */
  lemma ReclaimedHolderRemovesNothing(s: State, stale: Ages, before: seq<Action>, later: seq<Action>, p: Pid)
    requires Init(s)
    requires var t := After(s, stale, before);
             p in t.procs && t.procs[p].pc.Inside? && !t.procs[p].pc.step.Remove?
    requires var t := After(s, stale, before); var id := IdOf(t.procs[p].pc.mine);
             id in t.ledger && t.ledger[id].fate.Reclaimed?
    ensures var id := IdOf(After(s, stale, before).procs[p].pc.mine);
            RemovesNothing(After(After(s, stale, before), stale, later), id)
  {
    hide Safe, Accounted, PastListed, RemovesNothing, ReleasedGone, Step;
    var t := After(s, stale, before);
    InitAccounted(s, stale);
    EveryRunAccounted(s, stale, before);
    NoneReleased(s);
    EveryRunReleasedGone(s, stale, before);
    InsideRemovesNothing(t, p);
    HarmlessKept(t, stale, later, IdOf(t.procs[p].pc.mine));
  }
}
