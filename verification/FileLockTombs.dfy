/** What a set-aside file that persists can be: more than the evidence of a raced live claim. */
module FileLockTombs {
  import opened FileSystem
  import opened FileLock
  import opened FileLockSafety
  import opened FileLockReclaim
  import opened FileLockExclusion
  import opened FileLockProgress

  /** The reclaimer that made this name, alive or crashed, has not done with it. */
  ghost predicate Owned(s: State, k: nat) {
    exists p :: p in s.procs && OwnName(s.procs[p].pc, Tomb(k))
  }

  /** The name was reserved, and no record was ever moved onto it. */
  predicate NoRecord(d: Disk, k: nat) {
    Tomb(k) in d.dir && !FileAt(d, Tomb(k)).bytes.Claim?
  }

  /** The name holds a listed record that was preserved there, or judged stale and not removed. */
  ghost predicate ListedAside(s: State, k: nat) {
    exists id :: id in s.ledger && AsideAs(s.ledger[id].fate, k) && Holds(s.disk, Tomb(k), s.ledger[id].rec)
  }

  predicate AsideAs(fate: Fate, k: nat) {
    (fate.Preserved? || fate.Rubbish?) && fate.tomb == k
  }

  function Tombs(d: Disk): set<nat> {
    set n | n in d.dir && n.Tomb? :: n.serial
  }

  /** The name whose record this step links back to the lock name, which leaves the record two names for a moment. */
  ghost function PutBackBy(s: State, a: Action): set<nat> {
    if a.Go? && a.p in s.procs && s.procs[a.p].alive && PutsBack(s, s.procs[a.p].pc, a.call)
    then {s.procs[a.p].pc.tomb} else {}
  }

  predicate PutsBack(s: State, pc: Pc, call: Call) {
    pc.Aside? && pc.move.Restore? && call == Ok && Lock !in s.disk.dir && Tomb(pc.tomb) in s.disk.dir
  }

  ghost function LeftBy(s: State, a: Action): set<nat> {
    if a.HostCrash? && CrashOutcome(s.past, a.disk) then Tombs(a.disk) else {}
  }

  /** The set-aside names a run put the record of back from. */
  ghost function PutBack(s: State, stale: Ages, acts: seq<Action>): set<nat>
    decreases |acts|
  {
    if acts == [] then {} else PutBackBy(s, acts[0]) + PutBack(Step(s, stale, acts[0]), stale, acts[1..])
  }

  /** The set-aside names that were there right after a host crash of the run. */
  ghost function CrashLeft(s: State, stale: Ages, acts: seq<Action>): set<nat>
    decreases |acts|
  {
    if acts == [] then {} else LeftBy(s, acts[0]) + CrashLeft(Step(s, stale, acts[0]), stale, acts[1..])
  }

  // ------------------------------------------------------------------- invariant

  ghost predicate Explained(s: State, known: set<nat>, k: nat) {
    k in known || Owned(s, k) || NoRecord(s.disk, k) || ListedAside(s, k)
  }

  /** A name reserved or about to be discarded holds no record, but for the known ones. */
  ghost predicate PcExplained(d: Disk, known: set<nat>, pc: Pc) {
    match pc
    case SetAside(_, _, tomb) => Tomb(tomb) in d.dir ==> NoRecord(d, tomb)
    case Discard(Tomb(tomb), _) => tomb in known || (Tomb(tomb) in d.dir ==> NoRecord(d, tomb))
    case _ => true
  }

  ghost predicate AllExplained(s: State, known: set<nat>) {
    && (forall p :: p in s.procs ==> PcExplained(s.disk, known, s.procs[p].pc))
    && (forall k: nat :: Tomb(k) in s.disk.dir ==> Explained(s, known, k))
  }

  lemma SamePcExplained(d: Disk, e: Disk, known: set<nat>, more: set<nat>, pc: Pc)
    requires PcExplained(d, known, pc) && known <= more
    requires forall k: nat :: OwnName(pc, Tomb(k)) ==> Same(d, e, Tomb(k))
    ensures PcExplained(e, more, pc)
  {
    match pc
    case SetAside(_, _, tomb) => assert OwnName(pc, Tomb(tomb));
    case Discard(Tomb(tomb), _) => assert OwnName(pc, Tomb(tomb));
    case _ =>
  }

  /** Two processes have no name in common. */
  lemma NamesApart(s: State, p: Pid, q: Pid, k: nat)
    requires Safe(s) && p in s.procs && q in s.procs && OwnName(s.procs[p].pc, Tomb(k)) && OwnName(s.procs[q].pc, Tomb(k))
    ensures p == q
  {
    OwnNameOwned(s.disk, s.procs[p].pc, Tomb(k));
    OwnNameOwned(s.disk, s.procs[q].pc, Tomb(k));
  }

  /** What one call of process `p` does to the set-aside names. */
  ghost predicate OneReclaimer(s: State, t: State, p: Pid, pc: Pc) {
    && p in t.procs && t.procs == s.procs[p := t.procs[p]]
    && (forall k: nat :: OwnName(t.procs[p].pc, Tomb(k)) ==> OwnName(pc, Tomb(k)) || (pc.Reserve? && k == s.serial))
    && (forall k: nat :: Tomb(k) in t.disk.dir && Tomb(k) !in s.disk.dir ==> OwnName(t.procs[p].pc, Tomb(k)))
  }

  lemma StagingNames(s: State, p: Pid, pc: Pc, call: Call)
    requires p in s.procs && s.procs[p].pc == pc && pc.Staging?
    ensures OneReclaimer(s, StagingStep(s, p, pc, call), p, pc)
  {}

  lemma AsideNames(s: State, p: Pid, pc: Pc, call: Call)
    requires p in s.procs && s.procs[p].pc == pc && pc.Aside?
    ensures OneReclaimer(s, AsideStepOf(s, p, pc, call), p, pc)
  {
    AsideDirectory(s, p, pc, call);
    AsidePlaces(s, p, pc, call);
    hide AsideStepOf;
  }

  /** A reclaimer's calls bind no set-aside name. */
  lemma AsideDirectory(s: State, p: Pid, pc: Pc, call: Call)
    requires pc.Aside?
    ensures forall k: nat :: Tomb(k) in AsideStepOf(s, p, pc, call).disk.dir ==> Tomb(k) in s.disk.dir
  {}

  ghost predicate OneMove(s: State, t: State, p: Pid, pc: Pc)
    requires pc.Aside?
  {
    && p in t.procs && t.procs == s.procs[p := t.procs[p]]
    && var q := t.procs[p].pc;
       q.Idle? || q.Wait? || q == Discard(Tomb(pc.tomb), ToWait) || (q.Aside? && q.tomb == pc.tomb)
  }

  lemma AsidePlaces(s: State, p: Pid, pc: Pc, call: Call)
    requires p in s.procs && s.procs[p].pc == pc && pc.Aside?
    ensures OneMove(s, AsideStepOf(s, p, pc, call), p, pc)
  {}

  lemma AdvanceNames(s: State, p: Pid, mine: Rec, step: InsideStep, call: Call, ino: Ino)
    requires p in s.procs && s.procs[p].pc == Inside(mine, step) && Advancing(step)
    ensures OneReclaimer(s, AdvanceStep(s, p, mine, step, call, ino), p, s.procs[p].pc)
  {}

  lemma InsideNames(s: State, p: Pid, mine: Rec, step: InsideStep, call: Call, ino: Ino)
    requires p in s.procs && s.procs[p].pc == Inside(mine, step)
    ensures OneReclaimer(s, InsideStepOf(s, p, mine, step, call, ino), p, s.procs[p].pc)
  {
    if Advancing(step) {
      AdvanceNames(s, p, mine, step, call, ino);
    }
  }

  lemma SetAsideNames(s: State, p: Pid, judged: Rec, seen: int, tomb: nat, call: Call)
    requires p in s.procs && s.procs[p].pc == SetAside(judged, seen, tomb)
    ensures OneReclaimer(s, SetAsideStep(s, p, judged, seen, tomb, call), p, s.procs[p].pc)
  {}

  lemma GoNames(s: State, p: Pid, stale: Ages, call: Call, ino: Ino)
    requires p in s.procs
    ensures OneReclaimer(s, GoStep(s, p, stale, call, ino), p, s.procs[p].pc)
  {
    hide StagingStep, InsideStepOf, AsideStepOf, SetAsideStep;
    match s.procs[p].pc
    case Staging(_, _, _, _) => StagingNames(s, p, s.procs[p].pc, call);
    case Inside(mine, step) => InsideNames(s, p, mine, step, call, ino);
    case Aside(_, _, _, _, _) => AsideNames(s, p, s.procs[p].pc, call);
    case SetAside(judged, seen, tomb) => SetAsideNames(s, p, judged, seen, tomb, call);
    case _ =>
  }

  /** The position of the process that made the call. */
  lemma OwnPcExplained(s: State, known: set<nat>, p: Pid, stale: Ages, call: Call, ino: Ino)
    requires p in s.procs && PcExplained(s.disk, known, s.procs[p].pc)
    ensures p in GoStep(s, p, stale, call, ino).procs
    ensures var t := GoStep(s, p, stale, call, ino); var pc := s.procs[p].pc;
            PcExplained(t.disk, known + (if PutsBack(s, pc, call) then {pc.tomb} else {}), t.procs[p].pc)
  {
    hide StagingStep, InsideStepOf, AsideStepOf, SetAsideStep;
    match s.procs[p].pc
    case Staging(_, _, _, _) => StagingPcExplained(s, known, p, s.procs[p].pc, call);
    case Inside(mine, step) => InsidePcExplained(s, known, p, mine, step, call, ino);
    case Aside(_, _, _, _, _) => AsidePcExplained(s, known, p, s.procs[p].pc, call);
    case SetAside(judged, seen, tomb) => SetAsidePcExplained(s, known, p, judged, seen, tomb, call);
    case _ =>
  }

  lemma StagingPcExplained(s: State, known: set<nat>, p: Pid, pc: Pc, call: Call)
    requires p in s.procs && s.procs[p].pc == pc && pc.Staging?
    ensures var t := StagingStep(s, p, pc, call); p in t.procs && PcExplained(t.disk, known, t.procs[p].pc)
  {}

  lemma InsidePcExplained(s: State, known: set<nat>, p: Pid, mine: Rec, step: InsideStep, call: Call, ino: Ino)
    requires p in s.procs && s.procs[p].pc == Inside(mine, step)
    ensures var t := InsideStepOf(s, p, mine, step, call, ino); p in t.procs && PcExplained(t.disk, known, t.procs[p].pc)
  {
    if Advancing(step) {
      assert AdvanceStep(s, p, mine, step, call, ino).procs[p].pc.Inside?;
    }
  }

  lemma SetAsidePcExplained(s: State, known: set<nat>, p: Pid, judged: Rec, seen: int, tomb: nat, call: Call)
    requires p in s.procs && s.procs[p].pc == SetAside(judged, seen, tomb) && PcExplained(s.disk, known, s.procs[p].pc)
    ensures var t := SetAsideStep(s, p, judged, seen, tomb, call); p in t.procs && PcExplained(t.disk, known, t.procs[p].pc)
  {}

  lemma AsidePcExplained(s: State, known: set<nat>, p: Pid, pc: Pc, call: Call)
    requires p in s.procs && s.procs[p].pc == pc && pc.Aside?
    ensures var t := AsideStepOf(s, p, pc, call);
            p in t.procs && PcExplained(t.disk, known + (if PutsBack(s, pc, call) then {pc.tomb} else {}), t.procs[p].pc)
  {}

  // -------------------------------------------------------------- one name, one step

  /** A name another process or nobody works on stays explained as it was. */
  lemma OthersNameExplained(s: State, known: set<nat>, more: set<nat>, p: Pid, stale: Ages, call: Call, ino: Ino, k: nat)
    requires Safe(s) && Accounted(s, stale) && p in s.procs && s.procs[p].alive
    requires Tomb(k) in s.disk.dir && Explained(s, known, k) && known <= more && !OwnName(s.procs[p].pc, Tomb(k))
    ensures Explained(GoStep(s, p, stale, call, ino), more, k)
  {
    var t := GoStep(s, p, stale, call, ino);
    assert DiskOk(s.past[|s.past| - 1], s.serial);
    assert PcOk(s.disk, s.procs[p].pc);
    UntouchedBy(s, p, stale, call, ino, Tomb(k));
    GoNames(s, p, stale, call, ino);
    hide GoStep, Safe, Accounted, OwnName;
    if ListedAside(s, k) {
      var id :| id in s.ledger && AsideAs(s.ledger[id].fate, k) && Holds(s.disk, Tomb(k), s.ledger[id].rec);
      SettledStays(s, stale, Go(p, call, ino), id);
      assert id in t.ledger && AsideAs(t.ledger[id].fate, k) && Holds(t.disk, Tomb(k), t.ledger[id].rec);
    } else if Owned(s, k) {
      var q :| q in s.procs && OwnName(s.procs[q].pc, Tomb(k));
      assert q in t.procs && OwnName(t.procs[q].pc, Tomb(k));
    }
  }

  /** A name the process itself works on: when it lets go of it, the name is gone or explained. */
  lemma OwnNameExplained(s: State, known: set<nat>, more: set<nat>, p: Pid, stale: Ages, call: Call, ino: Ino, k: nat)
    requires Safe(s) && Accounted(s, stale) && p in s.procs && OwnName(s.procs[p].pc, Tomb(k))
    requires PcExplained(s.disk, known, s.procs[p].pc) && known <= more
    requires Tomb(k) in GoStep(s, p, stale, call, ino).disk.dir
    ensures Explained(GoStep(s, p, stale, call, ino), more, k)
  {
    var pc, t := s.procs[p].pc, GoStep(s, p, stale, call, ino);
    if pc.Aside? {
      GoNames(s, p, stale, call, ino);
      if OwnName(t.procs[p].pc, Tomb(k)) {
        assert Owned(t, k);
      } else {
        LetGoExplained(s, p, pc, stale, call, ino);
      }
    } else if pc.SetAside? {
      assert OwnName(t.procs[p].pc, Tomb(k));
    }
  }

  /** A reclaimer lets go of a record it caught: removed, or left under the name it is listed at. */
  lemma LetGoExplained(s: State, p: Pid, pc: Pc, stale: Ages, call: Call, ino: Ino)
    requires Safe(s) && Accounted(s, stale) && p in s.procs && s.procs[p].pc == pc && pc.Aside?
    requires var t := AsideStepOf(s, p, pc, call);
             p in t.procs && !OwnName(t.procs[p].pc, Tomb(pc.tomb)) && Tomb(pc.tomb) in t.disk.dir
    ensures ListedAside(AsideStepOf(s, p, pc, call), pc.tomb)
  {
    var t, id := AsideStepOf(s, p, pc, call), IdOf(pc.caught);
    assert PcOk(s.disk, pc) && PcListed(s.ledger, stale, p, pc);
    DroppedListing(s, stale, p, pc, call);
    assert id in t.ledger && t.ledger[id] == Listing(pc.caught, DroppedFate(p, pc, call));
    assert AsideAs(t.ledger[id].fate, pc.tomb) && Holds(t.disk, Tomb(pc.tomb), t.ledger[id].rec);
  }

  lemma GoExplained(s: State, known: set<nat>, p: Pid, stale: Ages, call: Call, ino: Ino)
    requires Safe(s) && Accounted(s, stale) && AllExplained(s, known) && p in s.procs && s.procs[p].alive
    ensures AllExplained(GoStep(s, p, stale, call, ino), known + PutBackBy(s, Go(p, call, ino)))
  {
    var t, more := GoStep(s, p, stale, call, ino), known + PutBackBy(s, Go(p, call, ino));
    GoNames(s, p, stale, call, ino);
    OwnPcExplained(s, known, p, stale, call, ino);
    hide GoStep, Accounted, OwnName, Explained, PcExplained;
    forall q | q in t.procs ensures PcExplained(t.disk, more, t.procs[q].pc) {
      if q != p {
        BystanderExplained(s, known, more, p, stale, call, ino, q);
      }
    }
    forall k: nat | Tomb(k) in t.disk.dir ensures Explained(t, more, k) {
      if OwnName(s.procs[p].pc, Tomb(k)) {
        OwnNameExplained(s, known, more, p, stale, call, ino, k);
      } else if Tomb(k) in s.disk.dir {
        OthersNameExplained(s, known, more, p, stale, call, ino, k);
      } else {
        OwnedExplained(t, more, p, k);
      }
    }
  }

  lemma OwnedExplained(s: State, known: set<nat>, p: Pid, k: nat)
    requires p in s.procs && OwnName(s.procs[p].pc, Tomb(k))
    ensures Explained(s, known, k)
  {}

  lemma BystanderExplained(s: State, known: set<nat>, more: set<nat>, p: Pid, stale: Ages, call: Call, ino: Ino, q: Pid)
    requires Safe(s) && p in s.procs && q in s.procs && q != p
    requires PcExplained(s.disk, known, s.procs[q].pc) && known <= more
    ensures PcExplained(GoStep(s, p, stale, call, ino).disk, more, s.procs[q].pc)
  {
    var t := GoStep(s, p, stale, call, ino);
    hide GoStep, PcExplained;
    assert PcOk(s.disk, s.procs[p].pc) && PcOk(s.disk, s.procs[q].pc);
    forall k: nat | OwnName(s.procs[q].pc, Tomb(k)) ensures Same(s.disk, t.disk, Tomb(k)) {
      if OwnName(s.procs[p].pc, Tomb(k)) { NamesApart(s, p, q, k); }
      OwnNameOwned(s.disk, s.procs[q].pc, Tomb(k));
      UntouchedBy(s, p, stale, call, ino, Tomb(k));
    }
    SamePcExplained(s.disk, t.disk, known, more, s.procs[q].pc);
  }

  /** The actions that are no system call of the protocol leave every set-aside name and its owner as they are. */
  lemma CommonExplained(s: State, known: set<nat>, stale: Ages, a: Action)
    requires Safe(s) && Accounted(s, stale) && AllExplained(s, known) && !a.Go? && !a.HostCrash?
    ensures AllExplained(Step(s, stale, a), known)
  {
    var t := Step(s, stale, a);
    CommonNames(s, stale, a);
    hide Step, Accounted, Safe, OwnName, Explained, PcExplained;
    forall q | q in t.procs ensures PcExplained(t.disk, known, t.procs[q].pc) {
      CommonPcExplained(s, known, stale, a, q);
    }
    forall k: nat | Tomb(k) in t.disk.dir ensures Explained(t, known, k) {
      assert Same(s.disk, t.disk, Tomb(k));
      CommonNameExplained(s, known, stale, a, k);
    }
  }

  lemma CommonPcExplained(s: State, known: set<nat>, stale: Ages, a: Action, q: Pid)
    requires !a.Go? && !a.HostCrash? && q in Step(s, stale, a).procs
    requires q in s.procs ==> PcExplained(s.disk, known, s.procs[q].pc)
    ensures PcExplained(Step(s, stale, a).disk, known, Step(s, stale, a).procs[q].pc)
  {
    var t := Step(s, stale, a);
    CommonNames(s, stale, a);
    CommonProcs(s, stale, a, q);
    hide Step, OwnName;
    if q in s.procs && t.procs[q].pc == s.procs[q].pc {
      SamePcExplained(s.disk, t.disk, known, known, s.procs[q].pc);
    }
  }

  lemma CommonNameExplained(s: State, known: set<nat>, stale: Ages, a: Action, k: nat)
    requires Safe(s) && Accounted(s, stale) && !a.Go? && !a.HostCrash?
    requires Tomb(k) in s.disk.dir && Explained(s, known, k)
    ensures Explained(Step(s, stale, a), known, k)
  {
    var t := Step(s, stale, a);
    CommonNames(s, stale, a);
    hide Step, Accounted, Safe, OwnName;
    assert Same(s.disk, t.disk, Tomb(k));
    if ListedAside(s, k) {
      var id :| id in s.ledger && AsideAs(s.ledger[id].fate, k) && Holds(s.disk, Tomb(k), s.ledger[id].rec);
      SettledStays(s, stale, a, id);
      assert id in t.ledger && AsideAs(t.ledger[id].fate, k) && Holds(t.disk, Tomb(k), t.ledger[id].rec);
    } else if Owned(s, k) {
      var q :| q in s.procs && OwnName(s.procs[q].pc, Tomb(k));
      CommonOwner(s, stale, a, q, k);
      assert q in t.procs && OwnName(t.procs[q].pc, Tomb(k));
    }
  }

  lemma CommonNames(s: State, stale: Ages, a: Action)
    requires !a.Go? && !a.HostCrash?
    ensures forall k: nat :: Same(s.disk, Step(s, stale, a).disk, Tomb(k))
  {
    match a
    case OperatorClear => UnlinkLockSame(s.disk);
    case _ =>
  }

  lemma CommonProcs(s: State, stale: Ages, a: Action, q: Pid)
    requires !a.Go? && !a.HostCrash? && q in Step(s, stale, a).procs
    ensures var pc := Step(s, stale, a).procs[q].pc;
            (q in s.procs && pc == s.procs[q].pc) || pc.Idle? || pc.Attempt? || pc.Inside?
  {
    hide Holds, SetLockFate, Unlink;
  }

  lemma CommonOwner(s: State, stale: Ages, a: Action, q: Pid, k: nat)
    requires !a.Go? && !a.HostCrash? && q in s.procs && OwnName(s.procs[q].pc, Tomb(k))
    ensures q in Step(s, stale, a).procs && Step(s, stale, a).procs[q].pc == s.procs[q].pc
  {
    hide Holds, SetLockFate, Unlink;
  }

  lemma UnlinkLockSame(d: Disk)
    ensures forall k: nat :: Same(d, Unlink(d, Lock), Tomb(k))
  {}

  lemma CrashExplained(s: State, known: set<nat>, d: Disk)
    requires CrashOutcome(s.past, d)
    ensures AllExplained(HostCrashStep(s, d), known + Tombs(d))
  {
    forall k: nat | Tomb(k) in d.dir ensures k in Tombs(d) {}
  }

  lemma StepExplained(s: State, known: set<nat>, stale: Ages, a: Action)
    requires Safe(s) && Accounted(s, stale) && AllExplained(s, known)
    ensures AllExplained(Step(s, stale, a), known + PutBackBy(s, a) + LeftBy(s, a))
  {
    hide Safe, Accounted, AllExplained, GoStep, HostCrashStep, CrashOutcome, PutsBack;
    match a
    case Go(p, call, ino) =>
      if p in s.procs && s.procs[p].alive {
        GoExplained(s, known, p, stale, call, ino);
        assert known + PutBackBy(s, a) + LeftBy(s, a) == known + PutBackBy(s, a);
      } else {
        assert known + PutBackBy(s, a) + LeftBy(s, a) == known;
      }
    case HostCrash(d) =>
      if CrashOutcome(s.past, d) {
        CrashExplained(s, known, d);
        assert known + PutBackBy(s, a) + LeftBy(s, a) == known + Tombs(d);
      } else {
        CrashIdle(s, d);
        assert known + PutBackBy(s, a) + LeftBy(s, a) == known;
      }
    case _ =>
      CommonExplained(s, known, stale, a);
      assert known + PutBackBy(s, a) + LeftBy(s, a) == known;
  }

  lemma CrashIdle(s: State, d: Disk)
    requires !CrashOutcome(s.past, d)
    ensures HostCrashStep(s, d) == s
  {}

  lemma {:induction false} RunExplained(s: State, known: set<nat>, stale: Ages, acts: seq<Action>)
    requires Safe(s) && Accounted(s, stale) && PastListed(s) && AllExplained(s, known)
    ensures AllExplained(After(s, stale, acts), known + PutBack(s, stale, acts) + CrashLeft(s, stale, acts))
    decreases |acts|
  {
    hide Safe, Accounted, PastListed, AllExplained, Step, PutBackBy, LeftBy;
    if acts == [] {
      assert known + PutBack(s, stale, acts) + CrashLeft(s, stale, acts) == known;
    } else {
      var t, more := Step(s, stale, acts[0]), known + PutBackBy(s, acts[0]) + LeftBy(s, acts[0]);
      StepSafe(s, stale, acts[0]);
      StepKeepsAccount(s, stale, acts[0]);
      StepExplained(s, known, stale, acts[0]);
      RunExplained(t, more, stale, acts[1..]);
      assert more + PutBack(t, stale, acts[1..]) + CrashLeft(t, stale, acts[1..])
          == known + PutBack(s, stale, acts) + CrashLeft(s, stale, acts);
    }
  }

  lemma InitExplained(s: State)
    requires Init(s)
    ensures AllExplained(s, Tombs(s.disk))
  {
    forall k: nat | Tomb(k) in s.disk.dir ensures k in Tombs(s.disk) {}
  }

  /** In every reachable state a set-aside file is one that its reclaimer, alive or crashed, has not done with; or was
      there before the run, or right after a host crash; or was reserved and never used; or is the second name of a
      record put back at the lock name; or holds a record that was judged stale and could not be removed, or that was
      preserved and reported. Only the last is evidence of a race. */
  lemma SetAsideFilesExplained(s: State, stale: Ages, acts: seq<Action>, k: nat)
    requires Init(s) && Tomb(k) in After(s, stale, acts).disk.dir
    ensures var t := After(s, stale, acts);
            || Owned(t, k)
            || k in Tombs(s.disk) || k in CrashLeft(s, stale, acts)
            || NoRecord(t.disk, k)
            || k in PutBack(s, stale, acts)
            || ListedAside(t, k)
  {
    InitAccounted(s, stale);
    InitExplained(s);
    RunExplained(s, Tombs(s.disk), stale, acts);
    assert Explained(After(s, stale, acts), Tombs(s.disk) + PutBack(s, stale, acts) + CrashLeft(s, stale, acts), k);
  }

  // ------------------------------------------------------- left over without a race

  lemma FailedAside(s0: State, stale: Ages, s: State, p: Pid, pc: Pc) returns (t: State)
    requires Reaches(s0, stale, s) && p in s.procs && s.procs[p] == Proc(true, pc) && pc.Aside?
    ensures Reaches(s0, stale, t) && t == AsideStepOf(s, p, pc, Fail)
  {
    hide AsideStepOf;
    t := Step(s, stale, Go(p, Fail, 0));
    ReachesStep(s0, stale, s, Go(p, Fail, 0));
  }

  /** A waiter that has caught the record it judged but cannot remove it goes back to waiting, with no error. */
  lemma CaughtLeft(s0: State, stale: Ages, s: State, p: Pid, pc: Pc) returns (t: State)
    requires Reaches(s0, stale, s) && p in s.procs && s.procs[p] == Proc(true, pc)
    requires pc.Aside? && pc.move == StatTomb && Holds(s.disk, Tomb(pc.tomb), pc.judged)
    ensures Reaches(s0, stale, t) && t.procs == s.procs[p := Proc(true, Wait)] && t.disk == s.disk
    ensures t.ledger == SetFate(s, IdOf(pc.caught), Rubbish(pc.tomb, p, pc.seen)).ledger
  {
    var a := RanAside(s0, stale, s, p, pc);
    var b := RanAside(s0, stale, a, p, pc.(move := CheckTomb));
    t := FailedAside(s0, stale, b, p, pc.(move := RemoveJudged));
    hide Reaches;
  }

  /** One claim ever, whose holder crashed: its record, reclaimed but not removed, stays under its set-aside name. */
  lemma LeftoverWithoutRace(stale: Ages, q: Pid) returns (acts: seq<Action>, k: nat)
    requires stale(q) > 0
    ensures Init(EMPTY_STORE)
    ensures var t := After(EMPTY_STORE, stale, acts);
            && t.ledger.Keys == {0} && t.ledger[0].fate.Rubbish?
            && Tomb(k) in t.disk.dir && !Owned(t, k)
            && (forall p :: p in t.procs ==> !Occupies(t.procs[p])) && q in t.procs && t.procs[q].pc == Wait
  {
    hide After, Step, Reaches, Owned;
    var s, rec, p := EMPTY_STORE, Rec(0, Claim(0, 0)), q + 1;
    ReachesItself(s, stale);
    var a := StartAndClaim(s, stale, s, p, 0);
    var b := HolderCrashed(s, stale, a, p);
    var c := ClockMoved(s, stale, b, stale(q) + 1);
    var d := Waiting(s, stale, c, q, 1);
    var e := StaleRecordJudged(s, stale, d, q, rec, 1);
    k := d.serial;
    var f := Ran(s, stale, e, q, 0);
    assert f.procs == e.procs[q := Proc(true, Aside(rec, d.now, k, rec, StatTomb))];
    assert f.ledger == map[0 := Listing(rec, Taken(k, q))];
    assert Holds(f.disk, Tomb(k), rec);
    var g := CaughtLeft(s, stale, f, q, f.procs[q].pc);
    NobodyOwns(g, k);
    acts := RunTo(s, stale, g);
  }

  lemma NobodyOwns(s: State, k: nat)
    requires forall p :: p in s.procs ==> s.procs[p].pc.Wait? || (s.procs[p].pc.Inside? && !s.procs[p].alive)
    ensures !Owned(s, k) && forall p :: p in s.procs ==> !Occupies(s.procs[p])
  {}

  lemma HolderCrashed(s0: State, stale: Ages, s: State, p: Pid) returns (t: State)
    requires Reaches(s0, stale, s) && p in s.procs
    ensures Reaches(s0, stale, t) && t == s.(procs := s.procs[p := Proc(false, s.procs[p].pc)])
  {
    t := Step(s, stale, Crash(p));
    ReachesStep(s0, stale, s, Crash(p));
  }

  /** A newcomer that finds the lock name taken. */
  lemma Waiting(s0: State, stale: Ages, s: State, p: Pid, ino: Ino) returns (t: State)
    requires Reaches(s0, stale, s) && p !in s.procs
    requires Lock in s.disk.dir && Free(s.disk, ino) && ClaimTmp(s.serial) !in s.disk.dir
    ensures Reaches(s0, stale, t)
    ensures OnlyMoved(s, t, p, Judge, Disk(s.disk.dir, s.disk.files[ino := File(Claim(s.serial, s.now), true)]), s.serial + 1)
  {
    hide After, Reaches;
    ReachesStep(s0, stale, s, Start(p));
    var a := Step(s, stale, Start(p));
    assert a == Move(s, p, Attempt);
    t := ClaimRefused(s0, stale, a, p, ino);
  }
}
