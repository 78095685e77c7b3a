/**
  The batch buffer of go/platform/async/batch_buffer.go. The class is the code: a lock-protected slice handed over
  whole when it is full. The machine below it interleaves any number of callers, each first in its critical section
  and later, with the lock released, in the flush callback.
*/
module BatchBuffer {
  import opened Options

  const DEFAULT_LIMIT := 500

  /** A batch that could not be delivered, with the callback's error: what the caller gets to keep. */
  datatype FlushError<T, E> = FlushError(items: seq<T>, err: E)

  // ------------------------------------------------------- the critical sections

  /** What is left in the buffer, and the batch cut from it, if any. */
  datatype Section<T> = Section(items: seq<T>, batch: Option<seq<T>>)

  function AddSection<T>(limit: nat, items: seq<T>, item: T): Section<T> {
    if |items| + 1 >= limit then Section([], Some(items + [item])) else Section(items + [item], None)
  }

  function FlushSection<T>(items: seq<T>): Section<T> {
    if |items| == 0 then Section([], None) else Section([], Some(items))
  }

  // ------------------------------------------------------------------ the object

  class BatchBuffer<T(0), E> {
    const limit: nat
    const onFlush: seq<T> -> Option<E>
    var cells: array<T>
    var used: nat

    ghost predicate Valid()
      reads this
    {
      limit > 0 && cells.Length == limit && used < limit
    }

    function Items(): seq<T>
      requires Valid()
      reads this, cells
    {
      cells[..used]
    }

    constructor (limit: int, onFlush: seq<T> -> Option<E>)
      ensures Valid() && fresh(cells) && Items() == []
      ensures this.limit == (if limit <= 0 then 500 else limit) && this.onFlush == onFlush
    {
      var n := if limit <= 0 then DEFAULT_LIMIT else limit;
      this.limit, this.onFlush := n, onFlush;
      cells, used := new T[n], 0;
    }

    /** The part of Add under the lock. A batch takes its array with it: the buffer goes on with a new one. */
    method AddLocked(item: T) returns (batch: Option<seq<T>>)
      requires Valid()
      modifies this, cells
      ensures Valid() && Section(Items(), batch) == AddSection(limit, old(Items()), item)
      ensures if batch.Some? then fresh(cells) else cells == old(cells)
      ensures batch.Some? ==> old(cells)[..] == batch.value
    {
      cells[used] := item;
      used := used + 1;
      if used >= limit {
        assert cells[..used] == old(Items()) + [item];
        batch := Some(cells[..used]);
        cells, used := new T[limit], 0;
      } else {
        batch := None;
      }
    }

    method FlushLocked() returns (batch: Option<seq<T>>)
      requires Valid()
      modifies this
      ensures Valid() && Section(Items(), batch) == FlushSection(old(Items()))
      ensures if batch.Some? then fresh(cells) else cells == old(cells)
      ensures old(cells)[..] == old(cells[..])
    {
      if used == 0 {
        return None;
      }
      batch := Some(cells[..used]);
      cells, used := new T[limit], 0;
    }

    /** The callback, and the error that carries the batch when it fails. */
    method Deliver(batch: seq<T>) returns (err: Option<FlushError<T, E>>)
      ensures err == match onFlush(batch) case None => None case Some(e) => Some(FlushError(batch, e))
    {
      var e := onFlush(batch);
      err := if e.Some? then Some(FlushError(batch, e.value)) else None;
    }

    /** A whole call of Add with nobody else at work. */
    method Add(item: T) returns (err: Option<FlushError<T, E>>)
      requires Valid()
      modifies this, cells
      ensures Valid()
      ensures
        var all := old(Items()) + [item];
        if |all| < limit then Items() == all && err == None
        else |all| == limit && Items() == [] &&
             err == match onFlush(all) case None => None case Some(e) => Some(FlushError(all, e))
    {
      var batch := AddLocked(item);
      match batch {
        case None => err := None;
        case Some(cut) => err := Deliver(cut);
      }
    }

    method Flush() returns (err: Option<FlushError<T, E>>)
      requires Valid()
      modifies this
      ensures Valid() && Items() == []
      ensures
        var all := old(Items());
        if all == [] then err == None
        else err == match onFlush(all) case None => None case Some(e) => Some(FlushError(all, e))
    {
      var batch := FlushLocked();
      match batch {
        case None => err := None;
        case Some(cut) => err := Deliver(cut);
      }
    }

    method Len() returns (n: nat)
      requires Valid()
      ensures n == |Items()| < limit
    {
      n := used;
    }
  }

  // ------------------------------------------------------------- many callers

  /** How a batch ended: the callback took it, or its caller got it back. */
  datatype Fate<T, E> = Delivered(items: seq<T>) | Returned(error: FlushError<T, E>)

  /** A batch with the caller that cut it, in Add or in Flush. */
  datatype Cut<T> = Cut(items: seq<T>, caller: nat, byAdd: bool)

  /**
    `accepted` are the items in the order in which the lock was taken to add them, and `cuts` the batches in the order
    in which they were cut. A caller between its critical section and the end of its callback is `holding` a cut, by
    number; `fates` tells how the other cuts ended.
  */
  datatype State<T, E> = State(
    limit: nat,
    items: seq<T>,
    accepted: seq<T>,
    cuts: seq<Cut<T>>,
    holding: map<nat, nat>,
    fates: map<nat, Fate<T, E>>)

  /** A caller enters Add or Flush, or the callback it is in comes back; a caller does one thing at a time. */
  datatype Action<T, E> =
    | Add(caller: nat, item: T)
    | Flush(caller: nat)
    | Callback(caller: nat, result: Option<E>)

  function Entered<T, E>(s: State<T, E>, caller: nat, section: Section<T>, added: seq<T>): State<T, E> {
    var next := s.(items := section.items, accepted := s.accepted + added);
    match section.batch
    case None => next
    case Some(batch) =>
      next.(cuts := s.cuts + [Cut(batch, caller, added != [])], holding := s.holding[caller := |s.cuts|])
  }

  function FateOf<T, E>(batch: seq<T>, result: Option<E>): Fate<T, E> {
    match result
    case None => Delivered(batch)
    case Some(e) => Returned(FlushError(batch, e))
  }

  function Step<T, E>(s: State<T, E>, a: Action<T, E>): State<T, E> {
    match a
    case Add(caller, item) =>
      if caller in s.holding then s else Entered(s, caller, AddSection(s.limit, s.items, item), [item])
    case Flush(caller) =>
      if caller in s.holding then s else Entered(s, caller, FlushSection(s.items), [])
    case Callback(caller, result) =>
      if caller !in s.holding || s.holding[caller] >= |s.cuts| then s
      else
        var k := s.holding[caller];
        s.(holding := s.holding - {caller}, fates := s.fates[k := FateOf(s.cuts[k].items, result)])
  }

  function Init<T, E>(limit: int): State<T, E> {
    State(if limit <= 0 then DEFAULT_LIMIT else limit, [], [], [], map[], map[])
  }

  function After<T, E>(s: State<T, E>, acts: seq<Action<T, E>>): State<T, E> {
    if acts == [] then s else Step(After(s, acts[..|acts| - 1]), acts[|acts| - 1])
  }

  function Joined<T>(cuts: seq<Cut<T>>): seq<T> {
    if cuts == [] then [] else Joined(cuts[..|cuts| - 1]) + cuts[|cuts| - 1].items
  }

  /** The items a batch had when its fate was settled, wherever they went. */
  function Carried<T, E>(fate: Fate<T, E>): seq<T> {
    match fate
    case Delivered(items) => items
    case Returned(error) => error.items
  }

  /** Add cuts exactly `limit` items and Flush cuts what there is, never nothing and never that many. */
  predicate CutSize<T>(cut: Cut<T>, limit: nat) {
    if cut.byAdd then |cut.items| == limit else 0 < |cut.items| < limit
  }

  ghost predicate InOrder<T, E>(s: State<T, E>) {
    && |s.items| < s.limit
    && Joined(s.cuts) + s.items == s.accepted
    && forall i :: 0 <= i < |s.cuts| ==> CutSize(s.cuts[i], s.limit)
  }

  /** Every cut is held by the caller that made it or has its fate, and never both. */
  ghost predicate Tracked<T, E>(s: State<T, E>) {
    && (forall c :: c in s.holding ==>
          s.holding[c] < |s.cuts| && s.cuts[s.holding[c]].caller == c && s.holding[c] !in s.fates)
    && (forall k :: 0 <= k < |s.cuts| && k !in s.fates ==>
          s.cuts[k].caller in s.holding && s.holding[s.cuts[k].caller] == k)
    && (forall k :: k in s.fates ==> k < |s.cuts| && Carried(s.fates[k]) == s.cuts[k].items)
  }

  ghost predicate Conserved<T, E>(s: State<T, E>) {
    InOrder(s) && Tracked(s)
  }

  lemma JoinedAfter<T>(cuts: seq<Cut<T>>, cut: Cut<T>)
    ensures Joined(cuts + [cut]) == Joined(cuts) + cut.items
  {
    assert (cuts + [cut])[..|cuts|] == cuts;
  }

  lemma SectionInOrder<T, E>(s: State<T, E>, caller: nat, section: Section<T>, added: seq<T>)
    requires InOrder(s) && |section.items| < s.limit
    requires section.batch.None? ==> section.items == s.items + added
    requires section.batch.Some? ==>
      section.items == [] && section.batch.value == s.items + added
      && CutSize(Cut(section.batch.value, caller, added != []), s.limit)
    ensures InOrder(Entered(s, caller, section, added))
  {
    hide Joined, CutSize;
    var next := Entered(s, caller, section, added);
    if section.batch.Some? {
      JoinedAfter(s.cuts, Cut(section.batch.value, caller, added != []));
      assert Joined(next.cuts) + [] == Joined(s.cuts) + s.items + added;
    } else {
      assert Joined(s.cuts) + (s.items + added) == Joined(s.cuts) + s.items + added;
    }
  }

  lemma StepInOrder<T, E>(s: State<T, E>, a: Action<T, E>)
    requires InOrder(s)
    ensures InOrder(Step(s, a))
  {
    match a
    case Add(caller, item) => SectionInOrder(s, caller, AddSection(s.limit, s.items, item), [item]);
    case Flush(caller) => SectionInOrder(s, caller, FlushSection(s.items), []);
    case Callback(_, _) =>
  }

  lemma SectionTracked<T, E>(s: State<T, E>, caller: nat, section: Section<T>, added: seq<T>)
    requires Tracked(s) && caller !in s.holding
    ensures Tracked(Entered(s, caller, section, added))
  {}

  lemma StepTracked<T, E>(s: State<T, E>, a: Action<T, E>)
    requires Tracked(s)
    ensures Tracked(Step(s, a))
  {
    match a
    case Add(caller, item) =>
      if caller !in s.holding {
        SectionTracked(s, caller, AddSection(s.limit, s.items, item), [item]);
      }
    case Flush(caller) =>
      if caller !in s.holding {
        SectionTracked(s, caller, FlushSection(s.items), []);
      }
    case Callback(_, _) =>
  }

  lemma {:induction false} EveryRunConserves<T, E>(limit: int, acts: seq<Action<T, E>>)
    ensures Conserved(After(Init<T, E>(limit), acts))
  {
    if acts != [] {
      var before := After(Init<T, E>(limit), acts[..|acts| - 1]);
      EveryRunConserves(limit, acts[..|acts| - 1]);
      StepInOrder(before, acts[|acts| - 1]);
      StepTracked(before, acts[|acts| - 1]);
    }
  }

  /** What came of the first n cuts, in the order in which they were cut. */
  function Settled<T, E>(fates: map<nat, Fate<T, E>>, n: nat): seq<T>
    requires forall k :: 0 <= k < n ==> k in fates
  {
    if n == 0 then [] else Settled(fates, n - 1) + Carried(fates[n - 1])
  }

  lemma {:induction false} SettledIsJoined<T, E>(s: State<T, E>, n: nat)
    requires Tracked(s) && n <= |s.cuts| && forall k :: 0 <= k < n ==> k in s.fates
    ensures Settled(s.fates, n) == Joined(s.cuts[..n])
  {
    if n > 0 {
      SettledIsJoined(s, n - 1);
      assert s.cuts[..n][..n - 1] == s.cuts[..n - 1];
    }
  }

  /**
    The failure contract over whole runs: once no callback is running, the items delivered and the items handed back
    in errors, taken in the order of the cuts, and then the buffer, are exactly the items accepted, in lock order.
  */
  lemma NothingLostOrReordered<T, E>(limit: int, acts: seq<Action<T, E>>)
    ensures
      var s := After(Init<T, E>(limit), acts);
      s.holding == map[] ==>
        && (forall k :: 0 <= k < |s.cuts| ==> k in s.fates)
        && Settled(s.fates, |s.cuts|) + s.items == s.accepted
  {
    var s := After(Init<T, E>(limit), acts);
    EveryRunConserves(limit, acts);
    if s.holding == map[] {
      SettledIsJoined(s, |s.cuts|);
      assert s.cuts[..|s.cuts|] == s.cuts;
    }
  }

  /** A batch is cut once and its fate is settled once: later steps change neither. */
  ghost predicate Kept<T, E>(s: State<T, E>, t: State<T, E>) {
    && s.cuts <= t.cuts
    && s.accepted <= t.accepted
    && forall k :: k in s.fates ==> k in t.fates && t.fates[k] == s.fates[k]
  }

  lemma StepKeeps<T, E>(s: State<T, E>, a: Action<T, E>)
    requires Tracked(s)
    ensures Kept(s, Step(s, a))
  {}

  lemma KeptThenKept<T, E>(s: State<T, E>, t: State<T, E>, u: State<T, E>)
    requires Kept(s, t) && Kept(t, u)
    ensures Kept(s, u)
  {}

  lemma {:induction false} FatesAreFinal<T, E>(s: State<T, E>, acts: seq<Action<T, E>>)
    requires Tracked(s)
    ensures Tracked(After(s, acts)) && Kept(s, After(s, acts))
  {
    hide Tracked, Kept, Step;
    if acts == [] {
      NothingChanges(s);
    } else {
      var t, last := After(s, acts[..|acts| - 1]), acts[|acts| - 1];
      FatesAreFinal(s, acts[..|acts| - 1]);
      StepTracked(t, last);
      StepKeeps(t, last);
      KeptThenKept(s, t, Step(t, last));
    }
  }

  lemma NothingChanges<T, E>(s: State<T, E>)
    ensures Kept(s, s)
  {}

  lemma {:induction false} AfterJoined<T, E>(s: State<T, E>, first: seq<Action<T, E>>, second: seq<Action<T, E>>)
    ensures After(s, first + second) == After(After(s, first), second)
  {
    hide Step;
    var both := first + second;
    if second == [] {
      assert both == first;
    } else {
      AfterJoined(s, first, second[..|second| - 1]);
      assert both[..|both| - 1] == first + second[..|second| - 1];
    }
  }

  /**
    A caller that is in no callback gets its item in, at the end, in every run. The item that fills the buffer takes
    the others with it: they are one more cut, and the caller holds it.
  */
  lemma AddTakesItem<T, E>(limit: int, before: seq<Action<T, E>>, caller: nat, item: T)
    requires caller !in After(Init<T, E>(limit), before).holding
    ensures
      var s := After(Init<T, E>(limit), before);
      var t := After(Init<T, E>(limit), before + [Add(caller, item)]);
      && t.accepted == s.accepted + [item] && t.fates == s.fates
      && if |s.items| < s.limit - 1 then t.items == s.items + [item] && t.cuts == s.cuts && t.holding == s.holding
         else t.items == [] && t.cuts == s.cuts + [Cut(s.items + [item], caller, true)]
              && t.holding == s.holding[caller := |s.cuts|]
  {
    var acts := before + [Add(caller, item)];
    assert acts[..|before|] == before;
  }

  /** Flush cuts what there is, and the caller holds it; with nothing there it does nothing. */
  lemma FlushTakesAll<T, E>(limit: int, before: seq<Action<T, E>>, caller: nat)
    requires caller !in After(Init<T, E>(limit), before).holding
    ensures
      var s := After(Init<T, E>(limit), before);
      var t := After(Init<T, E>(limit), before + [Flush(caller)]);
      && t.accepted == s.accepted && t.items == [] && t.fates == s.fates
      && if s.items == [] then t == s
         else t.cuts == s.cuts + [Cut(s.items, caller, false)] && t.holding == s.holding[caller := |s.cuts|]
  {
    var acts := before + [Flush(caller)];
    assert acts[..|before|] == before;
  }

  /** The fate of a batch is what its callback said: taken without an error, handed back whole with the error it gave. */
  lemma FateTellsResult<T, E>(limit: int, before: seq<Action<T, E>>, caller: nat, result: Option<E>,
                              later: seq<Action<T, E>>)
    requires caller in After(Init<T, E>(limit), before).holding
    ensures
      var s := After(Init<T, E>(limit), before);
      var end := After(Init<T, E>(limit), before + [Callback(caller, result)] + later);
      var k := s.holding[caller];
      && k < |s.cuts| && s.cuts[k].caller == caller && k in end.fates
      && (result == None ==> end.fates[k] == Delivered(s.cuts[k].items))
      && (result.Some? ==> end.fates[k] == Returned(FlushError(s.cuts[k].items, result.value)))
  {
    var s, told := After(Init<T, E>(limit), before), before + [Callback(caller, result)];
    EveryRunConserves(limit, before);
    EveryRunConserves(limit, told);
    assert told[..|before|] == before;
    AfterJoined(Init(limit), told, later);
    FatesAreFinal(After(Init<T, E>(limit), told), later);
  }
}
