/**
  The Cloud Logging handler of go/slog-gcp/handler.go. A derived handler keeps `inner`, the fast form with every
  call applied, and next to it `root` and the recorded `steps`, from which Handle rebuilds the chain underneath
  the reserved attributes. The steps are a Go slice: an array, of which the first `used` cells count.
*/
module SlogHandler {
  import opened Numbers
  import opened Options

  datatype Value = Text(text: string) | Flag(flag: bool)

  datatype Attr = Attr(key: string, value: Value)

  /** An attribute and the groups it is nested under in the payload. */
  datatype Placed = Placed(path: seq<string>, attr: Attr)

  /** What a handler carries: the attributes given so far, and the groups open for the next ones. */
  datatype View = View(placed: seq<Placed>, open: seq<string>)

  /** An implementation of slog.Handler, on handlers of type H; `emit` is what Handle writes for a record. */
  datatype Ops<!H> = Ops(
    withAttrs: (H, seq<Attr>) -> H,
    withGroup: (H, string) -> H,
    emit: (H, seq<Attr>) -> seq<Placed>,
    view: H -> View)

  datatype Call = Attrs(attrs: seq<Attr>) | Group(name: string)

  /** A step is a group when its group is not empty, otherwise it carries attributes. */
  datatype ChainStep = ChainStep(group: string, attrs: seq<Attr>)

  function At(path: seq<string>, attrs: seq<Attr>): (placed: seq<Placed>)
    ensures |placed| == |attrs| && forall i :: 0 <= i < |attrs| ==> placed[i] == Placed(path, attrs[i])
  {
    if attrs == [] then [] else At(path, attrs[..|attrs| - 1]) + [Placed(path, attrs[|attrs| - 1])]
  }

  lemma {:induction false} AtJoined(path: seq<string>, first: seq<Attr>, second: seq<Attr>)
    ensures At(path, first + second) == At(path, first) + At(path, second)
  {
    var both := first + second;
    if second == [] {
      assert both == first;
    } else {
      AtJoined(path, first, second[..|second| - 1]);
      assert both[..|both| - 1] == first + second[..|second| - 1];
    }
  }

  /** The contract of slog.Handler: attributes land in the open group, and an empty group name changes nothing. */
  ghost predicate Obeys<H(!new)>(ops: Ops<H>) {
    && (forall h: H, attrs ::
          ops.view(ops.withAttrs(h, attrs)) ==
          View(ops.view(h).placed + At(ops.view(h).open, attrs), ops.view(h).open))
    && (forall h: H, name :: name != "" ==>
          ops.view(ops.withGroup(h, name)) == View(ops.view(h).placed, ops.view(h).open + [name]))
    && (forall h: H :: ops.withGroup(h, "") == h)
    && (forall h: H, rec :: ops.emit(h, rec) == ops.view(h).placed + At(ops.view(h).open, rec))
  }

  lemma Emitted<H(!new)>(ops: Ops<H>, h: H, rec: seq<Attr>)
    requires Obeys(ops)
    ensures ops.emit(h, rec) == ops.view(h).placed + At(ops.view(h).open, rec)
  {}

  // ------------------------------------------------------------- chains of calls

  function On<H>(ops: Ops<H>, h: H, call: Call): H {
    match call
    case Attrs(attrs) => ops.withAttrs(h, attrs)
    case Group(name) => ops.withGroup(h, name)
  }

  /** What the calls make of a handler that is not wrapped. */
  function Plain<H>(ops: Ops<H>, h: H, calls: seq<Call>): H {
    if calls == [] then h else On(ops, Plain(ops, h, calls[..|calls| - 1]), calls[|calls| - 1])
  }

  function Applied<H>(ops: Ops<H>, h: H, step: ChainStep): H {
    if step.group != "" then ops.withGroup(h, step.group) else ops.withAttrs(h, step.attrs)
  }

  function Replay<H>(ops: Ops<H>, h: H, steps: seq<ChainStep>): H {
    if steps == [] then h
    else Applied(ops, Replay(ops, h, steps[..|steps| - 1]), steps[|steps| - 1])
  }

  function Opens(call: Call): bool {
    call.Group? && call.name != ""
  }

  /** The number of calls made before the first group was opened. */
  function Ungrouped(calls: seq<Call>): (n: nat)
    ensures n <= |calls|
  {
    if calls == [] || Opens(calls[0]) then 0 else 1 + Ungrouped(calls[1..])
  }

  lemma {:induction false} UngroupedMeans(calls: seq<Call>)
    ensures forall i :: 0 <= i < Ungrouped(calls) ==> !Opens(calls[i])
    ensures Ungrouped(calls) < |calls| ==> Opens(calls[Ungrouped(calls)])
  {
    if calls != [] && !Opens(calls[0]) {
      UngroupedMeans(calls[1..]);
      forall i | 0 <= i < Ungrouped(calls) ensures !Opens(calls[i]) {
        assert i == 0 || calls[i] == calls[1..][i - 1];
      }
    }
  }

  function StepsOf(call: Call): seq<ChainStep> {
    match call
    case Attrs(attrs) => [ChainStep("", attrs)]
    case Group(name) => if name == "" then [] else [ChainStep(name, [])]
  }

  /** The steps that stand for calls made once a group is open. */
  function Recorded(calls: seq<Call>): seq<ChainStep> {
    if calls == [] then [] else Recorded(calls[..|calls| - 1]) + StepsOf(calls[|calls| - 1])
  }

  lemma PlainAfter<H>(ops: Ops<H>, h: H, calls: seq<Call>, call: Call)
    ensures Plain(ops, h, calls + [call]) == On(ops, Plain(ops, h, calls), call)
  {
    assert (calls + [call])[..|calls|] == calls;
  }

  lemma RecordedAfter(calls: seq<Call>, call: Call)
    ensures Recorded(calls + [call]) == Recorded(calls) + StepsOf(call)
  {
    assert (calls + [call])[..|calls|] == calls;
  }

  lemma ReplayAfter<H>(ops: Ops<H>, h: H, steps: seq<ChainStep>, step: ChainStep)
    ensures Replay(ops, h, steps + [step]) == Applied(ops, Replay(ops, h, steps), step)
  {
    assert (steps + [step])[..|steps|] == steps;
  }

  /** What a handler with this history of calls must hold: the fast form, and the form to rebuild it from. */
  ghost predicate Faithful<H>(ops: Ops<H>, base: H, calls: seq<Call>, inner: H, root: H, steps: seq<ChainStep>) {
    var n := Ungrouped(calls);
    && inner == Plain(ops, base, calls)
    && root == Plain(ops, base, calls[..n])
    && steps == Recorded(calls[n..])
  }

  lemma InnerIsPlain<H>(ops: Ops<H>, base: H, calls: seq<Call>, inner: H, root: H, steps: seq<ChainStep>)
    requires Faithful(ops, base, calls, inner, root, steps)
    ensures inner == Plain(ops, base, calls)
  {}

  lemma {:induction false} UngroupedAfter(calls: seq<Call>, call: Call)
    ensures Ungrouped(calls + [call]) ==
            if Ungrouped(calls) < |calls| || Opens(call) then Ungrouped(calls) else |calls| + 1
  {
    if calls != [] && !Opens(calls[0]) {
      UngroupedAfter(calls[1..], call);
      assert (calls + [call])[1..] == calls[1..] + [call];
    }
  }

  lemma {:induction false} FirstStepOpens(calls: seq<Call>)
    requires calls != [] && Opens(calls[0])
    ensures Recorded(calls) != []
  {
    var before := calls[..|calls| - 1];
    if before != [] {
      FirstStepOpens(before);
    }
    assert calls == before + [calls[|calls| - 1]];
    RecordedAfter(before, calls[|calls| - 1]);
  }

  /** The chain is recorded from the first group on, and from there on only. */
  lemma RecordedFromFirstGroup(calls: seq<Call>)
    ensures Recorded(calls[Ungrouped(calls)..]) == [] <==> Ungrouped(calls) == |calls|
  {
    var n := Ungrouped(calls);
    UngroupedMeans(calls);
    if n < |calls| {
      FirstStepOpens(calls[n..]);
    } else {
      NothingRecorded();
    }
  }

  /** A call made while no group is open, and opening none, extends the root. */
  lemma FaithfulAtRoot<H>(ops: Ops<H>, base: H, calls: seq<Call>, call: Call, inner: H, root: H)
    requires Faithful(ops, base, calls, inner, root, []) && Ungrouped(calls) == |calls| && !Opens(call)
    ensures inner == root && Faithful(ops, base, calls + [call], On(ops, inner, call), On(ops, root, call), [])
  {
    hide Plain, Ungrouped, Recorded, On;
    var longer := calls + [call];
    UngroupedAfter(calls, call);
    PlainAfter(ops, base, calls, call);
    assert calls[..|calls|] == calls && longer[..|longer|] == longer && longer[|longer|..] == [];
    NothingRecorded();
  }

  lemma NothingRecorded()
    ensures Recorded([]) == []
  {}

  /** Any other call is recorded. */
  lemma FaithfulLater<H>(ops: Ops<H>, base: H, calls: seq<Call>, call: Call, inner: H, root: H, steps: seq<ChainStep>)
    requires Faithful(ops, base, calls, inner, root, steps) && (Ungrouped(calls) < |calls| || Opens(call))
    ensures Faithful(ops, base, calls + [call], On(ops, inner, call), root, steps + StepsOf(call))
  {
    hide Plain, Ungrouped, Recorded, On, StepsOf;
    var n := Ungrouped(calls);
    UngroupedAfter(calls, call);
    PlainAfter(ops, base, calls, call);
    RecordedAfter(calls[n..], call);
    OneMore(calls, call, n);
  }

  lemma OneMore(calls: seq<Call>, call: Call, n: nat)
    requires n <= |calls|
    ensures (calls + [call])[..n] == calls[..n] && (calls + [call])[n..] == calls[n..] + [call]
  {}

  /** A handler that is given attributes before the first group extends its root, after it its steps. */
  lemma FaithfulAttrs<H>(ops: Ops<H>, base: H, calls: seq<Call>, attrs: seq<Attr>, inner: H, root: H,
                         steps: seq<ChainStep>)
    requires Faithful(ops, base, calls, inner, root, steps)
    ensures steps == [] ==>
      Faithful(ops, base, calls + [Attrs(attrs)], ops.withAttrs(inner, attrs), ops.withAttrs(root, attrs), [])
    ensures steps != [] ==>
      Faithful(ops, base, calls + [Attrs(attrs)], ops.withAttrs(inner, attrs), root, steps + [ChainStep("", attrs)])
  {
    NoStepsIff(ops, base, calls, inner, root, steps);
    hide Faithful, Ungrouped;
    if steps == [] {
      FaithfulAtRoot(ops, base, calls, Attrs(attrs), inner, root);
    } else {
      FaithfulLater(ops, base, calls, Attrs(attrs), inner, root, steps);
    }
  }

  lemma NoStepsIff<H>(ops: Ops<H>, base: H, calls: seq<Call>, inner: H, root: H, steps: seq<ChainStep>)
    requires Faithful(ops, base, calls, inner, root, steps)
    ensures steps == [] <==> Ungrouped(calls) == |calls|
  {
    RecordedFromFirstGroup(calls);
  }

  lemma FaithfulGroup<H>(ops: Ops<H>, base: H, calls: seq<Call>, name: string, inner: H, root: H,
                         steps: seq<ChainStep>)
    requires Faithful(ops, base, calls, inner, root, steps)
    requires name == "" ==> ops.withGroup(inner, "") == inner && ops.withGroup(root, "") == root
    ensures Faithful(ops, base, calls + [Group(name)], ops.withGroup(inner, name), root,
                     if name == "" then steps else steps + [ChainStep(name, [])])
  {
    NoStepsIff(ops, base, calls, inner, root, steps);
    hide Faithful, Ungrouped;
    if steps == [] && name == "" {
      FaithfulAtRoot(ops, base, calls, Group(name), inner, root);
    } else {
      FaithfulLater(ops, base, calls, Group(name), inner, root, steps);
      assert steps + [] == steps;
    }
  }

  lemma NoCalls<H>(ops: Ops<H>, h: H)
    ensures Plain(ops, h, []) == h && Replay(ops, h, Recorded([])) == h
  {}

  lemma {:induction false} PlainSplits<H>(ops: Ops<H>, h: H, first: seq<Call>, second: seq<Call>)
    ensures Plain(ops, h, first + second) == Plain(ops, Plain(ops, h, first), second)
  {
    hide Plain;
    if second == [] {
      NoCalls(ops, Plain(ops, h, first));
      assert first + second == first;
    } else {
      var before, last := second[..|second| - 1], second[|second| - 1];
      PlainSplits(ops, h, first, before);
      PlainAfter(ops, h, first + before, last);
      PlainAfter(ops, Plain(ops, h, first), before, last);
      assert first + second == first + before + [last] && second == before + [last];
    }
  }

  lemma {:induction false} ReplayRecorded<H(!new)>(ops: Ops<H>, h: H, calls: seq<Call>)
    requires Obeys(ops)
    ensures Replay(ops, h, Recorded(calls)) == Plain(ops, h, calls)
  {
    hide Plain, Recorded, Replay, Obeys, StepsOf;
    if calls == [] {
      NoCalls(ops, h);
    } else {
      var before, last := calls[..|calls| - 1], calls[|calls| - 1];
      ReplayRecorded(ops, h, before);
      PlainAfter(ops, h, before, last);
      RecordedAfter(before, last);
      assert calls == before + [last];
      RecordedStep(ops, h, Recorded(before), Plain(ops, h, before), last);
    }
  }

  lemma RecordedStep<H(!new)>(ops: Ops<H>, h: H, steps: seq<ChainStep>, before: H, call: Call)
    requires Obeys(ops) && Replay(ops, h, steps) == before
    ensures Replay(ops, h, steps + StepsOf(call)) == On(ops, before, call)
  {
    if call == Group("") {
      assert steps + [] == steps;
    } else {
      ReplayAfter(ops, h, steps, StepsOf(call)[0]);
    }
  }

  /** The law the handler rests on: for every history, the fast form is the recorded chain replayed on the root. */
  lemma InnerIsRootReplayed<H(!new)>(ops: Ops<H>, base: H, calls: seq<Call>, inner: H, root: H,
                                     steps: seq<ChainStep>)
    requires Obeys(ops) && Faithful(ops, base, calls, inner, root, steps)
    ensures inner == Replay(ops, root, steps)
  {
    hide Ungrouped, Plain, Recorded, Replay, Obeys;
    var n := Ungrouped(calls);
    PlainSplits(ops, base, calls[..n], calls[n..]);
    assert calls == calls[..n] + calls[n..];
    ReplayRecorded(ops, root, calls[n..]);
  }

  /** Attributes given before the first group never open one: the root stays at the path it started at. */
  lemma {:induction false} RootKeepsPath<H(!new)>(ops: Ops<H>, base: H, calls: seq<Call>)
    requires Obeys(ops) && forall i :: 0 <= i < |calls| ==> !Opens(calls[i])
    ensures ops.view(Plain(ops, base, calls)).open == ops.view(base).open
  {
    if calls != [] {
      RootKeepsPath(ops, base, calls[..|calls| - 1]);
    }
  }

  // ---------------------------------------------------------- what Handle writes

  /** `more` is `some` with a block put in at one place. */
  ghost predicate Inserted<T>(more: seq<T>, some: seq<T>, block: seq<T>) {
    exists k :: 0 <= k <= |some| && more == some[..k] + block + some[k..]
  }

  /** Two handlers are alike but for a block of attributes that one of them has after `start`. */
  ghost predicate Carries(more: View, plain: View, start: seq<Placed>, block: seq<Placed>) {
    && more.open == plain.open
    && start <= plain.placed
    && more.placed == start + block + plain.placed[|start|..]
  }

  lemma MoreCarries(more: View, plain: View, start: seq<Placed>, block: seq<Placed>, tail: seq<Placed>, open: seq<string>)
    requires Carries(more, plain, start, block)
    ensures Carries(View(more.placed + tail, open), View(plain.placed + tail, open), start, block)
  {}

  lemma Given<H(!new)>(ops: Ops<H>, h: H, step: ChainStep)
    requires Obeys(ops)
    ensures
      var v := ops.view(h);
      ops.view(Applied(ops, h, step)) ==
        if step.group == "" then View(v.placed + At(v.open, step.attrs), v.open)
        else View(v.placed, v.open + [step.group])
  {}

  lemma StepCarries<H(!new)>(ops: Ops<H>, more: H, plain: H, step: ChainStep, start: seq<Placed>, block: seq<Placed>)
    requires Obeys(ops) && Carries(ops.view(more), ops.view(plain), start, block)
    ensures Carries(ops.view(Applied(ops, more, step)), ops.view(Applied(ops, plain, step)), start, block)
  {
    var v, w := ops.view(more), ops.view(plain);
    Given(ops, more, step);
    Given(ops, plain, step);
    MoreCarries(v, w, start, block, At(v.open, step.attrs), v.open);
    hide Obeys, Applied, At;
  }

  /** Replaying on a root that has a block of extra attributes changes nothing but that block. */
  lemma {:induction false} ReplayCarries<H(!new)>(ops: Ops<H>, root: H, extra: seq<Attr>, steps: seq<ChainStep>)
    requires Obeys(ops)
    ensures Carries(ops.view(Replay(ops, ops.withAttrs(root, extra), steps)), ops.view(Replay(ops, root, steps)),
                    ops.view(root).placed, At(ops.view(root).open, extra))
  {
    if steps != [] {
      var before := steps[..|steps| - 1];
      ReplayCarries(ops, root, extra, before);
      StepCarries(ops, Replay(ops, ops.withAttrs(root, extra), before), Replay(ops, root, before),
                  steps[|steps| - 1], ops.view(root).placed, At(ops.view(root).open, extra));
    }
  }

  lemma InsertThenAppend<T>(start: seq<T>, block: seq<T>, plain: seq<T>, tail: seq<T>)
    requires start <= plain
    ensures Inserted(start + block + plain[|start|..] + tail, plain + tail, block)
  {
    var k := |start|;
    assert start + block + plain[k..] + tail == (plain + tail)[..k] + block + (plain + tail)[k..];
  }

  /**
    What Handle writes after injecting `reserved`: all that `inner` would write for the record, in the same order and
    at the same paths, and one block more: the reserved attributes, at the path of the handler that was wrapped.
  */
  lemma ReservedAtRoot<H(!new)>(ops: Ops<H>, base: H, calls: seq<Call>, inner: H, root: H, steps: seq<ChainStep>,
                                reserved: seq<Attr>, rec: seq<Attr>)
    requires Obeys(ops) && Faithful(ops, base, calls, inner, root, steps)
    ensures Inserted(ops.emit(Replay(ops, ops.withAttrs(root, reserved), steps), rec), ops.emit(inner, rec),
                     At(ops.view(base).open, reserved))
  {
    InnerIsRootReplayed(ops, base, calls, inner, root, steps);
    ReplayCarries(ops, root, reserved, steps);
    UngroupedMeans(calls);
    RootKeepsPath(ops, base, calls[..Ungrouped(calls)]);
    InsertThenAppend(ops.view(root).placed, At(ops.view(base).open, reserved), ops.view(inner).placed,
                     At(ops.view(inner).open, rec));
  }

  lemma NoStepsNoGroup<H(!new)>(ops: Ops<H>, base: H, calls: seq<Call>, inner: H, root: H)
    requires Obeys(ops) && Faithful(ops, base, calls, inner, root, [])
    ensures ops.view(inner).open == ops.view(base).open
  {
    NoStepsIff(ops, base, calls, inner, root, []);
    InnerIsPlain(ops, base, calls, inner, root, []);
    hide Faithful, Ungrouped, Plain, Obeys;
    UngroupedMeans(calls);
    RootKeepsPath(ops, base, calls);
  }

  /** The fast path, taken with nothing to inject or no group open, amounts to the same. */
  lemma ReservedOnRecord<H(!new)>(ops: Ops<H>, base: H, calls: seq<Call>, inner: H, root: H, steps: seq<ChainStep>,
                                  reserved: seq<Attr>, rec: seq<Attr>)
    requires Obeys(ops) && Faithful(ops, base, calls, inner, root, steps)
    requires steps == [] || reserved == []
    ensures Inserted(ops.emit(inner, rec + reserved), ops.emit(inner, rec), At(ops.view(base).open, reserved))
  {
    hide Faithful, Obeys, Inserted;
    if reserved == [] {
      assert rec + reserved == rec;
      InsertNothing(ops.emit(inner, rec));
    } else {
      NoStepsNoGroup(ops, base, calls, inner, root);
      Emitted(ops, inner, rec);
      Emitted(ops, inner, rec + reserved);
      AtJoined(ops.view(base).open, rec, reserved);
      InsertAtEnd(ops.view(inner).placed, At(ops.view(base).open, rec), At(ops.view(base).open, reserved));
    }
  }

  lemma InsertNothing<T>(some: seq<T>)
    ensures Inserted(some, some, [])
  {
    assert some == some[..0] + [] + some[0..];
  }

  lemma InsertAtEnd<T>(start: seq<T>, tail: seq<T>, block: seq<T>)
    ensures Inserted(start + (tail + block), start + tail, block)
  {
    var some := start + tail;
    assert start + (tail + block) == some[..|some|] + block + some[|some|..];
  }

  // --------------------------------------------------------- reserved attributes

  datatype TraceContext = TraceContext(traceID: string, spanID: string, sampled: bool)

  const FIELD_INSERT_ID := "logging.googleapis.com/insertId"
  const FIELD_TRACE := "logging.googleapis.com/trace"
  const FIELD_SPAN_ID := "logging.googleapis.com/spanId"
  const FIELD_TRACE_SAMPLED := "logging.googleapis.com/trace_sampled"

  function UniqueID(pid: string, value: nat): string {
    pid + "-" + Dec(value)
  }

  /** The process-wide counter of event ids, a 64-bit word that wraps. */
  class Sequence {
    var last: nat

    method FastUniqueID(pid: string) returns (id: string)
      modifies this
      ensures last == (old(last) + 1) % 0x1_0000_0000_0000_0000
      ensures id == UniqueID(pid, last)
    {
      last := (last + 1) % WORD;
      id := pid + "-" + Dec(last);
    }
  }

  lemma MultiplesApart(m: int, k: int)
    requires 0 < m
    ensures k >= 1 ==> m * k >= m
    ensures k <= -1 ==> m * k <= -m
  {
    if k >= 1 {
      assert m * k == m * (k - 1) + m;
    }
    if k <= -1 {
      assert m * k == m * (k + 1) - m;
    }
  }

  lemma SameResidue(x: int, y: int, m: int)
    requires 0 < m
    ensures x % m == y % m <==> (y - x) % m == 0
  {
    var p, q, d := x / m, y / m, (y - x) / m;
    assert x == m * p + x % m && y == m * q + y % m && y - x == m * d + (y - x) % m;
    assert y % m - x % m - (y - x) % m == m * (d - q + p) by {
      assert m * (d - q + p) == m * d - m * q + m * p;
    }
    MultiplesApart(m, d - q + p);
  }

  lemma UniqueIDsDiffer(pid: string, a: nat, b: nat)
    requires UniqueID(pid, a) == UniqueID(pid, b)
    ensures a == b
  {
    assert UniqueID(pid, a)[|pid| + 1..] == Dec(a);
    assert UniqueID(pid, b)[|pid| + 1..] == Dec(b);
    DecReadsBack(a);
    DecReadsBack(b);
  }

  /** Two records carry the same insert id only when the counter has gone all the way round between them. */
  lemma InsertIDsDistinct(pid: string, start: nat, i: nat, j: nat)
    requires i < j
    ensures UniqueID(pid, (start + i) % WORD) == UniqueID(pid, (start + j) % WORD) <==> (j - i) % 0x1_0000_0000_0000_0000 == 0
  {
    hide UniqueID;
    var a, b := (start + i) % WORD, (start + j) % WORD;
    SameResidue(start + i, start + j, WORD);
    if UniqueID(pid, a) == UniqueID(pid, b) {
      UniqueIDsDiffer(pid, a, b);
    }
  }

  // ----------------------------------------------------------------- the handler

  /** Go's append on a slice of steps: it writes into spare capacity, and only without any does it move. */
  method Append(cells: array<ChainStep>, used: nat, step: ChainStep) returns (grown: array<ChainStep>)
    requires used <= cells.Length
    modifies cells
    ensures grown.Length > used && grown[..used + 1] == old(cells[..used]) + [step]
    ensures if used < cells.Length then grown == cells else fresh(grown) && cells[..] == old(cells[..])
  {
    if used < cells.Length {
      cells[used] := step;
      grown := cells;
    } else {
      grown := new ChainStep[2 * used + 1];
      forall i | 0 <= i < used {
        grown[i] := cells[i];
      }
      grown[used] := step;
    }
  }

  class Handler<H(!new)> {
    const ops: Ops<H>
    var inner: H
    var root: H
    var steps: array<ChainStep>
    var used: nat
    const insertID: bool
    const insertIDKey: string
    const projectID: string
    const tracePrefix: string

    ghost var base: H
    ghost var calls: seq<Call>

    ghost predicate Valid()
      reads this, steps
    {
      && used <= steps.Length
      && tracePrefix == "projects/" + projectID + "/traces/"
      && Faithful(ops, base, calls, inner, root, steps[..used])
    }

    constructor (ops: Ops<H>, inner: H, projectID: string, insertID: bool, insertIDKey: string)
      ensures Valid() && fresh(steps)
      ensures base == inner && calls == [] && this.ops == ops
      ensures this.projectID == projectID && this.insertID == insertID
      ensures this.insertIDKey == if insertIDKey == "" then "logging.googleapis.com/insertId" else insertIDKey
    {
      this.ops, this.inner, this.root := ops, inner, inner;
      this.steps, this.used := new ChainStep[0], 0;
      this.insertID := insertID;
      this.insertIDKey := if insertIDKey == "" then FIELD_INSERT_ID else insertIDKey;
      this.projectID, this.tracePrefix := projectID, "projects/" + projectID + "/traces/";
      this.base, this.calls := inner, [];
    }

    /** A copy with a steps array of its own, one cell longer than it needs. */
    constructor Clone(h: Handler<H>)
      requires h.Valid()
      ensures Valid() && fresh(steps) && steps.Length == used + 1
      ensures ops == h.ops && inner == h.inner && root == h.root
      ensures used == h.used && steps[..used] == h.steps[..h.used]
      ensures insertID == h.insertID && insertIDKey == h.insertIDKey && projectID == h.projectID
      ensures base == h.base && calls == h.calls
    {
      var copied := new ChainStep[h.used + 1];
      forall i | 0 <= i < h.used {
        copied[i] := h.steps[i];
      }
      ops, inner, root, steps, used := h.ops, h.inner, h.root, copied, h.used;
      insertID, insertIDKey, projectID, tracePrefix := h.insertID, h.insertIDKey, h.projectID, h.tracePrefix;
      base, calls := h.base, h.calls;
      new;
      assert steps[..used] == h.steps[..h.used];
    }

    /** Nothing that existed before is changed: not this handler, not its steps, not a sibling or its steps. */
    method WithAttrs(attrs: seq<Attr>) returns (next: Handler<H>)
      requires Valid()
      ensures next.Valid() && fresh(next) && fresh(next.steps)
      ensures next.base == base && next.calls == calls + [Attrs(attrs)]
      ensures next.ops == ops && next.insertID == insertID && next.insertIDKey == insertIDKey
      ensures next.projectID == projectID
    {
      hide Faithful;
      next := new Handler.Clone(this);
      next.inner := ops.withAttrs(inner, attrs);
      if used == 0 {
        next.root := ops.withAttrs(root, attrs);
      } else {
        next.steps := Append(next.steps, next.used, ChainStep("", attrs));
        next.used := next.used + 1;
      }
      next.calls := calls + [Attrs(attrs)];
      FaithfulAttrs(ops, base, calls, attrs, inner, root, steps[..used]);
      assert next.steps[..next.used] == if used == 0 then [] else steps[..used] + [ChainStep("", attrs)];
    }

    method WithGroup(name: string) returns (next: Handler<H>)
      requires Valid()
      ensures next.Valid()
      ensures next.base == base && next.calls == if name == "" then calls else calls + [Group(name)]
      ensures if name == "" then next == this else fresh(next) && fresh(next.steps)
      ensures next.ops == ops && next.insertID == insertID && next.insertIDKey == insertIDKey
      ensures next.projectID == projectID
    {
      hide Faithful;
      if name == "" {
        return this;
      }
      FaithfulGroup(ops, base, calls, name, inner, root, steps[..used]);
      next := new Handler.Clone(this);
      next.inner := ops.withGroup(inner, name);
      next.steps := Append(next.steps, next.used, ChainStep(name, []));
      next.used := next.used + 1;
      next.calls := calls + [Group(name)];
    }

    /** The attributes to inject into one record; `found` is what the resolver, if there is one, found in its context. */
    method ReservedAttrs(sequence: Sequence, pid: string, found: Option<TraceContext>) returns (attrs: seq<Attr>)
      requires Valid()
      modifies sequence
      ensures
        var traced, k := found.Some? && found.value.traceID != "", if insertID then 1 else 0;
        && |attrs| == k + (if traced then 3 else 0)
        && (insertID ==> attrs[0] == Attr(insertIDKey, Text(pid + "-" + Dec(sequence.last))))
        && (traced ==>
              var tc := found.value;
              && attrs[k] == Attr("logging.googleapis.com/trace", Text("projects/" + projectID + "/traces/" + tc.traceID))
              && attrs[k + 1] == Attr("logging.googleapis.com/spanId", Text(tc.spanID))
              && attrs[k + 2] == Attr("logging.googleapis.com/trace_sampled", Flag(tc.sampled)))
      ensures sequence.last == if insertID then (old(sequence.last) + 1) % WORD else old(sequence.last)
    {
      attrs := [];
      if insertID {
        var id := sequence.FastUniqueID(pid);
        attrs := attrs + [Attr(insertIDKey, Text(id))];
      }
      match found {
        case None =>
        case Some(tc) =>
          if tc.traceID != "" {
            attrs := attrs + [Attr(FIELD_TRACE, Text(tracePrefix + tc.traceID)),
                              Attr(FIELD_SPAN_ID, Text(tc.spanID)),
                              Attr(FIELD_TRACE_SAMPLED, Flag(tc.sampled))];
          }
      }
    }

    method Handle(sequence: Sequence, pid: string, found: Option<TraceContext>, rec: seq<Attr>)
      returns (written: seq<Placed>, ghost reserved: seq<Attr>)
      requires Valid() && Obeys(ops)
      modifies sequence
      ensures sequence.last == if insertID then (old(sequence.last) + 1) % WORD else old(sequence.last)
      ensures
        var traced, k := found.Some? && found.value.traceID != "", if insertID then 1 else 0;
        && |reserved| == k + (if traced then 3 else 0)
        && (insertID ==> reserved[0] == Attr(insertIDKey, Text(pid + "-" + Dec(sequence.last))))
        && (traced ==>
              var tc := found.value;
              && reserved[k] == Attr("logging.googleapis.com/trace", Text("projects/" + projectID + "/traces/" + tc.traceID))
              && reserved[k + 1] == Attr("logging.googleapis.com/spanId", Text(tc.spanID))
              && reserved[k + 2] == Attr("logging.googleapis.com/trace_sampled", Flag(tc.sampled)))
      ensures Inserted(written, ops.emit(Plain(ops, base, calls), rec), At(ops.view(base).open, reserved))
    {
      hide Faithful, Obeys, Inserted;
      InnerIsPlain(ops, base, calls, inner, root, steps[..used]);
      var attrs := ReservedAttrs(sequence, pid, found);
      reserved := attrs;
      if |attrs| == 0 || used == 0 {
        ReservedOnRecord(ops, base, calls, inner, root, steps[..used], attrs, rec);
        written := ops.emit(inner, rec + attrs);
        return;
      }
      ReservedAtRoot(ops, base, calls, inner, root, steps[..used], attrs, rec);
      var target := ops.withAttrs(root, attrs);
      for i := 0 to used
        invariant target == Replay(ops, ops.withAttrs(root, attrs), steps[..i])
      {
        var step := steps[i];
        ghost var more := steps[..i + 1];
        assert more[..i] == steps[..i];
        if step.group != "" {
          target := ops.withGroup(target, step.group);
        } else {
          target := ops.withAttrs(target, step.attrs);
        }
      }
      written := ops.emit(target, rec);
    }
  }
}
