/**
 The build stamp line: printed by Stamp.String, read back by ParseStamp, judged by Matches.
 */
module BuildStamp {
  import opened Words

  datatype Stamp = Stamp(
    name: string,
    version: string,
    commit: string,
    dirty: bool,
    builtAt: string,
    mainModule: string,
    deps: map<string, string>
  )

  const EMPTY := Stamp("", "", "", false, "", "", map[])

  const UNKNOWN := "unknown"
  const DIRTY_SUFFIX := "-dirty"
  const FULL_SHA_LEN := 40

  /** Why a line is refused. */
  datatype ParseError = EmptyLine | BareWord(word: string) | BadDirty(value: string) | NoCommit

  datatype Result<+T, +E> = Ok(value: T) | Err(error: E)

  // ------------------------------------------------------------------ sorted keys

  predicate Less(a: string, b: string) {
    if a == [] then b != []
    else b != [] && (a[0] < b[0] || (a[0] == b[0] && Less(a[1..], b[1..])))
  }

  lemma {:induction false} LessTotal(a: string, b: string)
    ensures a == b || Less(a, b) || Less(b, a)
    ensures !(Less(a, b) && Less(b, a)) && (Less(a, b) ==> a != b)
  {
    if a != [] && b != [] {
      LessTotal(a[1..], b[1..]);
      assert a == [a[0]] + a[1..] && b == [b[0]] + b[1..];
    }
  }

  lemma {:induction false} LessTransitive(a: string, b: string, c: string)
    requires Less(a, b) && Less(b, c)
    ensures Less(a, c)
  {
    if a != [] && a[0] == b[0] == c[0] {
      LessTransitive(a[1..], b[1..], c[1..]);
    }
  }

  predicate Ascending(keys: seq<string>) {
    forall i, j :: 0 <= i < j < |keys| ==> Less(keys[i], keys[j])
  }

  /** `keys` lists exactly the elements of `ks`, in order. */
  ghost predicate Lists(keys: seq<string>, ks: set<string>) {
    Ascending(keys) && forall k :: k in keys <==> k in ks
  }

  function First(keys: seq<string>): string { if keys == [] then "" else keys[0] }

  lemma {:induction false} ListsUnique(a: seq<string>, b: seq<string>, ks: set<string>)
    requires Lists(a, ks) && Lists(b, ks)
    ensures a == b
    decreases |a|
  {
    if a == [] {
      assert b == [] || First(b) in b;
    } else {
      assert a[0] in ks;
      assert b != [] && b[0] in ks && b[0] in a && a[0] in b;
      var i :| 0 <= i < |a| && a[i] == b[0];
      var j :| 0 <= j < |b| && b[j] == a[0];
      LessTotal(a[0], b[0]);
      assert a[0] == b[0];
      forall k ensures k in a[1..] <==> k in ks - {a[0]} {
        TailWithoutHead(a, k);
      }
      forall k ensures k in b[1..] <==> k in ks - {a[0]} {
        TailWithoutHead(b, k);
      }
      ListsUnique(a[1..], b[1..], ks - {a[0]});
      assert a == [a[0]] + a[1..] && b == [b[0]] + b[1..];
    }
  }

  lemma TailWithoutHead(a: seq<string>, k: string)
    requires a != [] && Ascending(a)
    ensures k in a[1..] <==> k in a && k != a[0]
  {
    if k in a[1..] {
      var i :| 0 <= i < |a| - 1 && a[1..][i] == k;
      LessTotal(a[0], a[i + 1]);
    }
    assert a == [a[0]] + a[1..];
  }

  /** Inserts a key into an ascending list that does not have it. */
  method Insert(keys: seq<string>, k: string) returns (out: seq<string>)
    requires Ascending(keys) && k !in keys
    ensures Ascending(out) && forall x :: x in out <==> x in keys || x == k
  {
    var n := 0;
    while n < |keys| && Less(keys[n], k)
      invariant n <= |keys| && forall i :: 0 <= i < n ==> Less(keys[i], k)
    {
      n := n + 1;
    }
    out := keys[..n] + [k] + keys[n..];
    forall i | n <= i < |keys| ensures Less(k, keys[i]) {
      LessTotal(keys[n], k);
      assert keys[n] in keys;
      if n < i { LessTransitive(k, keys[n], keys[i]); }
    }
  }

  /** slices.Sorted(maps.Keys(m)) */
  method SortedKeysOf(m: map<string, string>) returns (keys: seq<string>)
    ensures Lists(keys, m.Keys)
  {
    keys := [];
    var left := m.Keys;
    while left != {}
      invariant left <= m.Keys && Ascending(keys) && forall k :: k in keys <==> k in m.Keys - left
      decreases left
    {
      var k :| k in left;
      keys := Insert(keys, k);
      left := left - {k};
    }
  }

  lemma {:induction false} ListingExists(ks: set<string>)
    ensures exists keys :: Lists(keys, ks)
    decreases ks
  {
    if ks == {} {
      assert Lists([], ks);
    } else {
      var k := Greatest(ks);
      ListingExists(ks - {k});
      var keys :| Lists(keys, ks - {k});
      assert Lists(keys + [k], ks) by {
        forall i | 0 <= i < |keys| ensures Less(keys[i], k) { assert keys[i] in keys; }
      }
    }
  }

  lemma {:induction false} Greatest(ks: set<string>) returns (g: string)
    requires ks != {}
    ensures g in ks && forall k :: k in ks && k != g ==> Less(k, g)
    decreases ks
  {
    var x :| x in ks;
    if ks == {x} {
      g := x;
    } else {
      var h := Greatest(ks - {x});
      LessTotal(x, h);
      if Less(h, x) {
        g := x;
        forall k | k in ks && k != g ensures Less(k, g) {
          if k != h { LessTransitive(k, h, x); }
        }
      } else {
        g := h;
      }
    }
  }

  ghost function SortedKeys(ks: set<string>): (keys: seq<string>)
    ensures Lists(keys, ks)
  {
    ListingExists(ks);
    var keys :| Lists(keys, ks);
    keys
  }

  // ------------------------------------------------------------------------ printing

  function BoolText(b: bool): string { if b then "true" else "false" }

  function Pair(key: string, value: string): string { key + "=" + value }

  function DepText(keys: seq<string>, deps: map<string, string>): string
    requires forall k :: k in keys ==> k in deps
  {
    if keys == [] then [] else " " + Pair(keys[0], deps[keys[0]]) + DepText(keys[1..], deps)
  }

  function IfSet(prefix: string, value: string): string {
    if value != "" then prefix + value else ""
  }

  /** The fields every line has. */
  function Fixed(s: Stamp): string {
    s.name + IfSet(" ", s.version) + " " + Pair("commit", s.commit) + " " + Pair("dirty", BoolText(s.dirty))
  }

  /** Everything but the dependencies. */
  function Head(s: Stamp): string {
    if s.builtAt != "" then Fixed(s) + " " + Pair("built", s.builtAt) else Fixed(s)
  }

  /** The line before it is trimmed. */
  function Untrimmed(s: Stamp, keys: seq<string>): string
    requires forall k :: k in keys ==> k in s.deps
  {
    Head(s) + DepText(keys, s.deps)
  }

  /** The line Stamp.String prints. */
  ghost function Print(s: Stamp): string {
    TrimSpace(Untrimmed(s, SortedKeys(s.deps.Keys)))
  }

  lemma {:induction false} DepTextAppend(keys: seq<string>, k: string, deps: map<string, string>)
    requires (forall x :: x in keys ==> x in deps) && k in deps
    ensures DepText(keys + [k], deps) == DepText(keys, deps) + (" " + Pair(k, deps[k]))
  {
    if keys == [] {
      assert [k][1..] == [];
    } else {
      assert (keys + [k])[1..] == keys[1..] + [k];
      DepTextAppend(keys[1..], k, deps);
    }
  }

  /** Stamp.String, with its string builder. */
  method String(s: Stamp) returns (line: string)
    ensures line == Print(s)
  {
    var b := "";
    if s.name != "" {
      b := b + s.name;
    }
    assert b == s.name;
    if s.version != "" {
      b := b + (" " + s.version);
    }
    assert b == s.name + IfSet(" ", s.version);
    FixedText(b, s.commit, BoolText(s.dirty));
    b := b + (" commit=" + s.commit + " dirty=" + BoolText(s.dirty));
    assert b == Fixed(s);
    if s.builtAt != "" {
      BuiltText(b, s.builtAt);
      b := b + (" built=" + s.builtAt);
    }
    var keys := SortedKeysOf(s.deps);
    ListsUnique(keys, SortedKeys(s.deps.Keys), s.deps.Keys);
    b := AppendDeps(b, keys, s.deps);
    line := TrimSpace(b);
  }

  lemma FixedText(b: string, commit: string, dirty: string)
    ensures b + (" commit=" + commit + " dirty=" + dirty) == b + " " + Pair("commit", commit) + " " + Pair("dirty", dirty)
  {
    assert " commit=" + commit == " " + Pair("commit", commit);
    assert " dirty=" + dirty == " " + Pair("dirty", dirty);
    var c, d := " " + Pair("commit", commit), " " + Pair("dirty", dirty);
    assert b + (c + d) == b + c + d;
  }

  lemma BuiltText(b: string, at: string)
    ensures b + (" built=" + at) == b + " " + Pair("built", at)
  {
    assert " built=" + at == " " + Pair("built", at);
    var t := " " + Pair("built", at);
    assert b + t == b + " " + Pair("built", at);
  }

  method AppendDeps(head: string, keys: seq<string>, deps: map<string, string>) returns (b: string)
    requires forall k :: k in keys ==> k in deps
    ensures b == head + DepText(keys, deps)
  {
    b := head;
    for i := 0 to |keys|
      invariant b == head + DepText(keys[..i], deps)
    {
      DepTextAppend(keys[..i], keys[i], deps);
      assert keys[..i + 1] == keys[..i] + [keys[i]];
      b := b + (" " + Pair(keys[i], deps[keys[i]]));
    }
    assert keys[..|keys|] == keys;
  }

  // ------------------------------------------------------------------------- parsing

  /** One key=value field absorbed into the stamp. */
  function Absorbed(s: Stamp, key: string, value: string): Result<Stamp, ParseError> {
    if key == "commit" then Ok(s.(commit := value))
    else if key == "dirty" then
      if value == "true" then Ok(s.(dirty := true))
      else if value == "false" then Ok(s.(dirty := false))
      else Err(BadDirty(value))
    else if key == "built" then Ok(s.(builtAt := value))
    else Ok(s.(deps := s.deps[key := value]))
  }

  /** The fields from some point on, given the bare words and the stamp so far. */
  function Scan(fs: seq<string>, leading: seq<string>, seenKV: bool, s: Stamp): Result<(seq<string>, Stamp), ParseError> {
    if fs == [] then Ok((leading, s))
    else if !HasEquals(fs[0]) then
      if seenKV then Err(BareWord(fs[0])) else Scan(fs[1..], leading + [fs[0]], seenKV, s)
    else
      var (key, value) := CutEquals(fs[0]);
      match Absorbed(s, key, value)
      case Err(e) => Err(e)
      case Ok(s1) => Scan(fs[1..], leading, true, s1)
  }

  function Named(leading: seq<string>, s: Stamp): Stamp {
    var s1 := if |leading| > 0 then s.(name := leading[0]) else s;
    if |leading| > 1 then s1.(version := Join(leading[1..])) else s1
  }

  function Parse(line: string): Result<Stamp, ParseError> {
    var fs := Fields(line);
    if fs == [] then Err(EmptyLine)
    else
      match Scan(fs, [], false, EMPTY)
      case Err(e) => Err(e)
      case Ok((leading, s)) => if s.commit == "" then Err(NoCommit) else Ok(Named(leading, s))
  }

  // ------------------------------------------------------ which lines are accepted

  /** A field key=value with this key: the key ends at the first "=". */
  predicate Carries(f: string, key: string) {
    HasEquals(f) && CutEquals(f).0 == key
  }

  function ValueOf(f: string): string {
    if HasEquals(f) then CutEquals(f).1 else ""
  }

  /** Field i is the last with this key. */
  predicate LastAt(fs: seq<string>, key: string, i: int) {
    0 <= i < |fs| && Carries(fs[i], key) && forall j :: i < j < |fs| ==> !Carries(fs[j], key)
  }

  predicate Lacks(fs: seq<string>, key: string) {
    forall i :: 0 <= i < |fs| ==> !Carries(fs[i], key)
  }

  predicate BadDirtyField(f: string) {
    Carries(f, "dirty") && ValueOf(f) != "true" && ValueOf(f) != "false"
  }

  /** A bare word after a key=value field, or a bad dirty value. */
  predicate Fault(fs: seq<string>, i: int) {
    && 0 <= i < |fs|
    && if HasEquals(fs[i]) then BadDirtyField(fs[i]) else exists j :: 0 <= j < i && HasEquals(fs[j])
  }

  predicate FirstFault(fs: seq<string>, i: int) {
    Fault(fs, i) && forall j :: 0 <= j < i ==> !Fault(fs, j)
  }

  predicate BareThenPairs(fs: seq<string>, n: int) {
    0 <= n <= |fs| && (forall i :: 0 <= i < n ==> !HasEquals(fs[i])) && forall i :: n <= i < |fs| ==> HasEquals(fs[i])
  }

  /** Bare words first, then key=value fields; every dirty is true or false; and the last commit is not empty. */
  ghost predicate Acceptable(fs: seq<string>) {
    && (exists n :: BareThenPairs(fs, n))
    && (forall i :: 0 <= i < |fs| && Carries(fs[i], "dirty") ==> ValueOf(fs[i]) in {"true", "false"})
    && (exists i :: LastAt(fs, "commit", i) && ValueOf(fs[i]) != "")
  }

  /** `v` is the value of the last field with this key, or `none` when there is no such field. */
  ghost predicate Says(fs: seq<string>, key: string, v: string, none: string) {
    (Lacks(fs, key) ==> v == none) && forall i :: 0 <= i < |fs| && LastAt(fs, key, i) ==> v == ValueOf(fs[i])
  }

  /** Every part of the stamp is what the last field with its key says. */
  ghost predicate Reflects(fs: seq<string>, s: Stamp) {
    && Says(fs, "commit", s.commit, "")
    && Says(fs, "dirty", if s.dirty then "true" else "false", "false")
    && Says(fs, "built", s.builtAt, "")
    && ReflectsDeps(fs, s.deps)
  }

  ghost predicate ReflectsDeps(fs: seq<string>, deps: map<string, string>) {
    && (forall k :: k in deps <==> k != "commit" && k != "dirty" && k != "built" && !Lacks(fs, k))
    && (forall k :: k in deps ==> Says(fs, k, deps[k], ""))
  }

  /** The fields read so far: the bare words, then key=value fields, and the stamp holds what they say. */
  ghost predicate Gathered(fs: seq<string>, leading: seq<string>, seenKV: bool, s: Stamp) {
    && |leading| <= |fs| && leading == fs[..|leading|] && (seenKV <==> |leading| < |fs|)
    && (forall i :: 0 <= i < |leading| ==> !HasEquals(fs[i]))
    && (forall i :: |leading| <= i < |fs| ==> HasEquals(fs[i]))
    && s.name == "" && s.version == "" && s.mainModule == "" && Reflects(fs, s)
  }

  lemma LastOfLonger(fs: seq<string>, f: string, key: string, i: int)
    ensures LastAt(fs + [f], key, i) <==> if Carries(f, key) then i == |fs| else LastAt(fs, key, i)
  {
    var longer := fs + [f];
    assert longer[|fs|] == f;
    if LastAt(longer, key, i) && i < |fs| {
      assert !Carries(longer[|fs|], key);
      forall j | i < j < |fs| ensures !Carries(fs[j], key) { assert longer[j] == fs[j]; }
    }
  }

  lemma LacksLonger(fs: seq<string>, f: string, key: string)
    ensures Lacks(fs + [f], key) <==> Lacks(fs, key) && !Carries(f, key)
  {
    var longer := fs + [f];
    assert longer[|fs|] == f && forall i :: 0 <= i < |fs| ==> longer[i] == fs[i];
  }

  lemma SaysLonger(fs: seq<string>, f: string, key: string, v: string, w: string, none: string)
    requires Carries(f, key) ==> w == ValueOf(f)
    requires !Carries(f, key) ==> Says(fs, key, v, none) && w == v
    ensures Says(fs + [f], key, w, none)
  {
    hide LastAt, Lacks, Carries, ValueOf;
    LacksLonger(fs, f, key);
    assert forall i :: 0 <= i < |fs| ==> (fs + [f])[i] == fs[i];
    forall i | LastAt(fs + [f], key, i) ensures 0 <= i < |fs + [f]| && w == ValueOf((fs + [f])[i]) {
      LastOfLonger(fs, f, key, i);
      InRange(fs + [f], key, i);
      if !Carries(f, key) {
        InRange(fs, key, i);
      }
    }
  }

  lemma InRange(fs: seq<string>, key: string, i: int)
    requires LastAt(fs, key, i)
    ensures 0 <= i < |fs|
  {}

  /** Absorbing a field changes what its key stands for and nothing else. */
  lemma AbsorbedParts(s: Stamp, f: string, t: Stamp)
    requires HasEquals(f) && Absorbed(s, CutEquals(f).0, ValueOf(f)) == Ok(t)
    requires "commit" !in s.deps && "dirty" !in s.deps && "built" !in s.deps
    ensures t.commit == if Carries(f, "commit") then ValueOf(f) else s.commit
    ensures t.builtAt == if Carries(f, "built") then ValueOf(f) else s.builtAt
    ensures if Carries(f, "dirty") then ValueOf(f) == (if t.dirty then "true" else "false") else t.dirty == s.dirty
    ensures forall k :: k in t.deps <==> k in s.deps || (Carries(f, k) && k != "commit" && k != "dirty" && k != "built")
    ensures forall k :: k in t.deps ==> t.deps[k] == if Carries(f, k) then ValueOf(f) else s.deps[k]
  {}

  lemma DepsPair(fs: seq<string>, f: string, before: map<string, string>, deps: map<string, string>)
    requires ReflectsDeps(fs, before)
    requires forall k :: k in deps <==> k in before || (Carries(f, k) && k != "commit" && k != "dirty" && k != "built")
    requires forall k :: k in deps ==> deps[k] == if Carries(f, k) then ValueOf(f) else before[k]
    ensures ReflectsDeps(fs + [f], deps)
  {
    hide Says, Lacks, Carries, ValueOf, HasEquals;
    forall k ensures k in deps <==> k != "commit" && k != "dirty" && k != "built" && !Lacks(fs + [f], k) {
      LacksLonger(fs, f, k);
    }
    forall k | k in deps ensures Says(fs + [f], k, deps[k], "") {
      SaysLonger(fs, f, k, if k in before then before[k] else "", deps[k], "");
    }
  }

  lemma NoReserved(fs: seq<string>, deps: map<string, string>)
    requires ReflectsDeps(fs, deps)
    ensures "commit" !in deps && "dirty" !in deps && "built" !in deps
  {}

  lemma ReflectsPair(fs: seq<string>, f: string, s: Stamp, t: Stamp)
    requires Reflects(fs, s) && HasEquals(f) && Absorbed(s, CutEquals(f).0, ValueOf(f)) == Ok(t)
    ensures Reflects(fs + [f], t)
  {
    hide ReflectsDeps, Says, Lacks, Absorbed, Carries, ValueOf, HasEquals;
    NoReserved(fs, s.deps);
    AbsorbedParts(s, f, t);
    SaysLonger(fs, f, "commit", s.commit, t.commit, "");
    SaysLonger(fs, f, "dirty", if s.dirty then "true" else "false", if t.dirty then "true" else "false", "false");
    SaysLonger(fs, f, "built", s.builtAt, t.builtAt, "");
    DepsPair(fs, f, s.deps, t.deps);
  }

  lemma ReflectsBare(fs: seq<string>, f: string, s: Stamp)
    requires Reflects(fs, s) && !HasEquals(f)
    ensures Reflects(fs + [f], s)
  {
    NoKey(f);
    hide ReflectsDeps, Says, Lacks, Carries, HasEquals;
    SaysLonger(fs, f, "commit", s.commit, s.commit, "");
    SaysLonger(fs, f, "dirty", if s.dirty then "true" else "false", if s.dirty then "true" else "false", "false");
    SaysLonger(fs, f, "built", s.builtAt, s.builtAt, "");
    DepsPair(fs, f, s.deps, s.deps);
  }

  lemma NoKey(f: string)
    requires !HasEquals(f)
    ensures forall k :: !Carries(f, k)
  {}

  lemma NothingHeld()
    ensures Gathered([], [], false, EMPTY)
  {}

  /** What the scan of the remaining fields comes to. */
  ghost predicate ScanEnds(fs: seq<string>, r: Result<(seq<string>, Stamp), ParseError>) {
    match r
    case Ok((leading, s)) => (forall i :: !Fault(fs, i)) && Gathered(fs, leading, |leading| < |fs|, s)
    case Err(BareWord(w)) => exists i :: FirstFault(fs, i) && !HasEquals(fs[i]) && fs[i] == w
    case Err(BadDirty(v)) => exists i :: FirstFault(fs, i) && HasEquals(fs[i]) && ValueOf(fs[i]) == v
    case Err(_) => false
  }

  lemma {:induction false} ScanMeans(fs: seq<string>, n: nat, leading: seq<string>, seenKV: bool, s: Stamp)
    requires n <= |fs| && Gathered(fs[..n], leading, seenKV, s) && forall i :: i < n ==> !Fault(fs, i)
    ensures ScanEnds(fs, Scan(fs[n..], leading, seenKV, s))
    decreases |fs| - n
  {
    hide Reflects;
    if n == |fs| {
      assert fs[..n] == fs && fs[n..] == [];
    } else {
      var f, rest := fs[n], fs[n..];
      assert rest[0] == f && rest[1..] == fs[n + 1..] && fs[..n + 1] == fs[..n] + [f];
      if HasEquals(f) {
        var (key, value) := CutEquals(f);
        match Absorbed(s, key, value)
        case Err(_) => assert FirstFault(fs, n);
        case Ok(t) =>
          ReflectsPair(fs[..n], f, s, t);
          ScanMeans(fs, n + 1, leading, true, t);
      } else if seenKV {
        assert HasEquals(fs[..n][|leading|]) && fs[..n][|leading|] == fs[|leading|];
        assert FirstFault(fs, n);
      } else {
        ReflectsBare(fs[..n], f, s);
        ScanMeans(fs, n + 1, leading + [f], false, s);
      }
    }
  }

  lemma {:induction false} LastExists(fs: seq<string>, key: string)
    requires !Lacks(fs, key)
    ensures exists i :: LastAt(fs, key, i)
  {
    var front, f := fs[..|fs| - 1], fs[|fs| - 1];
    assert fs == front + [f];
    if Carries(f, key) {
      assert LastAt(fs, key, |front|);
    } else {
      LacksLonger(front, f, key);
      LastExists(front, key);
      var i :| LastAt(front, key, i);
      LastOfLonger(front, f, key, i);
    }
  }

  lemma AcceptableHasNoFault(fs: seq<string>, i: int)
    requires Acceptable(fs)
    ensures !Fault(fs, i)
  {
    var n :| BareThenPairs(fs, n);
  }

  lemma CommitSaid(fs: seq<string>, commit: string)
    requires Says(fs, "commit", commit, "")
    ensures (exists i :: LastAt(fs, "commit", i) && ValueOf(fs[i]) != "") <==> commit != ""
  {
    if commit != "" {
      LastExists(fs, "commit");
    }
  }

  /** Without a fault it is only the commit that can be missing. */
  lemma GatheredAcceptable(fs: seq<string>, leading: seq<string>, s: Stamp)
    requires (forall i :: !Fault(fs, i)) && Gathered(fs, leading, |leading| < |fs|, s)
    ensures Acceptable(fs) <==> s.commit != ""
  {
    assert BareThenPairs(fs, |leading|);
    CommitSaid(fs, s.commit);
    hide LastAt, Says, Lacks;
    forall i | 0 <= i < |fs| && Carries(fs[i], "dirty") ensures ValueOf(fs[i]) in {"true", "false"} {
      assert !Fault(fs, i);
    }
  }

  lemma ScanOfLine(line: string)
    ensures ScanEnds(Fields(line), Scan(Fields(line), [], false, EMPTY))
  {
    var fs := Fields(line);
    NothingHeld();
    assert fs[..0] == [] && fs[0..] == fs;
    ScanMeans(fs, 0, [], false, EMPTY);
  }

  lemma FaultyLine(fs: seq<string>, r: Result<(seq<string>, Stamp), ParseError>)
    requires ScanEnds(fs, r) && r.Err?
    ensures !Acceptable(fs) && exists i :: FirstFault(fs, i)
  {
    if Acceptable(fs) {
      forall i ensures !Fault(fs, i) { AcceptableHasNoFault(fs, i); }
    }
  }

  lemma NoFieldsNotAcceptable()
    ensures !Acceptable([])
  {}

  /** Parsing succeeds on exactly the lines whose fields are acceptable. */
  lemma ParseAccepts(line: string)
    ensures Parse(line).Ok? <==> Acceptable(Fields(line))
  {
    var fs := Fields(line);
    ScanOfLine(line);
    NoFieldsNotAcceptable();
    hide Scan, Gathered, Fault, FirstFault, LastAt, Fields, Acceptable;
    match Scan(fs, [], false, EMPTY)
    case Ok((leading, s)) => GatheredAcceptable(fs, leading, s);
    case Err(_) => FaultyLine(fs, Scan(fs, [], false, EMPTY));
  }

  /** What an accepted line gives: the bare words as name and version, and of each key the last value. */
  lemma ParseReflects(line: string)
    requires Parse(line).Ok?
    ensures
      var fs, s := Fields(line), Parse(line).value;
      && Reflects(fs, s) && s.mainModule == ""
      && exists n :: BareThenPairs(fs, n) &&
           s.name == (if n > 0 then fs[0] else "") && s.version == if n > 1 then Join(fs[1..n]) else ""
  {
    var fs := Fields(line);
    ScanOfLine(line);
    hide Scan, Fault, FirstFault, LastAt, Fields, Reflects;
    var (leading, s) := Scan(fs, [], false, EMPTY).value;
    NamedReflects(fs, leading, s);
  }

  lemma NamedReflects(fs: seq<string>, leading: seq<string>, s: Stamp)
    requires Gathered(fs, leading, |leading| < |fs|, s)
    ensures
      var t := Named(leading, s);
      && Reflects(fs, t) && t.mainModule == "" && BareThenPairs(fs, |leading|)
      && t.name == (if |leading| > 0 then fs[0] else "")
      && t.version == if |leading| > 1 then Join(fs[1..|leading|]) else ""
  {
    hide Says, Lacks;
    assert |leading| > 0 ==> leading[1..] == fs[1..|leading|];
  }

  /** Every other line is refused for its first fault, or, when it has none, for its commit. */
  lemma ParseRefuses(line: string)
    ensures
      var fs := Fields(line);
      && (Parse(line) == Err(EmptyLine) <==> fs == [])
      && (forall w :: Parse(line) == Err(BareWord(w)) <==>
            exists i :: FirstFault(fs, i) && !HasEquals(fs[i]) && fs[i] == w)
      && (forall v :: Parse(line) == Err(BadDirty(v)) <==>
            exists i :: FirstFault(fs, i) && HasEquals(fs[i]) && ValueOf(fs[i]) == v)
      && (Parse(line) == Err(NoCommit) <==>
            fs != [] && (forall i :: !FirstFault(fs, i)) && forall i :: LastAt(fs, "commit", i) ==> ValueOf(fs[i]) == "")
  {
    var fs := Fields(line);
    ScanOfLine(line);
    OneFirstFault(fs);
    match Scan(fs, [], false, EMPTY)
    case Ok((leading, s)) =>
      CommitSaid(fs, s.commit);
      hide Scan, Fields, LastAt, Says, Lacks;
    case Err(e) =>
      hide Scan, Fields, LastAt, Fault;
  }

  lemma OneFirstFault(fs: seq<string>)
    ensures forall i, j :: FirstFault(fs, i) && FirstFault(fs, j) ==> i == j
    ensures fs == [] ==> forall i :: !FirstFault(fs, i)
  {
    forall i, j | FirstFault(fs, i) && FirstFault(fs, j) ensures i == j {
      assert Fault(fs, i) && Fault(fs, j);
    }
  }

  /** The stamp under construction: absorb updates its fields. */
  class StampFields {
    var commit: string
    var dirty: bool
    var builtAt: string
    var deps: map<string, string>

    function Value(): Stamp
      reads this
    {
      Stamp("", "", commit, dirty, builtAt, "", deps)
    }

    constructor ()
      ensures Value() == EMPTY
    {
      commit, dirty, builtAt, deps := "", false, "", map[];
    }

    method Absorb(key: string, value: string) returns (err: Result<(), ParseError>)
      modifies this
      ensures match Absorbed(old(Value()), key, value)
              case Ok(s) => err == Ok(()) && Value() == s
              case Err(e) => err == Err(e) && Value() == old(Value())
      ensures key == "dirty" && value != "true" && value != "false" ==>
        err == Err(BadDirty(value)) && Value() == old(Value())
      ensures key != "dirty" || value == "true" || value == "false" ==>
        && err == Ok(())
        && commit == (if key == "commit" then value else old(commit))
        && dirty == (if key == "dirty" then value == "true" else old(dirty))
        && builtAt == (if key == "built" then value else old(builtAt))
        && deps == if key in {"commit", "dirty", "built"} then old(deps) else old(deps)[key := value]
    {
      if key == "commit" {
        commit := value;
      } else if key == "dirty" {
        if value == "true" {
          dirty := true;
        } else if value == "false" {
          dirty := false;
        } else {
          return Err(BadDirty(value));
        }
      } else if key == "built" {
        builtAt := value;
      } else {
        deps := deps[key := value];
      }
      return Ok(());
    }
  }

  lemma ParseGives(line: string)
    ensures Parse(line).Ok? <==> Acceptable(Fields(line))
    ensures Parse(line).Ok? ==> Reflects(Fields(line), Parse(line).value)
  {
    hide Parse, Acceptable, Reflects;
    ParseAccepts(line);
    if Parse(line).Ok? {
      ParseReflects(line);
    }
  }

  method ParseStamp(line: string) returns (r: Result<Stamp, ParseError>)
    ensures r == Parse(line)
    ensures r.Ok? <==> Acceptable(Fields(line))
    ensures r.Ok? ==> Reflects(Fields(line), r.value)
  {
    hide Acceptable, Reflects, Absorbed;
    ParseGives(line);
    var fields := Fields(line);
    if |fields| == 0 {
      return Err(EmptyLine);
    }
    var s := new StampFields();
    var leading := [];
    var seenKV := false;
    for i := 0 to |fields|
      invariant Scan(fields, [], false, EMPTY) == Scan(fields[i..], leading, seenKV, s.Value())
    {
      var f := fields[i];
      assert fields[i..][0] == f && fields[i..][1..] == fields[i + 1..];
      if !HasEquals(f) {
        if seenKV {
          return Err(BareWord(f));
        }
        leading := leading + [f];
      } else {
        var (key, value) := CutEquals(f);
        seenKV := true;
        var absorbed := s.Absorb(key, value);
        if absorbed.Err? {
          return Err(absorbed.error);
        }
      }
    }
    if s.commit == "" {
      return Err(NoCommit);
    }
    var out := s.Value();
    if |leading| > 0 {
      out := out.(name := leading[0]);
    }
    if |leading| > 1 {
      out := out.(version := Join(leading[1..]));
    }
    return Ok(out);
  }

  // ---------------------------------------------------------------------- round trip

  predicate Plain(s: string) { Solid(s) && !HasEquals(s) }

  predicate Reserved(key: string) { key in {"commit", "dirty", "built"} }

  /** A stamp the line format can carry. */
  predicate WellFormed(s: Stamp) {
    && Plain(s.name)
    && !HasEquals(s.version) && Join(Fields(s.version)) == s.version && (s.version != "" ==> s.name != "")
    && s.commit != "" && Solid(s.commit) && Solid(s.builtAt)
    && forall k :: k in s.deps ==> Plain(k) && !Reserved(k) && Solid(s.deps[k])
  }

  /** Everything the line carries: all but the module path. */
  function Carried(s: Stamp): Stamp { s.(mainModule := "") }

  /** key=value is one word, and cuts into its parts. */
  lemma PairFields(key: string, value: string)
    requires Plain(key) && Solid(value)
    ensures Fields(Pair(key, value)) == [Pair(key, value)]
    ensures HasEquals(Pair(key, value)) && CutEquals(Pair(key, value)) == (key, value)
  {
    FieldsOfWord(Pair(key, value));
    CutAtFirst(key, value);
  }

  lemma FieldsThenPair(head: string, key: string, value: string)
    requires Plain(key) && Solid(value)
    ensures Fields(head + " " + Pair(key, value)) == Fields(head) + [Pair(key, value)]
  {
    FieldsSplit(head, ' ', Pair(key, value));
    PairFields(key, value);
  }

  /** A key=value field is absorbed. */
  lemma ScanPair(key: string, value: string, rest: seq<string>, leading: seq<string>, seenKV: bool, s: Stamp, t: Stamp)
    requires Plain(key) && Solid(value) && Absorbed(s, key, value) == Ok(t)
    ensures Scan([Pair(key, value)] + rest, leading, seenKV, s) == Scan(rest, leading, true, t)
  {
    PairFields(key, value);
    assert ([Pair(key, value)] + rest)[1..] == rest;
  }

  function DepFields(keys: seq<string>, deps: map<string, string>): seq<string>
    requires forall k :: k in keys ==> k in deps
  {
    if keys == [] then [] else [Pair(keys[0], deps[keys[0]])] + DepFields(keys[1..], deps)
  }

  ghost predicate DepsOk(keys: seq<string>, deps: map<string, string>) {
    forall k :: k in keys ==> k in deps && Plain(k) && !Reserved(k) && Solid(deps[k])
  }

  lemma {:induction false} FieldsOfDeps(head: string, keys: seq<string>, deps: map<string, string>)
    requires DepsOk(keys, deps)
    ensures Fields(head + DepText(keys, deps)) == Fields(head) + DepFields(keys, deps)
    decreases |keys|
  {
    if keys == [] {
      assert head + [] == head;
    } else {
      var pair := Pair(keys[0], deps[keys[0]]);
      var longer := head + " " + pair;
      assert head + DepText(keys, deps) == longer + DepText(keys[1..], deps);
      FieldsOfDeps(longer, keys[1..], deps);
      FieldsThenPair(head, keys[0], deps[keys[0]]);
    }
  }

  lemma {:induction false} ScanDeps(keys: seq<string>, deps: map<string, string>, leading: seq<string>, s: Stamp)
    requires DepsOk(keys, deps)
    ensures Scan(DepFields(keys, deps), leading, true, s)
         == Ok((leading, s.(deps := s.deps + Restrict(keys, deps))))
    decreases |keys|
  {
    if keys == [] {
      assert s.deps + Restrict(keys, deps) == s.deps;
    } else {
      var k := keys[0];
      var t := s.(deps := s.deps[k := deps[k]]);
      ScanPair(k, deps[k], DepFields(keys[1..], deps), leading, true, s, t);
      ScanDeps(keys[1..], deps, leading, t);
      RestrictCons(keys, deps, s.deps);
    }
  }

  function Restrict(keys: seq<string>, deps: map<string, string>): map<string, string>
    requires forall k :: k in keys ==> k in deps
  {
    map k | k in keys :: deps[k]
  }

  lemma RestrictCons(keys: seq<string>, deps: map<string, string>, m: map<string, string>)
    requires keys != [] && forall k :: k in keys ==> k in deps
    ensures m[keys[0] := deps[keys[0]]] + Restrict(keys[1..], deps) == m + Restrict(keys, deps)
  {
    assert keys == [keys[0]] + keys[1..];
  }

  lemma {:induction false} ScanWords(ws: seq<string>, rest: seq<string>, leading: seq<string>, s: Stamp)
    requires forall i :: 0 <= i < |ws| ==> !HasEquals(ws[i])
    ensures Scan(ws + rest, leading, false, s) == Scan(rest, leading + ws, false, s)
    decreases |ws|
  {
    if ws == [] {
      assert ws + rest == rest && leading + ws == leading;
    } else {
      assert (ws + rest)[1..] == ws[1..] + rest;
      ScanWords(ws[1..], rest, leading + [ws[0]], s);
      assert leading + [ws[0]] + ws[1..] == leading + ws;
    }
  }

  function LeadingOf(s: Stamp): seq<string> { Fields(s.name) + Fields(s.version) }

  function BuiltFields(s: Stamp): seq<string> { if s.builtAt != "" then [Pair("built", s.builtAt)] else [] }

  function FixedFields(s: Stamp): seq<string> {
    [Pair("commit", s.commit), Pair("dirty", BoolText(s.dirty))] + BuiltFields(s)
  }

  lemma FieldsOfLeading(s: Stamp)
    ensures Fields(s.name + IfSet(" ", s.version)) == LeadingOf(s)
  {
    var a := s.name + IfSet(" ", s.version);
    if s.version != "" {
      assert a == s.name + [' '] + s.version;
      FieldsSplit(s.name, ' ', s.version);
    } else {
      assert a == s.name;
      assert LeadingOf(s) == Fields(s.name) + [];
    }
  }

  lemma FieldsThenPairs(head: string, k1: string, v1: string, k2: string, v2: string)
    requires Plain(k1) && Solid(v1) && Plain(k2) && Solid(v2)
    ensures Fields(head + " " + Pair(k1, v1) + " " + Pair(k2, v2)) == Fields(head) + [Pair(k1, v1), Pair(k2, v2)]
  {
    FieldsThenPair(head, k1, v1);
    FieldsThenPair(head + " " + Pair(k1, v1), k2, v2);
  }

  lemma FieldsOfFixed(s: Stamp)
    requires Solid(s.commit)
    ensures Fields(Fixed(s)) == LeadingOf(s) + [Pair("commit", s.commit), Pair("dirty", BoolText(s.dirty))]
  {
    hide Fields, LeadingOf, Pair, Solid;
    var head := s.name + IfSet(" ", s.version);
    FieldsOfLeading(s);
    BoolTextSolid(s.dirty);
    FieldsOfFixedParts(head, s.commit, BoolText(s.dirty));
  }

  lemma BoolTextSolid(b: bool)
    ensures Solid(BoolText(b))
  {}

  lemma FieldsOfFixedParts(head: string, commit: string, dirty: string)
    requires Solid(commit) && Solid(dirty)
    ensures Fields(head + " " + Pair("commit", commit) + " " + Pair("dirty", dirty))
         == Fields(head) + [Pair("commit", commit), Pair("dirty", dirty)]
  {
    FieldsThenPairs(head, "commit", commit, "dirty", dirty);
  }

  lemma FieldsThenBuilt(head: string, builtAt: string)
    requires Solid(builtAt)
    ensures Fields(head + " " + Pair("built", builtAt)) == Fields(head) + [Pair("built", builtAt)]
  {
    FieldsThenPair(head, "built", builtAt);
  }

  lemma FieldsOfHead(s: Stamp)
    requires Solid(s.commit) && Solid(s.builtAt)
    ensures Fields(Head(s)) == LeadingOf(s) + FixedFields(s)
  {
    hide Fields, Fixed, Pair, LeadingOf, Solid;
    FieldsOfFixed(s);
    var fixed := Fields(Fixed(s));
    FieldsThenBuilt(Fixed(s), s.builtAt);
    assert Fields(Head(s)) == fixed + BuiltFields(s);
  }

  lemma LeadingNamed(s: Stamp, t: Stamp)
    requires WellFormed(s) && t == s.(name := "", version := "", mainModule := "")
    ensures Named(LeadingOf(s), t) == Carried(s)
    ensures forall i :: 0 <= i < |LeadingOf(s)| ==> !HasEquals(LeadingOf(s)[i])
  {
    if s.name != "" {
      FieldsOfWord(s.name);
      assert LeadingOf(s)[1..] == Fields(s.version);
      NoEqualsInFields(s.version);
    }
  }

  lemma {:induction false} NoEqualsInFields(s: string)
    requires !HasEquals(s)
    ensures forall i :: 0 <= i < |Fields(s)| ==> !HasEquals(Fields(s)[i])
    decreases |s|
  {
    if s == [] {
    } else if IsSpace(s[0]) {
      assert forall i :: 0 <= i < |s[1..]| ==> s[1..][i] == s[i + 1];
      NoEqualsInFields(s[1..]);
    } else {
      var n := WordLen(s);
      assert forall i :: 0 <= i < |s[n..]| ==> s[n..][i] == s[i + n];
      assert forall i :: 0 <= i < n ==> s[..n][i] == s[i];
      NoEqualsInFields(s[n..]);
    }
  }

  lemma ScanPairs(k1: string, v1: string, k2: string, v2: string, rest: seq<string>, leading: seq<string>,
                  s: Stamp, t: Stamp, u: Stamp)
    requires Plain(k1) && Solid(v1) && Plain(k2) && Solid(v2)
    requires Absorbed(s, k1, v1) == Ok(t) && Absorbed(t, k2, v2) == Ok(u)
    ensures Scan([Pair(k1, v1), Pair(k2, v2)] + rest, leading, false, s) == Scan(rest, leading, true, u)
  {
    assert [Pair(k1, v1), Pair(k2, v2)] + rest == [Pair(k1, v1)] + ([Pair(k2, v2)] + rest);
    ScanPair(k1, v1, [Pair(k2, v2)] + rest, leading, false, s, t);
    ScanPair(k2, v2, rest, leading, true, t, u);
  }

  /** The fixed fields set the fixed part of the stamp. */
  lemma ScanFixed(s: Stamp, deps: seq<string>, leading: seq<string>)
    requires Solid(s.commit) && Solid(s.builtAt)
    ensures Scan(FixedFields(s) + deps, leading, false, EMPTY)
         == Scan(deps, leading, true, EMPTY.(commit := s.commit, dirty := s.dirty, builtAt := s.builtAt))
  {
    var commit, dirty := Pair("commit", s.commit), Pair("dirty", BoolText(s.dirty));
    var s1 := EMPTY.(commit := s.commit);
    var s2 := s1.(dirty := s.dirty);
    assert FixedFields(s) + deps == [commit, dirty] + (BuiltFields(s) + deps);
    ScanPairs("commit", s.commit, "dirty", BoolText(s.dirty), BuiltFields(s) + deps, leading, EMPTY, s1, s2);
    if s.builtAt != "" {
      ScanPair("built", s.builtAt, deps, leading, true, s2, s2.(builtAt := s.builtAt));
    } else {
      assert BuiltFields(s) + deps == deps;
    }
  }

  lemma FieldsOfLine(head: string, leading: seq<string>, fixed: seq<string>, keys: seq<string>, deps: map<string, string>)
    requires DepsOk(keys, deps) && Fields(head) == leading + fixed
    ensures Fields(TrimSpace(head + DepText(keys, deps))) == leading + (fixed + DepFields(keys, deps))
  {
    FieldsTrimSpace(head + DepText(keys, deps));
    FieldsOfDeps(head, keys, deps);
  }

  /** Reading the whole list of fields of a printed stamp. */
  lemma ScanLine(s: Stamp, keys: seq<string>)
    requires Solid(s.commit) && Solid(s.builtAt) && DepsOk(keys, s.deps)
    requires forall i :: 0 <= i < |LeadingOf(s)| ==> !HasEquals(LeadingOf(s)[i])
    ensures Scan(LeadingOf(s) + (FixedFields(s) + DepFields(keys, s.deps)), [], false, EMPTY)
         == Ok((LeadingOf(s), EMPTY.(commit := s.commit, dirty := s.dirty, builtAt := s.builtAt,
                                     deps := map[] + Restrict(keys, s.deps))))
  {
    var leading, deps := LeadingOf(s), DepFields(keys, s.deps);
    ScanWords(leading, FixedFields(s) + deps, [], EMPTY);
    assert [] + leading == leading;
    ScanFixed(s, deps, leading);
    ScanDeps(keys, s.deps, leading, EMPTY.(commit := s.commit, dirty := s.dirty, builtAt := s.builtAt));
  }

  /** The fields of the printed line. */
  lemma FieldsOfPrint(s: Stamp)
    requires WellFormed(s)
    ensures Fields(Print(s)) == LeadingOf(s) + (FixedFields(s) + DepFields(SortedKeys(s.deps.Keys), s.deps))
  {
    hide Fields, LeadingOf, FixedFields, DepFields;
    var keys := SortedKeys(s.deps.Keys);
    KeysOk(s);
    FieldsOfHead(s);
    FieldsOfLine(Head(s), LeadingOf(s), FixedFields(s), keys, s.deps);
  }

  lemma KeysOk(s: Stamp)
    requires WellFormed(s)
    ensures DepsOk(SortedKeys(s.deps.Keys), s.deps)
    ensures Restrict(SortedKeys(s.deps.Keys), s.deps) == s.deps
  {}

  lemma FixedNotEmpty(s: Stamp, deps: seq<string>)
    ensures |FixedFields(s) + deps| > 0
  {}

  lemma {:induction false} DepFieldsAre(keys: seq<string>, deps: map<string, string>)
    requires forall k :: k in keys ==> k in deps
    ensures |DepFields(keys, deps)| == |keys|
    ensures forall i :: 0 <= i < |keys| ==> DepFields(keys, deps)[i] == keys[i] + "=" + deps[keys[i]]
    decreases |keys|
  {
    if keys != [] {
      DepFieldsAre(keys[1..], deps);
    }
  }

  /** The printed line, field by field: name, version, commit, dirty, built if known, and the dependencies by key. */
  lemma PrintedFields(s: Stamp) returns (keys: seq<string>, deps: seq<string>)
    requires WellFormed(s)
    ensures Ascending(keys) && (forall k :: k in keys <==> k in s.deps) && |deps| == |keys|
    ensures forall i :: 0 <= i < |keys| ==> deps[i] == keys[i] + "=" + s.deps[keys[i]]
    ensures Fields(Print(s)) ==
            Fields(s.name) + Fields(s.version) +
            (["commit=" + s.commit, "dirty=" + if s.dirty then "true" else "false"] +
             (if s.builtAt == "" then [] else ["built=" + s.builtAt]) + deps)
  {
    hide Fields, Print, Less;
    keys := SortedKeys(s.deps.Keys);
    deps := DepFields(keys, s.deps);
    FieldsOfPrint(s);
    DepFieldsAre(keys, s.deps);
    assert "commit" + "=" == "commit=" && "dirty" + "=" == "dirty=" && "built" + "=" == "built=";
    var dirty := if s.dirty then "true" else "false";
    assert FixedFields(s) == ["commit=" + s.commit, "dirty=" + dirty] +
                             if s.builtAt == "" then [] else ["built=" + s.builtAt];
  }

  /** What parsing makes of fields whose scan is known. */
  lemma ParseScanned(line: string, leading: seq<string>, s: Stamp)
    requires Fields(line) != [] && Scan(Fields(line), [], false, EMPTY) == Ok((leading, s)) && s.commit != ""
    ensures Parse(line) == Ok(Named(leading, s))
  {
    hide Fields, Scan, Named;
  }

  /** ParseStamp inverts String on every stamp the line format can carry. */
  lemma RoundTrip(s: Stamp)
    requires WellFormed(s)
    ensures Parse(Print(s)) == Ok(Carried(s))
  {
    hide Parse, Print, Fields, Scan, LeadingOf, FixedFields, DepFields, Named, Restrict, DepsOk;
    var keys := SortedKeys(s.deps.Keys);
    var bare := s.(name := "", version := "", mainModule := "");
    KeysOk(s);
    FieldsOfPrint(s);
    LeadingNamed(s, bare);
    ScanLine(s, keys);
    FixedNotEmpty(s, DepFields(keys, s.deps));
    assert map[] + s.deps == s.deps;
    ParseScanned(Print(s), LeadingOf(s), bare);
  }

  // ----------------------------------------------------- exactly the well-formed stamps

  lemma {:induction false} ScanWellFormed(fs: seq<string>, leading: seq<string>, seenKV: bool, s: Stamp)
    requires AllWords(fs) && AllWords(leading) && (forall i :: 0 <= i < |leading| ==> !HasEquals(leading[i]))
    requires Solid(s.commit) && Solid(s.builtAt)
    requires forall k :: k in s.deps ==> Plain(k) && !Reserved(k) && Solid(s.deps[k])
    requires s.name == "" && s.version == "" && s.mainModule == ""
    ensures match Scan(fs, leading, seenKV, s)
            case Err(_) => true
            case Ok((l, t)) =>
              && AllWords(l) && (forall i :: 0 <= i < |l| ==> !HasEquals(l[i]))
              && Solid(t.commit) && Solid(t.builtAt) && t.name == "" && t.version == "" && t.mainModule == ""
              && forall k :: k in t.deps ==> Plain(k) && !Reserved(k) && Solid(t.deps[k])
    decreases |fs|
  {
    if fs != [] {
      assert AllWords(fs[1..]);
      if HasEquals(fs[0]) {
        var (key, value) := CutEquals(fs[0]);
        CutSolid(fs[0]);
        if Absorbed(s, key, value).Ok? {
          ScanWellFormed(fs[1..], leading, true, Absorbed(s, key, value).value);
        }
      } else if !seenKV {
        ScanWellFormed(fs[1..], leading + [fs[0]], seenKV, s);
      }
    }
  }

  lemma CutSolid(f: string)
    requires Solid(f) && HasEquals(f)
    ensures Solid(CutEquals(f).0) && Solid(CutEquals(f).1)
  {
    var (k, v) := CutEquals(f);
    assert forall i :: 0 <= i < |k| ==> k[i] == f[i];
    assert forall i :: 0 <= i < |v| ==> v[i] == f[|k| + 1 + i];
  }

  lemma {:induction false} JoinHasNoEquals(ws: seq<string>)
    requires forall i :: 0 <= i < |ws| ==> !HasEquals(ws[i])
    ensures !HasEquals(Join(ws))
  {
    if |ws| > 1 {
      JoinHasNoEquals(ws[1..]);
    }
  }

  /** Whatever line it is given, ParseStamp returns only stamps the format can carry. */
  lemma ParseWellFormed(line: string)
    requires Parse(line).Ok?
    ensures WellFormed(Parse(line).value) && Parse(line).value.mainModule == ""
  {
    FieldsAreWords(line);
    ScanWellFormed(Fields(line), [], false, EMPTY);
    var (leading, s) := Scan(Fields(line), [], false, EMPTY).value;
    if |leading| > 1 {
      FieldsOfJoin(leading[1..]);
      JoinHasNoEquals(leading[1..]);
    }
  }

  /** The round trip holds for exactly the well-formed stamps. */
  lemma RoundTripExactly(s: Stamp)
    ensures Parse(Print(s)) == Ok(Carried(s)) <==> WellFormed(s)
  {
    if WellFormed(s) {
      RoundTrip(s);
    }
    if Parse(Print(s)).Ok? {
      ParseWellFormed(Print(s));
    }
  }

  /** Every stamp that was read prints to a line that reads back the same. */
  lemma ReadStampsReprint(line: string)
    requires Parse(line).Ok?
    ensures Parse(Print(Parse(line).value)) == Parse(line)
  {
    ParseWellFormed(line);
    RoundTrip(Parse(line).value);
  }

  // ------------------------------------------------------------------------- verdicts

  datatype Verdict =
    | Accepted
    | BadExpected
    | UnknownCommit
    | NotFullSHA
    | Mismatch
    | DirtyBuild
    | DepUnclean(name: string)

  /** A complete git object name: forty digits, in lower case hexadecimal. */
  predicate FullSHA(s: string): (full: bool)
    ensures full <==> |s| == 40 && forall i :: 0 <= i < 40 ==> '0' <= s[i] <= '9' || 'a' <= s[i] <= 'f'
  {
    |s| == FULL_SHA_LEN && forall i :: 0 <= i < |s| ==> '0' <= s[i] <= '9' || 'a' <= s[i] <= 'f'
  }

  predicate HasSuffix(s: string, suffix: string) {
    |s| >= |suffix| && s[|s| - |suffix|..] == suffix
  }

  /** checkDep: a revision that is known, and not marked as built from uncommitted changes. */
  predicate DepClean(value: string): (clean: bool)
    ensures clean <==> value != "" && value != "unknown" && (|value| < 6 || value[|value| - 6..] != "-dirty")
  {
    value != "" && value != UNKNOWN && !HasSuffix(value, DIRTY_SUFFIX)
  }

  /** Matches: the first rule the stamp breaks, dependencies judged in key order. */
  method Matches(s: Stamp, expected: string) returns (v: Verdict)
    ensures v == Accepted <==>
              && FullSHA(expected) && s.commit == expected && !s.dirty
              && forall k :: k in s.deps ==> DepClean(s.deps[k])
    ensures VerdictOf(s, expected, v)
  {
    if !FullSHA(expected) {
      return BadExpected;
    }
    if s.commit == "" || s.commit == UNKNOWN {
      return UnknownCommit;
    }
    if !FullSHA(s.commit) {
      return NotFullSHA;
    }
    if s.commit != expected {
      return Mismatch;
    }
    if s.dirty {
      return DirtyBuild;
    }
    var names := SortedKeysOf(s.deps);
    for i := 0 to |names|
      invariant forall k :: 0 <= k < i ==> DepClean(s.deps[names[k]])
    {
      assert names[i] in names;
      if !DepClean(s.deps[names[i]]) {
        forall k | k in s.deps && Less(k, names[i]) ensures DepClean(s.deps[k]) {
          var j :| 0 <= j < |names| && names[j] == k;
          LessTotal(k, names[i]);
        }
        return DepUnclean(names[i]);
      }
    }
    return Accepted;
  }

  /** What each verdict means. Exactly one verdict fits a stamp and an expected commit. */
  ghost predicate VerdictOf(s: Stamp, expected: string, v: Verdict) {
    match v
    case BadExpected => !FullSHA(expected)
    case UnknownCommit => FullSHA(expected) && (s.commit == "" || s.commit == UNKNOWN)
    case NotFullSHA => FullSHA(expected) && s.commit != "" && s.commit != UNKNOWN && !FullSHA(s.commit)
    case Mismatch => FullSHA(expected) && FullSHA(s.commit) && s.commit != expected
    case DirtyBuild => FullSHA(expected) && s.commit == expected && s.dirty
    case DepUnclean(name) =>
      && FullSHA(expected) && s.commit == expected && !s.dirty
      && name in s.deps && !DepClean(s.deps[name])
      && forall k :: k in s.deps && Less(k, name) ==> DepClean(s.deps[k])
    case Accepted =>
      && FullSHA(expected) && s.commit == expected && !s.dirty
      && forall k :: k in s.deps ==> DepClean(s.deps[k])
  }

  lemma VerdictUnique(s: Stamp, expected: string, v: Verdict, w: Verdict)
    requires VerdictOf(s, expected, v) && VerdictOf(s, expected, w)
    ensures v == w
  {
    assert !FullSHA(UNKNOWN) && !FullSHA("");
    if v.DepUnclean? && w.DepUnclean? {
      LessTotal(v.name, w.name);
    }
  }

  /** Verification does not notice whether a stamp went through its printed line. */
  lemma SameVerdictAfterRoundTrip(s: Stamp, expected: string, v: Verdict)
    requires WellFormed(s)
    ensures Parse(Print(s)).Ok?
    ensures VerdictOf(s, expected, v) <==> VerdictOf(Parse(Print(s)).value, expected, v)
    ensures Print(Parse(Print(s)).value) == Print(s)
  {
    hide Parse, Print, VerdictOf, WellFormed, Carried;
    RoundTrip(s);
    CarriedSame(s, expected, v);
  }

  lemma CarriedSame(s: Stamp, expected: string, v: Verdict)
    ensures VerdictOf(s, expected, v) <==> VerdictOf(Carried(s), expected, v)
    ensures Print(Carried(s)) == Print(s)
  {
    hide TrimSpace, DepText, SortedKeys;
  }
}
