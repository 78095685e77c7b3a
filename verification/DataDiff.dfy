/**
  Schema comparison: the flattening of nested columns in go/dataquality/datadiff/target.go and the diff of the
  flattened columns in go/dataquality/datadiff/diff.go.
*/
module DataDiff {

  datatype Column = Column(name: string, dataType: string, mode: string, position: int, children: seq<Column>)

  // ------------------------------------------------------------------ flattening

  function Extend(prefix: string, name: string): string {
    if prefix == "" then name else prefix + "." + name
  }

  /** The leaves under a column in preorder, each named by its path. */
  function Leaves(c: Column, prefix: string): seq<Column>
    decreases c
  {
    var path := Extend(prefix, c.name);
    if c.children == [] then [Column(path, c.dataType, c.mode, c.position, [])] else ForestLeaves(c.children, path)
  }

  function ForestLeaves(cols: seq<Column>, prefix: string): seq<Column>
    decreases cols
  {
    if cols == [] then []
    else ForestLeaves(cols[..|cols| - 1], prefix) + Leaves(cols[|cols| - 1], prefix)
  }

  /** Appends the leaves to an accumulator instead of joining lists of them. */
  method FlattenTo(c: Column, prefix: string, acc: seq<Column>) returns (flat: seq<Column>)
    ensures flat == acc + Leaves(c, prefix)
    decreases c
  {
    var path := c.name;
    if prefix != "" {
      path := prefix + "." + c.name;
    }
    if |c.children| == 0 {
      return acc + [Column(path, c.dataType, c.mode, c.position, [])];
    }
    flat := acc;
    for i := 0 to |c.children|
      invariant flat == acc + ForestLeaves(c.children[..i], path)
    {
      assert c.children[..i + 1][..i] == c.children[..i];
      flat := FlattenTo(c.children[i], path, flat);
    }
    assert c.children[..|c.children|] == c.children;
  }

  method FlattenAll(cols: seq<Column>) returns (flat: seq<Column>)
    ensures flat == ForestLeaves(cols, "")
  {
    flat := [];
    for i := 0 to |cols|
      invariant flat == ForestLeaves(cols[..i], "")
    {
      assert cols[..i + 1][..i] == cols[..i];
      flat := FlattenTo(cols[i], "", flat);
    }
    assert cols[..|cols|] == cols;
  }

  // ------------------------------------------------------- which columns are leaves

  /** A route from the top: which column, which child of it, and so on down. */
  predicate Leads(cols: seq<Column>, route: seq<nat>)
    decreases |route|
  {
    route != [] && route[0] < |cols| && (|route| > 1 ==> Leads(cols[route[0]].children, route[1..]))
  }

  function ColumnAt(cols: seq<Column>, route: seq<nat>): Column
    requires Leads(cols, route)
    decreases |route|
  {
    if |route| == 1 then cols[route[0]] else ColumnAt(cols[route[0]].children, route[1..])
  }

  /** The names along a route, joined by dots. */
  function PathAt(cols: seq<Column>, route: seq<nat>, prefix: string): string
    requires Leads(cols, route)
    decreases |route|
  {
    var name := cols[route[0]].name;
    var path := if prefix == "" then name else prefix + "." + name;
    if |route| == 1 then path else PathAt(cols[route[0]].children, route[1..], path)
  }

  /** At their first difference the one route goes to an earlier column than the other. */
  ghost predicate Earlier(a: seq<nat>, b: seq<nat>) {
    exists k :: 0 <= k < |a| && k < |b| && a[..k] == b[..k] && a[k] < b[k]
  }

  /** The leaf stands for the childless column at the end of the route, under the name of the whole path. */
  predicate LeafOf(cols: seq<Column>, route: seq<nat>, prefix: string, leaf: Column) {
    && Leads(cols, route)
    && var c := ColumnAt(cols, route);
       c.children == [] && leaf == Column(PathAt(cols, route, prefix), c.dataType, c.mode, c.position, [])
  }

  ghost predicate AllRoutes(cols: seq<Column>, prefix: string, leaves: seq<Column>, routes: seq<seq<nat>>) {
    && |routes| == |leaves|
    && (forall i :: 0 <= i < |leaves| ==> LeafOf(cols, routes[i], prefix, leaves[i]))
    && (forall i, j :: 0 <= i < j < |routes| ==> Earlier(routes[i], routes[j]))
    && (forall route :: Leads(cols, route) && ColumnAt(cols, route).children == [] ==> route in routes)
  }

  /** The routes below column n. */
  function Under(n: nat, routes: seq<seq<nat>>): seq<seq<nat>> {
    seq(|routes|, i requires 0 <= i < |routes| => [n] + routes[i])
  }

  lemma LeafUnder(cols: seq<Column>, n: nat, route: seq<nat>, prefix: string, leaf: Column)
    requires n < |cols| && LeafOf(cols[n].children, route, Extend(prefix, cols[n].name), leaf)
    ensures LeafOf(cols, [n] + route, prefix, leaf)
  {
    assert ([n] + route)[1..] == route;
  }

  lemma EarlierUnder(n: nat, a: seq<nat>, b: seq<nat>)
    requires Earlier(a, b)
    ensures Earlier([n] + a, [n] + b)
  {
    var k :| 0 <= k < |a| && k < |b| && a[..k] == b[..k] && a[k] < b[k];
    var x, y := [n] + a, [n] + b;
    assert x[..k + 1] == [n] + a[..k] && y[..k + 1] == [n] + b[..k];
    assert x[k + 1] < y[k + 1];
  }

  lemma EarlierAtTop(a: seq<nat>, b: seq<nat>)
    requires a != [] && b != [] && a[0] < b[0]
    ensures Earlier(a, b)
  {
    assert a[..0] == b[..0];
  }

  /** A route among the first columns is a route among all of them. */
  lemma {:induction false} LeadsFront(cols: seq<Column>, n: nat, route: seq<nat>, prefix: string)
    requires n <= |cols| && route != [] && route[0] < n
    ensures Leads(cols[..n], route) <==> Leads(cols, route)
    ensures Leads(cols, route) ==>
      ColumnAt(cols[..n], route) == ColumnAt(cols, route) && PathAt(cols[..n], route, prefix) == PathAt(cols, route, prefix)
  {}

  lemma EndsAtLeaf(cols: seq<Column>, route: seq<nat>)
    requires Leads(cols, route) && cols[route[0]].children == []
    ensures route == [route[0]]
  {}

  /** The routes to the leaves of one column of a list. */
  lemma {:induction false} RoutesOfOne(cols: seq<Column>, n: nat, prefix: string) returns (routes: seq<seq<nat>>)
    requires n < |cols|
    ensures |routes| == |Leaves(cols[n], prefix)|
    ensures forall i :: 0 <= i < |routes| ==>
      routes[i] != [] && routes[i][0] == n && LeafOf(cols, routes[i], prefix, Leaves(cols[n], prefix)[i])
    ensures forall i, j :: 0 <= i < j < |routes| ==> Earlier(routes[i], routes[j])
    ensures forall route :: Leads(cols, route) && route[0] == n && ColumnAt(cols, route).children == [] ==> route in routes
    decreases cols[n], 1
  {
    var c := cols[n];
    if c.children == [] {
      routes := [[n]];
      forall route | Leads(cols, route) && route[0] == n ensures route in routes {
        EndsAtLeaf(cols, route);
      }
    } else {
      var below := LeavesByRoute(c.children, Extend(prefix, c.name));
      routes := Under(n, below);
      forall i | 0 <= i < |routes| ensures LeafOf(cols, routes[i], prefix, Leaves(c, prefix)[i]) {
        LeafUnder(cols, n, below[i], prefix, Leaves(c, prefix)[i]);
      }
      forall i, j | 0 <= i < j < |routes| ensures Earlier(routes[i], routes[j]) {
        EarlierUnder(n, below[i], below[j]);
      }
      forall route | Leads(cols, route) && route[0] == n && ColumnAt(cols, route).children == []
        ensures route in routes
      {
        assert |route| > 1;
        assert Leads(c.children, route[1..]) && ColumnAt(c.children, route[1..]).children == [];
        assert route[1..] in below;
        var i :| 0 <= i < |below| && below[i] == route[1..];
        assert routes[i] == [n] + route[1..] == route;
      }
    }
  }

  /**
    Flattening lists exactly the childless columns, each once and in the order of the document, under its dotted path
    and with the type, mode and position it has.
  */
  lemma {:induction false} LeavesByRoute(cols: seq<Column>, prefix: string) returns (routes: seq<seq<nat>>)
    ensures AllRoutes(cols, prefix, ForestLeaves(cols, prefix), routes)
    decreases cols, 0
  {
    if cols == [] {
      routes := [];
    } else {
      var n := |cols| - 1;
      var front := LeavesByRoute(cols[..n], prefix);
      var last := RoutesOfOne(cols, n, prefix);
      routes := front + last;
      RoutesJoin(cols, prefix, front, last);
    }
  }

  lemma RoutesJoin(cols: seq<Column>, prefix: string, front: seq<seq<nat>>, last: seq<seq<nat>>)
    requires cols != [] && AllRoutes(cols[..|cols| - 1], prefix, ForestLeaves(cols[..|cols| - 1], prefix), front)
    requires |last| == |Leaves(cols[|cols| - 1], prefix)|
    requires forall i :: 0 <= i < |last| ==> last[i] != [] && last[i][0] == |cols| - 1
    requires forall i :: 0 <= i < |last| ==> LeafOf(cols, last[i], prefix, Leaves(cols[|cols| - 1], prefix)[i])
    requires forall i, j :: 0 <= i < j < |last| ==> Earlier(last[i], last[j])
    requires forall route :: Leads(cols, route) && route[0] == |cols| - 1 && ColumnAt(cols, route).children == [] ==>
      route in last
    ensures AllRoutes(cols, prefix, ForestLeaves(cols, prefix), front + last)
  {
    var n, routes, leaves := |cols| - 1, front + last, ForestLeaves(cols, prefix);
    var firsts := ForestLeaves(cols[..n], prefix);
    forall i | 0 <= i < |leaves| ensures LeafOf(cols, routes[i], prefix, leaves[i]) {
      if i < |front| {
        assert LeafOf(cols[..n], front[i], prefix, firsts[i]);
        LeadsFront(cols, n, front[i], prefix);
      }
    }
    forall i, j | 0 <= i < j < |routes| ensures Earlier(routes[i], routes[j]) {
      if i < |front| && j >= |front| {
        assert LeafOf(cols[..n], front[i], prefix, firsts[i]);
        EarlierAtTop(routes[i], routes[j]);
      }
    }
    forall route | Leads(cols, route) && ColumnAt(cols, route).children == [] ensures route in routes {
      if route[0] < n {
        LeadsFront(cols, n, route, prefix);
      }
    }
  }

  // ------------------------------------------------------------ leaf paths differ

  predicate GoodName(name: string) {
    name != "" && '.' !in name
  }

  /** Names are non-empty and free of dots, and no two siblings share one. */
  ghost predicate WellNamed(cols: seq<Column>)
    decreases cols
  {
    && (forall i :: 0 <= i < |cols| ==> GoodName(cols[i].name) && WellNamed(cols[i].children))
    && (forall i, j :: 0 <= i < j < |cols| ==> cols[i].name != cols[j].name)
  }

  /** The names from the root down to each leaf, in the order of Leaves. */
  function Trails(c: Column, trail: seq<string>): seq<seq<string>>
    decreases c
  {
    if c.children == [] then [trail + [c.name]] else ForestTrails(c.children, trail + [c.name])
  }

  function ForestTrails(cols: seq<Column>, trail: seq<string>): seq<seq<string>>
    decreases cols
  {
    if cols == [] then []
    else ForestTrails(cols[..|cols| - 1], trail) + Trails(cols[|cols| - 1], trail)
  }

  function PathText(trail: seq<string>): string {
    if trail == [] then "" else Extend(PathText(trail[..|trail| - 1]), trail[|trail| - 1])
  }

  /** Leaf i is named by the text of trail i. */
  ghost predicate NamedBy(leaves: seq<Column>, trails: seq<seq<string>>) {
    && |leaves| == |trails|
    && forall i :: 0 <= i < |leaves| ==> leaves[i].name == PathText(trails[i])
  }

  lemma {:induction false} LeavesNamed(c: Column, trail: seq<string>)
    ensures NamedBy(Leaves(c, PathText(trail)), Trails(c, trail))
    decreases c
  {
    var longer := trail + [c.name];
    assert longer[..|trail|] == trail;
    if c.children != [] {
      ForestLeavesNamed(c.children, longer);
    }
  }

  lemma {:induction false} ForestLeavesNamed(cols: seq<Column>, trail: seq<string>)
    ensures NamedBy(ForestLeaves(cols, PathText(trail)), ForestTrails(cols, trail))
    decreases cols
  {
    if cols != [] {
      ForestLeavesNamed(cols[..|cols| - 1], trail);
      LeavesNamed(cols[|cols| - 1], trail);
    }
  }

  ghost predicate GoodTrail(t: seq<string>) {
    forall i :: 0 <= i < |t| ==> GoodName(t[i])
  }

  /** Below `trail`, and next under it one of the given columns. */
  ghost predicate Below(t: seq<string>, trail: seq<string>, cols: seq<Column>) {
    && GoodTrail(t) && trail < t
    && exists i :: 0 <= i < |cols| && cols[i].name == t[|trail|]
  }

  ghost predicate AllBelow(ts: seq<seq<string>>, trail: seq<string>, cols: seq<Column>) {
    forall i :: 0 <= i < |ts| ==> Below(ts[i], trail, cols)
  }

  predicate Distinct<T(==)>(ts: seq<T>) {
    forall i, j :: 0 <= i < j < |ts| ==> ts[i] != ts[j]
  }

  lemma {:induction false} TrailsDistinct(c: Column, trail: seq<string>)
    requires GoodTrail(trail) && GoodName(c.name) && WellNamed(c.children)
    ensures Distinct(Trails(c, trail)) && AllBelow(Trails(c, trail), trail, [c])
    decreases c
  {
    var longer := trail + [c.name];
    if c.children != [] {
      ForestTrailsDistinct(c.children, longer);
      forall i | 0 <= i < |Trails(c, trail)| ensures Below(Trails(c, trail)[i], trail, [c]) {
        assert Below(Trails(c, trail)[i], longer, c.children);
        assert [c][0].name == Trails(c, trail)[i][|trail|];
      }
    } else {
      assert [c][0].name == longer[|trail|];
    }
  }

  lemma {:induction false} ForestTrailsDistinct(cols: seq<Column>, trail: seq<string>)
    requires GoodTrail(trail) && WellNamed(cols)
    ensures Distinct(ForestTrails(cols, trail)) && AllBelow(ForestTrails(cols, trail), trail, cols)
    decreases cols
  {
    if cols != [] {
      var front, last := cols[..|cols| - 1], cols[|cols| - 1];
      ForestTrailsDistinct(front, trail);
      TrailsDistinct(last, trail);
      JoinDistinct(ForestTrails(front, trail), Trails(last, trail), trail, cols);
    }
  }

  lemma JoinDistinct(first: seq<seq<string>>, second: seq<seq<string>>, trail: seq<string>, cols: seq<Column>)
    requires cols != [] && Distinct(first) && Distinct(second)
    requires forall i, j :: 0 <= i < j < |cols| ==> cols[i].name != cols[j].name
    requires AllBelow(first, trail, cols[..|cols| - 1]) && AllBelow(second, trail, [cols[|cols| - 1]])
    ensures Distinct(first + second) && AllBelow(first + second, trail, cols)
  {
    forall i, j | 0 <= i < |first| && 0 <= j < |second| ensures first[i] != second[j] {
      assert Below(first[i], trail, cols[..|cols| - 1]);
      assert Below(second[j], trail, [cols[|cols| - 1]]);
    }
    forall i | 0 <= i < |first + second| ensures Below((first + second)[i], trail, cols) {
      if i < |first| {
        assert Below(first[i], trail, cols[..|cols| - 1]);
      } else {
        assert Below(second[i - |first|], trail, [cols[|cols| - 1]]);
      }
    }
  }

  lemma {:induction false} TextHasDot(t: seq<string>)
    requires GoodTrail(t) && t != []
    ensures PathText(t) != "" && ('.' in PathText(t) <==> |t| > 1)
  {
    var front := t[..|t| - 1];
    assert GoodName(t[|t| - 1]);
    if |t| > 1 {
      TextHasDot(front);
      assert PathText(t)[|PathText(front)|] == '.';
    }
  }

  lemma DotInside(x: string, l: string, k: int)
    requires |x| < k < |x| + 1 + |l| && (x + "." + l)[k] == '.'
    ensures '.' in l
  {
    assert l[k - |x| - 1] == '.';
  }

  /** A text splits in one way only at its last dot. */
  lemma LastDot(x: string, l: string, y: string, m: string)
    requires x + "." + l == y + "." + m && '.' !in l && '.' !in m
    ensures x == y && l == m
  {
    var s := x + "." + l;
    assert s[|x|] == '.' && s[|y|] == '.';
    if |x| < |y| {
      DotInside(x, l, |y|);
    } else if |y| < |x| {
      DotInside(y, m, |x|);
    }
    assert s[..|x|] == x && s[..|y|] == y && s[|x| + 1..] == l && s[|y| + 1..] == m;
  }

  lemma {:induction false} TextDeterminesTrail(a: seq<string>, b: seq<string>)
    requires GoodTrail(a) && GoodTrail(b) && a != [] && b != [] && PathText(a) == PathText(b)
    ensures a == b
  {
    TextHasDot(a);
    TextHasDot(b);
    var x, y := a[..|a| - 1], b[..|b| - 1];
    assert a == x + [a[|a| - 1]] && b == y + [b[|b| - 1]];
    if |a| > 1 {
      TextHasDot(x);
      TextHasDot(y);
      LastDot(PathText(x), a[|a| - 1], PathText(y), b[|b| - 1]);
      TextDeterminesTrail(x, y);
    } else {
      assert x == [] && y == [];
    }
  }

  function Names(cols: seq<Column>): seq<string> {
    seq(|cols|, i requires 0 <= i < |cols| => cols[i].name)
  }

  /** In a well-named forest no two leaves have the same path. */
  lemma LeafPathsDistinct(cols: seq<Column>)
    requires WellNamed(cols)
    ensures Distinct(Names(ForestLeaves(cols, "")))
  {
    var leaves, trails := ForestLeaves(cols, ""), ForestTrails(cols, []);
    ForestLeavesNamed(cols, []);
    ForestTrailsDistinct(cols, []);
    forall i, j | 0 <= i < j < |leaves| ensures leaves[i].name != leaves[j].name {
      assert Below(trails[i], [], cols) && Below(trails[j], [], cols);
      if leaves[i].name == leaves[j].name {
        TextDeterminesTrail(trails[i], trails[j]);
      }
    }
  }

  /** Neither an empty name nor a dot in a name may be allowed: with either, two leaves can share a path. */
  lemma BadNamesCollide()
    ensures
      var leaf := Column("x", "STRING", "NULLABLE", 0, []);
      var unnamed := Column("", "RECORD", "NULLABLE", 0, [leaf]);
      !Distinct(Names(ForestLeaves([unnamed, leaf], "")))
    ensures
      var leaf := Column("x", "STRING", "NULLABLE", 0, []);
      var record, dotted := Column("a", "RECORD", "NULLABLE", 0, [leaf]), Column("a.x", "STRING", "NULLABLE", 0, []);
      !Distinct(Names(ForestLeaves([record, dotted], "")))
  {
    var leaf := Column("x", "STRING", "NULLABLE", 0, []);
    var unnamed := Column("", "RECORD", "NULLABLE", 0, [leaf]);
    var record, dotted := Column("a", "RECORD", "NULLABLE", 0, [leaf]), Column("a.x", "STRING", "NULLABLE", 0, []);
    PairLeaves(unnamed, leaf);
    PairLeaves(record, dotted);
    SingleLeaf(unnamed, leaf);
    SingleLeaf(record, leaf);
    assert Names(ForestLeaves([unnamed, leaf], ""))[0] == Names(ForestLeaves([unnamed, leaf], ""))[1] == "x";
    assert Names(ForestLeaves([record, dotted], ""))[0] == Names(ForestLeaves([record, dotted], ""))[1] == "a.x";
  }

  lemma PairLeaves(a: Column, b: Column)
    ensures ForestLeaves([a, b], "") == Leaves(a, "") + Leaves(b, "")
  {
    OneTree(a, "");
    assert [a, b][..1] == [a];
  }

  lemma OneTree(a: Column, prefix: string)
    ensures ForestLeaves([a], prefix) == Leaves(a, prefix)
  {
    assert [a][..0] == [] && ForestLeaves([], prefix) == [];
  }

  lemma SingleLeaf(parent: Column, leaf: Column)
    requires parent.children == [leaf] && leaf.children == []
    ensures |Leaves(parent, "")| == 1 && Leaves(parent, "")[0].name == Extend(parent.name, leaf.name)
  {
    OneTree(leaf, parent.name);
  }

  // ------------------------------------------------------------------------ diff

  datatype TypeDiff = TypeDiff(name: string, leftType: string, rightType: string)

  datatype SchemaResult = SchemaResult(
    matched: bool, leftOnly: seq<Column>, rightOnly: seq<Column>, typeDiffs: seq<TypeDiff>)

  /** The columns by name; of several with one name the last. */
  function Index(cols: seq<Column>): map<string, Column> {
    if cols == [] then map[]
    else Index(cols[..|cols| - 1])[cols[|cols| - 1].name := cols[|cols| - 1]]
  }

  method IndexColumns(cols: seq<Column>) returns (m: map<string, Column>)
    ensures m == Index(cols)
    ensures forall i :: 0 <= i < |cols| && (forall j :: i < j < |cols| ==> cols[j].name != cols[i].name) ==>
      cols[i].name in m && m[cols[i].name] == cols[i]
  {
    m := map[];
    for i := 0 to |cols|
      invariant m == Index(cols[..i])
      invariant forall k :: 0 <= k < i && (forall j :: k < j < i ==> cols[j].name != cols[k].name) ==>
        cols[k].name in m && m[cols[k].name] == cols[k]
    {
      assert cols[..i + 1][..i] == cols[..i];
      m := m[cols[i].name := cols[i]];
    }
    assert cols[..|cols|] == cols;
  }

  /** The type that a schema gives to each leaf path. */
  function Types(cols: seq<Column>): map<string, string> {
    map name | name in Index(cols) :: Index(cols)[name].dataType
  }

  /** Those of the columns whose name the other side does not have, in order. */
  function Missing(cols: seq<Column>, other: map<string, Column>): seq<Column> {
    if cols == [] then []
    else
      var last := cols[|cols| - 1];
      Missing(cols[..|cols| - 1], other) + if last.name in other then [] else [last]
  }

  function Changed(cols: seq<Column>, other: map<string, Column>): seq<TypeDiff> {
    if cols == [] then []
    else
      var last := cols[|cols| - 1];
      Changed(cols[..|cols| - 1], other) +
      if last.name in other && other[last.name].dataType != last.dataType
      then [TypeDiff(last.name, last.dataType, other[last.name].dataType)] else []
  }

  lemma NothingYet(l: map<string, Column>, r: map<string, Column>)
    ensures Missing([], l) == [] && Missing([], r) == [] && Changed([], r) == []
  {}

  lemma OneMore(cols: seq<Column>, i: nat, other: map<string, Column>)
    requires i < |cols|
    ensures
      var known := cols[i].name in other;
      && Missing(cols[..i + 1], other) == (if known then Missing(cols[..i], other)
                                           else Missing(cols[..i], other) + [cols[i]])
      && Changed(cols[..i + 1], other) == (if known && other[cols[i].name].dataType != cols[i].dataType
                                           then Changed(cols[..i], other) +
                                                [TypeDiff(cols[i].name, cols[i].dataType, other[cols[i].name].dataType)]
                                           else Changed(cols[..i], other))
  {
    assert cols[..i + 1][..i] == cols[..i];
  }

  method DiffColumns(left: seq<Column>, right: seq<Column>) returns (result: SchemaResult)
    ensures
      var l, r := ForestLeaves(left, ""), ForestLeaves(right, "");
      && result.leftOnly == Missing(l, Index(r))
      && result.rightOnly == Missing(r, Index(l))
      && result.typeDiffs == Changed(l, Index(r))
      && result.matched == (result.leftOnly == [] && result.rightOnly == [] && result.typeDiffs == [])
  {
    var flatLeft := FlattenAll(left);
    var flatRight := FlattenAll(right);
    var leftByName := IndexColumns(flatLeft);
    var rightByName := IndexColumns(flatRight);
    hide ForestLeaves, Index, Missing, Changed;
    var leftOnly: seq<Column>, rightOnly: seq<Column>, typeDiffs: seq<TypeDiff> := [], [], [];
    NothingYet(leftByName, rightByName);
    for i := 0 to |flatLeft|
      invariant leftOnly == Missing(flatLeft[..i], rightByName)
      invariant typeDiffs == Changed(flatLeft[..i], rightByName)
    {
      OneMore(flatLeft, i, rightByName);
      var c := flatLeft[i];
      if c.name !in rightByName {
        leftOnly := leftOnly + [c];
        continue;
      }
      var rc := rightByName[c.name];
      if c.dataType != rc.dataType {
        typeDiffs := typeDiffs + [TypeDiff(c.name, c.dataType, rc.dataType)];
      }
    }
    for i := 0 to |flatRight|
      invariant rightOnly == Missing(flatRight[..i], leftByName)
    {
      OneMore(flatRight, i, leftByName);
      if flatRight[i].name !in leftByName {
        rightOnly := rightOnly + [flatRight[i]];
      }
    }
    assert flatLeft[..|flatLeft|] == flatLeft && flatRight[..|flatRight|] == flatRight;
    result := SchemaResult(|leftOnly| == 0 && |rightOnly| == 0 && |typeDiffs| == 0, leftOnly, rightOnly, typeDiffs);
  }

  // ------------------------------------------------------------ what the diff means

  lemma {:induction false} InIndex(cols: seq<Column>, name: string)
    ensures name in Index(cols) <==> exists i :: 0 <= i < |cols| && cols[i].name == name
    ensures name in Index(cols) ==> Index(cols)[name] in cols && Index(cols)[name].name == name
  {
    if cols != [] {
      InIndex(cols[..|cols| - 1], name);
      if exists i :: 0 <= i < |cols| && cols[i].name == name {
        var i :| 0 <= i < |cols| && cols[i].name == name;
        assert i == |cols| - 1 || cols[..|cols| - 1][i].name == name;
      }
    }
  }

  predicate Differs(c: Column, other: map<string, Column>, d: TypeDiff) {
    c.name in other && other[c.name].dataType != c.dataType && d == TypeDiff(c.name, c.dataType, other[c.name].dataType)
  }

  predicate Rising(at: seq<nat>, n: nat) {
    (forall k :: 0 <= k < |at| ==> at[k] < n) && forall j, k :: 0 <= j < k < |at| ==> at[j] < at[k]
  }

  /** The positions that are set, in order. */
  function Where(flags: seq<bool>): (at: seq<nat>)
    ensures Rising(at, |flags|)
    ensures forall i: nat :: i < |flags| ==> (i in at <==> flags[i])
  {
    if flags == [] then []
    else
      var n := |flags| - 1;
      var before := Where(flags[..n]);
      OnePosition(before, n, flags[n]);
      if flags[n] then before + [n] else before
  }

  /** One more position, taken or not. */
  lemma OnePosition(before: seq<nat>, n: nat, taken: bool)
    requires Rising(before, n)
    ensures
      var at := if taken then before + [n] else before;
      Rising(at, n + 1) && (n in at <==> taken) && forall i: nat :: i < n ==> (i in at <==> i in before)
  {}

  lemma WhereStep(flags: seq<bool>, front: seq<bool>, flag: bool)
    requires flags == front + [flag]
    ensures Where(flags) == if flag then Where(front) + [|front|] else Where(front)
  {
    assert flags[..|front|] == front;
  }

  function MissingFlags(cols: seq<Column>, other: map<string, Column>): (flags: seq<bool>)
    ensures |flags| == |cols|
  {
    seq(|cols|, i requires 0 <= i < |cols| => cols[i].name !in other)
  }

  function ChangedFlags(cols: seq<Column>, other: map<string, Column>): (flags: seq<bool>)
    ensures |flags| == |cols|
  {
    seq(|cols|, i requires 0 <= i < |cols| => cols[i].name in other && other[cols[i].name].dataType != cols[i].dataType)
  }

  lemma FlagsStep(cols: seq<Column>, front: seq<Column>, last: Column, other: map<string, Column>)
    requires cols == front + [last]
    ensures MissingFlags(cols, other) == MissingFlags(front, other) + [last.name !in other]
    ensures ChangedFlags(cols, other) ==
            ChangedFlags(front, other) + [last.name in other && other[last.name].dataType != last.dataType]
  {}

  /** The columns at these positions. */
  ghost predicate Picks(out: seq<Column>, cols: seq<Column>, at: seq<nat>) {
    |out| == |at| && forall k :: 0 <= k < |at| ==> at[k] < |cols| && out[k] == cols[at[k]]
  }

  /** The differences of the columns at these positions, the left type on the left. */
  ghost predicate PicksChanges(out: seq<TypeDiff>, cols: seq<Column>, other: map<string, Column>, at: seq<nat>) {
    && |out| == |at|
    && (forall k :: 0 <= k < |at| ==> at[k] < |cols|)
    && forall k :: 0 <= k < |at| ==>
         var c := cols[at[k]];
         c.name in other && out[k] == TypeDiff(c.name, c.dataType, other[c.name].dataType)
  }

  lemma PicksMore(out: seq<Column>, cols: seq<Column>, last: Column, at: seq<nat>)
    requires Picks(out, cols, at)
    ensures Picks(out, cols + [last], at) && Picks(out + [last], cols + [last], at + [|cols|])
  {}

  lemma PicksMoreChanges(out: seq<TypeDiff>, cols: seq<Column>, last: Column, other: map<string, Column>, at: seq<nat>)
    requires PicksChanges(out, cols, other, at)
    ensures PicksChanges(out, cols + [last], other, at)
    ensures last.name in other ==>
      PicksChanges(out + [TypeDiff(last.name, last.dataType, other[last.name].dataType)], cols + [last], other,
                   at + [|cols|])
  {}

  /** leftOnly and rightOnly: the columns the other side lacks, in the order they have. */
  lemma {:induction false} MissingInOrder(cols: seq<Column>, other: map<string, Column>)
    ensures Picks(Missing(cols, other), cols, Where(MissingFlags(cols, other)))
  {
    if cols != [] {
      var front, last := cols[..|cols| - 1], cols[|cols| - 1];
      hide Picks, Missing, Changed, Where, MissingFlags;
      MissingInOrder(front, other);
      assert cols[..|front| + 1] == cols == front + [last];
      OneMore(cols, |front|, other);
      FlagsStep(cols, front, last, other);
      WhereStep(MissingFlags(cols, other), MissingFlags(front, other), last.name !in other);
      PicksMore(Missing(front, other), front, last, Where(MissingFlags(front, other)));
    }
  }

  /** typeDiffs: the columns with another type on the other side, in their order, the left type on the left. */
  lemma {:induction false} ChangedInOrder(cols: seq<Column>, other: map<string, Column>)
    ensures PicksChanges(Changed(cols, other), cols, other, Where(ChangedFlags(cols, other)))
  {
    if cols != [] {
      var front, last := cols[..|cols| - 1], cols[|cols| - 1];
      hide PicksChanges, Missing, Changed, Where, ChangedFlags;
      ChangedInOrder(front, other);
      assert cols[..|front| + 1] == cols == front + [last];
      OneMore(cols, |front|, other);
      FlagsStep(cols, front, last, other);
      WhereStep(ChangedFlags(cols, other), ChangedFlags(front, other),
                last.name in other && other[last.name].dataType != last.dataType);
      PicksMoreChanges(Changed(front, other), front, last, other, Where(ChangedFlags(front, other)));
    }
  }

  /** A column is missing as often as it occurs, if the other side does not have its name. */
  lemma {:induction false} InMissing(cols: seq<Column>, other: map<string, Column>, c: Column)
    ensures multiset(Missing(cols, other))[c] == if c.name in other then 0 else multiset(cols)[c]
    ensures c in Missing(cols, other) <==> c in cols && c.name !in other
  {
    if cols != [] {
      InMissing(cols[..|cols| - 1], other, c);
      assert cols == cols[..|cols| - 1] + [cols[|cols| - 1]];
    }
  }

  lemma {:induction false} InChanged(cols: seq<Column>, other: map<string, Column>, d: TypeDiff)
    ensures d in Changed(cols, other) <==> exists c :: c in cols && Differs(c, other, d)
  {
    if cols != [] {
      var front, last := cols[..|cols| - 1], cols[|cols| - 1];
      InChanged(front, other, d);
      assert cols == front + [last];
      if exists c :: c in cols && Differs(c, other, d) {
        var c :| c in cols && Differs(c, other, d);
        assert c == last || (c in front && Differs(c, other, d));
      }
      if d in Changed(cols, other) && d !in Changed(front, other) {
        assert last in cols && Differs(last, other, d);
      }
    }
  }

  /** No two leaves of one path have different types. */
  ghost predicate Consistent(flat: seq<Column>) {
    forall c :: c in flat ==> c.name in Types(flat) && Types(flat)[c.name] == c.dataType
  }

  ghost predicate Matches(l: seq<Column>, r: seq<Column>) {
    Missing(l, Index(r)) == [] && Missing(r, Index(l)) == [] && Changed(l, Index(r)) == []
  }

  lemma MatchesMeans(l: seq<Column>, r: seq<Column>)
    ensures Matches(l, r) <==>
            && (forall c :: c in l ==> c.name in Index(r) && Index(r)[c.name].dataType == c.dataType)
            && (forall c :: c in r ==> c.name in Index(l))
  {
    if Matches(l, r) {
      forall c | c in l ensures c.name in Index(r) && Index(r)[c.name].dataType == c.dataType {
        InMissing(l, Index(r), c);
        if c.name in Index(r) && Index(r)[c.name].dataType != c.dataType {
          var d := TypeDiff(c.name, c.dataType, Index(r)[c.name].dataType);
          InChanged(l, Index(r), d);
          assert Differs(c, Index(r), d);
        }
      }
      forall c | c in r ensures c.name in Index(l) {
        InMissing(r, Index(l), c);
      }
    }
    if !Matches(l, r) {
      if Missing(l, Index(r)) != [] {
        InMissing(l, Index(r), Missing(l, Index(r))[0]);
      } else if Missing(r, Index(l)) != [] {
        InMissing(r, Index(l), Missing(r, Index(l))[0]);
      } else {
        InChanged(l, Index(r), Changed(l, Index(r))[0]);
      }
    }
  }

  lemma IndexFinds(cols: seq<Column>)
    ensures forall name :: name in Index(cols) ==> Index(cols)[name] in cols && Index(cols)[name].name == name
    ensures forall c :: c in cols ==> c.name in Index(cols)
  {
    forall name ensures name in Index(cols) ==> Index(cols)[name] in cols && Index(cols)[name].name == name {
      InIndex(cols, name);
    }
    forall c | c in cols ensures c.name in Index(cols) {
      InIndex(cols, c.name);
    }
  }

  /**
    For all schemas, well named or not: the diff reports a match exactly when both sides give every leaf path the same
    type and the left side does not give one path two types.
  */
  lemma MatchExactly(l: seq<Column>, r: seq<Column>)
    ensures Matches(l, r) <==> Types(l) == Types(r) && Consistent(l)
  {
    hide Index, Matches;
    MatchesMeans(l, r);
    IndexFinds(l);
    IndexFinds(r);
    if Matches(l, r) {
      assert forall name :: name in Index(l) ==> Index(l)[name] in l;
      assert Types(l).Keys == Types(r).Keys;
    } else if Types(l) == Types(r) {
      assert Types(l).Keys == Types(r).Keys;
      forall c | c in l && c.name in Types(r) && Types(l)[c.name] == c.dataType
        ensures c.name in Index(r) && Index(r)[c.name].dataType == c.dataType
      {
        assert Types(r)[c.name] == c.dataType;
      }
      assert forall c :: c in r ==> c.name in Types(r).Keys;
    }
  }

  lemma {:induction false} IndexOfDistinct(cols: seq<Column>, i: nat)
    requires Distinct(Names(cols)) && i < |cols|
    ensures cols[i].name in Index(cols) && Index(cols)[cols[i].name] == cols[i]
  {
    if i < |cols| - 1 {
      var front := cols[..|cols| - 1];
      assert Names(front) == Names(cols)[..|front|];
      IndexOfDistinct(front, i);
      assert front[i] == cols[i] && Names(cols)[i] == cols[i].name;
      assert Names(cols)[|cols| - 1] == cols[|cols| - 1].name;
    }
  }

  lemma WellNamedConsistent(cols: seq<Column>)
    requires WellNamed(cols)
    ensures Consistent(ForestLeaves(cols, ""))
  {
    var flat := ForestLeaves(cols, "");
    LeafPathsDistinct(cols);
    forall c | c in flat ensures c.name in Types(flat) && Types(flat)[c.name] == c.dataType {
      var i :| 0 <= i < |flat| && flat[i] == c;
      IndexOfDistinct(flat, i);
    }
  }

  /** For well-named schemas a match means the same types at the same paths, whichever side is called left. */
  lemma MatchIsSameTypes(left: seq<Column>, right: seq<Column>)
    requires WellNamed(left) && WellNamed(right)
    ensures
      var l, r := ForestLeaves(left, ""), ForestLeaves(right, "");
      (Matches(l, r) <==> Types(l) == Types(r)) && (Matches(l, r) <==> Matches(r, l))
  {
    WellNamedConsistent(left);
    WellNamedConsistent(right);
    MatchExactly(ForestLeaves(left, ""), ForestLeaves(right, ""));
    MatchExactly(ForestLeaves(right, ""), ForestLeaves(left, ""));
  }

  lemma MissingExact(l: seq<Column>, r: seq<Column>, c: Column)
    ensures c in Missing(l, Index(r)) <==> c in l && c.name in Types(l).Keys - Types(r).Keys
  {
    hide Index, Missing;
    IndexFinds(l);
    InMissing(l, Index(r), c);
  }

  /** A difference that both maps show. */
  predicate TypesDiffer(l: map<string, string>, r: map<string, string>, d: TypeDiff) {
    d.name in l && d.name in r && d.leftType == l[d.name] && d.rightType == r[d.name] && d.leftType != d.rightType
  }

  lemma ChangedExact(l: seq<Column>, r: seq<Column>, d: TypeDiff)
    requires Consistent(l)
    ensures d in Changed(l, Index(r)) <==> TypesDiffer(Types(l), Types(r), d)
  {
    hide Index, Changed;
    IndexFinds(l);
    InChanged(l, Index(r), d);
    if d in Changed(l, Index(r)) {
      var e :| e in l && Differs(e, Index(r), d);
      assert Types(l)[e.name] == e.dataType;
    }
    if TypesDiffer(Types(l), Types(r), d) {
      var e := Index(l)[d.name];
      assert e in l && Differs(e, Index(r), d);
    }
  }

  /** The three lists are the exact differences between the two maps from paths to types. */
  lemma DifferencesExact(left: seq<Column>, right: seq<Column>, c: Column, d: TypeDiff)
    requires WellNamed(left) && WellNamed(right)
    ensures
      var l, r := ForestLeaves(left, ""), ForestLeaves(right, "");
      && (c in Missing(l, Index(r)) <==> c in l && c.name in Types(l).Keys - Types(r).Keys)
      && (c in Missing(r, Index(l)) <==> c in r && c.name in Types(r).Keys - Types(l).Keys)
      && (d in Changed(l, Index(r)) <==> TypesDiffer(Types(l), Types(r), d))
  {
    hide ForestLeaves, WellNamed, Consistent, Index, Types, Missing, Changed, TypesDiffer;
    var l, r := ForestLeaves(left, ""), ForestLeaves(right, "");
    WellNamedConsistent(left);
    MissingExact(l, r, c);
    MissingExact(r, l, c);
    ChangedExact(l, r, d);
  }

  lemma LeafStays(leaf: Column)
    requires leaf.children == []
    ensures Leaves(leaf, "") == [leaf]
  {}

  lemma IndexOfPair(a: Column, b: Column)
    requires a.name == b.name
    ensures Index([b]) == map[b.name := b] && Index([a, b]) == map[b.name := b]
  {
    assert [b][..0] == [] && [a][..0] == [] && [a, b][..1] == [a];
    assert Index([]) == map[];
    assert Index([a]) == map[a.name := a];
  }

  lemma OneSided(text: Column, number: Column)
    requires text.name == number.name && text.dataType != number.dataType
    ensures Matches([number], [text, number]) && !Matches([text, number], [number])
    ensures !Matches([text, number], [text, number])
  {
    hide Matches, Index;
    IndexOfPair(text, number);
    var once, twice := [number], [text, number];
    MatchExactly(once, twice);
    MatchExactly(twice, once);
    MatchExactly(twice, twice);
    assert text in twice && Types(twice)[text.name] != text.dataType;
  }

  /** Of two columns with one name the left side keeps both and the right side one: the diff is then not symmetric. */
  lemma MatchCanBeOneSided()
    ensures
      var text, number := Column("x", "STRING", "NULLABLE", 0, []), Column("x", "INT64", "NULLABLE", 1, []);
      var once, twice := ForestLeaves([number], ""), ForestLeaves([text, number], "");
      Matches(once, twice) && !Matches(twice, once) && !Matches(twice, twice)
  {
    hide Leaves, ForestLeaves, Matches, Index;
    var text, number := Column("x", "STRING", "NULLABLE", 0, []), Column("x", "INT64", "NULLABLE", 1, []);
    LeafStays(text);
    LeafStays(number);
    OneTree(number, "");
    PairLeaves(text, number);
    assert [text] + [number] == [text, number];
    assert "STRING" != "INT64" by { assert |"STRING"| != |"INT64"|; }
    OneSided(text, number);
  }
}
