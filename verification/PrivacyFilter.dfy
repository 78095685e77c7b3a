/**
  The redaction of go/discovery/privacyfilter/filter.go: every line that contains a pattern, whatever its case, is
  replaced by a marker that names the pattern. Folding case is a function on characters.
*/
module PrivacyFilter {

  datatype Filter = Filter(patterns: seq<string>, lower: seq<string>)

  function Fold(fold: char -> char, s: string): string {
    seq(|s|, i requires 0 <= i < |s| => fold(s[i]))
  }

  predicate OccursAt(s: string, p: string, i: int) {
    0 <= i <= |s| - |p| && s[i..i + |p|] == p
  }

  predicate Contains(s: string, p: string) {
    exists i :: 0 <= i <= |s| - |p| && OccursAt(s, p, i)
  }

  // ----------------------------------------------------------------------- lines

  /** strings.Split(s, "\n") */
  function Lines(s: string): (ls: seq<string>)
    ensures |ls| > 0
  {
    if s == "" then [""]
    else
      var rest := Lines(s[1..]);
      if s[0] == '\n' then [""] + rest else [[s[0]] + rest[0]] + rest[1..]
  }

  /** strings.Join(ls, "\n") */
  function JoinLines(ls: seq<string>): string {
    if ls == [] then "" else if |ls| == 1 then ls[0] else ls[0] + "\n" + JoinLines(ls[1..])
  }

  predicate OneLine(s: string) {
    '\n' !in s
  }

  lemma JoinedLonger(c: char, ls: seq<string>)
    requires ls != []
    ensures JoinLines([[c] + ls[0]] + ls[1..]) == [c] + JoinLines(ls)
  {
    var longer := [[c] + ls[0]] + ls[1..];
    assert longer[1..] == ls[1..];
  }

  lemma JoinedAfterEmpty(ls: seq<string>)
    requires ls != []
    ensures JoinLines([""] + ls) == "\n" + JoinLines(ls)
  {
    assert ([""] + ls)[1..] == ls;
  }

  lemma {:induction false} LinesAreLines(s: string)
    ensures forall i :: 0 <= i < |Lines(s)| ==> OneLine(Lines(s)[i])
    ensures JoinLines(Lines(s)) == s
  {
    if s != "" {
      LinesAreLines(s[1..]);
      var rest := Lines(s[1..]);
      JoinedLonger(s[0], rest);
      JoinedAfterEmpty(rest);
      hide JoinLines;
      assert s == [s[0]] + s[1..];
    }
  }

  /** A first line, then a newline, then more. */
  lemma {:induction false} LinesOfJoined(line: string, more: string)
    requires OneLine(line)
    ensures Lines(line + "\n" + more) == [line] + Lines(more)
    ensures Lines(line) == [line]
  {
    var s := line + "\n" + more;
    if line == "" {
      assert s == "\n" + more && s[1..] == more;
    } else {
      LinesOfJoined(line[1..], more);
      assert s[1..] == line[1..] + "\n" + more;
      assert line == [line[0]] + line[1..];
    }
  }

  lemma {:induction false} LinesReadBack(ls: seq<string>)
    requires ls != [] && forall i :: 0 <= i < |ls| ==> OneLine(ls[i])
    ensures Lines(JoinLines(ls)) == ls
  {
    assert OneLine(ls[0]);
    if |ls| == 1 {
      LinesOfJoined(ls[0], "");
    } else {
      LinesReadBack(ls[1..]);
      LinesOfJoined(ls[0], JoinLines(ls[1..]));
      assert ls == [ls[0]] + ls[1..];
    }
  }

  // --------------------------------------------------------- patterns and lines

  lemma OccursShifted(c: char, s: string, p: string, i: nat)
    requires i <= |s| - |p|
    ensures OccursAt([c] + s, p, i + 1) <==> OccursAt(s, p, i)
  {
    var t := [c] + s;
    assert t[1..] == s;
    assert t[i + 1..i + 1 + |p|] == t[1..][i..i + |p|];
  }

  lemma ContainsShifted(c: char, s: string, p: string)
    ensures Contains([c] + s, p) <==> OccursAt([c] + s, p, 0) || Contains(s, p)
  {
    var t := [c] + s;
    hide OccursAt;
    if Contains(s, p) {
      var i :| 0 <= i <= |s| - |p| && OccursAt(s, p, i);
      OccursShifted(c, s, p, i);
      assert OccursAt(t, p, i + 1);
    }
    if Contains(t, p) && !OccursAt(t, p, 0) {
      var i :| 0 <= i <= |t| - |p| && OccursAt(t, p, i);
      OccursShifted(c, s, p, i - 1);
      assert OccursAt(s, p, i - 1);
    }
    if OccursAt(t, p, 0) {
      OccursFits(t, p, 0);
    }
  }

  lemma OccursFits(s: string, p: string, i: int)
    requires OccursAt(s, p, i)
    ensures 0 <= i <= |s| - |p|
  {}

  /** The first line is what the text starts with. */
  lemma {:induction false} StartsWithFirstLine(s: string, p: string)
    requires OneLine(p)
    ensures OccursAt(s, p, 0) <==> OccursAt(Lines(s)[0], p, 0)
  {
    if p != "" && s != "" {
      if s[0] != '\n' {
        StartsWithFirstLine(s[1..], p[1..]);
        assert p == [p[0]] + p[1..];
        PrefixTail(s, p);
        PrefixTail(Lines(s)[0], p);
        assert Lines(s)[0][1..] == Lines(s[1..])[0];
      } else {
        assert p[0] != '\n';
      }
    }
  }

  lemma PrefixTail(s: string, p: string)
    requires s != "" && p != ""
    ensures OccursAt(s, p, 0) <==> s[0] == p[0] && OccursAt(s[1..], p[1..], 0)
  {
    if OccursAt(s, p, 0) {
      assert s[1..][..|p| - 1] == s[..|p|][1..];
    }
    if s[0] == p[0] && OccursAt(s[1..], p[1..], 0) {
      assert s[..|p|] == [s[0]] + s[1..][..|p| - 1];
    }
  }

  predicate InSome(ls: seq<string>, p: string) {
    exists i :: 0 <= i < |ls| && Contains(ls[i], p)
  }

  lemma InFirstOrRest(l: string, ls: seq<string>, p: string)
    ensures InSome([l] + ls, p) <==> Contains(l, p) || InSome(ls, p)
  {
    var all := [l] + ls;
    assert all[0] == l;
    if InSome(ls, p) {
      var i :| 0 <= i < |ls| && Contains(ls[i], p);
      assert all[i + 1] == ls[i];
    }
    if InSome(all, p) {
      var i :| 0 <= i < |all| && Contains(all[i], p);
      assert i == 0 || all[i] == ls[i - 1];
    }
  }

  lemma ContainsInEmpty(p: string)
    ensures Contains("", p) <==> OccursAt("", p, 0)
  {}

  /** A pattern without newlines occurs in a text if and only if it occurs in one of its lines. */
  lemma {:induction false} OccursInSomeLine(s: string, p: string)
    requires OneLine(p)
    ensures Contains(s, p) <==> InSome(Lines(s), p)
  {
    hide Contains, InSome, OccursAt;
    if s == "" {
      InFirstOrRest("", [], p);
      assert [""] + [] == [""];
      assert !InSome([], p) by { InNone(p); }
    } else {
      var rest := Lines(s[1..]);
      assert s == [s[0]] + s[1..] && rest == [rest[0]] + rest[1..];
      OccursInSomeLine(s[1..], p);
      StartsWithFirstLine(s, p);
      ContainsShifted(s[0], s[1..], p);
      if s[0] == '\n' {
        InFirstOrRest("", rest, p);
        ContainsInEmpty(p);
      } else {
        InFirstOrRest([s[0]] + rest[0], rest[1..], p);
        InFirstOrRest(rest[0], rest[1..], p);
        ContainsShifted(s[0], rest[0], p);
      }
    }
  }

  lemma InNone(p: string)
    ensures !InSome([], p)
  {}

  /** Folding keeps newlines where they are, and makes none. */
  ghost predicate KeepsLines(fold: char -> char) {
    forall c :: fold(c) == '\n' <==> c == '\n'
  }

  lemma FoldJoined(fold: char -> char, s: string, t: string)
    ensures Fold(fold, s + t) == Fold(fold, s) + Fold(fold, t)
  {}

  lemma FoldOne(fold: char -> char, c: char)
    ensures Fold(fold, [c]) == [fold(c)]
  {}

  lemma LinesOfCons(c: char, t: string)
    ensures Lines([c] + t) == if c == '\n' then [""] + Lines(t) else [[c] + Lines(t)[0]] + Lines(t)[1..]
  {
    assert ([c] + t)[1..] == t;
  }

  lemma {:induction false} FoldLines(fold: char -> char, s: string)
    requires KeepsLines(fold)
    ensures |Lines(Fold(fold, s))| == |Lines(s)|
    ensures forall i :: 0 <= i < |Lines(s)| ==> Lines(Fold(fold, s))[i] == Fold(fold, Lines(s)[i])
  {
    assert Fold(fold, "") == "" && Lines("") == [""];
    if s != "" {
      var c, t, rest := s[0], s[1..], Lines(s[1..]);
      assert s == [c] + t;
      FoldLines(fold, t);
      FoldOne(fold, c);
      FoldJoined(fold, [c], t);
      FoldJoined(fold, [c], rest[0]);
      LinesOfCons(c, t);
      LinesOfCons(fold(c), Fold(fold, t));
      hide Fold, Lines;
    }
  }

  // ------------------------------------------------------------------- redaction

  /** The number of the first pattern that occurs in a folded text; the number of patterns if none does. */
  function First(lower: seq<string>, text: string): (k: nat)
    ensures k <= |lower|
    ensures k < |lower| ==> Contains(text, lower[k])
    ensures forall j :: 0 <= j < k ==> !Contains(text, lower[j])
  {
    if lower == [] || Contains(text, lower[0]) then 0 else 1 + First(lower[1..], text)
  }

  lemma FirstIs(lower: seq<string>, text: string, k: nat)
    requires k <= |lower| && (k < |lower| ==> Contains(text, lower[k]))
    requires forall j :: 0 <= j < k ==> !Contains(text, lower[j])
    ensures First(lower, text) == k
  {}

  const MARKER_PREFIX := "[REDACTED \U{2014} contains "

  function Marker(pattern: string): string {
    MARKER_PREFIX + pattern + "]"
  }

  /** A filter folds its patterns once, when it is made. */
  ghost predicate Folded(f: Filter, fold: char -> char) {
    && |f.lower| == |f.patterns|
    && forall i :: 0 <= i < |f.patterns| ==> f.lower[i] == Fold(fold, f.patterns[i])
  }

  /** What becomes of one line: itself when no pattern occurs in it, else the marker of the first that does. */
  function LineOut(f: Filter, fold: char -> char, line: string): string
    requires |f.lower| == |f.patterns|
  {
    var k := First(f.lower, Fold(fold, line));
    if k < |f.patterns| then Marker(f.patterns[k]) else line
  }

  function LinesOut(f: Filter, fold: char -> char, ls: seq<string>): (r: seq<string>)
    requires |f.lower| == |f.patterns|
    ensures |r| == |ls| && forall i :: 0 <= i < |ls| ==> r[i] == LineOut(f, fold, ls[i])
  {
    seq(|ls|, i requires 0 <= i < |ls| => LineOut(f, fold, ls[i]))
  }

  /** The loop over lines without the early exits. */
  function Redacted(f: Filter, fold: char -> char, content: string): string
    requires |f.lower| == |f.patterns|
  {
    JoinLines(LinesOut(f, fold, Lines(content)))
  }

  lemma NoPatternNoChange(f: Filter, fold: char -> char, content: string)
    requires Folded(f, fold) && KeepsLines(fold)
    requires forall p :: p in f.patterns ==> OneLine(p)
    requires forall j :: 0 <= j < |f.lower| ==> !Contains(Fold(fold, content), f.lower[j])
    ensures Redacted(f, fold, content) == content
  {
    var ls, folded := Lines(content), Fold(fold, content);
    FoldLines(fold, content);
    LinesAreLines(content);
    forall i | 0 <= i < |ls| ensures LineOut(f, fold, ls[i]) == ls[i] {
      forall j | 0 <= j < |f.lower| ensures !Contains(Fold(fold, ls[i]), f.lower[j]) {
        assert f.patterns[j] in f.patterns;
        NotInLine(folded, f.lower[j], i);
      }
      FirstIs(f.lower, Fold(fold, ls[i]), |f.lower|);
    }
    assert LinesOut(f, fold, ls) == ls;
  }

  lemma NotInLine(s: string, p: string, i: nat)
    requires OneLine(p) && !Contains(s, p) && i < |Lines(s)|
    ensures !Contains(Lines(s)[i], p)
  {
    if Contains(Lines(s)[i], p) {
      assert InSome(Lines(s), p);
      OccursInSomeLine(s, p);
    }
  }

  lemma EmptyHasNoPattern(f: Filter, fold: char -> char)
    requires Folded(f, fold) && forall p :: p in f.patterns ==> p != ""
    ensures forall j :: 0 <= j < |f.lower| ==> !Contains(Fold(fold, ""), f.lower[j])
  {
    forall j | 0 <= j < |f.lower| ensures !Contains(Fold(fold, ""), f.lower[j]) {
      assert f.patterns[j] in f.patterns;
    }
  }

  lemma FirstMatches(f: Filter, fold: char -> char, line: string, j: nat)
    requires |f.lower| == |f.patterns| && j < |f.patterns| && Contains(Fold(fold, line), f.lower[j])
    requires forall k :: 0 <= k < j ==> !Contains(Fold(fold, line), f.lower[k])
    ensures LineOut(f, fold, line) == Marker(f.patterns[j])
  {
    FirstIs(f.lower, Fold(fold, line), j);
  }

  lemma NoneMatches(f: Filter, fold: char -> char, line: string)
    requires |f.lower| == |f.patterns|
    ensures (forall k :: 0 <= k < |f.lower| ==> !Contains(Fold(fold, line), f.lower[k])) ==>
      LineOut(f, fold, line) == line
  {}

  method Redact(f: Filter, fold: char -> char, content: string) returns (result: string)
    requires Folded(f, fold) && KeepsLines(fold)
    requires forall p :: p in f.patterns ==> p != "" && OneLine(p)
    ensures result == Redacted(f, fold, content)
  {
    hide Contains, Fold, LineOut;
    if content == "" {
      EmptyHasNoPattern(f, fold);
      NoPatternNoChange(f, fold, content);
      return content;
    }
    var contentLower := Fold(fold, content);
    var hasAny := false;
    for j := 0 to |f.lower|
      invariant !hasAny && forall k :: 0 <= k < j ==> !Contains(contentLower, f.lower[k])
    {
      if Contains(contentLower, f.lower[j]) {
        hasAny := true;
        break;
      }
    }
    if !hasAny {
      NoPatternNoChange(f, fold, content);
      return content;
    }
    var given := Lines(content);
    var lines := new string[|given|](i requires 0 <= i < |given| => given[i]);
    for i := 0 to lines.Length
      invariant lines.Length == |given|
      invariant forall k :: 0 <= k < i ==> lines[k] == LineOut(f, fold, given[k])
      invariant forall k :: i <= k < lines.Length ==> lines[k] == given[k]
    {
      var lineLower := Fold(fold, lines[i]);
      NoneMatches(f, fold, given[i]);
      for j := 0 to |f.lower|
        invariant lines[i] == given[i]
        invariant forall k :: 0 <= k < i ==> lines[k] == LineOut(f, fold, given[k])
        invariant forall k :: i <= k < lines.Length ==> lines[k] == given[k]
        invariant forall k :: 0 <= k < j ==> !Contains(lineLower, f.lower[k])
      {
        if Contains(lineLower, f.lower[j]) {
          FirstMatches(f, fold, given[i], j);
          lines[i] := MARKER_PREFIX + f.patterns[j] + "]";
          break;
        }
      }
    }
    assert lines[..] == LinesOut(f, fold, given);
    result := JoinLines(lines[..]);
  }

  /** The line comes out as it went in when no pattern occurs in it, else as the text that names the first that does. */
  ghost predicate OutcomeOf(f: Filter, fold: char -> char, line: string, out: string)
    requires |f.lower| == |f.patterns|
  {
    && ((forall k :: 0 <= k < |f.lower| ==> !Contains(Fold(fold, line), f.lower[k])) ==> out == line)
    && forall j :: 0 <= j < |f.lower| && Contains(Fold(fold, line), f.lower[j])
                   && (forall k :: 0 <= k < j ==> !Contains(Fold(fold, line), f.lower[k])) ==>
         out == "[REDACTED \U{2014} contains " + f.patterns[j] + "]"
  }

  lemma LineOutcome(f: Filter, fold: char -> char, line: string)
    requires |f.lower| == |f.patterns|
    ensures OutcomeOf(f, fold, line, LineOut(f, fold, line))
  {
    NoneMatches(f, fold, line);
    forall j | 0 <= j < |f.lower| && Contains(Fold(fold, line), f.lower[j])
               && (forall k :: 0 <= k < j ==> !Contains(Fold(fold, line), f.lower[k]))
      ensures LineOut(f, fold, line) == Marker(f.patterns[j])
    {
      FirstMatches(f, fold, line, j);
    }
  }

  /** Redaction acts line by line: as many lines come out as went in, and each is its own line's outcome. */
  lemma RedactedByLine(f: Filter, fold: char -> char, content: string)
    requires |f.lower| == |f.patterns| && forall p :: p in f.patterns ==> OneLine(p)
    ensures Lines(Redacted(f, fold, content)) == LinesOut(f, fold, Lines(content))
    ensures |Lines(Redacted(f, fold, content))| == |Lines(content)|
    ensures forall i :: 0 <= i < |Lines(content)| ==>
      OutcomeOf(f, fold, Lines(content)[i], Lines(Redacted(f, fold, content))[i])
  {
    var ls := Lines(content);
    LinesAreLines(content);
    forall i | 0 <= i < |ls| ensures OneLine(LineOut(f, fold, ls[i])) {
      var k := First(f.lower, Fold(fold, ls[i]));
      if k < |f.patterns| {
        assert f.patterns[k] in f.patterns;
        assert OneLine(MARKER_PREFIX) && OneLine("]");
      }
    }
    LinesReadBack(LinesOut(f, fold, ls));
    forall i | 0 <= i < |ls| ensures OutcomeOf(f, fold, ls[i], LinesOut(f, fold, ls)[i]) {
      LineOutcome(f, fold, ls[i]);
    }
  }

  // ---------------------------------------------------------- the default filter

  function DefaultPatterns(): seq<string> {
    ["GITHUB_TOKEN", "API_KEY", "SECRET_KEY", "PRIVATE_KEY", "Bearer ", "password=", "token="]
  }

  function FoldAll(fold: char -> char, ps: seq<string>): seq<string> {
    seq(|ps|, i requires 0 <= i < |ps| => Fold(fold, ps[i]))
  }

  function New(fold: char -> char): (f: Filter)
    ensures Folded(f, fold)
  {
    Filter(DefaultPatterns(), FoldAll(fold, DefaultPatterns()))
  }

  /** Lower case on ASCII, and no effect on the dash of the marker. */
  ghost predicate LowersAscii(fold: char -> char) {
    && KeepsLines(fold)
    && fold('\U{2014}') == '\U{2014}'
    && forall c :: c < 128 as char ==> fold(c) == if 'A' <= c <= 'Z' then c + 32 as char else c
  }

  /** Some character of s is c and the next one is d. */
  predicate HasPair(s: string, c: char, d: char) {
    exists i :: 0 <= i < |s| - 1 && s[i] == c && s[i + 1] == d
  }

  lemma PatternHasPair(s: string, p: string, k: nat)
    requires k + 1 < |p| && Contains(s, p)
    ensures HasPair(s, p[k], p[k + 1])
  {
    var i :| 0 <= i <= |s| - |p| && OccursAt(s, p, i);
    assert s[i + k] == s[i..i + |p|][k] && s[i + k + 1] == s[i..i + |p|][k + 1];
  }

  lemma PairInJoined(s: string, t: string, c: char, d: char)
    requires HasPair(s + t, c, d)
    ensures HasPair(s, c, d) || HasPair(t, c, d) || (s != "" && t != "" && s[|s| - 1] == c && t[0] == d)
  {
    var i :| 0 <= i < |s + t| - 1 && (s + t)[i] == c && (s + t)[i + 1] == d;
    if i < |s| - 1 {
      assert s[i] == c && s[i + 1] == d;
    } else if i >= |s| {
      var j := i - |s|;
      assert t[j] == c && t[j + 1] == d;
    }
  }

  /** The default patterns in lower case, and for each but the last the place of a pair no later marker has. */
  function LowerPatterns(): seq<string> {
    ["github_token", "api_key", "secret_key", "private_key", "bearer ", "password=", "token="]
  }

  function Telling(): seq<nat> {
    [0, 1, 0, 2, 0, 0]
  }

  const FOLDED_PREFIX := "[redacted \U{2014} contains "

  lemma DefaultsFolded(fold: char -> char)
    requires LowersAscii(fold)
    ensures FoldAll(fold, DefaultPatterns()) == LowerPatterns()
  {
    assert Fold(fold, "GITHUB_TOKEN") == "github_token";
    assert Fold(fold, "API_KEY") == "api_key";
    assert Fold(fold, "SECRET_KEY") == "secret_key";
    assert Fold(fold, "PRIVATE_KEY") == "private_key";
    assert Fold(fold, "Bearer ") == "bearer ";
    assert Fold(fold, "password=") == "password=";
    assert Fold(fold, "token=") == "token=";
  }

  lemma MarkerFolded(fold: char -> char, p: string)
    requires LowersAscii(fold)
    ensures Fold(fold, Marker(p)) == FOLDED_PREFIX + Fold(fold, p) + "]"
  {
    assert Fold(fold, MARKER_PREFIX) == FOLDED_PREFIX;
    assert Fold(fold, "]") == "]";
    FoldJoined(fold, MARKER_PREFIX, p);
    FoldJoined(fold, MARKER_PREFIX + p, "]");
  }

  predicate Tells(s: string, i: nat)
    requires i < 6
  {
    !HasPair(s, LowerPatterns()[i][Telling()[i]], LowerPatterns()[i][Telling()[i] + 1])
  }

  lemma PrefixTells(i: nat)
    requires i < 6
    ensures Tells(FOLDED_PREFIX, i)
  {}

  lemma PatternTells(i: nat, j: nat)
    requires i < j < 7
    ensures Tells(LowerPatterns()[j], i)
  {}

  /** The marker of a pattern is not taken for the marker of an earlier one. */
  lemma NoEarlierPattern(i: nat, j: nat)
    requires i < j < 7
    ensures !Contains(FOLDED_PREFIX + LowerPatterns()[j] + "]", LowerPatterns()[i])
  {
    hide Contains, HasPair;
    var p, q, k := LowerPatterns()[i], LowerPatterns()[j], Telling()[i];
    var s := FOLDED_PREFIX + q + "]";
    if Contains(s, p) {
      PatternHasPair(s, p, k);
      PairInJoined(FOLDED_PREFIX + q, "]", p[k], p[k + 1]);
      assert !HasPair("]", p[k], p[k + 1]) by { NoPairInOne("]", p[k], p[k + 1]); }
      PairInJoined(FOLDED_PREFIX, q, p[k], p[k + 1]);
      PrefixTells(i);
      PatternTells(i, j);
    }
  }

  lemma NoPairInOne(s: string, c: char, d: char)
    requires |s| == 1
    ensures !HasPair(s, c, d)
  {}

  /** The marker of a default pattern contains that pattern and no earlier one, so a second look finds it again. */
  lemma MarkerNamesItself(fold: char -> char, j: nat)
    requires LowersAscii(fold) && j < 7
    ensures
      var f, marker := New(fold), Fold(fold, Marker(DefaultPatterns()[j]));
      Contains(marker, f.lower[j]) && forall i :: 0 <= i < j ==> !Contains(marker, f.lower[i])
    ensures LineOut(New(fold), fold, Marker(DefaultPatterns()[j])) == Marker(DefaultPatterns()[j])
  {
    var f, p := New(fold), LowerPatterns()[j];
    var s := FOLDED_PREFIX + p + "]";
    DefaultsFolded(fold);
    MarkerFolded(fold, DefaultPatterns()[j]);
    assert FoldAll(fold, DefaultPatterns())[j] == Fold(fold, DefaultPatterns()[j]);
    assert OccursAt(s, p, |FOLDED_PREFIX|);
    forall i | 0 <= i < j ensures !Contains(s, f.lower[i]) {
      NoEarlierPattern(i, j);
    }
    FirstIs(f.lower, s, j);
  }

  /** With the default patterns a second redaction finds nothing more to redact. */
  lemma RedactionIsIdempotent(fold: char -> char, content: string)
    requires LowersAscii(fold)
    ensures Redacted(New(fold), fold, Redacted(New(fold), fold, content)) == Redacted(New(fold), fold, content)
  {
    var f := New(fold);
    var once := LinesOut(f, fold, Lines(content));
    DefaultPatternsAreOneLine();
    RedactedByLine(f, fold, content);
    forall i | 0 <= i < |once| ensures LineOut(f, fold, once[i]) == once[i] {
      var k := First(f.lower, Fold(fold, Lines(content)[i]));
      if k < |f.patterns| {
        MarkerNamesItself(fold, k);
      }
    }
    assert LinesOut(f, fold, once) == once;
  }

  lemma DefaultPatternsAreOneLine()
    ensures forall p :: p in DefaultPatterns() ==> p != "" && OneLine(p)
  {}
}
