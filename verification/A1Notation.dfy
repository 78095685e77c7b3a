/**
 A1 notation: column letters, decimal row numbers, quoted sheet titles and the range
 strings composed of them, each with a reader that recovers what was printed.
 */
module A1Notation {
  import opened Numbers
  import opened Options

  const ALPHABET_SIZE := 26

  // ------------------------------------------------------------- column letters

  function Letter(k: nat): (c: char)
    requires k < ALPHABET_SIZE
    ensures IsLetter(c) && LetterValue(c) == k
  {
    'A' + k as char
  }

  predicate IsLetter(c: char) { 'A' <= c <= 'Z' }

  function LetterValue(c: char): nat
    requires IsLetter(c)
  {
    c as int - 'A' as int
  }

  predicate IsWord(w: string) {
    |w| > 0 && forall i :: 0 <= i < |w| ==> IsLetter(w[i])
  }

  /** The letters of column `n`, most significant first. */
  function ColName(n: nat): (w: string)
    ensures IsWord(w)
  {
    if n < ALPHABET_SIZE then [Letter(n)]
    else ColName(n / ALPHABET_SIZE - 1) + [Letter(n % ALPHABET_SIZE)]
  }

  /** The column a word of letters names: the reader of `ColName`. */
  function ColValue(w: string): nat
    requires IsWord(w)
  {
    if |w| == 1 then LetterValue(w[0])
    else (ColValue(w[..|w| - 1]) + 1) * ALPHABET_SIZE + LetterValue(w[|w| - 1])
  }

  lemma {:induction false} ColNameReadsBack(n: nat)
    ensures ColValue(ColName(n)) == n
  {
    if n >= ALPHABET_SIZE {
      var w := ColName(n / ALPHABET_SIZE - 1);
      ColNameReadsBack(n / ALPHABET_SIZE - 1);
      assert (w + [Letter(n % ALPHABET_SIZE)])[..|w|] == w;
    }
  }

  lemma {:induction false} ColNameReachesEveryWord(w: string)
    requires IsWord(w)
    ensures ColName(ColValue(w)) == w
  {
    if |w| > 1 {
      var front := w[..|w| - 1];
      ColNameReachesEveryWord(front);
      assert w == front + [w[|w| - 1]];
      var n := ColValue(w);
      assert n / ALPHABET_SIZE - 1 == ColValue(front) && n % ALPHABET_SIZE == LetterValue(w[|w| - 1]);
    }
  }

  /** Shorter words first, words of one length alphabetically. */
  predicate Before(v: string, w: string) {
    |v| < |w| || (|v| == |w| && Alphabetical(v, w))
  }

  predicate Alphabetical(v: string, w: string)
    requires |v| == |w|
  {
    |v| > 0 && (v[0] < w[0] || (v[0] == w[0] && Alphabetical(v[1..], w[1..])))
  }

  lemma {:induction false} AlphabeticalByLast(v: string, w: string, c: char, d: char)
    requires |v| == |w|
    ensures Alphabetical(v + [c], w + [d]) <==> Alphabetical(v, w) || (v == w && c < d)
  {
    if |v| == 0 {
    } else {
      assert (v + [c])[1..] == v[1..] + [c] && (w + [d])[1..] == w[1..] + [d];
      AlphabeticalByLast(v[1..], w[1..], c, d);
      if v[0] == w[0] && v[1..] == w[1..] {
        assert v == [v[0]] + v[1..] && w == [w[0]] + w[1..];
      }
    }
  }

  lemma {:induction false} AlphabeticalOneWay(v: string, w: string)
    requires |v| == |w| && Alphabetical(v, w)
    ensures !Alphabetical(w, v)
  {
    if v[0] == w[0] {
      AlphabeticalOneWay(v[1..], w[1..]);
    }
  }

  lemma {:induction false} ColNameGrows(m: nat, n: nat)
    requires m < n
    ensures Before(ColName(m), ColName(n))
    decreases n
  {
    if n >= ALPHABET_SIZE && m >= ALPHABET_SIZE {
      var p, q := m / ALPHABET_SIZE - 1, n / ALPHABET_SIZE - 1;
      if p < q {
        ColNameGrows(p, q);
      }
      if |ColName(p)| == |ColName(q)| {
        AlphabeticalByLast(ColName(p), ColName(q), Letter(m % ALPHABET_SIZE), Letter(n % ALPHABET_SIZE));
      }
    }
  }

  /** Column order is exactly shorter-first, then alphabetical. */
  lemma ColNamesInOrder(m: nat, n: nat)
    ensures m < n <==> Before(ColName(m), ColName(n))
  {
    if m < n {
      ColNameGrows(m, n);
    } else {
      if n < m {
        ColNameGrows(n, m);
      }
      var v, w := ColName(m), ColName(n);
      if |v| == |w| && Alphabetical(v, w) {
        AlphabeticalOneWay(v, w);
      }
    }
  }

  /** ColIndexToA1: builds the letters from the least significant end. */
  method ColIndexToA1(col: int) returns (res: string)
    ensures res == if col < 0 then "A" else ColName(col)
  {
    if col < 0 {
      return "A";
    }
    var colIdx := col;
    res := "";
    while true
      invariant 0 <= colIdx
      invariant ColName(col) == ColName(colIdx) + res
      decreases colIdx
    {
      var rem := colIdx % ALPHABET_SIZE;
      res := [Letter(rem)] + res;
      colIdx := colIdx / ALPHABET_SIZE - 1;
      if colIdx < 0 {
        break;
      }
    }
  }

  // --------------------------------------------------------------- sheet titles

  /** strings.ReplaceAll(title, "'", "''") */
  function Doubled(title: string): string {
    if title == [] then []
    else (if title[0] == '\'' then "''" else [title[0]]) + Doubled(title[1..])
  }

  function EscapeSheetTitle(title: string): string {
    "'" + Doubled(title) + "'"
  }

  /** Reads a quoted title from just after its opening quote; also returns what follows the closing one. */
  function Unquote(s: string): Option<(string, string)> {
    if s == [] then None
    else if s[0] != '\'' then
      match Unquote(s[1..])
      case None => None
      case Some((title, rest)) => Some(([s[0]] + title, rest))
    else if |s| > 1 && s[1] == '\'' then
      match Unquote(s[2..])
      case None => None
      case Some((title, rest)) => Some((['\''] + title, rest))
    else Some(([], s[1..]))
  }

  lemma {:induction false} TitleReadsBack(title: string, rest: string)
    requires rest == [] || rest[0] != '\''
    ensures Unquote(Doubled(title) + "'" + rest) == Some((title, rest))
  {
    var s := Doubled(title) + "'" + rest;
    if title == [] {
      assert s == "'" + rest;
    } else {
      TitleReadsBack(title[1..], rest);
      var tail := Doubled(title[1..]) + "'" + rest;
      if title[0] == '\'' {
        assert s == "''" + tail && s[2..] == tail;
      } else {
        assert s == [title[0]] + tail && s[1..] == tail;
      }
      assert title == [title[0]] + title[1..];
    }
  }

  // --------------------------------------------------------------------- ranges

  /** A range of a sheet: columns from 0, rows from 1, both ends included. */
  datatype Range =
    | Cell(title: string, col: nat, row: nat)
    | Box(title: string, col0: nat, row0: nat, col1: nat, row1: nat)

  function CellText(col: nat, row: nat): string {
    ColName(col) + Dec(row)
  }

  /** The length of the longest prefix of letters, and of digits. */
  function LetterRun(s: string): (n: nat)
    ensures n <= |s| && forall i :: 0 <= i < n ==> IsLetter(s[i])
  {
    if s != [] && IsLetter(s[0]) then 1 + LetterRun(s[1..]) else 0
  }

  function DigitRun(s: string): (n: nat)
    ensures n <= |s| && forall i :: 0 <= i < n ==> IsDigit(s[i])
  {
    if s != [] && IsDigit(s[0]) then 1 + DigitRun(s[1..]) else 0
  }

  /** Reads one cell reference and returns what follows it. */
  function ReadCell(s: string): Option<(nat, nat, string)> {
    var letters := LetterRun(s);
    var digits := DigitRun(s[letters..]);
    if letters == 0 || digits == 0 then None
    else Some((ColValue(s[..letters]), ReadDec(s[letters..letters + digits]), s[letters + digits..]))
  }

  function ReadRange(s: string): Option<Range> {
    if s == [] || s[0] != '\'' then None
    else
      match Unquote(s[1..])
      case None => None
      case Some((title, rest)) =>
        if rest == [] || rest[0] != '!' then None
        else
          match ReadCell(rest[1..])
          case None => None
          case Some((c0, r0, more)) =>
            if more == [] then Some(Cell(title, c0, r0))
            else if more[0] != ':' then None
            else
              match ReadCell(more[1..])
              case None => None
              case Some((c1, r1, end)) => if end == [] then Some(Box(title, c0, r0, c1, r1)) else None
  }

  lemma {:induction false} LetterRunStops(w: string, rest: string)
    requires (forall i :: 0 <= i < |w| ==> IsLetter(w[i])) && (rest == [] || !IsLetter(rest[0]))
    ensures LetterRun(w + rest) == |w|
  {
    if w == [] {
      assert w + rest == rest;
    } else {
      assert (w + rest)[1..] == w[1..] + rest;
      LetterRunStops(w[1..], rest);
    }
  }

  lemma {:induction false} DigitRunStops(w: string, rest: string)
    requires (forall i :: 0 <= i < |w| ==> IsDigit(w[i])) && (rest == [] || !IsDigit(rest[0]))
    ensures DigitRun(w + rest) == |w|
  {
    if w == [] {
      assert w + rest == rest;
    } else {
      assert (w + rest)[1..] == w[1..] + rest;
      DigitRunStops(w[1..], rest);
    }
  }

  lemma CellReadsBack(col: nat, row: nat, rest: string)
    requires rest == [] || !IsDigit(rest[0])
    ensures ReadCell(CellText(col, row) + rest) == Some((col, row, rest))
  {
    var letters, digits := ColName(col), Dec(row);
    var s := CellText(col, row) + rest;
    assert s == letters + (digits + rest);
    LetterRunStops(letters, digits + rest);
    assert s[..|letters|] == letters && s[|letters|..] == digits + rest;
    DigitRunStops(digits, rest);
    assert s[|letters|..|letters| + |digits|] == digits && s[|letters| + |digits|..] == rest;
    ColNameReadsBack(col);
    DecReadsBack(row);
  }

  function RangeText(range: Range): string {
    match range
    case Cell(title, col, row) => EscapeSheetTitle(title) + "!" + CellText(col, row)
    case Box(title, c0, r0, c1, r1) => EscapeSheetTitle(title) + "!" + CellText(c0, r0) + ":" + CellText(c1, r1)
  }

  lemma CellRangeReadsBack(title: string, col: nat, row: nat)
    ensures ReadRange(RangeText(Cell(title, col, row))) == Some(Cell(title, col, row))
  {
    hide Doubled, Unquote, ReadCell, CellText;
    var cell := CellText(col, row);
    var rest := "!" + cell;
    var text := RangeText(Cell(title, col, row));
    assert text == "'" + (Doubled(title) + "'" + rest);
    assert text[1..] == Doubled(title) + "'" + rest;
    TitleReadsBack(title, rest);
    assert rest[1..] == cell == cell + [];
    CellReadsBack(col, row, []);
  }

  lemma BoxRangeReadsBack(title: string, c0: nat, r0: nat, c1: nat, r1: nat)
    ensures ReadRange(RangeText(Box(title, c0, r0, c1, r1))) == Some(Box(title, c0, r0, c1, r1))
  {
    hide Doubled, Unquote, ReadCell, CellText;
    var first, last := CellText(c0, r0), CellText(c1, r1);
    var more := ":" + last;
    var rest := "!" + (first + more);
    var text := RangeText(Box(title, c0, r0, c1, r1));
    assert text == "'" + (Doubled(title) + "'" + rest);
    assert text[1..] == Doubled(title) + "'" + rest;
    TitleReadsBack(title, rest);
    assert rest[1..] == first + more;
    CellReadsBack(c0, r0, more);
    assert more[1..] == last == last + [];
    CellReadsBack(c1, r1, []);
  }

  /** Every range string reads back as exactly its title and cells, whatever quotes or
      exclamation marks the title contains. */
  lemma RangeReadsBack(range: Range)
    ensures ReadRange(RangeText(range)) == Some(range)
  {
    hide ReadRange, RangeText;
    match range
    case Cell(title, col, row) => CellRangeReadsBack(title, col, row);
    case Box(title, c0, r0, c1, r1) => BoxRangeReadsBack(title, c0, r0, c1, r1);
  }

  lemma {:induction false} DoubledPlain(title: string)
    requires '\'' !in title
    ensures Doubled(title) == title
  {
    if title != [] {
      DoubledPlain(title[1..]);
    }
  }

  /** Each quote becomes two and everything around it stays. */
  lemma {:induction false} DoubledAtQuote(before: string, after: string)
    requires '\'' !in before
    ensures Doubled(before + "'" + after) == before + "''" + Doubled(after)
  {
    var title := before + "'" + after;
    if before == [] {
      assert title[1..] == after;
    } else {
      assert title[1..] == before[1..] + "'" + after;
      DoubledAtQuote(before[1..], after);
    }
  }

  lemma TitlesDoubled()
    ensures Doubled("Data") == "Data" && Doubled("It's") == "It''s"
  {
    DoubledPlain("Data");
    DoubledPlain("s");
    DoubledAtQuote("It", "s");
    assert "It's" == "It" + "'" + "s";
    assert "It''s" == "It" + "''" + "s";
  }

  lemma NamesSpelled()
    ensures ColName(0) == "A" && ColName(25) == "Z" && ColName(26) == "AA"
    ensures Dec(1) == "1" && Dec(3) == "3" && Dec(12) == "12"
  {
  }

  /** Two ranges spelled out: the title quoted, its quote doubled, columns before rows. */
  lemma RangeExample()
    ensures RangeText(Box("It's", 0, 1, 26, 12)) == "'It''s'!A1:AA12"
    ensures RangeText(Cell("Data", 25, 3)) == "'Data'!Z3"
  {
    hide Doubled, ColName, Dec;
    TitlesDoubled();
    NamesSpelled();
  }
}
