/** strings.Fields, strings.TrimSpace, strings.Join and strings.Cut, on sequences of characters. */
module Words {

  /** unicode.IsSpace */
  predicate IsSpace(c: char) {
    || c in {'\t', '\n', '\U{0B}', '\U{0C}', '\r', ' ', '\U{85}', '\U{A0}'}
    || c in {'\U{1680}', '\U{2028}', '\U{2029}', '\U{202F}', '\U{205F}', '\U{3000}'}
    || '\U{2000}' <= c <= '\U{200A}'
  }

  /** No space anywhere. */
  predicate Solid(s: string) {
    forall i :: 0 <= i < |s| ==> !IsSpace(s[i])
  }

  /** The length of the first word of a string that starts with one. */
  function WordLen(s: string): (n: nat)
    ensures n <= |s| && Solid(s[..n]) && (n < |s| ==> IsSpace(s[n]))
    ensures s != [] && !IsSpace(s[0]) ==> n > 0
  {
    if s == [] || IsSpace(s[0]) then 0
    else
      var n := 1 + WordLen(s[1..]);
      assert s[..n] == [s[0]] + s[1..][..n - 1];
      n
  }

  function Fields(s: string): seq<string>
    decreases |s|
  {
    if s == [] then []
    else if IsSpace(s[0]) then Fields(s[1..])
    else [s[..WordLen(s)]] + Fields(s[WordLen(s)..])
  }

  /** Non-empty and without spaces. */
  predicate IsWord(w: string) { w != [] && Solid(w) }

  predicate AllWords(ws: seq<string>) {
    forall i :: 0 <= i < |ws| ==> IsWord(ws[i])
  }

  function Join(ws: seq<string>): string {
    if ws == [] then [] else if |ws| == 1 then ws[0] else ws[0] + " " + Join(ws[1..])
  }

  function TrimLeft(s: string): string {
    if s != [] && IsSpace(s[0]) then TrimLeft(s[1..]) else s
  }

  function TrimRight(s: string): string {
    if s != [] && IsSpace(s[|s| - 1]) then TrimRight(s[..|s| - 1]) else s
  }

  function TrimSpace(s: string): string {
    TrimRight(TrimLeft(s))
  }

  predicate HasEquals(s: string) { exists i :: 0 <= i < |s| && s[i] == '=' }

  /** strings.Cut(s, "=") for a string that has one. */
  function CutEquals(s: string): (kv: (string, string))
    requires HasEquals(s)
    ensures !HasEquals(kv.0) && kv.0 + "=" + kv.1 == s
  {
    if s[0] == '=' then ([], s[1..])
    else
      var (k, v) := CutEquals(s[1..]);
      assert s == [s[0]] + s[1..];
      ([s[0]] + k, v)
  }

  lemma {:induction false} CutAtFirst(key: string, value: string)
    requires !HasEquals(key)
    ensures HasEquals(key + "=" + value) && CutEquals(key + "=" + value) == (key, value)
  {
    var s := key + "=" + value;
    assert s[|key|] == '=';
    if key == [] {
      assert s[1..] == value;
    } else {
      assert s[0] == key[0];
      assert s[1..] == key[1..] + "=" + value;
      forall i | 0 <= i < |key[1..]| ensures key[1..][i] != '=' { assert key[1..][i] == key[i + 1]; }
      CutAtFirst(key[1..], value);
      assert key == [key[0]] + key[1..];
    }
  }

  lemma {:induction false} FieldsAreWords(s: string)
    ensures AllWords(Fields(s))
    decreases |s|
  {
    if s == [] {
    } else if IsSpace(s[0]) {
      FieldsAreWords(s[1..]);
    } else {
      FieldsAreWords(s[WordLen(s)..]);
    }
  }

  lemma {:induction false} WordLenStops(w: string, rest: string)
    requires rest == [] || IsSpace(rest[0])
    ensures WordLen(w + rest) == WordLen(w)
  {
    if w == [] {
      assert w + rest == rest;
    } else if !IsSpace(w[0]) {
      assert (w + rest)[1..] == w[1..] + rest;
      WordLenStops(w[1..], rest);
    }
  }

  lemma FieldsOfSpace(s: string)
    requires s != [] && IsSpace(s[0])
    ensures Fields(s) == Fields(s[1..])
  {}

  lemma FieldsOfLeadingWord(s: string)
    requires s != [] && !IsSpace(s[0])
    ensures Fields(s) == [s[..WordLen(s)]] + Fields(s[WordLen(s)..])
  {}

  lemma NoFields()
    ensures Fields([]) == []
  {}

  /** The first word ends before the space if it began before it. */
  lemma WordBeforeSpace(a: string, sp: char, b: string)
    requires IsSpace(sp) && a != [] && !IsSpace(a[0])
    ensures
      var s, n := a + [sp] + b, WordLen(a);
      WordLen(s) == n && s[..n] == a[..n] && s[n..] == a[n..] + [sp] + b
  {
    hide WordLen;
    assert a + [sp] + b == a + ([sp] + b);
    WordLenStops(a, [sp] + b);
  }

  /** A space between two strings separates their fields. */
  lemma {:induction false} FieldsSplit(a: string, sp: char, b: string)
    requires IsSpace(sp)
    ensures Fields(a + [sp] + b) == Fields(a) + Fields(b)
    decreases |a|
  {
    var s := a + [sp] + b;
    if a == [] {
      NoFields();
      hide Fields, WordLen, Solid;
      assert s[1..] == b;
      FieldsOfSpace(s);
    } else if IsSpace(a[0]) {
      hide Fields, WordLen, Solid;
      assert s[1..] == a[1..] + [sp] + b;
      FieldsOfSpace(s);
      FieldsOfSpace(a);
      FieldsSplit(a[1..], sp, b);
    } else {
      hide Fields, WordLen, Solid;
      WordBeforeSpace(a, sp, b);
      FieldsOfLeadingWord(s);
      FieldsOfLeadingWord(a);
      FieldsSplit(a[WordLen(a)..], sp, b);
    }
  }

  lemma {:induction false} WordLenSolid(w: string)
    requires Solid(w)
    ensures WordLen(w) == |w|
  {
    if w != [] {
      assert Solid(w[1..]);
      WordLenSolid(w[1..]);
    }
  }

  lemma FieldsOfWord(w: string)
    requires IsWord(w)
    ensures Fields(w) == [w]
  {
    WordLenSolid(w);
    assert w[..|w|] == w && w[|w|..] == [];
  }

  lemma {:induction false} FieldsOfJoin(ws: seq<string>)
    requires AllWords(ws)
    ensures Fields(Join(ws)) == ws
  {
    if |ws| == 1 {
      FieldsOfWord(ws[0]);
    } else if |ws| > 1 {
      FieldsSplit(ws[0], ' ', Join(ws[1..]));
      FieldsOfWord(ws[0]);
      FieldsOfJoin(ws[1..]);
    }
  }

  lemma {:induction false} FieldsTrimLeft(s: string)
    ensures Fields(TrimLeft(s)) == Fields(s)
  {
    if s != [] && IsSpace(s[0]) {
      FieldsTrimLeft(s[1..]);
    }
  }

  lemma {:induction false} FieldsTrimRight(s: string)
    ensures Fields(TrimRight(s)) == Fields(s)
  {
    if s != [] && IsSpace(s[|s| - 1]) {
      var front := s[..|s| - 1];
      FieldsTrimRight(front);
      assert s == front + [s[|s| - 1]] + [];
      FieldsSplit(front, s[|s| - 1], []);
    }
  }

  /** Trimming changes no field. */
  lemma FieldsTrimSpace(s: string)
    ensures Fields(TrimSpace(s)) == Fields(s)
  {
    FieldsTrimLeft(s);
    FieldsTrimRight(TrimLeft(s));
  }
}
