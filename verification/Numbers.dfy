/** Machine words, and decimal numbers with a reader that recovers what was printed. */
module Numbers {
  /** The number of values a 64-bit word can hold. */
  const WORD := 0x1_0000_0000_0000_0000

  predicate IsDigit(c: char) { '0' <= c <= '9' }

  function Dec(n: nat): (s: string)
    ensures |s| > 0 && forall i :: 0 <= i < |s| ==> IsDigit(s[i])
  {
    if n < 10 then ['0' + n as char] else Dec(n / 10) + ['0' + (n % 10) as char]
  }

  function ReadDec(s: string): nat
    requires forall i :: 0 <= i < |s| ==> IsDigit(s[i])
  {
    if s == [] then 0 else
      assert IsDigit(s[|s| - 1]);
      ReadDec(s[..|s| - 1]) * 10 + (s[|s| - 1] as int - '0' as int)
  }

  lemma {:induction false} DecReadsBack(n: nat)
    ensures ReadDec(Dec(n)) == n
  {
    if n >= 10 {
      DecReadsBack(n / 10);
      var s := Dec(n / 10);
      assert (s + ['0' + (n % 10) as char])[..|s|] == s;
    } else {
      assert Dec(n)[..0] == [];
    }
  }
}
