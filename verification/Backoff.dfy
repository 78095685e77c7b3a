/**
  The delays of go/platform/retry/retry.go and go/retry/retry.go in their real arithmetic: durations are
  64-bit counts of nanoseconds and every product and sum wraps. The first file guards its product, the second
  does not. Jitter is a number drawn from a range, here a parameter.
*/
module Backoff {
  import opened Numbers
  import opened Options

  const MAX_INT64 := 0x7FFF_FFFF_FFFF_FFFF

  const MILLISECOND := 1_000_000
  const SECOND := 1_000 * MILLISECOND
  const BACKOFF_BASE := 100 * MILLISECOND
  const MAX_BACKOFF := 5 * SECOND
  const JITTER_FRACTION := 5
  const MAX_ATTEMPT_SHIFT := 30

  predicate Int64(x: int) {
    -MAX_INT64 - 1 <= x <= MAX_INT64
  }

  /** Two's complement: what a 64-bit register holds of an integer. */
  function Wrap(x: int): (w: int)
    ensures Int64(w) && (w - x) % WORD == 0
    ensures Int64(x) ==> w == x
  {
    var r := x % WORD;
    if r <= MAX_INT64 then r else r - WORD
  }

  function Min(x: int, y: int): int {
    if x <= y then x else y
  }

  function Pow2(n: nat): (p: int)
    ensures p >= 1
  {
    if n == 0 then 1 else 2 * Pow2(n - 1)
  }

  function Shift(attempt: int): (n: nat)
    ensures n <= MAX_ATTEMPT_SHIFT
  {
    Min(if attempt < 0 then 0 else attempt, MAX_ATTEMPT_SHIFT)
  }

  function BaseOr(base: int): (b: int)
    ensures b > 0
  {
    if base <= 0 then BACKOFF_BASE else base
  }

  function CapOr(maxCap: int): (c: int)
    ensures c > 0
  {
    if maxCap <= 0 then MAX_BACKOFF else maxCap
  }

  // --------------------------------------------------------- the two implementations

  /** The guarded form before jitter, for a base and a cap that are already positive. */
  function GuardedDelay(attempt: int, base: int, maxCap: int): int
    requires base > 0
  {
    if base >= maxCap then maxCap
    else
      var multiplier := Wrap(Pow2(Shift(attempt)));
      if multiplier >= Wrap(maxCap / base + 1) then maxCap
      else Min(Wrap(multiplier * base), maxCap)
  }

  /** The same without the guard. */
  function UnguardedDelay(attempt: int, base: int, maxCap: int): int {
    Min(Wrap(Wrap(Pow2(Shift(attempt))) * base), maxCap)
  }

  /** The values jitter can draw. */
  predicate Jitter(draw: int, ceiling: int) {
    if ceiling <= 0 then draw == 0 else 0 <= draw < ceiling
  }

  function BackoffWithConfig(attempt: int, base: int, maxCap: int, draw: int): int {
    Wrap(GuardedDelay(attempt, BaseOr(base), CapOr(maxCap)) + draw)
  }

  /** The ceiling that the code hands to jitter. */
  function Ceiling(attempt: int, base: int, maxCap: int): int {
    GuardedDelay(attempt, BaseOr(base), CapOr(maxCap)) / JITTER_FRACTION
  }

  // --------------------------------------------------------------- what they promise

  /** The promised delay, in integers without bound. */
  function Exact(attempt: int, base: int, maxCap: int): int {
    Min(Pow2(Shift(attempt)) * base, maxCap)
  }

  lemma {:induction false} Pow2Grows(m: nat, n: nat)
    requires m <= n
    ensures Pow2(m) <= Pow2(n)
  {
    if m < n {
      Pow2Grows(m, n - 1);
    }
  }

  lemma {:induction false} Pow2Adds(m: nat, n: nat)
    ensures Pow2(m + n) == Pow2(m) * Pow2(n)
  {
    if n > 0 {
      Pow2Adds(m, n - 1);
    }
  }

  lemma Pow2Values()
    ensures Pow2(5) == 0x20 && Pow2(6) == 0x40 && Pow2(30) == 0x4000_0000
  {
    assert Pow2(2) == 4;
    assert Pow2(4) == 16;
    assert Pow2(5) == 32;
    Pow2Adds(5, 5);
    Pow2Adds(10, 10);
    Pow2Adds(20, 10);
  }

  lemma MultiplierFits(attempt: int)
    ensures 1 <= Pow2(Shift(attempt)) <= 0x4000_0000
  {
    Pow2Values();
    Pow2Grows(Shift(attempt), 30);
  }

  /** The guard compares against the quotient, so that the product is formed only when it stays within the cap. */
  lemma GuardDecides(m: int, base: int, maxCap: int)
    requires 0 < m && 0 < base && 0 < maxCap
    ensures m >= maxCap / base + 1 <==> m * base > maxCap
  {
    var q := maxCap / base;
    assert q * base <= maxCap < (q + 1) * base by {
      assert maxCap == q * base + maxCap % base;
    }
    if m >= q + 1 {
      assert m * base >= (q + 1) * base by { Monotone(q + 1, m, base); }
    } else {
      assert m * base <= q * base by { Monotone(m, q, base); }
    }
  }

  lemma Monotone(x: int, y: int, z: int)
    requires x <= y && 0 <= z
    ensures x * z <= y * z
  {}

  /** In 64 bits the guard decides the same, but for the one pair whose quotient leaves no room for one more. */
  lemma GuardDecidesWrapped(m: int, base: int, maxCap: int)
    requires 1 <= m <= 0x4000_0000 && 0 < base < maxCap <= MAX_INT64
    ensures m >= Wrap(maxCap / base + 1) <==> m * base > maxCap || (base == 1 && maxCap == MAX_INT64)
  {
    GuardDecides(m, base, maxCap);
    QuotientFits(base, maxCap);
    if base == 1 && maxCap == MAX_INT64 {
      assert Wrap(MAX_INT64 + 1) < 0;
    }
  }

  /**
    The guarded form computes the promised delay for every base and cap a duration can hold, but for one pair: with
    base 1 and the largest cap the guard itself overflows, and the delay is the cap from the first attempt on.
  */
  lemma GuardedIsExact(attempt: int, base: int, maxCap: int)
    requires 0 < base <= MAX_INT64 && 0 < maxCap <= MAX_INT64
    ensures GuardedDelay(attempt, base, maxCap) == Exact(attempt, base, maxCap) <==> base > 1 || maxCap < MAX_INT64
    ensures base == 1 && maxCap == MAX_INT64 ==> GuardedDelay(attempt, base, maxCap) == MAX_INT64
  {
    var m := Pow2(Shift(attempt));
    MultiplierFits(attempt);
    var product := m * base;
    assert base <= product by { Monotone(1, m, base); }
    if base < maxCap {
      GuardDecidesWrapped(m, base, maxCap);
      GuardedBy(attempt, base, maxCap, m, product);
    }
  }

  lemma GuardedBy(attempt: int, base: int, maxCap: int, m: int, product: int)
    requires 0 < base < maxCap <= MAX_INT64
    requires m == Wrap(m) == Pow2(Shift(attempt)) && product == m * base
    ensures GuardedDelay(attempt, base, maxCap) ==
            if m >= Wrap(maxCap / base + 1) then maxCap else Min(Wrap(product), maxCap)
  {}

  lemma QuotientFits(base: int, maxCap: int)
    requires 0 < base < maxCap <= MAX_INT64
    ensures 0 < maxCap / base
    ensures maxCap / base + 1 <= MAX_INT64 <==> base > 1 || maxCap < MAX_INT64
  {
    var q := maxCap / base;
    assert maxCap == q * base + maxCap % base;
    if base > 1 {
      if q >= MAX_INT64 {
        assert q * base >= MAX_INT64 * base by { Monotone(MAX_INT64, q, base); }
        assert false;
      }
    } else {
      assert q == maxCap;
    }
    if q <= 0 {
      assert q * base <= 0 by { Monotone(q, 0, base); }
      assert false;
    }
  }

  /** A later attempt never waits less. */
  lemma GuardedMonotone(earlier: int, later: int, base: int, maxCap: int)
    requires earlier <= later && 0 < base <= MAX_INT64 && 0 < maxCap <= MAX_INT64
    ensures 0 < GuardedDelay(earlier, base, maxCap) <= GuardedDelay(later, base, maxCap) <= maxCap
  {
    GuardedIsExact(earlier, base, maxCap);
    GuardedIsExact(later, base, maxCap);
    Pow2Grows(Shift(earlier), Shift(later));
    Monotone(1, Pow2(Shift(earlier)), base);
    Monotone(Pow2(Shift(earlier)), Pow2(Shift(later)), base);
  }

  /** The unguarded form keeps the promise exactly when its product fits, or wraps to something past the cap. */
  lemma UnguardedIsExact(attempt: int, base: int, maxCap: int)
    requires 0 < base <= MAX_INT64 && 0 < maxCap <= MAX_INT64
    ensures UnguardedDelay(attempt, base, maxCap) == Exact(attempt, base, maxCap) <==>
            Pow2(Shift(attempt)) * base <= MAX_INT64 || maxCap <= Wrap(Pow2(Shift(attempt)) * base)
  {
    MultiplierFits(attempt);
    Monotone(1, Pow2(Shift(attempt)), base);
  }

  /** Where the unguarded product fits, guarding changes nothing. */
  lemma GuardedRefinesUnguarded(attempt: int, base: int, maxCap: int)
    requires 0 < base <= MAX_INT64 && 0 < maxCap <= MAX_INT64 && (base > 1 || maxCap < MAX_INT64)
    requires Pow2(Shift(attempt)) * base <= MAX_INT64
    ensures GuardedDelay(attempt, base, maxCap) == UnguardedDelay(attempt, base, maxCap)
  {
    GuardedIsExact(attempt, base, maxCap);
    UnguardedIsExact(attempt, base, maxCap);
  }

  /** A base of ten seconds is enough to turn the unguarded delay of attempt 30 negative: no wait at all. */
  lemma UnguardedCanBeNegative()
    ensures UnguardedDelay(30, 10 * SECOND, 60 * SECOND) < 0
    ensures GuardedDelay(30, 10 * SECOND, 60 * SECOND) == 60 * SECOND
  {
    GuardedIsExact(30, 10 * SECOND, 60 * SECOND);
    Pow2Values();
    assert Wrap(0x4000_0000 * (10 * SECOND)) == 0x4000_0000 * (10 * SECOND) - WORD;
  }

  lemma SumWraps(b: int, draw: int)
    requires 0 < b <= MAX_INT64 && 0 <= draw <= b
    ensures Wrap(b + draw) == if b + draw <= MAX_INT64 then b + draw else b + draw - WORD
  {}

  /** Whatever is drawn, adding jitter stays within a fifth of the delay, if and only if the sums fit. */
  lemma JitterWithinAFifth(attempt: int, base: int, maxCap: int)
    requires base <= MAX_INT64 && maxCap <= MAX_INT64
    ensures
      var b := GuardedDelay(attempt, BaseOr(base), CapOr(maxCap));
      (forall draw :: Jitter(draw, Ceiling(attempt, base, maxCap)) ==>
         b <= BackoffWithConfig(attempt, base, maxCap, draw) <= b + b / JITTER_FRACTION) <==>
      b < JITTER_FRACTION || b + b / JITTER_FRACTION - 1 <= MAX_INT64
  {
    hide GuardedDelay, Wrap;
    var b, ceiling := GuardedDelay(attempt, BaseOr(base), CapOr(maxCap)), Ceiling(attempt, base, maxCap);
    GuardedMonotone(attempt, attempt, BaseOr(base), CapOr(maxCap));
    forall draw | Jitter(draw, ceiling)
      ensures BackoffWithConfig(attempt, base, maxCap, draw) ==
              if b + draw <= MAX_INT64 then b + draw else b + draw - WORD
    {
      SumWraps(b, draw);
    }
    if b >= JITTER_FRACTION && b + ceiling - 1 > MAX_INT64 {
      assert Jitter(ceiling - 1, ceiling);
      assert BackoffWithConfig(attempt, base, maxCap, ceiling - 1) < b;
    }
  }

  /**
    A cap of at most five sixths of the largest duration is safe at every attempt and for every draw: the multiplier,
    the guard's sum, the product when it is formed and the sum with the jitter all fit.
  */
  lemma ModestCapNeverOverflows(attempt: int, base: int, maxCap: int, draw: int)
    requires base <= MAX_INT64 && 6 * CapOr(maxCap) <= 5 * MAX_INT64
    requires Jitter(draw, Ceiling(attempt, base, maxCap))
    ensures
      var b, c, m := BaseOr(base), CapOr(maxCap), Pow2(Shift(attempt));
      && Int64(m)
      && (b < c ==> Int64(c / b + 1))
      && (b < c && m < c / b + 1 ==> Int64(m * b))
      && Int64(GuardedDelay(attempt, b, c) + draw)
    ensures
      var e := Exact(attempt, BaseOr(base), CapOr(maxCap));
      e <= BackoffWithConfig(attempt, base, maxCap, draw) <= e + e / JITTER_FRACTION
  {
    var b, c := BaseOr(base), CapOr(maxCap);
    GuardNeverOverflows(attempt, b, c);
    GuardedIsExact(attempt, b, c);
    GuardedMonotone(attempt, attempt, b, c);
    JitterWithinAFifth(attempt, base, maxCap);
    hide GuardedDelay, Exact, Wrap;
  }

  lemma GuardNeverOverflows(attempt: int, base: int, maxCap: int)
    requires 0 < base <= MAX_INT64 && 0 < maxCap && 6 * maxCap <= 5 * MAX_INT64
    ensures Int64(Pow2(Shift(attempt)))
    ensures base < maxCap ==> Int64(maxCap / base + 1)
    ensures base < maxCap && Pow2(Shift(attempt)) < maxCap / base + 1 ==> Int64(Pow2(Shift(attempt)) * base)
  {
    MultiplierFits(attempt);
    if base < maxCap {
      QuotientFits(base, maxCap);
      GuardDecides(Pow2(Shift(attempt)), base, maxCap);
      Monotone(0, Pow2(Shift(attempt)), base);
    }
  }

  /** The promised delay in plain terms: the base doubled per attempt, thirty times at most, up to the cap. */
  lemma ExactMeans(attempt: int, base: int, maxCap: int)
    ensures
      var b := if base > 0 then base else 100_000_000;
      var c := if maxCap > 0 then maxCap else 5_000_000_000;
      && (attempt <= 0 ==> Exact(attempt, BaseOr(base), CapOr(maxCap)) == if b <= c then b else c)
      && (0 < attempt <= 30 ==>
            Exact(attempt, BaseOr(base), CapOr(maxCap)) == if Pow2(attempt) * b <= c then Pow2(attempt) * b else c)
      && (attempt > 30 ==>
            Exact(attempt, BaseOr(base), CapOr(maxCap)) == if 0x4000_0000 * b <= c then 0x4000_0000 * b else c)
  {
    Pow2Values();
    assert Pow2(0) == 1;
  }

  /** What the code computes is that delay and the jitter drawn for it, whenever the cap is modest. */
  lemma BackoffMeans(attempt: int, base: int, maxCap: int, draw: int)
    requires base <= MAX_INT64 && 6 * CapOr(maxCap) <= 5 * MAX_INT64
    requires Jitter(draw, Exact(attempt, BaseOr(base), CapOr(maxCap)) / 5)
    ensures BackoffWithConfig(attempt, base, maxCap, draw) == Exact(attempt, BaseOr(base), CapOr(maxCap)) + draw
  {
    GuardedIsExact(attempt, BaseOr(base), CapOr(maxCap));
    ModestCapNeverOverflows(attempt, base, maxCap, draw);
  }

  function DefaultBackoff(attempt: int, draw: int): int {
    BackoffWithConfig(attempt, BACKOFF_BASE, MAX_BACKOFF, draw)
  }

  function Scheduled(attempt: nat): int {
    if attempt <= 5 then Pow2(attempt) * BACKOFF_BASE else MAX_BACKOFF
  }

  lemma ScheduledIsExact(attempt: nat)
    ensures Exact(attempt, BACKOFF_BASE, MAX_BACKOFF) == Scheduled(attempt)
    ensures BACKOFF_BASE <= Scheduled(attempt) <= MAX_BACKOFF
  {
    var m := Pow2(Shift(attempt));
    Pow2Values();
    if attempt <= 5 {
      Pow2Grows(attempt, 5);
    } else {
      Pow2Grows(6, Shift(attempt));
      Monotone(64, m, BACKOFF_BASE);
    }
  }

  /** The documented schedule: a hundred milliseconds doubling five times, then five seconds, plus up to a fifth. */
  lemma DefaultSchedule(attempt: nat, draw: int)
    requires Jitter(draw, Ceiling(attempt, BACKOFF_BASE, MAX_BACKOFF))
    ensures Scheduled(attempt) <= DefaultBackoff(attempt, draw) <= Scheduled(attempt) + Scheduled(attempt) / 5
  {
    ScheduledIsExact(attempt);
    ModestCapNeverOverflows(attempt, BACKOFF_BASE, MAX_BACKOFF, draw);
  }

  // ----------------------------------------------------------------------- Retry-After

  /** The header of a response, as read by the parsers of the standard library; a date is its distance from now. */
  datatype RetryAfter = Absent | Malformed | Seconds(secs: int) | Date(ahead: int)

  function RetryAfterDelay(header: RetryAfter): Option<int> {
    match header
    case Absent => None
    case Malformed => None
    case Seconds(secs) => if secs < 0 then None else Some(Wrap(Wrap(secs) * SECOND))
    case Date(ahead) => Some(if ahead < 0 then 0 else ahead)
  }

  const TOO_MANY_REQUESTS := 429
  const SERVICE_UNAVAILABLE := 503

  /** How long to wait after an attempt; `status` is None when it failed without a response. */
  function RetryDelay(attempt: int, status: Option<int>, header: RetryAfter, draw: int): int {
    if status.Some? && (status.value == TOO_MANY_REQUESTS || status.value == SERVICE_UNAVAILABLE)
       && RetryAfterDelay(header).Some?
    then Min(RetryAfterDelay(header).value, MAX_BACKOFF)
    else DefaultBackoff(attempt, draw)
  }

  /** A delay in seconds is honoured up to the cap whenever it fits a duration. */
  const LARGEST_SECONDS := 9223372036

  lemma SecondsExactWhenTheyFit(secs: int)
    requires 0 <= secs <= MAX_INT64
    ensures RetryAfterDelay(Seconds(secs)) == Some(secs * SECOND) <==> secs <= LARGEST_SECONDS
  {
    assert LARGEST_SECONDS * SECOND <= MAX_INT64 < (LARGEST_SECONDS + 1) * SECOND;
  }

  lemma HugeSecondsOverflow()
    ensures RetryAfterDelay(Seconds(9223372037)) == Some(9223372037 * SECOND - WORD)
  {
    assert Wrap(9223372037 * SECOND) == 9223372037 * SECOND - WORD;
  }

  lemma HeaderDelay(header: RetryAfter)
    requires RetryAfterDelay(header).Some? && (!header.Seconds? || header.secs <= LARGEST_SECONDS)
    ensures RetryAfterDelay(header).value >= 0
  {
    if header.Seconds? {
      SecondsExactWhenTheyFit(header.secs);
    }
  }

  /** A Retry-After on 429 or 503 is waited out up to five seconds, with nothing added; else the schedule applies. */
  lemma RetryAfterIsHonoured(attempt: nat, status: Option<int>, header: RetryAfter, draw: int)
    ensures
      var paced := status == Some(429) || status == Some(503);
      match header
      case Seconds(secs) =>
        && (paced && 0 <= secs <= 5 ==> RetryDelay(attempt, status, header, draw) == secs * 1_000_000_000)
        && (paced && 5 < secs <= LARGEST_SECONDS ==> RetryDelay(attempt, status, header, draw) == 5_000_000_000)
        && (!paced || secs < 0 ==> RetryDelay(attempt, status, header, draw) == DefaultBackoff(attempt, draw))
      case Date(ahead) =>
        RetryDelay(attempt, status, header, draw) ==
          if !paced then DefaultBackoff(attempt, draw)
          else if ahead <= 0 then 0 else if ahead <= 5_000_000_000 then ahead else 5_000_000_000
      case _ => RetryDelay(attempt, status, header, draw) == DefaultBackoff(attempt, draw)
  {
    hide DefaultBackoff;
    if header.Seconds? && 0 <= header.secs <= LARGEST_SECONDS {
      SecondsExactWhenTheyFit(header.secs);
    }
  }

  /** No wait is longer than the cap and a fifth; a server that asks for 9223372037 seconds gets none at all. */
  lemma WaitIsCapped(attempt: nat, status: Option<int>, header: RetryAfter, draw: int)
    requires Jitter(draw, Ceiling(attempt, BACKOFF_BASE, MAX_BACKOFF))
    ensures RetryDelay(attempt, status, header, draw) <= MAX_BACKOFF + MAX_BACKOFF / JITTER_FRACTION
    ensures !header.Seconds? || header.secs <= LARGEST_SECONDS ==> 0 <= RetryDelay(attempt, status, header, draw)
    ensures RetryDelay(attempt, Some(TOO_MANY_REQUESTS), Seconds(9223372037), draw) < 0
  {
    DefaultSchedule(attempt, draw);
    ScheduledIsExact(attempt);
    hide DefaultBackoff, Scheduled, RetryAfterDelay, Ceiling;
    HugeSecondsOverflow();
    if RetryAfterDelay(header).Some? && (!header.Seconds? || header.secs <= LARGEST_SECONDS) {
      HeaderDelay(header);
    }
  }
}
