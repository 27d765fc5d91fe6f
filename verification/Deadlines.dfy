/** The deadline chain from the daemon's per-tool timeout to the helper's subprocess:
    `Client.Call`, `Config.OpDeadline` and `msToDuration`.

    Times and durations are nanoseconds. Instants are unbounded integers; durations and
    millisecond counts are 64-bit, and every operation on them that could wrap is written so. */
module Deadlines {
  import opened Common

  const MAX_INT64 := 0x7FFF_FFFF_FFFF_FFFF
  const MIN_INT64 := -MAX_INT64 - 1

  type Int64 = n: int | MIN_INT64 <= n <= MAX_INT64

  const MILLISECOND: Int64 := 1_000_000
  const DEFAULT_OP_DEADLINE: Int64 := 9500 * 1_000_000
  const MIN_OP_DEADLINE: Int64 := 250 * 1_000_000
  const MAX_OP_DEADLINE: Int64 := 15_000 * 1_000_000
  const HELPER_BUDGET: Int64 := 500 * 1_000_000
  const KILL_GRACE: Int64 := 500 * 1_000_000

  /** The largest count of milliseconds that fits a duration. */
  const MAX_DEADLINE_MS: Int64 := 9_223_372_036_854

  /** What 64-bit two's complement arithmetic makes of a result. */
  function Wrap(n: int): Int64 {
    var m := n % 0x1_0000_0000_0000_0000;
    if m > MAX_INT64 then m - 0x1_0000_0000_0000_0000 else m
  }

  /** Division that truncates toward zero. */
  function Quotient(a: int, b: int): int
    requires b > 0
  {
    if a >= 0 then a / b else -(-a / b)
  }

  // ---------------------------------------------------------------- the helper's side

  function MsToDuration(ms: Int64, ceiling: Int64): Int64 {
    if ms > MAX_DEADLINE_MS then ceiling
    else
      var d := Wrap(ms as int * MILLISECOND);
      if d > ceiling then ceiling else d
  }

  function OpDeadline(configured: map<string, Int64>, op: string, callerMS: Int64): Int64 {
    var d := if op in configured && configured[op] > 0 then MsToDuration(configured[op], MAX_OP_DEADLINE)
             else DEFAULT_OP_DEADLINE;
    var d1 := if d > MAX_OP_DEADLINE then MAX_OP_DEADLINE else d;
    var caller := MsToDuration(callerMS, MAX_OP_DEADLINE);
    var d2 := if callerMS > 0 && caller < d1 then caller else d1;
    if d2 < MIN_OP_DEADLINE then MIN_OP_DEADLINE else d2
  }

  // ---------------------------------------------------------------- the daemon's side

  /** `time.Until`: the distance to an instant, saturated to a duration. */
  function Until(t: int, now: int): Int64 {
    if t - now > MAX_INT64 then MAX_INT64 else if t - now < MIN_INT64 then MIN_INT64 else t - now
  }

  /** The instant the helper is given: the budget is taken off the daemon's own deadline unless
      that has already been used up. */
  function HelperInstant(deadline: int, now: int): int {
    if deadline - HELPER_BUDGET > now then deadline - HELPER_BUDGET else deadline
  }

  /** The deadline_ms of a request whose context has a deadline. The clock is read twice. */
  function SentMS(deadline: int, now: int, later: int): Int64 {
    var ns := Until(HelperInstant(deadline, now), later);
    if ns > 0 then Quotient(Wrap(ns + MILLISECOND - 1), MILLISECOND) else 1
  }

  // ---------------------------------------------------------------- no wrap-around on the helper's side

  lemma WrapFits(n: int)
    requires MIN_INT64 <= n <= MAX_INT64
    ensures Wrap(n) == n
  {
  }

  /** The conversion is the exact product capped at the ceiling if and only if the count is not
      below what a duration can hold; counts above it saturate. */
  lemma ConversionIsExactIff(ms: Int64, ceiling: Int64)
    ensures MsToDuration(ms, ceiling) == Min(ms as int * MILLISECOND, ceiling) <==> ms >= -MAX_DEADLINE_MS
  {
    if -MAX_DEADLINE_MS <= ms <= MAX_DEADLINE_MS {
      WrapFits(ms as int * MILLISECOND);
    }
  }

  /** What an operator configured for an operation, or 9.5 seconds, capped at 15 seconds. */
  function Local(configured: map<string, Int64>, op: string): int {
    if op in configured && configured[op] > 0 then Min(configured[op] as int * MILLISECOND, 15_000 * MILLISECOND)
    else 9_500 * MILLISECOND
  }

  /** For every configuration and every caller's wish, without overflow: the deadline is the
      local one, shortened to the caller's if that is shorter, and never below 250 ms. */
  lemma OpDeadlineIsExact(configured: map<string, Int64>, op: string, callerMS: Int64)
    ensures OpDeadline(configured, op, callerMS) ==
            Max(250 * MILLISECOND,
                if callerMS > 0 then Min(Local(configured, op), callerMS as int * MILLISECOND)
                else Local(configured, op))
  {
    if op in configured && configured[op] > 0 {
      ConversionIsExactIff(configured[op], MAX_OP_DEADLINE);
    }
    if callerMS > 0 {
      ConversionIsExactIff(callerMS, MAX_OP_DEADLINE);
    }
  }

  /** The deadline is always within its bounds, and no caller can lengthen it: asking for more
      never gives less, asking for nothing gives the most. */
  lemma CallerOnlyShortens(configured: map<string, Int64>, op: string, a: Int64, b: Int64)
    requires 0 < a <= b
    ensures MIN_OP_DEADLINE <= OpDeadline(configured, op, a) <= OpDeadline(configured, op, b)
            <= OpDeadline(configured, op, 0) <= MAX_OP_DEADLINE
    ensures forall c: Int64 :: c <= 0 ==> OpDeadline(configured, op, c) == OpDeadline(configured, op, 0)
  {
    OpDeadlineIsExact(configured, op, a);
    OpDeadlineIsExact(configured, op, b);
    OpDeadlineIsExact(configured, op, 0);
    forall c: Int64 | c <= 0 ensures OpDeadline(configured, op, c) == OpDeadline(configured, op, 0) {
      OpDeadlineIsExact(configured, op, c);
    }
  }

  // ---------------------------------------------------------------- the count that is sent

  /** The rounding up to whole milliseconds cannot wrap. */
  predicate RoundsSafely(deadline: int, now: int, later: int) {
    Until(HelperInstant(deadline, now), later) <= MAX_INT64 - (MILLISECOND - 1)
  }

  lemma RoundUp(ns: int)
    requires 0 < ns
    ensures var q := (ns + MILLISECOND - 1) / MILLISECOND;
            q >= 1 && ns <= q * MILLISECOND < ns + MILLISECOND
  {
  }

  /** A request with a deadline always carries a count of at least 1, which the helper cannot
      mistake for "no budget", if and only if rounding up does not wrap; that takes a deadline
      more than 292 years away. */
  lemma SentIsPositiveIff(deadline: int, now: int, later: int)
    ensures SentMS(deadline, now, later) >= 1 <==> RoundsSafely(deadline, now, later)
  {
    var ns: int := Until(HelperInstant(deadline, now), later);
    if ns > 0 {
      if RoundsSafely(deadline, now, later) {
        WrapFits(ns + MILLISECOND - 1);
        RoundUp(ns);
      } else {
        WrapsNegative(ns);
      }
    }
  }

  lemma WrapsNegative(ns: int)
    requires MAX_INT64 - (MILLISECOND - 1) < ns <= MAX_INT64
    ensures Quotient(Wrap(ns + MILLISECOND - 1), MILLISECOND) < 0
  {
    var w: int := Wrap(ns + MILLISECOND - 1);
    assert w == ns + MILLISECOND - 1 - 0x1_0000_0000_0000_0000;
    assert w <= -MILLISECOND;
    assert -w / MILLISECOND >= 1;
  }

  /** An instance of the failing family: a deadline 300 years ahead is sent as a negative count. */
  lemma DistantDeadlineIsLost()
    ensures SentMS(9_460_800_000 * 1_000_000_000, 0, 0) < 0
  {
    WrapsNegative(MAX_INT64);
  }

  /** Which instant the count is for: half a second before the daemon's own deadline as long as that
      is to come, and else the daemon's deadline itself; with none to come the count is 1. */
  lemma SentIsFor(deadline: int, now: int, later: int)
    requires now <= later && RoundsSafely(deadline, now, later)
    ensures var end := if deadline - 500 * MILLISECOND > now then deadline - 500 * MILLISECOND else deadline;
            SentMS(deadline, now, later) == if end <= later then 1 else (end - later + 999_999) / 1_000_000
  {
    var end := HelperInstant(deadline, now);
    if end > later {
      WrapFits(end - later + MILLISECOND - 1);
      RoundUp(end - later);
    }
  }

  /** The count sent is the helper's remaining time rounded up by less than a millisecond. */
  lemma SentIsRoundedUp(deadline: int, now: int, later: int)
    requires now <= later && RoundsSafely(deadline, now, later)
    requires HelperInstant(deadline, now) > later
    ensures var left := HelperInstant(deadline, now) - later;
            left <= SentMS(deadline, now, later) as int * MILLISECOND < left + MILLISECOND
  {
    var left := HelperInstant(deadline, now) - later;
    WrapFits(left + MILLISECOND - 1);
    RoundUp(left);
  }

  // ---------------------------------------------------------------- the chain

  /** What the helper may spend on a call: its deadline, then the grace before the kill. */
  function HelperSpends(configured: map<string, Int64>, op: string, deadline: int, now: int, later: int): int {
    OpDeadline(configured, op, SentMS(deadline, now, later)) as int + KILL_GRACE
  }

  /** The chain holds to within a millisecond - the helper's deadline plus the kill grace does
      not outlast what the daemon had left when it sent the request by a millisecond or more -
      if and only if the daemon had more than 749 ms left. Below that the helper's minimum
      deadline makes it outlast the daemon. */
  lemma ChainHoldsIff(configured: map<string, Int64>, op: string, deadline: int, now: int, later: int)
    requires now <= later
    ensures HelperSpends(configured, op, deadline, now, later) < deadline - later + MILLISECOND <==>
            deadline - later > 749 * MILLISECOND
  {
    var sent := SentMS(deadline, now, later);
    OpDeadlineIsExact(configured, op, sent);
    SentIsPositiveIff(deadline, now, later);
    if deadline - later > 749 * MILLISECOND && RoundsSafely(deadline, now, later) {
      SentIsRoundedUp(deadline, now, later);
    }
  }

  /** A call the chain fails: with 700 ms left the helper may take 750. */
  lemma ShortCallOutlastsTheDaemon(configured: map<string, Int64>, op: string)
    ensures HelperSpends(configured, op, 700 * MILLISECOND, 0, 0) >= 750 * MILLISECOND
  {
    var sent := SentMS(700 * MILLISECOND, 0, 0);
    OpDeadlineIsExact(configured, op, sent);
  }
}
