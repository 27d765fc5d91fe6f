/** One token bucket: `newBucket`, `tryTake` and `refund` of the daemon's rate limiter.

    Time is a real number of seconds on a clock that never goes back, and token
    counts are exact reals where the program uses float64. */
module TokenBucket {

  /** A bucket's configuration; `disabled` is only read for per-tool buckets. */
  datatype Cfg = Cfg(sustainedPerMin: int, burst: int, disabled: bool) {

    /** Both numbers zero: `tryTake` lets every call through without counting. */
    predicate Unlimited() {
      sustainedPerMin == 0 && burst == 0
    }

    /** Tokens accrued per second. */
    function Rate(): real {
      sustainedPerMin as real / 60.0
    }

    predicate NonNegative() {
      0 <= sustainedPerMin && 0 <= burst
    }

    /** An empty bucket is full again after the ten minutes the sweeper waits. */
    predicate RefillsWhileIdle() {
      burst <= 10 * sustainedPerMin
    }

    /** What one allowed call costs. */
    function Cost(): real {
      if Unlimited() then 0.0 else 1.0
    }

    predicate Ready(level: real) {
      Unlimited() || level >= 1.0
    }
  }

  datatype BucketState = BucketState(cfg: Cfg, tokens: real, lastFill: real, lastTouched: real)

  function NewBucket(cfg: Cfg, now: real): BucketState {
    BucketState(cfg, cfg.burst as real, now, now)
  }

  /** Tokens accrued in `dt` seconds. */
  function Accrued(cfg: Cfg, dt: real): real {
    dt * cfg.Rate()
  }

  /** Continuous accrual for `dt` seconds, capped at the burst size. */
  function Refill(cfg: Cfg, tokens: real, dt: real): real {
    var t := tokens + Accrued(cfg, dt);
    if t > cfg.burst as real then cfg.burst as real else t
  }

  function TryTake(b: BucketState, now: real): (BucketState, bool) {
    if b.cfg.Unlimited() then (b, true)
    else
      var t := Refill(b.cfg, b.tokens, now - b.lastFill);
      if t >= 1.0 then (BucketState(b.cfg, t - 1.0, now, now), true)
      else (BucketState(b.cfg, t, now, now), false)
  }

  function Refund(b: BucketState, now: real): BucketState {
    var t := b.tokens + 1.0;
    b.(tokens := if t > b.cfg.burst as real then b.cfg.burst as real else t, lastTouched := now)
  }

  /** The tokens an observer would find in the bucket at time `t`. */
  function Level(b: BucketState, t: real): real {
    Refill(b.cfg, b.tokens, t - b.lastFill)
  }

  /** What every bucket satisfies between operations. */
  predicate BucketInv(b: BucketState, now: real) {
    && b.cfg.NonNegative()
    && 0.0 <= b.tokens <= b.cfg.burst as real
    && b.lastFill <= b.lastTouched <= now
  }

  lemma AccruedGrows(cfg: Cfg, d1: real, d2: real)
    requires cfg.NonNegative() && 0.0 <= d1 <= d2
    ensures 0.0 <= Accrued(cfg, d1) <= Accrued(cfg, d2)
  {
    assert (d2 - d1) * cfg.Rate() >= 0.0;
    assert d2 * cfg.Rate() == d1 * cfg.Rate() + (d2 - d1) * cfg.Rate();
  }

  lemma AccruedAdds(cfg: Cfg, d1: real, d2: real)
    ensures Accrued(cfg, d1 + d2) == Accrued(cfg, d1) + Accrued(cfg, d2)
  {
    var r := cfg.Rate();
    assert (d1 + d2) * r == d1 * r + d2 * r;
  }

  /** What accrues between two times is what has accrued by the later less that by the earlier. */
  lemma AccruedBetween(cfg: Cfg, from: real, to: real)
    ensures Accrued(cfg, to - from) == Accrued(cfg, to) - Accrued(cfg, from)
  {
    AccruedAdds(cfg, from, to - from);
    assert from + (to - from) == to;
  }

  /** Filling for d1 and then for d2 is filling for d1 + d2: capping loses nothing. */
  lemma RefillComposes(cfg: Cfg, tokens: real, d1: real, d2: real)
    requires cfg.NonNegative() && d1 >= 0.0 && d2 >= 0.0
    ensures Refill(cfg, Refill(cfg, tokens, d1), d2) == Refill(cfg, tokens, d1 + d2)
  {
    AccruedGrows(cfg, 0.0, d1);
    AccruedGrows(cfg, 0.0, d2);
    AccruedAdds(cfg, d1, d2);
  }

  /** The level later is the level now, refilled for the time between. */
  lemma LevelLater(b: BucketState, now: real, later: real)
    requires BucketInv(b, now) && now <= later
    ensures Level(b, later) == Refill(b.cfg, Level(b, now), later - now)
  {
    RefillComposes(b.cfg, b.tokens, now - b.lastFill, later - now);
    assert now - b.lastFill + (later - now) == later - b.lastFill;
  }

  lemma LevelInRange(b: BucketState, t: real)
    requires BucketInv(b, t)
    ensures 0.0 <= Level(b, t) <= b.cfg.burst as real
  {
    AccruedGrows(b.cfg, 0.0, t - b.lastFill);
  }

  /** A full bucket stays full. */
  lemma FullStaysFull(cfg: Cfg, dt: real)
    requires cfg.NonNegative() && dt >= 0.0
    ensures Refill(cfg, cfg.burst as real, dt) == cfg.burst as real
  {
    AccruedGrows(cfg, 0.0, dt);
  }

  /** A bucket idle for more than ten minutes is full, provided it can refill in that time. */
  lemma IdleIsFull(b: BucketState, now: real)
    requires BucketInv(b, now) && b.cfg.RefillsWhileIdle() && now - b.lastTouched > 600.0
    ensures Level(b, now) == b.cfg.burst as real
  {
    AccruedGrows(b.cfg, 600.0, now - b.lastFill);
    assert Accrued(b.cfg, 600.0) == (10 * b.cfg.sustainedPerMin) as real;
  }

  /** A take succeeds exactly when the level is ready, costs exactly `Cost`, and an
      unsuccessful take leaves the level as it was. */
  lemma TakeLaw(b: BucketState, now: real)
    requires BucketInv(b, now)
    ensures var (b', ok) := TryTake(b, now);
            && BucketInv(b', now) && b'.cfg == b.cfg
            && ok == b.cfg.Ready(Level(b, now))
            && Level(b', now) == Level(b, now) - (if ok then b.cfg.Cost() else 0.0)
            && (ok && !b.cfg.Unlimited() ==> b'.lastFill == now && b'.tokens <= b.cfg.burst as real - 1.0)
  {
    LevelInRange(b, now);
    assert Accrued(b.cfg, now - now) == 0.0;
  }

  /** Refunding a take made at the same instant restores the level exactly. */
  lemma RefundLaw(b: BucketState, now: real)
    requires BucketInv(b, now) && b.cfg.Ready(Level(b, now))
    ensures var b' := Refund(TryTake(b, now).0, now);
            BucketInv(b', now) && b'.cfg == b.cfg && Level(b', now) == Level(b, now)
  {
    LevelInRange(b, now);
    assert Accrued(b.cfg, now - now) == 0.0;
  }

  /** The bucket object itself, updated in place. */
  class Bucket<K> {
    /** The map key this bucket was made for. */
    ghost const slot: K
    const cfg: Cfg
    var tokens: real
    var lastFill: real
    var lastTouched: real

    function State(): BucketState
      reads this
    {
      BucketState(cfg, tokens, lastFill, lastTouched)
    }

    constructor (ghost slot: K, cfg: Cfg, now: real)
      ensures State() == NewBucket(cfg, now) && this.slot == slot
    {
      this.slot := slot;
      this.cfg := cfg;
      tokens := cfg.burst as real;
      lastFill, lastTouched := now, now;
    }

    method TakeToken(now: real) returns (ok: bool)
      modifies this
      ensures (State(), ok) == TryTake(old(State()), now)
    {
      if cfg.sustainedPerMin == 0 && cfg.burst == 0 {
        return true;
      }
      var dt := now - lastFill;
      var rate := cfg.sustainedPerMin as real / 60.0;
      ghost var filled := Refill(cfg, tokens, dt);
      assert dt * rate == Accrued(cfg, dt);
      tokens := tokens + dt * rate;
      lastFill := now;
      if tokens > cfg.burst as real {
        tokens := cfg.burst as real;
      }
      assert tokens == filled;
      lastTouched := now;
      if tokens >= 1.0 {
        tokens := tokens - 1.0;
        return true;
      }
      return false;
    }

    method GiveBack(now: real)
      modifies this
      ensures State() == Refund(old(State()), now)
    {
      tokens := tokens + 1.0;
      if tokens > cfg.burst as real {
        tokens := cfg.burst as real;
      }
      lastTouched := now;
    }
  }
}
