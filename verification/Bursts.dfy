/** Bursts of simultaneous calls on the limiter: the runs that show where its promises end. */
module Bursts {
  import opened TokenBucket
  import opened Limiter

  function Repeat(e: Event, n: nat): seq<Event> {
    if n == 0 then [] else [e] + Repeat(e, n - 1)
  }

  predicate AllAllowed(os: seq<Outcome>) {
    forall i :: 0 <= i < |os| ==> os[i] == Verdict(Allowed)
  }

  lemma {:induction false} OrderedRepeat(from: real, e: Event, n: nat)
    requires from <= e.at
    ensures Ordered(from, Repeat(e, n)) && LastTime(from, Repeat(e, n)) == if n == 0 then from else e.at
    decreases n
  {
    if n != 0 {
      OrderedRepeat(e.at, e, n - 1);
      assert Repeat(e, n)[1..] == Repeat(e, n - 1);
    }
  }

  lemma {:induction false} OrderedJoin(from: real, a: seq<Event>, b: seq<Event>)
    requires Ordered(from, a) && Ordered(LastTime(from, a), b)
    ensures Ordered(from, a + b) && LastTime(from, a + b) == LastTime(LastTime(from, a), b)
    decreases |a|
  {
    if |a| == 0 {
      assert a + b == b;
    } else {
      assert (a + b)[1..] == a[1..] + b;
      OrderedJoin(a[0].at, a[1..], b);
    }
  }

  lemma {:induction false} OutcomesJoin(cfg: Config, s: State, a: seq<Event>, b: seq<Event>, sweeping: bool)
    ensures Outcomes(cfg, s, a + b, sweeping)
         == Outcomes(cfg, s, a, sweeping) + Outcomes(cfg, After(cfg, s, a, sweeping), b, sweeping)
    decreases |a|
  {
    if |a| == 0 {
      assert a + b == b;
    } else {
      assert (a + b)[1..] == a[1..] + b;
      OutcomesJoin(cfg, Step(cfg, s, a[0], sweeping).0, a[1..], b, sweeping);
    }
  }

  /** n tokens can be taken at once from a bucket at this level. */
  predicate Affords(cfg: Cfg, level: real, n: nat) {
    (cfg.sustainedPerMin == 0 && cfg.burst == 0) || n as real <= level
  }

  /** What n allowed calls cost. */
  function Bill(cfg: Cfg, n: nat): real {
    if cfg.sustainedPerMin == 0 && cfg.burst == 0 then 0.0 else n as real
  }

  /** n simultaneous calls fit both buckets they are metered by. */
  ghost predicate AffordsCalls(cfg: Config, s: State, e: Event, n: nat)
    requires e.Call?
  {
    && Affords(cfg.global, GlobalLevel(cfg, s, e.caller, e.at), n)
    && (e.tool in cfg.perTool && !cfg.perTool[e.tool].disabled ==>
          Affords(cfg.perTool[e.tool], ToolLevel(cfg, s, e.caller, e.tool, e.at), n))
  }

  /** After n allowed calls both buckets are down by the bill. */
  ghost predicate Billed(cfg: Config, s: State, s': State, e: Event, n: nat)
    requires e.Call?
  {
    && GlobalLevel(cfg, s', e.caller, e.at) == GlobalLevel(cfg, s, e.caller, e.at) - Bill(cfg.global, n)
    && (e.tool in cfg.perTool && !cfg.perTool[e.tool].disabled ==>
          ToolLevel(cfg, s', e.caller, e.tool, e.at)
          == ToolLevel(cfg, s, e.caller, e.tool, e.at) - Bill(cfg.perTool[e.tool], n))
  }

  /** One of n simultaneous calls. */
  lemma BurstStep(cfg: Config, s: State, e: Event, n: nat, sweeping: bool)
    requires cfg.Sound() && Inv(cfg, s, e.at) && e.Call? && n > 0
    requires sweeping ==> e.at - s.lastSwept <= SWEEP_EVERY
    ensures var (s', o) := Step(cfg, s, e, sweeping);
            && Inv(cfg, s', e.at) && s'.lastSwept == s.lastSwept
            && (AffordsCalls(cfg, s, e, n) <==> o == Verdict(Allowed) && AffordsCalls(cfg, s', e, n - 1))
            && (o == Verdict(Allowed) ==> Billed(cfg, s, s', e, 1))
  {
    ChargeLaw(cfg, s, e.caller, e.tool, e.at);
    assert n as real == (n - 1) as real + 1.0 && n as real >= 1.0;
    LevelsInRange(cfg, Step(cfg, s, e, sweeping).0, e.caller, e.tool, e.at);
  }

  /** n simultaneous calls are all allowed exactly when both buckets hold n tokens, and then
      take n from each. */
  lemma {:induction false} BurstLaw(cfg: Config, s: State, e: Event, n: nat, sweeping: bool)
    requires cfg.Sound() && Inv(cfg, s, e.at) && e.Call?
    requires sweeping ==> e.at - s.lastSwept <= SWEEP_EVERY
    ensures AllAllowed(Outcomes(cfg, s, Repeat(e, n), sweeping)) <==> AffordsCalls(cfg, s, e, n)
    ensures AffordsCalls(cfg, s, e, n) ==>
              var s' := After(cfg, s, Repeat(e, n), sweeping);
              Inv(cfg, s', e.at) && s'.lastSwept == s.lastSwept && Billed(cfg, s, s', e, n)
    decreases n
  {
    if n == 0 {
      LevelsInRange(cfg, s, e.caller, e.tool, e.at);
    } else {
      var (s', o) := Step(cfg, s, e, sweeping);
      BurstStep(cfg, s, e, n, sweeping);
      BurstLaw(cfg, s', e, n - 1, sweeping);
      assert Repeat(e, n)[1..] == Repeat(e, n - 1);
      var rest := Outcomes(cfg, s', Repeat(e, n - 1), sweeping);
      assert Outcomes(cfg, s, Repeat(e, n), sweeping) == [o] + rest;
      AllAllowedSuffix([o], rest);
      assert AllAllowed([o]) <==> [o][0] == Verdict(Allowed);
    }
  }

  lemma AllAllowedSuffix(a: seq<Outcome>, b: seq<Outcome>)
    ensures AllAllowed(a + b) <==> AllAllowed(a) && AllAllowed(b)
  {
    if AllAllowed(a + b) {
      assert forall i :: 0 <= i < |a| ==> a[i] == (a + b)[i];
      assert forall i :: 0 <= i < |b| ==> b[i] == (a + b)[i + |a|];
    }
  }

  lemma SweptSide(cfg: Config, start: real, e1: Event, e2: Event, n: nat)
    requires cfg.Sound() && e1.Call? && e2 == e1.(at := e2.at) && e1.at == start && e2.at > start + IDLE
    requires AffordsCalls(cfg, Init(start), e1, n)
    ensures AllAllowed(Outcomes(cfg, After(cfg, Init(start), Repeat(e1, n), true), Repeat(e2, n), true))
  {
    InitInv(cfg, start);
    BurstLaw(cfg, Init(start), e1, n, true);
    if n > 0 {
      var s := After(cfg, Init(start), Repeat(e1, n), true);
      var p := Sweep(s, e2.at);
      SweptEmpty(cfg, s, start, e2.at);
      assert Step(cfg, s, e2, true) == Step(cfg, p, e2, true);
      assert Repeat(e2, n)[0] == e2;
      BurstLaw(cfg, p, e2, n, true);
    }
  }

  /** When nobody called for ten minutes, a sweep leaves every bucket full. */
  lemma SweptEmpty(cfg: Config, s: State, now: real, later: real)
    requires Inv(cfg, s, now) && later > now + IDLE
    ensures var p := Sweep(s, later);
            && Inv(cfg, p, later)
            && (forall c :: c !in p.globals)
            && (forall c, tool :: cfg.Metered(tool) ==> Key(c, tool) !in p.tools)
  {
  }

  lemma {:induction false} LongerThanAll(names: set<string>) returns (n: nat)
    ensures forall k :: k in names ==> |k| <= n
  {
    if names == {} {
      n := 0;
    } else {
      var k :| k in names;
      var m := LongerThanAll(names - {k});
      n := if m < |k| then |k| else m;
    }
  }

  /** Some tool has no bucket of its own. */
  lemma UnmeteredTool(cfg: Config) returns (tool: string)
    ensures !cfg.Metered(tool)
  {
    var n := LongerThanAll(cfg.perTool.Keys);
    tool := seq(n + 1, _ => 'x');
    assert |tool| == n + 1;
  }

  // ---------------------------------------------------------------- two bursts

  /** The bucket of a tool, or the global one if it has none of its own. */
  function OwnBucket(cfg: Config, tool: string): Cfg {
    if cfg.Metered(tool) then cfg.perTool[tool] else cfg.global
  }

  /** That bucket takes longer than the idle time to refill, and no smaller global burst keeps
      it from being emptied at once. */
  predicate Burstable(cfg: Config, tool: string) {
    && !OwnBucket(cfg, tool).RefillsWhileIdle()
    && (cfg.global.Unlimited() || OwnBucket(cfg, tool).burst <= cfg.global.burst)
  }

  /** A moment after the idle time, too short to gain the missing token. */
  function JustLater(cfg: Cfg): (dt: real)
    requires cfg.sustainedPerMin >= 0
    ensures dt > IDLE
  {
    IDLE + 1.0 / (cfg.sustainedPerMin as real + 1.0)
  }

  lemma NotFullYet(cfg: Cfg)
    requires cfg.NonNegative() && !cfg.RefillsWhileIdle()
    ensures Refill(cfg, 0.0, JustLater(cfg)) < cfg.burst as real
  {
    var s := cfg.sustainedPerMin as real;
    AccruedAdds(cfg, 600.0, 1.0 / (s + 1.0));
    assert Accrued(cfg, 600.0) == 10.0 * s;
    assert 1.0 / (s + 1.0) * s <= 1.0;
    assert Accrued(cfg, 1.0 / (s + 1.0)) == 1.0 / (s + 1.0) * s / 60.0;
  }

  /** Two bursts of everything the bucket holds, a moment more than the idle time apart. */
  ghost function TwoBursts(cfg: Config, start: real, c: string, tool: string): seq<Event>
    requires cfg.Sound() && Burstable(cfg, tool)
  {
    var n := OwnBucket(cfg, tool).burst;
    Repeat(Call(c, tool, start), n) + Repeat(Call(c, tool, start + JustLater(OwnBucket(cfg, tool))), n)
  }

  lemma TwoBurstsOrdered(cfg: Config, start: real, c: string, tool: string)
    requires cfg.Sound() && Burstable(cfg, tool)
    ensures var run := TwoBursts(cfg, start, c, tool);
            && Ordered(start, run) && |run| == 2 * OwnBucket(cfg, tool).burst && run[0].at == start
            && LastTime(start, run) == start + JustLater(OwnBucket(cfg, tool))
            && forall i :: 0 <= i < |run| ==> run[i].Call? && run[i].caller == c && run[i].tool == tool
  {
    var n, later := OwnBucket(cfg, tool).burst, start + JustLater(OwnBucket(cfg, tool));
    var e1, e2 := Call(c, tool, start), Call(c, tool, later);
    OrderedRepeat(start, e1, n);
    OrderedRepeat(LastTime(start, Repeat(e1, n)), e2, n);
    OrderedJoin(start, Repeat(e1, n), Repeat(e2, n));
    RepeatAll(e1, n);
    RepeatAll(e2, n);
  }

  lemma {:induction false} RepeatAll(e: Event, n: nat)
    ensures |Repeat(e, n)| == n && forall i :: 0 <= i < n ==> Repeat(e, n)[i] == e
  {
    if n > 0 {
      RepeatAll(e, n - 1);
    }
  }

  /** The limiter that sweeps lets both bursts through. */
  lemma SweptAllowsBoth(cfg: Config, start: real, c: string, tool: string)
    requires cfg.Sound() && Burstable(cfg, tool)
    ensures AllAllowed(Outcomes(cfg, Init(start), TwoBursts(cfg, start, c, tool), true))
  {
    var n, later := OwnBucket(cfg, tool).burst, start + JustLater(OwnBucket(cfg, tool));
    var e1, e2 := Call(c, tool, start), Call(c, tool, later);
    SweptSide(cfg, start, e1, e2, n);
    FirstBurst(cfg, start, e1, n, true);
    OutcomesJoin(cfg, Init(start), Repeat(e1, n), Repeat(e2, n), true);
    AllAllowedSuffix(Outcomes(cfg, Init(start), Repeat(e1, n), true),
                     Outcomes(cfg, After(cfg, Init(start), Repeat(e1, n), true), Repeat(e2, n), true));
  }

  lemma FirstBurst(cfg: Config, start: real, e: Event, n: nat, sweeping: bool)
    requires cfg.Sound() && e.Call? && e.at == start && AffordsCalls(cfg, Init(start), e, n)
    ensures AllAllowed(Outcomes(cfg, Init(start), Repeat(e, n), sweeping))
    ensures var s := After(cfg, Init(start), Repeat(e, n), sweeping);
            Inv(cfg, s, start) && Billed(cfg, Init(start), s, e, n)
  {
    InitInv(cfg, start);
    BurstLaw(cfg, Init(start), e, n, sweeping);
  }

  /** The limiter that does not sweep denies some call of the second. */
  lemma UnsweptDenies(cfg: Config, start: real, c: string, tool: string)
    requires cfg.Sound() && Burstable(cfg, tool)
    ensures !AllAllowed(Outcomes(cfg, Init(start), TwoBursts(cfg, start, c, tool), false))
  {
    var n, later := OwnBucket(cfg, tool).burst, start + JustLater(OwnBucket(cfg, tool));
    var e1, e2 := Call(c, tool, start), Call(c, tool, later);
    var s := After(cfg, Init(start), Repeat(e1, n), false);
    FirstBurst(cfg, start, e1, n, false);
    NotAffordable(cfg, s, start, e1, later);
    InvLater(cfg, s, start, later);
    BurstLaw(cfg, s, e2, n, false);
    OutcomesJoin(cfg, Init(start), Repeat(e1, n), Repeat(e2, n), false);
    AllAllowedSuffix(Outcomes(cfg, Init(start), Repeat(e1, n), false), Outcomes(cfg, s, Repeat(e2, n), false));
  }

  /** An emptied bucket cannot pay for a second burst a moment after the idle time. */
  lemma NotAffordable(cfg: Config, s: State, start: real, e: Event, later: real)
    requires cfg.Sound() && e.Call? && e.at == start && Burstable(cfg, e.tool) && Inv(cfg, s, start)
    requires Billed(cfg, Init(start), s, e, OwnBucket(cfg, e.tool).burst)
    requires later == start + JustLater(OwnBucket(cfg, e.tool))
    ensures !AffordsCalls(cfg, s, e.(at := later), OwnBucket(cfg, e.tool).burst)
  {
    NotFullYet(OwnBucket(cfg, e.tool));
    LevelsLater(cfg, s, e.caller, start, later);
  }
}
