/** Exactly when sweeping idle buckets can be noticed.

    `Limiter.SweepingIsInvisible` is one half. Here is the other: a bucket that can deny a call
    and is swept before it has refilled answers some run differently from one that is kept. */
module LimiterSweep {
  import opened TokenBucket
  import opened Limiter
  import opened Bursts

  // ---------------------------------------------------------------- calls at the global rate

  /** A tool's bucket that is too large to be emptied at once but slower than the global one, so
      that calls at the global rate empty it. */
  predicate Drainable(cfg: Config, tool: string) {
    && cfg.Sound() && cfg.Metered(tool) && !cfg.perTool[tool].RefillsWhileIdle()
    && cfg.global.burst > 0
    && cfg.perTool[tool].sustainedPerMin < cfg.global.sustainedPerMin
  }

  /** The time in which the global bucket gains one token. */
  function Pace(cfg: Config): real
    requires cfg.global.sustainedPerMin > 0
  {
    60.0 / cfg.global.sustainedPerMin as real
  }

  /** What calls at that pace take from the tool's bucket, each. */
  function Drop(cfg: Config, tool: string): real
    requires Drainable(cfg, tool)
  {
    1.0 - Accrued(cfg.perTool[tool], Pace(cfg))
  }

  lemma DropLaw(cfg: Config, tool: string)
    requires Drainable(cfg, tool)
    ensures Pace(cfg) > 0.0 && Accrued(cfg.global, Pace(cfg)) == 1.0
    ensures 0.0 < Drop(cfg, tool) <= 1.0
    ensures Drop(cfg, tool) * cfg.global.sustainedPerMin as real >= 1.0
  {
    var g, t := cfg.global.sustainedPerMin as real, cfg.perTool[tool].sustainedPerMin as real;
    assert Accrued(cfg.global, 60.0 / g) == 60.0 / g * g / 60.0 == 1.0;
    assert Accrued(cfg.perTool[tool], 60.0 / g) == 60.0 / g * t / 60.0 == t / g;
    assert t / g * g == t && g - t >= 1.0;
    assert (1.0 - t / g) * g == g - t;
  }

  /** What a level must be below to be under one token after m drops. */
  function Reach(m: nat, drop: real): real {
    if m == 0 then 1.0 else Reach(m - 1, drop) + drop
  }

  /** A multiple grows by one step at a time. */
  predicate Grows(mul: nat -> real, k: nat, d: real) {
    mul(k + 1) == mul(k) + d
  }

  lemma {:induction false} ReachIs(m: nat, drop: real, mul: nat -> real)
    requires mul(0) == 0.0 && forall k :: Grows(mul, k, drop)
    ensures Reach(m, drop) == 1.0 + mul(m)
    decreases m
  {
    if m > 0 {
      ReachIs(m - 1, drop, mul);
      assert Grows(mul, m - 1, drop);
    }
  }

  lemma NextMultiple(k: real, n: real, d: real)
    requires n == k + 1.0
    ensures n * d == k * d + d
  {
  }

  lemma ReachProduct(m: nat, drop: real)
    ensures Reach(m, drop) == 1.0 + m as real * drop
  {
    var mul := (k: nat) => k as real * drop;
    forall k ensures Grows(mul, k, drop) {
      NextMultiple(k as real, (k + 1) as real, drop);
    }
    ReachIs(m, drop, mul);
  }

  /** So many paced calls are more than the bucket holds. */
  lemma EnoughCalls(cfg: Config, tool: string) returns (m: nat)
    requires Drainable(cfg, tool)
    ensures cfg.perTool[tool].burst as real < Reach(m, Drop(cfg, tool))
  {
    DropLaw(cfg, tool);
    m := cfg.perTool[tool].burst * cfg.global.sustainedPerMin;
    ReachProduct(m, Drop(cfg, tool));
    Multiples(cfg.perTool[tool].burst, cfg.global.sustainedPerMin, Drop(cfg, tool));
  }

  lemma Multiples(b: nat, g: nat, d: real)
    requires d * g as real >= 1.0
    ensures (b * g) as real * d >= b as real
  {
    assert (b * g) as real == b as real * g as real;
    assert (b * g) as real * d == b as real * (d * g as real);
    MulAtLeast(b as real, d * g as real);
  }

  lemma MulAtLeast(x: real, k: real)
    requires x >= 0.0 && k >= 1.0
    ensures x * k >= x
  {
    assert x * (k - 1.0) >= 0.0;
  }

  ghost predicate GlobalFull(cfg: Config, s: State, c: string, now: real) {
    GlobalLevel(cfg, s, c, now) == cfg.global.burst as real
  }

  /** One paced call: the global bucket is full again when the next is due, and the tool's has
      lost at most `Drop`, exactly that if nothing is swept. */
  lemma PacedCall(cfg: Config, s: State, c: string, tool: string, now: real, sweeping: bool)
    requires Drainable(cfg, tool) && Inv(cfg, s, now) && GlobalFull(cfg, s, c, now)
    requires ToolLevel(cfg, s, c, tool, now) >= 1.0
    ensures var (s', o) := Step(cfg, s, Call(c, tool, now), sweeping);
            var later := now + Pace(cfg);
            && o == Verdict(Allowed) && Inv(cfg, s', later) && GlobalFull(cfg, s', c, later)
            && ToolLevel(cfg, s', c, tool, later) >= ToolLevel(cfg, s, c, tool, now) - Drop(cfg, tool)
            && (!sweeping ==> ToolLevel(cfg, s', c, tool, later) == ToolLevel(cfg, s, c, tool, now) - Drop(cfg, tool))
  {
    var e := Call(c, tool, now);
    DropLaw(cfg, tool);
    var p := AnyStepLaw(cfg, s, e, now, sweeping);
    var s' := Step(cfg, s, e, sweeping).0;
    LevelsInRange(cfg, p, c, tool, now);
    InvLater(cfg, s', now, now + Pace(cfg));
    LevelsLater(cfg, s', c, now, now + Pace(cfg));
  }

  lemma OrderedEarlier(from: real, later: real, run: seq<Event>)
    requires from <= later && Ordered(later, run)
    ensures Ordered(from, run) && LastTime(from, run) <= LastTime(later, run)
  {
  }

  predicate AllCalls(run: seq<Event>, c: string, tool: string) {
    forall i :: 0 <= i < |run| ==> run[i].Call? && run[i].caller == c && run[i].tool == tool
  }

  /** No two events are more than two minutes apart. */
  predicate Dense(from: real, run: seq<Event>)
    decreases |run|
  {
    |run| == 0 || (run[0].at <= from + 120.0 && Dense(run[0].at, run[1..]))
  }

  lemma DenseEarlier(from: real, later: real, run: seq<Event>)
    requires from <= later <= from + 60.0 && Dense(later, run) && (|run| > 0 ==> run[0].at <= later + 60.0)
    ensures Dense(from, run)
  {
  }

  /** No call was stopped by the global bucket. */
  predicate NoneGlobal(os: seq<Outcome>) {
    forall i :: 0 <= i < |os| ==> os[i] != Verdict(DeniedGlobal)
  }

  lemma PaceShort(cfg: Config)
    requires cfg.global.sustainedPerMin > 0
    ensures 0.0 < Pace(cfg) <= 60.0
  {
    var g := cfg.global.sustainedPerMin as real;
    assert g >= 1.0 && 60.0 / g * g == 60.0;
  }

  /** A run of paced calls, all allowed, that takes what is there and what accrues, down to less
      than a token at its end. */
  ghost predicate Empties(cfg: Config, s: State, run: seq<Event>, now: real, end: real, c: string, tool: string)
    requires cfg.Metered(tool)
  {
    var u, t := After(cfg, s, run, false), cfg.perTool[tool];
    && Ordered(now, run) && AllCalls(run, c, tool) && Dense(now, run) && (|run| > 0 ==> run[0].at == now)
    && AllAllowed(Outcomes(cfg, s, run, false))
    && LastTime(now, run) <= end <= LastTime(now, run) + 60.0
    && (if |run| == 0 then end == now else LastTime(now, run) < end)
    && Inv(cfg, u, end) && GlobalFull(cfg, u, c, end) && ToolLevel(cfg, u, c, tool, end) < 1.0
    && |run| as real + ToolLevel(cfg, u, c, tool, end) - Accrued(t, end) == ToolLevel(cfg, s, c, tool, now) - Accrued(t, now)
  }

  /** One paced call more in front. */
  lemma EmptiesMore(cfg: Config, s: State, rest: seq<Event>, now: real, end: real, c: string, tool: string)
    requires Drainable(cfg, tool)
    requires var (s', o) := Step(cfg, s, Call(c, tool, now), false);
             var later := now + Pace(cfg);
             && o == Verdict(Allowed) && Empties(cfg, s', rest, later, end, c, tool)
             && ToolLevel(cfg, s', c, tool, later) == ToolLevel(cfg, s, c, tool, now) - Drop(cfg, tool)
    ensures Empties(cfg, s, [Call(c, tool, now)] + rest, now, end, c, tool)
  {
    var e, later := Call(c, tool, now), now + Pace(cfg);
    var (s', o) := Step(cfg, s, e, false);
    var run := [e] + rest;
    assert run[1..] == rest;
    PaceShort(cfg);
    OrderedEarlier(now, later, rest);
    DenseEarlier(now, later, rest);
    LastOfRest(now, later, rest);
    AllAllowedSuffix([o], Outcomes(cfg, s', rest, false));
    AccruedAdds(cfg.perTool[tool], now, Pace(cfg));
  }

  /** Paced calls empty the tool's bucket of a limiter that does not sweep. */
  lemma {:induction false} Drain(cfg: Config, s: State, c: string, tool: string, now: real, m: nat)
    returns (run: seq<Event>, end: real)
    requires Drainable(cfg, tool) && Inv(cfg, s, now) && GlobalFull(cfg, s, c, now)
    requires ToolLevel(cfg, s, c, tool, now) < Reach(m, Drop(cfg, tool))
    ensures Empties(cfg, s, run, now, end, c, tool)
    decreases m
  {
    if ToolLevel(cfg, s, c, tool, now) < 1.0 {
      run, end := [], now;
    } else {
      var e := Call(c, tool, now);
      PacedCall(cfg, s, c, tool, now, false);
      var rest;
      rest, end := Drain(cfg, Step(cfg, s, e, false).0, c, tool, now + Pace(cfg), m - 1);
      EmptiesMore(cfg, s, rest, now, end, c, tool);
      run := [e] + rest;
    }
  }

  lemma LastOfRest(now: real, later: real, rest: seq<Event>)
    requires now <= later
    ensures LastTime(now, rest) == if |rest| == 0 then now else LastTime(later, rest)
  {
  }

  // ---------------------------------------------------------------- telling two levels apart

  /** A limiter whose bucket is fuller than another's, both with a full global bucket. */
  ghost predicate Ahead(cfg: Config, s1: State, s2: State, c: string, tool: string, now: real)
    requires cfg.Metered(tool)
  {
    && Inv(cfg, s1, now) && Inv(cfg, s2, now) && GlobalFull(cfg, s1, c, now) && GlobalFull(cfg, s2, c, now)
    && ToolLevel(cfg, s1, c, tool, now) > ToolLevel(cfg, s2, c, tool, now)
    && (cfg.perTool[tool].sustainedPerMin == 0 ==>
          ToolLevel(cfg, s2, c, tool, now) < 1.0 <= ToolLevel(cfg, s1, c, tool, now))
  }

  /** When the fuller one has a token and the other has not, one call tells them apart. */
  lemma CallTells(cfg: Config, s1: State, s2: State, c: string, tool: string, now: real, at: real)
    requires Drainable(cfg, tool) && Ahead(cfg, s1, s2, c, tool, now) && now <= at
    requires ToolLevel(cfg, s1, c, tool, at) >= 1.0 > ToolLevel(cfg, s2, c, tool, at)
    ensures Step(cfg, s1, Call(c, tool, at), true).1 == Verdict(Allowed)
    ensures Step(cfg, s2, Call(c, tool, at), false).1 == Verdict(DeniedTool)
  {
    var e := Call(c, tool, at);
    var p1 := AnyStepLaw(cfg, s1, e, now, true);
    var p2 := AnyStepLaw(cfg, s2, e, now, false);
    LevelsLater(cfg, s1, c, now, at);
    LevelsLater(cfg, s2, c, now, at);
    FullStaysFull(cfg.global, at - now);
  }

  /** When to make that call: now, or when the fuller one has just gained its token. */
  lemma TellingTime(cfg: Config, s1: State, s2: State, c: string, tool: string, now: real) returns (at: real)
    requires Drainable(cfg, tool) && Ahead(cfg, s1, s2, c, tool, now) && ToolLevel(cfg, s2, c, tool, now) < 1.0
    ensures now <= at <= now + 60.0 && ToolLevel(cfg, s1, c, tool, at) >= 1.0 > ToolLevel(cfg, s2, c, tool, at)
    ensures ToolLevel(cfg, s1, c, tool, now) >= 1.0 ==> at == now
  {
    var x, y, t := ToolLevel(cfg, s1, c, tool, now), ToolLevel(cfg, s2, c, tool, now), cfg.perTool[tool];
    if x >= 1.0 {
      at := now;
    } else {
      var w := (1.0 - x) / t.Rate();
      at := now + w;
      assert Accrued(t, w) == 1.0 - x;
      LevelsInRange(cfg, s1, c, tool, now);
      LevelsLater(cfg, s1, c, now, at);
      LevelsLater(cfg, s2, c, now, at);
      assert at - now == w;
      WaitShort(1.0 - x, t);
    }
  }

  lemma WaitShort(x: real, t: Cfg)
    requires 0.0 <= x <= 1.0 && t.sustainedPerMin > 0
    ensures 0.0 <= x / t.Rate() <= 60.0
  {
    var r := t.Rate();
    assert r >= 1.0 / 60.0;
    assert x / r * r == x;
  }

  /** A run of paced calls that tells two limiters apart, and that the global bucket of the second
      never stops. */
  ghost predicate Tells(cfg: Config, s1: State, s2: State, run: seq<Event>, now: real, c: string, tool: string) {
    && Outcomes(cfg, s1, run, true) != Outcomes(cfg, s2, run, false)
    && |run| > 0 && Ordered(now, run) && AllCalls(run, c, tool) && Dense(now, run)
    && NoneGlobal(Outcomes(cfg, s2, run, false)) && run[0].at <= now + 60.0
  }

  lemma TellsNow(cfg: Config, s1: State, s2: State, now: real, c: string, tool: string, at: real)
    requires now <= at <= now + 60.0
    requires Step(cfg, s1, Call(c, tool, at), true).1 == Verdict(Allowed)
    requires Step(cfg, s2, Call(c, tool, at), false).1 == Verdict(DeniedTool)
    ensures Tells(cfg, s1, s2, [Call(c, tool, at)], now, c, tool)
  {
    var e := Call(c, tool, at);
    OneOutcome(cfg, s1, e, true);
    OneOutcome(cfg, s2, e, false);
    assert Outcomes(cfg, s1, [e], true)[0] != Outcomes(cfg, s2, [e], false)[0];
  }

  /** A call both allow, and then a run that tells them apart. */
  lemma TellsLater(cfg: Config, s1: State, s2: State, rest: seq<Event>, now: real, later: real, c: string, tool: string)
    requires now < later <= now + 60.0
    requires Step(cfg, s2, Call(c, tool, now), false).1 == Verdict(Allowed)
    requires Tells(cfg, Step(cfg, s1, Call(c, tool, now), true).0, Step(cfg, s2, Call(c, tool, now), false).0, rest, later, c, tool)
    ensures Tells(cfg, s1, s2, [Call(c, tool, now)] + rest, now, c, tool)
  {
    var e := Call(c, tool, now);
    var run := [e] + rest;
    assert run[1..] == rest;
    OrderedEarlier(now, later, rest);
    DenseEarlier(now, later, rest);
    TailTells(Step(cfg, s1, e, true).1, Outcomes(cfg, Step(cfg, s1, e, true).0, rest, true),
              Step(cfg, s2, e, false).1, Outcomes(cfg, Step(cfg, s2, e, false).0, rest, false));
  }

  /** A paced call that both allow: the one ahead is still ahead, and what tells them apart later
      tells them apart now. */
  lemma PaceBoth(cfg: Config, s1: State, s2: State, c: string, tool: string, now: real) returns (t1: State, t2: State)
    requires Drainable(cfg, tool) && Ahead(cfg, s1, s2, c, tool, now) && ToolLevel(cfg, s2, c, tool, now) >= 1.0
    ensures var later := now + Pace(cfg);
            && Ahead(cfg, t1, t2, c, tool, later)
            && ToolLevel(cfg, t2, c, tool, later) == ToolLevel(cfg, s2, c, tool, now) - Drop(cfg, tool)
            && forall rest :: Tells(cfg, t1, t2, rest, later, c, tool) ==>
                 Tells(cfg, s1, s2, [Call(c, tool, now)] + rest, now, c, tool)
  {
    var e, later := Call(c, tool, now), now + Pace(cfg);
    PacedCall(cfg, s1, c, tool, now, true);
    PacedCall(cfg, s2, c, tool, now, false);
    PaceShort(cfg);
    t1, t2 := Step(cfg, s1, e, true).0, Step(cfg, s2, e, false).0;
    forall rest | Tells(cfg, t1, t2, rest, later, c, tool) ensures Tells(cfg, s1, s2, [e] + rest, now, c, tool) {
      TellsLater(cfg, s1, s2, rest, now, later, c, tool);
    }
  }

  /** Any lead shows: paced calls, all allowed by both, until the one behind runs out. */
  lemma {:induction false} Probe(cfg: Config, s1: State, s2: State, c: string, tool: string, now: real, m: nat)
    returns (run: seq<Event>)
    requires Drainable(cfg, tool) && Ahead(cfg, s1, s2, c, tool, now)
    requires ToolLevel(cfg, s2, c, tool, now) < Reach(m, Drop(cfg, tool))
    ensures Tells(cfg, s1, s2, run, now, c, tool) && (ToolLevel(cfg, s1, c, tool, now) >= 1.0 ==> run[0].at == now)
    decreases m
  {
    if ToolLevel(cfg, s2, c, tool, now) < 1.0 {
      var at := TellingTime(cfg, s1, s2, c, tool, now);
      CallTells(cfg, s1, s2, c, tool, now, at);
      TellsNow(cfg, s1, s2, now, c, tool, at);
      run := [Call(c, tool, at)];
    } else {
      var t1, t2 := PaceBoth(cfg, s1, s2, c, tool, now);
      var rest := Probe(cfg, t1, t2, c, tool, now + Pace(cfg), m - 1);
      run := [Call(c, tool, now)] + rest;
    }
  }

  lemma OneOutcome(cfg: Config, s: State, e: Event, sweeping: bool)
    ensures Outcomes(cfg, s, [e], sweeping) == [Step(cfg, s, e, sweeping).1]
  {
    assert [e][1..] == [];
  }

  lemma TailTells(o1: Outcome, rest1: seq<Outcome>, o2: Outcome, rest2: seq<Outcome>)
    requires rest1 != rest2
    ensures [o1] + rest1 != [o2] + rest2
  {
    assert ([o1] + rest1)[1..] == rest1 && ([o2] + rest2)[1..] == rest2;
  }

  // ---------------------------------------------------------------- drain, idle, sweep, probe

  /** A moment after the idle time, too short to fill a bucket that held less than a token. */
  lemma StillBehind(b: Cfg, y: real) returns (dt: real)
    requires b.NonNegative() && !b.RefillsWhileIdle() && 0.0 <= y < 1.0
    ensures IDLE < dt <= IDLE + 1.0 && Refill(b, y, dt) < b.burst as real
    ensures b.sustainedPerMin == 0 ==> Refill(b, y, dt) < 1.0
  {
    var r := b.Rate();
    var more := (1.0 - y) / (r + 1.0);
    dt := IDLE + more;
    AccruedAdds(b, IDLE, more);
    assert Accrued(b, IDLE) == (10 * b.sustainedPerMin) as real;
    assert more > 0.0 && more * (r + 1.0) == 1.0 - y;
    assert Accrued(b, more) == more * (r + 1.0) - more;
  }

  lemma {:induction false} OutcomesLength(cfg: Config, s: State, run: seq<Event>, sweeping: bool)
    ensures |Outcomes(cfg, s, run, sweeping)| == |run|
    decreases |run|
  {
    if |run| > 0 {
      OutcomesLength(cfg, Step(cfg, s, run[0], sweeping).0, run[1..], sweeping);
    }
  }

  /** Runs that end differently differ. */
  lemma SuffixTells(cfg: Config, s: State, a: seq<Event>, b: seq<Event>)
    requires Outcomes(cfg, After(cfg, s, a, true), b, true) != Outcomes(cfg, After(cfg, s, a, false), b, false)
    ensures Outcomes(cfg, s, a + b, true) != Outcomes(cfg, s, a + b, false)
  {
    OutcomesJoin(cfg, s, a, b, true);
    OutcomesJoin(cfg, s, a, b, false);
    OutcomesLength(cfg, s, a, true);
    OutcomesLength(cfg, s, a, false);
    var all1, all2 := Outcomes(cfg, s, a + b, true), Outcomes(cfg, s, a + b, false);
    assert all1[|a|..] == Outcomes(cfg, After(cfg, s, a, true), b, true);
    assert all2[|a|..] == Outcomes(cfg, After(cfg, s, a, false), b, false);
  }

  /** After the drain and the idle time, the limiter that sweeps is ahead. */
  lemma SweepGetsAhead(cfg: Config, s1: State, s2: State, c: string, tool: string, last: real, end: real) returns (later: real)
    requires Drainable(cfg, tool) && last <= end && Inv(cfg, s1, last)
    requires Inv(cfg, s2, end) && GlobalFull(cfg, s2, c, end) && ToolLevel(cfg, s2, c, tool, end) < 1.0
    ensures end + IDLE < later <= end + IDLE + 1.0 && Ahead(cfg, Sweep(s1, later), s2, c, tool, later)
    ensures ToolLevel(cfg, Sweep(s1, later), c, tool, later) == cfg.perTool[tool].burst as real
  {
    LevelsInRange(cfg, s2, c, tool, end);
    var dt := StillBehind(cfg.perTool[tool], ToolLevel(cfg, s2, c, tool, end));
    later := end + dt;
    SweptEmpty(cfg, s1, last, later);
    InvLater(cfg, s2, end, later);
    LevelsLater(cfg, s2, c, end, later);
    FullStaysFull(cfg.global, dt);
    assert later - end == dt;
  }

  lemma DrainShowsTheSweep(cfg: Config, start: real, c: string, tool: string) returns (run: seq<Event>)
    requires Drainable(cfg, tool)
    ensures Ordered(start, run)
    ensures Outcomes(cfg, Init(start), run, true) != Outcomes(cfg, Init(start), run, false)
  {
    var m := EnoughCalls(cfg, tool);
    var drain, end := Drain(cfg, Init(start), c, tool, start, m);
    var s1, s2 := After(cfg, Init(start), drain, true), After(cfg, Init(start), drain, false);
    RunKeepsInv(cfg, Init(start), drain, start, true);
    var later := SweepGetsAhead(cfg, s1, s2, c, tool, LastTime(start, drain), end);
    LevelsInRange(cfg, s2, c, tool, later);
    var probe := Probe(cfg, Sweep(s1, later), s2, c, tool, later, m);
    var second := [Tick(later)] + probe;
    assert second[1..] == probe;
    TailTells(Swept, Outcomes(cfg, Sweep(s1, later), probe, true), Swept, Outcomes(cfg, s2, probe, false));
    run := drain + second;
    OrderedJoin(start, drain, second);
    SuffixTells(cfg, Init(start), drain, second);
  }

  // ---------------------------------------------------------------- the condition is exact

  /** Whenever the condition fails, some run is answered differently by the limiter that sweeps
      and the one that does not. */
  lemma SlowRefillShowsTheSweep(cfg: Config, start: real) returns (run: seq<Event>)
    requires cfg.Sound() && !cfg.SweepSafe()
    ensures Ordered(start, run)
    ensures Outcomes(cfg, Init(start), run, true) != Outcomes(cfg, Init(start), run, false)
  {
    var tool := UnmeteredTool(cfg);
    if cfg.global.RefillsWhileIdle() {
      tool :| tool in cfg.perTool && cfg.Metered(tool) && !cfg.perTool[tool].RefillsWhileIdle() && !cfg.NeverBinds(tool);
    }
    if Burstable(cfg, tool) {
      run := TwoBursts(cfg, start, "", tool);
      TwoBurstsOrdered(cfg, start, "", tool);
      SweptAllowsBoth(cfg, start, "", tool);
      UnsweptDenies(cfg, start, "", tool);
    } else {
      run := DrainShowsTheSweep(cfg, start, "", tool);
    }
  }

  /** The sweep condition is exact, for every configuration: every run is answered as if buckets
      lived forever if and only if every enabled bucket that can deny a call refills within the
      idle time. */
  lemma SweepConditionIsExact(cfg: Config, start: real)
    requires cfg.Sound()
    ensures cfg.SweepSafe() <==>
            forall run :: Ordered(start, run) ==>
              Outcomes(cfg, Init(start), run, true) == Outcomes(cfg, Init(start), run, false)
  {
    if cfg.SweepSafe() {
      forall run | Ordered(start, run)
        ensures Outcomes(cfg, Init(start), run, true) == Outcomes(cfg, Init(start), run, false)
      {
        SweepingIsInvisible(cfg, run, start);
      }
    } else {
      var run := SlowRefillShowsTheSweep(cfg, start);
    }
  }
}
