/** Exactly when a caller's use of one expensive tool is held to that tool's bucket. */
module LimiterToolRates {
  import opened TokenBucket
  import opened Limiter
  import opened Bursts
  import opened LimiterRates
  import opened LimiterSweep

  // ---------------------------------------------------------------- where the bound holds

  lemma {:induction false} ToolCallsAreCalls(cfg: Config, s: State, run: seq<Event>, c: string, tool: string)
    ensures AllowedCalls(cfg, s, run, OfTool(c, tool)) <= AllowedCalls(cfg, s, run, OfCaller(c))
    decreases |run|
  {
    if |run| > 0 {
      ToolCallsAreCalls(cfg, Step(cfg, s, run[0], true).0, run[1..], c, tool);
    }
  }

  /** The global bucket can hold no token, so nothing passes. */
  predicate Blocks(b: Cfg) {
    b.burst == 0 && !b.Unlimited()
  }

  lemma {:induction false} BlockedAllowsNone(cfg: Config, s: State, run: seq<Event>, now: real, m: Meter)
    requires cfg.Sound() && Blocks(cfg.global) && Inv(cfg, s, now) && Ordered(now, run)
    ensures AllowedCalls(cfg, s, run, m) == 0
    decreases |run|
  {
    if |run| > 0 {
      var e := run[0];
      var p := AnyStepLaw(cfg, s, e, now, true);
      if e.Call? {
        LevelsInRange(cfg, p, e.caller, "", e.at);
      }
      BlockedAllowsNone(cfg, Step(cfg, s, e, true).0, run[1..], e.at, m);
    }
  }

  /** Exactly what a tool's rate needs: nothing passes at all; or the tool's bucket counts, and
      either refills while idle, or never binds behind a global burst that the tool's own rate
      makes up for in the idle time. */
  predicate Holds(cfg: Config, tool: string)
    requires cfg.Metered(tool)
  {
    var t := cfg.perTool[tool];
    || Blocks(cfg.global)
    || (!t.Unlimited() && (t.RefillsWhileIdle() || (cfg.NeverBinds(tool) && cfg.global.burst <= 10 * t.sustainedPerMin)))
  }

  lemma ToolWithinRate(cfg: Config, start: real, before: seq<Event>, window: seq<Event>, c: string, tool: string)
    requires cfg.Sound() && cfg.Metered(tool) && Holds(cfg, tool)
    requires Ordered(start, before + window) && |window| > 0
    ensures WithinRate(cfg, start, before, window, OfTool(c, tool))
  {
    var t, first := cfg.perTool[tool], window[0].at;
    var s := WindowStart(cfg, start, before, window);
    if Blocks(cfg.global) {
      BlockedAllowsNone(cfg, s, window, first, OfTool(c, tool));
      LastNotBefore(first, window);
      AccruedGrows(t, 0.0, LastTime(start, window) - first);
    } else if t.RefillsWhileIdle() {
      WindowBound(cfg, start, before, window, OfTool(c, tool));
    } else {
      SpedWindow(cfg, s, window, first, c, t);
      ToolCallsAreCalls(cfg, s, window, c, tool);
    }
  }

  lemma SpedWindow(cfg: Config, s: State, window: seq<Event>, first: real, c: string, t: Cfg)
    requires cfg.Sound() && Speeds(cfg, t.sustainedPerMin) && Inv(cfg, s, first) && Ordered(first, window)
    requires t.burst >= cfg.global.burst
    ensures AllowedCalls(cfg, s, window, OfCaller(c)) as real
            <= t.burst as real + Accrued(t, LastTime(first, window) - first)
  {
    var last := LastTime(first, window);
    SpedBudget(cfg, s, window, first, c, t.sustainedPerMin);
    SpedInRange(cfg, s, c, t.sustainedPerMin, first);
    SameRate(SpedCfg(cfg, t.sustainedPerMin), t, first);
    SameRate(SpedCfg(cfg, t.sustainedPerMin), t, last);
    AccruedBetween(t, first, last);
  }

  lemma SameRate(a: Cfg, b: Cfg, t: real)
    requires a.sustainedPerMin == b.sustainedPerMin
    ensures Accrued(a, t) == Accrued(b, t)
  {
  }

  // ---------------------------------------------------------------- the global bucket at another rate

  /** The global bucket as if it refilled at another rate. */
  function SpedCfg(cfg: Config, rate: int): Cfg {
    cfg.global.(sustainedPerMin := rate)
  }

  function Sped(b: BucketState, rate: int): BucketState {
    b.(cfg := b.cfg.(sustainedPerMin := rate))
  }

  /** What it would hold. */
  function SpedLevel(cfg: Config, s: State, c: string, rate: int, t: real): real {
    if c in s.globals then Level(Sped(s.globals[c], rate), t) else cfg.global.burst as real
  }

  /** A rate that is no slower, and makes up for the whole burst in the idle time. */
  predicate Speeds(cfg: Config, rate: int) {
    !cfg.global.Unlimited() && cfg.global.sustainedPerMin <= rate && cfg.global.burst <= 10 * rate
  }

  lemma SpedInRange(cfg: Config, s: State, c: string, rate: int, now: real)
    requires cfg.Sound() && Speeds(cfg, rate) && Inv(cfg, s, now)
    ensures 0.0 <= GlobalLevel(cfg, s, c, now) <= SpedLevel(cfg, s, c, rate, now) <= cfg.global.burst as real
  {
    LevelsInRange(cfg, s, c, "", now);
    if c in s.globals {
      LevelInRange(Sped(s.globals[c], rate), now);
      FasterAccrues(cfg.global, SpedCfg(cfg, rate), now - s.globals[c].lastFill);
    }
  }

  lemma SpedLater(cfg: Config, s: State, c: string, rate: int, now: real, later: real)
    requires cfg.Sound() && Speeds(cfg, rate) && Inv(cfg, s, now) && now <= later
    ensures SpedLevel(cfg, s, c, rate, later) <= SpedLevel(cfg, s, c, rate, now) + Accrued(SpedCfg(cfg, rate), later - now)
  {
    if c in s.globals {
      LevelLater(Sped(s.globals[c], rate), now, later);
    } else {
      AccruedGrows(SpedCfg(cfg, rate), 0.0, later - now);
    }
  }

  /** A sweep changes nothing of it. */
  lemma SpedSwept(cfg: Config, s: State, c: string, rate: int, now: real)
    requires cfg.Sound() && Speeds(cfg, rate) && Inv(cfg, s, now)
    ensures SpedLevel(cfg, Sweep(s, now), c, rate, now) == SpedLevel(cfg, s, c, rate, now)
  {
    if c in s.globals && now - s.globals[c].lastTouched > IDLE {
      IdleIsFull(Sped(s.globals[c], rate), now);
    }
  }

  /** A charge leaves the caller's global bucket filled at that moment, and all others alone. */
  lemma ChargeTouches(cfg: Config, s: State, caller: string, tool: string, now: real)
    requires !cfg.global.Unlimited() && (caller in s.globals ==> s.globals[caller].cfg == cfg.global)
    ensures var s' := Charge(cfg, s, caller, tool, now).0;
            && caller in s'.globals && s'.globals[caller].lastFill == now
            && forall c :: c != caller ==> (c in s'.globals <==> c in s.globals) &&
                                           (c in s.globals ==> s'.globals[c] == s.globals[c])
  {
  }

  lemma SpedCharged(cfg: Config, s: State, e: Event, c: string, rate: int)
    requires cfg.Sound() && Speeds(cfg, rate) && Inv(cfg, s, e.at) && e.Call?
    ensures var (s', d) := Charge(cfg, s, e.caller, e.tool, e.at);
            Counted(OfCaller(c), e, Verdict(d)) as real + SpedLevel(cfg, s', c, rate, e.at) <= SpedLevel(cfg, s, c, rate, e.at)
  {
    ChargeTouches(cfg, s, e.caller, e.tool, e.at);
    if c == e.caller {
      ChargeLaw(cfg, s, e.caller, e.tool, e.at);
      SpedInRange(cfg, s, c, rate, e.at);
      NoTimeNoAccrual(Charge(cfg, s, e.caller, e.tool, e.at).0.globals[c], rate, e.at);
    }
  }

  lemma NoTimeNoAccrual(b: BucketState, rate: int, now: real)
    requires b.lastFill == now
    ensures Level(Sped(b, rate), now) == Level(b, now)
  {
    assert Accrued(b.cfg, 0.0) == 0.0 == Accrued(Sped(b, rate).cfg, 0.0);
  }

  function SpedBalance(cfg: Config, s: State, c: string, rate: int, t: real): real {
    SpedLevel(cfg, s, c, rate, t) - Accrued(SpedCfg(cfg, rate), t)
  }

  lemma SpedStep(cfg: Config, s: State, e: Event, now: real, c: string, rate: int)
    requires cfg.Sound() && Speeds(cfg, rate) && Inv(cfg, s, now) && now <= e.at
    ensures var (s', o) := Step(cfg, s, e, true);
            && Inv(cfg, s', e.at)
            && Counted(OfCaller(c), e, o) as real <= SpedBalance(cfg, s, c, rate, now) - SpedBalance(cfg, s', c, rate, e.at)
  {
    var p := AnyStepLaw(cfg, s, e, now, true);
    SpedLater(cfg, s, c, rate, now, e.at);
    SpedSwept(cfg, s, c, rate, e.at);
    AccruedBetween(SpedCfg(cfg, rate), now, e.at);
    if e.Call? {
      SpedCharged(cfg, LazySweep(s, e.at), e, c, rate);
    }
  }

  /** A global bucket whose burst another rate makes up for holds its callers to that rate. */
  lemma {:induction false} SpedBudget(cfg: Config, s: State, run: seq<Event>, now: real, c: string, rate: int)
    requires cfg.Sound() && Speeds(cfg, rate) && Inv(cfg, s, now) && Ordered(now, run)
    ensures AllowedCalls(cfg, s, run, OfCaller(c)) as real
            <= SpedBalance(cfg, s, c, rate, now) + Accrued(SpedCfg(cfg, rate), LastTime(now, run))
    decreases |run|
  {
    if |run| == 0 {
      SpedInRange(cfg, s, c, rate, now);
    } else {
      SpedStep(cfg, s, run[0], now, c, rate);
      SpedBudget(cfg, Step(cfg, s, run[0], true).0, run[1..], run[0].at, c, rate);
    }
  }

  lemma {:induction false} LastNotBefore(from: real, run: seq<Event>)
    requires Ordered(from, run)
    ensures from <= LastTime(from, run)
    decreases |run|
  {
    if |run| > 0 {
      LastNotBefore(run[0].at, run[1..]);
    }
  }

  // ---------------------------------------------------------------- draining a bucket to nothing

  /** The last call of a drain, made when the bucket has just gained its last token. */
  lemma LastCall(cfg: Config, s: State, c: string, tool: string, now: real) returns (at: real)
    requires Drainable(cfg, tool) && cfg.perTool[tool].sustainedPerMin > 0
    requires Inv(cfg, s, now) && GlobalFull(cfg, s, c, now) && ToolLevel(cfg, s, c, tool, now) < 1.0
    ensures at >= now && Step(cfg, s, Call(c, tool, at), false).1 == Verdict(Allowed)
    ensures Accrued(cfg.perTool[tool], at) == Accrued(cfg.perTool[tool], now) + 1.0 - ToolLevel(cfg, s, c, tool, now)
  {
    var t, y := cfg.perTool[tool], ToolLevel(cfg, s, c, tool, now);
    var w := (1.0 - y) / t.Rate();
    at := now + w;
    assert Accrued(t, w) == 1.0 - y;
    AccruedAdds(t, now, w);
    LevelsLater(cfg, s, c, now, at);
    assert at - now == w;
    FullStaysFull(cfg.global, w);
    var p := AnyStepLaw(cfg, s, Call(c, tool, at), now, false);
  }

  /** From the start, calls that are all allowed and take everything the bucket holds and gains. */
  ghost predicate Drains(cfg: Config, start: real, run: seq<Event>, c: string, tool: string)
    requires cfg.Metered(tool)
  {
    && |run| > 0 && run[0].at == start && Ordered(start, run) && AllCalls(run, c, tool)
    && AllAllowed(Outcomes(cfg, Init(start), run, false))
    && |run| as real >= cfg.perTool[tool].burst as real
                        + Accrued(cfg.perTool[tool], LastTime(start, run)) - Accrued(cfg.perTool[tool], start)
  }

  /** What `Drain` achieves from the start. */
  ghost predicate Drained(cfg: Config, start: real, run: seq<Event>, end: real, c: string, tool: string)
    requires cfg.Metered(tool)
  {
    var s, t := After(cfg, Init(start), run, false), cfg.perTool[tool];
    && |run| > 0 && run[0].at == start && Ordered(start, run) && LastTime(start, run) <= end
    && AllCalls(run, c, tool) && AllAllowed(Outcomes(cfg, Init(start), run, false))
    && Inv(cfg, s, end) && GlobalFull(cfg, s, c, end) && ToolLevel(cfg, s, c, tool, end) < 1.0
    && |run| as real + ToolLevel(cfg, s, c, tool, end) - Accrued(t, end) == t.burst as real - Accrued(t, start)
  }

  lemma DrainFromStart(cfg: Config, start: real, c: string, tool: string) returns (run: seq<Event>, end: real)
    requires Drainable(cfg, tool)
    ensures Drained(cfg, start, run, end, c, tool)
  {
    var m := EnoughCalls(cfg, tool);
    InitInv(cfg, start);
    run, end := Drain(cfg, Init(start), c, tool, start, m);
    assert ToolLevel(cfg, Init(start), c, tool, start) == cfg.perTool[tool].burst as real;
  }

  /** A bucket that gains nothing is empty when it holds less than a token. */
  lemma DrainedDry(cfg: Config, start: real, run: seq<Event>, end: real, c: string, tool: string)
    requires Drainable(cfg, tool) && Drained(cfg, start, run, end, c, tool) && cfg.perTool[tool].sustainedPerMin == 0
    ensures Drains(cfg, start, run, c, tool)
  {
    var t := cfg.perTool[tool];
    NoAccrual(t, start);
    NoAccrual(t, end);
    NoAccrual(t, LastTime(start, run));
    LessThanOneShort(|run|, t.burst, ToolLevel(cfg, After(cfg, Init(start), run, false), c, tool, end));
  }

  lemma LessThanOneShort(n: nat, b: int, y: real)
    requires n as real + y == b as real && y < 1.0
    ensures n as real >= b as real
  {
    var d: int := b - n;
    assert d as real == y;
    assert d < 1;
  }

  lemma NoAccrual(t: Cfg, x: real)
    requires t.sustainedPerMin == 0
    ensures Accrued(t, x) == 0.0
  {
  }

  /** Any other is emptied by one last call. */
  lemma DrainToTheLast(cfg: Config, start: real, drain: seq<Event>, end: real, c: string, tool: string) returns (run: seq<Event>)
    requires Drainable(cfg, tool) && Drained(cfg, start, drain, end, c, tool) && cfg.perTool[tool].sustainedPerMin > 0
    ensures Drains(cfg, start, run, c, tool)
  {
    var s := After(cfg, Init(start), drain, false);
    var at := LastCall(cfg, s, c, tool, end);
    var last := [Call(c, tool, at)];
    run := drain + last;
    OrderedJoin(start, drain, last);
    OutcomesJoin(cfg, Init(start), drain, last, false);
    OneOutcome(cfg, s, last[0], false);
    AllAllowedSuffix(Outcomes(cfg, Init(start), drain, false), Outcomes(cfg, s, last, false));
  }

  lemma FullDrain(cfg: Config, start: real, c: string, tool: string) returns (run: seq<Event>)
    requires Drainable(cfg, tool)
    ensures Drains(cfg, start, run, c, tool)
  {
    var drain, end := DrainFromStart(cfg, start, c, tool);
    if cfg.perTool[tool].sustainedPerMin == 0 {
      DrainedDry(cfg, start, drain, end, c, tool);
      run := drain;
    } else {
      run := DrainToTheLast(cfg, start, drain, end, c, tool);
    }
  }

  // ---------------------------------------------------------------- a fuller limiter allows as much

  ghost predicate AtLeast(cfg: Config, s1: State, s2: State, c: string, tool: string, now: real)
    requires cfg.Metered(tool)
  {
    && Inv(cfg, s1, now) && Inv(cfg, s2, now)
    && GlobalLevel(cfg, s1, c, now) >= GlobalLevel(cfg, s2, c, now)
    && ToolLevel(cfg, s1, c, tool, now) >= ToolLevel(cfg, s2, c, tool, now)
  }

  /** What the one that does not sweep allows, a fuller one that sweeps allows too. */
  lemma KeepsUpStep(cfg: Config, s1: State, s2: State, e: Event, now: real)
    requires cfg.Sound() && e.Call? && cfg.Metered(e.tool) && now <= e.at
    requires AtLeast(cfg, s1, s2, e.caller, e.tool, now) && Step(cfg, s2, e, false).1 == Verdict(Allowed)
    ensures var (s1', o1) := Step(cfg, s1, e, true);
            o1 == Verdict(Allowed) && AtLeast(cfg, s1', Step(cfg, s2, e, false).0, e.caller, e.tool, e.at)
  {
    LevelsLater(cfg, s1, e.caller, now, e.at);
    LevelsLater(cfg, s2, e.caller, now, e.at);
    var p1 := AnyStepLaw(cfg, s1, e, now, true);
    var p2 := AnyStepLaw(cfg, s2, e, now, false);
  }

  lemma {:induction false} KeepsUp(cfg: Config, s1: State, s2: State, run: seq<Event>, c: string, tool: string, now: real)
    requires cfg.Sound() && cfg.Metered(tool) && AtLeast(cfg, s1, s2, c, tool, now)
    requires Ordered(now, run) && AllCalls(run, c, tool) && AllAllowed(Outcomes(cfg, s2, run, false))
    ensures AllowedCalls(cfg, s1, run, OfTool(c, tool)) == |run|
    decreases |run|
  {
    if |run| > 0 {
      var e, rest := run[0], run[1..];
      var (s2', o2) := Step(cfg, s2, e, false);
      AllAllowedSuffix([o2], Outcomes(cfg, s2', rest, false));
      assert [o2][0] == Verdict(Allowed);
      KeepsUpStep(cfg, s1, s2, e, now);
      KeepsUp(cfg, Step(cfg, s1, e, true).0, s2', rest, c, tool, e.at);
    }
  }

  // ---------------------------------------------------------------- two drains

  /** After a drain and the idle time, a tick leaves the limiter as good as new. */
  lemma SecondDrain(cfg: Config, s: State, last: real, later: real, run: seq<Event>, c: string, tool: string)
    requires cfg.Sound() && cfg.Metered(tool) && Inv(cfg, s, last) && later > last + IDLE
    requires Drains(cfg, later, run, c, tool)
    ensures AllowedCalls(cfg, s, [Tick(later)] + run, OfTool(c, tool)) == |run|
  {
    SweptEmpty(cfg, s, last, later);
    InitInv(cfg, later);
    KeepsUp(cfg, Sweep(s, later), Init(later), run, c, tool, later);
    assert ([Tick(later)] + run)[1..] == run;
  }

  /** A drain, the idle time, a tick, a second drain: all calls pass. */
  lemma BothPass(cfg: Config, start: real, first: seq<Event>, later: real, second: seq<Event>, c: string, tool: string)
    requires cfg.Sound() && cfg.Metered(tool) && later > LastTime(start, first) + IDLE
    requires Drains(cfg, start, first, c, tool) && Drains(cfg, later, second, c, tool)
    ensures AllowedCalls(cfg, Init(start), first + ([Tick(later)] + second), OfTool(c, tool)) == |first| + |second|
  {
    InitInv(cfg, start);
    KeepsUp(cfg, Init(start), Init(start), first, c, tool, start);
    RunKeepsInv(cfg, Init(start), first, start, true);
    SecondDrain(cfg, After(cfg, Init(start), first), LastTime(start, first), later, second, c, tool);
    CountJoin(cfg, Init(start), first, [Tick(later)] + second, OfTool(c, tool));
  }

  lemma BothOrdered(start: real, first: seq<Event>, later: real, second: seq<Event>)
    requires Ordered(start, first) && LastTime(start, first) <= later && Ordered(later, second)
    ensures var run := first + ([Tick(later)] + second);
            Ordered(start, run) && LastTime(start, run) == LastTime(later, second)
  {
    assert ([Tick(later)] + second)[1..] == second;
    OrderedJoin(start, first, [Tick(later)] + second);
  }

  /** A run that begins at the start and lets more through than the rate. */
  lemma Exceeds(cfg: Config, start: real, run: seq<Event>, c: string, tool: string, end: real)
    requires cfg.Metered(tool) && |run| > 0 && run[0].at == start && Ordered(start, run) && LastTime(start, run) == end
    requires AllowedCalls(cfg, Init(start), run, OfTool(c, tool)) as real
             > cfg.perTool[tool].burst as real + Accrued(cfg.perTool[tool], end - start)
    ensures Ordered(start, [] + run) && !WithinRate(cfg, start, [], run, OfTool(c, tool))
  {
    assert [] + run == run;
  }

  lemma TwoDrainsExceed(cfg: Config, start: real, c: string, tool: string) returns (run: seq<Event>)
    requires Drainable(cfg, tool)
    ensures Ordered(start, [] + run) && |run| > 0 && !WithinRate(cfg, start, [], run, OfTool(c, tool))
  {
    var t := cfg.perTool[tool];
    var first := FullDrain(cfg, start, c, tool);
    var last := LastTime(start, first);
    var later := last + JustLater(t);
    var second := FullDrain(cfg, later, c, tool);
    run := first + ([Tick(later)] + second);
    BothOrdered(start, first, later, second);
    BothPass(cfg, start, first, later, second, c, tool);
    TooMuch(t, |first|, |second|, start, last, later, LastTime(later, second));
    assert run[0] == first[0];
    Exceeds(cfg, start, run, c, tool, LastTime(later, second));
  }

  lemma TooMuch(t: Cfg, n1: nat, n2: nat, start: real, last: real, later: real, end: real)
    requires t.NonNegative() && !t.RefillsWhileIdle() && later == last + JustLater(t)
    requires n1 as real >= t.burst as real + Accrued(t, last) - Accrued(t, start)
    requires n2 as real >= t.burst as real + Accrued(t, end) - Accrued(t, later)
    ensures (n1 + n2) as real > t.burst as real + Accrued(t, end - start)
  {
    NotFullYet(t);
    AccruedAdds(t, last, JustLater(t));
    AccruedBetween(t, start, end);
  }

  // ---------------------------------------------------------------- many bursts

  /** A tool bucket that never binds, behind a global burst its rate does not make up for. */
  predicate Overrun(cfg: Config, tool: string) {
    && cfg.Sound() && cfg.Metered(tool) && cfg.NeverBinds(tool)
    && cfg.global.burst > 10 * cfg.perTool[tool].sustainedPerMin
  }

  /** Bursts of the whole global bucket, each after a tick a moment more than the idle time later. */
  ghost function Cycles(cfg: Config, c: string, tool: string, at: real, k: nat): seq<Event>
    requires Overrun(cfg, tool)
    decreases k
  {
    if k == 0 then []
    else [Tick(at)] + (Repeat(Call(c, tool, at), cfg.global.burst)
                       + Cycles(cfg, c, tool, at + JustLater(cfg.perTool[tool]), k - 1))
  }

  /** The time of the last of them. */
  ghost function LastCycle(t: Cfg, at: real, k: nat): real
    requires t.NonNegative()
    decreases k
  {
    if k <= 1 then at else LastCycle(t, at + JustLater(t), k - 1)
  }

  function Times(k: nat, n: nat): nat {
    if k == 0 then 0 else n + Times(k - 1, n)
  }

  lemma {:induction false} CyclesOrdered(cfg: Config, c: string, tool: string, at: real, k: nat)
    requires Overrun(cfg, tool)
    ensures Ordered(at, Cycles(cfg, c, tool, at, k))
    ensures k > 0 ==> LastTime(at, Cycles(cfg, c, tool, at, k)) == LastCycle(cfg.perTool[tool], at, k)
    decreases k
  {
    if k > 0 {
      var next := at + JustLater(cfg.perTool[tool]);
      var burst, rest := Repeat(Call(c, tool, at), cfg.global.burst), Cycles(cfg, c, tool, next, k - 1);
      CyclesOrdered(cfg, c, tool, next, k - 1);
      OrderedRepeat(at, Call(c, tool, at), cfg.global.burst);
      OrderedEarlier(at, next, rest);
      OrderedJoin(at, burst, rest);
      assert Cycles(cfg, c, tool, at, k)[1..] == burst + rest;
    }
  }

  /** After a tick that swept everything, a whole global burst passes. */
  lemma CyclePasses(cfg: Config, s: State, last: real, c: string, tool: string, at: real)
    requires Overrun(cfg, tool) && Inv(cfg, s, last) && at > last + IDLE
    ensures var p, burst := Sweep(s, at), Repeat(Call(c, tool, at), cfg.global.burst);
            && AllowedCalls(cfg, p, burst, OfTool(c, tool)) == cfg.global.burst
            && Inv(cfg, After(cfg, p, burst), at)
  {
    var p, e, n := Sweep(s, at), Call(c, tool, at), cfg.global.burst;
    SweptEmpty(cfg, s, last, at);
    assert AffordsCalls(cfg, p, e, n);
    BurstLaw(cfg, p, e, n, true);
    RepeatAll(e, n);
    AllCounted(cfg, p, Repeat(e, n), OfTool(c, tool));
  }

  /** A cycle lets its burst through, and leaves what follows to a sound state. */
  lemma OneCycle(cfg: Config, s: State, last: real, c: string, tool: string, at: real, rest: seq<Event>) returns (u: State)
    requires Overrun(cfg, tool) && Inv(cfg, s, last) && at > last + IDLE
    ensures Inv(cfg, u, at)
    ensures AllowedCalls(cfg, s, [Tick(at)] + (Repeat(Call(c, tool, at), cfg.global.burst) + rest), OfTool(c, tool))
         == cfg.global.burst + AllowedCalls(cfg, u, rest, OfTool(c, tool))
  {
    var p, burst := Sweep(s, at), Repeat(Call(c, tool, at), cfg.global.burst);
    u := After(cfg, p, burst);
    CyclePasses(cfg, s, last, c, tool, at);
    CountJoin(cfg, p, burst, rest, OfTool(c, tool));
    assert ([Tick(at)] + (burst + rest))[1..] == burst + rest;
  }

  lemma {:induction false} CyclesPass(cfg: Config, s: State, last: real, c: string, tool: string, at: real, k: nat)
    requires Overrun(cfg, tool) && Inv(cfg, s, last) && at > last + IDLE
    ensures AllowedCalls(cfg, s, Cycles(cfg, c, tool, at, k), OfTool(c, tool)) == Times(k, cfg.global.burst)
    decreases k
  {
    if k > 0 {
      var next := at + JustLater(cfg.perTool[tool]);
      var u := OneCycle(cfg, s, last, c, tool, at, Cycles(cfg, c, tool, next, k - 1));
      CyclesPass(cfg, u, at, c, tool, next, k - 1);
    }
  }

  /** Each burst after the first gains half a token on the tool's rate. */
  lemma {:induction false} CyclesGain(t: Cfg, n: nat, at: real, k: nat)
    requires t.NonNegative() && n > 10 * t.sustainedPerMin && k > 0
    ensures Times(k, n) as real - (Accrued(t, LastCycle(t, at, k)) - Accrued(t, at)) >= n as real + (k - 1) as real / 2.0
    decreases k
  {
    if k > 1 {
      CyclesGain(t, n, at + JustLater(t), k - 1);
      AccruedAdds(t, at, JustLater(t));
      GapAccrues(t);
    }
  }

  lemma GapAccrues(t: Cfg)
    requires t.NonNegative()
    ensures Accrued(t, JustLater(t)) <= (10 * t.sustainedPerMin) as real + 0.5
  {
    var s := t.sustainedPerMin as real;
    AccruedAdds(t, 600.0, 1.0 / (s + 1.0));
    assert Accrued(t, 600.0) == 10.0 * s;
    assert 1.0 / (s + 1.0) * s <= 1.0;
    assert Accrued(t, 1.0 / (s + 1.0)) == 1.0 / (s + 1.0) * s / 60.0;
  }

  lemma ManyBurstsExceed(cfg: Config, start: real, c: string, tool: string) returns (run: seq<Event>)
    requires Overrun(cfg, tool)
    ensures Ordered(start, [] + run) && |run| > 0 && !WithinRate(cfg, start, [], run, OfTool(c, tool))
  {
    var t, n := cfg.perTool[tool], cfg.global.burst;
    var k := 2 * t.burst + 1;
    run := Cycles(cfg, c, tool, start, k);
    assert run[0] == Tick(start);
    CyclesOrdered(cfg, c, tool, start, k);
    CyclesPass(cfg, Init(start), start - IDLE - 1.0, c, tool, start, k);
    CyclesGain(t, n, start, k);
    Overdrawn(t, n, Times(k, n), start, LastCycle(t, start, k), k);
    Exceeds(cfg, start, run, c, tool, LastCycle(t, start, k));
  }

  lemma Overdrawn(t: Cfg, n: nat, count: nat, start: real, end: real, k: nat)
    requires t.NonNegative() && n > 0 && k == 2 * t.burst + 1
    requires count as real - (Accrued(t, end) - Accrued(t, start)) >= n as real + (k - 1) as real / 2.0
    ensures count as real > t.burst as real + Accrued(t, end - start)
  {
    AccruedBetween(t, start, end);
    assert (k - 1) as real / 2.0 == t.burst as real;
  }

  // ---------------------------------------------------------------- the condition is exact

  /** A tool bucket that does not count lets through more than a rate of nothing. */
  lemma UncountedExceeds(cfg: Config, start: real, c: string, tool: string)
    requires cfg.Sound() && cfg.Metered(tool) && cfg.perTool[tool].Unlimited() && !Blocks(cfg.global)
    ensures var run := [Call(c, tool, start)];
            Ordered(start, [] + run) && !WithinRate(cfg, start, [], run, OfTool(c, tool))
  {
    var e := Call(c, tool, start);
    var run := [e];
    assert [] + run == run && run[1..] == [];
    InitInv(cfg, start);
    ChargeLaw(cfg, Init(start), c, tool, start);
    assert AllowedCalls(cfg, Init(start), run, OfTool(c, tool)) == 1;
    assert Accrued(cfg.perTool[tool], start - start) == 0.0;
  }

  /** A caller's use of a tool is held to the tool's own rate in every window of every run if and
      only if `Holds`, for every configuration. */
  lemma ToolRateHoldsIff(cfg: Config, start: real, c: string, tool: string)
    requires cfg.Sound() && tool in cfg.perTool && !cfg.perTool[tool].disabled
    ensures Holds(cfg, tool) <==>
            forall before, window :: Ordered(start, before + window) && |window| > 0 ==>
              WithinRate(cfg, start, before, window, OfTool(c, tool))
  {
    if Holds(cfg, tool) {
      forall before, window | Ordered(start, before + window) && |window| > 0
        ensures WithinRate(cfg, start, before, window, OfTool(c, tool))
      {
        ToolWithinRate(cfg, start, before, window, c, tool);
      }
    } else if cfg.perTool[tool].Unlimited() {
      UncountedExceeds(cfg, start, c, tool);
    } else if Burstable(cfg, tool) {
      TwoBurstsExceed(cfg, start, c, tool);
    } else if cfg.NeverBinds(tool) {
      var run := ManyBurstsExceed(cfg, start, c, tool);
    } else {
      var run := TwoDrainsExceed(cfg, start, c, tool);
    }
  }
}
