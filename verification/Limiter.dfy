/** The two-level limiter: a global bucket per caller, a bucket per (caller, expensive
    tool), lazy and periodic sweeping of idle buckets.

    The state is the pair of bucket maps the program keeps. What a caller can observe is
    only the `Level` of its buckets, where a bucket that is not in the map counts as full;
    every theorem below is a statement about levels. */
module Limiter {
  import opened TokenBucket

  datatype Config = Config(global: Cfg, perTool: map<string, Cfg>) {

    /** An expensive tool whose bucket the operator did not opt out of. */
    predicate Metered(tool: string) {
      tool in perTool && !perTool[tool].disabled
    }

    /** What start-up validation and the shape of tool names guarantee. */
    predicate Sound() {
      && global.NonNegative()
      && forall tool :: tool in perTool && Metered(tool) ==> perTool[tool].NonNegative() && ':' !in tool
    }

    /** A bucket so much larger than the global one in front of it, and so little slower, that
        the global one always runs dry first. A global bucket that can hold no token lets
        nothing through at all. */
    predicate NeverBinds(tool: string)
      requires Metered(tool)
    {
      && !global.Unlimited() && perTool[tool].burst > global.burst
      && (perTool[tool].sustainedPerMin >= global.sustainedPerMin || global.burst == 0)
    }

    /** No enabled bucket that can deny a call takes longer than the ten idle minutes to refill. */
    predicate SweepSafe() {
      && global.RefillsWhileIdle()
      && forall tool :: tool in perTool && Metered(tool) ==> perTool[tool].RefillsWhileIdle() || NeverBinds(tool)
    }
  }

  datatype State = State(
    globals: map<string, BucketState>,
    tools: map<string, BucketState>,
    lastSwept: real)

  datatype Decision = Allowed | DeniedGlobal | DeniedTool

  const SWEEP_EVERY := 300.0
  const IDLE := 600.0

  function Init(now: real): State {
    State(map[], map[], now)
  }

  function Key(caller: string, tool: string): string {
    caller + ":" + tool
  }

  function KeepTouched(m: map<string, BucketState>, now: real): map<string, BucketState> {
    map k | k in m && now - m[k].lastTouched <= IDLE :: m[k]
  }

  function Sweep(s: State, now: real): State {
    State(KeepTouched(s.globals, now), KeepTouched(s.tools, now), now)
  }

  function Find(m: map<string, BucketState>, k: string, cfg: Cfg, now: real): BucketState {
    if k in m then m[k] else NewBucket(cfg, now)
  }

  /** `Allow` after its lazy sweep. */
  function Charge(cfg: Config, s: State, caller: string, tool: string, now: real): (State, Decision) {
    var (gb, ok) := TryTake(Find(s.globals, caller, cfg.global, now), now);
    var s1 := s.(globals := s.globals[caller := gb]);
    if !ok then (s1, DeniedGlobal)
    else if !cfg.Metered(tool) then (s1, Allowed)
    else
      var key := Key(caller, tool);
      var (tb, took) := TryTake(Find(s.tools, key, cfg.perTool[tool], now), now);
      var s2 := s1.(tools := s.tools[key := tb]);
      if took then (s2, Allowed)
      else (s2.(globals := s.globals[caller := Refund(gb, now)]), DeniedTool)
  }

  function LazySweep(s: State, now: real): State {
    if now - s.lastSwept > SWEEP_EVERY then Sweep(s, now) else s
  }

  function Allow(cfg: Config, s: State, caller: string, tool: string, now: real): (State, Decision) {
    Charge(cfg, LazySweep(s, now), caller, tool, now)
  }

  // ---------------------------------------------------------------- runs

  /** A call, or a tick of the background sweeper. */
  datatype Event = Call(caller: string, tool: string, at: real) | Tick(at: real)

  /** What an event yields; a tick yields nothing to any caller. */
  datatype Outcome = Verdict(d: Decision) | Swept

  /** One event. With `sweeping` off this is the limiter whose buckets live forever. */
  function Step(cfg: Config, s: State, e: Event, sweeping: bool): (State, Outcome) {
    match e
    case Call(caller, tool, at) =>
      var (s', d) := Charge(cfg, if sweeping then LazySweep(s, at) else s, caller, tool, at);
      (s', Verdict(d))
    case Tick(at) =>
      (if sweeping then Sweep(s, at) else s, Swept)
  }

  predicate Ordered(from: real, run: seq<Event>)
    decreases |run|
  {
    |run| == 0 || (from <= run[0].at && Ordered(run[0].at, run[1..]))
  }

  function Outcomes(cfg: Config, s: State, run: seq<Event>, sweeping: bool): seq<Outcome>
    decreases |run|
  {
    if |run| == 0 then []
    else
      var (s', o) := Step(cfg, s, run[0], sweeping);
      [o] + Outcomes(cfg, s', run[1..], sweeping)
  }

  function After(cfg: Config, s: State, run: seq<Event>, sweeping: bool := true): State
    decreases |run|
  {
    if |run| == 0 then s else After(cfg, Step(cfg, s, run[0], sweeping).0, run[1..], sweeping)
  }

  function LastTime(from: real, run: seq<Event>): real
    decreases |run|
  {
    if |run| == 0 then from else LastTime(run[0].at, run[1..])
  }

  // ---------------------------------------------------------------- levels

  function GlobalLevel(cfg: Config, s: State, caller: string, t: real): real {
    if caller in s.globals then Level(s.globals[caller], t) else cfg.global.burst as real
  }

  function ToolLevel(cfg: Config, s: State, caller: string, tool: string, t: real): real
    requires cfg.Metered(tool)
  {
    var k := Key(caller, tool);
    if k in s.tools then Level(s.tools[k], t) else cfg.perTool[tool].burst as real
  }

  ghost predicate Inv(cfg: Config, s: State, now: real) {
    && (forall c :: c in s.globals ==> s.globals[c].cfg == cfg.global && BucketInv(s.globals[c], now))
    && (forall c, tool :: cfg.Metered(tool) && Key(c, tool) in s.tools ==>
          s.tools[Key(c, tool)].cfg == cfg.perTool[tool] && BucketInv(s.tools[Key(c, tool)], now))
  }

  /** The tool's bucket is no further from full than the caller's global one. */
  ghost predicate Covered(cfg: Config, s: State, caller: string, tool: string, now: real)
    requires cfg.Metered(tool)
  {
    cfg.perTool[tool].burst as real - ToolLevel(cfg, s, caller, tool, now)
    <= cfg.global.burst as real - GlobalLevel(cfg, s, caller, now)
  }

  /** What every state of a run satisfies: bucket invariants, and buckets that never bind are
      covered by the global ones. */
  ghost predicate Steady(cfg: Config, s: State, now: real) {
    && Inv(cfg, s, now)
    && forall c, tool :: cfg.Metered(tool) && cfg.NeverBinds(tool) ==> Covered(cfg, s, c, tool, now)
  }

  /** Two states in which one caller's buckets hold the same tokens, as far as they can bind. */
  ghost predicate SameFor(cfg: Config, s: State, s': State, caller: string, now: real) {
    && GlobalLevel(cfg, s, caller, now) == GlobalLevel(cfg, s', caller, now)
    && forall tool :: cfg.Metered(tool) && cfg.perTool[tool].RefillsWhileIdle() ==>
         ToolLevel(cfg, s, caller, tool, now) == ToolLevel(cfg, s', caller, tool, now)
  }

  ghost predicate SameLevels(cfg: Config, s: State, s': State, now: real) {
    forall c :: SameFor(cfg, s, s', c, now)
  }

  /** What a sweep does to a level: nothing if the bucket refills while idle, and else it may
      fill the bucket up. */
  ghost predicate SweptLevel(cfg: Cfg, before: real, after: real) {
    && before <= after && (after == before || after == cfg.burst as real)
    && (cfg.RefillsWhileIdle() ==> after == before)
  }

  /** What a call must be answered, from levels alone. */
  function Answer(cfg: Config, globalLevel: real, tool: string, toolLevel: real): Decision {
    if !cfg.global.Ready(globalLevel) then DeniedGlobal
    else if cfg.Metered(tool) && !cfg.perTool[tool].Ready(toolLevel) then DeniedTool
    else Allowed
  }

  function Paid(cfg: Cfg, d: Decision): real {
    if d == Allowed then cfg.Cost() else 0.0
  }

  /** caller + ":" + tool names one pair only, as long as tool names hold no colon. */
  lemma {:induction false} KeyInjective(c: string, tool: string, c': string, tool': string)
    requires Key(c, tool) == Key(c', tool') && ':' !in tool && ':' !in tool'
    ensures c == c' && tool == tool'
  {
    var k := Key(c, tool);
    assert k[|c|] == ':' && k[|c'|] == ':';
    assert |c| == |c'|;
    assert c == k[..|c|] && c' == k[..|c'|];
    assert tool == k[|c| + 1..] && tool' == k[|c'| + 1..];
  }

  lemma InvLater(cfg: Config, s: State, now: real, later: real)
    requires Inv(cfg, s, now) && now <= later
    ensures Inv(cfg, s, later)
  {
  }

  lemma LevelsInRange(cfg: Config, s: State, caller: string, tool: string, now: real)
    requires cfg.Sound() && Inv(cfg, s, now)
    ensures 0.0 <= GlobalLevel(cfg, s, caller, now) <= cfg.global.burst as real
    ensures cfg.Metered(tool) ==> 0.0 <= ToolLevel(cfg, s, caller, tool, now) <= cfg.perTool[tool].burst as real
  {
    if caller in s.globals {
      LevelInRange(s.globals[caller], now);
    }
    if cfg.Metered(tool) && Key(caller, tool) in s.tools {
      LevelInRange(s.tools[Key(caller, tool)], now);
    }
  }

  /** Levels at a later time are the levels now, refilled. */
  lemma LevelsLater(cfg: Config, s: State, caller: string, now: real, later: real)
    requires cfg.Sound() && Inv(cfg, s, now) && now <= later
    ensures GlobalLevel(cfg, s, caller, later) == Refill(cfg.global, GlobalLevel(cfg, s, caller, now), later - now)
    ensures forall tool :: cfg.Metered(tool) ==>
              ToolLevel(cfg, s, caller, tool, later) ==
              Refill(cfg.perTool[tool], ToolLevel(cfg, s, caller, tool, now), later - now)
  {
    if caller in s.globals {
      LevelLater(s.globals[caller], now, later);
    } else {
      FullStaysFull(cfg.global, later - now);
    }
    forall tool | cfg.Metered(tool)
      ensures ToolLevel(cfg, s, caller, tool, later) ==
              Refill(cfg.perTool[tool], ToolLevel(cfg, s, caller, tool, now), later - now)
    {
      if Key(caller, tool) in s.tools {
        LevelLater(s.tools[Key(caller, tool)], now, later);
      } else {
        FullStaysFull(cfg.perTool[tool], later - now);
      }
    }
  }

  /** Equal levels stay equal while nothing happens. */
  lemma SameForLater(cfg: Config, s: State, s': State, caller: string, now: real, later: real)
    requires cfg.Sound() && Inv(cfg, s, now) && Inv(cfg, s', now) && now <= later
    requires SameFor(cfg, s, s', caller, now)
    ensures SameFor(cfg, s, s', caller, later)
  {
    LevelsLater(cfg, s, caller, now, later);
    LevelsLater(cfg, s', caller, now, later);
  }

  /** Sweeping changes the level of no bucket that refills while idle, and lowers none. */
  lemma SweepKeepsLevels(cfg: Config, s: State, now: real)
    requires cfg.Sound() && Inv(cfg, s, now)
    ensures Inv(cfg, Sweep(s, now), now)
    ensures forall c :: SweptLevel(cfg.global, GlobalLevel(cfg, s, c, now), GlobalLevel(cfg, Sweep(s, now), c, now))
    ensures forall c, tool :: cfg.Metered(tool) ==>
              SweptLevel(cfg.perTool[tool], ToolLevel(cfg, s, c, tool, now), ToolLevel(cfg, Sweep(s, now), c, tool, now))
  {
    forall c ensures SweptLevel(cfg.global, GlobalLevel(cfg, s, c, now), GlobalLevel(cfg, Sweep(s, now), c, now)) {
      LevelsInRange(cfg, s, c, "", now);
      if c in s.globals && now - s.globals[c].lastTouched > IDLE && cfg.global.RefillsWhileIdle() {
        IdleIsFull(s.globals[c], now);
      }
    }
    forall c, tool | cfg.Metered(tool)
      ensures SweptLevel(cfg.perTool[tool], ToolLevel(cfg, s, c, tool, now), ToolLevel(cfg, Sweep(s, now), c, tool, now))
    {
      var k := Key(c, tool);
      LevelsInRange(cfg, s, c, tool, now);
      if k in s.tools && now - s.tools[k].lastTouched > IDLE && cfg.perTool[tool].RefillsWhileIdle() {
        IdleIsFull(s.tools[k], now);
      }
    }
  }

  /** The law of a charge: it is answered from the caller's own two levels, an allowed call
      costs exactly one token of each bucket it is metered by, and nothing else moves; a
      denied call moves no level at all. */
  lemma ChargeLaw(cfg: Config, s: State, caller: string, tool: string, now: real)
    requires cfg.Sound() && Inv(cfg, s, now)
    ensures var (s', d) := Charge(cfg, s, caller, tool, now);
            && Inv(cfg, s', now)
            && d == Answer(cfg, GlobalLevel(cfg, s, caller, now), tool,
                           if cfg.Metered(tool) then ToolLevel(cfg, s, caller, tool, now) else 0.0)
            && (forall c :: GlobalLevel(cfg, s', c, now) ==
                 GlobalLevel(cfg, s, c, now) - (if c == caller then Paid(cfg.global, d) else 0.0))
            && (forall c, t :: cfg.Metered(t) ==>
                 ToolLevel(cfg, s', c, t, now) == ToolLevel(cfg, s, c, t, now) -
                 (if c == caller && t == tool then Paid(cfg.perTool[t], d) else 0.0))
  {
    var g := Find(s.globals, caller, cfg.global, now);
    NewBucketFull(cfg.global, now);
    TakeLaw(g, now);
    var (g', ok) := TryTake(g, now);
    var s1 := s.(globals := s.globals[caller := g']);
    PutGlobal(cfg, s, caller, g', now);
    if ok && cfg.Metered(tool) {
      var key := Key(caller, tool);
      var b := Find(s.tools, key, cfg.perTool[tool], now);
      NewBucketFull(cfg.perTool[tool], now);
      TakeLaw(b, now);
      var (b', took) := TryTake(b, now);
      PutTool(cfg, s1, caller, tool, b', now);
      if !took {
        RefundLaw(g, now);
        var s2 := s.(tools := s.tools[key := b']);
        PutTool(cfg, s, caller, tool, b', now);
        PutGlobal(cfg, s2, caller, Refund(g', now), now);
        assert s1.(tools := s.tools[key := b'], globals := s.globals[caller := Refund(g', now)])
            == s2.(globals := s2.globals[caller := Refund(g', now)]);
      }
    }
  }

  /** When a call sweeps first: when more than five minutes have passed since the last sweep; and what
      a sweep drops: the buckets not touched for more than ten. */
  lemma SweepsWhenDue(cfg: Config, s: State, caller: string, tool: string, now: real)
    ensures var kept := State(map k | k in s.globals && now - s.globals[k].lastTouched <= 600.0 :: s.globals[k],
                              map k | k in s.tools && now - s.tools[k].lastTouched <= 600.0 :: s.tools[k], now);
            && Sweep(s, now) == kept
            && Allow(cfg, s, caller, tool, now) == Charge(cfg, if now - s.lastSwept > 300.0 then kept else s, caller, tool, now)
  {
  }

  /** Who denies a call, from the numbers the operator wrote: the global bucket if it is not the
      unlimited 0/0 one and holds less than a token; else the tool's, if the tool has a bucket that
      is neither disabled nor 0/0 and that holds less than one; else nobody. */
  lemma ReasonsAreRight(cfg: Config, s: State, caller: string, tool: string, now: real)
    requires cfg.Sound() && Inv(cfg, s, now)
    ensures var d, g := Charge(cfg, s, caller, tool, now).1, cfg.global;
            var short := !(g.sustainedPerMin == 0 && g.burst == 0) && GlobalLevel(cfg, s, caller, now) < 1.0;
            && (d == DeniedGlobal <==> short)
            && (d == DeniedTool <==>
                  && !short && tool in cfg.perTool && !cfg.perTool[tool].disabled
                  && !(cfg.perTool[tool].sustainedPerMin == 0 && cfg.perTool[tool].burst == 0)
                  && ToolLevel(cfg, s, caller, tool, now) < 1.0)
  {
    ChargeLaw(cfg, s, caller, tool, now);
  }

  lemma PutGlobal(cfg: Config, s: State, caller: string, b: BucketState, now: real)
    requires Inv(cfg, s, now) && b.cfg == cfg.global && BucketInv(b, now)
    ensures var s' := s.(globals := s.globals[caller := b]);
            && Inv(cfg, s', now)
            && (forall c :: GlobalLevel(cfg, s', c, now) ==
                  if c == caller then Level(b, now) else GlobalLevel(cfg, s, c, now))
            && (forall c, t :: cfg.Metered(t) ==> ToolLevel(cfg, s', c, t, now) == ToolLevel(cfg, s, c, t, now))
  {
  }

  lemma PutTool(cfg: Config, s: State, caller: string, tool: string, b: BucketState, now: real)
    requires cfg.Sound() && Inv(cfg, s, now)
    requires cfg.Metered(tool) && b.cfg == cfg.perTool[tool] && BucketInv(b, now)
    ensures var s' := s.(tools := s.tools[Key(caller, tool) := b]);
            && Inv(cfg, s', now)
            && (forall c :: GlobalLevel(cfg, s', c, now) == GlobalLevel(cfg, s, c, now))
            && (forall c, t :: cfg.Metered(t) ==>
                  ToolLevel(cfg, s', c, t, now) ==
                  if c == caller && t == tool then Level(b, now) else ToolLevel(cfg, s, c, t, now))
  {
    forall c, t | cfg.Metered(t) && Key(c, t) == Key(caller, tool) ensures c == caller && t == tool {
      KeyInjective(c, t, caller, tool);
    }
  }

  lemma NewBucketFull(cfg: Cfg, now: real)
    requires cfg.NonNegative()
    ensures BucketInv(NewBucket(cfg, now), now)
    ensures Level(NewBucket(cfg, now), now) == cfg.burst as real
  {
    FullStaysFull(cfg, 0.0);
  }

  // ---------------------------------------------------------------- theorems over runs

  lemma InitInv(cfg: Config, now: real)
    ensures Inv(cfg, Init(now), now)
  {
  }

  /** The law of a step of any limiter, safe or not: after the sweep, if there is one, the
      verdict is `Answer` of the levels, and only an allowed call moves a level, by its price. */
  lemma AnyStepLaw(cfg: Config, s: State, e: Event, now: real, sweeping: bool) returns (p: State)
    requires cfg.Sound() && Inv(cfg, s, now) && now <= e.at
    ensures p == s || (sweeping && p == Sweep(s, e.at))
    ensures Inv(cfg, s, e.at) && Inv(cfg, p, e.at)
    ensures forall c :: SweptLevel(cfg.global, GlobalLevel(cfg, s, c, e.at), GlobalLevel(cfg, p, c, e.at))
    ensures forall c, t :: cfg.Metered(t) ==>
              SweptLevel(cfg.perTool[t], ToolLevel(cfg, s, c, t, e.at), ToolLevel(cfg, p, c, t, e.at))
    ensures var (s', o) := Step(cfg, s, e, sweeping);
            && Inv(cfg, s', e.at)
            && (e.Call? ==> o == Verdict(AnswerIn(cfg, p, e)))
            && (e.Tick? ==> o == Swept)
            && (forall c :: GlobalLevel(cfg, s', c, e.at) == GlobalLevel(cfg, p, c, e.at) - Spent(cfg, e, o, c))
            && (forall c, t :: cfg.Metered(t) ==>
                 ToolLevel(cfg, s', c, t, e.at) == ToolLevel(cfg, p, c, t, e.at) - SpentOn(cfg, e, o, c, t))
  {
    InvLater(cfg, s, now, e.at);
    p := s;
    if sweeping && (e.Tick? || e.at - s.lastSwept > SWEEP_EVERY) {
      SweepKeepsLevels(cfg, s, e.at);
      p := Sweep(s, e.at);
    }
    if e.Call? {
      ChargeLaw(cfg, p, e.caller, e.tool, e.at);
    }
  }

  /** The answer to a call from the levels of a state. */
  ghost function AnswerIn(cfg: Config, s: State, e: Event): Decision
    requires e.Call?
  {
    Answer(cfg, GlobalLevel(cfg, s, e.caller, e.at), e.tool,
           if cfg.Metered(e.tool) then ToolLevel(cfg, s, e.caller, e.tool, e.at) else 0.0)
  }

  /** What comes in later, up to the cap, keeps one deficit within another. */
  lemma DeficitShrinks(gb: real, tb: real, gl: real, tl: real, g: real, t: real)
    requires tb - tl <= gb - gl && 0.0 <= g <= t && gl <= gb
    ensures tb - (if tl + t > tb then tb else tl + t) <= gb - (if gl + g > gb then gb else gl + g)
  {
  }

  lemma FasterAccrues(g: Cfg, t: Cfg, dt: real)
    requires g.sustainedPerMin <= t.sustainedPerMin && dt >= 0.0
    ensures Accrued(g, dt) <= Accrued(t, dt)
  {
    var x, y := g.Rate(), t.Rate();
    assert y - x == (t.sustainedPerMin - g.sustainedPerMin) as real / 60.0;
    assert dt * (y - x) >= 0.0;
    assert dt * y == dt * x + dt * (y - x);
  }

  /** Covered stays covered while both buckets refill. */
  lemma DeficitLater(g: Cfg, t: Cfg, gl: real, tl: real, dt: real)
    requires g.NonNegative() && t.NonNegative() && dt >= 0.0
    requires t.sustainedPerMin >= g.sustainedPerMin || g.burst == 0
    requires 0.0 <= gl <= g.burst as real && tl <= t.burst as real && t.burst as real - tl <= g.burst as real - gl
    ensures t.burst as real - Refill(t, tl, dt) <= g.burst as real - Refill(g, gl, dt)
  {
    AccruedGrows(g, 0.0, dt);
    if t.sustainedPerMin >= g.sustainedPerMin {
      FasterAccrues(g, t, dt);
      DeficitShrinks(g.burst as real, t.burst as real, gl, tl, Accrued(g, dt), Accrued(t, dt));
    } else {
      FullStaysFull(t, dt);
    }
  }

  lemma SteadyLater(cfg: Config, s: State, now: real, later: real)
    requires cfg.Sound() && Steady(cfg, s, now) && now <= later
    ensures Steady(cfg, s, later)
  {
    forall c, tool | cfg.Metered(tool) && cfg.NeverBinds(tool) ensures Covered(cfg, s, c, tool, later) {
      assert Covered(cfg, s, c, tool, now);
      LevelsLater(cfg, s, c, now, later);
      LevelsInRange(cfg, s, c, tool, now);
      DeficitLater(cfg.global, cfg.perTool[tool], GlobalLevel(cfg, s, c, now), ToolLevel(cfg, s, c, tool, now), later - now);
    }
  }

  /** Behind a global bucket that has a token, a bucket that never binds has one too. */
  lemma CoveredIsReady(cfg: Config, s: State, c: string, tool: string, now: real)
    requires cfg.Sound() && Steady(cfg, s, now) && cfg.Metered(tool) && cfg.NeverBinds(tool)
    requires cfg.global.Ready(GlobalLevel(cfg, s, c, now))
    ensures cfg.perTool[tool].Ready(ToolLevel(cfg, s, c, tool, now))
  {
    assert Covered(cfg, s, c, tool, now);
  }

  /** Two steady states that are the same for a caller give it the same answer. */
  lemma SameAnswer(cfg: Config, s1: State, s2: State, e: Event)
    requires cfg.Sound() && cfg.SweepSafe() && e.Call?
    requires Steady(cfg, s1, e.at) && Steady(cfg, s2, e.at) && SameFor(cfg, s1, s2, e.caller, e.at)
    ensures AnswerIn(cfg, s1, e) == AnswerIn(cfg, s2, e)
  {
    if cfg.Metered(e.tool) && cfg.NeverBinds(e.tool) && cfg.global.Ready(GlobalLevel(cfg, s1, e.caller, e.at)) {
      CoveredIsReady(cfg, s1, e.caller, e.tool, e.at);
      CoveredIsReady(cfg, s2, e.caller, e.tool, e.at);
    }
  }

  /** The law of a step of a safe limiter, for every caller at once: the verdict is `Answer` of
      the levels before it, sweep or no sweep, and only an allowed call moves a level of a
      bucket that refills while idle, by the price of that call. */
  lemma StepLaw(cfg: Config, s: State, e: Event, now: real, sweeping: bool)
    requires cfg.Sound() && cfg.SweepSafe() && Steady(cfg, s, now) && now <= e.at
    ensures Steady(cfg, s, e.at)
    ensures var (s', o) := Step(cfg, s, e, sweeping);
            && Steady(cfg, s', e.at)
            && (e.Call? ==> o == Verdict(AnswerIn(cfg, s, e)))
            && (e.Tick? ==> o == Swept)
            && (forall c :: GlobalLevel(cfg, s', c, e.at) == GlobalLevel(cfg, s, c, e.at) - Spent(cfg, e, o, c))
            && (forall c, t :: cfg.Metered(t) && cfg.perTool[t].RefillsWhileIdle() ==>
                 ToolLevel(cfg, s', c, t, e.at) == ToolLevel(cfg, s, c, t, e.at) - SpentOn(cfg, e, o, c, t))
  {
    SteadyLater(cfg, s, now, e.at);
    var p := AnyStepLaw(cfg, s, e, now, sweeping);
    PreparedSteady(cfg, s, p, e.at);
    var (s', o) := Step(cfg, s, e, sweeping);
    forall c, tool | cfg.Metered(tool) && cfg.NeverBinds(tool) ensures Covered(cfg, s', c, tool, e.at) {
      assert Covered(cfg, p, c, tool, e.at);
    }
    if e.Call? {
      SameAnswer(cfg, s, p, e);
    }
  }

  /** A sweep keeps a steady state steady, and the same for everybody. */
  lemma PreparedSteady(cfg: Config, s: State, p: State, now: real)
    requires cfg.Sound() && cfg.SweepSafe() && Steady(cfg, s, now) && Inv(cfg, p, now)
    requires forall c :: SweptLevel(cfg.global, GlobalLevel(cfg, s, c, now), GlobalLevel(cfg, p, c, now))
    requires forall c, t :: cfg.Metered(t) ==>
               SweptLevel(cfg.perTool[t], ToolLevel(cfg, s, c, t, now), ToolLevel(cfg, p, c, t, now))
    ensures Steady(cfg, p, now) && forall c :: SameFor(cfg, s, p, c, now)
  {
    forall c, tool | cfg.Metered(tool) && cfg.NeverBinds(tool) ensures Covered(cfg, p, c, tool, now) {
      assert Covered(cfg, s, c, tool, now);
    }
  }

  /** What a step takes from a caller's global bucket. */
  function Spent(cfg: Config, e: Event, o: Outcome, c: string): real {
    if e.Call? && o == Verdict(Allowed) && e.caller == c then cfg.global.Cost() else 0.0
  }

  /** What a step takes from the bucket of a caller and a tool. */
  function SpentOn(cfg: Config, e: Event, o: Outcome, c: string, tool: string): real
    requires cfg.Metered(tool)
  {
    if e.Call? && o == Verdict(Allowed) && e.caller == c && e.tool == tool then cfg.perTool[tool].Cost() else 0.0
  }

  lemma SameStep(cfg: Config, s1: State, s2: State, e: Event, now: real, sw1: bool, sw2: bool)
    requires cfg.Sound() && cfg.SweepSafe() && Steady(cfg, s1, now) && Steady(cfg, s2, now) && now <= e.at
    requires SameLevels(cfg, s1, s2, now)
    ensures var (s1', o1) := Step(cfg, s1, e, sw1);
            var (s2', o2) := Step(cfg, s2, e, sw2);
            && o1 == o2 && Steady(cfg, s1', e.at) && Steady(cfg, s2', e.at) && SameLevels(cfg, s1', s2', e.at)
  {
    StepLaw(cfg, s1, e, now, sw1);
    StepLaw(cfg, s2, e, now, sw2);
    forall c ensures SameFor(cfg, s1, s2, c, e.at) {
      assert SameFor(cfg, s1, s2, c, now);
      SameForLater(cfg, s1, s2, c, now, e.at);
    }
    if e.Call? {
      SameAnswer(cfg, s1, s2, e);
    }
    var s1', s2' := Step(cfg, s1, e, sw1).0, Step(cfg, s2, e, sw2).0;
    forall c ensures SameFor(cfg, s1', s2', c, e.at) {
      assert SameFor(cfg, s1, s2, c, e.at);
    }
  }

  /** Two limiters that start with equal levels answer every run alike, whether or not
      either of them sweeps. */
  lemma {:induction false} SameRuns(cfg: Config, s1: State, s2: State, run: seq<Event>, now: real, sw1: bool, sw2: bool)
    requires cfg.Sound() && cfg.SweepSafe()
    requires Steady(cfg, s1, now) && Steady(cfg, s2, now) && Ordered(now, run)
    requires SameLevels(cfg, s1, s2, now)
    ensures Outcomes(cfg, s1, run, sw1) == Outcomes(cfg, s2, run, sw2)
    decreases |run|
  {
    if |run| != 0 {
      SameStep(cfg, s1, s2, run[0], now, sw1, sw2);
      SameRuns(cfg, Step(cfg, s1, run[0], sw1).0, Step(cfg, s2, run[0], sw2).0, run[1..], run[0].at, sw1, sw2);
    }
  }

  /** Sweeping is invisible: on every run the limiter answers as one whose buckets live forever. */
  lemma SweepingIsInvisible(cfg: Config, run: seq<Event>, start: real)
    requires cfg.Sound() && cfg.SweepSafe() && Ordered(start, run)
    ensures Outcomes(cfg, Init(start), run, true) == Outcomes(cfg, Init(start), run, false)
  {
    assert SameLevels(cfg, Init(start), Init(start), start);
    SameRuns(cfg, Init(start), Init(start), run, start, true, false);
  }

  lemma {:induction false} RunKeepsInv(cfg: Config, s: State, run: seq<Event>, now: real, sweeping: bool)
    requires cfg.Sound() && Inv(cfg, s, now) && Ordered(now, run)
    ensures Inv(cfg, After(cfg, s, run, sweeping), LastTime(now, run)) && now <= LastTime(now, run)
    decreases |run|
  {
    if |run| != 0 {
      var p := AnyStepLaw(cfg, s, run[0], now, sweeping);
      RunKeepsInv(cfg, Step(cfg, s, run[0], sweeping).0, run[1..], run[0].at, sweeping);
    }
  }

  lemma {:induction false} RunKeepsSteady(cfg: Config, s: State, run: seq<Event>, now: real)
    requires cfg.Sound() && cfg.SweepSafe() && Steady(cfg, s, now) && Ordered(now, run)
    ensures Steady(cfg, After(cfg, s, run), LastTime(now, run)) && now <= LastTime(now, run)
    decreases |run|
  {
    if |run| != 0 {
      StepLaw(cfg, s, run[0], now, true);
      RunKeepsSteady(cfg, Step(cfg, s, run[0], true).0, run[1..], run[0].at);
    }
  }

  lemma {:induction false} OrderedSplit(now: real, a: seq<Event>, b: seq<Event>)
    requires Ordered(now, a + b)
    ensures Ordered(now, a) && Ordered(LastTime(now, a), b)
    decreases |a|
  {
    if |a| == 0 {
      assert a + b == b;
    } else {
      assert (a + b)[1..] == a[1..] + b;
      OrderedSplit(a[0].at, a[1..], b);
    }
  }

  /** A denied call, whichever bucket denied it, leaves every later answer to every caller
      as if the call had never been made. */
  lemma DeniedCallLeavesNoTrace(cfg: Config, start: real, before: seq<Event>, e: Event, after: seq<Event>)
    requires cfg.Sound() && cfg.SweepSafe() && Ordered(start, before + ([e] + after))
    requires var o := Step(cfg, After(cfg, Init(start), before), e, true).1; e.Call? && o != Verdict(Allowed)
    ensures var s := After(cfg, Init(start), before);
            Outcomes(cfg, Step(cfg, s, e, true).0, after, true) == Outcomes(cfg, s, after, true)
  {
    OrderedSplit(start, before, [e] + after);
    assert ([e] + after)[1..] == after;
    RunKeepsSteady(cfg, Init(start), before, start);
    var s, now := After(cfg, Init(start), before), LastTime(start, before);
    StepLaw(cfg, s, e, now, true);
    forall c ensures SameFor(cfg, Step(cfg, s, e, true).0, s, c, e.at) {
    }
    SameRuns(cfg, Step(cfg, s, e, true).0, s, after, e.at, true, true);
  }

  // ---- tools the operator opted out of

  /** The configuration without a bucket for this tool. */
  function Without(cfg: Config, tool: string): Config {
    Config(cfg.global, cfg.perTool - {tool})
  }

  /** A disabled bucket is no bucket: every call in every run, to whatever tool, is answered as if
      the tool had none. */
  lemma {:induction false} DisabledIsNone(cfg: Config, s: State, run: seq<Event>, sweeping: bool, tool: string)
    requires tool in cfg.perTool && cfg.perTool[tool].disabled
    ensures Outcomes(cfg, s, run, sweeping) == Outcomes(Without(cfg, tool), s, run, sweeping)
    ensures After(cfg, s, run, sweeping) == After(Without(cfg, tool), s, run, sweeping)
    decreases |run|
  {
    if |run| > 0 {
      assert Step(cfg, s, run[0], sweeping) == Step(Without(cfg, tool), s, run[0], sweeping);
      DisabledIsNone(cfg, Step(cfg, s, run[0], sweeping).0, run[1..], sweeping, tool);
    }
  }

  // ---- isolation

  /** The calls of one caller, in order. */
  function Mine(run: seq<Event>, c: string): seq<Event> {
    if |run| == 0 then []
    else (if run[0].Call? && run[0].caller == c then [run[0]] else []) + Mine(run[1..], c)
  }

  /** The answers one caller gets in a run. */
  function AnswersTo(cfg: Config, s: State, run: seq<Event>, c: string): seq<Outcome>
    decreases |run|
  {
    if |run| == 0 then []
    else
      var (s', o) := Step(cfg, s, run[0], true);
      (if run[0].Call? && run[0].caller == c then [o] else []) + AnswersTo(cfg, s', run[1..], c)
  }

  /** One event seen by a caller in the company of others and by the same caller alone. */
  lemma IsolatedStep(cfg: Config, s1: State, s2: State, e: Event, now: real, c: string)
    requires cfg.Sound() && cfg.SweepSafe() && now <= e.at
    requires Steady(cfg, s1, now) && Steady(cfg, s2, now) && SameFor(cfg, s1, s2, c, now)
    ensures var (s1', o1) := Step(cfg, s1, e, true);
            var (s2', o2) := Step(cfg, s2, e, true);
            && Steady(cfg, s1', e.at)
            && (e.Call? && e.caller == c ==> o1 == o2 && Steady(cfg, s2', e.at) && SameFor(cfg, s1', s2', c, e.at))
            && (!(e.Call? && e.caller == c) ==> SameFor(cfg, s1', s2, c, e.at))
  {
    StepLaw(cfg, s1, e, now, true);
    StepLaw(cfg, s2, e, now, true);
    SameForLater(cfg, s1, s2, c, now, e.at);
    if e.Call? && e.caller == c {
      SameAnswer(cfg, s1, s2, e);
    }
  }

  lemma {:induction false} IsolatedFrom(cfg: Config, s1: State, s2: State, run: seq<Event>, now: real, then_: real, c: string)
    requires cfg.Sound() && cfg.SweepSafe() && then_ <= now
    requires Steady(cfg, s1, now) && Steady(cfg, s2, then_) && Ordered(now, run)
    requires SameFor(cfg, s1, s2, c, now)
    ensures AnswersTo(cfg, s1, run, c) == Outcomes(cfg, s2, Mine(run, c), true)
    decreases |run|
  {
    if |run| != 0 {
      var e := run[0];
      SteadyLater(cfg, s2, then_, now);
      IsolatedStep(cfg, s1, s2, e, now, c);
      var s1' := Step(cfg, s1, e, true).0;
      if e.Call? && e.caller == c {
        IsolatedFrom(cfg, s1', Step(cfg, s2, e, true).0, run[1..], e.at, e.at, c);
        assert ([e] + Mine(run[1..], c))[1..] == Mine(run[1..], c);
      } else {
        IsolatedFrom(cfg, s1', s2, run[1..], e.at, then_, c);
        assert [] + Mine(run[1..], c) == Mine(run[1..], c);
      }
    }
  }

  /** Callers are isolated: the answers a caller gets are those it would get if its own
      timed calls were the only events there are. */
  lemma CallersAreIsolated(cfg: Config, run: seq<Event>, start: real, c: string)
    requires cfg.Sound() && cfg.SweepSafe() && Ordered(start, run)
    ensures AnswersTo(cfg, Init(start), run, c) == Outcomes(cfg, Init(start), Mine(run, c), true)
  {
    IsolatedFrom(cfg, Init(start), Init(start), run, start, start, c);
  }
}
