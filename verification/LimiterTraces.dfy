/** Exactly when callers are isolated, and exactly when a denied call leaves no trace.

    `Limiter.CallersAreIsolated` and `Limiter.DeniedCallLeavesNoTrace` are one half of each. The
    other half: whenever the sweep can be noticed at all, the events of others, and a denied call,
    can move it, by recording a sweep or by touching a bucket. */
module LimiterTraces {
  import opened TokenBucket
  import opened Limiter
  import opened Bursts
  import opened LimiterSweep

  // ---------------------------------------------------------------- sweeps that change nothing

  predicate SameMaps(s: State, s': State) {
    s.globals == s'.globals && s.tools == s'.tools
  }

  /** Every bucket has been touched since a time. */
  ghost predicate Touched(s: State, since: real) {
    && (forall k :: k in s.globals ==> s.globals[k].lastTouched >= since)
    && (forall k :: k in s.tools ==> s.tools[k].lastTouched >= since)
  }

  /** There are no buckets but those of one caller and one tool. */
  ghost predicate OnlyOf(s: State, c: string, tool: string) {
    (forall k :: k in s.globals ==> k == c) && (forall k :: k in s.tools ==> k == Key(c, tool))
  }

  lemma SweepLeaves(s: State, now: real)
    requires Touched(s, now - IDLE)
    ensures SameMaps(Sweep(s, now), s)
  {
  }

  /** A call whose sweep, if there is one, finds nothing idle, is answered as without sweeping. */
  lemma MirrorStep(cfg: Config, s1: State, s2: State, e: Event)
    requires e.Call? && SameMaps(s1, s2) && (Touched(s1, e.at - IDLE) || e.at - s1.lastSwept <= SWEEP_EVERY)
    ensures var (s1', o1) := Step(cfg, s1, e, true);
            var (s2', o2) := Step(cfg, s2, e, false);
            o1 == o2 && SameMaps(s1', s2')
  {
    if e.at - s1.lastSwept > SWEEP_EVERY {
      SweepLeaves(s1, e.at);
    }
  }

  /** A call that the global bucket does not stop touches both its buckets. */
  lemma CallTouches(cfg: Config, s: State, e: Event, now: real)
    requires cfg.Sound() && Inv(cfg, s, now) && now <= e.at && e.Call? && cfg.Metered(e.tool)
    requires OnlyOf(s, e.caller, e.tool) && !cfg.global.Unlimited() && !cfg.perTool[e.tool].Unlimited()
    requires Step(cfg, s, e, false).1 != Verdict(DeniedGlobal)
    ensures var s' := Step(cfg, s, e, false).0; OnlyOf(s', e.caller, e.tool) && Touched(s', e.at)
  {
  }

  /** On a dense run that the global bucket never stops, sweeping changes nothing. */
  lemma {:induction false} Mirror(cfg: Config, s1: State, s2: State, run: seq<Event>, now: real, c: string, tool: string)
    requires cfg.Sound() && cfg.Metered(tool) && !cfg.global.Unlimited() && !cfg.perTool[tool].Unlimited()
    requires SameMaps(s1, s2) && OnlyOf(s2, c, tool) && Touched(s2, now) && Inv(cfg, s2, now)
    requires Ordered(now, run) && AllCalls(run, c, tool) && Dense(now, run) && NoneGlobal(Outcomes(cfg, s2, run, false))
    ensures Outcomes(cfg, s1, run, true) == Outcomes(cfg, s2, run, false)
    ensures var t1, t2 := After(cfg, s1, run, true), After(cfg, s2, run, false);
            SameMaps(t1, t2) && OnlyOf(t2, c, tool) && Touched(t2, LastTime(now, run))
    decreases |run|
  {
    if |run| > 0 {
      var e, rest := run[0], run[1..];
      MirrorStep(cfg, s1, s2, e);
      MirrorRest(cfg, s2, run, now);
      CallTouches(cfg, s2, e, now);
      var p := AnyStepLaw(cfg, s2, e, now, false);
      Mirror(cfg, Step(cfg, s1, e, true).0, Step(cfg, s2, e, false).0, rest, e.at, c, tool);
    }
  }

  lemma MirrorRest(cfg: Config, s: State, run: seq<Event>, now: real)
    requires |run| > 0 && NoneGlobal(Outcomes(cfg, s, run, false))
    ensures Step(cfg, s, run[0], false).1 != Verdict(DeniedGlobal)
    ensures NoneGlobal(Outcomes(cfg, Step(cfg, s, run[0], false).0, run[1..], false))
  {
    var (s', o) := Step(cfg, s, run[0], false);
    var os, rest := Outcomes(cfg, s, run, false), Outcomes(cfg, s', run[1..], false);
    assert os == [o] + rest && os[0] == o;
    forall i | 0 <= i < |rest| ensures rest[i] != Verdict(DeniedGlobal) {
      assert os[i + 1] == rest[i];
    }
  }

  /** The same for a run whose first call comes so soon after a sweep that it makes none. */
  lemma MirrorAfterSweep(cfg: Config, s1: State, s2: State, run: seq<Event>, now: real, c: string, tool: string)
    requires cfg.Sound() && cfg.Metered(tool) && !cfg.global.Unlimited() && !cfg.perTool[tool].Unlimited()
    requires SameMaps(s1, s2) && OnlyOf(s2, c, tool) && Inv(cfg, s2, now)
    requires |run| > 0 && now <= run[0].at <= s1.lastSwept + SWEEP_EVERY
    requires Ordered(now, run) && AllCalls(run, c, tool) && Dense(now, run) && NoneGlobal(Outcomes(cfg, s2, run, false))
    ensures Outcomes(cfg, s1, run, true) == Outcomes(cfg, s2, run, false)
  {
    var e := run[0];
    MirrorStep(cfg, s1, s2, e);
    MirrorRest(cfg, s2, run, now);
    CallTouches(cfg, s2, e, now);
    var p := AnyStepLaw(cfg, s2, e, now, false);
    Mirror(cfg, Step(cfg, s1, e, true).0, Step(cfg, s2, e, false).0, run[1..], e.at, c, tool);
  }

  // ---------------------------------------------------------------- one caller among others

  lemma {:induction false} MineJoin(a: seq<Event>, b: seq<Event>, c: string)
    ensures Mine(a + b, c) == Mine(a, c) + Mine(b, c)
    decreases |a|
  {
    if |a| == 0 {
      assert a + b == b;
    } else {
      assert (a + b)[1..] == a[1..] + b;
      MineJoin(a[1..], b, c);
    }
  }

  lemma {:induction false} AnswersJoin(cfg: Config, s: State, a: seq<Event>, b: seq<Event>, c: string)
    ensures AnswersTo(cfg, s, a + b, c) == AnswersTo(cfg, s, a, c) + AnswersTo(cfg, After(cfg, s, a), b, c)
    decreases |a|
  {
    if |a| == 0 {
      assert a + b == b;
    } else {
      assert (a + b)[1..] == a[1..] + b;
      AnswersJoin(cfg, Step(cfg, s, a[0], true).0, a[1..], b, c);
    }
  }

  lemma {:induction false} AllMine(cfg: Config, s: State, run: seq<Event>, c: string)
    requires forall i :: 0 <= i < |run| ==> run[i].Call? && run[i].caller == c
    ensures Mine(run, c) == run && AnswersTo(cfg, s, run, c) == Outcomes(cfg, s, run, true)
    decreases |run|
  {
    if |run| > 0 {
      AllMine(cfg, Step(cfg, s, run[0], true).0, run[1..], c);
    }
  }

  lemma TickSeen(cfg: Config, s: State, t: real, b: seq<Event>, c: string)
    requires forall i :: 0 <= i < |b| ==> b[i].Call? && b[i].caller == c
    ensures AnswersTo(cfg, s, [Tick(t)] + b, c) == Outcomes(cfg, Sweep(s, t), b, true)
    ensures Mine([Tick(t)] + b, c) == b
  {
    assert ([Tick(t)] + b)[1..] == b;
    AllMine(cfg, Sweep(s, t), b, c);
  }

  /** A caller's calls with a tick between them, as the caller sees them. */
  lemma TickBetween(cfg: Config, s: State, a: seq<Event>, t: real, b: seq<Event>, c: string)
    requires forall i :: 0 <= i < |a| ==> a[i].Call? && a[i].caller == c
    requires forall i :: 0 <= i < |b| ==> b[i].Call? && b[i].caller == c
    ensures AnswersTo(cfg, s, a + ([Tick(t)] + b), c)
         == Outcomes(cfg, s, a, true) + Outcomes(cfg, Sweep(After(cfg, s, a), t), b, true)
  {
    AnswersJoin(cfg, s, a, [Tick(t)] + b, c);
    AllMine(cfg, s, a, c);
    TickSeen(cfg, After(cfg, s, a), t, b, c);
  }

  /** The same calls alone. */
  lemma WithoutTick(cfg: Config, s: State, a: seq<Event>, t: real, b: seq<Event>, c: string)
    requires forall i :: 0 <= i < |a| ==> a[i].Call? && a[i].caller == c
    requires forall i :: 0 <= i < |b| ==> b[i].Call? && b[i].caller == c
    ensures Mine(a + ([Tick(t)] + b), c) == a + b
    ensures Outcomes(cfg, s, a + b, true) == Outcomes(cfg, s, a, true) + Outcomes(cfg, After(cfg, s, a), b, true)
  {
    MineJoin(a, [Tick(t)] + b, c);
    AllMine(cfg, s, a, c);
    TickSeen(cfg, s, t, b, c);
    OutcomesJoin(cfg, s, a, b, true);
  }

  // ---------------------------------------------------------------- a bucket drained at the global rate

  /** What a drain leaves, in the limiter that sweeps as in one that does not. */
  lemma DrainMirrored(cfg: Config, start: real, c: string, tool: string)
    returns (m: nat, drain: seq<Event>, end: real)
    requires Drainable(cfg, tool)
    ensures cfg.perTool[tool].burst as real < Reach(m, Drop(cfg, tool))
    ensures AllCalls(drain, c, tool) && Ordered(start, drain)
    ensures LastTime(start, drain) < end <= LastTime(start, drain) + 60.0
    ensures var s1, s2 := After(cfg, Init(start), drain, true), After(cfg, Init(start), drain, false);
            && SameMaps(s1, s2) && OnlyOf(s2, c, tool) && Touched(s2, LastTime(start, drain))
            && Inv(cfg, s1, LastTime(start, drain)) && s1.lastSwept <= LastTime(start, drain)
            && Inv(cfg, s2, end) && GlobalFull(cfg, s2, c, end) && ToolLevel(cfg, s2, c, tool, end) < 1.0
  {
    m := EnoughCalls(cfg, tool);
    InitInv(cfg, start);
    drain, end := Drain(cfg, Init(start), c, tool, start, m);
    assert ToolLevel(cfg, Init(start), c, tool, start) == cfg.perTool[tool].burst as real;
    Mirror(cfg, Init(start), Init(start), drain, start, c, tool);
    RunKeepsInv(cfg, Init(start), drain, start, true);
    SweptByNow(cfg, Init(start), drain, start);
  }

  lemma {:induction false} SweptByNow(cfg: Config, s: State, run: seq<Event>, now: real)
    requires s.lastSwept <= now && Ordered(now, run)
    ensures After(cfg, s, run).lastSwept <= LastTime(now, run)
    decreases |run|
  {
    if |run| > 0 {
      SweptByNow(cfg, Step(cfg, s, run[0], true).0, run[1..], run[0].at);
    }
  }

  /** Calls that begin more than the idle time after the last one begin with a sweep. */
  lemma LateSweep(cfg: Config, s: State, run: seq<Event>)
    requires |run| > 0 && run[0].Call? && run[0].at - s.lastSwept > SWEEP_EVERY
    ensures Outcomes(cfg, s, run, true) == Outcomes(cfg, Sweep(s, run[0].at), run, true)
  {
    assert Step(cfg, s, run[0], true) == Step(cfg, Sweep(s, run[0].at), run[0], true);
  }

  /** A drained bucket: a tick in the idle time keeps it from being swept when its caller is back. */
  lemma DrainNotIsolated(cfg: Config, start: real, c: string, tool: string) returns (run: seq<Event>)
    requires Drainable(cfg, tool)
    ensures Ordered(start, run)
    ensures AnswersTo(cfg, Init(start), run, c) != Outcomes(cfg, Init(start), Mine(run, c), true)
  {
    var m, drain, end := DrainMirrored(cfg, start, c, tool);
    var s1, s2 := After(cfg, Init(start), drain, true), After(cfg, Init(start), drain, false);
    var later := SweepGetsAhead(cfg, s1, s2, c, tool, LastTime(start, drain), end);
    LevelsInRange(cfg, s2, c, tool, later);
    var probe := Probe(cfg, Sweep(s1, later), s2, c, tool, later, m);
    var t := end + 302.0;
    LateSweep(cfg, s1, probe);
    SweepLeaves(s1, t);
    MirrorAfterSweep(cfg, Sweep(s1, t), s2, probe, later, c, tool);
    run := drain + ([Tick(t)] + probe);
    TickBetween(cfg, Init(start), drain, t, probe, c);
    WithoutTick(cfg, Init(start), drain, t, probe, c);
    PrefixTells(Outcomes(cfg, Init(start), drain, true), Outcomes(cfg, Sweep(s1, t), probe, true), Outcomes(cfg, s1, probe, true));
    TickOrdered(start, drain, t, later, probe);
  }

  lemma PrefixTells(a: seq<Outcome>, b: seq<Outcome>, b': seq<Outcome>)
    requires b != b'
    ensures a + b != a + b'
  {
    assert (a + b)[|a|..] == b && (a + b')[|a|..] == b';
  }

  lemma TickOrdered(start: real, a: seq<Event>, t: real, later: real, b: seq<Event>)
    requires Ordered(start, a) && LastTime(start, a) <= t <= later && Ordered(later, b)
    ensures Ordered(start, a + ([Tick(t)] + b))
  {
    assert ([Tick(t)] + b)[1..] == b;
    OrderedEarlier(t, later, b);
    OrderedJoin(start, a, [Tick(t)] + b);
  }

  // ---------------------------------------------------------------- a bucket emptied at once

  /** A slow bucket that alone decides over the calls of a tool. */
  predicate Solo(cfg: Config, tool: string) {
    cfg.Sound() && Burstable(cfg, tool) && (cfg.Metered(tool) ==> cfg.global.Unlimited())
  }

  /** Where the condition fails, there is such a bucket or one that can be drained. */
  lemma UnsafeCases(cfg: Config) returns (tool: string)
    requires cfg.Sound() && !cfg.SweepSafe()
    ensures Solo(cfg, tool) || Drainable(cfg, tool)
  {
    tool := UnmeteredTool(cfg);
    if cfg.global.RefillsWhileIdle() {
      tool :| tool in cfg.perTool && cfg.Metered(tool) && !cfg.perTool[tool].RefillsWhileIdle() && !cfg.NeverBinds(tool);
    }
  }

  /** Buckets made since the start have been touched since. */
  lemma {:induction false} BurstTouched(cfg: Config, s: State, e: Event, n: nat, since: real)
    requires Touched(s, since) && since <= e.at && e.Call? && e.at - s.lastSwept <= SWEEP_EVERY
    ensures Touched(After(cfg, s, Repeat(e, n), true), since)
    decreases n
  {
    if n > 0 {
      assert Repeat(e, n)[1..] == Repeat(e, n - 1);
      BurstTouched(cfg, Step(cfg, s, e, true).0, e, n - 1, since);
    }
  }

  lemma JustLaterShort(b: Cfg)
    requires b.sustainedPerMin >= 0
    ensures JustLater(b) <= IDLE + 1.0
  {
    var s := b.sustainedPerMin as real;
    assert 1.0 / (s + 1.0) * (s + 1.0) == 1.0;
  }

  /** An emptied bucket that is kept denies a second burst; alone, its caller gets both. */
  lemma SoloNotIsolated(cfg: Config, start: real, c: string, tool: string) returns (run: seq<Event>)
    requires Solo(cfg, tool)
    ensures Ordered(start, run)
    ensures AnswersTo(cfg, Init(start), run, c) != Outcomes(cfg, Init(start), Mine(run, c), true)
  {
    var n, later := OwnBucket(cfg, tool).burst, start + JustLater(OwnBucket(cfg, tool));
    var a, b, t := Repeat(Call(c, tool, start), n), Repeat(Call(c, tool, later), n), start + 400.0;
    run := a + ([Tick(t)] + b);
    SoloAnswers(cfg, start, c, tool, t);
    RepeatAll(Call(c, tool, start), n);
    RepeatAll(Call(c, tool, later), n);
    WithoutTick(cfg, Init(start), a, t, b, c);
    SweptAllowsBoth(cfg, start, c, tool);
    JustLaterShort(OwnBucket(cfg, tool));
    OrderedRepeat(start, Call(c, tool, start), n);
    OrderedRepeat(later, Call(c, tool, later), n);
    TickOrdered(start, a, t, later, b);
  }

  /** With the tick between them not all calls of the two bursts are allowed. */
  lemma SoloAnswers(cfg: Config, start: real, c: string, tool: string, t: real)
    requires Solo(cfg, tool) && t == start + 400.0
    ensures var n, later := OwnBucket(cfg, tool).burst, start + JustLater(OwnBucket(cfg, tool));
            var a, b := Repeat(Call(c, tool, start), n), Repeat(Call(c, tool, later), n);
            !AllAllowed(AnswersTo(cfg, Init(start), a + ([Tick(t)] + b), c))
  {
    var n, later := OwnBucket(cfg, tool).burst, start + JustLater(OwnBucket(cfg, tool));
    var a, b := Repeat(Call(c, tool, start), n), Repeat(Call(c, tool, later), n);
    RepeatAll(Call(c, tool, start), n);
    RepeatAll(Call(c, tool, later), n);
    TickBetween(cfg, Init(start), a, t, b, c);
    SoloKept(cfg, start, c, tool, t);
    AllAllowedSuffix(Outcomes(cfg, Init(start), a, true), Outcomes(cfg, Sweep(After(cfg, Init(start), a), t), b, true));
  }

  /** After a tick in the idle time the second burst is not allowed whole. */
  lemma SoloKept(cfg: Config, start: real, c: string, tool: string, t: real)
    requires Solo(cfg, tool) && t == start + 400.0
    ensures var n, later := OwnBucket(cfg, tool).burst, start + JustLater(OwnBucket(cfg, tool));
            var s := After(cfg, Init(start), Repeat(Call(c, tool, start), n), true);
            !AllAllowed(Outcomes(cfg, Sweep(s, t), Repeat(Call(c, tool, later), n), true))
  {
    var n, later := OwnBucket(cfg, tool).burst, start + JustLater(OwnBucket(cfg, tool));
    var e1, e2 := Call(c, tool, start), Call(c, tool, later);
    var s := After(cfg, Init(start), Repeat(e1, n), true);
    BurstKept(cfg, start, e1, n, t);
    JustLaterShort(OwnBucket(cfg, tool));
    NotAffordable(cfg, s, start, e1, later);
    LevelsOfMaps(cfg, s, Sweep(s, t), e2, start, n);
    BurstLaw(cfg, Sweep(s, t), e2, n, true);
  }

  /** A tick in the idle time after a burst finds nothing to sweep. */
  lemma BurstKept(cfg: Config, start: real, e: Event, n: nat, t: real)
    requires cfg.Sound() && e.Call? && e.at == start && AffordsCalls(cfg, Init(start), e, n) && t <= start + IDLE
    ensures var s := After(cfg, Init(start), Repeat(e, n), true);
            && Inv(cfg, s, start) && Billed(cfg, Init(start), s, e, n) && SameMaps(Sweep(s, t), s)
  {
    FirstBurst(cfg, start, e, n, true);
    BurstTouched(cfg, Init(start), e, n, start);
    SweepLeaves(After(cfg, Init(start), Repeat(e, n), true), t);
  }

  lemma LevelsOfMaps(cfg: Config, s: State, s': State, e: Event, now: real, n: nat)
    requires SameMaps(s, s') && e.Call? && Inv(cfg, s, now) && now <= e.at
    ensures Inv(cfg, s', e.at) && (AffordsCalls(cfg, s, e, n) <==> AffordsCalls(cfg, s', e, n))
  {
    InvLater(cfg, s, now, e.at);
  }

  /** Isolation, exactly: the answers a caller gets are those it would get if its own timed calls
      were the only events, in every run, if and only if the sweep cannot be noticed. */
  lemma IsolationIsExact(cfg: Config, start: real, c: string)
    requires cfg.Sound()
    ensures cfg.SweepSafe() <==>
            forall run :: Ordered(start, run) ==>
              AnswersTo(cfg, Init(start), run, c) == Outcomes(cfg, Init(start), Mine(run, c), true)
  {
    if cfg.SweepSafe() {
      forall run | Ordered(start, run)
        ensures AnswersTo(cfg, Init(start), run, c) == Outcomes(cfg, Init(start), Mine(run, c), true)
      {
        CallersAreIsolated(cfg, run, start, c);
      }
    } else {
      var tool := UnsafeCases(cfg);
      var run;
      if Solo(cfg, tool) {
        run := SoloNotIsolated(cfg, start, c, tool);
      } else {
        run := DrainNotIsolated(cfg, start, c, tool);
      }
    }
  }

  // ---------------------------------------------------------------- a denied call

  /** A call that was denied. */
  ghost predicate Denied(cfg: Config, start: real, before: seq<Event>, e: Event) {
    e.Call? && Step(cfg, After(cfg, Init(start), before), e, true).1 != Verdict(Allowed)
  }

  /** Later answers are as if it had not been made. */
  ghost predicate NoTrace(cfg: Config, start: real, before: seq<Event>, e: Event, after: seq<Event>) {
    var s := After(cfg, Init(start), before);
    Outcomes(cfg, Step(cfg, s, e, true).0, after, true) == Outcomes(cfg, s, after, true)
  }

  lemma DeniedOrdered(start: real, a: seq<Event>, e: Event, t: real, b: seq<Event>)
    requires Ordered(start, a) && LastTime(start, a) <= e.at <= t && Ordered(t, b)
    ensures Ordered(start, a + ([e] + ([Tick(t)] + b)))
  {
    assert ([Tick(t)] + b)[1..] == b && ([e] + ([Tick(t)] + b))[1..] == [Tick(t)] + b;
    OrderedJoin(start, a, [e] + ([Tick(t)] + b));
  }

  /** What follows a tick. */
  lemma AfterTick(cfg: Config, s: State, t: real, b: seq<Event>)
    ensures Outcomes(cfg, s, [Tick(t)] + b, true) == [Swept] + Outcomes(cfg, Sweep(s, t), b, true)
  {
    assert ([Tick(t)] + b)[1..] == b;
  }

  /** A call denied by the tool's bucket leaves all levels as they were. */
  lemma DeniedKeepsLevels(cfg: Config, s: State, e: Event, later: real)
    requires cfg.Sound() && e.Call? && cfg.Metered(e.tool) && Inv(cfg, s, e.at) && later >= e.at
    requires Step(cfg, s, e, false).1 != Verdict(Allowed)
    ensures var s' := Step(cfg, s, e, false).0;
            && Inv(cfg, s', later)
            && GlobalLevel(cfg, s', e.caller, later) == GlobalLevel(cfg, s, e.caller, later)
            && ToolLevel(cfg, s', e.caller, e.tool, later) == ToolLevel(cfg, s, e.caller, e.tool, later)
  {
    var p := AnyStepLaw(cfg, s, e, e.at, false);
    var s' := Step(cfg, s, e, false).0;
    LevelsLater(cfg, s, e.caller, e.at, later);
    LevelsLater(cfg, s', e.caller, e.at, later);
    InvLater(cfg, s', e.at, later);
  }

  /** The drained bucket at the end of the drain denies a call. */
  lemma DrainedDenies(cfg: Config, s: State, c: string, tool: string, end: real)
    requires Drainable(cfg, tool) && Inv(cfg, s, end) && GlobalFull(cfg, s, c, end) && ToolLevel(cfg, s, c, tool, end) < 1.0
    ensures Step(cfg, s, Call(c, tool, end), false).1 == Verdict(DeniedTool)
  {
    var p := AnyStepLaw(cfg, s, Call(c, tool, end), end, false);
  }

  /** A denied call at the end of the drain keeps the bucket from being swept, since it touches it:
      without it the bucket has been idle a little longer than the idle time, with it a little less. */
  lemma DeniedStaysBehind(cfg: Config, s1: State, s2: State, c: string, tool: string, last: real, end: real, later: real)
    requires Drainable(cfg, tool) && last <= end && Inv(cfg, s1, last) && last + IDLE < later && end <= later < end + IDLE
    requires Inv(cfg, s2, end) && GlobalFull(cfg, s2, c, end) && ToolLevel(cfg, s2, c, tool, end) < 1.0
    ensures var s2' := Step(cfg, s2, Call(c, tool, end), false).0;
            && Ahead(cfg, Sweep(s1, later), s2', c, tool, later)
            && ToolLevel(cfg, Sweep(s1, later), c, tool, later) == cfg.perTool[tool].burst as real
  {
    var t, e := cfg.perTool[tool], Call(c, tool, end);
    DrainedDenies(cfg, s2, c, tool, end);
    DeniedKeepsLevels(cfg, s2, e, later);
    SweptEmpty(cfg, s1, last, later);
    LevelsLater(cfg, s2, c, end, later);
    FullStaysFull(cfg.global, later - end);
    LessThanIdle(t, later - end);
  }

  lemma LessThanIdle(t: Cfg, dt: real)
    requires t.NonNegative() && 0.0 <= dt <= IDLE
    ensures Accrued(t, dt) <= (10 * t.sustainedPerMin) as real
  {
    AccruedGrows(t, dt, IDLE);
    assert Accrued(t, IDLE) == (10 * t.sustainedPerMin) as real;
  }

  lemma DrainLeavesTrace(cfg: Config, start: real, c: string, tool: string)
    returns (before: seq<Event>, e: Event, after: seq<Event>)
    requires Drainable(cfg, tool)
    ensures Ordered(start, before + ([e] + after)) && Denied(cfg, start, before, e) && !NoTrace(cfg, start, before, e, after)
  {
    var m, end;
    m, before, end := DrainMirrored(cfg, start, c, tool);
    var last := LastTime(start, before);
    var s1, s2 := After(cfg, Init(start), before, true), After(cfg, Init(start), before, false);
    e := Call(c, tool, end);
    DrainedDenies(cfg, s2, c, tool, end);
    MirrorStep(cfg, s1, s2, e);
    CallTouches(cfg, s2, e, end);
    var d1, d2 := Step(cfg, s1, e, true).0, Step(cfg, s2, e, false).0;
    var later := (last + end) / 2.0 + IDLE;
    DeniedStaysBehind(cfg, s1, s2, c, tool, last, end, later);
    LevelsInRange(cfg, d2, c, tool, later);
    var probe := Probe(cfg, Sweep(s1, later), d2, c, tool, later, m);
    SweepLeaves(d1, later);
    MirrorAfterSweep(cfg, Sweep(d1, later), d2, probe, later, c, tool);
    after := [Tick(later)] + probe;
    AfterTick(cfg, s1, later, probe);
    AfterTick(cfg, d1, later, probe);
    PrefixTells([Swept], Outcomes(cfg, Sweep(d1, later), probe, true), Outcomes(cfg, Sweep(s1, later), probe, true));
    DeniedOrdered(start, before, e, later, probe);
  }

  // ---- a bucket emptied at once

  function OwnLevel(cfg: Config, s: State, c: string, tool: string, t: real): real {
    if cfg.Metered(tool) then ToolLevel(cfg, s, c, tool, t) else GlobalLevel(cfg, s, c, t)
  }

  /** A call that finds less than a token is denied, and touches the bucket it found empty: a sweep
      within the idle time leaves that as it is. */
  lemma SoloDenied(cfg: Config, s: State, e: Event, later: real)
    requires e.Call? && Solo(cfg, e.tool) && Inv(cfg, s, e.at) && e.at - s.lastSwept <= SWEEP_EVERY
    requires OwnLevel(cfg, s, e.caller, e.tool, e.at) < 1.0 && e.at <= later <= e.at + IDLE
    ensures var (d, o) := Step(cfg, s, e, true);
            && o != Verdict(Allowed) && Inv(cfg, Sweep(d, later), later)
            && OwnLevel(cfg, Sweep(d, later), e.caller, e.tool, later) == OwnLevel(cfg, s, e.caller, e.tool, later)
  {
    var d := Step(cfg, s, e, true).0;
    ChargeLaw(cfg, s, e.caller, e.tool, e.at);
    LevelsLater(cfg, s, e.caller, e.at, later);
    LevelsLater(cfg, d, e.caller, e.at, later);
    InvLater(cfg, d, e.at, later);
    SweepKeepsLevels(cfg, d, later);
    OwnTouched(cfg, s, e);
  }

  lemma OwnTouched(cfg: Config, s: State, e: Event)
    requires e.Call? && Solo(cfg, e.tool) && Inv(cfg, s, e.at) && e.at - s.lastSwept <= SWEEP_EVERY
    ensures var d := Step(cfg, s, e, true).0;
            if cfg.Metered(e.tool)
            then Key(e.caller, e.tool) in d.tools && d.tools[Key(e.caller, e.tool)].lastTouched == e.at
            else e.caller in d.globals && d.globals[e.caller].lastTouched == e.at
  {
    NewBucketFull(cfg.global, e.at);
    TakeLaw(Find(s.globals, e.caller, cfg.global, e.at), e.at);
  }

  /** A moment in which the emptied bucket gains less than a token. */
  lemma ShortWhile(b: Cfg) returns (dt: real)
    requires b.NonNegative() && !b.RefillsWhileIdle()
    ensures 0.0 < dt <= 1.0 && Refill(b, 0.0, dt) < 1.0 && Refill(b, 0.0, IDLE + dt / 2.0) < b.burst as real
  {
    var r := b.Rate();
    dt := 1.0 / (r + 1.0);
    assert r >= 0.0 && dt * (r + 1.0) == 1.0;
    assert Accrued(b, dt) == 1.0 - dt;
    AccruedAdds(b, IDLE, dt / 2.0);
    AccruedAdds(b, dt / 2.0, dt / 2.0);
    assert dt / 2.0 + dt / 2.0 == dt;
    assert Accrued(b, IDLE) == (10 * b.sustainedPerMin) as real;
  }

  /** The bucket after a burst of everything it held. */
  lemma Emptied(cfg: Config, start: real, c: string, tool: string, t: real)
    requires Solo(cfg, tool) && t >= start
    ensures var n := OwnBucket(cfg, tool).burst;
            var s := After(cfg, Init(start), Repeat(Call(c, tool, start), n), true);
            && Inv(cfg, s, start) && s.lastSwept == start
            && OwnLevel(cfg, s, c, tool, t) == Refill(OwnBucket(cfg, tool), 0.0, t - start)
  {
    var n, e := OwnBucket(cfg, tool).burst, Call(c, tool, start);
    InitInv(cfg, start);
    BurstLaw(cfg, Init(start), e, n, true);
    LevelsLater(cfg, After(cfg, Init(start), Repeat(e, n), true), c, start, t);
  }

  lemma SoloLeavesTrace(cfg: Config, start: real, c: string, tool: string)
    returns (before: seq<Event>, e: Event, after: seq<Event>)
    requires Solo(cfg, tool)
    ensures Ordered(start, before + ([e] + after)) && Denied(cfg, start, before, e) && !NoTrace(cfg, start, before, e, after)
  {
    var own := OwnBucket(cfg, tool);
    var n := own.burst;
    var dt := ShortWhile(own);
    var later := start + IDLE + dt / 2.0;
    var e1, e2 := Call(c, tool, start), Call(c, tool, later);
    before, e, after := Repeat(e1, n), Call(c, tool, start + dt), [Tick(later)] + Repeat(e2, n);
    var s := After(cfg, Init(start), before, true);
    Emptied(cfg, start, c, tool, start + dt);
    Emptied(cfg, start, c, tool, later);
    assert start + dt - start == dt && later - start == IDLE + dt / 2.0;
    InvLater(cfg, s, start, e.at);
    SoloDenied(cfg, s, e, later);
    var d := Step(cfg, s, e, true).0;
    BurstLaw(cfg, Sweep(d, later), e2, n, true);
    SweptEmpty(cfg, s, start, later);
    BurstLaw(cfg, Sweep(s, later), e2, n, true);
    AfterTick(cfg, s, later, Repeat(e2, n));
    AfterTick(cfg, d, later, Repeat(e2, n));
    PrefixTells([Swept], Outcomes(cfg, Sweep(d, later), Repeat(e2, n), true), Outcomes(cfg, Sweep(s, later), Repeat(e2, n), true));
    OrderedRepeat(start, e1, n);
    OrderedRepeat(later, e2, n);
    DeniedOrdered(start, before, e, later, Repeat(e2, n));
  }

  /** Traces, exactly: no denied call, in any run, changes a later answer to anybody, if and only if
      the sweep cannot be noticed. */
  lemma NoTraceIsExact(cfg: Config, start: real)
    requires cfg.Sound()
    ensures cfg.SweepSafe() <==>
            forall before, e, after :: Ordered(start, before + ([e] + after)) && Denied(cfg, start, before, e) ==>
              NoTrace(cfg, start, before, e, after)
  {
    if cfg.SweepSafe() {
      forall before, e, after | Ordered(start, before + ([e] + after)) && Denied(cfg, start, before, e)
        ensures NoTrace(cfg, start, before, e, after)
      {
        DeniedCallLeavesNoTrace(cfg, start, before, e, after);
      }
    } else {
      var tool := UnsafeCases(cfg);
      var before, e, after;
      if Solo(cfg, tool) {
        before, e, after := SoloLeavesTrace(cfg, start, "", tool);
      } else {
        before, e, after := DrainLeavesTrace(cfg, start, "", tool);
      }
    }
  }
}
