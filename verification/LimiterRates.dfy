/** How much the limiter lets through: token-bucket bounds over any window of any run, for a
    caller and for a caller's use of one expensive tool, each under its own bucket's condition. */
module LimiterRates {
  import opened TokenBucket
  import opened Limiter
  import opened Bursts

  /** What is counted: all calls of a caller, or its calls to one metered tool. */
  datatype Meter = OfCaller(caller: string) | OfTool(caller: string, tool: string) {

    predicate In(cfg: Config) {
      OfTool? ==> tool in cfg.perTool && !cfg.perTool[tool].disabled
    }

    predicate Covers(e: Event) {
      e.Call? && e.caller == caller && (OfTool? ==> e.tool == tool)
    }
  }

  /** The bucket a meter goes by. */
  function BucketOf(cfg: Config, m: Meter): Cfg
    requires m.In(cfg)
  {
    if m.OfCaller? then cfg.global else cfg.perTool[m.tool]
  }

  function LevelOf(cfg: Config, s: State, m: Meter, t: real): real
    requires m.In(cfg)
  {
    if m.OfCaller? then GlobalLevel(cfg, s, m.caller, t) else ToolLevel(cfg, s, m.caller, m.tool, t)
  }

  function Counted(m: Meter, e: Event, o: Outcome): nat {
    if m.Covers(e) && o == Verdict(Allowed) then 1 else 0
  }

  /** How many calls a run allows. */
  function AllowedCalls(cfg: Config, s: State, run: seq<Event>, m: Meter): nat
    decreases |run|
  {
    if |run| == 0 then 0
    else
      var (s', o) := Step(cfg, s, run[0], true);
      Counted(m, run[0], o) + AllowedCalls(cfg, s', run[1..], m)
  }

  lemma {:induction false} CountJoin(cfg: Config, s: State, a: seq<Event>, b: seq<Event>, m: Meter)
    ensures After(cfg, s, a + b) == After(cfg, After(cfg, s, a), b)
    ensures AllowedCalls(cfg, s, a + b, m) == AllowedCalls(cfg, s, a, m) + AllowedCalls(cfg, After(cfg, s, a), b, m)
    decreases |a|
  {
    if |a| == 0 {
      assert a + b == b;
    } else {
      assert (a + b)[1..] == a[1..] + b;
      CountJoin(cfg, Step(cfg, s, a[0], true).0, a[1..], b, m);
    }
  }

  /** A bucket that counts, and that a sweep does not refill early. */
  predicate Bounds(b: Cfg) {
    !(b.sustainedPerMin == 0 && b.burst == 0) && b.burst <= 10 * b.sustainedPerMin
  }

  /** The tokens at a time less all that have accrued since time zero: it only ever falls. */
  function Balance(cfg: Config, s: State, m: Meter, t: real): real
    requires m.In(cfg)
  {
    LevelOf(cfg, s, m, t) - Accrued(BucketOf(cfg, m), t)
  }

  /** A step's calls are paid for out of the balance. */
  lemma StepBudget(cfg: Config, s: State, e: Event, now: real, m: Meter)
    requires cfg.Sound() && Inv(cfg, s, now) && now <= e.at && m.In(cfg) && Bounds(BucketOf(cfg, m))
    ensures var (s', o) := Step(cfg, s, e, true);
            Inv(cfg, s', e.at) && Counted(m, e, o) as real <= Balance(cfg, s, m, now) - Balance(cfg, s', m, e.at)
  {
    var p := AnyStepLaw(cfg, s, e, now, true);
    LevelsLater(cfg, s, m.caller, now, e.at);
    AccruedBetween(BucketOf(cfg, m), now, e.at);
  }

  /** Conservation: calls allowed never exceed the balance plus all that accrues. */
  lemma {:induction false} Budget(cfg: Config, s: State, run: seq<Event>, now: real, m: Meter)
    requires cfg.Sound() && Inv(cfg, s, now) && Ordered(now, run) && m.In(cfg) && Bounds(BucketOf(cfg, m))
    ensures AllowedCalls(cfg, s, run, m) as real
            <= Balance(cfg, s, m, now) + Accrued(BucketOf(cfg, m), LastTime(now, run))
    decreases |run|
  {
    if |run| == 0 {
      MeterInRange(cfg, s, m, now);
    } else {
      var e := run[0];
      StepBudget(cfg, s, e, now, m);
      Budget(cfg, Step(cfg, s, e, true).0, run[1..], e.at, m);
    }
  }

  lemma MeterInRange(cfg: Config, s: State, m: Meter, now: real)
    requires cfg.Sound() && Inv(cfg, s, now) && m.In(cfg)
    ensures 0.0 <= LevelOf(cfg, s, m, now) <= BucketOf(cfg, m).burst as real
  {
    LevelsInRange(cfg, s, m.caller, if m.OfTool? then m.tool else "", now);
  }

  /** What a token bucket promises: burst plus rate times the time between the first and the
      last event of the window. */
  ghost predicate WithinRate(cfg: Config, start: real, before: seq<Event>, window: seq<Event>, m: Meter)
    requires m.In(cfg) && |window| > 0
  {
    AllowedCalls(cfg, After(cfg, Init(start), before), window, m) as real
    <= BucketOf(cfg, m).burst as real + Accrued(BucketOf(cfg, m), LastTime(start, window) - window[0].at)
  }

  /** In any window of any run a caller, or a caller's use of a tool, is allowed at most its
      bucket's burst plus the sustained rate for the length of the window. Nothing is asked of
      any other bucket. */
  lemma WindowBound(cfg: Config, start: real, before: seq<Event>, window: seq<Event>, m: Meter)
    requires cfg.Sound() && m.In(cfg) && Bounds(BucketOf(cfg, m))
    requires Ordered(start, before + window) && |window| > 0
    ensures WithinRate(cfg, start, before, window, m)
  {
    var s := WindowStart(cfg, start, before, window);
    var first, last := window[0].at, LastTime(start, window);
    Budget(cfg, s, window, first, m);
    MeterInRange(cfg, s, m, first);
    AccruedBetween(BucketOf(cfg, m), first, last);
  }

  lemma WindowStart(cfg: Config, start: real, before: seq<Event>, window: seq<Event>) returns (s: State)
    requires cfg.Sound() && Ordered(start, before + window) && |window| > 0
    ensures s == After(cfg, Init(start), before)
    ensures Inv(cfg, s, window[0].at) && Ordered(window[0].at, window)
  {
    s := After(cfg, Init(start), before);
    OrderedSplit(start, before, window);
    RunKeepsInv(cfg, Init(start), before, start, true);
    InvLater(cfg, s, LastTime(start, before), window[0].at);
  }

  // ---------------------------------------------------------------- the condition is exact

  lemma {:induction false} AllCounted(cfg: Config, s: State, run: seq<Event>, m: Meter)
    requires AllAllowed(Outcomes(cfg, s, run, true)) && forall i :: 0 <= i < |run| ==> m.Covers(run[i])
    ensures AllowedCalls(cfg, s, run, m) == |run|
    decreases |run|
  {
    if |run| > 0 {
      var (s', o) := Step(cfg, s, run[0], true);
      var rest := Outcomes(cfg, s', run[1..], true);
      AllAllowedSuffix([o], rest);
      assert [o][0] == Verdict(Allowed);
      AllCounted(cfg, s', run[1..], m);
    }
  }

  /** A bucket that is swept before it has refilled lets through more than its rate. */
  lemma TwoBurstsExceed(cfg: Config, start: real, c: string, tool: string)
    requires cfg.Sound() && Burstable(cfg, tool)
    ensures var run := TwoBursts(cfg, start, c, tool);
            var m := if cfg.Metered(tool) then OfTool(c, tool) else OfCaller(c);
            Ordered(start, [] + run) && |run| > 0 && !WithinRate(cfg, start, [], run, m)
  {
    var run, b := TwoBursts(cfg, start, c, tool), OwnBucket(cfg, tool);
    TwoBurstsOrdered(cfg, start, c, tool);
    SweptAllowsBoth(cfg, start, c, tool);
    AllCounted(cfg, Init(start), run, if cfg.Metered(tool) then OfTool(c, tool) else OfCaller(c));
    NotFullYet(b);
    assert [] + run == run;
    assert start + JustLater(b) - start == JustLater(b);
  }

  /** An unlimited bucket lets through more than a rate of nothing. */
  lemma UnlimitedExceeds(cfg: Config, start: real, c: string, tool: string)
    requires cfg.Sound() && cfg.global.Unlimited() && !cfg.Metered(tool)
    ensures var run := [Call(c, tool, start)];
            Ordered(start, [] + run) && !WithinRate(cfg, start, [], run, OfCaller(c))
  {
    var run := [Call(c, tool, start)];
    assert [] + run == run && run[1..] == [];
    assert AllowedCalls(cfg, Init(start), run, OfCaller(c)) == 1;
    assert Accrued(cfg.global, start - start) == 0.0;
  }

  /** A caller is held to the global bucket's rate in every window of every run if and only if
      that bucket counts and refills within the idle time, whatever the tools' buckets. */
  lemma CallerRateHoldsIff(cfg: Config, start: real, c: string)
    requires cfg.Sound()
    ensures Bounds(cfg.global) <==>
            forall before, window :: Ordered(start, before + window) && |window| > 0 ==>
              WithinRate(cfg, start, before, window, OfCaller(c))
  {
    if Bounds(cfg.global) {
      forall before, window | Ordered(start, before + window) && |window| > 0
        ensures WithinRate(cfg, start, before, window, OfCaller(c))
      {
        WindowBound(cfg, start, before, window, OfCaller(c));
      }
    } else {
      var tool := UnmeteredTool(cfg);
      if cfg.global.Unlimited() {
        UnlimitedExceeds(cfg, start, c, tool);
      } else {
        TwoBurstsExceed(cfg, start, c, tool);
      }
    }
  }
}
