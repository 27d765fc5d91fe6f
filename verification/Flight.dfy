/** `Cache.Do`: callers coalesced by singleflight, behind an advisory in-flight limit.

    Every caller and every started call is a small state machine; a run is any interleaving
    of their steps. Admission, coalescing, the start of the work and its end are separate
    steps, because they are separate critical sections in the program. */
module Flight {
  import opened Common
  import C = CacheStore

  const MAX_PER_KEY := 2
  const MAX_TOTAL := 64

  // ---------------------------------------------------------------- the in-flight gate

  /** The counters behind `ifMu`. */
  datatype Gate = Gate(inFlight: map<string, nat>, total: int, stalled: set<string>) {

    function Of(k: string): nat {
      if k in inFlight then inFlight[k] else 0
    }

    predicate Admits(k: string) {
      Of(k) < MAX_PER_KEY && total < MAX_TOTAL
    }

    function Enter(k: string): Gate {
      var n := Of(k) + 1;
      Gate(inFlight[k := n], total + 1, if n >= MAX_PER_KEY then stalled + {k} else stalled)
    }

    function Leave(k: string): Gate {
      if Of(k) <= 1 then Gate(inFlight - {k}, total - 1, stalled - {k})
      else Gate(inFlight[k := Of(k) - 1], total - 1, stalled)
    }
  }

  const EMPTY_GATE := Gate(map[], 0, {})

  /** The gate as the program keeps it: three fields updated under a lock. */
  class InFlightGate {
    var inFlight: map<string, nat>
    var inFlightTotal: int
    var stalled: set<string>

    function View(): Gate
      reads this
    {
      Gate(inFlight, inFlightTotal, stalled)
    }

    constructor ()
      ensures View() == EMPTY_GATE
    {
      inFlight, inFlightTotal, stalled := map[], 0, {};
    }

    /** Reads only: whether a new invocation may start. */
    method Admit(k: string) returns (ok: bool)
      ensures ok <==> View().Admits(k)
    {
      var n := if k in inFlight then inFlight[k] else 0;
      ok := !(n >= MAX_PER_KEY || inFlightTotal >= MAX_TOTAL);
    }

    method Enter(k: string)
      modifies this
      ensures View() == old(View()).Enter(k)
    {
      var n := if k in inFlight then inFlight[k] else 0;
      inFlight := inFlight[k := n + 1];
      inFlightTotal := inFlightTotal + 1;
      if inFlight[k] >= MAX_PER_KEY && k !in stalled {
        stalled := stalled + {k};
      }
    }

    method Leave(k: string)
      modifies this
      ensures View() == old(View()).Leave(k)
    {
      inFlightTotal := inFlightTotal - 1;
      var n := if k in inFlight then inFlight[k] else 0;
      if n <= 1 {
        inFlight := inFlight - {k};
        stalled := stalled - {k};
        return;
      }
      inFlight := inFlight[k := n - 1];
    }
  }

  // ---------------------------------------------------------------- the protocol

  /** What an invocation of the tool produced; a panic is contained and becomes an error. */
  datatype Result = Produced(entry: C.Entry) | Failed

  /** A call that singleflight started for the caller that leads it: registered, its closure
      running between enter and leave, and finally delivered. */
  datatype Phase =
    | Registered
    | Running
    | Returned(r: Result)
    | Left(r: Result)
    | Done(r: Result)

  datatype Invocation = Invocation(key: string, leader: nat, phase: Phase) {
    predicate Active() { phase.Running? || phase.Returned? }

    /** It has produced this entry. */
    predicate Yields(e: C.Entry) {
      (phase.Returned? || phase.Left? || phase.Done?) && phase.r == Produced(e)
    }
  }

  /** A caller of `Do`. */
  datatype Caller =
    | Refused(key: string)
    | Admitted(key: string)
    | Waiting(key: string, call: nat)
    | Received(key: string, call: nat, r: Result)
    | Cancelled(key: string)
    | TimedOut(key: string)

  /** `group` is singleflight's map from key to live call. `forgets` counts, per key, the
      deadline Forgets so far; it is history and no step reads it. */
  datatype State = State(
    gate: Gate,
    group: map<string, nat>,
    calls: seq<Invocation>,
    callers: seq<Caller>,
    forgets: multiset<string>)

  const INIT := State(EMPTY_GATE, map[], [], [], multiset{})

  datatype Action =
    | Admit(key: string)
    | DoChan(who: nat)
    | Enter(call: nat)
    | Return(call: nat, r: Result)
    | Panic(call: nat)
    | Leave(call: nat)
    | Complete(call: nat)
    | Receive(who: nat)
    | Cancel(who: nat)
    | Deadline(who: nat)

  predicate Enabled(s: State, a: Action) {
    match a
    case Admit(_) => true
    case DoChan(w) => w < |s.callers| && s.callers[w].Admitted?
    case Enter(c) => c < |s.calls| && s.calls[c].phase.Registered?
    case Return(c, _) => c < |s.calls| && s.calls[c].phase.Running?
    case Panic(c) => c < |s.calls| && s.calls[c].phase.Running?
    case Leave(c) => c < |s.calls| && s.calls[c].phase.Returned?
    case Complete(c) => c < |s.calls| && s.calls[c].phase.Left?
    case Receive(w) =>
      && w < |s.callers| && s.callers[w].Waiting?
      && s.callers[w].call < |s.calls| && s.calls[s.callers[w].call].phase.Done?
    case Cancel(w) => w < |s.callers| && s.callers[w].Waiting?
    case Deadline(w) => w < |s.callers| && s.callers[w].Waiting?
  }

  function Next(s: State, a: Action): State
    requires Enabled(s, a)
  {
    match a
    case Admit(k) =>
      s.(callers := s.callers + [if s.gate.Admits(k) then Admitted(k) else Refused(k)])
    case DoChan(w) =>
      var k := s.callers[w].key;
      if k in s.group then s.(callers := s.callers[w := Waiting(k, s.group[k])])
      else s.(callers := s.callers[w := Waiting(k, |s.calls|)],
              calls := s.calls + [Invocation(k, w, Registered)],
              group := s.group[k := |s.calls|])
    case Enter(c) => Moved(s, c, Running).(gate := s.gate.Enter(s.calls[c].key))
    case Return(c, r) => Moved(s, c, Returned(r))
    case Panic(c) => Moved(s, c, Returned(Failed))
    case Leave(c) => Moved(s, c, Left(s.calls[c].phase.r)).(gate := s.gate.Leave(s.calls[c].key))
    case Complete(c) =>
      var k := s.calls[c].key;
      Moved(s, c, Done(s.calls[c].phase.r))
        .(group := if k in s.group && s.group[k] == c then s.group - {k} else s.group)
    case Receive(w) =>
      var Waiting(k, c) := s.callers[w];
      s.(callers := s.callers[w := Received(k, c, s.calls[c].phase.r)])
    case Cancel(w) =>
      s.(callers := s.callers[w := Cancelled(s.callers[w].key)])
    case Deadline(w) =>
      var k := s.callers[w].key;
      s.(callers := s.callers[w := TimedOut(k)], group := s.group - {k}, forgets := s.forgets + multiset{k})
  }

  function Moved(s: State, c: nat, p: Phase): State
    requires c < |s.calls|
  {
    s.(calls := s.calls[c := s.calls[c].(phase := p)])
  }

  predicate IsRun(run: seq<Action>)
    decreases |run|, 0
  {
    |run| == 0 || (IsRun(Front(run)) && Enabled(After(Front(run)), Last(run)))
  }

  function After(run: seq<Action>): State
    requires IsRun(run)
    decreases |run|, 1
  {
    if |run| == 0 then INIT else Next(After(Front(run)), Last(run))
  }

  // ---------------------------------------------------------------- counting

  function Count<T>(s: seq<T>, f: T -> bool): nat {
    if |s| == 0 then 0 else Count(s[..|s| - 1], f) + (if f(s[|s| - 1]) then 1 else 0)
  }

  lemma CountAppend<T>(s: seq<T>, x: T, f: T -> bool)
    ensures Count(s + [x], f) == Count(s, f) + (if f(x) then 1 else 0)
  {
    assert (s + [x])[..|s|] == s;
  }

  lemma {:induction false} CountUpdate<T>(s: seq<T>, i: nat, x: T, f: T -> bool)
    requires i < |s|
    ensures Count(s[i := x], f) + (if f(s[i]) then 1 else 0) == Count(s, f) + (if f(x) then 1 else 0)
  {
    var n := |s| - 1;
    if i == n {
      assert s[i := x][..n] == s[..n];
    } else {
      assert s[i := x][..n] == s[..n][i := x];
      CountUpdate(s[..n], i, x, f);
    }
  }

  /** Invocations of a key between enter and leave. */
  function ActiveOn(k: string): Invocation -> bool {
    (c: Invocation) => c.key == k && c.Active()
  }

  function ActiveAny(): Invocation -> bool {
    (c: Invocation) => c.Active()
  }

  /** Invocations of a key that singleflight has not finished with. */
  function LiveOn(k: string): Invocation -> bool {
    (c: Invocation) => c.key == k && !c.phase.Done?
  }

  function RegisteredOn(k: string): Invocation -> bool {
    (c: Invocation) => c.key == k && c.phase.Registered?
  }

  function RegisteredAny(): Invocation -> bool {
    (c: Invocation) => c.phase.Registered?
  }

  function AdmittedOn(k: string): Caller -> bool {
    (w: Caller) => w == Admitted(k)
  }

  function AdmittedAny(): Caller -> bool {
    (w: Caller) => w.Admitted?
  }

  /** Calls of a key past admission whose work has not entered the gate yet. */
  function Window(s: State, k: string): nat {
    Count(s.callers, AdmittedOn(k)) + Count(s.calls, RegisteredOn(k))
  }

  function WindowAny(s: State): nat {
    Count(s.callers, AdmittedAny()) + Count(s.calls, RegisteredAny())
  }

  // ---------------------------------------------------------------- invariants of every run

  /** The counters count exactly what they are meant to count, and a key at its limit is marked. */
  ghost predicate Counted(s: State) {
    && (forall k :: s.gate.Of(k) == Count(s.calls, ActiveOn(k)))
    && (forall k :: k in s.gate.inFlight ==> s.gate.inFlight[k] >= 1)
    && s.gate.total == Count(s.calls, ActiveAny())
    && s.gate.stalled <= s.gate.inFlight.Keys
    && (forall k :: s.gate.Of(k) >= MAX_PER_KEY ==> k in s.gate.stalled)
  }

  /** Coalescing: `group` names live calls of the right key, and a key has at most one live
      call beyond those its deadline Forgets let go of. */
  ghost predicate Coalesced(s: State) {
    && (forall k :: k in s.group ==>
          s.group[k] < |s.calls| && s.calls[s.group[k]].key == k && !s.calls[s.group[k]].phase.Done?)
    && (forall k :: Count(s.calls, LiveOn(k)) <= s.forgets[k] + (if k in s.group then 1 else 0))
  }

  /** A caller waits on, and receives from, an invocation under its own key. */
  ghost predicate DeliveredTo(s: State, w: nat)
    requires w < |s.callers|
  {
    match s.callers[w]
    case Waiting(k, c) => c < |s.calls| && s.calls[c].key == k
    case Received(k, c, r) => c < |s.calls| && s.calls[c].key == k && s.calls[c].phase == Done(r)
    case _ => true
  }

  ghost predicate Delivered(s: State) {
    forall w :: 0 <= w < |s.callers| ==> DeliveredTo(s, w)
  }

  /** Each invocation is led by a caller of its key that is past admission, and no caller leads two. */
  ghost predicate Led(s: State) {
    && (forall c :: 0 <= c < |s.calls| ==> LedBy(s, c))
    && (forall c, d :: 0 <= c < d < |s.calls| ==> s.calls[c].leader != s.calls[d].leader)
  }

  ghost predicate LedBy(s: State, c: nat)
    requires c < |s.calls|
  {
    var w := s.calls[c].leader;
    w < |s.callers| && s.callers[w].key == s.calls[c].key && !s.callers[w].Admitted? && !s.callers[w].Refused?
  }

  lemma CountedStep(s: State, a: Action)
    requires Counted(s) && Enabled(s, a)
    ensures Counted(Next(s, a))
  {
    var t := Next(s, a);
    forall k ensures t.gate.Of(k) == Count(t.calls, ActiveOn(k)) {
      CallsChange(s, a, ActiveOn(k));
      assert s.gate.Of(k) == Count(s.calls, ActiveOn(k));
    }
    CallsChange(s, a, ActiveAny());
  }

  /** How a step changes a count of invocations. */
  lemma CallsChange(s: State, a: Action, f: Invocation -> bool)
    requires Enabled(s, a)
    ensures var t := Next(s, a);
            if a.DoChan? && s.callers[a.who].key !in s.group then
              Count(t.calls, f) == Count(s.calls, f) + (if f(Invocation(s.callers[a.who].key, a.who, Registered)) then 1 else 0)
            else if a.Enter? || a.Return? || a.Panic? || a.Leave? || a.Complete? then
              Count(t.calls, f) + (if f(s.calls[a.call]) then 1 else 0)
              == Count(s.calls, f) + (if f(t.calls[a.call]) then 1 else 0)
            else t.calls == s.calls
  {
    var t := Next(s, a);
    if a.DoChan? {
      CountAppend(s.calls, Invocation(s.callers[a.who].key, a.who, Registered), f);
    } else if a.Enter? || a.Return? || a.Panic? || a.Leave? || a.Complete? {
      CountUpdate(s.calls, a.call, t.calls[a.call], f);
    }
  }

  lemma CoalescedStep(s: State, a: Action)
    requires Coalesced(s) && Enabled(s, a)
    ensures Coalesced(Next(s, a))
  {
    var t := Next(s, a);
    GroupStep(s, a);
    forall k ensures Count(t.calls, LiveOn(k)) <= t.forgets[k] + (if k in t.group then 1 else 0) {
      LiveStep(s, a, k);
    }
  }

  lemma GroupStep(s: State, a: Action)
    requires Coalesced(s) && Enabled(s, a)
    ensures var t := Next(s, a);
            forall k :: k in t.group ==>
              t.group[k] < |t.calls| && t.calls[t.group[k]].key == k && !t.calls[t.group[k]].phase.Done?
  {
  }

  lemma LiveStep(s: State, a: Action, k: string)
    requires Coalesced(s) && Enabled(s, a)
    ensures var t := Next(s, a);
            Count(t.calls, LiveOn(k)) <= t.forgets[k] + (if k in t.group then 1 else 0)
  {
    CallsChange(s, a, LiveOn(k));
    assert Count(s.calls, LiveOn(k)) <= s.forgets[k] + (if k in s.group then 1 else 0);
  }

  lemma DeliveredStepTo(s: State, a: Action, w: nat)
    requires Coalesced(s) && Enabled(s, a) && w < |Next(s, a).callers|
    requires w < |s.callers| ==> DeliveredTo(s, w)
    ensures DeliveredTo(Next(s, a), w)
  {
  }

  lemma DeliveredStep(s: State, a: Action)
    requires Coalesced(s) && Delivered(s) && Enabled(s, a)
    ensures Delivered(Next(s, a))
  {
    forall w | 0 <= w < |Next(s, a).callers| ensures DeliveredTo(Next(s, a), w) {
      DeliveredStepTo(s, a, w);
    }
  }

  lemma LedStepBy(s: State, a: Action, c: nat)
    requires Led(s) && Enabled(s, a) && c < |Next(s, a).calls|
    ensures LedBy(Next(s, a), c)
    ensures c < |s.calls| ==> Next(s, a).calls[c].leader == s.calls[c].leader
  {
    if c < |s.calls| {
      assert LedBy(s, c);
    }
  }

  lemma LedStep(s: State, a: Action)
    requires Led(s) && Enabled(s, a)
    ensures Led(Next(s, a))
  {
    var t := Next(s, a);
    forall c | 0 <= c < |t.calls| ensures LedBy(t, c) && (c < |s.calls| ==> t.calls[c].leader == s.calls[c].leader) {
      LedStepBy(s, a, c);
    }
    if |t.calls| > |s.calls| {
      forall c | 0 <= c < |s.calls| ensures s.calls[c].leader != t.calls[|s.calls|].leader {
        assert LedBy(s, c);
      }
    }
  }

  /** In every interleaving the counters are exact, coalescing holds, deliveries are right and
      every invocation has a leader of its own. */
  lemma {:induction false} EveryRun(run: seq<Action>)
    requires IsRun(run)
    ensures Counted(After(run)) && Coalesced(After(run)) && Delivered(After(run)) && Led(After(run))
    decreases |run|
  {
    if |run| != 0 {
      EveryRun(Front(run));
      CountedStep(After(Front(run)), Last(run));
      CoalescedStep(After(Front(run)), Last(run));
      DeliveredStep(After(Front(run)), Last(run));
      LedStep(After(Front(run)), Last(run));
    }
  }

  /** Some invocation of the key has produced this entry. */
  ghost predicate Yielded(s: State, k: string, e: C.Entry) {
    exists c :: 0 <= c < |s.calls| && s.calls[c].key == k && s.calls[c].Yields(e)
  }

  /** What has been produced stays so. */
  lemma YieldedStays(s: State, a: Action, k: string, e: C.Entry)
    requires Enabled(s, a) && Yielded(s, k, e)
    ensures Yielded(Next(s, a), k, e)
  {
    var c :| 0 <= c < |s.calls| && s.calls[c].key == k && s.calls[c].Yields(e);
    assert Next(s, a).calls[c].key == k && Next(s, a).calls[c].Yields(e);
  }

  /** Whoever receives an entry receives what an invocation of its own key produced. */
  lemma ReceivedIsYielded(run: seq<Action>, w: nat)
    requires IsRun(run) && w < |After(run).callers|
    requires After(run).callers[w].Received? && After(run).callers[w].r.Produced?
    ensures Yielded(After(run), After(run).callers[w].key, After(run).callers[w].r.entry)
  {
    EveryRun(run);
    assert DeliveredTo(After(run), w);
  }

  ghost function PickFrom<K>(s: set<K>): K
    requires s != {}
  {
    var k :| k in s; k
  }

  ghost function Sum<K>(m: map<K, nat>): nat
    decreases m.Keys
  {
    if m.Keys == {} then 0
    else
      var k := PickFrom(m.Keys);
      m[k] + Sum(m - {k})
  }

  lemma {:induction false} SumRemove<K>(m: map<K, nat>, k: K)
    requires k in m
    ensures Sum(m) == m[k] + Sum(m - {k})
    decreases m.Keys
  {
    var j := PickFrom(m.Keys);
    if j != k {
      SumRemove(m - {j}, k);
      SumRemove(m - {k}, j);
      assert m - {j} - {k} == m - {k} - {j};
    }
  }

  lemma SumPut<K>(m: map<K, nat>, k: K, n: nat)
    ensures Sum(m[k := n]) + (if k in m then m[k] else 0) == Sum(m) + n
  {
    SumRemove(m[k := n], k);
    assert m[k := n] - {k} == m - {k};
    if k in m {
      SumRemove(m, k);
    } else {
      assert m - {k} == m;
    }
  }

  lemma GateSum(g: Gate, k: string)
    requires g.total == Sum(g.inFlight)
    ensures g.Enter(k).total == Sum(g.Enter(k).inFlight)
    ensures g.Of(k) >= 1 ==> g.Leave(k).total == Sum(g.Leave(k).inFlight)
  {
    SumPut(g.inFlight, k, g.Of(k) + 1);
    if g.Of(k) == 1 {
      SumRemove(g.inFlight, k);
    } else if g.Of(k) > 1 {
      SumPut(g.inFlight, k, g.Of(k) - 1);
    }
  }

  /** In every run the total is the sum of the per-key counts. */
  lemma {:induction false} TotalIsTheSum(run: seq<Action>)
    requires IsRun(run)
    ensures After(run).gate.total == Sum(After(run).gate.inFlight)
    decreases |run|
  {
    if |run| != 0 {
      var s, a := After(Front(run)), Last(run);
      TotalIsTheSum(Front(run));
      if a.Enter? || a.Leave? {
        GateSum(s.gate, s.calls[a.call].key);
      }
      if a.Leave? {
        EveryRun(Front(run));
        SomeActive(s.calls, a.call, s.calls[a.call].key);
        assert s.gate.Of(s.calls[a.call].key) >= 1;
      }
    }
  }

  lemma SomeActive(calls: seq<Invocation>, c: nat, k: string)
    requires c < |calls| && calls[c].key == k && calls[c].Active()
    ensures Count(calls, ActiveOn(k)) >= 1
  {
    CountUpdate(calls, c, Invocation(k, 0, Registered), ActiveOn(k));
  }

  /** The number of deadline Forgets of a key a run makes. */
  function DeadlinesOf(run: seq<Action>, k: string): nat
    requires IsRun(run)
    decreases |run|
  {
    if |run| == 0 then 0
    else DeadlinesOf(Front(run), k) +
         (if Last(run).Deadline? && After(Front(run)).callers[Last(run).who].key == k then 1 else 0)
  }

  lemma {:induction false} ForgetsAreDeadlines(run: seq<Action>, k: string)
    requires IsRun(run)
    ensures After(run).forgets[k] == DeadlinesOf(run, k)
    decreases |run|
  {
    if |run| != 0 {
      ForgetsAreDeadlines(Front(run), k);
    }
  }

  /** In every run the live invocations of a key number at most one more than its deadlines:
      neither cancellations nor panics ever start a second one. */
  lemma LiveInvocationsBound(run: seq<Action>, k: string)
    requires IsRun(run)
    ensures Count(After(run).calls, LiveOn(k)) <= 1 + DeadlinesOf(run, k)
  {
    EveryRun(run);
    ForgetsAreDeadlines(run, k);
  }

  /** The caller is attached to a call. */
  predicate Attached(s: State, w: nat) {
    w < |s.callers| && (s.callers[w].Waiting? || s.callers[w].Received?)
  }

  /** A caller that waits on or received from a call joined it while it was registered. */
  lemma {:induction false} JoinedWhileRegistered(run: seq<Action>, w: nat) returns (i: nat)
    requires IsRun(run) && Attached(After(run), w)
    ensures i < |run| && run[i] == DoChan(w) && IsRun(run[..i + 1])
    ensures var k := After(run).callers[w].key;
            var then_ := After(run[..i + 1]);
            k in then_.group && then_.group[k] == After(run).callers[w].call
    decreases |run|
  {
    assert |run| > 0;
    var front, a := Front(run), Last(run);
    if a == DoChan(w) {
      i := |run| - 1;
      assert run[..i + 1] == run;
      LeadsOrJoins(After(front), w);
    } else {
      JoinedBefore(After(front), a, w);
      i := JoinedWhileRegistered(front, w);
      assert front[..i + 1] == run[..i + 1];
    }
  }

  /** Leading or joining attaches a caller to the call its key is registered with. */
  lemma LeadsOrJoins(s: State, w: nat)
    requires Enabled(s, DoChan(w))
    ensures var t := Next(s, DoChan(w));
            Attached(t, w) && t.callers[w].key in t.group && t.group[t.callers[w].key] == t.callers[w].call
  {
  }

  /** Only its own DoChan attaches a caller to a call. */
  lemma JoinedBefore(s: State, a: Action, w: nat)
    requires Enabled(s, a) && a != DoChan(w) && Attached(Next(s, a), w)
    ensures var t := Next(s, a);
            Attached(s, w) && s.callers[w].key == t.callers[w].key && s.callers[w].call == t.callers[w].call
  {
  }

  // ---------------------------------------------------------------- what becomes of a caller

  /** The caller that the admission at a position of a run makes. */
  function CallerOf(run: seq<Action>, i: nat): nat
    requires IsRun(run) && i < |run|
  {
    PrefixIsRun(run, i);
    |After(run[..i]).callers|
  }

  lemma {:induction false} PrefixIsRun(run: seq<Action>, i: nat)
    requires IsRun(run) && i <= |run|
    ensures IsRun(run[..i])
    decreases |run|
  {
    if i == |run| {
      assert run[..i] == run;
    } else {
      assert Front(run)[..i] == run[..i];
      PrefixIsRun(Front(run), i);
    }
  }

  /** A caller's lot after one more action: only its own actions change it. */
  lemma CallerStep(s: State, a: Action, w: nat)
    requires Enabled(s, a) && w < |s.callers|
    ensures var t, own := Next(s, a), (a.DoChan? || a.Receive? || a.Cancel? || a.Deadline?) && a.who == w;
            && w < |t.callers| && (!own ==> t.callers[w] == s.callers[w])
            && t.callers[w].key == s.callers[w].key
            && (t.callers[w].Refused? <==> s.callers[w].Refused?)
  {
  }

  /** Exactly when a caller is refused, in every run: when, at its admission, as many invocations
      of its key are between enter and leave as the limit per key allows, or as many of all keys
      as the total allows. It then stays refused, and no other caller ever is. */
  lemma {:induction false} RefusedIff(run: seq<Action>, i: nat)
    requires IsRun(run) && i < |run| && run[i].Admit?
    ensures IsRun(run[..i]) && CallerOf(run, i) < |After(run).callers|
    ensures var calls, k := After(run[..i]).calls, run[i].key;
            && After(run).callers[CallerOf(run, i)].key == k
            && (After(run).callers[CallerOf(run, i)].Refused? <==>
                  Count(calls, ActiveOn(k)) >= MAX_PER_KEY || Count(calls, ActiveAny()) >= MAX_TOTAL)
    decreases |run|
  {
    PrefixIsRun(run, i);
    var n := |run| - 1;
    if i == n {
      assert run[..i] == Front(run);
      EveryRun(run[..i]);
      var s := After(run[..i]);
      assert s.gate.Of(run[i].key) == Count(s.calls, ActiveOn(run[i].key));
    } else {
      assert Front(run)[..i] == run[..i];
      RefusedIff(Front(run), i);
      CallerStep(After(Front(run)), Last(run), CallerOf(run, i));
    }
  }

  /** What an admitted caller's DoChan does: with a call of its key registered it starts nothing and
      waits on that call; without one it starts exactly one, registered for its key, which it leads
      and waits on. */
  lemma JoinsOrLeads(run: seq<Action>, w: nat)
    requires IsRun(run) && |run| > 0 && Last(run) == DoChan(w)
    ensures w < |After(Front(run)).callers| && After(Front(run)).callers[w].Admitted?
    ensures var s, t := After(Front(run)), After(run);
            var k := s.callers[w].key;
            && w < |t.callers| && (forall v :: 0 <= v < |s.callers| && v != w ==> t.callers[v] == s.callers[v])
            && (k in s.group ==>
                  t.calls == s.calls && t.group == s.group && t.callers[w] == Waiting(k, s.group[k]))
            && (k !in s.group ==>
                  && t.calls == s.calls + [Invocation(k, w, Registered)] && t.group == s.group[k := |s.calls|]
                  && t.callers[w] == Waiting(k, |s.calls|))
  {
  }

  lemma RegisteredStep(s: State, a: Action, k: string)
    requires Coalesced(s) && Enabled(s, a) && k in s.group
    ensures var t := Next(s, a);
            if a == Complete(s.group[k]) || (a.Deadline? && s.callers[a.who].key == k) then k !in t.group
            else k in t.group && t.group[k] == s.group[k]
  {
    assert s.calls[s.group[k]].key == k;
  }

  /** What a key is registered with changes only when that very call completes or a caller of the key
      meets its deadline: not by a cancellation, and not by the completion of a call let go of. */
  lemma StaysRegistered(run: seq<Action>, k: string)
    requires IsRun(run) && |run| > 0 && k in After(Front(run)).group
    ensures var s, t, a := After(Front(run)), After(run), Last(run);
            if a == Complete(s.group[k]) || (a.Deadline? && s.callers[a.who].key == k) then k !in t.group
            else k in t.group && t.group[k] == s.group[k]
  {
    EveryRun(Front(run));
    RegisteredStep(After(Front(run)), Last(run), k);
  }

  /** Nothing is ever stuck: an admitted caller can go on to DoChan, a waiting one can be cancelled or
      meet its deadline at any time and can receive once its call is done, and a call that is not
      done can take its next step, with any result or a panic while it runs. */
  lemma NothingIsStuck(run: seq<Action>, w: nat, c: nat, r: Result)
    requires IsRun(run) && w < |After(run).callers| && c < |After(run).calls|
    ensures var s := After(run);
            && (s.callers[w].Admitted? ==> Enabled(s, DoChan(w)))
            && (s.callers[w].Waiting? ==> Enabled(s, Cancel(w)) && Enabled(s, Deadline(w)))
            && (s.callers[w].Waiting? ==>
                  s.callers[w].call < |s.calls| && (s.calls[s.callers[w].call].phase.Done? <==> Enabled(s, Receive(w))))
            && (s.calls[c].phase.Registered? ==> Enabled(s, Action.Enter(c)))
            && (s.calls[c].phase.Running? ==> Enabled(s, Return(c, r)) && Enabled(s, Panic(c)))
            && (s.calls[c].phase.Returned? ==> Enabled(s, Action.Leave(c)))
            && (s.calls[c].phase.Left? ==> Enabled(s, Complete(c)))
  {
    EveryRun(run);
    assert DeliveredTo(After(run), w);
  }

  /** How a caller ends is how its run says: with the deadline, the cancellation or the delivery
      that happened to it, and a delivery hands over the result of the call it waits on. */
  lemma {:induction false} EndsAsItRan(run: seq<Action>, w: nat)
    requires IsRun(run) && w < |After(run).callers|
    ensures var c := After(run).callers[w];
            && (c.TimedOut? <==> Deadline(w) in run) && (c.Cancelled? <==> Cancel(w) in run)
            && (c.Received? <==> Receive(w) in run)
    decreases |run|
  {
    var front, a := Front(run), Last(run);
    var s := After(front);
    assert run == front + [a];
    if w < |s.callers| {
      EndsAsItRan(front, w);
      CallerStep(s, a, w);
    } else {
      NoActionYet(front, w);
    }
  }

  lemma ActorIsThere(s: State, a: Action)
    requires Enabled(s, a)
    ensures |s.callers| <= |Next(s, a).callers|
    ensures a.Receive? || a.Cancel? || a.Deadline? ==> a.who < |s.callers|
  {
  }

  /** Nothing has happened to a caller that is not there yet. */
  lemma {:induction false} NoActionYet(run: seq<Action>, w: nat)
    requires IsRun(run) && w >= |After(run).callers|
    ensures forall a :: a in run && (a.Receive? || a.Cancel? || a.Deadline?) ==> a.who != w
    decreases |run|
  {
    if |run| > 0 {
      ActorIsThere(After(Front(run)), Last(run));
      NoActionYet(Front(run), w);
      assert run == Front(run) + [Last(run)];
    }
  }

  // ---------------------------------------------------------------- the in-flight bound

  /** Every state along the run has at most `max` calls of `k` in the window. */
  ghost predicate WindowAtMost(run: seq<Action>, k: string, max: nat)
    requires IsRun(run)
    decreases |run|
  {
    Window(After(run), k) <= max && (|run| == 0 || WindowAtMost(Front(run), k, max))
  }

  ghost predicate WindowAnyAtMost(run: seq<Action>, max: nat)
    requires IsRun(run)
    decreases |run|
  {
    WindowAny(After(run)) <= max && (|run| == 0 || WindowAnyAtMost(Front(run), max))
  }

  /** How a step changes a count of callers. */
  lemma CallersChange(s: State, a: Action, f: Caller -> bool)
    requires Enabled(s, a)
    ensures var t := Next(s, a);
            if a.Admit? then Count(t.callers, f) == Count(s.callers, f) + (if f(t.callers[|s.callers|]) then 1 else 0)
            else if a.DoChan? || a.Receive? || a.Cancel? || a.Deadline? then
              Count(t.callers, f) + (if f(s.callers[a.who]) then 1 else 0)
              == Count(s.callers, f) + (if f(t.callers[a.who]) then 1 else 0)
            else t.callers == s.callers
  {
    var t := Next(s, a);
    if a.Admit? {
      CountAppend(s.callers, t.callers[|s.callers|], f);
    } else if a.DoChan? || a.Receive? || a.Cancel? || a.Deadline? {
      CountUpdate(s.callers, a.who, t.callers[a.who], f);
    }
  }

  /** Only an admission widens the window, and what leaves the window into the gate is counted there. */
  lemma WindowStep(s: State, a: Action, k: string)
    requires Counted(s) && Enabled(s, a)
    ensures var t := Next(s, a);
            && (!(a == Admit(k) && s.gate.Admits(k)) ==> t.gate.Of(k) + Window(t, k) <= s.gate.Of(k) + Window(s, k))
            && (!(a == Admit(k) && s.gate.Admits(k)) ==> Window(t, k) <= Window(s, k))
            && (a.Admit? ==> t.gate == s.gate)
  {
    CallsChange(s, a, RegisteredOn(k));
    CallersChange(s, a, AdmittedOn(k));
    CallsChange(s, a, ActiveOn(k));
    CountedStep(s, a);
    var t := Next(s, a);
    assert s.gate.Of(k) == Count(s.calls, ActiveOn(k)) && t.gate.Of(k) == Count(t.calls, ActiveOn(k));
  }

  lemma WindowAnyStep(s: State, a: Action)
    requires Counted(s) && Enabled(s, a)
    ensures var t := Next(s, a);
            && (!(a.Admit? && s.gate.Admits(a.key)) ==> t.gate.total + WindowAny(t) <= s.gate.total + WindowAny(s))
            && (a.Admit? ==> t.gate == s.gate)
  {
    CallsChange(s, a, RegisteredAny());
    CallersChange(s, a, AdmittedAny());
    CallsChange(s, a, ActiveAny());
    CountedStep(s, a);
  }

  /** If at most `max` calls of a key are ever in the admit-to-enter window, the key never has
      more than MAX_PER_KEY - 1 + max invocations in flight. */
  lemma {:induction false} PerKeyBound(run: seq<Action>, k: string, max: nat)
    requires IsRun(run) && WindowAtMost(run, k, max)
    ensures After(run).gate.Of(k) + Window(After(run), k) <= MAX_PER_KEY - 1 + max
    decreases |run|
  {
    if |run| != 0 {
      PerKeyBound(Front(run), k, max);
      EveryRun(Front(run));
      WindowStep(After(Front(run)), Last(run), k);
    }
  }

  /** The same across all keys. */
  lemma {:induction false} TotalBound(run: seq<Action>, max: nat)
    requires IsRun(run) && WindowAnyAtMost(run, max)
    ensures After(run).gate.total + WindowAny(After(run)) <= MAX_TOTAL - 1 + max
    decreases |run|
  {
    if |run| != 0 {
      TotalBound(Front(run), max);
      EveryRun(Front(run));
      WindowAnyStep(After(Front(run)), Last(run));
    }
  }

  // ---------------------------------------------------------------- the bound is attained

  /** `wedged` callers have each led a call that entered, and timed out on it; `waiting` more
      are past admission. */
  function Wedged(k: string, wedged: nat, waiting: nat): State {
    State(
      WedgedGate(k, wedged),
      map[],
      seq(wedged, (i: nat) => Invocation(k, i, Running)),
      seq(wedged, i => TimedOut(k)) + seq(waiting, i => Admitted(k)),
      multiset{}[k := wedged])
  }

  function WedgedGate(k: string, wedged: nat): Gate {
    Gate(if wedged == 0 then map[] else map[k := wedged], wedged, if wedged >= MAX_PER_KEY then {k} else {})
  }

  /** One of the waiting callers leads a call. */
  function LedState(k: string, wedged: nat, waiting: nat): State {
    State(
      WedgedGate(k, wedged),
      map[k := wedged],
      seq(wedged, (i: nat) => Invocation(k, i, Running)) + [Invocation(k, wedged, Registered)],
      seq(wedged, i => TimedOut(k)) + [Waiting(k, wedged)] + seq(waiting, i => Admitted(k)),
      multiset{}[k := wedged])
  }

  /** That call has entered. */
  function Entered(k: string, wedged: nat, waiting: nat): State {
    State(
      WedgedGate(k, wedged + 1),
      map[k := wedged],
      seq(wedged + 1, (i: nat) => Invocation(k, i, Running)),
      seq(wedged, i => TimedOut(k)) + [Waiting(k, wedged)] + seq(waiting, i => Admitted(k)),
      multiset{}[k := wedged])
  }

  lemma LeadStep(k: string, wedged: nat, waiting: nat)
    requires waiting > 0
    ensures var s, a := Wedged(k, wedged, waiting), DoChan(wedged);
            Enabled(s, a) && Next(s, a) == LedState(k, wedged, waiting - 1)
  {
    var s, t := Next(Wedged(k, wedged, waiting), DoChan(wedged)), LedState(k, wedged, waiting - 1);
    assert s.callers == t.callers;
    assert s.calls == t.calls;
  }

  lemma EnterStep(k: string, wedged: nat, waiting: nat)
    ensures var s, a := LedState(k, wedged, waiting), Action.Enter(wedged);
            Enabled(s, a) && Next(s, a) == Entered(k, wedged, waiting)
  {
    var s, t := Next(LedState(k, wedged, waiting), Action.Enter(wedged)), Entered(k, wedged, waiting);
    assert s.calls == t.calls;
    assert s.gate == t.gate;
  }

  lemma TimeoutStep(k: string, wedged: nat, waiting: nat)
    ensures var s, a := Entered(k, wedged, waiting), Deadline(wedged);
            Enabled(s, a) && Next(s, a) == Wedged(k, wedged + 1, waiting)
  {
    var s, t := Next(Entered(k, wedged, waiting), Deadline(wedged)), Wedged(k, wedged + 1, waiting);
    assert s.callers == t.callers;
    assert s.group == t.group;
    assert s.forgets == t.forgets;
  }

  /** A run that is a run, stays within the window and ends in a given state. */
  ghost predicate Leads(run: seq<Action>, k: string, max: nat, s: State) {
    IsRun(run) && WindowAtMost(run, k, max) && After(run) == s
  }

  lemma Extend(run: seq<Action>, k: string, max: nat, s: State, a: Action)
    requires Leads(run, k, max, s) && Enabled(s, a)
    requires (a == Admit(k) && s.gate.Admits(k)) ==> Window(s, k) < max
    ensures Leads(run + [a], k, max, Next(s, a))
  {
    assert Front(run + [a]) == run;
    EveryRun(run);
    WindowStep(s, a, k);
    if a == Admit(k) {
      CallsChange(s, a, RegisteredOn(k));
      CallersChange(s, a, AdmittedOn(k));
    }
  }

  /** Lead, enter, time out: one more wedged invocation. */
  lemma WedgeOne(run: seq<Action>, k: string, max: nat, wedged: nat, waiting: nat) returns (longer: seq<Action>)
    requires Leads(run, k, max, Wedged(k, wedged, waiting)) && waiting > 0
    ensures Leads(longer, k, max, Wedged(k, wedged + 1, waiting - 1))
  {
    LeadStep(k, wedged, waiting);
    Extend(run, k, max, Wedged(k, wedged, waiting), DoChan(wedged));
    longer := run + [DoChan(wedged)];
    EnterStep(k, wedged, waiting - 1);
    Extend(longer, k, max, LedState(k, wedged, waiting - 1), Action.Enter(wedged));
    longer := longer + [Action.Enter(wedged)];
    TimeoutStep(k, wedged, waiting - 1);
    Extend(longer, k, max, Entered(k, wedged, waiting - 1), Deadline(wedged));
    longer := longer + [Deadline(wedged)];
  }

  lemma {:induction false} WedgeAll(run: seq<Action>, k: string, max: nat, wedged: nat, total: nat)
    returns (longer: seq<Action>)
    requires wedged <= total && Leads(run, k, max, Wedged(k, wedged, total - wedged))
    ensures Leads(longer, k, max, Wedged(k, total, 0))
    decreases total - wedged
  {
    if wedged == total {
      longer := run;
    } else {
      var one := WedgeOne(run, k, max, wedged, total - wedged);
      longer := WedgeAll(one, k, max, wedged + 1, total);
    }
  }

  lemma AdmitStep(k: string, wedged: nat, waiting: nat)
    requires wedged < MAX_PER_KEY
    ensures var s, a := Wedged(k, wedged, waiting), Admit(k);
            s.gate.Admits(k) && Next(s, a) == Wedged(k, wedged, waiting + 1)
  {
    var s, t := Next(Wedged(k, wedged, waiting), Admit(k)), Wedged(k, wedged, waiting + 1);
    assert s.callers == t.callers;
  }

  /** Before any admission nothing is in the window. */
  lemma WedgedWindowEmpty(k: string, wedged: nat)
    requires wedged < MAX_PER_KEY
    ensures Window(Wedged(k, wedged, 0), k) == 0
  {
    var s := Wedged(k, wedged, 0);
    if wedged == 1 {
      assert s.calls == [] + [Invocation(k, 0, Running)];
      CountAppend([], Invocation(k, 0, Running), RegisteredOn(k));
      assert s.callers == [] + [TimedOut(k)];
      CountAppend([], TimedOut(k), AdmittedOn(k));
    }
  }

  lemma {:induction false} WedgedWindow(k: string, wedged: nat, waiting: nat)
    requires wedged < MAX_PER_KEY
    ensures Window(Wedged(k, wedged, waiting), k) == waiting
    decreases waiting
  {
    if waiting == 0 {
      WedgedWindowEmpty(k, wedged);
    } else {
      WedgedWindow(k, wedged, waiting - 1);
      var s, t := Wedged(k, wedged, waiting), Wedged(k, wedged, waiting - 1);
      assert s.callers == t.callers + [Admitted(k)];
      CountAppend(t.callers, Admitted(k), AdmittedOn(k));
    }
  }

  lemma {:induction false} AdmitMany(run: seq<Action>, k: string, max: nat, wedged: nat, n: nat)
    returns (longer: seq<Action>)
    requires Leads(run, k, max, Wedged(k, wedged, 0)) && n <= max && wedged < MAX_PER_KEY
    ensures Leads(longer, k, max, Wedged(k, wedged, n))
    decreases n
  {
    if n == 0 {
      longer := run;
    } else {
      longer := AdmitMany(run, k, max, wedged, n - 1);
      WedgedWindow(k, wedged, n - 1);
      AdmitStep(k, wedged, n - 1);
      Extend(longer, k, max, Wedged(k, wedged, n - 1), Admit(k));
      longer := longer + [Admit(k)];
    }
  }

  lemma NothingWedged(k: string, max: nat)
    ensures Leads([], k, max, Wedged(k, 0, 0))
  {
    var s := Wedged(k, 0, 0);
    assert s.gate == EMPTY_GATE && s.calls == [] && s.callers == [] && s.forgets == multiset{};
    WedgedWindowEmpty(k, 0);
  }

  /** The per-key bound is attained for every window size: some run never has more than `max`
      calls of the key in the window and ends with MAX_PER_KEY - 1 + max of them in flight. */
  lemma PerKeyBoundIsTight(k: string, max: nat) returns (run: seq<Action>)
    requires max >= 1
    ensures IsRun(run) && WindowAtMost(run, k, max)
    ensures After(run).gate.Of(k) == MAX_PER_KEY - 1 + max
  {
    NothingWedged(k, max);
    run := AdmitMany([], k, max, 0, 1);
    run := WedgeAll(run, k, max, 0, 1);
    run := AdmitMany(run, k, max, 1, max);
    run := WedgeAll(run, k, max, 1, max + 1);
  }

  /** Distinct keys, told apart by their length. */
  function KeyOfLength(n: nat): (k: string)
    ensures |k| == n
  {
    seq(n, _ => 'x')
  }

  /** n invocations of n keys are in flight, and w more callers, of keys not seen before, are
      past admission. */
  ghost predicate Crowd(s: State, n: nat, w: nat) {
    && s.gate.total == n && |s.calls| == n && |s.callers| == n + w && WindowAny(s) == w
    && (forall k :: k in s.group || k in s.gate.inFlight ==> |k| < n)
    && (forall i :: n <= i < n + w ==> s.callers[i] == Admitted(KeyOfLength(i)))
  }

  /** A run within the window that ends with such a crowd. */
  ghost predicate Gathers(run: seq<Action>, max: nat, n: nat, w: nat) {
    IsRun(run) && WindowAnyAtMost(run, max) && Crowd(After(run), n, w)
  }

  /** One more action that keeps within the window. */
  lemma ExtendAny(run: seq<Action>, max: nat, a: Action)
    requires IsRun(run) && WindowAnyAtMost(run, max)
    requires Enabled(After(run), a) && WindowAny(Next(After(run), a)) <= max
    ensures var longer := run + [a];
            IsRun(longer) && WindowAnyAtMost(longer, max) && After(longer) == Next(After(run), a)
  {
    assert Front(run + [a]) == run && Last(run + [a]) == a;
  }

  /** A caller of a key not seen before is admitted while the total is under its limit. */
  lemma CrowdAdmits(s: State, n: nat, w: nat)
    requires Crowd(s, n, w) && n < MAX_TOTAL
    ensures Crowd(Next(s, Admit(KeyOfLength(n + w))), n, w + 1)
  {
    var k := KeyOfLength(n + w);
    assert s.gate.Of(k) == 0;
    CountAppend(s.callers, Admitted(k), AdmittedAny());
  }

  lemma CrowdGrows(run: seq<Action>, max: nat, n: nat, w: nat) returns (longer: seq<Action>)
    requires Gathers(run, max, n, w) && n < MAX_TOTAL && w < max
    ensures Gathers(longer, max, n, w + 1)
  {
    var a := Admit(KeyOfLength(n + w));
    CrowdAdmits(After(run), n, w);
    ExtendAny(run, max, a);
    longer := run + [a];
  }

  /** The first of the waiting callers leads a call of its own, since no call of its key is there. */
  lemma CrowdLeads(s: State, n: nat, w: nat)
    requires Crowd(s, n, w) && w > 0
    ensures Enabled(s, DoChan(n)) && LedCrowd(Next(s, DoChan(n)), n, w)
  {
    var k := KeyOfLength(n);
    assert s.callers[n] == Admitted(k) && k !in s.group;
    CountAppend(s.calls, Invocation(k, n, Registered), RegisteredAny());
    CountUpdate(s.callers, n, Waiting(k, n), AdmittedAny());
  }

  /** The crowd while that call is registered and has not entered. */
  ghost predicate LedCrowd(t: State, n: nat, w: nat) {
    && w > 0 && t.gate.total == n && |t.calls| == n + 1 && |t.callers| == n + w && WindowAny(t) == w
    && t.calls[n] == Invocation(KeyOfLength(n), n, Registered)
    && (forall k :: k in t.group || k in t.gate.inFlight ==> |k| < n + 1)
    && (forall i :: n + 1 <= i < n + w ==> t.callers[i] == Admitted(KeyOfLength(i)))
  }

  lemma LedCrowdEnters(t: State, n: nat, w: nat)
    requires LedCrowd(t, n, w)
    ensures Enabled(t, Action.Enter(n)) && Crowd(Next(t, Action.Enter(n)), n + 1, w - 1)
  {
    CountUpdate(t.calls, n, Invocation(KeyOfLength(n), n, Running), RegisteredAny());
  }

  lemma CrowdEnters(run: seq<Action>, max: nat, n: nat, w: nat) returns (longer: seq<Action>)
    requires Gathers(run, max, n, w) && w > 0
    ensures Gathers(longer, max, n + 1, w - 1)
  {
    CrowdLeads(After(run), n, w);
    LedCrowdEnters(Next(After(run), DoChan(n)), n, w);
    ExtendAny(run, max, DoChan(n));
    longer := run + [DoChan(n)];
    ExtendAny(longer, max, Action.Enter(n));
    longer := longer + [Action.Enter(n)];
  }

  lemma {:induction false} AllEnter(run: seq<Action>, max: nat, n: nat, w: nat) returns (longer: seq<Action>)
    requires Gathers(run, max, n, w)
    ensures Gathers(longer, max, n + w, 0)
    decreases w
  {
    if w == 0 {
      longer := run;
    } else {
      longer := CrowdEnters(run, max, n, w);
      longer := AllEnter(longer, max, n + 1, w - 1);
    }
  }

  lemma {:induction false} AllAdmitted(run: seq<Action>, max: nat, n: nat, w: nat) returns (longer: seq<Action>)
    requires Gathers(run, max, n, 0) && n < MAX_TOTAL && w <= max
    ensures Gathers(longer, max, n, w)
    decreases w
  {
    if w == 0 {
      longer := run;
    } else {
      longer := AllAdmitted(run, max, n, w - 1);
      longer := CrowdGrows(longer, max, n, w - 1);
    }
  }

  lemma {:induction false} OneByOne(max: nat, n: nat) returns (run: seq<Action>)
    requires max >= 1 && n < MAX_TOTAL
    ensures Gathers(run, max, n, 0)
    decreases n
  {
    if n == 0 {
      run := [];
    } else {
      run := OneByOne(max, n - 1);
      run := CrowdGrows(run, max, n - 1, 0);
      run := CrowdEnters(run, max, n - 1, 1);
    }
  }

  /** The total bound is attained too, for every window size, and without any deadline: calls of
      different keys are enough. */
  lemma TotalBoundIsTight(max: nat) returns (run: seq<Action>)
    requires max >= 1
    ensures IsRun(run) && WindowAnyAtMost(run, max)
    ensures After(run).gate.total == MAX_TOTAL - 1 + max
  {
    run := OneByOne(max, MAX_TOTAL - 1);
    run := AllAdmitted(run, max, MAX_TOTAL - 1, max);
    run := AllEnter(run, max, MAX_TOTAL - 1, max);
  }
}
