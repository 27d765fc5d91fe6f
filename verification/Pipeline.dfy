/** The daemon's request pipeline: authenticate, meter, route, look up the cache, run the
    tool, write one audit record.

    Requests overlap. Each goes through up to four moments - it arrives and is metered; it is
    routed and looked up in the cache; it calls `Cache.Do`; it ends with what that gave it - and a
    run is any interleaving of the moments of all requests, of the steps of `Flight` on which
    their calls of `Cache.Do` run, of the stores the work makes, and of the sweepers. Strings are
    byte strings. */
module Pipeline {
  import opened Common
  import opened TokenBucket
  import L = Limiter
  import R = LimiterRates
  import RateLimiter
  import C = CacheStore
  import F = Flight
  import B = BoundMessage

  datatype Body = ReadFailed | TooLarge | NotJson | Json(canonical: string)

  /** What an error of the work is. */
  datatype WorkError =
    | ToolError(code: string)
    | DeadlineExceeded
    | OtherError

  /** A request as it reaches the handler. An empty caller means no client certificate. */
  datatype Request = Request(caller: string, path: string, isPost: bool, body: Body, at: real)

  datatype Outcome =
    | NoClientCert
    | RateLimited(d: L.Decision)
    | BadPath | BadMethod | UnknownTool | ToolDisabled
    | BodyUnreadable | BodyTooLarge | InvalidJson
    | CacheHit(entry: C.Entry)
    | Answered(entry: C.Entry)
    | ToolFailed(code: string) | TimedOut | ToolStalled | Failed

  datatype AuditEntry = AuditEntry(caller: string, tool: string, outcome: Outcome)

  /** A line of the audit log, with the request it is about. */
  datatype Line = Line(who: nat, entry: AuditEntry)

  datatype Phase = Passed | Missed | Asked | Done

  /** A request in the daemon: whether it got past the limiter, the cache key it missed under,
      which caller of `Cache.Do` it is, and how far it has come. */
  datatype Slot = Slot(r: Request, admitted: bool, key: Option<string>, caller: Option<nat>, phase: Phase)

  datatype Deployment = Deployment(limits: L.Config, registry: set<string>, enabled: set<string>)

  /** `asked` lists the requests that called `Cache.Do`, in the order of `flight.callers`; it is
      history and no step reads it. */
  datatype State = State(
    limiter: L.State, cache: map<string, C.Entry>, flight: F.State, slots: map<nat, Slot>, log: seq<Line>,
    asked: seq<nat>)

  const MAX_AUDIT_TOOL_NAME := 128

  /** The ellipsis as the byte string it is in UTF-8. */
  function Ellipsis(): string {
    seq(|B.ELLIPSIS|, i requires 0 <= i < |B.ELLIPSIS| => B.ELLIPSIS[i] as char)
  }

  function TruncateToolName(name: string): string {
    if |name| <= MAX_AUDIT_TOOL_NAME then name else name[..MAX_AUDIT_TOOL_NAME] + Ellipsis()
  }

  predicate HasPrefix(path: string) {
    "/v1/" <= path
  }

  /** The tool name metered and audited: the whole path when it is not under /v1/. */
  function ToolName(path: string): string {
    TruncateToolName(if HasPrefix(path) then path[4..] else path)
  }

  function CacheKey(tool: string, canonical: string): string {
    tool + ":" + canonical
  }

  function Status(o: Outcome): int {
    match o
    case NoClientCert => 401
    case RateLimited(_) => 429
    case BadPath | UnknownTool | ToolDisabled => 404
    case BadMethod => 405
    case BodyUnreadable | InvalidJson => 400
    case BodyTooLarge => 413
    case CacheHit(_) | Answered(_) => 200
    case ToolFailed(code) => if code == "bad_argument" then 400 else 502
    case TimedOut => 504
    case ToolStalled => 503
    case Failed => 502
  }

  function ErrorOutcome(w: WorkError): Outcome {
    match w
    case ToolError(code) => ToolFailed(code)
    case DeadlineExceeded => TimedOut
    case OtherError => Failed
  }

  /** `Cache.Do` has returned to this caller. */
  predicate Returned(c: F.Caller) {
    c.Refused? || c.Received? || c.Cancelled? || c.TimedOut?
  }

  /** What the request ends with; `why` is the error, if the work failed. */
  function DoOutcome(c: F.Caller, why: WorkError): Outcome
    requires Returned(c)
  {
    match c
    case Refused(_) => ToolStalled
    case Received(_, _, r) => if r.Produced? then Answered(r.entry) else ErrorOutcome(why)
    case Cancelled(_) => Failed
    case TimedOut(_) => TimedOut
  }

  /** Whether a request ends before any tool runs, and with what, or goes to `Cache.Do`. */
  datatype Routed = Stop(o: Outcome) | Miss(key: string)

  /** The part of the handler between the limiter and `Cache.Do`. */
  function Route(dep: Deployment, cache: map<string, C.Entry>, r: Request, at: int): Routed {
    var tool := ToolName(r.path);
    if !HasPrefix(r.path) || tool == "" || '/' in tool then Stop(BadPath)
    else if !r.isPost then Stop(BadMethod)
    else if tool !in dep.registry then Stop(UnknownTool)
    else if |dep.enabled| > 0 && tool !in dep.enabled then Stop(ToolDisabled)
    else
      match r.body
      case ReadFailed => Stop(BodyUnreadable)
      case TooLarge => Stop(BodyTooLarge)
      case NotJson => Stop(InvalidJson)
      case Json(canonical) =>
        var key := CacheKey(tool, canonical);
        var found := C.Lookup(cache, key, at);
        if found.Some? then Stop(CacheHit(found.value)) else Miss(key)
  }

  /** What is audited of a request. */
  function Record(r: Request, o: Outcome): AuditEntry {
    AuditEntry(r.caller, if r.caller == "" then "" else ToolName(r.path), o)
  }

  function Ended(s: State, id: nat, slot: Slot, o: Outcome): State {
    s.(slots := s.slots[id := slot.(phase := Done)], log := s.log + [Line(id, Record(slot.r, o))])
  }

  // ---------------------------------------------------------------- the moments of a request

  /** A moment of a request, a step of its call of `Cache.Do`, or a sweeper's turn. `Produce` is the
      end of a successful run of a tool: its result is stored and returned. Each request has an
      id of its own. */
  datatype Event =
    | Arrive(id: nat, r: Request)
    | Open(id: nat, at: int)
    | Ask(id: nat)
    | Work(a: F.Action)
    | Produce(call: nat, entry: C.Entry, at: int)
    | Finish(id: nat, why: WorkError)
    | SweeperTick(t: real)
    | CacheSweep(at: int)

  function Arrived(dep: Deployment, s: State, id: nat, r: Request): State {
    if r.caller == "" then Ended(s, id, Slot(r, false, None, None, Passed), NoClientCert)
    else
      var (lim, d) := L.Allow(dep.limits, s.limiter, r.caller, ToolName(r.path), r.at);
      var s1 := s.(limiter := lim);
      if d != L.Allowed then Ended(s1, id, Slot(r, false, None, None, Passed), RateLimited(d))
      else s1.(slots := s.slots[id := Slot(r, true, None, None, Passed)])
  }

  function Opened(dep: Deployment, s: State, id: nat, at: int): State
    requires id in s.slots
  {
    var slot := s.slots[id];
    match Route(dep, s.cache, slot.r, at)
    case Stop(o) => Ended(s, id, slot, o)
    case Miss(key) => s.(slots := s.slots[id := slot.(key := Some(key), phase := Missed)])
  }

  /** The steps of `Flight` that are neither a new caller nor a success. */
  predicate IsWork(a: F.Action) {
    !a.Admit? && !(a.Return? && a.r.Produced?)
  }

  /** Whether a request is at the moment an event is about. */
  predicate Due(s: State, e: Event) {
    match e
    case Arrive(id, _) => id !in s.slots
    case Open(id, _) => id in s.slots && s.slots[id].phase == Passed
    case Ask(id) => id in s.slots && s.slots[id].phase == Missed && s.slots[id].key.Some?
    case Work(a) => IsWork(a) && F.Enabled(s.flight, a)
    case Produce(call, entry, _) => F.Enabled(s.flight, F.Return(call, F.Produced(entry)))
    case Finish(id, _) =>
      && id in s.slots && s.slots[id].phase == Asked && s.slots[id].caller.Some?
      && s.slots[id].caller.value < |s.flight.callers| && Returned(s.flight.callers[s.slots[id].caller.value])
    case _ => true
  }

  /** The step of `Flight` that an event takes, if it takes one. */
  function FlightStep(s: State, e: Event): Option<F.Action>
    requires Due(s, e)
  {
    match e
    case Ask(id) => Some(F.Admit(s.slots[id].key.value))
    case Work(a) => Some(a)
    case Produce(call, entry, _) => Some(F.Return(call, F.Produced(entry)))
    case _ => None
  }

  /** One event; one that is not due changes nothing. */
  function Step(dep: Deployment, s: State, e: Event): State {
    if !Due(s, e) then s
    else
      match e
      case Arrive(id, r) => Arrived(dep, s, id, r)
      case Open(id, at) => Opened(dep, s, id, at)
      case Ask(id) =>
        s.(flight := F.Next(s.flight, F.Admit(s.slots[id].key.value)),
           slots := s.slots[id := s.slots[id].(caller := Some(|s.flight.callers|), phase := Asked)],
           asked := s.asked + [id])
      case Work(a) => s.(flight := F.Next(s.flight, a))
      case Produce(call, entry, at) =>
        s.(cache := C.Store(s.cache, s.flight.calls[call].key, entry, at),
           flight := F.Next(s.flight, F.Return(call, F.Produced(entry))))
      case Finish(id, why) =>
        Ended(s, id, s.slots[id], DoOutcome(s.flight.callers[s.slots[id].caller.value], why))
      case SweeperTick(t) => s.(limiter := L.Sweep(s.limiter, t))
      case CacheSweep(at) => s.(cache := C.Unexpired(s.cache, at))
  }

  function After(dep: Deployment, s: State, run: seq<Event>): State
    decreases |run|
  {
    if |run| == 0 then s else After(dep, Step(dep, s, run[0]), run[1..])
  }

  function Init(start: real): State {
    State(L.Init(start), map[], F.INIT, map[], [], [])
  }

  /** No request arrives under an id that is taken. */
  predicate Fresh(taken: set<nat>, run: seq<Event>)
    decreases |run|
  {
    if |run| == 0 then true
    else if run[0].Arrive? then run[0].id !in taken && Fresh(taken + {run[0].id}, run[1..])
    else Fresh(taken, run[1..])
  }

  /** A metered and audited name is never longer than 131 bytes, and the cut never makes a path
      look like a tool: what is routed to a tool was that tool's path. */
  lemma RoutedToolIsThePath(registry: set<string>, path: string)
    requires forall t :: t in registry ==> |t| <= MAX_AUDIT_TOOL_NAME
    ensures |ToolName(path)| <= MAX_AUDIT_TOOL_NAME + |Ellipsis()|
    ensures HasPrefix(path) ==> (ToolName(path) in registry <==> path[4..] in registry)
    ensures HasPrefix(path) && ToolName(path) in registry ==> path == "/v1/" + ToolName(path)
  {
    if HasPrefix(path) {
      assert path == "/v1/" + path[4..];
    }
  }

  // ---------------------------------------------------------------- the server object

  class Server {
    const dep: Deployment
    const limiter: RateLimiter.RateLimiter
    const cache: C.EntryCache
    var flight: F.State
    var slots: map<nat, Slot>
    var log: seq<Line>
    ghost var asked: seq<nat>

    ghost predicate Valid()
      reads this, limiter, limiter.globals, limiter.tools, limiter.globals.repr, limiter.tools.repr
    {
      && limiter.Valid() && limiter.cfg == dep.limits
      && this !in limiter.Repr() && cache !in limiter.Repr()
    }

    ghost function View(): State
      reads this, limiter, limiter.globals, limiter.tools, cache
    {
      State(limiter.View(), cache.m, flight, slots, log, asked)
    }

    constructor (dep: Deployment, now: real)
      ensures Valid() && this.dep == dep && View() == Init(now)
    {
      this.dep := dep;
      limiter := new RateLimiter.RateLimiter(dep.limits, now);
      cache := new C.EntryCache();
      flight := F.INIT;
      slots, log, asked := map[], [], [];
    }

    /** Writes the record of a request, which ends it. */
    method End(id: nat, slot: Slot, o: Outcome) returns (status: int)
      modifies this`slots, this`log
      ensures View() == Ended(old(View()), id, slot, o) && status == Status(o)
    {
      slots := slots[id := slot.(phase := Done)];
      log := log + [Line(id, Record(slot.r, o))];
      return Status(o);
    }

    /** Authentication and metering. */
    method ArriveRequest(id: nat, r: Request) returns (status: Option<int>)
      requires Valid() && id !in slots
      modifies this, limiter.Repr()
      ensures Valid() && View() == Step(dep, old(View()), Arrive(id, r))
      ensures status == StatusOf(old(View()), View())
    {
      if r.caller == "" {
        var st := End(id, Slot(r, false, None, None, Passed), NoClientCert);
        return Some(st);
      }
      var d := limiter.Allow(r.caller, ToolName(r.path), r.at);
      if d != L.Allowed {
        var st := End(id, Slot(r, false, None, None, Passed), RateLimited(d));
        return Some(st);
      }
      slots := slots[id := Slot(r, true, None, None, Passed)];
      return None;
    }

    /** Routing, body checks and the cache lookup. */
    method OpenRequest(id: nat, at: int) returns (status: Option<int>)
      requires Valid() && id in slots && slots[id].phase == Passed
      modifies this`slots, this`log
      ensures Valid() && View() == Step(dep, old(View()), Open(id, at))
      ensures status == StatusOf(old(View()), View())
    {
      var to := RouteRequest(slots[id].r, at);
      if to.Miss? {
        slots := slots[id := slots[id].(key := Some(to.key), phase := Missed)];
        return None;
      }
      var st := End(id, slots[id], to.o);
      return Some(st);
    }

    method RouteRequest(r: Request, at: int) returns (to: Routed)
      ensures to == Route(dep, cache.m, r, at)
    {
      var tool := ToolName(r.path);
      if !HasPrefix(r.path) || tool == "" || '/' in tool {
        return Stop(BadPath);
      }
      if !r.isPost {
        return Stop(BadMethod);
      }
      if tool !in dep.registry {
        return Stop(UnknownTool);
      }
      if |dep.enabled| > 0 && tool !in dep.enabled {
        return Stop(ToolDisabled);
      }
      match r.body {
        case ReadFailed => return Stop(BodyUnreadable);
        case TooLarge => return Stop(BodyTooLarge);
        case NotJson => return Stop(InvalidJson);
        case Json(canonical) =>
          var key := CacheKey(tool, canonical);
          var found := cache.Find(key, at);
          if found.Some? {
            return Stop(CacheHit(found.value));
          }
          return Miss(key);
      }
    }

    /** The start of `Cache.Do`: the request becomes a caller, admitted or refused. */
    method AskWork(id: nat)
      requires Valid() && Due(View(), Ask(id))
      modifies this`flight, this`slots, this`asked
      ensures Valid() && View() == Step(dep, old(View()), Ask(id))
    {
      var slot := slots[id];
      slots := slots[id := slot.(caller := Some(|flight.callers|), phase := Asked)];
      flight := F.Next(flight, F.Admit(slot.key.value));
      asked := asked + [id];
    }

    /** The end of the closure that ran a tool with success: store the result, return it. */
    method ProduceEntry(call: nat, entry: C.Entry, at: int)
      requires Valid() && Due(View(), Produce(call, entry, at))
      modifies this`flight, cache
      ensures Valid() && View() == Step(dep, old(View()), Produce(call, entry, at))
    {
      cache.Put(flight.calls[call].key, entry, at);
      flight := F.Next(flight, F.Return(call, F.Produced(entry)));
    }

    /** The envelope or the error of what `Cache.Do` gave. */
    method FinishRequest(id: nat, why: WorkError) returns (status: int)
      requires Valid() && Due(View(), Finish(id, why))
      modifies this`slots, this`log
      ensures Valid() && View() == Step(dep, old(View()), Finish(id, why))
      ensures Some(status) == StatusOf(old(View()), View())
    {
      status := End(id, slots[id], DoOutcome(flight.callers[slots[id].caller.value], why));
    }
  }

  /** The status a step sends: that of the record it writes, if it writes one. */
  ghost function StatusOf(s: State, t: State): Option<int> {
    if |t.log| == |s.log| + 1 then Some(Status(Last(t.log).entry.outcome)) else None
  }

  // ---------------------------------------------------------------- one record per request

  predicate PastLimiter(a: AuditEntry) {
    a.outcome != NoClientCert && !a.outcome.RateLimited?
  }

  /** The record fits the request: its caller, its tool, and whether it got past the limiter. */
  predicate Audits(a: AuditEntry, slot: Slot) {
    && a.caller == slot.r.caller
    && (a.outcome == NoClientCert <==> slot.r.caller == "")
    && (slot.r.caller != "" ==> a.tool == ToolName(slot.r.path))
    && (PastLimiter(a) <==> slot.admitted)
  }

  /** What can be said of a single request: what missed had been admitted, only what missed calls
      `Cache.Do`, and an unauthenticated or refused one is over. */
  predicate Sane(slot: Slot) {
    && (slot.key.Some? || slot.phase != Done ==> slot.admitted)
    && (slot.admitted ==> slot.r.caller != "")
    && (slot.key.Some? ==> slot.r.body.Json? && slot.key.value == KeyOf(slot.r))
    && (slot.caller.Some? || slot.phase == Missed || slot.phase == Asked ==> slot.key.Some?)
    && (slot.phase == Asked ==> slot.caller.Some?)
    && (slot.phase == Passed ==> slot.key.None?)
    && (slot.phase == Passed || slot.phase == Missed ==> slot.caller.None?)
  }

  /** The books: every line is about a request that is over and fits it, no two lines are about
      the same request, and every request that is over has a line. */
  ghost predicate Booked(s: State) {
    && (forall id :: id in s.slots ==> Sane(s.slots[id]))
    && (forall j :: 0 <= j < |s.log| ==> LineFits(s, s.log[j]))
    && (forall j, k :: 0 <= j < k < |s.log| ==> s.log[j].who != s.log[k].who)
    && (forall id :: id in s.slots && s.slots[id].phase == Done ==> HasLine(s.log, id))
  }

  ghost predicate LineFits(s: State, l: Line) {
    l.who in s.slots && s.slots[l.who].phase == Done && Audits(l.entry, s.slots[l.who])
  }

  ghost predicate HasLine(log: seq<Line>, id: nat) {
    exists j :: 0 <= j < |log| && log[j].who == id
  }

  /** Requests still under way. */
  function UnderWay(s: State): set<nat> {
    set id | id in s.slots && s.slots[id].phase != Done
  }

  /** Every request is under way or has its line. */
  ghost predicate Balanced(s: State) {
    |s.log| + |UnderWay(s)| == |s.slots|
  }

  /** A step that moves one request on, or brings it in, without ending it. */
  ghost predicate Moves(s: State, t: State, id: nat) {
    && t.log == s.log && t.slots.Keys == s.slots.Keys + {id} && t.slots == s.slots[id := t.slots[id]]
    && Sane(t.slots[id])
    && (id in s.slots ==> (t.slots[id].phase == Done <==> s.slots[id].phase == Done)
                          && t.slots[id].r == s.slots[id].r && t.slots[id].admitted == s.slots[id].admitted)
    && (id !in s.slots ==> t.slots[id].phase != Done)
  }

  /** A step that ends one request, whether it was under way or has just come, with a record. */
  ghost predicate Ends(s: State, t: State, id: nat) {
    && |t.log| == |s.log| + 1 && t.log == s.log + [Last(t.log)] && Last(t.log).who == id
    && t.slots.Keys == s.slots.Keys + {id} && t.slots == s.slots[id := t.slots[id]]
    && Sane(t.slots[id]) && t.slots[id].phase == Done && Audits(Last(t.log).entry, t.slots[id])
    && (id in s.slots ==> s.slots[id].phase != Done
                          && t.slots[id].r == s.slots[id].r && t.slots[id].admitted == s.slots[id].admitted)
  }

  /** The entry an outcome carries to the caller. */
  function EntryOf(o: Outcome): Option<C.Entry> {
    if o.CacheHit? || o.Answered? then Some(o.entry) else None
  }

  /** The request is routed to a tool and its body is JSON. */
  predicate Reaches(dep: Deployment, r: Request) {
    var tool := ToolName(r.path);
    && HasPrefix(r.path) && tool != "" && '/' !in tool && r.isPost
    && tool in dep.registry && (|dep.enabled| > 0 ==> tool in dep.enabled) && r.body.Json?
  }

  /** What misses or hits reaches the cache, and what is stopped otherwise does not. */
  lemma RouteLaw(dep: Deployment, cache: map<string, C.Entry>, r: Request, at: int)
    ensures var to := Route(dep, cache, r, at);
            && (to.Stop? ==> to.o != NoClientCert && !to.o.RateLimited?)
            && (to.Miss? ==> r.body.Json? && to.key == KeyOf(r))
            && (to.Miss? || EntryOf(to.o).Some? <==> Reaches(dep, r))
  {
  }

  /** The key a request is looked up under. */
  function KeyOf(r: Request): string
    requires r.body.Json?
  {
    CacheKey(ToolName(r.path), r.body.canonical)
  }

  lemma EndedEnds(s: State, id: nat, slot: Slot, o: Outcome)
    requires Sane(slot.(phase := Done)) && Audits(Record(slot.r, o), slot)
    requires id in s.slots ==> s.slots[id] == slot && slot.phase != Done
    ensures Ends(s, Ended(s, id, slot, o), id)
  {
  }

  lemma ArriveKind(dep: Deployment, s: State, id: nat, r: Request)
    requires id !in s.slots
    ensures var t := Arrived(dep, s, id, r); Moves(s, t, id) || Ends(s, t, id)
  {
    var slot := Slot(r, false, None, None, Passed);
    if r.caller == "" {
      EndedEnds(s, id, slot, NoClientCert);
    } else {
      var (lim, d) := L.Allow(dep.limits, s.limiter, r.caller, ToolName(r.path), r.at);
      if d != L.Allowed {
        EndedEnds(s.(limiter := lim), id, slot, RateLimited(d));
      }
    }
  }

  lemma OpenKind(dep: Deployment, s: State, id: nat, at: int)
    requires id in s.slots && s.slots[id].phase == Passed && Sane(s.slots[id])
    ensures var t := Opened(dep, s, id, at); Moves(s, t, id) || Ends(s, t, id)
  {
    var slot := s.slots[id];
    RouteLaw(dep, s.cache, slot.r, at);
    var to := Route(dep, s.cache, slot.r, at);
    if to.Stop? {
      EndedEnds(s, id, slot, to.o);
    }
  }

  /** Every event that is due moves one request on or ends it, or leaves all requests alone. */
  lemma StepKinds(dep: Deployment, s: State, e: Event)
    requires Booked(s)
    ensures var t := Step(dep, s, e);
            || (t.slots == s.slots && t.log == s.log)
            || ((e.Arrive? || e.Open? || e.Ask? || e.Finish?) && (Moves(s, t, e.id) || Ends(s, t, e.id)))
  {
    if Due(s, e) {
      match e
      case Arrive(id, r) => ArriveKind(dep, s, id, r);
      case Open(id, at) => OpenKind(dep, s, id, at);
      case Finish(id, why) => EndedEnds(s, id, s.slots[id], DoOutcome(s.flight.callers[s.slots[id].caller.value], why));
      case _ =>
    }
  }

  /** How many requests are under way after one of them has changed or come. */
  lemma UnderWayPut(s: State, t: State, id: nat)
    requires id in t.slots && t.slots == s.slots[id := t.slots[id]]
    ensures |UnderWay(t)| + (if id in UnderWay(s) then 1 else 0)
         == |UnderWay(s)| + (if t.slots[id].phase == Done then 0 else 1)
  {
    forall x | x != id ensures x in UnderWay(s) <==> x in UnderWay(t) {
    }
    assert id in UnderWay(t) <==> t.slots[id].phase != Done;
    SizesApart(UnderWay(s), UnderWay(t), id);
  }

  lemma SizesApart(a: set<nat>, b: set<nat>, id: nat)
    requires forall x :: x != id ==> (x in a <==> x in b)
    ensures |b| + (if id in a then 1 else 0) == |a| + (if id in b then 1 else 0)
  {
    assert a - {id} == b - {id};
    assert |a - {id}| == |a| - (if id in a then 1 else 0);
    assert |b - {id}| == |b| - (if id in b then 1 else 0);
  }

  lemma MovesBalances(s: State, t: State, id: nat)
    requires Moves(s, t, id) && Balanced(s)
    ensures Balanced(t)
  {
    UnderWayPut(s, t, id);
    SlotCount(s, t, id);
  }

  lemma EndsBalances(s: State, t: State, id: nat)
    requires Ends(s, t, id) && Balanced(s)
    ensures Balanced(t)
  {
    UnderWayPut(s, t, id);
    SlotCount(s, t, id);
  }

  lemma SlotCount(s: State, t: State, id: nat)
    requires t.slots.Keys == s.slots.Keys + {id}
    ensures |t.slots| == |s.slots| + if id in s.slots then 0 else 1
  {
    assert |t.slots| == |t.slots.Keys| && |s.slots| == |s.slots.Keys|;
    if id in s.slots {
      assert t.slots.Keys == s.slots.Keys;
    }
  }

  lemma MovesKeepsBooks(s: State, t: State, id: nat)
    requires Booked(s) && Moves(s, t, id)
    ensures Booked(t)
  {
    forall j | 0 <= j < |t.log| ensures LineFits(t, t.log[j]) {
      assert LineFits(s, s.log[j]);
    }
    forall other | other in t.slots && t.slots[other].phase == Done ensures HasLine(t.log, other) {
      assert other in s.slots && s.slots[other].phase == Done;
      assert HasLine(s.log, other);
    }
    forall other | other in t.slots ensures Sane(t.slots[other]) {
      assert other != id ==> t.slots[other] == s.slots[other];
    }
  }

  lemma EndsKeepsLines(s: State, t: State, id: nat)
    requires Booked(s) && Ends(s, t, id)
    ensures forall j :: 0 <= j < |s.log| ==> t.log[j] == s.log[j] && s.log[j].who != id && LineFits(t, s.log[j])
    ensures t.log[|s.log|] == Last(t.log) && LineFits(t, Last(t.log))
  {
    forall j | 0 <= j < |s.log| ensures s.log[j].who != id && LineFits(t, s.log[j]) && t.log[j] == s.log[j] {
      assert LineFits(s, s.log[j]);
    }
  }

  lemma EndsKeepsBooks(s: State, t: State, id: nat)
    requires Booked(s) && Ends(s, t, id)
    ensures Booked(t)
  {
    EndsKeepsLines(s, t, id);
    forall other | other in t.slots && t.slots[other].phase == Done ensures HasLine(t.log, other) {
      if other == id {
        assert t.log[|s.log|].who == id;
      } else {
        assert HasLine(s.log, other);
        var j :| 0 <= j < |s.log| && s.log[j].who == other;
        assert t.log[j].who == other;
      }
    }
    forall other | other in t.slots ensures Sane(t.slots[other]) {
      assert other != id ==> t.slots[other] == s.slots[other];
    }
  }

  lemma StepKeepsBooks(dep: Deployment, s: State, e: Event)
    requires Booked(s) && Balanced(s)
    ensures var t := Step(dep, s, e); Booked(t) && Balanced(t) && s.log <= t.log
  {
    StepKinds(dep, s, e);
    var t := Step(dep, s, e);
    if t.slots == s.slots && t.log == s.log {
      assert UnderWay(t) == UnderWay(s);
      forall j | 0 <= j < |t.log| ensures LineFits(t, t.log[j]) {
        assert LineFits(s, s.log[j]);
      }
    } else if Moves(s, t, e.id) {
      MovesKeepsBooks(s, t, e.id);
      MovesBalances(s, t, e.id);
    } else {
      EndsKeepsBooks(s, t, e.id);
      EndsBalances(s, t, e.id);
    }
  }

  lemma {:induction false} RunKeepsBooks(dep: Deployment, s: State, run: seq<Event>)
    requires Booked(s) && Balanced(s)
    ensures var t := After(dep, s, run); Booked(t) && Balanced(t) && s.log <= t.log
    decreases |run|
  {
    if |run| > 0 {
      StepKeepsBooks(dep, s, run[0]);
      RunKeepsBooks(dep, Step(dep, s, run[0]), run[1..]);
    }
  }

  lemma ReachableBooked(dep: Deployment, start: real, run: seq<Event>)
    ensures var s := After(dep, Init(start), run); Booked(s) && Balanced(s)
  {
    assert UnderWay(Init(start)) == {};
    RunKeepsBooks(dep, Init(start), run);
  }

  /** In every run, however requests overlap: each request has exactly one record if it is over
      and none if it is not, the record fits it, and records are never lost or changed. */
  lemma OneRecordPerRequest(dep: Deployment, start: real, before: seq<Event>, more: seq<Event>)
    ensures var s, t := After(dep, Init(start), before), After(dep, After(dep, Init(start), before), more);
            && Booked(s) && |s.log| + |UnderWay(s)| == |s.slots|
            && s.log <= t.log
  {
    ReachableBooked(dep, start, before);
    RunKeepsBooks(dep, After(dep, Init(start), before), more);
  }

  // ---------------------------------------------------------------- the flight behind the pipeline

  /** The step of `Flight` an event takes, or none. */
  function FlightOne(s: State, e: Event): seq<F.Action> {
    if Due(s, e) && FlightStep(s, e).Some? then [FlightStep(s, e).value] else []
  }

  /** The steps of `Flight` a run takes. */
  function FlightRun(dep: Deployment, s: State, run: seq<Event>): seq<F.Action>
    decreases |run|
  {
    if |run| == 0 then [] else FlightOne(s, run[0]) + FlightRun(dep, Step(dep, s, run[0]), run[1..])
  }

  /** The flight of a state is what these steps of `Flight` lead to. */
  ghost predicate FlownBy(s: State, acts: seq<F.Action>) {
    F.IsRun(acts) && F.After(acts) == s.flight
  }

  lemma FlightExtends(acts: seq<F.Action>, a: F.Action)
    requires F.IsRun(acts) && F.Enabled(F.After(acts), a)
    ensures F.IsRun(acts + [a]) && F.After(acts + [a]) == F.Next(F.After(acts), a)
  {
    assert Front(acts + [a]) == acts && Last(acts + [a]) == a;
  }

  /** What an event does to the flight is a step of `Flight`, or nothing. */
  lemma StepFlight(dep: Deployment, s: State, e: Event)
    ensures var t := Step(dep, s, e);
            if Due(s, e) && FlightStep(s, e).Some?
            then F.Enabled(s.flight, FlightStep(s, e).value) && t.flight == F.Next(s.flight, FlightStep(s, e).value)
            else t.flight == s.flight
  {
  }

  lemma StepFlown(dep: Deployment, s: State, acts: seq<F.Action>, e: Event)
    requires FlownBy(s, acts)
    ensures FlownBy(Step(dep, s, e), acts + FlightOne(s, e))
  {
    StepFlight(dep, s, e);
    if FlightOne(s, e) == [] {
      assert acts + [] == acts;
    } else {
      FlightExtends(acts, FlightStep(s, e).value);
    }
  }

  lemma {:induction false} RunFlight(dep: Deployment, s: State, acts: seq<F.Action>, run: seq<Event>)
    requires FlownBy(s, acts)
    ensures FlownBy(After(dep, s, run), acts + FlightRun(dep, s, run))
    decreases |run|
  {
    if |run| == 0 {
      assert acts + FlightRun(dep, s, run) == acts;
    } else {
      var s', one := Step(dep, s, run[0]), FlightOne(s, run[0]);
      StepFlown(dep, s, acts, run[0]);
      RunFlight(dep, s', acts + one, run[1..]);
      Reassociate(acts, one, FlightRun(dep, s', run[1..]));
    }
  }

  lemma Reassociate(a: seq<F.Action>, b: seq<F.Action>, c: seq<F.Action>)
    ensures a + (b + c) == a + b + c
  {
  }

  /** The tool runs behind the requests of any run are a run of `Flight`, so all that holds of
      those holds of them: exact counters, coalescing, and the bounds on what is in flight. */
  lemma FlightIsARun(dep: Deployment, start: real, run: seq<Event>)
    ensures var acts := FlightRun(dep, Init(start), run);
            F.IsRun(acts) && F.After(acts) == After(dep, Init(start), run).flight
  {
    RunFlight(dep, Init(start), [], run);
    assert [] + FlightRun(dep, Init(start), run) == FlightRun(dep, Init(start), run);
  }

  /** And every step of `Flight` but an admission can be taken as soon as it can be there. */
  lemma FlightIsFree(dep: Deployment, s: State, a: F.Action, at: int) returns (e: Event)
    requires F.Enabled(s.flight, a) && !a.Admit?
    ensures Due(s, e) && Step(dep, s, e).flight == F.Next(s.flight, a)
  {
    if a.Return? && a.r.Produced? {
      e := Produce(a.call, a.r.entry, at);
    } else {
      e := Work(a);
    }
  }

  // ---- which requests call

  /** The callers of `Cache.Do` are the requests that asked, one each. */
  ghost predicate Tied(s: State) {
    && |s.asked| == |s.flight.callers|
    && (forall w :: 0 <= w < |s.asked| ==> AskedAs(s, w))
    && (forall id :: id in s.slots && s.slots[id].caller.Some? ==>
          s.slots[id].caller.value < |s.asked| && s.asked[s.slots[id].caller.value] == id)
  }

  /** Caller w is a request that missed under the key it calls with. */
  ghost predicate AskedAs(s: State, w: nat)
    requires w < |s.asked| == |s.flight.callers|
  {
    && s.asked[w] in s.slots && s.slots[s.asked[w]].caller == Some(w)
    && s.slots[s.asked[w]].key == Some(s.flight.callers[w].key)
  }

  /** A step of `Flight` changes the key of no caller, and only an admission adds one. */
  lemma CallersKeepKeys(s: F.State, a: F.Action)
    requires F.Enabled(s, a)
    ensures var t := F.Next(s, a);
            && |t.callers| == |s.callers| + (if a.Admit? then 1 else 0)
            && (a.Admit? ==> t.callers[|s.callers|].key == a.key)
            && forall w :: 0 <= w < |s.callers| ==> t.callers[w].key == s.callers[w].key
  {
  }

  /** A step that leaves asking, keys and callers' places alone. */
  lemma TiedKept(s: State, t: State)
    requires Tied(s) && t.asked == s.asked && |t.flight.callers| == |s.flight.callers|
    requires forall w :: 0 <= w < |s.flight.callers| ==> t.flight.callers[w].key == s.flight.callers[w].key
    requires forall id :: id in s.slots ==>
               id in t.slots && t.slots[id].caller == s.slots[id].caller
               && (s.slots[id].caller.Some? ==> t.slots[id].key == s.slots[id].key)
    requires forall id :: id in t.slots && id !in s.slots ==> t.slots[id].caller.None?
    ensures Tied(t)
  {
    forall w | 0 <= w < |t.asked| ensures AskedAs(t, w) {
      assert AskedAs(s, w);
    }
  }

  lemma AskTies(dep: Deployment, s: State, id: nat)
    requires Tied(s) && Booked(s) && Due(s, Ask(id))
    ensures Tied(Step(dep, s, Ask(id)))
  {
    var t := Step(dep, s, Ask(id));
    CallersKeepKeys(s.flight, F.Admit(s.slots[id].key.value));
    assert Sane(s.slots[id]);
    forall w | 0 <= w < |t.asked| ensures AskedAs(t, w) {
      if w < |s.asked| {
        assert AskedAs(s, w);
      }
    }
  }

  /** The flight takes a step that admits nobody; the requests stay. */
  lemma WorkTies(s: State, t: State, a: F.Action)
    requires Tied(s) && F.Enabled(s.flight, a) && !a.Admit?
    requires t.flight == F.Next(s.flight, a) && t.slots == s.slots && t.asked == s.asked
    ensures Tied(t)
  {
    CallersKeepKeys(s.flight, a);
    TiedKept(s, t);
  }

  /** The flight stays; one request changes, not in its part as a caller, or comes. */
  lemma SlotTies(s: State, t: State, id: nat)
    requires Tied(s) && t.flight == s.flight && t.asked == s.asked
    requires id in t.slots && t.slots == s.slots[id := t.slots[id]]
    requires id in s.slots ==>
               t.slots[id].caller == s.slots[id].caller && (s.slots[id].caller.Some? ==> t.slots[id].key == s.slots[id].key)
    requires id !in s.slots ==> t.slots[id].caller.None?
    ensures Tied(t)
  {
    TiedKept(s, t);
  }

  lemma StepTies(dep: Deployment, s: State, e: Event)
    requires Tied(s) && Booked(s)
    ensures Tied(Step(dep, s, e))
  {
    if Due(s, e) {
      var t := Step(dep, s, e);
      match e
      case Arrive(id, r) => SlotTies(s, t, id);
      case Open(id, at) =>
        assert Sane(s.slots[id]);
        SlotTies(s, t, id);
      case Ask(id) => AskTies(dep, s, id);
      case Work(a) => WorkTies(s, t, a);
      case Produce(call, entry, at) => WorkTies(s, t, F.Return(call, F.Produced(entry)));
      case Finish(id, why) => SlotTies(s, t, id);
      case SweeperTick(_) => TiedKept(s, t);
      case CacheSweep(_) => TiedKept(s, t);
    }
  }

  lemma {:induction false} RunTies(dep: Deployment, s: State, run: seq<Event>)
    requires Tied(s) && Booked(s) && Balanced(s)
    ensures Tied(After(dep, s, run))
    decreases |run|
  {
    if |run| > 0 {
      StepTies(dep, s, run[0]);
      StepKeepsBooks(dep, s, run[0]);
      RunTies(dep, Step(dep, s, run[0]), run[1..]);
    }
  }

  lemma ReachableTied(dep: Deployment, start: real, run: seq<Event>)
    ensures Tied(After(dep, Init(start), run))
  {
    assert UnderWay(Init(start)) == {};
    RunTies(dep, Init(start), run);
  }

  /** Every tool run was started for a request of its own, which had been let past the limiter and
      had missed the cache under the key of that tool run. */
  lemma LeadersAsked(dep: Deployment, start: real, run: seq<Event>)
    ensures var s := After(dep, Init(start), run);
            && (forall c :: 0 <= c < |s.flight.calls| ==>
                  && Leaders(s)[c] in s.slots && s.slots[Leaders(s)[c]].admitted
                  && s.slots[Leaders(s)[c]].key == Some(s.flight.calls[c].key))
            && (forall c, d :: 0 <= c < d < |s.flight.calls| ==> Leaders(s)[c] != Leaders(s)[d])
  {
    var s := After(dep, Init(start), run);
    FlightIsARun(dep, start, run);
    F.EveryRun(FlightRun(dep, Init(start), run));
    ReachableTied(dep, start, run);
    ReachableBooked(dep, start, run);
    forall c | 0 <= c < |s.flight.calls|
      ensures Leaders(s)[c] in s.slots && s.slots[Leaders(s)[c]].admitted
      ensures s.slots[Leaders(s)[c]].key == Some(s.flight.calls[c].key)
      ensures s.slots[Leaders(s)[c]].caller == Some(s.flight.calls[c].leader)
    {
      assert F.LedBy(s.flight, c);
      assert AskedAs(s, s.flight.calls[c].leader);
      assert Sane(s.slots[Leaders(s)[c]]);
    }
  }

  // ---- where answers come from

  /** The line's entry, if it has one, was produced under its request's key. */
  ghost predicate LineBacked(s: State, l: Line) {
    EntryOf(l.entry.outcome).Some? ==>
      && l.who in s.slots && s.slots[l.who].r.body.Json?
      && F.Yielded(s.flight, KeyOf(s.slots[l.who].r), EntryOf(l.entry.outcome).value)
  }

  /** Everything in the cache and in the log was produced by a tool run under its key. */
  ghost predicate Backed(s: State) {
    && (forall k :: k in s.cache ==> F.Yielded(s.flight, k, s.cache[k]))
    && (forall j :: 0 <= j < |s.log| ==> LineBacked(s, s.log[j]))
  }

  /** The flight goes on by one step; requests, log and cache stay. */
  lemma FlightKeepsBacked(s: State, t: State, a: F.Action)
    requires Backed(s) && F.Enabled(s.flight, a) && t.flight == F.Next(s.flight, a) && t.log == s.log
    requires forall id :: id in s.slots ==> id in t.slots && t.slots[id].r == s.slots[id].r
    requires forall k :: k in t.cache ==> (k in s.cache && t.cache[k] == s.cache[k]) || F.Yielded(t.flight, k, t.cache[k])
    ensures Backed(t)
  {
    forall k, e | F.Yielded(s.flight, k, e) ensures F.Yielded(t.flight, k, e) {
      F.YieldedStays(s.flight, a, k, e);
    }
    forall j | 0 <= j < |t.log| ensures LineBacked(t, t.log[j]) {
      assert LineBacked(s, s.log[j]);
    }
  }

  lemma ProduceBacks(dep: Deployment, s: State, call: nat, entry: C.Entry, at: int)
    requires Backed(s) && Due(s, Produce(call, entry, at))
    ensures Backed(Step(dep, s, Produce(call, entry, at)))
  {
    var t, a := Step(dep, s, Produce(call, entry, at)), F.Return(call, F.Produced(entry));
    assert t.flight.calls[call].key == s.flight.calls[call].key && t.flight.calls[call].Yields(entry);
    FlightKeepsBacked(s, t, a);
  }

  /** A request that ends with an entry of its own key keeps the log backed. */
  lemma EndedBacks(s: State, id: nat, slot: Slot, o: Outcome)
    requires Backed(s) && (id in s.slots ==> s.slots[id].r == slot.r)
    requires EntryOf(o).Some? ==> slot.r.body.Json? && F.Yielded(s.flight, KeyOf(slot.r), EntryOf(o).value)
    ensures Backed(Ended(s, id, slot, o))
  {
    var t := Ended(s, id, slot, o);
    forall j | 0 <= j < |t.log| ensures LineBacked(t, t.log[j]) {
      if j < |s.log| {
        assert LineBacked(s, s.log[j]);
      }
    }
  }

  lemma ArriveBacks(dep: Deployment, s: State, id: nat, r: Request)
    requires Backed(s) && id !in s.slots
    ensures Backed(Arrived(dep, s, id, r))
  {
    var slot := Slot(r, false, None, None, Passed);
    if r.caller == "" {
      EndedBacks(s, id, slot, NoClientCert);
    } else {
      var (lim, d) := L.Allow(dep.limits, s.limiter, r.caller, ToolName(r.path), r.at);
      if d != L.Allowed {
        EndedBacks(s.(limiter := lim), id, slot, RateLimited(d));
      } else {
        LinesKeepBacked(s, Arrived(dep, s, id, r));
      }
    }
  }

  lemma LinesKeepBacked(s: State, t: State)
    requires Backed(s) && t.flight == s.flight && t.log == s.log
    requires forall id :: id in s.slots ==> id in t.slots && t.slots[id].r == s.slots[id].r
    requires forall k :: k in t.cache ==> k in s.cache && t.cache[k] == s.cache[k]
    ensures Backed(t)
  {
    forall j | 0 <= j < |t.log| ensures LineBacked(t, t.log[j]) {
      assert LineBacked(s, s.log[j]);
    }
  }

  lemma OpenBacks(dep: Deployment, s: State, id: nat, at: int)
    requires Backed(s) && id in s.slots
    ensures Backed(Opened(dep, s, id, at))
  {
    var slot := s.slots[id];
    var to := Route(dep, s.cache, slot.r, at);
    if to.Stop? {
      EndedBacks(s, id, slot, to.o);
    } else {
      LinesKeepBacked(s, Opened(dep, s, id, at));
    }
  }

  lemma FinishBacks(dep: Deployment, s: State, acts: seq<F.Action>, id: nat, why: WorkError)
    requires Backed(s) && Booked(s) && Tied(s) && Due(s, Finish(id, why)) && FlownBy(s, acts)
    ensures Backed(Step(dep, s, Finish(id, why)))
  {
    var slot := s.slots[id];
    var w := slot.caller.value;
    var c := s.flight.callers[w];
    assert Sane(slot) && AskedAs(s, w);
    if c.Received? && c.r.Produced? {
      F.ReceivedIsYielded(acts, w);
    }
    EndedBacks(s, id, slot, DoOutcome(c, why));
  }

  lemma StepBacks(dep: Deployment, s: State, acts: seq<F.Action>, e: Event)
    requires Backed(s) && Booked(s) && Tied(s) && FlownBy(s, acts)
    ensures Backed(Step(dep, s, e))
  {
    if Due(s, e) {
      var t := Step(dep, s, e);
      match e
      case Arrive(id, r) => ArriveBacks(dep, s, id, r);
      case Open(id, at) => OpenBacks(dep, s, id, at);
      case Ask(id) => FlightKeepsBacked(s, t, F.Admit(s.slots[id].key.value));
      case Work(a) => FlightKeepsBacked(s, t, a);
      case Produce(call, entry, at) => ProduceBacks(dep, s, call, entry, at);
      case Finish(id, why) => FinishBacks(dep, s, acts, id, why);
      case SweeperTick(_) => LinesKeepBacked(s, t);
      case CacheSweep(_) => LinesKeepBacked(s, t);
    }
  }

  lemma {:induction false} RunBacks(dep: Deployment, s: State, acts: seq<F.Action>, run: seq<Event>)
    requires Backed(s) && Booked(s) && Balanced(s) && Tied(s) && FlownBy(s, acts)
    ensures Backed(After(dep, s, run))
    decreases |run|
  {
    if |run| > 0 {
      var e := run[0];
      StepBacks(dep, s, acts, e);
      StepKeepsBooks(dep, s, e);
      StepTies(dep, s, e);
      StepFlown(dep, s, acts, e);
      RunBacks(dep, Step(dep, s, e), acts + FlightOne(s, e), run[1..]);
    }
  }

  /** In every run, an answer a caller is given, from the cache or from `Cache.Do`, is an entry that
      a tool run under the key of that very request produced. */
  lemma AnswersAreOwn(dep: Deployment, start: real, run: seq<Event>, j: nat)
    requires j < |After(dep, Init(start), run).log| && EntryOf(After(dep, Init(start), run).log[j].entry.outcome).Some?
    ensures var s := After(dep, Init(start), run);
            var l := s.log[j];
            && l.who in s.slots && s.slots[l.who].r.body.Json?
            && F.Yielded(s.flight, KeyOf(s.slots[l.who].r), EntryOf(l.entry.outcome).value)
  {
    assert UnderWay(Init(start)) == {};
    RunBacks(dep, Init(start), [], run);
    assert LineBacked(After(dep, Init(start), run), After(dep, Init(start), run).log[j]);
  }

  /** The key of a request is that of no other tool or arguments, since tool names hold no colon. */
  lemma CacheKeyInjective(tool: string, args: string, tool': string, args': string)
    requires CacheKey(tool, args) == CacheKey(tool', args') && ':' !in tool && ':' !in tool'
    ensures tool == tool' && args == args'
  {
    var k := CacheKey(tool, args);
    assert k[|tool|] == ':' && k[|tool'|] == ':';
    assert |tool| == |tool'|;
    assert tool == k[..|tool|] && tool' == k[..|tool'|];
    assert args == k[|tool| + 1..] && args' == k[|tool'| + 1..];
  }

  // ---------------------------------------------------------------- the rate bound

  /** The requests of a caller that got past the limiter. */
  function Admitted(s: State, c: string): set<nat> {
    set id | id in s.slots && s.slots[id].admitted && s.slots[id].r.caller == c
  }

  /** The limiter's view of a run. */
  function Metered(run: seq<Event>): seq<L.Event> {
    if |run| == 0 then [] else MeteredOne(run[0]) + Metered(run[1..])
  }

  function MeteredOne(e: Event): seq<L.Event> {
    match e
    case Arrive(_, r) => if r.caller == "" then [] else [L.Call(r.caller, ToolName(r.path), r.at)]
    case SweeperTick(t) => [L.Tick(t)]
    case _ => []
  }

  lemma MeteredJoin(a: seq<Event>, b: seq<Event>)
    ensures Metered(a + b) == Metered(a) + Metered(b)
  {
    if |a| == 0 {
      assert a + b == b;
    } else {
      assert (a + b)[1..] == a[1..] + b;
      MeteredJoin(a[1..], b);
    }
  }

  lemma StepKeys(dep: Deployment, s: State, e: Event)
    ensures Step(dep, s, e).slots.Keys == s.slots.Keys + if e.Arrive? then {e.id} else {}
  {
  }

  /** What the limiter makes of one metered call. */
  lemma OneCall(cfg: L.Config, s: L.State, caller: string, tool: string, at: real, c: string)
    ensures var m, (s', d) := [L.Call(caller, tool, at)], L.Allow(cfg, s, caller, tool, at);
            && L.After(cfg, s, m) == s'
            && R.AllowedCalls(cfg, s, m, R.OfCaller(c)) == if d == L.Allowed && caller == c then 1 else 0
  {
    assert [L.Call(caller, tool, at)][1..] == [];
  }

  /** One arrival: the limiter takes its step, and the request is admitted if it says so. */
  lemma ArriveMeters(dep: Deployment, s: State, id: nat, r: Request, c: string)
    requires id !in s.slots
    ensures var t, m := Arrived(dep, s, id, r), MeteredOne(Arrive(id, r));
            && t.limiter == L.After(dep.limits, s.limiter, m)
            && Admitted(s, c) <= Admitted(t, c)
            && |Admitted(t, c)| == |Admitted(s, c)| + R.AllowedCalls(dep.limits, s.limiter, m, R.OfCaller(c))
  {
    var t, tool := Arrived(dep, s, id, r), ToolName(r.path);
    if r.caller == "" {
      assert Admitted(t, c) == Admitted(s, c);
    } else {
      OneCall(dep.limits, s.limiter, r.caller, tool, r.at, c);
      var allowed := L.Allow(dep.limits, s.limiter, r.caller, tool, r.at).1 == L.Allowed;
      assert t.slots[id].admitted == allowed && t.slots[id].r == r && t.slots == s.slots[id := t.slots[id]];
      AdmittedPut(s, t, id, c);
    }
  }

  lemma AdmittedPut(s: State, t: State, id: nat, c: string)
    requires id !in s.slots && id in t.slots && t.slots == s.slots[id := t.slots[id]]
    ensures var more := if t.slots[id].admitted && t.slots[id].r.caller == c then {id} else {};
            Admitted(t, c) == Admitted(s, c) + more && |Admitted(t, c)| == |Admitted(s, c)| + |more|
  {
    var more := if t.slots[id].admitted && t.slots[id].r.caller == c then {id} else {};
    assert Admitted(t, c) == Admitted(s, c) + more;
  }

  lemma StepMeters(dep: Deployment, s: State, e: Event, c: string)
    requires e.Arrive? ==> e.id !in s.slots
    ensures var t, m := Step(dep, s, e), MeteredOne(e);
            && t.limiter == L.After(dep.limits, s.limiter, m)
            && Admitted(s, c) <= Admitted(t, c)
            && |Admitted(t, c)| == |Admitted(s, c)| + R.AllowedCalls(dep.limits, s.limiter, m, R.OfCaller(c))
  {
    if e.Arrive? {
      ArriveMeters(dep, s, e.id, e.r, c);
    } else {
      assert Admitted(Step(dep, s, e), c) == Admitted(s, c);
      assert e.SweeperTick? ==> MeteredOne(e)[1..] == [];
    }
  }

  /** However requests overlap, the limiter sees the arrivals alone, and the pipeline admits a
      caller's requests exactly as often as the limiter allows. */
  lemma {:induction false} RunMeters(dep: Deployment, s: State, run: seq<Event>, c: string)
    requires Fresh(s.slots.Keys, run)
    ensures var t := After(dep, s, run);
            && t.limiter == L.After(dep.limits, s.limiter, Metered(run))
            && Admitted(s, c) <= Admitted(t, c)
            && |Admitted(t, c)| == |Admitted(s, c)| + R.AllowedCalls(dep.limits, s.limiter, Metered(run), R.OfCaller(c))
    decreases |run|
  {
    if |run| > 0 {
      var s' := Step(dep, s, run[0]);
      StepMeters(dep, s, run[0], c);
      StepKeys(dep, s, run[0]);
      assert run[0].Arrive? || s'.slots.Keys == s.slots.Keys;
      RunMeters(dep, s', run[1..], c);
      R.CountJoin(dep.limits, s.limiter, MeteredOne(run[0]), Metered(run[1..]), R.OfCaller(c));
    }
  }

  lemma {:induction false} FreshSplit(dep: Deployment, s: State, a: seq<Event>, b: seq<Event>)
    requires Fresh(s.slots.Keys, a + b)
    ensures Fresh(s.slots.Keys, a) && Fresh(After(dep, s, a).slots.Keys, b)
    decreases |a|
  {
    if |a| == 0 {
      assert a + b == b;
    } else {
      assert (a + b)[1..] == a[1..] + b;
      StepKeys(dep, s, a[0]);
      assert a[0].Arrive? || Step(dep, s, a[0]).slots.Keys == s.slots.Keys;
      FreshSplit(dep, Step(dep, s, a[0]), a[1..], b);
    }
  }

  /** The token-bucket bound for the time between the first and the last metered event. */
  function RateBound(cfg: L.Config, start: real, m: seq<L.Event>): real
    requires |m| > 0
  {
    cfg.global.burst as real + Accrued(cfg.global, L.LastTime(start, m) - m[0].at)
  }

  /** In any window of any run, the requests of one authenticated caller that the limiter lets
      pass in it stay within the global bucket: burst plus rate times the window's length, as
      the limiter sees the time. Nothing is asked of the tools' buckets. */
  lemma CallerIsBounded(dep: Deployment, start: real, before: seq<Event>, window: seq<Event>, c: string)
    requires dep.limits.Sound() && R.Bounds(dep.limits.global)
    requires Fresh({}, before + window) && L.Ordered(start, Metered(before + window)) && |Metered(window)| > 0
    ensures var s := After(dep, Init(start), before);
            |Admitted(After(dep, s, window), c) - Admitted(s, c)| as real <= RateBound(dep.limits, start, Metered(window))
  {
    MeteredJoin(before, window);
    WindowAdmits(dep, start, before, window, c);
    R.WindowBound(dep.limits, start, Metered(before), Metered(window), R.OfCaller(c));
  }

  /** What a window admits is what the limiter allows in it. */
  lemma WindowAdmits(dep: Deployment, start: real, before: seq<Event>, window: seq<Event>, c: string)
    requires Fresh({}, before + window)
    ensures var s := After(dep, Init(start), before);
            |Admitted(After(dep, s, window), c) - Admitted(s, c)| ==
            R.AllowedCalls(dep.limits, L.After(dep.limits, L.Init(start), Metered(before)), Metered(window), R.OfCaller(c))
  {
    var s := After(dep, Init(start), before);
    assert Init(start).slots.Keys == {};
    FreshSplit(dep, Init(start), before, window);
    RunMeters(dep, Init(start), before, c);
    RunMeters(dep, s, window, c);
    SizeOfMore(Admitted(s, c), Admitted(After(dep, s, window), c));
  }

  lemma SizeOfMore(a: set<nat>, b: set<nat>)
    requires a <= b
    ensures |b - a| == |b| - |a|
  {
    assert b == a + (b - a);
  }

  lemma {:induction false} Injects(js: set<nat>, f: seq<nat>, ids: set<nat>)
    requires forall j :: j in js ==> j < |f| && f[j] in ids
    requires forall j, k :: j in js && k in js && j != k ==> f[j] != f[k]
    ensures |js| <= |ids|
    decreases |js|
  {
    if |js| > 0 {
      var j :| j in js;
      Injects(js - {j}, f, ids - {f[j]});
      assert js == js - {j} + {j} && ids == ids - {f[j]} + {f[j]};
    }
  }

  /** The requests that lines are about, one each. */
  function Subjects(log: seq<Line>): seq<nat> {
    seq(|log|, j requires 0 <= j < |log| => log[j].who)
  }

  /** The requests that invocations were started for. */
  function Leaders(s: State): seq<nat> {
    seq(|s.flight.calls|, c requires 0 <= c < |s.flight.calls| =>
      if s.flight.calls[c].leader < |s.asked| then s.asked[s.flight.calls[c].leader] else 0)
  }

  /** The positions of requests of a set. */
  function Positions(f: seq<nat>, ids: set<nat>): set<nat> {
    set j: nat | j < |f| && f[j] in ids
  }

  lemma PositionsAtMost(f: seq<nat>, ids: set<nat>)
    requires forall j, k :: 0 <= j < k < |f| ==> f[j] != f[k]
    ensures |Positions(f, ids)| <= |ids|
  {
    Injects(Positions(f, ids), f, ids);
  }

  /** So do the records of such requests and the tool runs started for them, whenever they come:
      at most one each. A record of the caller that is no refusal is about a request of its that
      was admitted, and so is every tool run and every cache fill. */
  lemma RecordsAreBounded(dep: Deployment, start: real, before: seq<Event>, window: seq<Event>, later: seq<Event>, c: string)
    requires dep.limits.Sound() && R.Bounds(dep.limits.global)
    requires Fresh({}, before + window) && L.Ordered(start, Metered(before + window)) && |Metered(window)| > 0
    ensures var s := After(dep, Init(start), before);
            var t := After(dep, s, window);
            var u := After(dep, t, later);
            var ids, bound := Admitted(t, c) - Admitted(s, c), RateBound(dep.limits, start, Metered(window));
            && |Positions(Subjects(u.log), ids)| as real <= bound
            && |Positions(Leaders(u), ids)| as real <= bound
            && (forall j :: 0 <= j < |u.log| && u.log[j].entry.caller == c && PastLimiter(u.log[j].entry) ==>
                  u.log[j].who in Admitted(u, c))
            && (forall j :: 0 <= j < |u.flight.calls| ==>
                  Leaders(u)[j] in u.slots && Leaders(u)[j] in Admitted(u, u.slots[Leaders(u)[j]].r.caller))
  {
    var s := After(dep, Init(start), before);
    var t := After(dep, s, window);
    var u := After(dep, t, later);
    var ids := Admitted(t, c) - Admitted(s, c);
    Joined(dep, start, before, window, later);
    ReachableBooked(dep, start, before + window + later);
    PositionsAtMost(Subjects(u.log), ids);
    LeadersAsked(dep, start, before + window + later);
    PositionsAtMost(Leaders(u), ids);
    CallerIsBounded(dep, start, before, window, c);
    forall j | 0 <= j < |u.log| && u.log[j].entry.caller == c && PastLimiter(u.log[j].entry)
      ensures u.log[j].who in Admitted(u, c)
    {
      assert LineFits(u, u.log[j]);
    }
  }

  lemma Joined(dep: Deployment, start: real, a: seq<Event>, b: seq<Event>, c: seq<Event>)
    ensures After(dep, After(dep, After(dep, Init(start), a), b), c) == After(dep, Init(start), a + b + c)
  {
    AfterJoin(dep, Init(start), a, b);
    AfterJoin(dep, Init(start), a + b, c);
  }

  lemma {:induction false} AfterJoin(dep: Deployment, s: State, a: seq<Event>, b: seq<Event>)
    ensures After(dep, s, a + b) == After(dep, After(dep, s, a), b)
    decreases |a|
  {
    if |a| == 0 {
      assert a + b == b;
    } else {
      assert (a + b)[1..] == a[1..] + b;
      AfterJoin(dep, Step(dep, s, a[0]), a[1..], b);
    }
  }

  /** The shipped global bucket: 30 a minute, bursts of 10. */
  const SHIPPED := Cfg(30, 10, false)

  /** With the shipped bucket, whatever the tools' buckets, no caller gets more than 40 requests
      past the limiter in any minute. */
  lemma ShippedMinute(dep: Deployment, start: real, before: seq<Event>, window: seq<Event>, c: string)
    requires dep.limits.Sound() && dep.limits.global == SHIPPED
    requires Fresh({}, before + window) && L.Ordered(start, Metered(before + window)) && |Metered(window)| > 0
    requires L.LastTime(start, Metered(window)) - Metered(window)[0].at <= 60.0
    ensures var s := After(dep, Init(start), before); |Admitted(After(dep, s, window), c) - Admitted(s, c)| <= 40
  {
    CallerIsBounded(dep, start, before, window, c);
    ShippedBound(dep.limits, start, Metered(window));
  }

  lemma ShippedBound(cfg: L.Config, start: real, m: seq<L.Event>)
    requires cfg.global == SHIPPED && |m| > 0 && L.LastTime(start, m) - m[0].at <= 60.0
    ensures RateBound(cfg, start, m) <= 40.0
  {
    assert SHIPPED.Rate() == 0.5;
  }

  // ---------------------------------------------------------------- unauthenticated requests

  /** A run without its unauthenticated requests. */
  function Authenticated(run: seq<Event>): seq<Event> {
    if |run| == 0 then []
    else (if run[0].Arrive? && run[0].r.caller == "" then [] else [run[0]]) + Authenticated(run[1..])
  }

  /** The audit lines of authenticated callers. */
  function Known(log: seq<Line>): seq<Line> {
    if |log| == 0 then [] else Known(Front(log)) + if Last(log).entry.caller == "" then [] else [Last(log)]
  }

  /** States that differ in unauthenticated requests only, of which all are over in the first
      and none is in the second. */
  ghost predicate SameForCallers(s: State, s': State) {
    && s.limiter == s'.limiter && s.cache == s'.cache && s.flight == s'.flight && Known(s.log) == Known(s'.log)
    && (forall id :: id in s'.slots ==> id in s.slots && s'.slots[id] == s.slots[id] && s.slots[id].r.caller != "")
    && (forall id :: id in s.slots && id !in s'.slots ==>
          s.slots[id].r.caller == "" && s.slots[id].phase == Done)
  }

  lemma KnownAppend(log: seq<Line>, l: Line)
    ensures Known(log + [l]) == Known(log) + if l.entry.caller == "" then [] else [l]
  {
    assert Front(log + [l]) == log;
  }

  lemma EndedForCallers(s: State, s': State, id: nat, slot: Slot, o: Outcome)
    requires SameForCallers(s, s') && slot.r.caller != "" && (id in s.slots <==> id in s'.slots)
    ensures SameForCallers(Ended(s, id, slot, o), Ended(s', id, slot, o))
  {
    KnownAppend(s.log, Line(id, Record(slot.r, o)));
    KnownAppend(s'.log, Line(id, Record(slot.r, o)));
  }

  lemma UnknownForCallers(dep: Deployment, s: State, s': State, id: nat, r: Request)
    requires SameForCallers(s, s') && r.caller == "" && id !in s.slots
    ensures SameForCallers(Arrived(dep, s, id, r), s')
  {
    KnownAppend(s.log, Line(id, Record(r, NoClientCert)));
  }

  lemma ArriveForCallers(dep: Deployment, s: State, s': State, id: nat, r: Request)
    requires SameForCallers(s, s') && r.caller != "" && id !in s.slots
    ensures SameForCallers(Arrived(dep, s, id, r), Arrived(dep, s', id, r))
  {
    var (lim, d) := L.Allow(dep.limits, s.limiter, r.caller, ToolName(r.path), r.at);
    if d != L.Allowed {
      EndedForCallers(s.(limiter := lim), s'.(limiter := lim), id, Slot(r, false, None, None, Passed), RateLimited(d));
    }
  }

  /** Any other event does the same from both of two such states. */
  lemma StepForCallers(dep: Deployment, s: State, s': State, e: Event)
    requires SameForCallers(s, s') && !e.Arrive?
    ensures SameForCallers(Step(dep, s, e), Step(dep, s', e))
  {
    assert Due(s, e) <==> Due(s', e);
    if Due(s, e) {
      match e
      case Open(id, at) =>
        var to := Route(dep, s.cache, s.slots[id].r, at);
        if to.Stop? {
          EndedForCallers(s, s', id, s.slots[id], to.o);
        }
      case Finish(id, why) =>
        EndedForCallers(s, s', id, s.slots[id], DoOutcome(s.flight.callers[s.slots[id].caller.value], why));
      case _ =>
    }
  }

  lemma {:induction false} RunForCallers(dep: Deployment, s: State, s': State, run: seq<Event>)
    requires SameForCallers(s, s') && Fresh(s.slots.Keys, run)
    ensures SameForCallers(After(dep, s, run), After(dep, s', Authenticated(run)))
    decreases |run|
  {
    if |run| > 0 {
      var e, rest := run[0], run[1..];
      StepKeys(dep, s, e);
      assert e.Arrive? || Step(dep, s, e).slots.Keys == s.slots.Keys;
      if e.Arrive? && e.r.caller == "" {
        UnknownForCallers(dep, s, s', e.id, e.r);
        RunForCallers(dep, Step(dep, s, e), s', rest);
        assert Authenticated(run) == Authenticated(rest);
      } else {
        if e.Arrive? {
          ArriveForCallers(dep, s, s', e.id, e.r);
        } else {
          StepForCallers(dep, s, s', e);
        }
        RunForCallers(dep, Step(dep, s, e), Step(dep, s', e), rest);
        assert Authenticated(run)[1..] == Authenticated(rest);
      }
    }
  }

  /** Without the unauthenticated requests, a run leaves the same limiter, the same cache, the
      same tool runs and the same records of everybody else. */
  lemma UnauthenticatedAreInert(dep: Deployment, start: real, run: seq<Event>)
    requires Fresh({}, run)
    ensures var t, t' := After(dep, Init(start), run), After(dep, Init(start), Authenticated(run));
            t.limiter == t'.limiter && t.cache == t'.cache && t.flight == t'.flight && Known(t.log) == Known(t'.log)
  {
    assert Init(start).slots.Keys == {};
    RunForCallers(dep, Init(start), Init(start), run);
  }

  // ---------------------------------------------------------------- which requests run, and how others end

  /** Tool names fit the audit log, as all registered ones do. */
  predicate ShortNames(dep: Deployment) {
    forall t :: t in dep.registry ==> |t| <= MAX_AUDIT_TOOL_NAME
  }

  /** A request that may run a tool: a POST with a JSON body to /v1/ and the name of a tool that is
      registered and, if the operator named the enabled ones, among those. */
  predicate Runnable(dep: Deployment, r: Request) {
    && "/v1/" <= r.path
    && var tool := r.path[4..];
       && tool != "" && '/' !in tool && r.isPost && r.body.Json?
       && tool in dep.registry && (dep.enabled == {} || tool in dep.enabled)
  }

  lemma ReachesIffRunnable(dep: Deployment, r: Request)
    requires ShortNames(dep)
    ensures Reaches(dep, r) <==> Runnable(dep, r)
  {
  }

  /** Whatever missed the cache or was given an entry reaches it. */
  ghost predicate AllReach(dep: Deployment, s: State) {
    && (forall id :: id in s.slots && s.slots[id].key.Some? ==> Reaches(dep, s.slots[id].r))
    && (forall j :: 0 <= j < |s.log| ==> LineReaches(dep, s, s.log[j]))
  }

  ghost predicate LineReaches(dep: Deployment, s: State, l: Line) {
    EntryOf(l.entry.outcome).Some? ==> l.who in s.slots && Reaches(dep, s.slots[l.who].r)
  }

  /** Requests stay what they are, and nothing new is to be shown. */
  lemma ReachKept(dep: Deployment, s: State, t: State)
    requires AllReach(dep, s) && t.log == s.log
    requires forall id :: id in s.slots ==> id in t.slots && t.slots[id].r == s.slots[id].r
    requires forall id :: id in t.slots && t.slots[id].key.Some? ==> Reaches(dep, t.slots[id].r)
    ensures AllReach(dep, t)
  {
    forall j | 0 <= j < |t.log| ensures LineReaches(dep, t, t.log[j]) {
      assert LineReaches(dep, s, s.log[j]);
    }
  }

  lemma EndedReach(dep: Deployment, s: State, id: nat, slot: Slot, o: Outcome)
    requires AllReach(dep, s) && (id in s.slots ==> s.slots[id].r == slot.r)
    requires EntryOf(o).Some? || slot.key.Some? ==> Reaches(dep, slot.r)
    ensures AllReach(dep, Ended(s, id, slot, o))
  {
    var t := Ended(s, id, slot, o);
    forall j | 0 <= j < |t.log| ensures LineReaches(dep, t, t.log[j]) {
      if j < |s.log| {
        assert LineReaches(dep, s, s.log[j]);
      }
    }
  }

  lemma ArriveReach(dep: Deployment, s: State, id: nat, r: Request)
    requires AllReach(dep, s) && id !in s.slots
    ensures AllReach(dep, Arrived(dep, s, id, r))
  {
    var slot := Slot(r, false, None, None, Passed);
    if r.caller == "" {
      EndedReach(dep, s, id, slot, NoClientCert);
    } else {
      var (lim, d) := L.Allow(dep.limits, s.limiter, r.caller, ToolName(r.path), r.at);
      if d != L.Allowed {
        EndedReach(dep, s.(limiter := lim), id, slot, RateLimited(d));
      } else {
        ReachKept(dep, s, Arrived(dep, s, id, r));
      }
    }
  }

  lemma StepReach(dep: Deployment, s: State, e: Event)
    requires AllReach(dep, s) && Booked(s)
    ensures AllReach(dep, Step(dep, s, e))
  {
    if Due(s, e) {
      var t := Step(dep, s, e);
      match e
      case Arrive(id, r) => ArriveReach(dep, s, id, r);
      case Open(id, at) =>
        var slot := s.slots[id];
        var to := Route(dep, s.cache, slot.r, at);
        assert Sane(slot);
        RouteLaw(dep, s.cache, slot.r, at);
        if to.Stop? {
          EndedReach(dep, s, id, slot, to.o);
        } else {
          ReachKept(dep, s, t);
        }
      case Finish(id, why) =>
        assert Sane(s.slots[id]);
        EndedReach(dep, s, id, s.slots[id], DoOutcome(s.flight.callers[s.slots[id].caller.value], why));
      case _ => ReachKept(dep, s, t);
    }
  }

  lemma {:induction false} RunReach(dep: Deployment, s: State, run: seq<Event>)
    requires AllReach(dep, s) && Booked(s) && Balanced(s)
    ensures AllReach(dep, After(dep, s, run))
    decreases |run|
  {
    if |run| > 0 {
      StepReach(dep, s, run[0]);
      StepKeepsBooks(dep, s, run[0]);
      RunReach(dep, Step(dep, s, run[0]), run[1..]);
    }
  }

  /** In every run, only runnable requests go on to `Cache.Do`, start tool runs or are given an entry. */
  lemma OnlyRunnable(dep: Deployment, start: real, run: seq<Event>)
    requires ShortNames(dep)
    ensures var s := After(dep, Init(start), run);
            && (forall id :: id in s.slots && s.slots[id].key.Some? ==> Runnable(dep, s.slots[id].r))
            && (forall c :: 0 <= c < |s.flight.calls| ==>
                  Leaders(s)[c] in s.slots && Runnable(dep, s.slots[Leaders(s)[c]].r))
            && (forall j :: 0 <= j < |s.log| && (s.log[j].entry.outcome.CacheHit? || s.log[j].entry.outcome.Answered?) ==>
                  s.log[j].who in s.slots && Runnable(dep, s.slots[s.log[j].who].r))
  {
    var s := After(dep, Init(start), run);
    assert UnderWay(Init(start)) == {};
    RunReach(dep, Init(start), run);
    LeadersAsked(dep, start, run);
    forall id | id in s.slots ensures Reaches(dep, s.slots[id].r) <==> Runnable(dep, s.slots[id].r) {
      ReachesIffRunnable(dep, s.slots[id].r);
    }
    forall j | 0 <= j < |s.log| && (s.log[j].entry.outcome.CacheHit? || s.log[j].entry.outcome.Answered?)
      ensures s.log[j].who in s.slots && Runnable(dep, s.slots[s.log[j].who].r)
    {
      assert LineReaches(dep, s, s.log[j]);
    }
  }

  /** The step ends a request with this outcome and this status. */
  ghost predicate EndsWith(s: State, t: State, id: nat, o: Outcome, status: int) {
    && |t.log| == |s.log| + 1 && s.log <= t.log && Last(t.log).who == id && Last(t.log).entry.outcome == o
    && id in t.slots && t.slots[id].phase == Done && StatusOf(s, t) == Some(status)
  }

  /** The name a path is metered, audited and looked up under. */
  function CutName(path: string): string {
    var tail := if "/v1/" <= path then path[4..] else path;
    if |tail| <= 128 then tail else tail[..128] + ['\U{E2}', '\U{80}', '\U{A6}']
  }

  /** How a request ends that does not run, test by test: by the first test it fails. */
  lemma StoppedByTheFirstTest(dep: Deployment, s: State, id: nat, at: int)
    requires id in s.slots && s.slots[id].phase == Passed
    ensures var r, t := s.slots[id].r, Step(dep, s, Open(id, at));
            var tool := CutName(r.path);
            var routed := "/v1/" <= r.path && tool != "" && '/' !in tool;
            var posted := routed && r.isPost;
            var known := posted && tool in dep.registry;
            var able := known && (dep.enabled == {} || tool in dep.enabled);
            && (!routed ==> EndsWith(s, t, id, BadPath, 404))
            && (routed && !r.isPost ==> EndsWith(s, t, id, BadMethod, 405))
            && (posted && tool !in dep.registry ==> EndsWith(s, t, id, UnknownTool, 404))
            && (known && dep.enabled != {} && tool !in dep.enabled ==> EndsWith(s, t, id, ToolDisabled, 404))
            && (able && r.body.ReadFailed? ==> EndsWith(s, t, id, BodyUnreadable, 400))
            && (able && r.body.TooLarge? ==> EndsWith(s, t, id, BodyTooLarge, 413))
            && (able && r.body.NotJson? ==> EndsWith(s, t, id, InvalidJson, 400))
            && (able && r.body.Json? ==>
                  (t.slots[id].phase == Missed && t.log == s.log) ||
                  exists e :: EndsWith(s, t, id, CacheHit(e), 200))
  {
    var r := s.slots[id].r;
    NameIsCut(r.path);
    var to := Route(dep, s.cache, r, at);
    if to.Stop? && to.o.CacheHit? {
      assert EndsWith(s, Step(dep, s, Open(id, at)), id, CacheHit(to.o.entry), 200);
    }
  }

  lemma NameIsCut(path: string)
    ensures ToolName(path) == CutName(path)
  {
    assert Ellipsis() == ['\U{E2}', '\U{80}', '\U{A6}'];
  }

  /** How a request arrives: without a certificate it ends there; else under its caller's name and
      its own the limiter is asked, and what that denies ends there too, with the limiter's reason. */
  lemma ArrivesAs(dep: Deployment, s: State, id: nat, r: Request)
    requires id !in s.slots
    ensures var t := Step(dep, s, Arrive(id, r));
            && (r.caller == "" ==> EndsWith(s, t, id, NoClientCert, 401) && t.limiter == s.limiter)
            && (r.caller != "" ==>
                  var (lim, o) := L.Step(dep.limits, s.limiter, L.Call(r.caller, CutName(r.path), r.at), true);
                  && t.limiter == lim
                  && (o == L.Verdict(L.Allowed) ==> t.log == s.log && id in t.slots && t.slots[id].phase == Passed)
                  && (o == L.Verdict(L.DeniedGlobal) ==> EndsWith(s, t, id, RateLimited(L.DeniedGlobal), 429))
                  && (o == L.Verdict(L.DeniedTool) ==> EndsWith(s, t, id, RateLimited(L.DeniedTool), 429)))
  {
    NameIsCut(r.path);
  }

  /** How a request ends with what `Cache.Do` gave it. */
  lemma FinishesAs(dep: Deployment, s: State, id: nat, why: WorkError)
    requires Due(s, Finish(id, why))
    ensures var c, t := s.flight.callers[s.slots[id].caller.value], Step(dep, s, Finish(id, why));
            && (c.Refused? ==> EndsWith(s, t, id, ToolStalled, 503))
            && (c.TimedOut? ==> EndsWith(s, t, id, TimedOut, 504))
            && (c.Cancelled? ==> EndsWith(s, t, id, Failed, 502))
            && (c.Received? && c.r.Produced? ==> EndsWith(s, t, id, Answered(c.r.entry), 200))
            && (c.Received? && c.r.Failed? && why.ToolError? ==>
                  EndsWith(s, t, id, ToolFailed(why.code), if why.code == "bad_argument" then 400 else 502))
            && (c.Received? && c.r.Failed? && why.DeadlineExceeded? ==> EndsWith(s, t, id, TimedOut, 504))
            && (c.Received? && c.r.Failed? && why.OtherError? ==> EndsWith(s, t, id, Failed, 502))
  {
  }

  // ---------------------------------------------------------------- what cache hits are

  /** What an event does to the cache, as operations on it. */
  function CacheOps(s: State, e: Event): seq<C.Op> {
    match e
    case Produce(call, entry, at) => if Due(s, e) then [C.StoreOp(s.flight.calls[call].key, entry, at)] else []
    case CacheSweep(at) => [C.SweepOp(at)]
    case _ => []
  }

  function AllCacheOps(dep: Deployment, s: State, run: seq<Event>): seq<C.Op>
    decreases |run|
  {
    if |run| == 0 then [] else CacheOps(s, run[0]) + AllCacheOps(dep, Step(dep, s, run[0]), run[1..])
  }

  lemma StepCache(dep: Deployment, s: State, e: Event)
    ensures Step(dep, s, e).cache == C.RunFrom(s.cache, CacheOps(s, e))
  {
    var ops := CacheOps(s, e);
    if ops != [] {
      assert ops[1..] == [];
    }
  }

  /** The cache of a run is what the cache's own operations make of it. */
  lemma {:induction false} RunCache(dep: Deployment, s: State, run: seq<Event>)
    ensures After(dep, s, run).cache == C.RunFrom(s.cache, AllCacheOps(dep, s, run))
    decreases |run|
  {
    if |run| > 0 {
      var s', ops := Step(dep, s, run[0]), CacheOps(s, run[0]);
      StepCache(dep, s, run[0]);
      RunCache(dep, s', run[1..]);
      C.RunFromJoin(s.cache, ops, AllCacheOps(dep, s', run[1..]));
    }
  }

  /** After any run, a request that is opened and reaches the cache is answered from it if and
      only if the latest entry stored under its tool and arguments is unexpired and was not
      refused for want of room, and then it ends with that very entry. */
  lemma HitsAreTheLatest(dep: Deployment, start: real, before: seq<Event>, id: nat, at: int)
    requires var s := After(dep, Init(start), before);
             && id in s.slots && s.slots[id].phase == Passed && Reaches(dep, s.slots[id].r)
             && C.Ordered(AllCacheOps(dep, Init(start), before), at)
    ensures var s := After(dep, Init(start), before);
            var ops, slot := AllCacheOps(dep, Init(start), before), s.slots[id];
            var k := KeyOf(slot.r);
            var live := k in C.Latest(ops) && !C.Expired(C.Latest(ops)[k], at) && !C.LastStoreRefused(ops, k);
            var t := Step(dep, s, Open(id, at));
            if live then t == Ended(s, id, slot, CacheHit(C.Latest(ops)[k]))
            else t.log == s.log && t.slots == s.slots[id := slot.(key := Some(k), phase := Missed)]
  {
    var s := After(dep, Init(start), before);
    var ops := AllCacheOps(dep, Init(start), before);
    RunCache(dep, Init(start), before);
    C.RunIsRunFrom(ops);
    C.LookupIsExact(ops, KeyOf(s.slots[id].r), at);
  }
}
