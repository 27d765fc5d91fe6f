/** The plugin's MCP server: a line-by-line JSON-RPC loop whose tool calls go to daemons only
    behind a schema-version gate.

    A line is what it decodes to. `world` says what the n-th call to any daemon is answered;
    it stands for the network and the daemons behind it. */
module Mcp {
  import opened Common
  import opened Decimals

  datatype Id = NoId | NullId | Id(text: string)

  datatype Params = BadParams | Params(name: string, host: string, args: map<string, string>)

  /** One input line; an absent or non-string host argument is the empty string. */
  datatype Line = EmptyLine | Unparseable | Req(id: Id, verb: string, params: Params)

  datatype Tool = Tool(name: string, rpc: string)

  /** `resolve` maps the hosts that resolve to their host:port form. */
  datatype Config = Config(tools: seq<Tool>, defaultHost: string, resolve: map<string, string>)

  /** A daemon's answer; of a body only its schema_version is looked at. */
  datatype Reply = TransportError | ErrorReply | Body(version: Option<string>)

  datatype DaemonCall = DaemonCall(host: string, rpc: string, body: map<string, string>, reply: Reply)

  datatype Reason = MissingVersion | UnparseableVersion | MajorMismatch

  datatype Verdict = Compatible | Incompatible(why: Reason)

  datatype Payload =
    | Initialized | Pong | ToolList | MethodNotFound | ParseError
    | InvalidParams | UnknownTool
    | HostRequired | HostUnresolved | SchemaIncompatible(why: Reason) | ProbeFailed
    | CallFailed | CallRefused | CallResult

  datatype Response = Response(id: Id, payload: Payload)

  /** The compatibility cache, and every daemon call made so far. */
  datatype State = State(compat: map<string, Verdict>, calls: seq<DaemonCall>)

  const SCHEMA_VERSION := "1.2.0"
  const MANIFEST := "manifest"

  // ---------------------------------------------------------------- versions

  /** The integer before the first dot of a version. */
  function ParseMajor(version: string): Option<int> {
    var dot := IndexOf(version, '.');
    if dot == 0 || dot == |version| then None else Atoi(version[..dot])
  }

  function Classify(version: Option<string>): Verdict {
    if version.None? || version.value == "" then Incompatible(MissingVersion)
    else
      var major := ParseMajor(version.value);
      if major.None? then Incompatible(UnparseableVersion)
      else if major != ParseMajor(SCHEMA_VERSION) then Incompatible(MajorMismatch)
      else Compatible
  }

  /** Every major number that fits is read back from any version that starts with it. */
  lemma MajorRoundTrip(n: nat, rest: string)
    requires n < INT_LIMIT
    ensures ParseMajor(Decimal(n) + "." + rest) == Some(n)
  {
    var d := Decimal(n);
    var v := d + "." + rest;
    DecimalDigits(n);
    var dot := IndexOf(v, '.');
    assert v[|d|] == '.' && v[..|d|] == d;
    assert forall i :: 0 <= i < |d| ==> v[i] == d[i] && IsDigit(d[i]);
    assert dot == |d|;
    AtoiDecimal(n);
  }

  /** The gate opens for exactly the versions whose major is the plugin's. */
  lemma GateOpensForOwnMajor(version: Option<string>)
    ensures Classify(version) == Compatible <==> version.Some? && ParseMajor(version.value) == Some(1)
  {
    assert SCHEMA_VERSION == Decimal(1) + "." + "2.0";
    MajorRoundTrip(1, "2.0");
  }

  // ---------------------------------------------------------------- one call

  function FindTool(tools: seq<Tool>, name: string): Option<Tool> {
    if |tools| == 0 then None
    else if tools[0].name == name then Some(tools[0])
    else FindTool(tools[1..], name)
  }

  function Ask(s: State, world: nat -> Reply, host: string, rpc: string, body: map<string, string>): (State, Reply) {
    var reply := world(|s.calls|);
    (s.(calls := s.calls + [DaemonCall(host, rpc, body, reply)]), reply)
  }

  function Record(s: State, host: string, version: Option<string>): State {
    s.(compat := s.compat[host := Classify(version)])
  }

  /** The gate in front of a tool other than the manifest: the probe, if it is needed, and
      the reason to stop, if there is one. */
  function Gate(s: State, world: nat -> Reply, host: string): (State, Option<Payload>) {
    if host in s.compat then
      (s, if s.compat[host].Incompatible? then Some(SchemaIncompatible(s.compat[host].why)) else None)
    else
      var (s', reply) := Ask(s, world, host, MANIFEST, map[]);
      if !reply.Body? then (s', Some(ProbeFailed))
      else
        var v := Classify(reply.version);
        (Record(s', host, reply.version), if v.Incompatible? then Some(SchemaIncompatible(v.why)) else None)
  }

  /** The request to the daemon, with the routing argument stripped from its body. */
  function Forward(s: State, world: nat -> Reply, host: string, rpc: string, args: map<string, string>): (State, Payload) {
    var (s', reply) := Ask(s, world, host, rpc, args - {"host"});
    match reply
    case TransportError => (s', CallFailed)
    case ErrorReply => (s', CallRefused)
    case Body(version) =>
      (if rpc == MANIFEST && host !in s'.compat then Record(s', host, version) else s', CallResult)
  }

  /** The host a call is for, after the default. */
  function Target(cfg: Config, p: Params): string
    requires p.Params?
  {
    if p.host == "" then cfg.defaultHost else p.host
  }

  function Call(cfg: Config, s: State, world: nat -> Reply, p: Params): (State, Payload) {
    if p.BadParams? then (s, InvalidParams)
    else
      var tool := FindTool(cfg.tools, p.name);
      var host := Target(cfg, p);
      if tool.None? then (s, UnknownTool)
      else if host == "" then (s, HostRequired)
      else if host !in cfg.resolve then (s, HostUnresolved)
      else
        var resolved, rpc := cfg.resolve[host], tool.value.rpc;
        if rpc == MANIFEST then Forward(s, world, resolved, rpc, p.args)
        else
          var (s', stop) := Gate(s, world, resolved);
          if stop.Some? then (s', stop.value) else Forward(s', world, resolved, rpc, p.args)
  }

  /** `dispatch`: None for the one method that has no response by design. */
  function Dispatch(cfg: Config, s: State, world: nat -> Reply, verb: string, p: Params): (State, Option<Payload>) {
    match verb
    case "initialize" => (s, Some(Initialized))
    case "notifications/initialized" => (s, None)
    case "ping" => (s, Some(Pong))
    case "tools/list" => (s, Some(ToolList))
    case "tools/call" =>
      var (s', payload) := Call(cfg, s, world, p);
      (s', Some(payload))
    case _ => (s, Some(MethodNotFound))
  }

  /** One line: the new state and the lines written, of which there is at most one. */
  function Step(cfg: Config, s: State, world: nat -> Reply, l: Line): (State, seq<Response>) {
    match l
    case EmptyLine => (s, [])
    case Unparseable => (s, [Response(NoId, ParseError)])
    case Req(id, verb, params) =>
      var (s', payload) := Dispatch(cfg, s, world, verb, params);
      (s', if id == NoId || id == NullId || payload.None? then [] else [Response(id, payload.value)])
  }

  function After(cfg: Config, world: nat -> Reply, lines: seq<Line>): State {
    if |lines| == 0 then State(map[], [])
    else Step(cfg, After(cfg, world, lines[..|lines| - 1]), world, lines[|lines| - 1]).0
  }

  function Written(cfg: Config, world: nat -> Reply, lines: seq<Line>): seq<Response> {
    if |lines| == 0 then []
    else
      var front := lines[..|lines| - 1];
      Written(cfg, world, front) + Step(cfg, After(cfg, world, front), world, lines[|lines| - 1]).1
  }

  // ---------------------------------------------------------------- the server object

  class Server {
    const cfg: Config
    const world: nat -> Reply
    var compat: map<string, Verdict>
    var calls: seq<DaemonCall>

    function View(): State
      reads this
    {
      State(compat, calls)
    }

    constructor (cfg: Config, world: nat -> Reply)
      ensures this.cfg == cfg && this.world == world && View() == State(map[], [])
    {
      this.cfg := cfg;
      this.world := world;
      compat, calls := map[], [];
    }

    method AskDaemon(host: string, rpc: string, body: map<string, string>) returns (reply: Reply)
      modifies this`calls
      ensures (View(), reply) == Ask(old(View()), world, host, rpc, body)
    {
      reply := world(|calls|);
      calls := calls + [DaemonCall(host, rpc, body, reply)];
    }

    method PassGate(host: string) returns (stop: Option<Payload>)
      modifies this
      ensures (View(), stop) == Gate(old(View()), world, host)
    {
      if host in compat && compat[host].Incompatible? {
        return Some(SchemaIncompatible(compat[host].why));
      }
      if host !in compat {
        var reply := AskDaemon(host, MANIFEST, map[]);
        if !reply.Body? {
          return Some(ProbeFailed);
        }
        compat := compat[host := Classify(reply.version)];
        if compat[host].Incompatible? {
          return Some(SchemaIncompatible(compat[host].why));
        }
      }
      return None;
    }

    method CallTool(p: Params) returns (payload: Payload)
      modifies this
      ensures (View(), payload) == Call(cfg, old(View()), world, p)
    {
      if p.BadParams? {
        return InvalidParams;
      }
      var tool := FindTool(cfg.tools, p.name);
      if tool.None? {
        return UnknownTool;
      }
      var host := if p.host == "" then cfg.defaultHost else p.host;
      if host == "" {
        return HostRequired;
      }
      if host !in cfg.resolve {
        return HostUnresolved;
      }
      var resolved, rpc := cfg.resolve[host], tool.value.rpc;
      if rpc != MANIFEST {
        var stop := PassGate(resolved);
        if stop.Some? {
          return stop.value;
        }
      }
      var reply := AskDaemon(resolved, rpc, p.args - {"host"});
      if reply.TransportError? {
        return CallFailed;
      }
      if reply.ErrorReply? {
        return CallRefused;
      }
      if rpc == MANIFEST && resolved !in compat {
        compat := compat[resolved := Classify(reply.version)];
      }
      return CallResult;
    }

    method HandleLine(l: Line) returns (out: seq<Response>)
      modifies this
      ensures (View(), out) == Step(cfg, old(View()), world, l)
    {
      match l {
        case EmptyLine => out := [];
        case Unparseable => out := [Response(NoId, ParseError)];
        case Req(id, verb, params) =>
          var payload;
          match verb {
            case "initialize" => payload := Some(Initialized);
            case "notifications/initialized" => payload := None;
            case "ping" => payload := Some(Pong);
            case "tools/list" => payload := Some(ToolList);
            case "tools/call" =>
              var p := CallTool(params);
              payload := Some(p);
            case _ => payload := Some(MethodNotFound);
          }
          out := if id == NoId || id == NullId || payload.None? then [] else [Response(id, payload.value)];
      }
    }

    /** The read-dispatch loop, from a fresh server. */
    method Serve(lines: seq<Line>) returns (out: seq<Response>)
      requires View() == State(map[], [])
      modifies this
      ensures View() == After(cfg, world, lines) && out == Written(cfg, world, lines)
    {
      out := [];
      for i := 0 to |lines|
        invariant View() == After(cfg, world, lines[..i]) && out == Written(cfg, world, lines[..i])
      {
        assert lines[..i + 1][..i] == lines[..i];
        var more := HandleLine(lines[i]);
        out := out + more;
      }
      assert lines[..|lines|] == lines;
    }
  }

  // ---------------------------------------------------------------- sessions

  /** A manifest reply from `host` that carried the plugin's own major. */
  predicate Vouches(c: DaemonCall, host: string) {
    c.host == host && c.rpc == MANIFEST && c.reply.Body? && Classify(c.reply.version) == Compatible
  }

  /** Some call before position `n` vouches for the host. */
  ghost predicate VouchedBefore(calls: seq<DaemonCall>, n: nat, host: string) {
    exists j :: 0 <= j < n && j < |calls| && Vouches(calls[j], host)
  }

  /** Every call but a manifest is vouched for, and so is every host recorded as compatible. */
  ghost predicate Gated(s: State) {
    && (forall i :: 0 <= i < |s.calls| && s.calls[i].rpc != MANIFEST ==> VouchedBefore(s.calls, i, s.calls[i].host))
    && (forall h :: h in s.compat && s.compat[h] == Compatible ==> VouchedBefore(s.calls, |s.calls|, h))
  }

  /** Nothing recorded is ever changed: verdicts are write-once and the call record grows. */
  ghost predicate Extends(s: State, t: State) {
    && s.calls <= t.calls
    && forall h :: h in s.compat ==> h in t.compat && t.compat[h] == s.compat[h]
  }

  /** No call but manifests to `host` from position `n` on. */
  ghost predicate OnlyManifests(calls: seq<DaemonCall>, n: nat, host: string) {
    forall i :: n <= i < |calls| && calls[i].host == host ==> calls[i].rpc == MANIFEST
  }

  /** What lies between two moments of a session: nothing was rewritten, and a host that was
      already held incompatible has been sent nothing but manifests. */
  ghost predicate Final(s: State, t: State) {
    && Extends(s, t)
    && forall h :: h in s.compat && s.compat[h].Incompatible? ==> OnlyManifests(t.calls, |s.calls|, h)
  }

  lemma FinalTransitive(s: State, u: State, t: State)
    requires Final(s, u) && Final(u, t)
    ensures Final(s, t)
  {
    assert forall i :: 0 <= i < |u.calls| ==> t.calls[i] == u.calls[i];
    forall h | h in s.compat && s.compat[h].Incompatible? ensures OnlyManifests(t.calls, |s.calls|, h) {
      assert OnlyManifests(u.calls, |s.calls|, h) && OnlyManifests(t.calls, |u.calls|, h);
    }
  }

  lemma VouchedLater(calls: seq<DaemonCall>, more: seq<DaemonCall>, n: nat, host: string)
    requires VouchedBefore(calls, n, host)
    ensures VouchedBefore(calls + more, n, host)
  {
    var j :| 0 <= j < n && j < |calls| && Vouches(calls[j], host);
    assert (calls + more)[j] == calls[j];
  }

  /** A call that may be made keeps the session gated. */
  lemma AskKeeps(s: State, world: nat -> Reply, host: string, rpc: string, body: map<string, string>)
    requires Gated(s) && (rpc == MANIFEST || (host in s.compat && s.compat[host] == Compatible))
    ensures var t := Ask(s, world, host, rpc, body).0;
            && Gated(t) && Extends(s, t)
            && (rpc == MANIFEST && t.calls[|s.calls|].reply.Body? ==> Gated(Record(t, host, t.calls[|s.calls|].reply.version)))
  {
    var t := Ask(s, world, host, rpc, body).0;
    var last := [t.calls[|s.calls|]];
    assert t.calls == s.calls + last;
    forall i | 0 <= i < |t.calls| && t.calls[i].rpc != MANIFEST ensures VouchedBefore(t.calls, i, t.calls[i].host) {
      VouchedLater(s.calls, last, i, t.calls[i].host);
    }
    forall h | h in s.compat && s.compat[h] == Compatible ensures VouchedBefore(t.calls, |t.calls|, h) {
      var j :| 0 <= j < |s.calls| && Vouches(s.calls[j], h);
      assert t.calls[j] == s.calls[j];
    }
    if rpc == MANIFEST && last[0].reply.Body? && Classify(last[0].reply.version) == Compatible {
      assert Vouches(t.calls[|s.calls|], host);
    }
  }

  lemma GateKeeps(s: State, world: nat -> Reply, host: string)
    requires Gated(s)
    ensures var (t, stop) := Gate(s, world, host);
            && Gated(t) && Final(s, t)
            && (stop.None? ==> host in t.compat && t.compat[host] == Compatible)
  {
    if host !in s.compat {
      AskKeeps(s, world, host, MANIFEST, map[]);
    }
  }

  lemma ForwardKeeps(s: State, world: nat -> Reply, host: string, rpc: string, args: map<string, string>)
    requires Gated(s) && (rpc == MANIFEST || (host in s.compat && s.compat[host] == Compatible))
    ensures var t := Forward(s, world, host, rpc, args).0;
            && Gated(t) && Final(s, t)
            && |t.calls| == |s.calls| + 1 && t.calls[|s.calls|].host == host && t.calls[|s.calls|].rpc == rpc
            && "host" !in t.calls[|s.calls|].body
  {
    AskKeeps(s, world, host, rpc, args - {"host"});
    var (t, reply) := Ask(s, world, host, rpc, args - {"host"});
    if reply.Body? && rpc == MANIFEST && host !in t.compat {
      assert Final(s, Record(t, host, reply.version));
    } else {
      assert Final(s, t);
    }
  }

  /** What one line keeps, and that a host held incompatible hears of nothing but manifests. */
  lemma StepKeeps(cfg: Config, s: State, world: nat -> Reply, l: Line)
    requires Gated(s)
    ensures var t := Step(cfg, s, world, l).0;
            Gated(t) && Final(s, t)
  {
    if l.Req? && l.verb == "tools/call" && l.params.Params? {
      var p := l.params;
      var tool, host := FindTool(cfg.tools, p.name), Target(cfg, p);
      if tool.Some? && host != "" && host in cfg.resolve {
        CallKeeps(s, world, cfg.resolve[host], tool.value.rpc, p.args);
      }
    }
  }

  /** A call that has found its tool and its host. */
  lemma CallKeeps(s: State, world: nat -> Reply, host: string, rpc: string, args: map<string, string>)
    requires Gated(s)
    ensures var (g, stop) := if rpc == MANIFEST then (s, None) else Gate(s, world, host);
            var t := if stop.Some? then g else Forward(g, world, host, rpc, args).0;
            Gated(t) && Final(s, t)
  {
    if rpc != MANIFEST {
      GateKeeps(s, world, host);
    }
    var (g, stop) := if rpc == MANIFEST then (s, None) else Gate(s, world, host);
    if stop.None? {
      ForwardKeeps(g, world, host, rpc, args);
      FinalTransitive(s, g, Forward(g, world, host, rpc, args).0);
    }
  }

  /** In every session, a daemon is sent anything but a manifest only after a manifest reply of
      its own with the plugin's major version. */
  lemma {:induction false} EverySession(cfg: Config, world: nat -> Reply, lines: seq<Line>)
    ensures Gated(After(cfg, world, lines))
  {
    if |lines| > 0 {
      EverySession(cfg, world, lines[..|lines| - 1]);
      StepKeeps(cfg, After(cfg, world, lines[..|lines| - 1]), world, lines[|lines| - 1]);
    }
  }

  /** Verdicts are write-once over the whole session, and a host found incompatible at some
      point receives no call but manifests from then on. */
  lemma {:induction false} VerdictsAreFinal(cfg: Config, world: nat -> Reply, lines: seq<Line>, n: nat)
    requires n <= |lines|
    ensures Final(After(cfg, world, lines[..n]), After(cfg, world, lines))
    decreases |lines|
  {
    var m := |lines| - 1;
    if n == |lines| {
      assert lines[..n] == lines;
    } else {
      assert lines[..m][..n] == lines[..n];
      VerdictsAreFinal(cfg, world, lines[..m], n);
      EverySession(cfg, world, lines[..m]);
      var u := After(cfg, world, lines[..m]);
      StepKeeps(cfg, u, world, lines[m]);
      FinalTransitive(After(cfg, world, lines[..n]), u, Step(cfg, u, world, lines[m]).0);
    }
  }

  /** The lines that are owed a response, with the id it must carry. */
  function Owed(lines: seq<Line>): seq<Id> {
    if |lines| == 0 then []
    else
      var l := lines[|lines| - 1];
      Owed(lines[..|lines| - 1]) +
      match l
      case EmptyLine => []
      case Unparseable => [NoId]
      case Req(id, verb, _) => if id.Id? && verb != "notifications/initialized" then [id] else []
  }

  /** Exactly one response per line that is owed one, in order and with that line's id; none
      for notifications (section 4.1 of JSON-RPC 2.0). */
  lemma {:induction false} ResponseDiscipline(cfg: Config, world: nat -> Reply, lines: seq<Line>)
    ensures var out := Written(cfg, world, lines);
            |out| == |Owed(lines)| && forall i :: 0 <= i < |out| ==> out[i].id == Owed(lines)[i]
  {
    if |lines| > 0 {
      ResponseDiscipline(cfg, world, lines[..|lines| - 1]);
    }
  }

  // ---------------------------------------------------------------- what is sent where

  /** The first tool of a name. */
  predicate FirstNamed(tools: seq<Tool>, name: string, i: int) {
    0 <= i < |tools| && tools[i].name == name && forall j :: 0 <= j < i ==> tools[j].name != name
  }

  lemma {:induction false} FindsTheFirst(tools: seq<Tool>, name: string)
    ensures var found := FindTool(tools, name);
            && (found.None? ==> forall i :: 0 <= i < |tools| ==> tools[i].name != name)
            && (found.Some? ==> exists i :: FirstNamed(tools, name, i) && found.value == tools[i])
    decreases |tools|
  {
    if |tools| > 0 {
      FindsTheFirst(tools[1..], name);
      if tools[0].name == name {
        assert FirstNamed(tools, name, 0);
      } else if i :| FirstNamed(tools[1..], name, i) {
        NamedLater(tools, name, i);
      }
    }
  }

  lemma NamedLater(tools: seq<Tool>, name: string, i: int)
    requires |tools| > 0 && tools[0].name != name && FirstNamed(tools[1..], name, i)
    ensures FirstNamed(tools, name, i + 1) && tools[i + 1] == tools[1..][i]
  {
    forall j | 0 <= j < i + 1 ensures tools[j].name != name {
      assert j > 0 ==> tools[1..][j - 1] == tools[j];
    }
  }

  /** The host a call is for: its argument, or the default if it has none. */
  function HostOf(cfg: Config, p: Params): string
    requires p.Params?
  {
    if p.host != "" then p.host else cfg.defaultHost
  }

  /** A question for the manifest, made of nothing else. */
  predicate IsProbe(c: DaemonCall) {
    c.rpc == "manifest" && c.body == map[]
  }

  /** The call itself: the tool's own request, with the arguments but the host. */
  predicate IsForward(c: DaemonCall, rpc: string, args: map<string, string>) {
    c.rpc == rpc && c.body == map k | k in args && k != "host" :: args[k]
  }

  /** The daemon call was made for this tools/call: to its host's address, with the request of the
      first tool of its name, or as a probe ahead of that. */
  ghost predicate AskedFor(cfg: Config, p: Params, c: DaemonCall) {
    && p.Params? && HostOf(cfg, p) in cfg.resolve && c.host == cfg.resolve[HostOf(cfg, p)]
    && exists i :: FirstNamed(cfg.tools, p.name, i) &&
                   (IsForward(c, cfg.tools[i].rpc, p.args) || (cfg.tools[i].rpc != "manifest" && IsProbe(c)))
  }

  /** A tools/call that has its tool and its address. */
  ghost predicate Located(cfg: Config, p: Params, i: int) {
    p.Params? && FirstNamed(cfg.tools, p.name, i) && HostOf(cfg, p) in cfg.resolve && HostOf(cfg, p) != ""
  }

  lemma WithoutHost(args: map<string, string>)
    ensures args - {"host"} == map k | k in args && k != "host" :: args[k]
  {
  }

  /** One call to the host, with the arguments but the host; its reply is the answer, and a
      manifest's version is remembered for a host not heard of before. */
  ghost predicate Forwarded(s: State, world: nat -> Reply, host: string, rpc: string, args: map<string, string>,
                            t: State, payload: Payload)
  {
    var n := |s.calls|;
    && |t.calls| == n + 1 && t.calls == s.calls + [t.calls[n]]
    && t.calls[n].host == host && t.calls[n].reply == world(n) && IsForward(t.calls[n], rpc, args)
    && (payload == CallFailed <==> world(n).TransportError?) && (payload == CallRefused <==> world(n).ErrorReply?)
    && (payload == CallResult <==> world(n).Body?)
    && t.compat == if rpc == "manifest" && host !in s.compat && world(n).Body?
                   then s.compat[host := Classify(world(n).version)] else s.compat
  }

  lemma ForwardIsExact(s: State, world: nat -> Reply, host: string, rpc: string, args: map<string, string>)
    ensures var (t, payload) := Forward(s, world, host, rpc, args); Forwarded(s, world, host, rpc, args, t, payload)
  {
    WithoutHost(args);
  }

  /** A manifest call is forwarded, whatever is held of its host. */
  lemma ManifestIsForwarded(cfg: Config, s: State, world: nat -> Reply, p: Params, i: int)
    requires Located(cfg, p, i) && cfg.tools[i].rpc == "manifest"
    ensures var (t, payload) := Call(cfg, s, world, p);
            Forwarded(s, world, cfg.resolve[HostOf(cfg, p)], "manifest", p.args, t, payload)
  {
    LocatedTool(cfg, p, i);
    ForwardIsExact(s, world, cfg.resolve[HostOf(cfg, p)], "manifest", p.args);
  }

  /** A held verdict saves the probe: a compatible host is sent the call, another nothing. */
  lemma HeldVerdictDecides(cfg: Config, s: State, world: nat -> Reply, p: Params, i: int)
    requires Located(cfg, p, i) && cfg.tools[i].rpc != "manifest" && cfg.resolve[HostOf(cfg, p)] in s.compat
    ensures var (t, payload) := Call(cfg, s, world, p);
            var host := cfg.resolve[HostOf(cfg, p)];
            if s.compat[host] == Compatible then Forwarded(s, world, host, cfg.tools[i].rpc, p.args, t, payload)
            else t == s && payload == SchemaIncompatible(s.compat[host].why)
  {
    LocatedTool(cfg, p, i);
    ForwardIsExact(s, world, cfg.resolve[HostOf(cfg, p)], cfg.tools[i].rpc, p.args);
  }

  /** A host not heard of is probed: a failed probe stops the call and is not remembered; a version
      is, and stops the call unless it is compatible, when the call follows. */
  lemma UnheardHostIsProbed(cfg: Config, s: State, world: nat -> Reply, p: Params, i: int) returns (g: State)
    requires Located(cfg, p, i) && cfg.tools[i].rpc != "manifest" && cfg.resolve[HostOf(cfg, p)] !in s.compat
    ensures var (t, payload) := Call(cfg, s, world, p);
            var host, n := cfg.resolve[HostOf(cfg, p)], |s.calls|;
            var verdict := if world(n).Body? then Some(Classify(world(n).version)) else None;
            && |g.calls| == n + 1 && g.calls == s.calls + [g.calls[n]]
            && g.calls[n].host == host && IsProbe(g.calls[n]) && g.calls[n].reply == world(n)
            && g.compat == (if verdict.Some? then s.compat[host := verdict.value] else s.compat)
            && if verdict == Some(Compatible) then Forwarded(g, world, host, cfg.tools[i].rpc, p.args, t, payload)
               else t == g && payload == if verdict.None? then ProbeFailed else SchemaIncompatible(verdict.value.why)
  {
    var host := cfg.resolve[HostOf(cfg, p)];
    LocatedTool(cfg, p, i);
    g := Gate(s, world, host).0;
    ForwardIsExact(g, world, host, cfg.tools[i].rpc, p.args);
  }

  lemma ForwardIsAsked(cfg: Config, p: Params, i: int, c: DaemonCall)
    requires Located(cfg, p, i) && c.host == cfg.resolve[HostOf(cfg, p)]
    requires IsForward(c, cfg.tools[i].rpc, p.args) || (cfg.tools[i].rpc != "manifest" && IsProbe(c))
    ensures AskedFor(cfg, p, c)
  {
  }

  /** A located call sends what it is asked for, and no more than a probe and a forward. */
  lemma LocatedAsks(cfg: Config, s: State, world: nat -> Reply, p: Params, i: int)
    requires Located(cfg, p, i)
    ensures var t := Call(cfg, s, world, p).0;
            && s.calls <= t.calls && |t.calls| <= |s.calls| + 2
            && forall n :: |s.calls| <= n < |t.calls| ==> AskedFor(cfg, p, t.calls[n]) && t.calls[n].reply == world(n)
  {
    var host, rpc := cfg.resolve[HostOf(cfg, p)], cfg.tools[i].rpc;
    if rpc == "manifest" {
      ManifestIsForwarded(cfg, s, world, p, i);
    } else if host in s.compat {
      HeldVerdictDecides(cfg, s, world, p, i);
    } else {
      var g := UnheardHostIsProbed(cfg, s, world, p, i);
    }
    var t := Call(cfg, s, world, p).0;
    forall n | |s.calls| <= n < |t.calls| ensures AskedFor(cfg, p, t.calls[n]) {
      ForwardIsAsked(cfg, p, i, t.calls[n]);
    }
  }

  lemma LocatedTool(cfg: Config, p: Params, i: int)
    requires p.Params? && FirstNamed(cfg.tools, p.name, i)
    ensures FindTool(cfg.tools, p.name) == Some(cfg.tools[i])
  {
    FindsTheFirst(cfg.tools, p.name);
    if FindTool(cfg.tools, p.name).Some? {
      var j :| FirstNamed(cfg.tools, p.name, j) && FindTool(cfg.tools, p.name).value == cfg.tools[j];
      assert i == j;
    }
  }

  /** A result is the reply to the last daemon call, which forwarded this very request to its host
      and was answered with a body. */
  lemma ResultIsTheLastReply(cfg: Config, s: State, world: nat -> Reply, p: Params) returns (i: int)
    requires Call(cfg, s, world, p).1 == CallResult
    ensures Located(cfg, p, i)
    ensures var calls := Call(cfg, s, world, p).0.calls;
            && |calls| > |s.calls| && calls[|calls| - 1].host == cfg.resolve[HostOf(cfg, p)]
            && IsForward(calls[|calls| - 1], cfg.tools[i].rpc, p.args) && calls[|calls| - 1].reply.Body?
  {
    if j :| Located(cfg, p, j) {
      i := j;
      var host := cfg.resolve[HostOf(cfg, p)];
      if cfg.tools[i].rpc == "manifest" {
        ManifestIsForwarded(cfg, s, world, p, i);
      } else if host in s.compat {
        HeldVerdictDecides(cfg, s, world, p, i);
      } else {
        var g := UnheardHostIsProbed(cfg, s, world, p, i);
      }
    } else {
      UnlocatedIsRefused(cfg, s, world, p);
    }
  }

  /** A call that is not located is answered by what is missing, and nothing is sent. */
  lemma UnlocatedIsRefused(cfg: Config, s: State, world: nat -> Reply, p: Params)
    requires forall i :: !Located(cfg, p, i)
    ensures var (t, payload) := Call(cfg, s, world, p);
            && t == s
            && (payload == InvalidParams <==> p.BadParams?)
            && (p.Params? ==>
                  && (payload == UnknownTool <==> forall i :: 0 <= i < |cfg.tools| ==> cfg.tools[i].name != p.name)
                  && (payload != UnknownTool ==>
                        payload == if HostOf(cfg, p) == "" then HostRequired else HostUnresolved))
  {
    if p.Params? {
      FindsTheFirst(cfg.tools, p.name);
      if i :| FirstNamed(cfg.tools, p.name, i) {
        LocatedTool(cfg, p, i);
        assert !Located(cfg, p, i);
      }
    }
  }

  /** One line: what it sends is asked for by it. */
  lemma LineAsks(cfg: Config, s: State, world: nat -> Reply, l: Line)
    ensures var t := Step(cfg, s, world, l).0;
            && s.calls <= t.calls
            && forall n :: |s.calls| <= n < |t.calls| ==>
                 l.Req? && l.verb == "tools/call" && AskedFor(cfg, l.params, t.calls[n]) && t.calls[n].reply == world(n)
  {
    if l.Req? && l.verb == "tools/call" {
      if i :| Located(cfg, l.params, i) {
        LocatedAsks(cfg, s, world, l.params, i);
      } else {
        UnlocatedIsRefused(cfg, s, world, l.params);
      }
    }
  }

  /** In every session, each call to a daemon was asked for by a tools/call line: it goes to the
      address of that line's host argument, or of the default host if it has none, and carries the
      request of the tool it names, or is the probe ahead of it. */
  lemma {:induction false} EveryCallIsAsked(cfg: Config, world: nat -> Reply, lines: seq<Line>, n: nat) returns (i: nat)
    requires n < |After(cfg, world, lines).calls|
    ensures i < |lines| && lines[i].Req? && lines[i].verb == "tools/call"
    ensures AskedFor(cfg, lines[i].params, After(cfg, world, lines).calls[n]) && After(cfg, world, lines).calls[n].reply == world(n)
    decreases |lines|
  {
    var front := lines[..|lines| - 1];
    var s := After(cfg, world, front);
    LineAsks(cfg, s, world, lines[|lines| - 1]);
    if n < |s.calls| {
      i := EveryCallIsAsked(cfg, world, front, n);
    } else {
      i := |lines| - 1;
    }
  }

  /** What a request line with an id is answered, method by method. */
  lemma AnsweredByMethod(cfg: Config, s: State, world: nat -> Reply, id: Id, verb: string, p: Params)
    requires id.Id?
    ensures var out := Step(cfg, s, world, Req(id, verb, p)).1;
            && (verb == "initialize" ==> out == [Response(id, Initialized)])
            && (verb == "ping" ==> out == [Response(id, Pong)])
            && (verb == "tools/list" ==> out == [Response(id, ToolList)])
            && (verb == "tools/call" ==> out == [Response(id, Call(cfg, s, world, p).1)])
            && (verb == "notifications/initialized" ==> out == [])
            && (verb !in {"initialize", "ping", "tools/list", "tools/call", "notifications/initialized"} ==>
                  out == [Response(id, MethodNotFound)])
  {
  }

  /** What a request does does not depend on its id: a notification is carried out, without a word. */
  lemma IdsDoNotMatter(cfg: Config, s: State, world: nat -> Reply, id: Id, id': Id, verb: string, p: Params)
    ensures Step(cfg, s, world, Req(id, verb, p)).0 == Step(cfg, s, world, Req(id', verb, p)).0
    ensures verb == "tools/call" ==> Step(cfg, s, world, Req(id, verb, p)).0 == Call(cfg, s, world, p).0
    ensures verb != "tools/call" ==> Step(cfg, s, world, Req(id, verb, p)).0 == s
  {
  }

  /** Why a version is not accepted. */
  lemma ReasonsAreRight(version: Option<string>)
    ensures var v := Classify(version);
            && (v == Incompatible(MissingVersion) <==> version.None? || version.value == "")
            && (v == Incompatible(UnparseableVersion) <==>
                  version.Some? && version.value != "" && ParseMajor(version.value).None?)
            && (v == Incompatible(MajorMismatch) <==>
                  version.Some? && ParseMajor(version.value).Some? && ParseMajor(version.value) != Some(1))
  {
    GateOpensForOwnMajor(version);
  }

  /** A version without a dot, or with one in front, has no major. */
  lemma NoMajor(version: string)
    requires '.' !in version || version[0] == '.'
    ensures ParseMajor(version).None?
  {
  }
}
