/** Length-prefixed frames on the socket between daemon and helper, and the helper's
    request/response loop with its fallback for oversize replies.

    A frame body is the JSON text of a value as bytes. Which bodies decode to a request, and
    what a request is answered, are the environment's. */
module Frames {
  import opened Common

  type Body = seq<Byte>

  const MAX_REQUEST := 16 * 1024
  const MAX_RESPONSE := 4 * 1024 * 1024
  const UINT32 := 0x1_0000_0000

  // ---------------------------------------------------------------- one frame

  /** `binary.LittleEndian.PutUint32`. */
  function PutUint32(n: nat): Body
    requires n < UINT32
  {
    [n % 256, n / 256 % 256, n / 256 / 256 % 256, n / 256 / 256 / 256]
  }

  function GetUint32(p: Body): nat
    requires |p| == 4
  {
    var b0: int, b1: int, b2: int, b3: int := p[0], p[1], p[2], p[3];
    b0 + 256 * (b1 + 256 * (b2 + 256 * b3))
  }

  /** What a successful write emits; the length is converted to 32 bits. */
  function Frame(body: Body): Body {
    PutUint32(|body| % UINT32) + body
  }

  datatype Received = Got(body: Body) | TooLarge(declared: nat) | Ended

  /** One read from a stream, and what it leaves there. A frame cut short is consumed. */
  function Read(input: Body, cap: int): (Received, Body) {
    if |input| < 4 then (Ended, [])
    else
      var n := GetUint32(input[..4]);
      if n > cap then (TooLarge(n), input[4..])
      else if |input| - 4 < n then (Ended, [])
      else (Got(input[4..4 + n]), input[4 + n..])
  }

  /** The frames of a list of bodies, back to back. */
  function Encode(bodies: seq<Body>): Body {
    if |bodies| == 0 then [] else Frame(bodies[0]) + Encode(bodies[1..])
  }

  datatype Decoded = Decoded(bodies: seq<Body>, end: Received, rest: Body)

  /** Reading until the first read that yields no body: what came, why it ended, and what the
      stream held before that last read. */
  function Decode(input: Body, cap: int): Decoded
    decreases |input|
  {
    var (got, rest) := Read(input, cap);
    if got.Got? then
      var d := Decode(rest, cap);
      d.(bodies := [got.body] + d.bodies)
    else Decoded([], got, input)
  }

  // ---------------------------------------------------------------- the socket

  /** One side's view of a connection. */
  class Conn {
    var input: Body
    var output: Body

    constructor (input: Body)
      ensures this.input == input && output == []
    {
      this.input := input;
      output := [];
    }

    /** `WriteFrameWithCap`: over the cap, nothing at all is written. */
    method WriteFrame(body: Body, cap: int) returns (ok: bool)
      modifies this`output
      ensures ok <==> |body| <= cap
      ensures output == old(output) + if ok then Frame(body) else []
    {
      if |body| > cap {
        return false;
      }
      output := output + PutUint32(|body| % UINT32);
      output := output + body;
      return true;
    }

    /** `io.ReadFull`: exactly n bytes, or everything there is and a failure. */
    method ReadFull(n: nat) returns (data: Body, ok: bool)
      modifies this`input
      ensures ok <==> n <= |old(input)|
      ensures ok ==> data == old(input)[..n] && input == old(input)[n..]
      ensures !ok ==> input == []
    {
      if |input| < n {
        data := input;
        input := [];
        return data, false;
      }
      data := input[..n];
      input := input[n..];
      return data, true;
    }

    /** `ReadFrameWithCap`. */
    method ReadFrame(cap: int) returns (r: Received)
      modifies this`input
      ensures (r, input) == Read(old(input), cap)
    {
      var prefix, ok := ReadFull(4);
      if !ok {
        return Ended;
      }
      var n := GetUint32(prefix);
      if n > cap {
        return TooLarge(n);
      }
      var body, all := ReadFull(n);
      if !all {
        return Ended;
      }
      assert old(input)[4..][..n] == old(input)[4..4 + n] && old(input)[4..][n..] == old(input)[4 + n..];
      return Got(body);
    }
  }

  // ---------------------------------------------------------------- round trips

  lemma Uint32RoundTrip(n: nat)
    requires n < UINT32
    ensures GetUint32(PutUint32(n)) == n
  {
  }

  lemma Uint32Back(p: Body)
    requires |p| == 4
    ensures GetUint32(p) < UINT32 && PutUint32(GetUint32(p)) == p
  {
    var b0: int, b1: int, b2: int, b3: int := p[0], p[1], p[2], p[3];
    var n := GetUint32(p);
    assert n % 256 == b0 && n / 256 == b1 + 256 * (b2 + 256 * b3);
    assert n / 256 % 256 == b1 && n / 256 / 256 == b2 + 256 * b3;
    assert n / 256 / 256 % 256 == b2 && n / 256 / 256 / 256 == b3;
  }

  /** What a read finds behind a frame header. */
  lemma ReadHeader(body: Body, rest: Body, cap: int)
    ensures var n := |body| % UINT32;
            Read(Frame(body) + rest, cap) ==
            if n > cap then (TooLarge(n), body + rest) else (Got((body + rest)[..n]), (body + rest)[n..])
  {
    var n := |body| % UINT32;
    var input := Frame(body) + rest;
    Uint32RoundTrip(n);
    assert input[..4] == PutUint32(n);
    assert input[4..] == body + rest;
    assert n <= |body|;
    if n <= cap {
      assert input[4..4 + n] == (body + rest)[..n];
      assert input[4 + n..] == (body + rest)[n..];
    }
  }

  /** A body within the cap is read back, with the rest of the stream untouched, if and only if
      its length fits the 32-bit prefix; every cap the program uses guarantees that. */
  lemma FrameRoundTripIff(body: Body, rest: Body, cap: int)
    requires |body| <= cap
    ensures Read(Frame(body) + rest, cap) == (Got(body), rest) <==> |body| < UINT32
  {
    ReadHeader(body, rest, cap);
    if |body| < UINT32 {
      assert |body| % UINT32 == |body|;
      assert (body + rest)[..|body|] == body && (body + rest)[|body|..] == rest;
    } else {
      assert |(body + rest)[..|body| % UINT32]| < |body|;
    }
  }

  /** What was written under a cap and not cut to 32 bits. */
  predicate Fits(bodies: seq<Body>, cap: int) {
    cap < UINT32 && forall i :: 0 <= i < |bodies| ==> |bodies[i]| <= cap
  }

  function Prepend(bodies: seq<Body>, d: Decoded): Decoded {
    d.(bodies := bodies + d.bodies)
  }

  lemma DecodeFrame(body: Body, tail: Body, cap: int)
    requires |body| <= cap < UINT32
    ensures Decode(Frame(body) + tail, cap) == Prepend([body], Decode(tail, cap))
  {
    FrameRoundTripIff(body, tail, cap);
  }

  lemma EncodeFirst(bodies: seq<Body>, rest: Body)
    requires |bodies| > 0
    ensures Encode(bodies) + rest == Frame(bodies[0]) + (Encode(bodies[1..]) + rest)
  {
    Reassociate(Frame(bodies[0]), Encode(bodies[1..]), rest);
  }

  lemma Reassociate(a: Body, b: Body, c: Body)
    ensures a + b + c == a + (b + c)
  {
  }

  lemma PrependFirst(bodies: seq<Body>, d: Decoded)
    requires |bodies| > 0
    ensures Prepend([bodies[0]], Prepend(bodies[1..], d)) == Prepend(bodies, d)
  {
    assert [bodies[0]] + (bodies[1..] + d.bodies) == bodies + d.bodies;
  }

  /** A stream of frames decodes to the bodies written, and goes on with what follows. */
  lemma {:induction false} StreamRoundTrip(bodies: seq<Body>, rest: Body, cap: int)
    requires Fits(bodies, cap)
    ensures Decode(Encode(bodies) + rest, cap) == Prepend(bodies, Decode(rest, cap))
    decreases |bodies|
  {
    if |bodies| == 0 {
      assert Encode(bodies) + rest == rest;
    } else {
      EncodeFirst(bodies, rest);
      DecodeFrame(bodies[0], Encode(bodies[1..]) + rest, cap);
      StreamRoundTrip(bodies[1..], rest, cap);
      PrependFirst(bodies, Decode(rest, cap));
    }
  }

  /** Framing is unambiguous: a stream that ends after a frame stands for one list of bodies. */
  lemma EncodeInjective(a: seq<Body>, b: seq<Body>, cap: int)
    requires Fits(a, cap) && Fits(b, cap) && Encode(a) == Encode(b)
    ensures a == b
  {
    StreamRoundTrip(a, [], cap);
    StreamRoundTrip(b, [], cap);
    assert Encode(a) + [] == Encode(a) && Encode(b) + [] == Encode(b);
    assert a + [] == a && b + [] == b;
  }

  /** The other direction: whatever the stream, the bodies decoded from it re-encode to exactly
      the bytes they came from, none is over the cap, and reading went on as far as it could. */
  lemma {:induction false} DecodeIsFaithful(input: Body, cap: int)
    ensures var d := Decode(input, cap);
            && Encode(d.bodies) + d.rest == input
            && (forall i :: 0 <= i < |d.bodies| ==> |d.bodies[i]| <= cap)
            && !d.end.Got? && Read(d.rest, cap).0 == d.end
            && (d.end.TooLarge? <==> |d.rest| >= 4 && GetUint32(d.rest[..4]) > cap)
    decreases |input|
  {
    var (got, rest) := Read(input, cap);
    var d := Decode(input, cap);
    if got.Got? {
      DecodeIsFaithful(rest, cap);
      FrameOfRead(input, cap);
      var d' := Decode(rest, cap);
      assert d.bodies[1..] == d'.bodies;
      assert Frame(got.body) + Encode(d'.bodies) + d'.rest == Frame(got.body) + (Encode(d'.bodies) + d'.rest);
    } else {
      assert Encode([]) + input == input;
    }
  }

  lemma FrameOfRead(input: Body, cap: int)
    requires Read(input, cap).0.Got?
    ensures var (got, rest) := Read(input, cap); Frame(got.body) + rest == input && |got.body| <= cap
  {
    var (got, rest) := Read(input, cap);
    Uint32Back(input[..4]);
    assert |got.body| % UINT32 == GetUint32(input[..4]);
    assert input == input[..4] + got.body + rest;
  }

  // ---------------------------------------------------------------- the helper's loop

  /** The helper's environment: which bodies decode to a request, and the marshalled reply to
      the n-th request of a connection. */
  datatype Handler = Handler(parses: Body -> bool, reply: (nat, Body) -> Body)

  function Bytes(s: string): Body {
    if |s| == 0 then [] else [(s[0] as int) % 256] + Bytes(s[1..])
  }

  /** The reply that says a reply was too large. */
  const FALLBACK_TEXT := "{\"status\":\"err\",\"code\":\"output_truncated\",\"message\":" +
                         "\"response exceeds the helper/daemon frame cap; narrow the request\"}"

  function Fallback(): Body {
    Bytes(FALLBACK_TEXT)
  }

  lemma {:induction false} BytesOf(s: string)
    ensures |Bytes(s)| == |s| && forall i :: 0 <= i < |s| && s[i] < 256 as char ==> Bytes(s)[i] == s[i] as int
  {
    if |s| > 0 {
      BytesOf(s[1..]);
    }
  }

  lemma FallbackFits()
    ensures |Fallback()| <= MAX_RESPONSE
  {
    BytesOf(FALLBACK_TEXT);
  }

  /** What the n-th request is answered. */
  function Answer(h: Handler, n: nat, req: Body): Body {
    if |h.reply(n, req)| <= MAX_RESPONSE then h.reply(n, req) else Fallback()
  }

  /** The answers to the first n requests. */
  function Answers(h: Handler, reqs: seq<Body>, n: nat): seq<Body>
    requires n <= |reqs|
  {
    seq(n, i requires 0 <= i < n => Answer(h, i, reqs[i]))
  }

  /** How many of the requests that arrived a connection handles: all of them, unless one does
      not decode, or one's reply is oversize, which ends the connection after the fallback. */
  ghost predicate Handles(h: Handler, reqs: seq<Body>, n: nat) {
    && n <= |reqs|
    && (forall i :: 0 <= i < n ==> h.parses(reqs[i]))
    && (forall i :: 0 <= i < n - 1 ==> |h.reply(i, reqs[i])| <= MAX_RESPONSE)
    && (n == |reqs| || !h.parses(reqs[n]) || (n > 0 && |h.reply(n - 1, reqs[n - 1])| > MAX_RESPONSE))
  }

  /** What one turn of the loop found. */
  datatype Turn = NoRequest | Replied | FellBack

  /** One turn: read a request, answer it. */
  method Exchange(c: Conn, h: Handler, n: nat) returns (t: Turn)
    modifies c
    ensures var (r, rest) := Read(old(c.input), MAX_REQUEST);
            && c.input == rest
            && (t == NoRequest <==> !r.Got? || !h.parses(r.body))
            && (r.Got? && h.parses(r.body) ==> (t == FellBack <==> |h.reply(n, r.body)| > MAX_RESPONSE))
            && (t == NoRequest ==> c.output == old(c.output))
            && (t == Replied ==> c.output == old(c.output) + Frame(h.reply(n, r.body)))
            && (t == FellBack ==> c.output == old(c.output) + Frame(Fallback()))
  {
    var r := c.ReadFrame(MAX_REQUEST);
    if !r.Got? || !h.parses(r.body) {
      return NoRequest;
    }
    var sent := c.WriteFrame(h.reply(n, r.body), MAX_RESPONSE);
    if !sent {
      FallbackFits();
      sent := c.WriteFrame(Fallback(), MAX_RESPONSE);
      return FellBack;
    }
    return Replied;
  }

  /** The first body decoded is the one a read yields. */
  lemma DecodeStep(input: Body, cap: int)
    ensures var (r, rest) := Read(input, cap);
            Decode(input, cap).bodies == if r.Got? then [r.body] + Decode(rest, cap).bodies else []
  {
  }

  /** `handleConn`, with writes that succeed. */
  method HandleConn(c: Conn, h: Handler) returns (n: nat)
    requires c.output == []
    modifies c
    ensures var reqs := Decode(old(c.input), MAX_REQUEST).bodies;
            && Handles(h, reqs, n) && RepliedTo(h, reqs, n, c.output)
            && c.output == Encode(Answers(h, reqs, n))
  {
    ghost var all := Decode(c.input, MAX_REQUEST).bodies;
    n := 0;
    while true
      invariant n <= |all| && all[n..] == Decode(c.input, MAX_REQUEST).bodies
      invariant forall i :: 0 <= i < n ==> h.parses(all[i]) && |h.reply(i, all[i])| <= MAX_RESPONSE
      invariant c.output == Encode(Answers(h, all, n))
      decreases |c.input|
    {
      DecodeStep(c.input, MAX_REQUEST);
      ghost var r := Read(c.input, MAX_REQUEST).0;
      if r.Got? {
        assert all[n] == r.body && all[n + 1..] == all[n..][1..];
        AnswerNext(h, all, n);
      }
      var turn := Exchange(c, h, n);
      if turn == NoRequest {
        RepliesAreSent(h, all, n);
        return;
      }
      n := n + 1;
      if turn == FellBack {
        RepliesAreSent(h, all, n);
        return;
      }
    }
  }

  lemma AnswerNext(h: Handler, reqs: seq<Body>, n: nat)
    requires n < |reqs|
    ensures Encode(Answers(h, reqs, n + 1)) == Encode(Answers(h, reqs, n)) + Frame(Answer(h, n, reqs[n]))
  {
    assert Answers(h, reqs, n + 1) == Answers(h, reqs, n) + [Answer(h, n, reqs[n])];
    EncodeAppend(Answers(h, reqs, n), Answer(h, n, reqs[n]));
  }

  lemma {:induction false} EncodeAppend(bodies: seq<Body>, body: Body)
    ensures Encode(bodies + [body]) == Encode(bodies) + Frame(body)
    decreases |bodies|
  {
    if |bodies| == 0 {
      assert (bodies + [body])[1..] == [];
      assert Encode(bodies + [body]) == Frame(body) + [];
    } else {
      assert (bodies + [body])[1..] == bodies[1..] + [body];
      EncodeAppend(bodies[1..], body);
    }
  }

  /** The number of requests handled is determined by what arrived. */
  lemma HandledIsUnique(h: Handler, reqs: seq<Body>, m: nat, n: nat)
    requires Handles(h, reqs, m) && Handles(h, reqs, n)
    ensures m == n
  {
  }

  /** Whatever the helper answers, the daemon's reader takes it: it reads back exactly one frame
      per handled request, in order, and never rejects one for its size. */
  lemma EveryAnswerIsReadable(h: Handler, reqs: seq<Body>, n: nat)
    requires n <= |reqs|
    ensures Decode(Encode(Answers(h, reqs, n)), MAX_RESPONSE) == Decoded(Answers(h, reqs, n), Ended, [])
  {
    FallbackFits();
    var answers := Answers(h, reqs, n);
    StreamRoundTrip(answers, [], MAX_RESPONSE);
    assert Encode(answers) + [] == Encode(answers) && answers + [] == answers;
  }

  /** What the daemon's reader gets from an output: for the i-th of the first n requests the very
      reply of the handler if that fits a frame, and else the fallback; and nothing more. */
  ghost predicate RepliedTo(h: Handler, reqs: seq<Body>, n: nat, output: Body)
    requires n <= |reqs|
  {
    var got := Decode(output, MAX_RESPONSE);
    && |got.bodies| == n && got.rest == [] && got.end == Ended
    && (forall i :: 0 <= i < n && |h.reply(i, reqs[i])| <= MAX_RESPONSE ==> got.bodies[i] == h.reply(i, reqs[i]))
    && (forall i :: 0 <= i < n && |h.reply(i, reqs[i])| > MAX_RESPONSE ==> got.bodies[i] == Bytes(FALLBACK_TEXT))
  }

  lemma RepliesAreSent(h: Handler, reqs: seq<Body>, n: nat)
    requires n <= |reqs|
    ensures RepliedTo(h, reqs, n, Encode(Answers(h, reqs, n)))
  {
    EveryAnswerIsReadable(h, reqs, n);
  }

  lemma EncodeOne(body: Body)
    ensures Encode([body]) == Frame(body) && Frame(body) + [] == Frame(body)
  {
    var one: seq<Body> := [body];
    assert one[1..] == [];
  }

  /** A whole call: a request within its cap that decodes is answered by the handler's reply,
      or by the fallback if and only if that reply does not fit a frame. */
  lemma CallIsAnswered(h: Handler, req: Body)
    requires |req| <= MAX_REQUEST && h.parses(req)
    ensures Decode(Frame(req), MAX_REQUEST).bodies == [req] && Handles(h, [req], 1)
    ensures Read(Encode(Answers(h, [req], 1)), MAX_RESPONSE) ==
            (Got(if |h.reply(0, req)| <= MAX_RESPONSE then h.reply(0, req) else Bytes(FALLBACK_TEXT)), [])
  {
    StreamRoundTrip([req], [], MAX_REQUEST);
    EncodeOne(req);
    FallbackFits();
    var a := Answer(h, 0, req);
    assert Answers(h, [req], 1) == [a];
    EncodeOne(a);
    FrameRoundTripIff(a, [], MAX_RESPONSE);
  }
}
