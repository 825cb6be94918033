/**
  The agent's half of a stream (app/client/echo.go): what each HTTPEcho call does to
  the message channel. Every call is first given as a value (an `Effect`); the class
  AgentEcho below carries the calls out in place and is proved to do exactly that.
 */
module AgentChannel {
  import opened Tunnel

  /** One operation on `msgChan`. */
  datatype ChanOp = Send(msg: StreamFlow) | Close

  /** The two flags AgentEcho keeps. */
  datatype EchoState = EchoState(headersSent: bool, closed: bool)

  const FRESH_ECHO := EchoState(false, false)

  /** The flags after a call, and the channel operations the call performs. */
  datatype Effect = Effect(st: EchoState, ops: seq<ChanOp>)

  function OnHeaders(st: EchoState, h: TunnelHeaders): Effect {
    Effect(st.(headersSent := true), [Send(Headers(h))])
  }

  function OnData(st: EchoState, data: Bytes): Effect {
    Effect(st, [Send(Data(data))])
  }

  /** `Fail` neither sets `closed` nor closes the channel: the Done of a later Shutdown follows its own. */
  function OnFail(st: EchoState, id: StreamId, code: int): Effect {
    Effect(st,
           (if st.headersSent then [] else [Send(Headers(TunnelHeaders(id, code, [], 0)))]) + [Send(Done)])
  }

  /** `Done` and `Shutdown` act alike. */
  function OnDone(st: EchoState): Effect {
    if st.closed then Effect(st, []) else Effect(st.(closed := true), [Send(Done), Close])
  }

  function OnCancel(st: EchoState): Effect {
    if st.closed then Effect(st, []) else Effect(st.(closed := true), [Send(Cancel), Close])
  }

  /** The messages among some channel operations. */
  function SendsOf(ops: seq<ChanOp>): seq<StreamFlow> {
    if ops == [] then []
    else (if ops[0].Send? then [ops[0].msg] else []) + SendsOf(ops[1..])
  }

  lemma {:induction false} SendsConcat(a: seq<ChanOp>, b: seq<ChanOp>)
    ensures SendsOf(a + b) == SendsOf(a) + SendsOf(b)
  {
    if a == [] {
      assert a + b == b;
    } else {
      var rest := a[1..];
      SendsConcat(rest, b);
      assert a == [a[0]] + rest && a + b == [a[0]] + (rest + b);
      FirstSends(a[0], rest);
      FirstSends(a[0], rest + b);
      Associate(if a[0].Send? then [a[0].msg] else [], SendsOf(rest), SendsOf(b));
    }
  }

  lemma FirstSends(op: ChanOp, rest: seq<ChanOp>)
    ensures SendsOf([op] + rest) == (if op.Send? then [op.msg] else []) + SendsOf(rest)
  {
    assert ([op] + rest)[1..] == rest;
  }

  /** An unbuffered channel seen through what was handed over on it. */
  datatype Chan = Chan(sent: seq<StreamFlow>, isClosed: bool)

  const FRESH_CHAN := Chan([], false)

  /** A send on, or a second close of, a closed channel is a run-time panic. */
  datatype Executed = Executed(chan: Chan, panicked: bool)

  function Execute(c: Chan, ops: seq<ChanOp>): Executed
    decreases |ops|
  {
    if ops == [] then Executed(c, false)
    else if c.isClosed then Executed(c, true)
    else match ops[0]
      case Send(m) => Execute(c.(sent := c.sent + [m]), ops[1..])
      case Close => Execute(c.(isClosed := true), ops[1..])
  }

  /** Running a concatenation is running the first part and then, unless it panicked, the second. */
  lemma {:induction false} ExecuteConcat(c: Chan, a: seq<ChanOp>, b: seq<ChanOp>)
    ensures var mid := Execute(c, a);
            Execute(c, a + b) == if mid.panicked then mid else Execute(mid.chan, b)
    decreases |a|
  {
    if a == [] {
      assert a + b == b;
    } else if !c.isClosed {
      assert (a + b)[1..] == a[1..] + b;
      var c' := match a[0] case Send(m) => c.(sent := c.sent + [m]) case Close => c.(isClosed := true);
      ExecuteConcat(c', a[1..], b);
    }
  }

  /** Sends on an open channel all succeed, in order. */
  lemma {:induction false} ExecuteSends(c: Chan, ops: seq<ChanOp>)
    requires !c.isClosed && forall i :: 0 <= i < |ops| ==> ops[i].Send?
    ensures Execute(c, ops) == Executed(Chan(c.sent + SendsOf(ops), false), false)
    decreases |ops|
  {
    if ops == [] {
      assert c.sent + [] == c.sent;
    } else {
      ExecuteSends(c.(sent := c.sent + [ops[0].msg]), ops[1..]);
      assert (c.sent + [ops[0].msg]) + SendsOf(ops[1..]) == c.sent + ([ops[0].msg] + SendsOf(ops[1..]));
    }
  }

  // ------------------------------------------------------------------------
  // What one dispatched request makes the agent do
  // (app/client/main.go:131-161, internal/serviceconfig/generic_endpoint.go:213-380)
  // ------------------------------------------------------------------------

  const BUFFER_SIZE := 10240

  /** What one Body.Read can leave in the 10240-byte buffer. */
  type Chunk = s: Bytes | |s| <= BUFFER_SIZE

  datatype ReadError = NoError | Eof | Broken

  /** One turn of the read loop: was the context found cancelled first, and what did the read return. */
  datatype Read = Read(cancelled: bool, data: Chunk, err: ReadError)

  /**
    How a request fares on the agent. `NoEndpoint`: findEndpoint finds nothing. `Unconfigured`: it finds an
    endpoint whose instance is nil, which ExecuteHTTPRequest dereferences. `NoRequest`: the URI cannot be
    unmutated, the request cannot be built or its headers cannot be copied. `NoResponse`: client.Do fails or the
    response headers cannot be translated. `Response`: the headers go out and the body is read; the reads end with
    the first that reports an error, and a list without one is a body whose next read has not returned yet.
   */
  datatype Job =
    | NoEndpoint
    | Unconfigured
    | NoRequest
    | NoResponse
    | Response(h: TunnelHeaders, turns: seq<Read>)

  function OnPoll(st: EchoState, r: Read): Effect {
    if r.cancelled then OnCancel(st) else Effect(st, [])
  }

  /** `Fail` and then the caller's `Shutdown`. */
  function FailAndShutdown(st: EchoState, id: StreamId): Effect {
    var failed := OnFail(st, id, STATUS_BAD_GATEWAY);
    var down := OnDone(failed.st);
    Effect(down.st, failed.ops + down.ops)
  }

  /** `Done`, the `Shutdown` after it, and the `Shutdown` of the dispatching goroutine. */
  function DoneAndShutdown(st: EchoState): Effect {
    var done := OnDone(st);
    var down := OnDone(done.st);
    var again := OnDone(down.st);
    Effect(again.st, done.ops + down.ops + again.ops)
  }

  /** The rest of a turn of the read loop, once the read has returned. */
  function OnRead(st: EchoState, id: StreamId, r: Read): Effect {
    var chunk := if r.data == [] then [] else OnData(st, r.data).ops;
    var end := match r.err
      case NoError => Effect(st, [])
      case Eof => DoneAndShutdown(st)
      case Broken => FailAndShutdown(st, id);
    Effect(end.st, chunk + end.ops)
  }

  /** One whole turn of the read loop. */
  function OnTurn(st: EchoState, id: StreamId, r: Read): Effect {
    var poll := OnPoll(st, r);
    var turn := OnRead(poll.st, id, r);
    Effect(turn.st, poll.ops + turn.ops)
  }

  function ReadLoop(st: EchoState, id: StreamId, turns: seq<Read>): Effect
    decreases |turns|
  {
    if turns == [] then Effect(st, [])
    else
      var turn := OnTurn(st, id, turns[0]);
      if turns[0].err.NoError? then
        var rest := ReadLoop(turn.st, id, turns[1..]);
        Effect(rest.st, turn.ops + rest.ops)
      else turn
  }

  /** Everything a dispatched request does to its channel. */
  function Dispatched(id: StreamId, job: Job): Effect {
    match job
    case Response(h, turns) =>
      var first := OnHeaders(FRESH_ECHO, h);
      var rest := ReadLoop(first.st, id, turns);
      Effect(rest.st, first.ops + rest.ops)
    case Unconfigured => Effect(FRESH_ECHO, [])
    case _ => FailAndShutdown(FRESH_ECHO, id)
  }

  /** Does a dispatched request panic, and the agent with it. */
  predicate Panics(id: StreamId, job: Job) {
    job.Unconfigured? || Execute(FRESH_CHAN, Dispatched(id, job).ops).panicked
  }

  // ------------------------------------------------------------------------
  // The echo object and the code that drives it
  // ------------------------------------------------------------------------

  /** How a call ends: it returns, or the goroutine panics and nothing after the call runs. */
  datatype Outcome = Returned | Panicked {
    predicate IsFailure() { Panicked? }
    function PropagateFailure(): Outcome requires Panicked? { Panicked }
  }

  class AgentEcho {
    const streamId: StreamId
    var headersSent: bool
    var closed: bool
    /** What RunDataSender has received so far on msgChan, and whether msgChan is closed. */
    var sent: seq<StreamFlow>
    var chanClosed: bool

    constructor (id: StreamId)
      ensures streamId == id && Flags() == FRESH_ECHO && Channel() == FRESH_CHAN
    {
      streamId := id;
      headersSent, closed, sent, chanClosed := false, false, [], false;
    }

    function Flags(): EchoState reads this { EchoState(headersSent, closed) }

    function Channel(): Chan reads this { Chan(sent, chanClosed) }

    /** The object is where `e`, carried out from channel `before`, leads. */
    ghost predicate Did(before: Chan, e: Effect, o: Outcome) reads this {
      var x := Execute(before, e.ops);
      && Channel() == x.chan
      && o == (if x.panicked then Panicked else Returned)
      && (o.Returned? ==> Flags() == e.st)
    }

    method SendMsg(m: StreamFlow) returns (o: Outcome)
      modifies this`sent
      ensures o.Panicked? <==> chanClosed
      ensures sent == if chanClosed then old(sent) else old(sent) + [m]
    {
      if chanClosed {
        return Panicked;
      }
      sent := sent + [m];
      return Outcome.Returned;
    }

    method CloseChan() returns (o: Outcome)
      modifies this`chanClosed
      ensures o.Panicked? <==> old(chanClosed)
      ensures chanClosed
    {
      o := if chanClosed then Panicked else Outcome.Returned;
      chanClosed := true;
    }

    method Headers(h: TunnelHeaders) returns (o: Outcome)
      modifies this
      ensures Did(old(Channel()), OnHeaders(old(Flags()), h), o)
      ensures !old(chanClosed) ==> o.Returned? && headersSent && closed == old(closed)
      ensures !old(chanClosed) ==> !chanClosed && sent == old(sent) + [StreamFlow.Headers(h)]
    {
      o := SendMsg(StreamFlow.Headers(h));
      if o.Returned? {
        headersSent := true;
      }
    }

    method Data(data: Bytes) returns (o: Outcome)
      modifies this
      ensures Did(old(Channel()), OnData(old(Flags()), data), o)
      ensures !old(chanClosed) ==> o.Returned? && Flags() == old(Flags())
      ensures !old(chanClosed) ==> !chanClosed && sent == old(sent) + [StreamFlow.Data(data)]
    {
      o := SendMsg(StreamFlow.Data(data));
    }

    method Fail(code: int) returns (o: Outcome)
      modifies this
      ensures Did(old(Channel()), OnFail(old(Flags()), streamId, code), o)
      ensures !old(chanClosed) ==> o.Returned? && Flags() == old(Flags()) && !chanClosed
      ensures !old(chanClosed) && old(headersSent) ==> sent == old(sent) + [StreamFlow.Done]
      ensures !old(chanClosed) && !old(headersSent) ==>
        sent == old(sent) + [StreamFlow.Headers(TunnelHeaders(streamId, code, [], 0)), StreamFlow.Done]
    {
      ghost var effect := OnFail(Flags(), streamId, code);
      ExecuteConcat(Channel(), effect.ops[..|effect.ops| - 1], [Send(StreamFlow.Done)]);
      assert effect.ops == effect.ops[..|effect.ops| - 1] + [Send(StreamFlow.Done)];
      if !headersSent {
        var h := TunnelHeaders(streamId, code, [], 0);
        :- SendMsg(StreamFlow.Headers(h));
      }
      o := SendMsg(StreamFlow.Done);
    }

    method Done() returns (o: Outcome)
      modifies this
      ensures Did(old(Channel()), OnDone(old(Flags())), o)
      ensures old(closed) ==> o.Returned? && Flags() == old(Flags()) && Channel() == old(Channel())
      ensures !old(closed) && !old(chanClosed) ==>
        o.Returned? && closed && chanClosed && sent == old(sent) + [StreamFlow.Done]
    {
      if !closed {
        closed := true;
        :- SendMsg(StreamFlow.Done);
        o := CloseChan();
      } else {
        o := Outcome.Returned;
      }
    }

    method Shutdown() returns (o: Outcome)
      modifies this
      ensures Did(old(Channel()), OnDone(old(Flags())), o)
      ensures old(closed) ==> o.Returned? && Flags() == old(Flags()) && Channel() == old(Channel())
      ensures !old(closed) && !old(chanClosed) ==>
        o.Returned? && closed && chanClosed && sent == old(sent) + [StreamFlow.Done]
    {
      if !closed {
        closed := true;
        :- SendMsg(StreamFlow.Done);
        o := CloseChan();
      } else {
        o := Outcome.Returned;
      }
    }

    method Cancel() returns (o: Outcome)
      modifies this
      ensures Did(old(Channel()), OnCancel(old(Flags())), o)
      ensures old(closed) ==> o.Returned? && Flags() == old(Flags()) && Channel() == old(Channel())
      ensures !old(closed) && !old(chanClosed) ==>
        o.Returned? && closed && chanClosed && sent == old(sent) + [StreamFlow.Cancel]
    {
      if !closed {
        closed := true;
        :- SendMsg(StreamFlow.Cancel);
        o := CloseChan();
      } else {
        o := Outcome.Returned;
      }
    }
  }

  /** A turn of the loop in RunHTTPRequest; `Shutdown` by the caller is part of a turn that ends the loop. */
  method RunTurn(echo: AgentEcho, r: Read) returns (o: Outcome)
    modifies echo
    ensures echo.Did(old(echo.Channel()), OnTurn(old(echo.Flags()), echo.streamId, r), o)
  {
    ghost var start := echo.Channel();
    ghost var poll := OnPoll(echo.Flags(), r);
    ghost var turn := OnRead(poll.st, echo.streamId, r);
    ExecuteConcat(start, poll.ops, turn.ops);
    if r.cancelled {
      o := echo.Cancel();
      if o.Panicked? {
        return;
      }
    }
    ghost var polled := echo.Channel();
    ghost var chunk := if r.data == [] then [] else OnData(poll.st, r.data).ops;
    ghost var end := turn.ops[|chunk|..];
    assert turn.ops == chunk + end;
    ExecuteConcat(polled, chunk, end);
    if r.data != [] {
      o := echo.Data(r.data);
      if o.Panicked? {
        return;
      }
    }
    ghost var handed := echo.Channel();
    match r.err {
      case NoError =>
        assert end == [];
        return Outcome.Returned;
      case Eof =>
        ghost var d1 := OnDone(poll.st);
        ghost var d2 := OnDone(d1.st);
        ghost var d3 := OnDone(d2.st);
        assert end == d1.ops + d2.ops + d3.ops;
        ExecuteConcat(handed, d1.ops + d2.ops, d3.ops);
        ExecuteConcat(handed, d1.ops, d2.ops);
        :- echo.Done();
        o := echo.Shutdown();
        o := echo.Shutdown();
      case Broken =>
        ghost var f := OnFail(poll.st, echo.streamId, STATUS_BAD_GATEWAY);
        ghost var d := OnDone(f.st);
        assert end == f.ops + d.ops;
        ExecuteConcat(handed, f.ops, d.ops);
        :- echo.Fail(STATUS_BAD_GATEWAY);
        o := echo.Shutdown();
    }
  }

  /** What the loop still does from turn `i` on: that turn and, unless it panics or ends the loop, the later ones. */
  lemma LoopTakesTurn(c: Chan, st: EchoState, id: StreamId, turns: seq<Read>, i: nat)
    requires i < |turns|
    ensures var turn := OnTurn(st, id, turns[i]);
      var x := Execute(c, turn.ops);
      var all := ReadLoop(st, id, turns[i..]);
      if turns[i].err.NoError? then
        var rest := ReadLoop(turn.st, id, turns[i + 1..]);
        all.st == rest.st && Execute(c, all.ops) == if x.panicked then x else Execute(x.chan, rest.ops)
      else all == turn
  {
    var turn := OnTurn(st, id, turns[i]);
    assert turns[i..][1..] == turns[i + 1..] && turns[i..][0] == turns[i];
    ExecuteConcat(c, turn.ops, ReadLoop(turn.st, id, turns[i + 1..]).ops);
  }

  /** RunHTTPRequest from the first read on. */
  method RunReadLoop(echo: AgentEcho, turns: seq<Read>) returns (o: Outcome)
    modifies echo
    ensures echo.Did(old(echo.Channel()), ReadLoop(old(echo.Flags()), echo.streamId, turns), o)
  {
    ghost var all := ReadLoop(echo.Flags(), echo.streamId, turns);
    ghost var end := Execute(echo.Channel(), all.ops);
    var i := 0;
    while i < |turns|
      invariant 0 <= i <= |turns|
      // what is left to do leads where the whole loop was to lead
      invariant Execute(echo.Channel(), ReadLoop(echo.Flags(), echo.streamId, turns[i..]).ops) == end
      invariant ReadLoop(echo.Flags(), echo.streamId, turns[i..]).st == all.st
    {
      LoopTakesTurn(echo.Channel(), echo.Flags(), echo.streamId, turns, i);
      :- RunTurn(echo, turns[i]);
      if !turns[i].err.NoError? {
        return Outcome.Returned;
      }
      i := i + 1;
    }
    return Outcome.Returned;
  }

  /** A request taken by waitForRequest, from MakeEcho to the end of its goroutine. */
  method Dispatch(id: StreamId, job: Job) returns (echo: AgentEcho, o: Outcome)
    ensures fresh(echo) && (o.Panicked? <==> Panics(id, job))
    ensures if job.Unconfigured? then echo.Channel() == FRESH_CHAN else echo.Did(FRESH_CHAN, Dispatched(id, job), o)
  {
    echo := new AgentEcho(id);
    match job {
      case Response(h, turns) =>
        ghost var first := OnHeaders(FRESH_ECHO, h);
        ExecuteConcat(FRESH_CHAN, first.ops, ReadLoop(first.st, id, turns).ops);
        o := echo.Headers(h);
        assert o.Returned?; // the channel is new
        o := RunReadLoop(echo, turns);
      case Unconfigured =>
        o := Panicked;
      case _ =>
        ghost var failed := OnFail(FRESH_ECHO, id, STATUS_BAD_GATEWAY);
        ExecuteSends(FRESH_CHAN, failed.ops);
        ExecuteConcat(FRESH_CHAN, failed.ops, OnDone(failed.st).ops);
        o := echo.Fail(STATUS_BAD_GATEWAY);
        assert o.Returned?;
        o := echo.Shutdown();
    }
  }

  // ------------------------------------------------------------------------
  // RunDataSender (app/client/echo.go:58-98), run by itself
  // ------------------------------------------------------------------------

  /** What its select yields before the channel is closed: the end of the context, or a message with its Send's fate. */
  datatype SenderInput = ContextDone | Message(msg: StreamFlow, sendOk: bool)

  function Accepted(inputs: seq<SenderInput>): seq<StreamFlow>
    decreases |inputs|
  {
    if inputs == [] then []
    else Accepted(inputs[..|inputs| - 1])
         + if inputs[|inputs| - 1].Message? && inputs[|inputs| - 1].sendOk then [inputs[|inputs| - 1].msg] else []
  }

  lemma {:induction false} AcceptedConcat(a: seq<SenderInput>, b: seq<SenderInput>)
    ensures Accepted(a + b) == Accepted(a) + Accepted(b)
    decreases |b|
  {
    if b == [] {
      assert a + b == a;
    } else {
      var n := |b| - 1;
      AcceptedConcat(a, b[..n]);
      assert (a + b)[..|a + b| - 1] == a + b[..n];
    }
  }

  /** When every input is a message and every Send succeeds, the messages are sent as they come. */
  lemma {:induction false} AllAccepted(inputs: seq<SenderInput>)
    requires forall i :: 0 <= i < |inputs| ==> inputs[i].Message? && inputs[i].sendOk
    ensures |Accepted(inputs)| == |inputs|
    ensures forall i :: 0 <= i < |inputs| ==> Accepted(inputs)[i] == inputs[i].msg
    decreases |inputs|
  {
    if inputs != [] {
      AllAccepted(inputs[..|inputs| - 1]);
    }
  }

  /** `at` lists the accepted inputs, once each and in order, and `msgs` their messages. */
  ghost predicate Lists(inputs: seq<SenderInput>, at: seq<nat>, msgs: seq<StreamFlow>) {
    && |at| == |msgs| && (forall j, k :: 0 <= j < k < |at| ==> at[j] < at[k])
    && (forall k :: 0 <= k < |at| ==> at[k] < |inputs| && inputs[at[k]] == Message(msgs[k], true))
    && (forall i :: 0 <= i < |inputs| && inputs[i].Message? && inputs[i].sendOk ==> i in at)
  }

  /** In general exactly the messages whose Send succeeded are sent, once each, in their order. */
  lemma {:induction false} AcceptedAre(inputs: seq<SenderInput>) returns (at: seq<nat>)
    ensures Lists(inputs, at, Accepted(inputs))
    decreases |inputs|
  {
    if inputs == [] {
      at := [];
    } else {
      var n := |inputs| - 1;
      var before := AcceptedAre(inputs[..n]);
      at := before + if inputs[n].Message? && inputs[n].sendOk then [n] else [];
      ListsMore(inputs[..n], before, Accepted(inputs[..n]), inputs[n]);
      assert inputs[..n] + [inputs[n]] == inputs;
    }
  }

  lemma ListsMore(inputs: seq<SenderInput>, at: seq<nat>, msgs: seq<StreamFlow>, next: SenderInput)
    requires Lists(inputs, at, msgs)
    ensures var taken := next.Message? && next.sendOk;
      Lists(inputs + [next], at + (if taken then [|inputs|] else []), msgs + if taken then [next.msg] else [])
  {
    var more := inputs + [next];
    var at' := at + if next.Message? && next.sendOk then [|inputs|] else [];
    forall i | 0 <= i < |more| && more[i].Message? && more[i].sendOk ensures i in at' {
      if i < |inputs| {
        assert more[i] == inputs[i] && i in at;
      } else {
        assert at'[|at|] == i;
      }
    }
  }

  /** The stream ID, then every message whose Send succeeded, in order; nothing if the stream does not open. */
  method RunDataSender(id: StreamId, opens: bool, idSent: bool, inputs: seq<SenderInput>)
    returns (wire: seq<StreamFlow>)
    ensures wire == if opens && idSent then [StreamID(id)] + Accepted(inputs) else []
  {
    wire := [];
    if !opens {
      return;
    }
    if !idSent {
      return;
    }
    wire := wire + [StreamID(id)];
    for i := 0 to |inputs|
      invariant wire == [StreamID(id)] + Accepted(inputs[..i])
    {
      assert inputs[..i + 1][..i] == inputs[..i];
      if inputs[i].Message? {
        if inputs[i].sendOk {
          wire := wire + [inputs[i].msg];
        }
      }
    }
    assert inputs[..|inputs|] == inputs;
  }
}
