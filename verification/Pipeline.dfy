/**
  One HTTP response across the tunnel: the producer (RunHTTPRequest driving AgentEcho), the sender
  (RunDataSender), the gRPC stream, and the controller side of module Response, as one step system.
  Every interleaving of the four goroutines, and every fault of the network, is a sequence of labels.
 */
module Pipeline {
  import opened Wrappers
  import opened Tunnel
  import opened AgentChannel
  import AgentGrammar
  import Ctl = ControllerEcho
  import Rsp = Response

  /** The producing goroutine; `Polling` and `Reading` are the two halves of a turn of the read loop. */
  datatype Pc = Starting | Polling | Reading | Ended | Panicked

  /** RunDataSender; `Draining` waits in CloseAndRecv; `Gone` tells whether the stream was ever opened. */
  datatype Sender = Opening | Ready | Holding(msg: StreamFlow) | Draining | Gone(wasOpen: bool)

  /** The gRPC stream: usable, closed by the sender, or broken (the receiver then sees an error). */
  datatype Link = Up | HalfClosed | Down(canceled: bool)

  datatype Pipe = Pipe(
    id: StreamId,
    job: Job,
    pc: Pc,
    next: nat,                   // turns of the read loop whose read has returned
    st: EchoState,
    ops: seq<ChanOp>,            // channel operations the producer still has to perform
    chanClosed: bool,
    produced: seq<StreamFlow>,   // every message the producer ever set out to send
    sender: Sender,
    wire: seq<StreamFlow>,
    lost: seq<StreamFlow>,
    link: Link,
    side: Rsp.Side)

  function Start(id: StreamId, job: Job): Pipe {
    Pipe(id, job, Starting, 0, FRESH_ECHO, [], false, [], Opening, [], [], Up, Rsp.Start(id))
  }

  datatype Label =
    | Begin                               // findEndpoint and the fetch, up to the first echo call
    | Poll                                // the look at ctx.Done()
    | ReadBody                            // Body.Read returns
    | CloseChan
    | Panic                               // a nil instance, or a channel operation that meets the closed channel
    | HandOver                            // producer to sender
    | Open                                // the sender opens the stream and sends its ID
    | OpenFails
    | SendOn                              // the sender's stream.Send
    | SeeClosed                           // the sender finds msgChan closed and closes the stream
    | SenderReturns                       // CloseAndRecv returns
    | Cut(k: nat, canceled: bool)         // the network fails; k messages still arrive
    | OnSide(l: Rsp.Label)

  function Sends(p: Pipe, e: Effect): Pipe {
    p.(st := e.st, ops := e.ops, produced := p.produced + SendsOf(e.ops))
  }

  /** The event a receive on the stream gives now. */
  predicate Arrives(p: Pipe, ev: Ctl.Event) {
    match ev
    case Msg(m) => p.wire != [] && m == p.wire[0]
    case Eof => p.wire == [] && p.link.HalfClosed?
    case Lost(canceled) => p.wire == [] && p.link == Down(canceled)
  }

  predicate Enabled(p: Pipe, l: Label) {
    match l
    case Begin => p.pc.Starting? && !p.job.Unconfigured?
    case Poll => p.pc.Polling? && p.ops == [] && p.job.Response? && p.next < |p.job.turns|
    case ReadBody => p.pc.Reading? && p.ops == [] && p.job.Response? && p.next < |p.job.turns|
    case CloseChan => !p.pc.Panicked? && p.ops != [] && p.ops[0].Close? && !p.chanClosed
    case Panic => !p.pc.Panicked? && (if p.job.Unconfigured? then p.pc.Starting? else p.ops != [] && p.chanClosed)
    case HandOver => !p.pc.Panicked? && p.ops != [] && p.ops[0].Send? && !p.chanClosed && p.sender.Ready?
    case Open => !p.pc.Panicked? && p.sender.Opening? && p.link.Up?
    case OpenFails => !p.pc.Panicked? && p.sender.Opening?
    case SendOn => !p.pc.Panicked? && p.sender.Holding?
    case SeeClosed => !p.pc.Panicked? && p.sender.Ready? && p.chanClosed
    case SenderReturns => !p.pc.Panicked? && p.sender.Draining? && (p.side.receiver.Returned? || p.link.Down?)
    case Cut(k, canceled) => !p.link.Down? && k <= |p.wire|
    case OnSide(c) =>
      && Rsp.Enabled(p.side, c)
      && (c.FirstEvent? || c.NextEvent? ==> Arrives(p, c.ev))
  }

  function Apply(p: Pipe, l: Label): Pipe
    requires Enabled(p, l)
  {
    match l
    case Begin =>
      if p.job.Response? then Sends(p, OnHeaders(p.st, p.job.h)).(pc := Polling)
      else Sends(p, FailAndShutdown(p.st, p.id)).(pc := Ended)
    case Poll => Sends(p, OnPoll(p.st, p.job.turns[p.next])).(pc := Reading)
    case ReadBody =>
      var turn := p.job.turns[p.next];
      Sends(p, OnRead(p.st, p.id, turn)).(next := p.next + 1, pc := if turn.err.NoError? then Polling else Ended)
    case CloseChan => p.(ops := p.ops[1..], chanClosed := true)
    case Panic => p.(pc := Pc.Panicked)
    case HandOver => p.(ops := p.ops[1..], sender := Holding(p.ops[0].msg))
    case Open => p.(sender := Ready, wire := p.wire + [StreamID(p.id)])
    case OpenFails => p.(sender := Gone(false), link := if p.link.Down? then p.link else Down(false))
    case SendOn =>
      // a Send on a stream that is broken or over returns an error, which is logged
      if p.link.Up? && !p.side.receiver.Returned? then p.(sender := Ready, wire := p.wire + [p.sender.msg])
      else p.(sender := Ready, lost := p.lost + [p.sender.msg])
    case SeeClosed => p.(sender := Draining, link := if p.link.Up? then HalfClosed else p.link)
    case SenderReturns => p.(sender := Gone(true))
    case Cut(k, canceled) => p.(wire := p.wire[..k], lost := p.wire[k..] + p.lost, link := Down(canceled))
    case OnSide(c) =>
      var q := p.(side := Rsp.Apply(p.side, c));
      if (c.FirstEvent? || c.NextEvent?) && c.ev.Msg? then q.(wire := p.wire[1..]) else q
  }

  ghost predicate Run(p: Pipe, ls: seq<Label>, q: Pipe)
    decreases |ls|
  {
    if ls == [] then p == q else Enabled(p, ls[0]) && Run(Apply(p, ls[0]), ls[1..], q)
  }

  // ------------------------------------------------------------------------
  // The stations
  // ------------------------------------------------------------------------

  function Held(p: Pipe): seq<StreamFlow> {
    if p.sender.Holding? then [p.sender.msg] else []
  }

  function Opened(p: Pipe): bool {
    !p.sender.Opening? && p.sender != Gone(false)
  }

  /** What the HTTP client was sent of the body. */
  function Written(out: seq<Rsp.HttpEvent>): Bytes {
    if out == [] then [] else (if out[0].Body? then out[0].data else []) + Written(out[1..])
  }

  /** The chunk inside w.Write, and the chunk on offer to runEcho. */
  function AtWriter(s: Rsp.Side): Bytes {
    if s.writer.Writing? then s.writer.chunk else []
  }

  function AtReceiver(s: Rsp.Side): Bytes {
    if s.receiver.Offering? && s.receiver.offer.sig.SigData? then s.receiver.offer.sig.data else []
  }

  /** The bytes the producer has read from the upstream response. */
  function BytesRead(p: Pipe): Bytes
    requires p.job.Response? ==> p.next <= |p.job.turns|
  {
    if p.job.Response? then AgentGrammar.BodyOf(p.job.turns[..p.next]) else []
  }

  ghost predicate HasTerminal(ms: seq<StreamFlow>) {
    exists i :: 0 <= i < |ms| && (ms[i].Done? || ms[i].Cancel?)
  }

  ghost predicate ClosePending(ops: seq<ChanOp>) {
    exists i :: 0 <= i < |ops| && ops[i].Close?
  }

  // ------------------------------------------------------------------------
  // The invariant
  // ------------------------------------------------------------------------

  /** No message is lost track of, and their order never changes. */
  ghost predicate Fifo(p: Pipe) {
    && p.side.received + p.wire + p.lost + Held(p) + SendsOf(p.ops)
       == (if Opened(p) then [StreamID(p.id)] else []) + p.produced
    && (!Opened(p) ==> p.side.received == [] && p.wire == [] && p.lost == [])
    && p.side.id == p.id
  }

  /** Headers first and only first, no stream ID, and only Done after a Done. */
  ghost predicate Shaped(ms: seq<StreamFlow>) {
    && (forall i :: 0 <= i < |ms| ==> (ms[i].Headers? <==> i == 0) && !ms[i].StreamID?)
    && (forall i, j :: 0 <= i < j < |ms| && ms[i].Done? ==> ms[j].Done?)
  }

  ghost predicate NoDone(ms: seq<StreamFlow>) {
    forall i :: 0 <= i < |ms| ==> !ms[i].Done?
  }

  /** What has been produced follows the agent's grammar and carries the bytes read. */
  ghost predicate Producing(p: Pipe) {
    && (p.job.Response? ==> p.next <= |p.job.turns|)
    && Payload(p.produced) == BytesRead(p)
    && Shaped(p.produced)
    && (p.pc.Starting? || p.pc.Polling? || p.pc.Reading? ==> NoDone(p.produced))
    && (if p.pc.Starting? then p.produced == [] else p.produced != [] || p.pc.Panicked?)
    && (p.pc.Starting? ==> p.ops == [] && p.st == FRESH_ECHO && !p.chanClosed && p.next == 0)
    && (p.pc.Polling? || p.pc.Reading? ==> p.job.Response? && p.st.headersSent)
  }

  /** The channel is closed last, and after a Done or a Cancel. */
  ghost predicate Closing(p: Pipe) {
    && (forall i :: 0 <= i < |p.ops| && p.ops[i].Close? ==> i == |p.ops| - 1 && !p.chanClosed)
    && (p.st.closed <==> p.chanClosed || ClosePending(p.ops))
    && (p.st.closed ==> HasTerminal(p.produced))
    && (p.chanClosed ==> HasTerminal(p.side.received + p.wire + p.lost + Held(p)))
  }

  ghost predicate Linked(p: Pipe) {
    && (p.lost != [] ==> p.link.Down? || p.side.receiver.Returned?)
    && (p.link.HalfClosed? ==> !p.sender.Holding? && !p.sender.Ready? && !p.sender.Opening?)
    && (p.link.HalfClosed? && !p.side.receiver.Returned? ==> HasTerminal(p.side.received + p.wire))
    && (p.sender.Draining? || p.sender == Gone(true) ==> p.chanClosed)
  }

  /** The receive loop and the writer against the messages received. */
  ghost predicate Tracking(s: Rsp.Side) {
    && Rsp.Ordered(s)
    && (s.receiver.AwaitId? ==> s.received == [] && (s.phase.AwaitHeaders? || (s.phase.Canceled? && s.flush.Flushed?)))
    && (s.receiver.Receiving? || s.receiver.Offering? ==> s.received != [] && s.received[0] == StreamID(s.id))
    && (s.receiver.Receiving? || (s.receiver.Offering? && !s.receiver.exits) ==>
          && !HasTerminal(s.received)
          && (s.phase.AwaitHeaders? ==> |s.received| == 1)
          && (s.phase.AwaitData? ==> |s.received| >= 2)
          && !s.phase.Failed?
          && (s.phase.Canceled? ==> s.flush.Flushed?))
    && (s.receiver.Offering? && s.receiver.offer.sig.SigHeaders? ==>
          !s.receiver.exits && |s.received| == 2 && s.received[1] == Headers(s.receiver.offer.sig.h))
    && (s.receiver.Offering? && s.receiver.offer.sig.SigData? ==> !s.receiver.exits)
    && (s.receiver.Offering? && s.receiver.offer.after.Some? ==> s.receiver.exits)
    && (s.receiver.Offering? && (s.receiver.offer.sig.SigDone? || s.receiver.offer.sig.SigFail?) ==> s.receiver.exits)
    && (s.receiver.Offering? && s.receiver.offer == Ctl.Offer(Ctl.SigDone, None) ==>
          s.receiver.exits && s.headersSent && s.received[|s.received| - 1].Done?)
    && (s.flush.Marking? || s.flush.Flushed? ==> s.writer.Finished?)
    && (s.flush.Flushed? ==> !s.registered && (s.receiver.AwaitId? || s.receiver.Receiving? ==> s.phase.Canceled?))
    && (s.headersSent ==>
          && |s.received| >= 2 && s.received[1].Headers?
          && s.out[0] == Rsp.WriteHeader(s.received[1].h.statusCode, s.received[1].h.headers))
    && (s.writer == Rsp.Finished(Rsp.ByDone) ==>
          && (s.receiver.Leaving? || s.receiver.Returned?) && s.headersSent
          && s.received != [] && s.received[|s.received| - 1].Done? && s.discarded == [])
  }

  /** Every byte received is written, at the writer, on offer to it, or discarded. */
  ghost predicate Accounted(s: Rsp.Side) {
    && Payload(s.received) == Written(s.out) + s.discarded + AtWriter(s) + AtReceiver(s)
    && (s.discarded != [] ==> s.writer.Finished?)
  }

  ghost predicate Inv(p: Pipe) {
    Fifo(p) && Producing(p) && Closing(p) && Linked(p) && Tracking(p.side) && Accounted(p.side)
  }

  // ------------------------------------------------------------------------
  // Every step keeps it
  // ------------------------------------------------------------------------

  lemma {:induction false} WrittenSnoc(out: seq<Rsp.HttpEvent>, e: Rsp.HttpEvent)
    ensures Written(out + [e]) == Written(out) + (if e.Body? then e.data else [])
  {
    if out == [] {
      assert [e][1..] == [];
    } else {
      WrittenSnoc(out[1..], e);
      assert (out + [e])[1..] == out[1..] + [e];
      var first := if out[0].Body? then out[0].data else [];
      assert first + (Written(out[1..]) + if e.Body? then e.data else [])
          == (first + Written(out[1..])) + if e.Body? then e.data else [];
    }
  }

  lemma {:induction false} BodySnoc(turns: seq<Read>, n: nat)
    requires n < |turns|
    ensures AgentGrammar.BodyOf(turns[..n + 1]) == AgentGrammar.BodyOf(turns[..n]) + turns[n].data
    decreases n
  {
    if n == 0 {
      assert turns[..1][1..] == [];
    } else {
      BodySnoc(turns[1..], n - 1);
      assert turns[..n + 1][1..] == turns[1..][..n];
      assert turns[..n][1..] == turns[1..][..n - 1];
    }
  }

  lemma FifoStep(p: Pipe, l: Label)
    requires Fifo(p) && Linked(p) && Producing(p) && Enabled(p, l)
    ensures Fifo(Apply(p, l))
  {
    if l.OnSide? {
      FifoController(p, l.l);
    } else if l.Begin? || l.Poll? || l.ReadBody? {
      FifoProducer(p, l);
    } else if l.HandOver? || l.CloseChan? {
      FifoPop(p, l);
    } else {
      FifoSender(p, l);
    }
  }

  lemma FifoProducer(p: Pipe, l: Label)
    requires Fifo(p) && Producing(p) && Enabled(p, l) && (l.Begin? || l.Poll? || l.ReadBody?)
    ensures Fifo(Apply(p, l))
  {
    if l.Begin? {
      FifoSends(p, if p.job.Response? then OnHeaders(p.st, p.job.h) else FailAndShutdown(p.st, p.id));
    } else if l.Poll? {
      FifoSends(p, OnPoll(p.st, p.job.turns[p.next]));
    } else {
      FifoSends(p, OnRead(p.st, p.id, p.job.turns[p.next]));
    }
  }

  lemma FifoSender(p: Pipe, l: Label)
    requires Fifo(p) && Linked(p) && Enabled(p, l)
    requires !l.OnSide? && !l.Begin? && !l.Poll? && !l.ReadBody? && !l.HandOver? && !l.CloseChan?
    ensures Fifo(Apply(p, l))
  {
    if l.SendOn? {
      FifoSendOn(p);
    } else if l.Cut? {
      FifoCut(p, l.k, l.canceled);
    } else if l.Open? {
      FifoOpen(p);
    }
  }

  lemma FifoSends(p: Pipe, e: Effect)
    requires Fifo(p) && p.ops == []
    ensures Fifo(Sends(p, e))
  {
    var q := Sends(p, e);
    var before := p.side.received + p.wire + p.lost + Held(p);
    assert before + SendsOf(p.ops) == before;
    assert before + SendsOf(e.ops) == (if Opened(p) then [StreamID(p.id)] else []) + q.produced;
  }

  lemma FifoPop(p: Pipe, l: Label)
    requires Fifo(p) && Enabled(p, l) && (l.HandOver? || l.CloseChan?)
    ensures Fifo(Apply(p, l))
  {
    var first := if l.HandOver? then [p.ops[0].msg] else [];
    var before := p.side.received + p.wire + p.lost;
    assert SendsOf(p.ops) == first + SendsOf(p.ops[1..]);
    assert before + [] == before;
    Associate(before + Held(p), first, SendsOf(p.ops[1..]));
    assert l.CloseChan? ==> before + Held(p) + first == before + Held(p);
  }

  lemma FifoSendOn(p: Pipe)
    requires Fifo(p) && Linked(p) && Enabled(p, SendOn)
    ensures Fifo(Apply(p, SendOn))
  {
    var q := Apply(p, SendOn);
    assert p.wire + p.lost + Held(p) == q.wire + q.lost + Held(q);
    assert p.side.received + p.wire + p.lost + Held(p) == p.side.received + (p.wire + p.lost + Held(p));
    assert q.side.received + q.wire + q.lost + Held(q) == q.side.received + (q.wire + q.lost + Held(q));
  }

  lemma FifoOpen(p: Pipe)
    requires Fifo(p) && Enabled(p, Open)
    ensures Fifo(Apply(p, Open))
  {
    var q := Apply(p, Open);
    assert [] + SendsOf(p.ops) == SendsOf(p.ops) && [] + p.produced == p.produced;
    assert q.side.received + q.wire + q.lost + Held(q) == [StreamID(p.id)];
  }

  lemma FifoCut(p: Pipe, k: nat, canceled: bool)
    requires Fifo(p) && Enabled(p, Cut(k, canceled))
    ensures Fifo(Apply(p, Cut(k, canceled)))
  {
    assert p.side.received + p.wire + p.lost == p.side.received + p.wire[..k] + (p.wire[k..] + p.lost);
  }

  lemma FifoController(p: Pipe, c: Rsp.Label)
    requires Fifo(p) && Enabled(p, OnSide(c))
    ensures Fifo(Apply(p, OnSide(c)))
  {
    ReceiveMoves(p, c);
    AgentRests(p, c);
    WireClosed(p, c);
  }

  lemma AgentRests(p: Pipe, c: Rsp.Label)
    requires Enabled(p, OnSide(c))
    ensures var q := Apply(p, OnSide(c));
      && q.lost == p.lost && q.sender == p.sender && q.ops == p.ops && q.produced == p.produced
      && q.id == p.id && q.side.id == p.side.id
  {
  }

  /** Nothing is received before the stream is open. */
  lemma WireClosed(p: Pipe, c: Rsp.Label)
    requires Enabled(p, OnSide(c))
    ensures p.side.received == [] && p.wire == [] ==>
      Apply(p, OnSide(c)).side.received == [] && Apply(p, OnSide(c)).wire == []
  {
    ReceiveMoves(p, c);
  }

  /** The messages that end the read loop. */
  function EndMsgs(closed: bool, err: ReadError): seq<StreamFlow> {
    match err
    case NoError => []
    case Eof => if closed then [] else [Done]
    case Broken => if closed then [Done] else [Done, Done]
  }

  lemma ReadSends(st: EchoState, id: StreamId, r: Read)
    requires st.headersSent
    ensures SendsOf(OnRead(st, id, r).ops) == AgentGrammar.DataMsg(r) + EndMsgs(st.closed, r.err)
  {
    var chunk := if r.data == [] then [] else OnData(st, r.data).ops;
    var end := match r.err
      case NoError => Effect(st, [])
      case Eof => DoneAndShutdown(st)
      case Broken => FailAndShutdown(st, id);
    SendsConcat(chunk, end.ops);
    assert SendsOf(chunk) == AgentGrammar.DataMsg(r);
    EndSends(st, id, r.err);
  }

  lemma EndSends(st: EchoState, id: StreamId, err: ReadError)
    requires st.headersSent
    ensures SendsOf(DoneAndShutdown(st).ops) == EndMsgs(st.closed, Eof)
    ensures SendsOf(FailAndShutdown(st, id).ops) == EndMsgs(st.closed, Broken)
  {
    assert SendsOf([Send(Done)]) == [Done];
    SendsConcat([Send(Done)], OnDone(st).ops);
    assert FailAndShutdown(st, id).ops == [Send(Done)] + OnDone(st).ops;
    assert DoneAndShutdown(st).ops == OnDone(st).ops;
    assert OnDone(st).ops == if st.closed then [] else [Send(Done), Close];
  }

  lemma ShapedSnoc(ms: seq<StreamFlow>, more: seq<StreamFlow>, end: seq<StreamFlow>)
    requires Shaped(ms) && NoDone(ms) && ms != []
    requires forall i :: 0 <= i < |more| ==> more[i].Data? || more[i].Cancel?
    requires forall i :: 0 <= i < |end| ==> end[i].Done?
    ensures Shaped(ms + (more + end)) && (end == [] ==> NoDone(ms + (more + end)))
    ensures Payload(ms + (more + end)) == Payload(ms) + Payload(more)
  {
    PayloadConcat(ms, more + end);
    PayloadConcat(more, end);
    NoPayload(end);
    var all := ms + (more + end);
    assert forall i :: 0 <= i < |all| ==>
      all[i] == if i < |ms| then ms[i] else if i < |ms| + |more| then more[i - |ms|] else end[i - |ms| - |more|];
  }

  lemma ProducingStep(p: Pipe, l: Label)
    requires Producing(p) && Enabled(p, l)
    ensures Producing(Apply(p, l))
  {
    match l {
      case Begin => ProducingBegin(p);
      case Poll => ProducingPoll(p);
      case ReadBody => ProducingRead(p);
      case _ =>
    }
  }

  lemma RefusalSends(id: StreamId)
    ensures SendsOf(FailAndShutdown(FRESH_ECHO, id).ops)
         == [Headers(TunnelHeaders(id, STATUS_BAD_GATEWAY, [], 0)), Done, Done]
  {
    var h := Headers(TunnelHeaders(id, STATUS_BAD_GATEWAY, [], 0));
    assert OnFail(FRESH_ECHO, id, STATUS_BAD_GATEWAY).ops == [Send(h), Send(Done)];
    SendsConcat([Send(h), Send(Done)], [Send(Done), Close]);
    assert SendsOf([Send(h), Send(Done)]) == [h, Done];
  }

  lemma ProducingFirst(p: Pipe, e: Effect, pc: Pc)
    requires Producing(p) && p.pc.Starting?
    requires SendsOf(e.ops) != [] && Shaped(SendsOf(e.ops))
    requires forall i :: 0 <= i < |SendsOf(e.ops)| ==> !SendsOf(e.ops)[i].Data?
    requires pc.Ended? || (pc.Polling? && NoDone(SendsOf(e.ops)) && p.job.Response? && e.st.headersSent)
    ensures Producing(Sends(p, e).(pc := pc))
  {
    NoPayload(SendsOf(e.ops));
    assert [] + SendsOf(e.ops) == SendsOf(e.ops);
    assert BytesRead(p) == [];
  }

  lemma ProducingBegin(p: Pipe)
    requires Producing(p) && Enabled(p, Begin)
    ensures Producing(Apply(p, Begin))
  {
    if p.job.Response? {
      assert SendsOf([Send(Headers(p.job.h))]) == [Headers(p.job.h)];
      ProducingFirst(p, OnHeaders(FRESH_ECHO, p.job.h), Polling);
    } else {
      RefusalSends(p.id);
      ProducingFirst(p, FailAndShutdown(FRESH_ECHO, p.id), Ended);
    }
  }

  lemma ProducingPoll(p: Pipe)
    requires Producing(p) && Enabled(p, Poll)
    ensures Producing(Apply(p, Poll))
  {
    var ms := SendsOf(Apply(p, Poll).ops);
    assert ms == [] || ms == [Cancel];
    ShapedSnoc(p.produced, ms, []);
    assert ms + [] == ms;
    NoPayload(ms);
  }

  lemma ProducingRead(p: Pipe)
    requires Producing(p) && Enabled(p, ReadBody)
    ensures Producing(Apply(p, ReadBody))
  {
    var r := p.job.turns[p.next];
    var data := AgentGrammar.DataMsg(r);
    ReadSends(p.st, p.id, r);
    BodySnoc(p.job.turns, p.next);
    ShapedSnoc(p.produced, data, EndMsgs(p.st.closed, r.err));
    assert Payload(data) == r.data;
  }

  /** A call closes the channel last, only if it was open, and after a Done or a Cancel. */
  ghost predicate ClosesWell(st: EchoState, e: Effect) {
    && (forall i :: 0 <= i < |e.ops| && e.ops[i].Close? ==> i == |e.ops| - 1 && !st.closed)
    && (e.st.closed <==> st.closed || ClosePending(e.ops))
    && (ClosePending(e.ops) ==> HasTerminal(SendsOf(e.ops)))
  }

  lemma HasTerminalIn(ms: seq<StreamFlow>, i: nat)
    requires i < |ms| && (ms[i].Done? || ms[i].Cancel?)
    ensures HasTerminal(ms)
  {
  }

  lemma DoneClosesWell(st: EchoState)
    ensures ClosesWell(st, OnDone(st)) && ClosesWell(st, OnCancel(st))
    ensures ClosesWell(st, DoneAndShutdown(st))
  {
    if !st.closed {
      assert SendsOf([Send(Done), Close]) == [Done];
      assert SendsOf([Send(Cancel), Close]) == [Cancel];
      HasTerminalIn([Done], 0);
      HasTerminalIn([Cancel], 0);
      assert [Send(Done), Close][1].Close?;
      assert [Send(Cancel), Close][1].Close?;
      assert DoneAndShutdown(st) == OnDone(st);
    }
  }

  /** More sends in front change nothing. */
  lemma ClosesWellAfter(st: EchoState, more: seq<ChanOp>, e: Effect)
    requires ClosesWell(st, e) && forall i :: 0 <= i < |more| ==> more[i].Send?
    ensures ClosesWell(st, Effect(e.st, more + e.ops))
  {
    var ops := more + e.ops;
    SendsConcat(more, e.ops);
    if ClosePending(ops) {
      var i :| 0 <= i < |ops| && ops[i].Close?;
      assert e.ops[i - |more|].Close?;
      var t :| 0 <= t < |SendsOf(e.ops)| && (SendsOf(e.ops)[t].Done? || SendsOf(e.ops)[t].Cancel?);
      HasTerminalIn(SendsOf(ops), |SendsOf(more)| + t);
    }
    if ClosePending(e.ops) {
      var i :| 0 <= i < |e.ops| && e.ops[i].Close?;
      assert ops[|more| + i].Close?;
    }
  }

  lemma FailClosesWell(st: EchoState, id: StreamId)
    ensures ClosesWell(st, FailAndShutdown(st, id))
  {
    DoneClosesWell(st);
    ClosesWellAfter(st, OnFail(st, id, STATUS_BAD_GATEWAY).ops, OnDone(st));
  }

  lemma ReadClosesWell(st: EchoState, id: StreamId, r: Read)
    ensures ClosesWell(st, OnRead(st, id, r))
  {
    DoneClosesWell(st);
    FailClosesWell(st, id);
    var end := match r.err
      case NoError => Effect(st, [])
      case Eof => DoneAndShutdown(st)
      case Broken => FailAndShutdown(st, id);
    ClosesWellAfter(st, if r.data == [] then [] else OnData(st, r.data).ops, end);
  }

  lemma ClosingSends(p: Pipe, e: Effect)
    requires Closing(p) && p.ops == [] && ClosesWell(p.st, e)
    ensures Closing(Sends(p, e))
  {
    var q := Sends(p, e);
    if HasTerminal(p.produced) {
      var t :| 0 <= t < |p.produced| && (p.produced[t].Done? || p.produced[t].Cancel?);
      HasTerminalIn(q.produced, t);
    }
    if ClosePending(e.ops) {
      var t :| 0 <= t < |SendsOf(e.ops)| && (SendsOf(e.ops)[t].Done? || SendsOf(e.ops)[t].Cancel?);
      HasTerminalIn(q.produced, |p.produced| + t);
    }
  }

  lemma ClosingStep(p: Pipe, l: Label)
    requires Fifo(p) && Producing(p) && Closing(p) && Linked(p) && Enabled(p, l)
    ensures Closing(Apply(p, l))
  {
    if l.Begin? {
      ClosingBegin(p);
    } else if l.Poll? {
      ClosingPoll(p);
    } else if l.ReadBody? {
      ClosingRead(p);
    } else if l.CloseChan? {
      ClosingClose(p);
    } else if l.HandOver? {
      ClosingPop(p);
    } else {
      ClosingElse(p, l);
    }
  }

  lemma ClosingBegin(p: Pipe)
    requires Producing(p) && Closing(p) && Enabled(p, Begin)
    ensures Closing(Apply(p, Begin))
  {
    FailClosesWell(p.st, p.id);
    ClosingSends(p, if p.job.Response? then OnHeaders(p.st, p.job.h) else FailAndShutdown(p.st, p.id));
  }

  lemma ClosingPoll(p: Pipe)
    requires Closing(p) && Enabled(p, Poll)
    ensures Closing(Apply(p, Poll))
  {
    DoneClosesWell(p.st);
    ClosingSends(p, OnPoll(p.st, p.job.turns[p.next]));
  }

  lemma ClosingRead(p: Pipe)
    requires Closing(p) && Enabled(p, ReadBody)
    ensures Closing(Apply(p, ReadBody))
  {
    ReadClosesWell(p.st, p.id, p.job.turns[p.next]);
    ClosingSends(p, OnRead(p.st, p.id, p.job.turns[p.next]));
  }

  lemma ClosingClose(p: Pipe)
    requires Fifo(p) && Closing(p) && Enabled(p, CloseChan)
    ensures Closing(Apply(p, CloseChan))
  {
    assert p.ops == [Close];
    assert p.ops[0].Close?;
    var sent := p.side.received + p.wire + p.lost + Held(p);
    assert SendsOf(p.ops) == [] && sent + [] == sent;
    var t :| 0 <= t < |p.produced| && (p.produced[t].Done? || p.produced[t].Cancel?);
    HasTerminalIn(sent, if Opened(p) then t + 1 else t);
  }

  lemma ClosingPop(p: Pipe)
    requires Closing(p) && Enabled(p, HandOver)
    ensures Closing(Apply(p, HandOver))
  {
    var q := Apply(p, HandOver);
    assert forall i :: 0 <= i < |q.ops| ==> q.ops[i] == p.ops[i + 1];
    if ClosePending(p.ops) {
      var i :| 0 <= i < |p.ops| && p.ops[i].Close?;
      assert q.ops[i - 1].Close?;
    }
  }

  lemma ClosingElse(p: Pipe, l: Label)
    requires Fifo(p) && Producing(p) && Closing(p) && Linked(p) && Enabled(p, l)
    requires !l.Begin? && !l.Poll? && !l.ReadBody? && !l.CloseChan? && !l.HandOver?
    ensures Closing(Apply(p, l))
  {
    var q := Apply(p, l);
    FifoStep(p, l);
    ProducerRests(p, l);
    if p.chanClosed {
      SentOnly(p, q);
    }
  }

  lemma ProducerRests(p: Pipe, l: Label)
    requires Enabled(p, l)
    requires !l.Begin? && !l.Poll? && !l.ReadBody? && !l.CloseChan? && !l.HandOver?
    ensures var q := Apply(p, l);
      && q.ops == p.ops && q.produced == p.produced && q.chanClosed == p.chanClosed && q.st == p.st && q.id == p.id
      && (Opened(p) ==> Opened(q))
  {
  }

  /** What has left the producer stays the same sequence while the producer rests. */
  lemma SentOnly(p: Pipe, q: Pipe)
    requires Fifo(p) && Fifo(q) && q.ops == p.ops && q.produced == p.produced && q.id == p.id
    requires Opened(p) ==> Opened(q)
    requires HasTerminal(p.side.received + p.wire + p.lost + Held(p))
    ensures HasTerminal(q.side.received + q.wire + q.lost + Held(q))
  {
    assert Opened(p);
    SameFront(p.side.received + p.wire + p.lost + Held(p), q.side.received + q.wire + q.lost + Held(q), SendsOf(p.ops));
  }

  lemma SameFront(a: seq<StreamFlow>, b: seq<StreamFlow>, end: seq<StreamFlow>)
    requires a + end == b + end
    ensures a == b
  {
    assert |a| == |b|;
    assert a == (a + end)[..|a|];
  }

  lemma LinkedStep(p: Pipe, l: Label)
    requires Inv(p) && Enabled(p, l)
    ensures Linked(Apply(p, l))
  {
    match l {
      case SeeClosed =>
        var sent := p.side.received + p.wire + p.lost + Held(p);
        if p.link.Up? && !p.side.receiver.Returned? {
          assert p.lost == [] && Held(p) == [];
          assert sent == p.side.received + p.wire;
        }
      case OnSide(c) => LinkedController(p, c);
      case _ =>
    }
  }

  /** A receive only moves the first message of the wire. */
  lemma ReceiveMoves(p: Pipe, c: Rsp.Label)
    requires Enabled(p, OnSide(c))
    ensures var q := Apply(p, OnSide(c));
      p.side.received + p.wire == q.side.received + q.wire
  {
    var q := Apply(p, OnSide(c));
    if (c.FirstEvent? || c.NextEvent?) && c.ev.Msg? {
      assert p.wire == [c.ev.msg] + q.wire;
      assert q.side.received == p.side.received + [c.ev.msg];
    } else {
      assert q.side.received == p.side.received;
    }
  }

  lemma LinkedController(p: Pipe, c: Rsp.Label)
    requires Linked(p) && Enabled(p, OnSide(c))
    ensures Linked(Apply(p, OnSide(c)))
  {
    ReceiveMoves(p, c);
  }

  /** The next message on the wire is the one the producer made next. */
  lemma NextOnWire(p: Pipe)
    requires Fifo(p) && p.wire != []
    ensures var n := |p.side.received|;
      if n == 0 then p.wire[0] == StreamID(p.id)
      else n - 1 < |p.produced| && p.wire[0] == p.produced[n - 1]
  {
    var n := |p.side.received|;
    var all := p.side.received + p.wire + p.lost + Held(p) + SendsOf(p.ops);
    assert all[n] == p.wire[0];
  }

  /** On end of stream a Done or a Cancel has always been received. */
  lemma NoEofBeforeEnd(p: Pipe)
    requires Linked(p) && Arrives(p, Ctl.Eof) && !p.side.receiver.Returned?
    ensures HasTerminal(p.side.received)
  {
    assert p.side.received + p.wire == p.side.received;
  }

  /** Only the steps of the controller side change it. */
  lemma SideOnly(p: Pipe, l: Label)
    requires Enabled(p, l)
    ensures l.OnSide? ==> Rsp.Enabled(p.side, l.l)
    ensures Apply(p, l).side == if l.OnSide? then Rsp.Apply(p.side, l.l) else p.side
  {
  }

  lemma TrackingStep(p: Pipe, l: Label)
    requires Inv(p) && Enabled(p, l)
    ensures Tracking(Apply(p, l).side)
  {
    SideOnly(p, l);
    if l.OnSide? {
      TrackingController(p, l.l);
    }
  }

  lemma TrackingController(p: Pipe, c: Rsp.Label)
    requires Inv(p) && Enabled(p, OnSide(c))
    ensures Tracking(Rsp.Apply(p.side, c))
  {
    if c.FirstEvent? {
      TrackingFirst(p, c.ev);
    } else if c.NextEvent? {
      TrackingNext(p, c.ev);
    } else if c.HandOff? {
      TrackingHandOff(p.side);
    } else {
      TrackingElse(p.side, c);
    }
  }

  lemma TrackingFirst(p: Pipe, ev: Ctl.Event)
    requires Fifo(p) && Tracking(p.side) && Enabled(p, OnSide(Rsp.FirstEvent(ev)))
    ensures Tracking(Rsp.Apply(p.side, Rsp.FirstEvent(ev)))
  {
    Rsp.OrderedStep(p.side, Rsp.FirstEvent(ev));
    assert [] + Rsp.Arrived(ev) == Rsp.Arrived(ev);
  }

  lemma TrackingHandOff(s: Rsp.Side)
    requires Tracking(s) && Accounted(s) && Rsp.Enabled(s, Rsp.HandOff)
    ensures Tracking(Rsp.Apply(s, Rsp.HandOff))
  {
    Rsp.OrderedStep(s, Rsp.HandOff);
  }

  lemma TrackingElse(s: Rsp.Side, l: Rsp.Label)
    requires Tracking(s) && Rsp.Enabled(s, l) && !l.FirstEvent? && !l.NextEvent? && !l.HandOff?
    ensures Tracking(Rsp.Apply(s, l))
  {
    Rsp.OrderedStep(s, l);
  }

  lemma TrackingNext(p: Pipe, ev: Ctl.Event)
    requires Fifo(p) && Producing(p) && Linked(p) && Tracking(p.side) && Enabled(p, OnSide(Rsp.NextEvent(ev)))
    ensures Tracking(Rsp.Apply(p.side, Rsp.NextEvent(ev)))
  {
    var s := p.side;
    var t := Rsp.Apply(s, Rsp.NextEvent(ev));
    Rsp.OrderedStep(s, Rsp.NextEvent(ev));
    match ev {
      case Msg(m) =>
        NextOnWire(p);
        assert t.received == s.received + [m];
        if !m.Done? && !m.Cancel? {
          assert !HasTerminal(t.received);
        }
      case Eof => NoEofBeforeEnd(p);
      case Lost(canceled) =>
        assert t.received == s.received;
    }
  }

  lemma AccountedStep(p: Pipe, l: Label)
    requires Inv(p) && Enabled(p, l)
    ensures Accounted(Apply(p, l).side)
  {
    SideOnly(p, l);
    if l.OnSide? {
      AccountedController(p, l.l);
    }
  }

  lemma AccountedController(p: Pipe, c: Rsp.Label)
    requires Inv(p) && Enabled(p, OnSide(c))
    ensures Accounted(Rsp.Apply(p.side, c))
  {
    if c.FirstEvent? {
      AccountedFirst(p, c.ev);
    } else if c.NextEvent? {
      AccountedNext(p, c.ev);
    } else if c.HandOff? {
      AccountedHandOff(p.side);
    } else if c.Write? {
      AccountedWrite(p.side, c.n, c.ok);
    } else {
      AccountedElse(p.side, c);
    }
  }

  lemma AccountedElse(s: Rsp.Side, l: Rsp.Label)
    requires Accounted(s) && Rsp.Enabled(s, l)
    requires l.Unregister? || l.ClientGone? || l.FlushStart? || l.FlushHandOff? || l.FlushMark?
    ensures Accounted(Rsp.Apply(s, l))
  {
  }

  lemma AccountedFirst(p: Pipe, ev: Ctl.Event)
    requires Fifo(p) && Tracking(p.side) && Accounted(p.side) && Enabled(p, OnSide(Rsp.FirstEvent(ev)))
    ensures Accounted(Rsp.Apply(p.side, Rsp.FirstEvent(ev)))
  {
    if ev.Msg? {
      NextOnWire(p);
    }
    assert [] + Rsp.Arrived(ev) == Rsp.Arrived(ev);
    NoPayload(Rsp.Arrived(ev));
  }

  /** A chunk is dropped only by a flushed stream, whose writer has returned. */
  lemma ReceivedChunk(p: Pipe, ev: Ctl.Event)
    requires Inv(p) && Enabled(p, OnSide(Rsp.NextEvent(ev)))
    ensures ev.Msg? && ev.msg.Data? && !p.side.phase.AwaitData? ==> p.side.writer.Finished?
  {
    if ev.Msg? {
      NextOnWire(p);
    }
  }

  lemma ReceivedGoes(s: Rsp.Side, ev: Ctl.Event)
    ensures var t := Rsp.Receive(s, ev);
      t.discarded + AtReceiver(t) == s.discarded + (if ev.Msg? && ev.msg.Data? then ev.msg.data else [])
  {
  }

  lemma AppendAtStations(written: Bytes, d: Bytes, w: Bytes, data: Bytes, d': Bytes, r': Bytes)
    requires d' + r' == d + data
    requires w == [] || d == d' == []
    ensures written + d + w + [] + data == written + d' + w + r'
  {
    if w == [] {
      assert written + d + w + [] == written + d && written + d' + w == written + d';
      assert written + d + data == written + (d + data);
      assert written + d' + r' == written + (d' + r');
    } else {
      assert [] + r' == r' && [] + data == data;
    }
  }

  lemma AccountedNext(p: Pipe, ev: Ctl.Event)
    requires Inv(p) && Enabled(p, OnSide(Rsp.NextEvent(ev)))
    ensures Accounted(Rsp.Apply(p.side, Rsp.NextEvent(ev)))
  {
    var s := p.side;
    var t := Rsp.Receive(s, ev);
    var data := if ev.Msg? && ev.msg.Data? then ev.msg.data else [];
    ReceivedChunk(p, ev);
    ReceivedGoes(s, ev);
    ReceivedPayload(s, ev);
    AppendAtStations(Written(s.out), s.discarded, AtWriter(s), data, t.discarded, AtReceiver(t));
  }

  lemma ReceivedPayload(s: Rsp.Side, ev: Ctl.Event)
    ensures Payload(Rsp.Receive(s, ev).received)
         == Payload(s.received) + (if ev.Msg? && ev.msg.Data? then ev.msg.data else [])
  {
    if ev.Msg? {
      PayloadSnoc(s.received, ev.msg);
    } else {
      assert s.received + [] == s.received;
    }
  }

  lemma AccountedHandOff(s: Rsp.Side)
    requires Tracking(s) && Accounted(s) && Rsp.Enabled(s, Rsp.HandOff)
    ensures Accounted(Rsp.Apply(s, Rsp.HandOff))
  {
    var t := Rsp.Apply(s, Rsp.HandOff);
    if t.out != s.out {
      WrittenSnoc(s.out, t.out[|s.out|]);
    }
  }

  lemma AccountedWrite(s: Rsp.Side, n: nat, ok: bool)
    requires Tracking(s) && Accounted(s) && Rsp.Enabled(s, Rsp.Write(n, ok))
    ensures Accounted(Rsp.Apply(s, Rsp.Write(n, ok)))
  {
    var t := Rsp.Apply(s, Rsp.Write(n, ok));
    var chunk := s.writer.chunk;
    WrittenSnoc(s.out, Rsp.Body(chunk[..n]));
    assert s.discarded == [] && AtWriter(t) == [];
    assert Written(t.out) + t.discarded == Written(s.out) + chunk;
    assert Written(s.out) + [] + chunk == Written(s.out) + chunk;
    assert Written(t.out) + t.discarded + [] == Written(t.out) + t.discarded;
  }

  lemma InvStart(id: StreamId, job: Job)
    ensures Inv(Start(id, job))
  {
  }

  lemma InvStep(p: Pipe, l: Label)
    requires Inv(p) && Enabled(p, l)
    ensures Inv(Apply(p, l))
  {
    FifoStep(p, l);
    ProducingStep(p, l);
    ClosingStep(p, l);
    LinkedStep(p, l);
    TrackingStep(p, l);
    AccountedStep(p, l);
  }

  lemma {:induction false} InvRun(p: Pipe, ls: seq<Label>, q: Pipe)
    requires Inv(p) && Run(p, ls, q)
    ensures Inv(q)
    decreases |ls|
  {
    if ls != [] {
      InvStep(p, ls[0]);
      InvRun(Apply(p, ls[0]), ls[1..], q);
    }
  }
}
