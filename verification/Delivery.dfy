/** What every run of the pipeline delivers to the HTTP client. */
module Delivery {
  import opened Tunnel
  import opened AgentChannel
  import opened AgentGrammar
  import Ctl = ControllerEcho
  import Rsp = Response
  import opened Pipeline

  // ------------------------------------------------------------------------
  // Conservation
  // ------------------------------------------------------------------------

  /** The body bytes still on their way, from the writer back to the producer. */
  function InFlight(p: Pipe): Bytes {
    AtWriter(p.side) + AtReceiver(p.side)
    + Payload(p.wire) + Payload(p.lost) + Payload(Held(p)) + Payload(SendsOf(p.ops))
  }

  lemma StationsPayload(p: Pipe)
    requires Fifo(p)
    ensures Payload(p.side.received) + Payload(p.wire) + Payload(p.lost) + Payload(Held(p)) + Payload(SendsOf(p.ops))
         == Payload(p.produced)
  {
    PayloadConcat(p.side.received, p.wire);
    PayloadConcat(p.side.received + p.wire, p.lost);
    PayloadConcat(p.side.received + p.wire + p.lost, Held(p));
    PayloadConcat(p.side.received + p.wire + p.lost + Held(p), SendsOf(p.ops));
    PayloadConcat([StreamID(p.id)], p.produced);
    NoPayload([StreamID(p.id)]);
    assert [] + p.produced == p.produced && [] + Payload(p.produced) == Payload(p.produced);
  }

  /**
    In every interleaving and under every fault, the bytes read from the upstream body are, in order, the
    bytes written to the client, those the controller discarded, and those at each station on the way.
    So what the client has is always a prefix of what was read.
   */
  lemma Conservation(id: StreamId, job: Job, ls: seq<Label>, p: Pipe)
    requires Run(Start(id, job), ls, p)
    ensures Inv(p)
    ensures Written(p.side.out) + p.side.discarded + InFlight(p) == BytesRead(p)
    ensures Written(p.side.out) <= BytesRead(p)
  {
    InvStart(id, job);
    InvRun(Start(id, job), ls, p);
    StationsPayload(p);
    Regroup(Written(p.side.out), p.side.discarded, AtWriter(p.side), AtReceiver(p.side),
            Payload(p.wire), Payload(p.lost), Payload(Held(p)), Payload(SendsOf(p.ops)));
  }

  lemma Regroup(w: Bytes, d: Bytes, a: Bytes, b: Bytes, c: Bytes, e: Bytes, f: Bytes, g: Bytes)
    ensures w + d + a + b + c + e + f + g == w + d + (a + b + c + e + f + g)
    ensures w <= w + d + (a + b + c + e + f + g)
  {
    assert w + d + a + b + c + e + f + g == w + d + (a + b + c + e + f + g);
  }

  // ------------------------------------------------------------------------
  // A response that ends by Done is complete
  // ------------------------------------------------------------------------

  /** The headers a job answers with. */
  function Answer(id: StreamId, job: Job): TunnelHeaders {
    if job.Response? then job.h else TunnelHeaders(id, STATUS_BAD_GATEWAY, [], 0)
  }

  /** Where the read loop is: it passes only turns without an error, and a Done is made after the last. */
  ghost predicate LoopAt(p: Pipe) {
    && (p.produced != [] ==> p.produced[0] == Headers(Answer(p.id, p.job)))
    && (p.job.Response? ==>
      && p.next <= |p.job.turns|
      && (forall i :: 0 <= i < p.next - 1 ==> p.job.turns[i].err.NoError?)
      && (p.pc.Starting? ==> p.next == 0)
      && (p.pc.Polling? || p.pc.Reading? ==> forall i :: 0 <= i < p.next ==> p.job.turns[i].err.NoError?)
      && (p.pc.Ended? ==> p.next >= 1 && !p.job.turns[p.next - 1].err.NoError?)
      && (!NoDone(p.produced) ==> p.next >= 1 && !p.job.turns[p.next - 1].err.NoError?))
  }

  lemma LoopAtStep(p: Pipe, l: Label)
    requires Producing(p) && LoopAt(p) && Enabled(p, l)
    ensures LoopAt(Apply(p, l))
  {
    if l.Begin? {
      LoopAtBegin(p);
    } else if l.Poll? {
      LoopAtPoll(p);
    } else if l.ReadBody? {
      LoopAtRead(p);
    } else {
      LoopAtElse(p, l);
    }
  }

  lemma LoopAtBegin(p: Pipe)
    requires Producing(p) && LoopAt(p) && Enabled(p, Begin)
    ensures LoopAt(Apply(p, Begin))
  {
    RefusalSends(p.id);
    if p.job.Response? {
      assert SendsOf(OnHeaders(p.st, p.job.h).ops) == [Headers(p.job.h)];
    }
  }

  lemma LoopAtPoll(p: Pipe)
    requires Producing(p) && LoopAt(p) && Enabled(p, Poll)
    ensures LoopAt(Apply(p, Poll))
  {
    ProducingPoll(p);
  }

  lemma LoopAtRead(p: Pipe)
    requires Producing(p) && LoopAt(p) && Enabled(p, ReadBody)
    ensures LoopAt(Apply(p, ReadBody))
  {
    ProducingRead(p);
  }

  lemma LoopAtElse(p: Pipe, l: Label)
    requires LoopAt(p) && Enabled(p, l) && !l.Begin? && !l.Poll? && !l.ReadBody?
    ensures LoopAt(Apply(p, l))
  {
    var q := Apply(p, l);
    assert q.produced == p.produced && q.next == p.next && q.job == p.job && q.id == p.id;
    assert q.pc == p.pc || q.pc.Panicked?;
  }

  lemma {:induction false} LoopAtRun(p: Pipe, ls: seq<Label>, q: Pipe)
    requires Inv(p) && LoopAt(p) && Run(p, ls, q)
    ensures LoopAt(q)
    decreases |ls|
  {
    if ls != [] {
      InvStep(p, ls[0]);
      LoopAtStep(p, ls[0]);
      LoopAtRun(Apply(p, ls[0]), ls[1..], q);
    }
  }

  lemma {:induction false} ReachedIs(turns: seq<Read>, n: nat)
    requires 1 <= n <= |turns| && !turns[n - 1].err.NoError?
    requires forall i :: 0 <= i < n - 1 ==> turns[i].err.NoError?
    ensures Reached(turns) == turns[..n]
    decreases n
  {
    if n > 1 {
      ReachedIs(turns[1..], n - 1);
      assert turns[..n] == [turns[0]] + turns[1..][..n - 1];
    }
  }

  /** The bytes a job reads, up to the end of the body or to the read that fails. */
  function Fetched(job: Job): Bytes {
    if job.Response? then BodyOf(Reached(job.turns)) else []
  }

  /** After a Done only Done follows, so what has not been received by then is nothing but Done. */
  lemma NothingAfterDone(p: Pipe) returns (rest: seq<StreamFlow>)
    requires Fifo(p) && Shaped(p.produced)
    requires p.side.received != [] && p.side.received[|p.side.received| - 1].Done?
    ensures p.side.received + rest == [StreamID(p.id)] + p.produced && !NoDone(p.produced)
    ensures forall i :: 0 <= i < |rest| ==> rest[i].Done?
  {
    assert Opened(p);
    var r := p.side.received;
    rest := p.wire + p.lost + Held(p) + SendsOf(p.ops);
    assert r + p.wire + p.lost + Held(p) + SendsOf(p.ops) == r + rest;
    DoneComesLast(p.id, p.produced, r, rest);
  }

  lemma DoneComesLast(id: StreamId, produced: seq<StreamFlow>, r: seq<StreamFlow>, rest: seq<StreamFlow>)
    requires Shaped(produced) && r + rest == [StreamID(id)] + produced
    requires r != [] && r[|r| - 1].Done?
    ensures !NoDone(produced) && forall i :: 0 <= i < |rest| ==> rest[i].Done?
  {
    var all := r + rest;
    var n := |r|;
    assert all[0] == StreamID(id) && all[n - 1] == r[n - 1];
    assert produced[n - 2] == all[n - 1];
    forall i | 0 <= i < |rest| ensures rest[i].Done? {
      assert rest[i] == all[n + i] == produced[n + i - 1];
    }
  }

  /** So it has carried everything. */
  lemma EverythingCarried(id: StreamId, produced: seq<StreamFlow>, r: seq<StreamFlow>, rest: seq<StreamFlow>)
    requires r + rest == [StreamID(id)] + produced && forall i :: 0 <= i < |rest| ==> rest[i].Done?
    ensures Payload(r) == Payload(produced)
  {
    NoPayload(rest);
    PayloadConcat(r, rest);
    PayloadConcat([StreamID(id)], produced);
    NoPayload([StreamID(id)]);
    assert Payload(r) + [] == Payload(r) && [] + Payload(produced) == Payload(produced);
  }

  /**
    If runEcho returns because of a Done message the client has the status and headers the agent answered
    with and every byte it read of the upstream body: nothing was discarded, nothing is on its way, and the
    producer has read up to the end of the body or to the read that failed.
   */
  lemma DoneMeansComplete(id: StreamId, job: Job, ls: seq<Label>, p: Pipe)
    requires Run(Start(id, job), ls, p) && p.side.writer == Rsp.Finished(Rsp.ByDone)
    ensures Inv(p) && Written(p.side.out) == BytesRead(p) == Fetched(job)
    ensures p.side.headersSent && p.side.out != []
    ensures p.side.out[0] == Rsp.WriteHeader(Answer(id, job).statusCode, Answer(id, job).headers)
  {
    RunInvariants(id, job, ls, p);
    DoneIsComplete(p);
  }

  lemma RunInvariants(id: StreamId, job: Job, ls: seq<Label>, p: Pipe)
    requires Run(Start(id, job), ls, p)
    ensures Inv(p) && LoopAt(p) && p.job == job && p.id == id
  {
    InvStart(id, job);
    InvRun(Start(id, job), ls, p);
    LoopAtRun(Start(id, job), ls, p);
    JobFixed(Start(id, job), ls, p);
  }

  lemma DoneIsComplete(p: Pipe)
    requires Inv(p) && LoopAt(p) && p.side.writer == Rsp.Finished(Rsp.ByDone)
    ensures Written(p.side.out) == BytesRead(p) == Fetched(p.job)
    ensures p.side.headersSent && p.side.out != []
    ensures p.side.out[0] == Rsp.WriteHeader(Answer(p.id, p.job).statusCode, Answer(p.id, p.job).headers)
  {
    DoneState(p);
    var rest := NothingAfterDone(p);
    EverythingCarried(p.id, p.produced, p.side.received, rest);
    ReadToTheEnd(p);
  }

  lemma ReadToTheEnd(p: Pipe)
    requires Producing(p) && LoopAt(p) && !NoDone(p.produced)
    ensures BytesRead(p) == Fetched(p.job)
  {
    if p.job.Response? {
      ReachedIs(p.job.turns, p.next);
    }
  }

  lemma DoneState(p: Pipe)
    requires Inv(p) && p.side.writer == Rsp.Finished(Rsp.ByDone)
    ensures Written(p.side.out) == Payload(p.side.received)
    ensures p.side.out != [] && p.produced != [] && p.produced[0].Headers?
    ensures p.side.out[0] == Rsp.WriteHeader(p.produced[0].h.statusCode, p.produced[0].h.headers)
  {
    var s := p.side;
    FirstHeaders(p);
    assert AtWriter(s) == [] && AtReceiver(s) == [] && s.discarded == [];
    assert Written(s.out) + [] + [] + [] == Written(s.out);
  }

  lemma {:induction false} JobFixed(p: Pipe, ls: seq<Label>, q: Pipe)
    requires Run(p, ls, q)
    ensures q.job == p.job && q.id == p.id
    decreases |ls|
  {
    if ls != [] {
      JobFixed(Apply(p, ls[0]), ls[1..], q);
    }
  }

  lemma FirstHeaders(p: Pipe)
    requires Fifo(p) && |p.side.received| >= 2
    ensures p.produced != [] && p.side.received[1] == p.produced[0]
  {
    var all := p.side.received + p.wire + p.lost + Held(p) + SendsOf(p.ops);
    assert all[1] == p.side.received[1];
    assert Opened(p);
  }

  // ------------------------------------------------------------------------
  // The two state machines agree
  // ------------------------------------------------------------------------

  /**
    The receive loop ignores the programmer errors of ServerEcho. On what an agent sends, a message meets
    one exactly when a flush of the stream has completed and the message is not a Cancel; in particular a
    Done always reaches the writer of a stream that has not been flushed. End of stream is never met here.
   */
  lemma DropsExactlyAfterFlush(id: StreamId, job: Job, ls: seq<Label>, p: Pipe, m: StreamFlow)
    requires Run(Start(id, job), ls, p) && p.side.receiver.Receiving?
    ensures Arrives(p, Ctl.Msg(m)) ==>
      (Ctl.React(p.side.phase, Ctl.Msg(m)).offer.None? <==> p.side.flush.Flushed? && !m.Cancel?)
    ensures !Arrives(p, Ctl.Eof)
  {
    InvStart(id, job);
    InvRun(Start(id, job), ls, p);
    if Arrives(p, Ctl.Msg(m)) {
      NextOnWire(p);
    }
    if Arrives(p, Ctl.Eof) {
      NoEofBeforeEnd(p);
    }
  }

  // ------------------------------------------------------------------------
  // The producer of the pipeline is the code that drives AgentEcho
  // ------------------------------------------------------------------------

  /** The channel operations still ahead of the producer, beyond those it has begun. */
  function Remaining(p: Pipe): seq<ChanOp>
    requires p.job.Response? ==> p.next <= |p.job.turns|
  {
    match p.pc
    case Starting => Dispatched(p.id, p.job).ops
    case Polling => if p.job.Response? then ReadLoop(p.st, p.id, p.job.turns[p.next..]).ops else []
    case Reading =>
      if p.job.Response? && p.next < |p.job.turns| then AfterPoll(p.st, p.id, p.job.turns[p.next..]) else []
    case _ => []
  }

  /** The read loop from between the look at the context and the read. */
  function AfterPoll(st: EchoState, id: StreamId, turns: seq<Read>): seq<ChanOp>
    requires turns != []
  {
    var turn := OnRead(st, id, turns[0]);
    turn.ops + if turns[0].err.NoError? then ReadLoop(turn.st, id, turns[1..]).ops else []
  }

  ghost predicate Follows(p: Pipe) {
    && (p.job.Response? ==> p.next <= |p.job.turns|)
    && p.produced <= SendsOf(Dispatched(p.id, p.job).ops)
    && (!p.pc.Panicked? ==> p.produced + SendsOf(Remaining(p)) == SendsOf(Dispatched(p.id, p.job).ops))
  }

  lemma TurnInTwo(st: EchoState, id: StreamId, r: Read)
    ensures var poll := OnPoll(st, r);
      && OnTurn(st, id, r).ops == poll.ops + OnRead(poll.st, id, r).ops
      && OnTurn(st, id, r).st == OnRead(poll.st, id, r).st
  {
  }

  lemma LoopEnds(st: EchoState, id: StreamId, turns: seq<Read>)
    requires turns != [] && !turns[0].err.NoError?
    ensures ReadLoop(st, id, turns).ops == OnTurn(st, id, turns[0]).ops
  {
  }

  lemma LoopFromPoll(st: EchoState, id: StreamId, turns: seq<Read>)
    requires turns != []
    ensures var poll := OnPoll(st, turns[0]);
      ReadLoop(st, id, turns).ops == poll.ops + AfterPoll(poll.st, id, turns)
  {
    var poll := OnPoll(st, turns[0]);
    var turn := OnRead(poll.st, id, turns[0]);
    TurnInTwo(st, id, turns[0]);
    if turns[0].err.NoError? {
      LoopStep(st, id, turns);
      Associate(poll.ops, turn.ops, ReadLoop(turn.st, id, turns[1..]).ops);
    } else {
      LoopEnds(st, id, turns);
      assert turn.ops + [] == turn.ops;
    }
  }

  lemma FollowsSends(p: Pipe, e: Effect, rest: seq<ChanOp>)
    requires Follows(p) && !p.pc.Panicked? && Remaining(p) == e.ops + rest
    ensures Sends(p, e).produced + SendsOf(rest) == SendsOf(Dispatched(p.id, p.job).ops)
    ensures Sends(p, e).produced <= SendsOf(Dispatched(p.id, p.job).ops)
  {
    SendsConcat(e.ops, rest);
    Associate(p.produced, SendsOf(e.ops), SendsOf(rest));
  }

  lemma FollowsStep(p: Pipe, l: Label)
    requires Producing(p) && Follows(p) && Enabled(p, l)
    ensures Follows(Apply(p, l))
  {
    if l.Begin? {
      FollowsBegin(p);
    } else if l.Poll? {
      FollowsPoll(p);
    } else if l.ReadBody? {
      FollowsRead(p);
    } else {
      FollowsElse(p, l);
    }
  }

  lemma FollowsElse(p: Pipe, l: Label)
    requires Follows(p) && Enabled(p, l) && !l.Begin? && !l.Poll? && !l.ReadBody?
    ensures Follows(Apply(p, l))
  {
    var q := Apply(p, l);
    assert q.produced == p.produced && q.next == p.next && q.job == p.job && q.id == p.id && q.st == p.st;
    assert q.pc == p.pc || q.pc.Panicked?;
  }

  lemma FollowsBegin(p: Pipe)
    requires Producing(p) && Follows(p) && Enabled(p, Begin)
    ensures Follows(Apply(p, Begin))
  {
    if p.job.Response? {
      var first := OnHeaders(FRESH_ECHO, p.job.h);
      assert p.job.turns[0..] == p.job.turns;
      FollowsSends(p, first, ReadLoop(first.st, p.id, p.job.turns).ops);
    } else {
      var e := FailAndShutdown(FRESH_ECHO, p.id);
      assert e.ops + [] == e.ops;
      FollowsSends(p, e, []);
    }
  }

  lemma FollowsPoll(p: Pipe)
    requires Producing(p) && Follows(p) && Enabled(p, Poll)
    ensures Follows(Apply(p, Poll))
  {
    var turns := p.job.turns[p.next..];
    LoopFromPoll(p.st, p.id, turns);
    var poll := OnPoll(p.st, turns[0]);
    FollowsSends(p, poll, AfterPoll(poll.st, p.id, turns));
  }

  lemma FollowsRead(p: Pipe)
    requires Follows(p) && Enabled(p, ReadBody)
    ensures Follows(Apply(p, ReadBody))
  {
    var turn := OnRead(p.st, p.id, p.job.turns[p.next]);
    RemainingRead(p);
    FollowsSends(p, turn, AfterRead(p));
    RemainingAfterRead(p);
  }

  /** The channel operations ahead once the read has returned and its own are done. */
  function AfterRead(p: Pipe): seq<ChanOp>
    requires p.job.Response? && p.next < |p.job.turns|
  {
    var r := p.job.turns[p.next];
    if r.err.NoError? then ReadLoop(OnRead(p.st, p.id, r).st, p.id, p.job.turns[p.next + 1..]).ops else []
  }

  lemma RemainingAfterRead(p: Pipe)
    requires Enabled(p, ReadBody)
    ensures Remaining(Apply(p, ReadBody)) == AfterRead(p)
    ensures Apply(p, ReadBody).produced == Sends(p, OnRead(p.st, p.id, p.job.turns[p.next])).produced
  {
    var r := p.job.turns[p.next];
    var turn := OnRead(p.st, p.id, r);
    var q := Sends(p, turn).(next := p.next + 1, pc := if r.err.NoError? then Polling else Ended);
    assert Apply(p, ReadBody) == q;
    assert q.st == turn.st && q.job == p.job;
  }

  lemma RemainingRead(p: Pipe)
    requires p.pc.Reading? && p.job.Response? && p.next < |p.job.turns|
    ensures Remaining(p) == OnRead(p.st, p.id, p.job.turns[p.next]).ops + AfterRead(p)
  {
    var turns := p.job.turns[p.next..];
    assert turns[0] == p.job.turns[p.next] && turns[1..] == p.job.turns[p.next + 1..];
  }

  lemma {:induction false} FollowsRun(p: Pipe, ls: seq<Label>, q: Pipe)
    requires Producing(p) && Follows(p) && Run(p, ls, q)
    ensures Follows(q)
    decreases |ls|
  {
    if ls != [] {
      ProducingStep(p, ls[0]);
      FollowsStep(p, ls[0]);
      FollowsRun(Apply(p, ls[0]), ls[1..], q);
    }
  }

  /** In every run the producer makes a prefix of what `AgentChannel.Dispatch` makes AgentEcho send, in its order. */
  lemma ProducerFollowsDispatch(id: StreamId, job: Job, ls: seq<Label>, p: Pipe)
    requires Run(Start(id, job), ls, p)
    ensures p.produced <= SendsOf(Dispatched(id, job).ops)
    ensures p.pc.Ended? ==> p.produced == SendsOf(Dispatched(id, job).ops)
  {
    JobFixed(Start(id, job), ls, p);
    FollowsRun(Start(id, job), ls, p);
  }

  /** The receiver sees the stream ID and then what AgentEcho sends, in order and without gaps, as far as it gets. */
  lemma ReceivedInOrder(id: StreamId, job: Job, ls: seq<Label>, p: Pipe)
    requires Run(Start(id, job), ls, p)
    ensures p.side.received <= [StreamID(id)] + SendsOf(Dispatched(id, job).ops)
    ensures p.side.received + p.wire <= [StreamID(id)] + SendsOf(Dispatched(id, job).ops)
  {
    InvStart(id, job);
    InvRun(Start(id, job), ls, p);
    JobFixed(Start(id, job), ls, p);
    ProducerFollowsDispatch(id, job, ls, p);
    ReceivedFollows(p, SendsOf(Dispatched(id, job).ops));
  }

  lemma ReceivedFollows(p: Pipe, sent: seq<StreamFlow>)
    requires Fifo(p) && p.produced <= sent
    ensures p.side.received <= [StreamID(p.id)] + sent
    ensures p.side.received + p.wire <= [StreamID(p.id)] + sent
  {
    if Opened(p) {
      var front := p.side.received + p.wire;
      Associate(front, p.lost, Held(p));
      Associate(front, p.lost + Held(p), SendsOf(p.ops));
      PrefixThrough(front, p.lost + Held(p) + SendsOf(p.ops), [StreamID(p.id)] + p.produced, [StreamID(p.id)] + sent);
    }
  }

  lemma PrefixThrough(front: seq<StreamFlow>, back: seq<StreamFlow>, all: seq<StreamFlow>, more: seq<StreamFlow>)
    requires front + back == all && all <= more
    ensures front <= more
  {
    assert front == all[..|front|];
  }
}
