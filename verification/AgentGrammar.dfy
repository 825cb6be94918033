/** What every dispatched request puts on its channel, whatever the request, the endpoint and the body. */
module AgentGrammar {
  import opened Tunnel
  import opened AgentChannel

  /** The turns the read loop reaches: it stops at the first read that reports an error. */
  function Reached(turns: seq<Read>): (r: seq<Read>)
    ensures r <= turns
    ensures forall i :: 0 <= i < |r| - 1 ==> r[i].err.NoError?
    ensures |r| < |turns| ==> r != [] && !r[|r| - 1].err.NoError?
    decreases |turns|
  {
    if turns == [] then []
    else if turns[0].err.NoError? then [turns[0]] + Reached(turns[1..])
    else [turns[0]]
  }

  predicate Ends(turns: seq<Read>) {
    var r := Reached(turns);
    r != [] && !r[|r| - 1].err.NoError?
  }

  /** The index of the first turn that finds the context cancelled; the length if none does. */
  function FirstCancelled(turns: seq<Read>): (c: nat)
    ensures c <= |turns|
    ensures forall i :: 0 <= i < c ==> !turns[i].cancelled
    ensures c < |turns| ==> turns[c].cancelled
    decreases |turns|
  {
    if turns == [] || turns[0].cancelled then 0 else 1 + FirstCancelled(turns[1..])
  }

  function DataMsg(r: Read): seq<StreamFlow> {
    if r.data == [] then [] else [Data(r.data)]
  }

  /** The Data messages of some turns: one for every read that returned bytes. */
  function DataMsgs(turns: seq<Read>): (ms: seq<StreamFlow>)
    ensures forall i :: 0 <= i < |ms| ==> ms[i].Data? && 1 <= |ms[i].data| <= BUFFER_SIZE
    decreases |turns|
  {
    if turns == [] then []
    else DataMsg(turns[0]) + DataMsgs(turns[1..])
  }

  /** The bytes some turns read. */
  function BodyOf(turns: seq<Read>): Bytes
    decreases |turns|
  {
    if turns == [] then [] else turns[0].data + BodyOf(turns[1..])
  }

  function SendAll(msgs: seq<StreamFlow>): (ops: seq<ChanOp>)
    ensures |ops| == |msgs| && forall i :: 0 <= i < |ops| ==> ops[i] == Send(msgs[i])
  {
    if msgs == [] then [] else [Send(msgs[0])] + SendAll(msgs[1..])
  }

  /** The messages that end a body, by the error of its last read. */
  function LastMsgs(r: seq<Read>): seq<StreamFlow>
    requires r != []
  {
    if r[|r| - 1].err.Eof? then [Done] else [Done, Done]
  }

  /** There was an upstream response, and its last read met the end of the body. */
  predicate EndsByEof(job: Job) {
    job.Response? && var r := Reached(job.turns); r != [] && r[|r| - 1].err.Eof?
  }

  /** The messages of a request that is never cancelled. */
  function Transcript(id: StreamId, job: Job): seq<StreamFlow>
    requires !job.Unconfigured? && (job.Response? ==> Ends(job.turns))
  {
    match job
    case Response(h, turns) =>
      var r := Reached(turns);
      [Headers(h)] + DataMsgs(r) + LastMsgs(r)
    case _ => [Headers(TunnelHeaders(id, STATUS_BAD_GATEWAY, [], 0)), Done, Done]
  }

  /** One Headers, then Data messages of at least one byte, then one or two Done. */
  ghost predicate Grammatical(msgs: seq<StreamFlow>) {
    exists d {:trigger msgs[..d]} :: 1 <= d < |msgs| <= d + 2
      && msgs[0].Headers?
      && (forall i :: 1 <= i < d ==> msgs[i].Data? && 1 <= |msgs[i].data| <= 10240)
      && (forall i :: d <= i < |msgs| ==> msgs[i].Done?)
  }

  // ------------------------------------------------------------------------

  lemma SendAllConcat(a: seq<StreamFlow>, b: seq<StreamFlow>)
    ensures SendAll(a + b) == SendAll(a) + SendAll(b)
  {
  }

  lemma {:induction false} SendsOfSendAll(msgs: seq<StreamFlow>)
    ensures SendsOf(SendAll(msgs)) == msgs
  {
    if msgs != [] {
      SendsOfSendAll(msgs[1..]);
    }
  }

  lemma SendAllThenClose(sent: seq<StreamFlow>, msgs: seq<StreamFlow>)
    ensures Execute(Chan(sent, false), SendAll(msgs)) == Executed(Chan(sent + msgs, false), false)
    ensures Execute(Chan(sent, false), SendAll(msgs) + [Close]) == Executed(Chan(sent + msgs, true), false)
  {
    ExecuteConcat(Chan(sent, false), SendAll(msgs), [Close]);
    ExecuteSends(Chan(sent, false), SendAll(msgs));
    SendsOfSendAll(msgs);
  }

  lemma {:induction false} LoopIgnoresUnreached(st: EchoState, id: StreamId, turns: seq<Read>)
    ensures ReadLoop(st, id, turns) == ReadLoop(st, id, Reached(turns))
    decreases |turns|
  {
    if turns != [] {
      var r := Reached(turns);
      if turns[0].err.NoError? {
        LoopIgnoresUnreached(OnTurn(st, id, turns[0]).st, id, turns[1..]);
        assert r[1..] == Reached(turns[1..]);
      } else {
        assert r[1..] == [];
      }
    }
  }

  /** The operations that end the loop, by the error of its last read. */
  function Ending(err: ReadError): seq<ChanOp> {
    match err
    case NoError => []
    case Eof => [Send(Done), Close]
    case Broken => [Send(Done), Send(Done), Close]
  }

  lemma UncancelledTurn(id: StreamId, r: Read)
    requires !r.cancelled
    ensures OnTurn(EchoState(true, false), id, r)
         == Effect(EchoState(true, !r.err.NoError?), SendAll(DataMsg(r)) + Ending(r.err))
  {
    var st := EchoState(true, false);
    assert OnTurn(st, id, r).ops == OnRead(st, id, r).ops;
    assert SendAll(DataMsg(r)) == if r.data == [] then [] else [Send(Data(r.data))];
    match r.err {
      case NoError =>
      case Eof => assert DoneAndShutdown(st).ops == Ending(Eof);
      case Broken => assert FailAndShutdown(st, id).ops == Ending(Broken);
    }
  }

  /** A turn that does not end the loop: its own operations, then those of the turns after it. */
  lemma LoopStep(st: EchoState, id: StreamId, r: seq<Read>)
    requires r != [] && r[0].err.NoError?
    ensures var turn := OnTurn(st, id, r[0]);
            ReadLoop(st, id, r).ops == turn.ops + ReadLoop(turn.st, id, r[1..]).ops
  {
  }

  lemma {:induction false} UncancelledLoop(id: StreamId, r: seq<Read>)
    requires r != [] && forall i :: 0 <= i < |r| - 1 ==> r[i].err.NoError?
    requires forall i :: 0 <= i < |r| ==> !r[i].cancelled
    ensures ReadLoop(EchoState(true, false), id, r).ops
         == SendAll(DataMsgs(r)) + Ending(r[|r| - 1].err)
    decreases |r|
  {
    var st := EchoState(true, false);
    UncancelledTurn(id, r[0]);
    SendAllConcat(DataMsg(r[0]), DataMsgs(r[1..]));
    if |r| > 1 {
      UncancelledLoop(id, r[1..]);
      LoopStep(st, id, r);
      Reassociate(SendAll(DataMsg(r[0])), SendAll(DataMsgs(r[1..])), Ending(r[|r| - 1].err));
    } else {
      LastTurn(st, id, r);
    }
  }

  lemma Reassociate(a: seq<ChanOp>, b: seq<ChanOp>, c: seq<ChanOp>)
    ensures (a + []) + (b + c) == (a + b) + c
  {
  }

  lemma LastTurn(st: EchoState, id: StreamId, r: seq<Read>)
    requires |r| == 1
    ensures ReadLoop(st, id, r).ops == OnTurn(st, id, r[0]).ops
    ensures DataMsgs(r) == DataMsg(r[0])
  {
    assert r[1..] == [];
    assert OnTurn(st, id, r[0]).ops + [] == OnTurn(st, id, r[0]).ops;
  }

  /**
    A request that is never cancelled sends its transcript, closes the channel after it and does
    nothing more. The transcript is Headers, Data messages and one Done, or two when the request
    or the body failed.
   */
  lemma TranscriptThenClose(id: StreamId, job: Job)
    requires !job.Unconfigured?
    requires job.Response? ==> Ends(job.turns) && FirstCancelled(Reached(job.turns)) == |Reached(job.turns)|
    ensures Dispatched(id, job).ops == SendAll(Transcript(id, job)) + [Close]
    ensures Execute(FRESH_CHAN, Dispatched(id, job).ops) == Executed(Chan(Transcript(id, job), true), false)
    ensures Grammatical(Transcript(id, job)) && (EndsWithTwo(Transcript(id, job)) <==> !EndsByEof(job))
    ensures !job.Response? ==> Transcript(id, job) == [Headers(TunnelHeaders(id, 502, [], 0)), Done, Done]
    ensures job.Response? ==> Transcript(id, job)[0] == Headers(job.h)
    ensures job.Response? ==> Payload(Transcript(id, job)) == BodyOf(Reached(job.turns))
  {
    OpsThenClose(id, job);
    TranscriptGrammatical(id, job);
    TwoDones(id, job);
    TranscriptCarries(id, job);
  }

  lemma OpsThenClose(id: StreamId, job: Job)
    requires !job.Unconfigured?
    requires job.Response? ==> Ends(job.turns) && FirstCancelled(Reached(job.turns)) == |Reached(job.turns)|
    ensures Dispatched(id, job).ops == SendAll(Transcript(id, job)) + [Close]
    ensures Execute(FRESH_CHAN, Dispatched(id, job).ops) == Executed(Chan(Transcript(id, job), true), false)
  {
    if job.Response? {
      ResponseOps(id, job);
    } else {
      RefusalOps(id, job);
    }
    SendAllThenClose([], Transcript(id, job));
    assert [] + Transcript(id, job) == Transcript(id, job);
  }

  lemma TranscriptCarries(id: StreamId, job: Job)
    requires !job.Unconfigured? && (job.Response? ==> Ends(job.turns))
    ensures !job.Response? ==> Transcript(id, job) == [Headers(TunnelHeaders(id, 502, [], 0)), Done, Done]
    ensures job.Response? ==> Transcript(id, job)[0] == Headers(job.h)
    ensures job.Response? ==> Payload(Transcript(id, job)) == BodyOf(Reached(job.turns))
  {
    if job.Response? {
      TranscriptPayload(id, job);
    }
  }

  predicate EndsWithTwo(msgs: seq<StreamFlow>) {
    |msgs| >= 2 && msgs[|msgs| - 2] == Done == msgs[|msgs| - 1]
  }

  lemma TwoDones(id: StreamId, job: Job)
    requires !job.Unconfigured? && (job.Response? ==> Ends(job.turns))
    ensures EndsWithTwo(Transcript(id, job)) <==> !EndsByEof(job)
  {
    if job.Response? {
      var r := Reached(job.turns);
      LastTwo([Headers(job.h)] + DataMsgs(r), LastMsgs(r));
    }
  }

  lemma LastTwo(front: seq<StreamFlow>, last: seq<StreamFlow>)
    requires front != [] && forall i :: 0 <= i < |front| ==> !front[i].Done?
    requires last == [Done] || last == [Done, Done]
    ensures EndsWithTwo(front + last) <==> last == [Done, Done]
  {
  }

  lemma TranscriptGrammatical(id: StreamId, job: Job)
    requires !job.Unconfigured? && (job.Response? ==> Ends(job.turns))
    ensures Grammatical(Transcript(id, job))
  {
    if job.Response? {
      var r := Reached(job.turns);
      PartsGrammatical(job.h, DataMsgs(r), LastMsgs(r));
    } else {
      PartsGrammatical(TunnelHeaders(id, STATUS_BAD_GATEWAY, [], 0), [], [Done, Done]);
      var h := Headers(TunnelHeaders(id, STATUS_BAD_GATEWAY, [], 0));
      assert [h] + [] + [Done, Done] == [h, Done, Done];
    }
  }

  lemma PartsGrammatical(h: TunnelHeaders, data: seq<StreamFlow>, last: seq<StreamFlow>)
    requires forall i :: 0 <= i < |data| ==> data[i].Data? && 1 <= |data[i].data| <= BUFFER_SIZE
    requires 1 <= |last| <= 2 && forall i :: 0 <= i < |last| ==> last[i].Done?
    ensures Grammatical([Headers(h)] + data + last)
  {
    var msgs := [Headers(h)] + data + last;
    assert msgs[..1 + |data|] <= msgs;
  }

  lemma ResponseOps(id: StreamId, job: Job)
    requires job.Response? && Ends(job.turns) && FirstCancelled(Reached(job.turns)) == |Reached(job.turns)|
    ensures Dispatched(id, job).ops == SendAll(Transcript(id, job)) + [Close]
  {
    var r := Reached(job.turns);
    WholeLoop(id, job.turns);
    HeadersThenAll(Headers(job.h), DataMsgs(r), LastMsgs(r), Ending(r[|r| - 1].err));
  }

  lemma WholeLoop(id: StreamId, turns: seq<Read>)
    requires Ends(turns) && FirstCancelled(Reached(turns)) == |Reached(turns)|
    ensures var r := Reached(turns);
      && ReadLoop(EchoState(true, false), id, turns).ops == SendAll(DataMsgs(r)) + Ending(r[|r| - 1].err)
      && Ending(r[|r| - 1].err) == SendAll(LastMsgs(r)) + [Close]
  {
    var r := Reached(turns);
    LoopIgnoresUnreached(EchoState(true, false), id, turns);
    UncancelledLoop(id, r);
    EndingSends(r);
  }

  lemma HeadersThenAll(h: StreamFlow, data: seq<StreamFlow>, tail: seq<StreamFlow>, ending: seq<ChanOp>)
    requires ending == SendAll(tail) + [Close]
    ensures [Send(h)] + (SendAll(data) + ending) == SendAll([h] + data + tail) + [Close]
  {
    SendAllConcat([h], data);
    SendAllConcat([h] + data, tail);
    assert SendAll([h]) == [Send(h)];
    LeftToRight([Send(h)], SendAll(data), SendAll(tail), [Close]);
  }

  lemma LeftToRight(a: seq<ChanOp>, b: seq<ChanOp>, c: seq<ChanOp>, d: seq<ChanOp>)
    ensures a + (b + (c + d)) == ((a + b) + c) + d
  {
    assert a + (b + (c + d)) == (a + b) + (c + d);
  }

  lemma EndingSends(r: seq<Read>)
    requires r != [] && !r[|r| - 1].err.NoError?
    ensures Ending(r[|r| - 1].err) == SendAll(LastMsgs(r)) + [Close]
  {
  }

  lemma RefusalOps(id: StreamId, job: Job)
    requires !job.Response? && !job.Unconfigured?
    ensures Dispatched(id, job).ops == SendAll(Transcript(id, job)) + [Close]
  {
    var h := Headers(TunnelHeaders(id, STATUS_BAD_GATEWAY, [], 0));
    assert OnFail(FRESH_ECHO, id, STATUS_BAD_GATEWAY).ops == [Send(h), Send(Done)];
    assert SendAll([h, Done, Done]) == [Send(h), Send(Done), Send(Done)];
  }

  // ------------------------------------------------------------------------
  // Cancellation
  // ------------------------------------------------------------------------

  /** Some read from turn `c` on returned bytes, or an error other than EOF. */
  ghost predicate SpeaksFrom(r: seq<Read>, c: nat) {
    exists j :: c <= j < |r| && (r[j].data != [] || r[j].err.Broken?)
  }

  lemma {:induction false} ClosedLoop(id: StreamId, r: seq<Read>)
    requires forall i :: 0 <= i < |r| - 1 ==> r[i].err.NoError?
    ensures ReadLoop(EchoState(true, true), id, r).ops != [] <==> SpeaksFrom(r, 0)
    decreases |r|
  {
    if r != [] {
      var turn := OnTurn(EchoState(true, true), id, r[0]);
      assert turn.ops != [] <==> r[0].data != [] || r[0].err.Broken?;
      if r[0].err.NoError? {
        ClosedLoop(id, r[1..]);
        assert forall j :: 1 <= j < |r| ==> r[j] == r[1..][j - 1];
      }
    }
  }

  lemma {:induction false} CancelledLoop(id: StreamId, sent: seq<StreamFlow>, r: seq<Read>, c: nat)
    requires forall i :: 0 <= i < |r| - 1 ==> r[i].err.NoError?
    requires c == FirstCancelled(r) < |r|
    ensures Execute(Chan(sent, false), ReadLoop(EchoState(true, false), id, r).ops)
         == Executed(Chan(sent + DataMsgs(r[..c]) + [Cancel], true), SpeaksFrom(r, c))
    decreases |r|
  {
    if c == 0 {
      CancelledAtOnce(id, sent, r);
    } else {
      FirstTurn(id, sent, r);
      CancelledLoop(id, sent + DataMsg(r[0]), r[1..], c - 1);
      FirstDataMsg(r, c);
      FourParts(sent, DataMsg(r[0]), DataMsgs(r[1..][..c - 1]), [Cancel]);
      SpeaksShift(r, c);
    }
  }

  lemma FourParts(a: seq<StreamFlow>, b: seq<StreamFlow>, c: seq<StreamFlow>, d: seq<StreamFlow>)
    ensures (a + b) + c + d == a + (b + c) + d
  {
    assert (a + b) + c == a + (b + c);
  }

  /** A turn that goes well only adds its message. */
  lemma FirstTurn(id: StreamId, sent: seq<StreamFlow>, r: seq<Read>)
    requires r != [] && !r[0].cancelled && r[0].err.NoError?
    ensures Execute(Chan(sent, false), ReadLoop(EchoState(true, false), id, r).ops)
         == Execute(Chan(sent + DataMsg(r[0]), false), ReadLoop(EchoState(true, false), id, r[1..]).ops)
  {
    var rest := ReadLoop(EchoState(true, false), id, r[1..]).ops;
    UncancelledTurn(id, r[0]);
    LoopStep(EchoState(true, false), id, r);
    assert SendAll(DataMsg(r[0])) + [] == SendAll(DataMsg(r[0]));
    ExecuteConcat(Chan(sent, false), SendAll(DataMsg(r[0])), rest);
    SendAllThenClose(sent, DataMsg(r[0]));
  }

  lemma FirstDataMsg(r: seq<Read>, c: nat)
    requires 1 <= c <= |r|
    ensures DataMsgs(r[..c]) == DataMsg(r[0]) + DataMsgs(r[1..][..c - 1])
  {
    assert r[..c][1..] == r[1..][..c - 1];
  }

  lemma SpeaksShift(r: seq<Read>, c: nat)
    requires 1 <= c <= |r|
    ensures SpeaksFrom(r, c) <==> SpeaksFrom(r[1..], c - 1)
  {
    assert forall j :: 1 <= j < |r| ==> r[j] == r[1..][j - 1];
  }

  /** The rest of the cancelled turn and the later turns meet a closed channel. */
  lemma CancelledAtOnce(id: StreamId, sent: seq<StreamFlow>, r: seq<Read>)
    requires forall i :: 0 <= i < |r| - 1 ==> r[i].err.NoError?
    requires r != [] && r[0].cancelled
    ensures Execute(Chan(sent, false), ReadLoop(EchoState(true, false), id, r).ops)
         == Executed(Chan(sent + DataMsgs(r[..0]) + [Cancel], true), SpeaksFrom(r, 0))
  {
    var rest := ReadLoop(EchoState(true, true), id, r).ops;
    CancelFirst(id, r);
    ExecuteConcat(Chan(sent, false), [Send(Cancel), Close], rest);
    ExecuteCancel(sent);
    ClosedLoop(id, r);
    assert DataMsgs(r[..0]) == [] && sent + [] == sent;
  }

  lemma ExecuteCancel(sent: seq<StreamFlow>)
    ensures Execute(Chan(sent, false), [Send(Cancel), Close]) == Executed(Chan(sent + [Cancel], true), false)
  {
    assert [Send(Cancel), Close][1..] == [Close] && [Close][1..] == [];
  }

  /** After Cancel the loop goes on as if it had been closed from the start. */
  lemma CancelFirst(id: StreamId, r: seq<Read>)
    requires r != [] && r[0].cancelled
    ensures ReadLoop(EchoState(true, false), id, r).ops
         == [Send(Cancel), Close] + ReadLoop(EchoState(true, true), id, r).ops
  {
    var closed, open := EchoState(true, true), EchoState(true, false);
    CancelFirstTurn(id, r[0]);
    if r[0].err.NoError? {
      LoopStep(closed, id, r);
      LoopStep(open, id, r);
      var turn := OnTurn(closed, id, r[0]);
      CancelInFront(turn.ops, ReadLoop(turn.st, id, r[1..]).ops);
    }
  }

  lemma CancelInFront(a: seq<ChanOp>, b: seq<ChanOp>)
    ensures ([Send(Cancel), Close] + a) + b == [Send(Cancel), Close] + (a + b)
  {
  }

  lemma CancelFirstTurn(id: StreamId, r: Read)
    requires r.cancelled
    ensures var turn := OnTurn(EchoState(true, true), id, r);
            OnTurn(EchoState(true, false), id, r) == Effect(turn.st, [Send(Cancel), Close] + turn.ops)
  {
    assert OnPoll(EchoState(true, true), r) == Effect(EchoState(true, true), []);
    assert OnPoll(EchoState(true, false), r) == Effect(EchoState(true, true), [Send(Cancel), Close]);
    var turn := OnRead(EchoState(true, true), id, r);
    assert [] + turn.ops == turn.ops;
  }

  /** A cancelled request has sent Headers, the Data read before the cancellation and Cancel, and closed the channel. */
  lemma CancelledTranscript(id: StreamId, job: Job)
    requires job.Response? && FirstCancelled(Reached(job.turns)) < |Reached(job.turns)|
    ensures var r := Reached(job.turns);
            var c := FirstCancelled(r);
            Execute(FRESH_CHAN, Dispatched(id, job).ops) ==
            Executed(Chan([Headers(job.h)] + DataMsgs(r[..c]) + [Cancel], true), SpeaksFrom(r, c))
  {
    var first := OnHeaders(FRESH_ECHO, job.h);
    LoopIgnoresUnreached(first.st, id, job.turns);
    ExecuteConcat(FRESH_CHAN, first.ops, ReadLoop(first.st, id, job.turns).ops);
    assert SendAll([Headers(job.h)]) == first.ops;
    SendAllThenClose([], [Headers(job.h)]);
    assert [] + [Headers(job.h)] == [Headers(job.h)];
    CancelledLoop(id, [Headers(job.h)], Reached(job.turns), FirstCancelled(Reached(job.turns)));
  }

  /** Some turn finds the context cancelled, and that turn or a later one returns bytes or an error other than EOF. */
  ghost predicate SpeaksAfterCancel(job: Job) {
    job.Response? && SpeaksFrom(Reached(job.turns), FirstCancelled(Reached(job.turns)))
  }

  /**
    The read loop goes on after Cancel has closed the channel. A dispatch panics exactly when its endpoint has
    no instance, or a turn finds the context cancelled and that turn or a later one reads bytes or an error
    other than EOF.
   */
  lemma PanicsExactlyWhen(id: StreamId, job: Job)
    ensures Panics(id, job) <==> job.Unconfigured? || SpeaksAfterCancel(job)
  {
    if job.Response? {
      var r := Reached(job.turns);
      if FirstCancelled(r) < |r| {
        CancelledTranscript(id, job);
      } else if Ends(job.turns) {
        TranscriptThenClose(id, job);
      } else {
        UnendedLoop(id, job.turns);
        ExecuteSends(FRESH_CHAN, Dispatched(id, job).ops);
      }
    } else if !job.Unconfigured? {
      TranscriptThenClose(id, job);
    }
  }

  /** A body whose last read so far had no error has only been sent on. */
  lemma UnendedLoop(id: StreamId, turns: seq<Read>)
    requires !Ends(turns) && FirstCancelled(Reached(turns)) == |Reached(turns)|
    ensures forall i :: 0 <= i < |ReadLoop(EchoState(true, false), id, turns).ops| ==>
              ReadLoop(EchoState(true, false), id, turns).ops[i].Send?
  {
    var r := Reached(turns);
    LoopIgnoresUnreached(EchoState(true, false), id, turns);
    if r != [] {
      UncancelledLoop(id, r);
    }
  }

  /** The smallest such request: one read of one byte after the cancellation. */
  lemma CancelThenDataPanics(id: StreamId, h: TunnelHeaders)
    ensures Panics(id, Response(h, [Read(true, [0], NoError)]))
  {
    var turns := [Read(true, [0], NoError)];
    var r := Reached(turns);
    assert r == turns;
    assert r[0].data != [];
    PanicsExactlyWhen(id, Response(h, turns));
  }

  // ------------------------------------------------------------------------
  // Bytes and chunks
  // ------------------------------------------------------------------------

  lemma {:induction false} DataCarriesBody(turns: seq<Read>)
    ensures Payload(DataMsgs(turns)) == BodyOf(turns)
    decreases |turns|
  {
    if turns != [] {
      DataCarriesBody(turns[1..]);
      PayloadConcat(DataMsg(turns[0]), DataMsgs(turns[1..]));
    }
  }

  lemma {:induction false} ChunkBounds(turns: seq<Read>)
    ensures |DataMsgs(turns)| <= |BodyOf(turns)| <= BUFFER_SIZE * |DataMsgs(turns)|
    decreases |turns|
  {
    if turns != [] {
      ChunkBounds(turns[1..]);
    }
  }

  /** A body of L bytes read to its end travels whole, in k messages with ceil(L / 10240) <= k <= L. */
  lemma BodyInChunks(id: StreamId, job: Job)
    requires job.Response? && Ends(job.turns)
    requires FirstCancelled(Reached(job.turns)) == |Reached(job.turns)|
    ensures var body := BodyOf(Reached(job.turns));
            var k := |DataMsgs(Reached(job.turns))|;
            && Payload(Transcript(id, job)) == body
            && (|body| + 10239) / 10240 <= k <= |body|
  {
    ChunkBounds(Reached(job.turns));
    TranscriptPayload(id, job);
  }

  /** A read may fill the buffer of 10240 bytes, which goes in one message. */
  lemma FullBuffer(data: Bytes)
    requires |data| == 10240
    ensures DataMsgs([Read(false, data, NoError)]) == [Data(data)]
  {
    assert [Read(false, data, NoError)][1..] == [];
  }

  lemma TranscriptPayload(id: StreamId, job: Job)
    requires job.Response? && Ends(job.turns)
    ensures Payload(Transcript(id, job)) == BodyOf(Reached(job.turns))
  {
    var r := Reached(job.turns);
    DataCarriesBody(r);
    PayloadOfParts(Headers(job.h), DataMsgs(r), LastMsgs(r));
  }

  lemma PayloadOfParts(first: StreamFlow, data: seq<StreamFlow>, last: seq<StreamFlow>)
    requires !first.Data? && forall i :: 0 <= i < |last| ==> !last[i].Data?
    ensures Payload([first] + data + last) == Payload(data)
  {
    NoPayload([first]);
    NoPayload(last);
    PayloadConcat([first] + data, last);
    PayloadConcat([first], data);
    assert [] + Payload(data) == Payload(data) && Payload(data) + [] == Payload(data);
  }
}
