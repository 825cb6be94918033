/** No deadlock and no endless run of the pipeline, and exactly when a fault strands the HTTP client. */
module Progress {
  import opened Tunnel
  import opened AgentChannel
  import Grammar = AgentGrammar
  import Ctl = ControllerEcho
  import Rsp = Response
  import opened Pipeline
  import opened Delivery

  /** Steps of the four goroutines themselves; the others are faults, a flush, or a client that leaves. */
  predicate Works(l: Label) {
    match l
    case OpenFails => false
    case Cut(_, _) => false
    case OnSide(c) => !c.ClientGone? && !c.FlushStart? && (c.Write? ==> c.ok)
    case _ => true
  }

  predicate AllWork(ls: seq<Label>) {
    ls == [] || (Works(ls[0]) && AllWork(ls[1..]))
  }

  predicate AllReturned(p: Pipe) {
    p.pc.Ended? && p.ops == [] && p.sender.Gone? && p.side.receiver.Returned? && p.side.writer.Finished?
  }

  /** A job with an instance, whose body ends and which is never found cancelled. */
  ghost predicate EndsUncancelled(job: Job) {
    && !job.Unconfigured?
    && (job.Response? ==>
          && Grammar.Ends(job.turns)
          && Grammar.FirstCancelled(Grammar.Reached(job.turns)) == |Grammar.Reached(job.turns)|)
  }

  // ------------------------------------------------------------------------
  // Every working step uses up something
  // ------------------------------------------------------------------------

  function OpsWeight(ops: seq<ChanOp>): nat {
    if ops == [] then 0 else (if ops[0].Send? then 5 else 1) + OpsWeight(ops[1..])
  }

  lemma {:induction false} OpsWeightConcat(a: seq<ChanOp>, b: seq<ChanOp>)
    ensures OpsWeight(a + b) == OpsWeight(a) + OpsWeight(b)
  {
    if a == [] {
      assert a + b == b;
    } else {
      OpsWeightConcat(a[1..], b);
      assert (a + b)[1..] == a[1..] + b;
    }
  }

  function TurnsLeft(p: Pipe): nat {
    if p.job.Response? && p.next <= |p.job.turns| then |p.job.turns| - p.next else 0
  }

  function ProducerWeight(p: Pipe): nat {
    match p.pc
    case Starting => 100 + 60 * TurnsLeft(p)
    case Polling => 40 + 60 * TurnsLeft(p)
    case Reading => 20 + 60 * TurnsLeft(p)
    case Ended => 1
    case Panicked => 0
  }

  function SenderWeight(s: Sender): nat {
    match s
    case Opening => 10
    case Ready => 2
    case Holding(_) => 6
    case Draining => 1
    case Gone(_) => 0
  }

  function ReceiverWeight(r: Rsp.Receiver): nat {
    match r
    case AwaitId => 5
    case Receiving => 4
    case Offering(_, exits) => if exits then 3 else 6
    case Leaving => 1
    case Returned => 0
  }

  function FlushWeight(f: Rsp.Flush): nat {
    match f
    case Idle => 0
    case Cancelling => 3
    case Marking => 1
    case Flushed => 0
  }

  function SideWeight(s: Rsp.Side): nat {
    ReceiverWeight(s.receiver) + (if s.writer.Writing? then 1 else 0) + FlushWeight(s.flush)
  }

  function Weight(p: Pipe): nat {
    ProducerWeight(p) + OpsWeight(p.ops) + (if p.chanClosed then 0 else 1) + SenderWeight(p.sender)
    + 3 * |p.wire| + SideWeight(p.side)
  }

  lemma EffectWeights(st: EchoState, id: StreamId, r: Read, h: TunnelHeaders)
    ensures OpsWeight(OnHeaders(st, h).ops) <= 5
    ensures OpsWeight(OnPoll(st, r).ops) <= 6
    ensures OpsWeight(FailAndShutdown(st, id).ops) <= 16
    ensures OpsWeight(OnRead(st, id, r).ops) <= 21
  {
    DoneWeights(st, id);
    var chunk := if r.data == [] then [] else OnData(st, r.data).ops;
    OpsWeightConcat(chunk, match r.err
      case NoError => []
      case Eof => DoneAndShutdown(st).ops
      case Broken => FailAndShutdown(st, id).ops);
  }

  lemma DoneWeights(st: EchoState, id: StreamId)
    ensures OpsWeight(OnDone(st).ops) <= 6 && OpsWeight(OnCancel(st).ops) <= 6
    ensures OpsWeight(DoneAndShutdown(st).ops) <= 6
    ensures OpsWeight(FailAndShutdown(st, id).ops) <= 16
  {
    assert OpsWeight([Close]) == 1;
    OpsWeightConcat([Send(Done)], [Close]);
    OpsWeightConcat([Send(Cancel)], [Close]);
    assert [Send(Done)] + [Close] == [Send(Done), Close] && [Send(Cancel)] + [Close] == [Send(Cancel), Close];
    assert DoneAndShutdown(st).ops == OnDone(st).ops;
    var first := if st.headersSent then [] else [Send(Headers(TunnelHeaders(id, STATUS_BAD_GATEWAY, [], 0)))];
    OpsWeightConcat(first, [Send(Done)]);
    OpsWeightConcat(OnFail(st, id, STATUS_BAD_GATEWAY).ops, OnDone(st).ops);
  }

  lemma ProducerUsesUp(p: Pipe, l: Label)
    requires Enabled(p, l) && (l.Begin? || l.Poll? || l.ReadBody?)
    ensures Weight(Apply(p, l)) < Weight(p)
  {
    var none := TunnelHeaders("", 0, [], 0);
    if l.Begin? {
      EffectWeights(p.st, p.id, Read(false, [], NoError), if p.job.Response? then p.job.h else none);
    } else {
      EffectWeights(p.st, p.id, p.job.turns[p.next], none);
    }
  }

  lemma ControllerUsesUp(p: Pipe, c: Rsp.Label)
    requires Enabled(p, OnSide(c)) && Works(OnSide(c))
    ensures Weight(Apply(p, OnSide(c))) < Weight(p)
  {
    var q := Apply(p, OnSide(c));
    assert SideWeight(q.side) + 3 * |q.wire| < SideWeight(p.side) + 3 * |p.wire|;
  }

  /** Each working step makes the weight smaller, so no run of working steps goes on for ever. */
  lemma WorkUsesUp(p: Pipe, l: Label)
    requires Enabled(p, l) && Works(l)
    ensures Weight(Apply(p, l)) < Weight(p)
  {
    match l {
      case Begin => ProducerUsesUp(p, l);
      case Poll => ProducerUsesUp(p, l);
      case ReadBody => ProducerUsesUp(p, l);
      case OnSide(c) => ControllerUsesUp(p, c);
      case _ =>
    }
  }

  /** Whatever state it starts in, a run of working steps is no longer than the weight of that state. */
  lemma {:induction false} Terminates(p: Pipe, ls: seq<Label>, q: Pipe)
    requires Run(p, ls, q) && AllWork(ls)
    ensures |ls| + Weight(q) <= Weight(p)
    decreases |ls|
  {
    if ls != [] {
      WorkUsesUp(p, ls[0]);
      Terminates(Apply(p, ls[0]), ls[1..], q);
    }
  }

  // ------------------------------------------------------------------------
  // The agent's side is never stuck on its own account
  // ------------------------------------------------------------------------

  /** A sender that has left its loop has left the stream, and a producer that has ended has shut its echo down. */
  predicate LeavesInOrder(p: Pipe) {
    && (p.sender.Draining? || p.sender.Gone? ==> !p.link.Up?)
    && (p.pc.Ended? ==> p.st.closed)
  }

  lemma LeavesInOrderStep(p: Pipe, l: Label)
    requires LeavesInOrder(p) && Enabled(p, l)
    ensures LeavesInOrder(Apply(p, l))
  {
  }

  lemma {:induction false} LeavesInOrderRun(p: Pipe, ls: seq<Label>, q: Pipe)
    requires LeavesInOrder(p) && Run(p, ls, q)
    ensures LeavesInOrder(q)
    decreases |ls|
  {
    if ls != [] {
      LeavesInOrderStep(p, ls[0]);
      LeavesInOrderRun(Apply(p, ls[0]), ls[1..], q);
    }
  }

  /** The producer of a job that ends uncancelled: it does not panic, and it closes the channel only at its end. */
  ghost predicate ClosesAtItsEnd(p: Pipe) {
    && EndsUncancelled(p.job) && LeavesInOrder(p)
    && !p.pc.Panicked?
    && (p.st.closed ==> p.pc.Ended?)
    && (p.chanClosed ==> p.ops == [])
    && (forall i :: 0 <= i < |p.produced| ==> !p.produced[i].Cancel?)
  }

  /** The producer waits for a read that does not return. */
  predicate AwaitsRead(p: Pipe) {
    (p.pc.Polling? || p.pc.Reading?) && p.job.Response? && p.next >= |p.job.turns|
  }

  lemma NextTurnUncancelled(p: Pipe)
    requires EndsUncancelled(p.job) && LoopAt(p) && (p.pc.Polling? || p.pc.Reading?) && p.job.Response?
    ensures p.next < |p.job.turns| && !p.job.turns[p.next].cancelled
  {
    var r := Grammar.Reached(p.job.turns);
    assert p.next < |r|;
    assert r[p.next] == p.job.turns[p.next];
  }

  lemma ClosesAtItsEndStep(p: Pipe, l: Label)
    requires Inv(p) && LoopAt(p) && ClosesAtItsEnd(p) && Enabled(p, l)
    ensures ClosesAtItsEnd(Apply(p, l))
  {
    if l.Begin? {
      ClosesAtItsEndBegin(p);
    } else if l.Poll? {
      ClosesAtItsEndPoll(p);
    } else if l.ReadBody? {
      ClosesAtItsEndRead(p);
    } else {
      ClosesAtItsEndElse(p, l);
    }
  }

  lemma ClosesAtItsEndElse(p: Pipe, l: Label)
    requires Closing(p) && Linked(p) && ClosesAtItsEnd(p) && Enabled(p, l) && !l.Begin? && !l.Poll? && !l.ReadBody?
    ensures ClosesAtItsEnd(Apply(p, l))
  {
    if l.CloseChan? {
      assert p.ops == [Close];
    }
  }

  lemma ClosesAtItsEndBegin(p: Pipe)
    requires Producing(p) && ClosesAtItsEnd(p) && Enabled(p, Begin)
    ensures ClosesAtItsEnd(Apply(p, Begin))
  {
    RefusalSends(p.id);
    if p.job.Response? {
      assert SendsOf([Send(Headers(p.job.h))]) == [Headers(p.job.h)];
    }
  }

  lemma ClosesAtItsEndPoll(p: Pipe)
    requires Producing(p) && LoopAt(p) && ClosesAtItsEnd(p) && Enabled(p, Poll)
    ensures ClosesAtItsEnd(Apply(p, Poll))
  {
    NextTurnUncancelled(p);
    assert p.produced + [] == p.produced;
  }

  lemma ClosesAtItsEndRead(p: Pipe)
    requires Producing(p) && Closing(p) && LoopAt(p) && ClosesAtItsEnd(p) && Enabled(p, ReadBody)
    ensures ClosesAtItsEnd(Apply(p, ReadBody))
  {
    var r := p.job.turns[p.next];
    NextTurnUncancelled(p);
    ReadSends(p.st, p.id, r);
    var more := Grammar.DataMsg(r) + EndMsgs(p.st.closed, r.err);
    assert forall i :: 0 <= i < |more| ==> !more[i].Cancel?;
  }

  /** While runEcho waits or the receive loop runs, some working step is possible. */
  lemma Advance(p: Pipe) returns (l: Label)
    requires Inv(p) && LeavesInOrder(p) && !p.pc.Panicked? && !AwaitsRead(p) && p.side.flush.Idle? && !AllReturned(p)
    requires p.side.writer.Finished? ==> p.side.receiver.Leaving? || p.side.receiver.Returned?
    requires p.side.receiver.Returned? ==>
      && p.side.writer.Finished? && !p.link.Down? && p.sender != Gone(false)
      && (p.chanClosed ==> p.pc.Ended? && p.ops == [])
    ensures Works(l) && Enabled(p, l)
  {
    var s := p.side;
    if s.writer.Writing? {
      l := OnSide(Rsp.Write(|s.writer.chunk|, true));
    } else if s.receiver.Offering? {
      l := OnSide(Rsp.HandOff);
    } else if s.receiver.Leaving? {
      l := OnSide(Rsp.Unregister);
    } else if !s.receiver.Returned? && (p.wire != [] || !p.link.Up?) {
      l := AdvanceReceiver(p);
    } else if p.sender.Draining? || p.sender.Gone? {
      l := SenderReturns;
    } else {
      l := AdvanceAgent(p);
    }
  }

  /** Until the sender has left its loop, some working step of the agent is possible. */
  lemma AdvanceAgent(p: Pipe) returns (l: Label)
    requires Producing(p) && Closing(p) && LeavesInOrder(p) && !p.pc.Panicked? && !AwaitsRead(p)
    requires !p.sender.Draining? && !p.sender.Gone? && (p.sender.Opening? ==> p.link.Up?)
    ensures Works(l) && Enabled(p, l) && !l.OnSide?
  {
    if p.sender.Ready? && !p.chanClosed {
      l := AdvanceProducer(p);
    } else {
      l := match p.sender
        case Opening => Open
        case Holding(_) => SendOn
        case _ => SeeClosed;
    }
  }

  /** A step for which the stream table is locked: a lookup, and the deferred Unregister. */
  predicate NeedsTable(l: Label) {
    l.OnSide? && (l.l.Unregister? || (l.l.FirstEvent? && l.l.ev.Msg? && l.l.ev.msg.StreamID?))
  }

  /** A first message has arrived and is still to be looked up. */
  predicate AwaitsLookup(p: Pipe) {
    p.side.receiver.AwaitId? && p.wire != []
  }

  lemma AdvanceReceiver(p: Pipe) returns (l: Label)
    requires p.side.flush.Idle? && (p.side.receiver.AwaitId? || p.side.receiver.Receiving?)
    requires p.wire != [] || !p.link.Up?
    ensures Works(l) && Enabled(p, l)
    ensures NeedsTable(l) ==> AwaitsLookup(p)
  {
    var ev := if p.wire != [] then Ctl.Msg(p.wire[0])
              else if p.link.HalfClosed? then Ctl.Eof else Ctl.Lost(p.link.canceled);
    l := OnSide(if p.side.receiver.AwaitId? then Rsp.FirstEvent(ev) else Rsp.NextEvent(ev));
  }

  lemma AdvanceProducer(p: Pipe) returns (l: Label)
    requires Producing(p) && Closing(p) && LeavesInOrder(p) && !p.pc.Panicked? && !AwaitsRead(p)
    requires p.sender.Ready? && !p.chanClosed
    ensures Works(l) && Enabled(p, l) && !l.OnSide?
  {
    if p.pc.Starting? {
      l := if p.job.Unconfigured? then Panic else Begin;
    } else if p.ops != [] {
      l := if p.ops[0].Close? then CloseChan else HandOver;
    } else {
      assert !ClosePending(p.ops);
      l := if p.pc.Polling? then Poll else ReadBody;
    }
  }

  // ------------------------------------------------------------------------
  // Who tells runEcho
  // ------------------------------------------------------------------------

  /** No client leaves, no flush starts and no write fails; the network may still fail at any point. */
  predicate Patient(l: Label) {
    l.OnSide? ==> !l.l.ClientGone? && !l.l.FlushStart? && (l.l.Write? ==> l.l.ok)
  }

  predicate AllPatient(ls: seq<Label>) {
    ls == [] || (Patient(ls[0]) && AllPatient(ls[1..]))
  }

  /** The receive loop returns without a word to the echo: no usable stream ID, or an error with code Canceled. */
  predicate Silent(id: StreamId, l: Label) {
    l.OnSide? && ((l.l.FirstEvent? && l.l.ev != Ctl.Msg(StreamID(id))) || l.l == Rsp.NextEvent(Ctl.Lost(true)))
  }

  predicate LeftSilently(id: StreamId, ls: seq<Label>) {
    ls != [] && (Silent(id, ls[0]) || LeftSilently(id, ls[1..]))
  }

  ghost predicate Informed(p: Pipe, silently: bool) {
    InformedBy(p.side, silently)
  }

  ghost predicate InformedBy(s: Rsp.Side, silently: bool) {
    var gone := s.receiver.Leaving? || s.receiver.Returned?;
    && s.flush.Idle?
    && (s.receiver.AwaitId? ==> s.registered)
    && (s.writer.Finished? ==> gone)
    && (silently <==> gone && !s.writer.Finished?)
  }

  lemma InformedStep(p: Pipe, silently: bool, l: Label)
    requires Fifo(p) && Linked(p) && Producing(p) && Tracking(p.side)
    requires Informed(p, silently) && Enabled(p, l) && Patient(l)
    ensures Informed(Apply(p, l), silently || Silent(p.id, l))
  {
    SideOnly(p, l);
    if l.OnSide? {
      if l.l.NextEvent? {
        InformedNext(p, silently, l.l.ev);
      } else {
        InformedElse(p.side, silently, l.l);
      }
    }
  }

  lemma InformedNext(p: Pipe, silently: bool, ev: Ctl.Event)
    requires Fifo(p) && Linked(p) && Producing(p) && Tracking(p.side)
    requires InformedBy(p.side, silently) && Enabled(p, OnSide(Rsp.NextEvent(ev)))
    ensures InformedBy(Rsp.Apply(p.side, Rsp.NextEvent(ev)), silently || ev == Ctl.Lost(true))
  {
    if ev.Msg? {
      NextOnWire(p);
    } else if ev.Eof? {
      NoEofBeforeEnd(p);
    }
  }

  lemma InformedElse(s: Rsp.Side, silently: bool, c: Rsp.Label)
    requires Tracking(s) && Rsp.Enabled(s, c) && Patient(OnSide(c)) && !c.NextEvent? && InformedBy(s, silently)
    ensures InformedBy(Rsp.Apply(s, c), silently || Silent(s.id, OnSide(c)))
  {
  }

  lemma {:induction false} InformedRun(id: StreamId, p: Pipe, silently: bool, ls: seq<Label>, q: Pipe)
    requires p.id == id && Inv(p) && Informed(p, silently) && Run(p, ls, q)
    requires AllPatient(ls)
    ensures Informed(q, silently || LeftSilently(id, ls))
    decreases |ls|
  {
    if ls != [] {
      var p' := Apply(p, ls[0]);
      InvStep(p, ls[0]);
      InformedStep(p, silently, ls[0]);
      IdFixed(p, ls[0]);
      InformedRun(id, p', silently || Silent(id, ls[0]), ls[1..], q);
    }
  }

  lemma IdFixed(p: Pipe, l: Label)
    requires Enabled(p, l)
    ensures Apply(p, l).id == p.id
  {
  }

  lemma {:induction false} ClosesAtItsEndRun(p: Pipe, ls: seq<Label>, q: Pipe)
    requires Inv(p) && LoopAt(p) && ClosesAtItsEnd(p) && Run(p, ls, q)
    ensures ClosesAtItsEnd(q)
    decreases |ls|
  {
    if ls != [] {
      InvStep(p, ls[0]);
      LoopAtStep(p, ls[0]);
      ClosesAtItsEndStep(p, ls[0]);
      ClosesAtItsEndRun(Apply(p, ls[0]), ls[1..], q);
    }
  }

  lemma UncancelledInvariants(id: StreamId, job: Job, ls: seq<Label>, p: Pipe)
    requires EndsUncancelled(job) && Run(Start(id, job), ls, p)
    ensures Inv(p) && LoopAt(p) && ClosesAtItsEnd(p) && p.job == job && p.id == id
  {
    RunInvariants(id, job, ls, p);
    InvStart(id, job);
    ClosesAtItsEndRun(Start(id, job), ls, p);
  }

  /** No working step is possible. */
  ghost predicate Stuck(p: Pipe) {
    forall l :: Works(l) ==> !Enabled(p, l)
  }

  /** No working step is possible, if those that need the stream table are not while it is `held`. */
  ghost predicate StuckWhile(p: Pipe, held: bool) {
    forall l :: Works(l) && !(held && NeedsTable(l)) ==> !Enabled(p, l)
  }

  lemma StuckNotWriting(p: Pipe, held: bool)
    requires StuckWhile(p, held)
    ensures !p.side.writer.Writing?
  {
    var l := OnSide(Rsp.Write(|AtWriter(p.side)|, true));
    assert Works(l) && !NeedsTable(l) ==> !Enabled(p, l);
  }

  /** A receive loop on its way out has heard a Done or a Cancel, or the stream is down, or it left silently. */
  ghost predicate ExitExplained(p: Pipe, silently: bool) {
    var r := p.side.receiver;
    r.Leaving? || r.Returned? || (r.Offering? && r.exits) ==> silently || !p.link.Up? || HasTerminal(p.side.received)
  }

  lemma ExitExplainedStep(p: Pipe, silently: bool, l: Label)
    requires ExitExplained(p, silently) && Informed(p, silently) && p.side.id == p.id && Enabled(p, l)
    ensures ExitExplained(Apply(p, l), silently || Silent(p.id, l))
  {
    SideOnly(p, l);
    if l.OnSide? && l.l.NextEvent? {
      ExitExplainedNext(p, l.l.ev);
    } else {
      ExitExplainedElse(p, silently, l);
    }
  }

  lemma ExitExplainedNext(p: Pipe, ev: Ctl.Event)
    requires Enabled(p, OnSide(Rsp.NextEvent(ev)))
    ensures ExitExplained(Apply(p, OnSide(Rsp.NextEvent(ev))), ev == Ctl.Lost(true))
  {
    if ev.Msg? && (ev.msg.Done? || ev.msg.Cancel?) {
      HasTerminalIn(p.side.received + [ev.msg], |p.side.received|);
    }
  }

  lemma ExitExplainedElse(p: Pipe, silently: bool, l: Label)
    requires ExitExplained(p, silently) && Informed(p, silently) && p.side.id == p.id && Enabled(p, l)
    requires !(l.OnSide? && l.l.NextEvent?)
    ensures ExitExplained(Apply(p, l), silently || Silent(p.id, l))
  {
  }

  lemma {:induction false} ExitExplainedRun(id: StreamId, p: Pipe, silently: bool, ls: seq<Label>, q: Pipe)
    requires p.id == id && Inv(p) && Informed(p, silently) && ExitExplained(p, silently)
    requires Run(p, ls, q) && AllPatient(ls)
    ensures ExitExplained(q, silently || LeftSilently(id, ls))
    decreases |ls|
  {
    if ls != [] {
      InvStep(p, ls[0]);
      InformedStep(p, silently, ls[0]);
      ExitExplainedStep(p, silently, ls[0]);
      IdFixed(p, ls[0]);
      ExitExplainedRun(id, Apply(p, ls[0]), silently || Silent(id, ls[0]), ls[1..], q);
    }
  }

  /** The agent has panicked or its read does not return, the stream is up, and the response has not been ended. */
  ghost predicate Halted(p: Pipe) {
    (p.pc.Panicked? || AwaitsRead(p)) && p.link.Up? && !HasTerminal(p.side.received)
  }

  /**
    Whatever the request does on the agent and however the network fails, once nothing more can happen runEcho
    is still waiting exactly when the receive loop left silently (its stream ID never arrived, or the failure
    was reported as Canceled), or the agent halted before it ended the response. Otherwise the HTTP client has
    got its answer.
   */
  lemma StrandedExactlyWhen(id: StreamId, job: Job, ls: seq<Label>, p: Pipe)
    requires Run(Start(id, job), ls, p) && Stuck(p) && AllPatient(ls)
    ensures p.side.writer.Selecting? <==> LeftSilently(id, ls) || Halted(p)
    ensures p.side.writer.Finished? <==> !(LeftSilently(id, ls) || Halted(p))
  {
    PatientInvariants(id, job, ls, p);
    WaitsExactlyWhen(p, LeftSilently(id, ls), false);
  }

  lemma PatientInvariants(id: StreamId, job: Job, ls: seq<Label>, p: Pipe)
    requires Run(Start(id, job), ls, p) && AllPatient(ls)
    ensures Inv(p) && LeavesInOrder(p) && Informed(p, LeftSilently(id, ls)) && ExitExplained(p, LeftSilently(id, ls))
  {
    RunInvariants(id, job, ls, p);
    InvStart(id, job);
    InformedRun(id, Start(id, job), false, ls, p);
    ExitExplainedRun(id, Start(id, job), false, ls, p);
    LeavesInOrderRun(Start(id, job), ls, p);
  }

  /** The same of one state, where a table that is held may also keep the lookup of the stream waiting. */
  lemma WaitsExactlyWhen(p: Pipe, silently: bool, held: bool)
    requires Inv(p) && LeavesInOrder(p) && Informed(p, silently) && ExitExplained(p, silently) && StuckWhile(p, held)
    ensures p.side.writer.Selecting? <==> silently || Halted(p) || (held && AwaitsLookup(p))
    ensures p.side.writer.Finished? <==> !(silently || Halted(p) || (held && AwaitsLookup(p)))
  {
    StuckNotWriting(p, held);
    if !p.side.writer.Finished? && !p.side.receiver.Returned? && !p.side.receiver.Leaving?
       && !(held && AwaitsLookup(p)) {
      StuckHalts(p, held);
    }
  }

  lemma StuckHalts(p: Pipe, held: bool)
    requires Inv(p) && LeavesInOrder(p) && StuckWhile(p, held) && !(held && AwaitsLookup(p))
    requires p.side.flush.Idle? && p.side.writer.Selecting?
    requires !p.side.receiver.Returned? && !p.side.receiver.Leaving?
    ensures Halted(p)
  {
    StuckReceiving(p, held);
    if !p.pc.Panicked? && !AwaitsRead(p) {
      var l := AdvanceAgent(p);
    }
  }

  lemma StuckReceiving(p: Pipe, held: bool)
    requires Tracking(p.side) && StuckWhile(p, held) && !(held && AwaitsLookup(p))
    requires p.side.flush.Idle? && p.side.writer.Selecting?
    requires !p.side.receiver.Returned? && !p.side.receiver.Leaving?
    requires p.link.HalfClosed? ==> HasTerminal(p.side.received + p.wire)
    ensures p.link.Up? && !HasTerminal(p.side.received)
  {
    var handOff := OnSide(Rsp.HandOff);
    assert !Enabled(p, handOff) by { assert Works(handOff) && !NeedsTable(handOff); }
    if p.wire != [] || !p.link.Up? {
      var l := AdvanceReceiver(p);
    }
  }

  /** The receive loop of `p` has left without telling runEcho, which selects. */
  ghost predicate Stranded(p: Pipe) {
    p.side.receiver.Returned? && p.side.writer.Selecting? && p.side.flush.Idle?
  }

  lemma {:induction false} StrandedForEver(p: Pipe, ls: seq<Label>, q: Pipe)
    requires Stranded(p) && Run(p, ls, q) && AllPatient(ls)
    ensures Stranded(q)
    decreases |ls|
  {
    if ls != [] {
      StrandedForEver(Apply(p, ls[0]), ls[1..], q);
    }
  }

  lemma {:induction false} OneMore(p: Pipe, ls: seq<Label>, q: Pipe, l: Label)
    requires Run(p, ls, q) && Enabled(q, l)
    ensures Run(p, ls + [l], Apply(q, l))
    decreases |ls|
  {
    if ls == [] {
      assert ([] + [l])[1..] == [];
    } else {
      OneMore(Apply(p, ls[0]), ls[1..], q, l);
      assert (ls + [l])[1..] == ls[1..] + [l];
    }
  }

  lemma StreamOpened(id: StreamId, job: Job) returns (ls: seq<Label>, p: Pipe)
    ensures Run(Start(id, job), ls, p) && p.wire == [] && p.link.Up?
    ensures p.side == Rsp.Start(id).(receiver := Rsp.Receiving, received := [StreamID(id)])
  {
    var p1 := Apply(Start(id, job), Open);
    OneMore(Start(id, job), [], Start(id, job), Open);
    var first := OnSide(Rsp.FirstEvent(Ctl.Msg(StreamID(id))));
    OneMore(Start(id, job), [] + [Open], p1, first);
    ls, p := [] + [Open] + [first], Apply(p1, first);
  }

  /** It happens to every request: the stream is opened, its ID arrives, and the call is then cancelled. */
  lemma CancelledCallStrands(id: StreamId, job: Job) returns (ls: seq<Label>, p: Pipe)
    ensures Run(Start(id, job), ls, p) && Stranded(p)
  {
    ls, p := StreamOpened(id, job);
    OneMore(Start(id, job), ls, p, Cut(0, true));
    ls, p := ls + [Cut(0, true)], Apply(p, Cut(0, true));
    var l := OnSide(Rsp.NextEvent(Ctl.Lost(true)));
    OneMore(Start(id, job), ls, p, l);
    ls, p := ls + [l], Apply(p, l);
    OneMore(Start(id, job), ls, p, OnSide(Rsp.Unregister));
    ls, p := ls + [OnSide(Rsp.Unregister)], Apply(p, OnSide(Rsp.Unregister));
  }

  // ------------------------------------------------------------------------
  // Runs without faults
  // ------------------------------------------------------------------------

  ghost predicate Undisturbed(p: Pipe) {
    && Informed(p, false) && NoFailure(p.side)
    && !p.link.Down? && p.sender != Gone(false)
    && (p.sender.Gone? ==> p.side.receiver.Returned?)
  }

  /** Nothing has gone wrong on the controller. */
  predicate NoFailure(s: Rsp.Side) {
    && (s.writer.Finished? ==> s.writer.why.ByDone?)
    && (s.receiver.Offering? ==> s.receiver.offer.after.None? && !s.receiver.offer.sig.SigFail?)
  }

  lemma UndisturbedStep(p: Pipe, l: Label)
    requires Inv(p) && ClosesAtItsEnd(p) && Undisturbed(p) && Enabled(p, l) && Works(l)
    ensures Undisturbed(Apply(p, l))
  {
    if l.OnSide? && l.l.FirstEvent? {
      FirstIsId(p, l.l.ev);
    }
    InformedStep(p, false, l);
    SideOnly(p, l);
    if l.OnSide? {
      if l.l.NextEvent? {
        NoFailureNext(p, l.l.ev);
      } else {
        NoFailureElse(p.side, l.l);
      }
    }
    LinkStep(p, l);
  }

  lemma LinkStep(p: Pipe, l: Label)
    requires Enabled(p, l) && Works(l) && !p.link.Down? && p.sender != Gone(false)
    requires p.sender.Gone? ==> p.side.receiver.Returned?
    ensures var q := Apply(p, l);
      !q.link.Down? && q.sender != Gone(false) && (q.sender.Gone? ==> q.side.receiver.Returned?)
  {
  }

  lemma NoFailureElse(s: Rsp.Side, c: Rsp.Label)
    requires NoFailure(s) && s.flush.Idle? && Rsp.Enabled(s, c) && Works(OnSide(c)) && !c.NextEvent?
    ensures NoFailure(Rsp.Apply(s, c))
  {
  }

  lemma FirstIsId(p: Pipe, ev: Ctl.Event)
    requires Inv(p) && Undisturbed(p) && Enabled(p, OnSide(Rsp.FirstEvent(ev)))
    ensures ev == Ctl.Msg(StreamID(p.id))
  {
    if ev.Msg? {
      NextOnWire(p);
    }
  }

  lemma NoFailureNext(p: Pipe, ev: Ctl.Event)
    requires Fifo(p) && Linked(p) && Producing(p) && Tracking(p.side) && ClosesAtItsEnd(p)
    requires Undisturbed(p) && Enabled(p, OnSide(Rsp.NextEvent(ev)))
    ensures NoFailure(Rsp.Apply(p.side, Rsp.NextEvent(ev)))
  {
    if ev.Msg? {
      NextOnWire(p);
    } else if ev.Eof? {
      NoEofBeforeEnd(p);
    }
  }

  lemma UncancelledStep(p: Pipe, l: Label)
    requires Inv(p) && LoopAt(p) && ClosesAtItsEnd(p) && Enabled(p, l)
    ensures Inv(Apply(p, l)) && LoopAt(Apply(p, l)) && ClosesAtItsEnd(Apply(p, l))
  {
    InvStep(p, l);
    LoopAtStep(p, l);
    ClosesAtItsEndStep(p, l);
  }

  lemma {:induction false} UndisturbedRun(p: Pipe, ls: seq<Label>, q: Pipe)
    requires Inv(p) && LoopAt(p) && ClosesAtItsEnd(p) && Undisturbed(p) && Run(p, ls, q) && AllWork(ls)
    ensures Undisturbed(q)
    decreases |ls|
  {
    if ls != [] {
      var p' := Apply(p, ls[0]);
      UncancelledStep(p, ls[0]);
      UndisturbedStep(p, ls[0]);
      UndisturbedRun(p', ls[1..], q);
    }
  }

  /** Deadlock freedom: without faults some step is possible until all four goroutines have returned. */
  lemma NeverStuck(id: StreamId, job: Job, ls: seq<Label>, p: Pipe)
    requires EndsUncancelled(job) && Run(Start(id, job), ls, p) && AllWork(ls)
    ensures Undisturbed(p)
    ensures !AllReturned(p) ==> exists l :: Works(l) && Enabled(p, l)
  {
    InvStart(id, job);
    UndisturbedRun(Start(id, job), ls, p);
    UncancelledInvariants(id, job, ls, p);
    if !AllReturned(p) {
      if p.pc.Polling? || p.pc.Reading? {
        NextTurnUncancelled(p);
      }
      var l := Advance(p);
    }
  }

  /**
    A run without faults has a bounded number of steps, and when it can go no further all four goroutines
    have returned, and the client has the agent's status, headers and every byte it read.
   */
  lemma DeliversWithoutFaults(id: StreamId, job: Job, ls: seq<Label>, p: Pipe)
    requires EndsUncancelled(job) && Run(Start(id, job), ls, p) && AllWork(ls)
    ensures |ls| <= Weight(Start(id, job))
    ensures Stuck(p) ==>
      && AllReturned(p) && p.side.writer == Rsp.Finished(Rsp.ByDone)
      && p.side.out != []
      && p.side.out[0] == Rsp.WriteHeader(Answer(id, job).statusCode, Answer(id, job).headers)
      && Written(p.side.out) == Fetched(job)
  {
    Terminates(Start(id, job), ls, p);
    NeverStuck(id, job, ls, p);
    if Stuck(p) {
      assert p.side.writer == Rsp.Finished(Rsp.ByDone);
      DoneMeansComplete(id, job, ls, p);
    }
  }
}
