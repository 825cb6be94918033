/** When the agent's producer gets through all its sends, and what a client that leaves holds up. */
module Blocking {
  import opened Tunnel
  import opened AgentChannel
  import Ctl = ControllerEcho
  import Rsp = Response
  import opened Pipeline
  import opened Delivery
  import opened Progress

  // ------------------------------------------------------------------------
  // The producer
  // ------------------------------------------------------------------------

  predicate OpensIn(ls: seq<Label>) {
    ls != [] && (ls[0].Open? || OpensIn(ls[1..]))
  }

  lemma {:induction false} OpenedIs(p: Pipe, ls: seq<Label>, q: Pipe)
    requires Run(p, ls, q)
    ensures Opened(q) <==> Opened(p) || OpensIn(ls)
    decreases |ls|
  {
    if ls != [] {
      OpenedStep(p, ls[0]);
      OpenedIs(Apply(p, ls[0]), ls[1..], q);
    }
  }

  lemma OpenedStep(p: Pipe, l: Label)
    requires Enabled(p, l)
    ensures Opened(Apply(p, l)) <==> Opened(p) || l.Open?
  {
  }

  /** A producer whose endpoint has no instance never gets to its first call. */
  predicate NoInstanceStops(p: Pipe) {
    p.job.Unconfigured? ==> p.pc.Starting? || p.pc.Panicked?
  }

  lemma {:induction false} NoInstanceRun(p: Pipe, ls: seq<Label>, q: Pipe)
    requires NoInstanceStops(p) && Run(p, ls, q)
    ensures NoInstanceStops(q)
    decreases |ls|
  {
    if ls != [] {
      NoInstanceStep(p, ls[0]);
      NoInstanceRun(Apply(p, ls[0]), ls[1..], q);
    }
  }

  lemma NoInstanceStep(p: Pipe, l: Label)
    requires NoInstanceStops(p) && Enabled(p, l)
    ensures NoInstanceStops(Apply(p, l))
  {
  }

  /**
    Whatever the network, a flush, the client and the writes do: when nothing more can happen, the producer has
    made all its calls and returned exactly when its data flow was opened, it has not panicked, and it does not
    wait for a read of the upstream body. For a request without an endpoint the producer is the loop of
    waitForRequest, so it is then that the agent takes further requests.
   */
  lemma GetsThroughExactlyWhen(id: StreamId, job: Job, ls: seq<Label>, p: Pipe)
    requires Run(Start(id, job), ls, p) && Stuck(p)
    ensures p.pc.Ended? && p.ops == [] <==> OpensIn(ls) && !p.pc.Panicked? && !AwaitsRead(p)
  {
    RunInvariants(id, job, ls, p);
    LeavesInOrderRun(Start(id, job), ls, p);
    OpenedIs(Start(id, job), ls, p);
    NoInstanceRun(Start(id, job), ls, p);
    if Opened(p) && !p.pc.Panicked? && !AwaitsRead(p) {
      StuckEnds(p);
    }
    if p.pc.Ended? && p.ops == [] {
      EndedOpened(p);
    }
  }

  lemma StuckEnds(p: Pipe)
    requires Inv(p) && LeavesInOrder(p) && NoInstanceStops(p) && Stuck(p)
    requires Opened(p) && !p.pc.Panicked? && !AwaitsRead(p)
    ensures p.pc.Ended? && p.ops == []
  {
    if !p.sender.Draining? && !p.sender.Gone? {
      var l := AdvanceAgent(p);
    }
    assert p.chanClosed;
    assert !Enabled(p, Panic) && !Enabled(p, Poll) && !Enabled(p, ReadBody) by {
      assert Works(Panic) && Works(Poll) && Works(ReadBody);
    }
  }

  /** What has been sent to the end was sent on an open data flow. */
  lemma EndedOpened(p: Pipe)
    requires Fifo(p) && Producing(p) && p.pc.Ended? && p.ops == []
    ensures Opened(p)
  {
    if !Opened(p) {
      assert [] + p.produced == p.produced;
    }
  }

  /** A data flow that does not open blocks the producer in its first send for ever. */
  lemma {:induction false} BlockedForEver(p: Pipe, ls: seq<Label>, q: Pipe)
    requires p.sender == Gone(false) && p.pc.Ended? && !p.chanClosed && p.ops != [] && p.ops[0].Send? && Run(p, ls, q)
    ensures q.pc.Ended? && q.ops == p.ops
    decreases |ls|
  {
    if ls != [] {
      BlockedForEver(Apply(p, ls[0]), ls[1..], q);
    }
  }

  /** It happens to a request for no endpoint, whose calls are made by the loop of waitForRequest itself. */
  lemma UnopenedFlowBlocks(id: StreamId) returns (ls: seq<Label>, p: Pipe)
    ensures Run(Start(id, NoEndpoint), ls, p)
    ensures p.sender == Gone(false) && p.pc.Ended? && !p.chanClosed && p.ops != [] && p.ops[0].Send?
  {
    var p1 := Apply(Start(id, NoEndpoint), Begin);
    OneMore(Start(id, NoEndpoint), [], Start(id, NoEndpoint), Begin);
    OneMore(Start(id, NoEndpoint), [] + [Begin], p1, OpenFails);
    ls, p := [] + [Begin] + [OpenFails], Apply(p1, OpenFails);
  }

  // ------------------------------------------------------------------------
  // A client that leaves
  // ------------------------------------------------------------------------

  /** The four goroutines work, and the client may leave. */
  predicate WorksOrLeaves(l: Label) {
    Works(l) || l == OnSide(Rsp.ClientGone)
  }

  predicate AllWorkOrLeave(ls: seq<Label>) {
    ls == [] || (WorksOrLeaves(ls[0]) && AllWorkOrLeave(ls[1..]))
  }

  /** The controller side of such a run: the receive loop ends only by a Done that runEcho has taken. */
  predicate ServedUnlessLeft(s: Rsp.Side) {
    && s.flush.Idle? && NoFailureUnlessLeft(s)
    && (s.receiver.Returned? <==> !s.registered)
    && (s.receiver.Leaving? || s.receiver.Returned? <==> s.writer == Rsp.Finished(Rsp.ByDone))
  }

  predicate NoFailureUnlessLeft(s: Rsp.Side) {
    && (s.writer.Finished? ==> s.writer.why.ByDone? || s.writer.why.ByClient?)
    && (s.receiver.Offering? ==>
          s.receiver.offer.after.None? && !s.receiver.offer.sig.SigFail?
          && (s.receiver.exits <==> s.receiver.offer.sig.SigDone?))
  }

  ghost predicate Attended(p: Pipe) {
    && ServedUnlessLeft(p.side)
    && !p.link.Down? && p.sender != Gone(false) && (p.sender.Gone? ==> p.side.receiver.Returned?)
  }

  lemma AttendedStep(p: Pipe, l: Label)
    requires Inv(p) && ClosesAtItsEnd(p) && Attended(p) && Enabled(p, l) && WorksOrLeaves(l)
    ensures Attended(Apply(p, l))
  {
    SideOnly(p, l);
    if l.OnSide? {
      if l.l.NextEvent? {
        ServedNext(p, l.l.ev);
      } else if l.l.FirstEvent? {
        ServedFirst(p, l.l.ev);
      } else {
        ServedElse(p.side, l.l);
      }
    }
    if Works(l) {
      LinkStep(p, l);
    }
  }

  lemma ServedElse(s: Rsp.Side, c: Rsp.Label)
    requires ServedUnlessLeft(s) && Rsp.Enabled(s, c) && WorksOrLeaves(OnSide(c)) && !c.NextEvent? && !c.FirstEvent?
    ensures ServedUnlessLeft(Rsp.Apply(s, c))
  {
  }

  lemma ServedFirst(p: Pipe, ev: Ctl.Event)
    requires Fifo(p) && Tracking(p.side) && Attended(p) && Enabled(p, OnSide(Rsp.FirstEvent(ev)))
    requires p.link.HalfClosed? && !p.side.receiver.Returned? ==> HasTerminal(p.side.received + p.wire)
    ensures ServedUnlessLeft(Rsp.Apply(p.side, Rsp.FirstEvent(ev)))
  {
    if ev.Msg? {
      NextOnWire(p);
    }
  }

  lemma ServedNext(p: Pipe, ev: Ctl.Event)
    requires Fifo(p) && Linked(p) && Producing(p) && Tracking(p.side) && ClosesAtItsEnd(p)
    requires Attended(p) && Enabled(p, OnSide(Rsp.NextEvent(ev)))
    ensures ServedUnlessLeft(Rsp.Apply(p.side, Rsp.NextEvent(ev)))
  {
    if ev.Msg? {
      NextOnWire(p);
    } else if ev.Eof? {
      NoEofBeforeEnd(p);
    }
  }

  lemma {:induction false} AttendedRun(p: Pipe, ls: seq<Label>, q: Pipe)
    requires Inv(p) && LoopAt(p) && ClosesAtItsEnd(p) && Attended(p) && Run(p, ls, q) && AllWorkOrLeave(ls)
    ensures Attended(q)
    decreases |ls|
  {
    if ls != [] {
      UncancelledStep(p, ls[0]);
      AttendedStep(p, ls[0]);
      AttendedRun(Apply(p, ls[0]), ls[1..], q);
    }
  }

  /**
    A client that leaves before the Done holds up the others for ever. In a run in which nothing else goes wrong,
    once nothing more can happen either a Done was taken and all four goroutines have returned, or the client
    has left: then the receive loop is in a send to runEcho, the stream is in the table, and the agent's sender
    waits for the end of the data flow.
   */
  lemma ClientGoneHoldsUp(id: StreamId, job: Job, ls: seq<Label>, p: Pipe)
    requires EndsUncancelled(job) && Run(Start(id, job), ls, p) && AllWorkOrLeave(ls) && Stuck(p)
    ensures p.side.receiver.Returned? <==> p.side.writer == Rsp.Finished(Rsp.ByDone)
    ensures if p.side.receiver.Returned? then AllReturned(p)
            else p.side.writer == Rsp.Finished(Rsp.ByClient) && p.side.receiver.Offering? && p.side.registered
                 && p.pc.Ended? && p.ops == [] && p.sender.Draining?
  {
    InvStart(id, job);
    UncancelledInvariants(id, job, ls, p);
    AttendedRun(Start(id, job), ls, p);
    if p.pc.Polling? || p.pc.Reading? {
      NextTurnUncancelled(p);
    }
    StuckNotWriting(p, false);
    StuckAgent(p);
    StuckSide(p);
  }

  lemma StuckAgent(p: Pipe)
    requires Inv(p) && ClosesAtItsEnd(p) && Attended(p) && Stuck(p) && !AwaitsRead(p)
    ensures p.pc.Ended? && p.ops == [] && (p.sender.Draining? || p.sender.Gone?)
    ensures p.side.receiver.Returned? ==> p.sender.Gone?
  {
    if !p.sender.Draining? && !p.sender.Gone? {
      if p.link.Up? || !p.sender.Opening? {
        var l := AdvanceAgent(p);
      }
    }
    if p.side.receiver.Returned? {
      assert !Enabled(p, SenderReturns) by { assert Works(SenderReturns); }
    }
  }

  lemma StuckSide(p: Pipe)
    requires Attended(p) && LeavesInOrder(p) && Stuck(p) && (p.sender.Draining? || p.sender.Gone?)
    requires !p.side.writer.Writing?
    ensures if p.side.receiver.Returned? then p.side.writer == Rsp.Finished(Rsp.ByDone)
            else p.side.receiver.Offering? && p.side.writer == Rsp.Finished(Rsp.ByClient)
  {
    var handOff, unregister := OnSide(Rsp.HandOff), OnSide(Rsp.Unregister);
    assert !Enabled(p, handOff) && !Enabled(p, unregister) by { assert Works(handOff) && Works(unregister); }
    if p.side.receiver.AwaitId? || p.side.receiver.Receiving? {
      var l := AdvanceReceiver(p);
    }
  }
}
