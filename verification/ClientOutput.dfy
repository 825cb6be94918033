/**
  Exactly what the HTTP client is sent when a response ends by Done: it depends on the request alone, not on
  the interleaving. And when that is the complete upstream body.
 */
module ClientOutput {
  import opened Tunnel
  import opened AgentChannel
  import opened AgentGrammar
  import Ctl = ControllerEcho
  import Rsp = Response
  import opened Pipeline
  import opened Delivery

  /** What a message makes runEcho send, when it gets that far. */
  function EventOf(m: StreamFlow): seq<Rsp.HttpEvent> {
    match m
    case Headers(h) => [Rsp.WriteHeader(h.statusCode, h.headers)]
    case Data(data) => [Rsp.Body(data)]
    case _ => []
  }

  function EventsOf(ms: seq<StreamFlow>): seq<Rsp.HttpEvent> {
    if ms == [] then [] else EventOf(ms[0]) + EventsOf(ms[1..])
  }

  lemma {:induction false} EventsConcat(a: seq<StreamFlow>, b: seq<StreamFlow>)
    ensures EventsOf(a + b) == EventsOf(a) + EventsOf(b)
  {
    if a == [] {
      assert a + b == b;
    } else {
      var rest := a[1..];
      EventsConcat(rest, b);
      assert a == [a[0]] + rest && a + b == [a[0]] + (rest + b);
      FirstEvents(a[0], rest);
      FirstEvents(a[0], rest + b);
      Associate(EventOf(a[0]), EventsOf(rest), EventsOf(b));
    }
  }

  lemma FirstEvents(m: StreamFlow, rest: seq<StreamFlow>)
    ensures EventsOf([m] + rest) == EventOf(m) + EventsOf(rest)
  {
    assert ([m] + rest)[1..] == rest;
  }

  lemma EventsOfOne(m: StreamFlow)
    ensures EventsOf([m]) == EventOf(m)
  {
    assert [m][1..] == [];
  }

  lemma {:induction false} NoEvents(ms: seq<StreamFlow>)
    requires forall i :: 0 <= i < |ms| ==> !ms[i].Data? && !ms[i].Headers?
    ensures EventsOf(ms) == []
  {
    if ms != [] {
      NoEvents(ms[1..]);
    }
  }

  // ------------------------------------------------------------------------
  // On the controller
  // ------------------------------------------------------------------------

  /** What the writer is sending, or is about to be handed. */
  function Upcoming(s: Rsp.Side): seq<Rsp.HttpEvent> {
    (if s.writer.Writing? then [Rsp.Body(s.writer.chunk)] else [])
    + if !s.receiver.Offering? then []
      else match s.receiver.offer.sig
        case SigHeaders(h) => [Rsp.WriteHeader(h.statusCode, h.headers)]
        case SigData(data) => [Rsp.Body(data)]
        case _ => []
  }

  /** runEcho is at work, or has ended by Done. */
  predicate Serves(s: Rsp.Side) {
    s.writer.Finished? ==> s.writer.why.ByDone?
  }

  /** As long as runEcho serves, what was received is what was sent and what comes next. */
  ghost predicate Echoed(s: Rsp.Side) {
    Serves(s) ==> s.out + Upcoming(s) == EventsOf(s.received)
  }

  lemma EchoedStep(p: Pipe, l: Label)
    requires Fifo(p) && Producing(p) && Linked(p) && Tracking(p.side) && Echoed(p.side) && Enabled(p, l)
    ensures Echoed(Apply(p, l).side)
  {
    if l.OnSide? {
      if l.l.FirstEvent? {
        EchoedFirst(p, l.l.ev);
      } else if l.l.NextEvent? {
        EchoedNext(p, l.l.ev);
      } else {
        EchoedElse(p.side, l.l);
      }
    }
  }

  lemma EchoedFirst(p: Pipe, ev: Ctl.Event)
    requires Fifo(p) && Tracking(p.side) && Echoed(p.side) && Enabled(p, OnSide(Rsp.FirstEvent(ev)))
    ensures Echoed(Rsp.Apply(p.side, Rsp.FirstEvent(ev)))
  {
    EventsConcat(p.side.received, Rsp.Arrived(ev));
    if ev.Msg? {
      NextOnWire(p);
      EventsOfOne(ev.msg);
    }
  }

  lemma EchoedNext(p: Pipe, ev: Ctl.Event)
    requires Fifo(p) && Producing(p) && Linked(p) && Tracking(p.side) && Echoed(p.side)
    requires Enabled(p, OnSide(Rsp.NextEvent(ev)))
    ensures Echoed(Rsp.Apply(p.side, Rsp.NextEvent(ev)))
  {
    var s := p.side;
    if Serves(s) {
      if ev.Msg? {
        NextIsTaken(p, ev.msg);
      }
      GoesOnOffer(s, ev);
      EventsConcat(s.received, Rsp.Arrived(ev));
      Associate(s.out, Upcoming(s), EventsOf(Rsp.Arrived(ev)));
    }
  }

  lemma GoesOnOffer(s: Rsp.Side, ev: Ctl.Event)
    requires s.receiver.Receiving?
    requires ev.Msg? ==> (ev.msg.Headers? ==> s.phase.AwaitHeaders?) && (ev.msg.Data? ==> s.phase.AwaitData?)
    ensures Upcoming(Rsp.Receive(s, ev)) == Upcoming(s) + EventsOf(Rsp.Arrived(ev))
  {
    if ev.Msg? {
      EventsOfOne(ev.msg);
    }
  }

  /** A message that arrives before runEcho has ended goes on offer, if there is something in it to write. */
  lemma NextIsTaken(p: Pipe, m: StreamFlow)
    requires Fifo(p) && Producing(p) && Tracking(p.side) && Enabled(p, OnSide(Rsp.NextEvent(Ctl.Msg(m))))
    requires Serves(p.side)
    ensures m.Headers? ==> p.side.phase.AwaitHeaders?
    ensures m.Data? ==> p.side.phase.AwaitData?
  {
    NextOnWire(p);
  }

  lemma EchoedElse(s: Rsp.Side, l: Rsp.Label)
    requires Tracking(s) && Echoed(s) && Rsp.Enabled(s, l) && !l.FirstEvent? && !l.NextEvent?
    ensures Echoed(Rsp.Apply(s, l))
  {
    if l.HandOff? {
      EchoedHandOff(s);
    } else if l.Write? {
      EchoedWrite(s, l.n, l.ok);
    }
  }

  lemma EchoedHandOff(s: Rsp.Side)
    requires Echoed(s) && Rsp.Enabled(s, Rsp.HandOff)
    requires s.receiver.offer.sig.SigData? || s.receiver.offer.sig.SigHeaders? || s.receiver.exits
    ensures Echoed(Rsp.Apply(s, Rsp.HandOff))
  {
    var t := Rsp.Apply(s, Rsp.HandOff);
    if Serves(t) {
      assert t.out + Upcoming(t) == s.out + Upcoming(s);
    }
  }

  lemma EchoedWrite(s: Rsp.Side, n: nat, ok: bool)
    requires Echoed(s) && Rsp.Enabled(s, Rsp.Write(n, ok))
    ensures Echoed(Rsp.Apply(s, Rsp.Write(n, ok)))
  {
    var t := Rsp.Apply(s, Rsp.Write(n, ok));
    if ok {
      assert s.writer.chunk[..n] == s.writer.chunk;
      assert Upcoming(s) == [Rsp.Body(s.writer.chunk)] + Upcoming(t);
      assert t.out + Upcoming(t) == s.out + ([Rsp.Body(s.writer.chunk)] + Upcoming(t));
    }
  }

  lemma {:induction false} EchoedRun(p: Pipe, ls: seq<Label>, q: Pipe)
    requires Inv(p) && Echoed(p.side) && Run(p, ls, q)
    ensures Echoed(q.side)
    decreases |ls|
  {
    if ls != [] {
      InvStep(p, ls[0]);
      EchoedStep(p, ls[0]);
      EchoedRun(Apply(p, ls[0]), ls[1..], q);
    }
  }

  // ------------------------------------------------------------------------
  // On the agent
  // ------------------------------------------------------------------------

  /** The messages with something to write that `n` turns of a job make. */
  function Substance(id: StreamId, job: Job, n: nat): seq<StreamFlow>
    requires job.Response? ==> n <= |job.turns|
  {
    [Headers(Answer(id, job))] + if job.Response? then DataMsgs(job.turns[..n]) else []
  }

  ghost predicate Tells(p: Pipe) {
    && (p.job.Response? ==> p.next <= |p.job.turns|)
    && (p.produced != [] ==> EventsOf(p.produced) == EventsOf(Substance(p.id, p.job, p.next)))
  }

  lemma TellsStep(p: Pipe, l: Label)
    requires Producing(p) && Tells(p) && Enabled(p, l)
    ensures Tells(Apply(p, l))
  {
    if l.Begin? {
      TellsBegin(p);
    } else if l.Poll? {
      TellsPoll(p);
    } else if l.ReadBody? {
      TellsRead(p);
    } else {
      TellsElse(p, l);
    }
  }

  lemma TellsElse(p: Pipe, l: Label)
    requires Tells(p) && Enabled(p, l) && !l.Begin? && !l.Poll? && !l.ReadBody?
    ensures Tells(Apply(p, l))
  {
    var q := Apply(p, l);
    assert q.produced == p.produced && q.next == p.next && q.job == p.job && q.id == p.id;
  }

  lemma TellsBegin(p: Pipe)
    requires Producing(p) && Enabled(p, Begin)
    ensures Tells(Apply(p, Begin))
  {
    var q := Apply(p, Begin);
    var first := Headers(Answer(p.id, p.job));
    if p.job.Response? {
      assert SendsOf(OnHeaders(p.st, p.job.h).ops) == [first];
      assert [] + [first] == [first] && DataMsgs(p.job.turns[..0]) == [];
      assert q.produced == Substance(p.id, p.job, 0);
    } else {
      RefusalSends(p.id);
      EventsConcat([first], [Done, Done]);
      NoEvents([Done, Done]);
      assert [] + [first, Done, Done] == [first] + [Done, Done];
      assert EventsOf([first]) + [] == EventsOf([first]);
      assert Substance(p.id, p.job, q.next) == [first];
    }
  }

  lemma TellsPoll(p: Pipe)
    requires Producing(p) && Tells(p) && Enabled(p, Poll)
    ensures Tells(Apply(p, Poll))
  {
    var ms := SendsOf(Apply(p, Poll).ops);
    assert ms == [] || ms == [Cancel];
    EventsConcat(p.produced, ms);
    NoEvents(ms);
    assert EventsOf(p.produced) + [] == EventsOf(p.produced);
  }

  lemma TellsRead(p: Pipe)
    requires p.st.headersSent && p.produced != [] && Tells(p) && Enabled(p, ReadBody)
    ensures Tells(Apply(p, ReadBody))
  {
    var r := p.job.turns[p.next];
    ReadProduces(p);
    MoreTold(p.id, p.job, p.next, p.produced, EndMsgs(p.st.closed, r.err));
  }

  lemma ReadProduces(p: Pipe)
    requires p.st.headersSent && Enabled(p, ReadBody)
    ensures var r, q := p.job.turns[p.next], Apply(p, ReadBody);
      && q.produced == p.produced + (DataMsg(r) + EndMsgs(p.st.closed, r.err))
      && q.next == p.next + 1 && q.job == p.job && q.id == p.id
  {
    ReadSends(p.st, p.id, p.job.turns[p.next]);
  }

  lemma MoreTold(id: StreamId, job: Job, n: nat, ms: seq<StreamFlow>, end: seq<StreamFlow>)
    requires job.Response? && n < |job.turns| && EventsOf(ms) == EventsOf(Substance(id, job, n))
    requires forall i :: 0 <= i < |end| ==> end[i].Done?
    ensures EventsOf(ms + (DataMsg(job.turns[n]) + end)) == EventsOf(Substance(id, job, n + 1))
  {
    OnlySubstance(ms, DataMsg(job.turns[n]), end);
    MoreSubstance(id, job, n);
    EventsConcat(Substance(id, job, n), DataMsg(job.turns[n]));
  }

  lemma OnlySubstance(ms: seq<StreamFlow>, data: seq<StreamFlow>, end: seq<StreamFlow>)
    requires forall i :: 0 <= i < |end| ==> end[i].Done?
    ensures EventsOf(ms + (data + end)) == EventsOf(ms) + EventsOf(data)
  {
    EventsConcat(ms, data + end);
    EventsConcat(data, end);
    NoEvents(end);
    assert EventsOf(data) + [] == EventsOf(data);
  }

  lemma MoreSubstance(id: StreamId, job: Job, n: nat)
    requires job.Response? && n < |job.turns|
    ensures Substance(id, job, n + 1) == Substance(id, job, n) + DataMsg(job.turns[n])
  {
    MessagesSnoc(job.turns, n);
  }

  lemma {:induction false} MessagesSnoc(turns: seq<Read>, n: nat)
    requires n < |turns|
    ensures DataMsgs(turns[..n + 1]) == DataMsgs(turns[..n]) + DataMsg(turns[n])
    decreases n
  {
    if n == 0 {
      assert turns[..1][1..] == [];
    } else {
      MessagesSnoc(turns[1..], n - 1);
      assert turns[..n + 1][1..] == turns[1..][..n];
      assert turns[..n][1..] == turns[1..][..n - 1];
    }
  }

  lemma {:induction false} TellsRun(p: Pipe, ls: seq<Label>, q: Pipe)
    requires Producing(p) && Tells(p) && Run(p, ls, q)
    ensures Tells(q)
    decreases |ls|
  {
    if ls != [] {
      ProducingStep(p, ls[0]);
      TellsStep(p, ls[0]);
      TellsRun(Apply(p, ls[0]), ls[1..], q);
    }
  }

  // ------------------------------------------------------------------------
  // The whole response
  // ------------------------------------------------------------------------

  /** How many turns a job takes. */
  function Taken(job: Job): nat {
    if job.Response? then |Reached(job.turns)| else 0
  }

  /** The output a job determines. */
  function Shown(id: StreamId, job: Job): seq<Rsp.HttpEvent> {
    EventsOf(Substance(id, job, Taken(job)))
  }

  /**
    If runEcho returns because of a Done message, the client was sent the job's status and headers and its
    chunks as they were read, whatever the interleaving. So all runs of a job that end by Done look the same.
   */
  lemma DoneShows(id: StreamId, job: Job, ls: seq<Label>, p: Pipe)
    requires Run(Start(id, job), ls, p) && p.side.writer == Rsp.Finished(Rsp.ByDone)
    ensures p.side.out == Shown(id, job)
  {
    InvStart(id, job);
    RunInvariants(id, job, ls, p);
    EchoedRun(Start(id, job), ls, p);
    TellsRun(Start(id, job), ls, p);
    DoneState(p);
    ShownAtDone(p);
  }

  lemma ShownAtDone(p: Pipe)
    requires Fifo(p) && Producing(p) && LoopAt(p) && Tells(p) && Echoed(p.side) && Tracking(p.side)
    requires p.side.writer == Rsp.Finished(Rsp.ByDone) && p.produced != []
    ensures p.side.out == Shown(p.id, p.job)
  {
    var rest := NothingAfterDone(p);
    EverythingTold(p.id, p.produced, p.side.received, rest);
    TakenIs(p);
    assert Upcoming(p.side) == [] && p.side.out + [] == p.side.out;
  }

  lemma TakenIs(p: Pipe)
    requires Producing(p) && LoopAt(p) && !NoDone(p.produced)
    ensures p.job.Response? ==> p.next == Taken(p.job)
    ensures Substance(p.id, p.job, if p.job.Response? then p.next else 0) == Substance(p.id, p.job, Taken(p.job))
  {
    if p.job.Response? {
      ReachedIs(p.job.turns, p.next);
    }
  }

  lemma EverythingTold(id: StreamId, produced: seq<StreamFlow>, r: seq<StreamFlow>, rest: seq<StreamFlow>)
    requires r + rest == [StreamID(id)] + produced && forall i :: 0 <= i < |rest| ==> rest[i].Done?
    ensures EventsOf(r) == EventsOf(produced)
  {
    NoEvents(rest);
    EventsConcat(r, rest);
    EventsConcat([StreamID(id)], produced);
    NoEvents([StreamID(id)]);
    assert EventsOf(r) + [] == EventsOf(r) && [] + EventsOf(produced) == EventsOf(produced);
  }

  // ------------------------------------------------------------------------
  // A body cut short looks like a complete one
  // ------------------------------------------------------------------------

  /** The reads of a job may come of an upstream body `body`: they give it from its start, and EOF comes at its end. */
  ghost predicate Upstream(job: Job, body: Bytes) {
    job.Response? ==> Fetched(job) <= body && (EndsByEof(job) ==> Fetched(job) == body)
  }

  /**
    A response that ends by Done is sure to carry the complete upstream body exactly when there was an upstream
    response and its last read met the end of the body. A read that failed ends the response by Done as well.
   */
  lemma DoneIsCompleteExactlyWhen(id: StreamId, job: Job, ls: seq<Label>, p: Pipe)
    requires Run(Start(id, job), ls, p) && p.side.writer == Rsp.Finished(Rsp.ByDone)
    ensures (forall body :: Upstream(job, body) ==> Written(p.side.out) == body) <==> EndsByEof(job)
  {
    DoneMeansComplete(id, job, ls, p);
    if !EndsByEof(job) {
      assert Upstream(job, Fetched(job) + [0]);
    } else {
      assert Upstream(job, Fetched(job));
    }
  }

  /** The client cannot tell: whether the last read met the end of the body or failed, it is sent the same. */
  lemma FailedReadLooksComplete(id: StreamId, h: TunnelHeaders, turns: seq<Read>, last: Read,
                                ls: seq<Label>, p: Pipe, ls': seq<Label>, p': Pipe)
    requires forall i :: 0 <= i < |turns| ==> turns[i].err.NoError?
    requires Run(Start(id, Response(h, turns + [last.(err := Eof)])), ls, p)
    requires Run(Start(id, Response(h, turns + [last.(err := Broken)])), ls', p')
    requires p.side.writer == p'.side.writer == Rsp.Finished(Rsp.ByDone)
    ensures p.side.out == p'.side.out
  {
    var whole, cut := turns + [last.(err := Eof)], turns + [last.(err := Broken)];
    DoneShows(id, Response(h, whole), ls, p);
    DoneShows(id, Response(h, cut), ls', p');
    AllMessages(turns, last.(err := Eof));
    AllMessages(turns, last.(err := Broken));
  }

  lemma AllMessages(turns: seq<Read>, last: Read)
    requires !last.err.NoError? && forall i :: 0 <= i < |turns| ==> turns[i].err.NoError?
    ensures var all := turns + [last]; DataMsgs(all[..|Reached(all)|]) == DataMsgs(turns) + DataMsg(last)
  {
    var all := turns + [last];
    ReachedIs(all, |all|);
    MessagesSnoc(all, |turns|);
    assert all[..|turns|] == turns && all[..|all|] == all;
  }
}
