/**
  All responses at once: the step system of module Controller with a pipeline of module Pipeline for every
  request an agent has taken. A handover, a lookup, an unregistration, a flush and a client that leaves are
  steps of both. Which API handler sends what is recorded as the controller's tables and flows say.
 */
module Tunnels {
  import opened Wrappers
  import opened Tunnel
  import AgentChannel
  import Echo = ControllerEcho
  import Rsp = Response
  import P = Pipeline
  import Delivery
  import Progress
  import ClientOutput
  import C = Controller

  datatype Whole = Whole(
    ctl: C.State,
    pipes: map<StreamId, P.Pipe>,
    server: map<StreamId, C.EchoRef>,                // the handler that was last handed a signal of a stream
    sent: map<C.EchoRef, seq<Rsp.HttpEvent>>)        // what each handler has sent its client

  function Start(): Whole {
    Whole(C.Start(), map[], map[], map[])
  }

  datatype Step =
    | Local(id: StreamId, l: P.Label)                          // of one pipeline only
    | Tables(c: C.Label)                                       // of the controller only
    | Take(w: nat, e: C.EchoRef, job: AgentChannel.Job)        // `job` is how the request will fare
    | Open(f: nat, id: StreamId)
    | Deliver(f: nat)
    | End(f: nat)
    | Leave(e: C.EchoRef)
    | WriteFails(id: StreamId, n: nat)
    | FlushStart(w: nat)
    | FlushOne(w: nat, id: StreamId)
    | FlushEnd(w: nat)

  /** The signal on offer ends runEcho. */
  predicate Ends(s: Rsp.Side) {
    s.receiver.Offering? && (s.receiver.offer.sig.SigDone? || s.receiver.offer.sig.SigFail?)
  }

  /** The controller's part in a step. */
  function CtlLabel(s: Whole, x: Step): Option<C.Label> {
    match x
    case Local(_, _) => None
    case Tables(c) => Some(c)
    case Take(w, e, _) => Some(C.Take(w, e))
    case Open(f, id) => Some(C.OpenFlow(f, id))
    case Deliver(f) =>
      var last := f in s.ctl.flows && s.ctl.flows[f].quoted in s.pipes && Ends(s.pipes[s.ctl.flows[f].quoted].side);
      Some(C.Deliver(f, last))
    case End(f) => Some(C.EndFlow(f))
    case Leave(e) => Some(C.ClientGone(e))
    case WriteFails(id, _) => if id in s.server then Some(C.ClientGone(s.server[id])) else None
    case FlushStart(w) => Some(C.FlushStart(w))
    case FlushOne(w, id) => Some(C.FlushOne(w, id))
    case FlushEnd(w) => Some(C.FlushEnd(w))
  }

  /** The part of the pipeline of stream `id`. */
  function PipeLabel(s: Whole, x: Step, id: StreamId): Option<P.Label> {
    match x
    case Local(i, l) => if i == id then Some(l) else None
    case Open(_, i) => if i == id then Some(P.OnSide(Rsp.FirstEvent(Echo.Msg(StreamID(id))))) else None
    case Deliver(f) => if Quotes(s, f, id) then Some(P.OnSide(Rsp.HandOff)) else None
    case End(f) => if Quotes(s, f, id) then Some(P.OnSide(Rsp.Unregister)) else None
    case Leave(e) => if C.HasId(s.ctl, e) && C.IdOf(s.ctl, e) == id then Some(P.OnSide(Rsp.ClientGone)) else None
    case WriteFails(i, n) => if i == id then Some(P.OnSide(Rsp.Write(n, false))) else None
    case FlushStart(w) =>
      if w in s.ctl.waiters && id in C.OfSession(s.ctl, s.ctl.waiters[w].key.sessionId)
      then Some(P.OnSide(Rsp.FlushStart)) else None
    case FlushOne(_, i) => if i == id then Some(P.OnSide(Rsp.FlushHandOff)) else None
    case _ => None
  }

  predicate Quotes(s: Whole, f: nat, id: StreamId) {
    f in s.ctl.flows && s.ctl.flows[f].quoted == id
  }

  /** Steps of an agent need its request, and a lookup in vain the table. */
  predicate IsLocal(s: Whole, id: StreamId, l: P.Label) {
    match l
    case OnSide(c) =>
      (match c
       case FirstEvent(ev) => ev.Msg? && ev.msg.StreamID? ==> s.ctl.lock.None? && ev.msg.id !in s.ctl.streams
       case NextEvent(_) => true
       case Write(_, ok) => ok
       case FlushMark => true
       case _ => false)
    case _ => id in s.ctl.sent
  }

  predicate IsTables(c: C.Label) {
    !c.Take? && !c.OpenFlow? && !c.Deliver? && !c.EndFlow? && !c.ClientGone?
    && !c.FlushStart? && !c.FlushOne? && !c.FlushEnd?
  }

  ghost predicate Enabled(s: Whole, x: Step) {
    && (CtlLabel(s, x).Some? ==> C.Enabled(s.ctl, CtlLabel(s, x).value))
    && (forall id :: PipeLabel(s, x, id).Some? ==> id in s.pipes && P.Enabled(s.pipes[id], PipeLabel(s, x, id).value))
    && match x
       case Local(id, l) => IsLocal(s, id, l)
       case Tables(c) => IsTables(c)
       case WriteFails(id, _) => id in s.server
       case FlushEnd(_) => forall id :: id in s.pipes ==> !s.pipes[id].side.flush.Marking?
       case _ => true
  }

  ghost function NextPipe(s: Whole, x: Step, id: StreamId): P.Pipe
    requires Enabled(s, x) && id in s.pipes
  {
    var l := PipeLabel(s, x, id);
    if l.Some? then P.Apply(s.pipes[id], l.value) else s.pipes[id]
  }

  /** What a step makes a pipeline send. */
  ghost function News(s: Whole, x: Step, id: StreamId): seq<Rsp.HttpEvent>
    requires Enabled(s, x) && id in s.pipes
  {
    var before, after := s.pipes[id].side.out, NextPipe(s, x, id).side.out;
    if |before| <= |after| then after[|before|..] else []
  }

  /** The handler that sends it, and the stream it comes from. */
  function Sender(s: Whole, x: Step): Option<(C.EchoRef, StreamId)> {
    match x
    case Deliver(f) => if f in s.ctl.flows then Some((s.ctl.flows[f].echo, s.ctl.flows[f].quoted)) else None
    case Local(id, l) =>
      if l.OnSide? && l.l.Write? && id in s.server then Some((s.server[id], id)) else None
    case WriteFails(id, _) => if id in s.server then Some((s.server[id], id)) else None
    case _ => None
  }

  function Sent(s: Whole, e: C.EchoRef): seq<Rsp.HttpEvent> {
    if e in s.sent then s.sent[e] else []
  }

  ghost function Apply(s: Whole, x: Step): Whole
    requires Enabled(s, x)
  {
    var c := CtlLabel(s, x);
    var stepped := map id | id in s.pipes :: NextPipe(s, x, id);
    var who := Sender(s, x);
    Whole(
      if c.Some? then C.Apply(s.ctl, c.value) else s.ctl,
      if x.Take? then stepped[s.ctl.handlers[x.e].pc.id := P.Start(s.ctl.handlers[x.e].pc.id, x.job)] else stepped,
      if x.Deliver? then s.server[s.ctl.flows[x.f].quoted := s.ctl.flows[x.f].echo] else s.server,
      if who.Some? && who.value.1 in s.pipes
      then s.sent[who.value.0 := Sent(s, who.value.0) + News(s, x, who.value.1)] else s.sent)
  }

  ghost predicate Run(s: Whole, xs: seq<Step>, t: Whole)
    decreases |xs|
  {
    if xs == [] then s == t else Enabled(s, xs[0]) && Run(Apply(s, xs[0]), xs[1..], t)
  }

  // ------------------------------------------------------------------------
  // Each part runs as it would by itself
  // ------------------------------------------------------------------------

  /** Some run of its own leads the pipeline to where it is. */
  ghost predicate Reached(p: P.Pipe) {
    exists ls :: P.Run(P.Start(p.id, p.job), ls, p)
  }

  lemma ReachedStep(p: P.Pipe, l: P.Label)
    requires Reached(p) && P.Enabled(p, l)
    ensures Reached(P.Apply(p, l)) && P.Apply(p, l).id == p.id && P.Apply(p, l).job == p.job
  {
    var ls :| P.Run(P.Start(p.id, p.job), ls, p);
    Progress.OneMore(P.Start(p.id, p.job), ls, p, l);
    SameRequest(p, l);
  }

  lemma SameRequest(p: P.Pipe, l: P.Label)
    requires P.Enabled(p, l)
    ensures P.Apply(p, l).id == p.id && P.Apply(p, l).job == p.job
  {
  }

  lemma ReachedInv(p: P.Pipe)
    requires Reached(p)
    ensures P.Inv(p)
  {
    var ls :| P.Run(P.Start(p.id, p.job), ls, p);
    P.InvStart(p.id, p.job);
    P.InvRun(P.Start(p.id, p.job), ls, p);
  }

  /** A request is taken by the controller's Take and in no other way. */
  lemma TakenBefore(s: C.State, l: C.Label, e: C.EchoRef)
    requires C.Enabled(s, l) && C.WasTaken(C.Apply(s, l), e)
    ensures C.WasTaken(s, e) || (l.Take? && l.e == e)
    ensures C.HasId(s, e) && C.IdOf(s, e) == C.IdOf(C.Apply(s, l), e)
  {
  }

  lemma StillTaken(s: C.State, l: C.Label, e: C.EchoRef)
    requires C.Enabled(s, l) && C.WasTaken(s, e)
    ensures C.WasTaken(C.Apply(s, l), e) && C.IdOf(C.Apply(s, l), e) == C.IdOf(s, e)
  {
    C.HandlersStep(s, l);
  }

  // ------------------------------------------------------------------------
  // A pipeline for each request taken
  // ------------------------------------------------------------------------

  ghost predicate Paired(s: Whole) {
    && (forall e :: C.WasTaken(s.ctl, e) ==> C.IdOf(s.ctl, e) in s.pipes)
    && (forall id :: id in s.pipes ==>
          s.pipes[id].id == id && Reached(s.pipes[id]) && exists e :: C.Names(s.ctl, id, e))
  }

  lemma NewStream(s: Whole, w: nat, e: C.EchoRef)
    requires Paired(s) && C.IdsDistinct(s.ctl) && C.Enabled(s.ctl, C.Take(w, e))
    ensures s.ctl.handlers[e].pc.id !in s.pipes
  {
    var id := s.ctl.handlers[e].pc.id;
    if id in s.pipes {
      var e' :| C.Names(s.ctl, id, e');
      SameId(s.ctl, e, e');
    }
  }

  lemma SameId(s: C.State, e: C.EchoRef, e': C.EchoRef)
    requires C.IdsDistinct(s) && C.HasId(s, e) && C.HasId(s, e') && C.IdOf(s, e) == C.IdOf(s, e')
    ensures e == e'
  {
  }

  lemma PairedStep(s: Whole, x: Step)
    requires Paired(s) && Enabled(s, x)
    ensures Paired(Apply(s, x))
  {
    var t := Apply(s, x);
    forall e | C.WasTaken(t.ctl, e) ensures C.IdOf(t.ctl, e) in t.pipes {
      if CtlLabel(s, x).Some? {
        TakenBefore(s.ctl, CtlLabel(s, x).value, e);
      }
    }
    forall id | id in t.pipes
      ensures t.pipes[id].id == id && Reached(t.pipes[id]) && exists e :: C.Names(t.ctl, id, e)
    {
      PairedPipe(s, x, id);
    }
  }

  lemma PairedPipe(s: Whole, x: Step, id: StreamId)
    requires Paired(s) && Enabled(s, x) && id in Apply(s, x).pipes
    ensures var t := Apply(s, x); t.pipes[id].id == id && Reached(t.pipes[id]) && exists e :: C.Names(t.ctl, id, e)
  {
    var t := Apply(s, x);
    if x.Take? && id == s.ctl.handlers[x.e].pc.id {
      assert P.Run(P.Start(id, x.job), [], t.pipes[id]);
      assert C.Names(t.ctl, id, x.e);
    } else {
      var e :| C.Names(s.ctl, id, e);
      if CtlLabel(s, x).Some? {
        StillTaken(s.ctl, CtlLabel(s, x).value, e);
      }
      assert C.Names(t.ctl, id, e);
      if PipeLabel(s, x, id).Some? {
        ReachedStep(s.pipes[id], PipeLabel(s, x, id).value);
      }
    }
  }

  // ------------------------------------------------------------------------
  // What a handler has sent is what its own pipeline says
  // ------------------------------------------------------------------------

  ghost predicate Served(s: Whole) {
    && (forall id :: id in s.server ==> C.Names(s.ctl, id, s.server[id]))
    && (forall id :: id in s.pipes && s.pipes[id].side.writer.Writing? ==> id in s.server)
  }

  ghost predicate Credited(s: Whole) {
    && (forall e :: e in s.sent ==> C.WasTaken(s.ctl, e))
    && (forall e :: C.WasTaken(s.ctl, e) ==> CreditedTo(s, e))
  }

  ghost predicate CreditedTo(s: Whole, e: C.EchoRef)
    requires C.WasTaken(s.ctl, e)
  {
    C.IdOf(s.ctl, e) in s.pipes && Sent(s, e) == s.pipes[C.IdOf(s.ctl, e)].side.out
  }

  lemma NamesStays(s: Whole, x: Step, id: StreamId, e: C.EchoRef)
    requires Enabled(s, x) && C.Names(s.ctl, id, e)
    ensures C.Names(Apply(s, x).ctl, id, e)
  {
    if CtlLabel(s, x).Some? {
      StillTaken(s.ctl, CtlLabel(s, x).value, e);
    }
  }

  lemma ServedStep(s: Whole, x: Step)
    requires Served(s) && C.FlowsMatch(s.ctl) && Enabled(s, x)
    ensures Served(Apply(s, x))
  {
    var t := Apply(s, x);
    forall id | id in t.server ensures C.Names(t.ctl, id, t.server[id]) {
      NamesStays(s, x, id, t.server[id]);
    }
    forall id | id in t.pipes && t.pipes[id].side.writer.Writing? ensures id in t.server {
      if id in s.pipes && t.pipes[id] == NextPipe(s, x, id) {
        WritingBefore(s, x, id);
      }
    }
  }

  lemma WritingBefore(s: Whole, x: Step, id: StreamId)
    requires Enabled(s, x) && id in s.pipes && NextPipe(s, x, id).side.writer.Writing?
    ensures s.pipes[id].side.writer.Writing? || (x.Deliver? && Quotes(s, x.f, id))
  {
    if PipeLabel(s, x, id).Some? {
      var l := PipeLabel(s, x, id).value;
      P.SideOnly(s.pipes[id], l);
      if l.OnSide? {
        OnlyHandOff(s.pipes[id].side, l.l);
      }
    }
  }

  lemma OnlyHandOff(s: Rsp.Side, c: Rsp.Label)
    requires Rsp.Enabled(s, c) && Rsp.Apply(s, c).writer.Writing?
    ensures s.writer.Writing? || c.HandOff?
  {
  }

  /** A step sends for a handler what comes from that handler's stream. */
  lemma SenderNames(s: Whole, x: Step)
    requires Served(s) && C.FlowsMatch(s.ctl) && Enabled(s, x)
    ensures Sender(s, x).Some? ==> C.Names(s.ctl, Sender(s, x).value.1, Sender(s, x).value.0)
  {
  }

  /** And no stream's pipeline sends anything but so. */
  lemma OnlySenders(s: Whole, x: Step, id: StreamId)
    requires Served(s) && Enabled(s, x) && id in s.pipes
    ensures NextPipe(s, x, id).side.out
         == s.pipes[id].side.out + if SendsFor(s, x, id) then News(s, x, id) else []
  {
    var out := s.pipes[id].side.out;
    assert out + [] == out;
    if PipeLabel(s, x, id).Some? {
      P.SideOnly(s.pipes[id], PipeLabel(s, x, id).value);
      if PipeLabel(s, x, id).value.OnSide? {
        OneGrows(s.pipes[id].side, PipeLabel(s, x, id).value.l);
        WritesFor(s, x, id);
      }
    }
  }

  lemma WritesFor(s: Whole, x: Step, id: StreamId)
    requires Served(s) && Enabled(s, x) && id in s.pipes && PipeLabel(s, x, id).Some?
    ensures var l := PipeLabel(s, x, id).value;
      l.OnSide? && (l.l.HandOff? || l.l.Write?) ==> SendsFor(s, x, id)
  {
  }

  lemma OneGrows(s: Rsp.Side, l: Rsp.Label)
    requires Rsp.Enabled(s, l)
    ensures s.out <= Rsp.Apply(s, l).out
    ensures !l.HandOff? && !l.Write? ==> Rsp.Apply(s, l).out == s.out
  {
  }

  lemma CreditedStep(s: Whole, x: Step)
    requires Credited(s) && Served(s) && C.IdsDistinct(s.ctl) && C.FlowsMatch(s.ctl) && Paired(s) && Enabled(s, x)
    ensures Credited(Apply(s, x))
  {
    var t := Apply(s, x);
    forall e | e in t.sent ensures C.WasTaken(t.ctl, e) {
      SenderTaken(s, x, e);
    }
    forall e | C.WasTaken(t.ctl, e) ensures CreditedTo(t, e) {
      if C.WasTaken(s.ctl, e) {
        assert CreditedTo(s, e);
        StillCredited(s, x, e);
      } else {
        NewlyCredited(s, x, e);
      }
    }
  }

  lemma SenderTaken(s: Whole, x: Step, e: C.EchoRef)
    requires Credited(s) && Served(s) && C.FlowsMatch(s.ctl) && Enabled(s, x) && e in Apply(s, x).sent
    ensures C.WasTaken(Apply(s, x).ctl, e)
  {
    SenderNames(s, x);
    if e in s.sent {
      NamesStays(s, x, C.IdOf(s.ctl, e), e);
    } else {
      NamesStays(s, x, Sender(s, x).value.1, e);
    }
  }

  lemma StillCredited(s: Whole, x: Step, e: C.EchoRef)
    requires CreditedTaken(s, e) && Served(s) && C.IdsDistinct(s.ctl) && C.FlowsMatch(s.ctl)
    requires Paired(s) && Enabled(s, x)
    ensures CreditedTaken(Apply(s, x), e)
  {
    var id := C.IdOf(s.ctl, e);
    NamesStays(s, x, id, e);
    StillThere(s, x, id);
    OnlySenders(s, x, id);
    SentMore(s, x, e);
    SendsForIts(s, x, e);
  }

  ghost predicate CreditedTaken(s: Whole, e: C.EchoRef) {
    C.WasTaken(s.ctl, e) && CreditedTo(s, e)
  }

  predicate SendsFor(s: Whole, x: Step, id: StreamId) {
    Sender(s, x).Some? && Sender(s, x).value.1 == id
  }

  lemma SendsForIts(s: Whole, x: Step, e: C.EchoRef)
    requires Served(s) && C.IdsDistinct(s.ctl) && C.FlowsMatch(s.ctl) && Enabled(s, x) && C.WasTaken(s.ctl, e)
    ensures SendsFor(s, x, C.IdOf(s.ctl, e)) <==> Sender(s, x).Some? && Sender(s, x).value.0 == e
  {
    SenderNames(s, x);
    if SendsFor(s, x, C.IdOf(s.ctl, e)) {
      SameId(s.ctl, Sender(s, x).value.0, e);
    }
  }

  lemma StillThere(s: Whole, x: Step, id: StreamId)
    requires Paired(s) && C.IdsDistinct(s.ctl) && Enabled(s, x) && id in s.pipes
    ensures id in Apply(s, x).pipes && Apply(s, x).pipes[id] == NextPipe(s, x, id)
  {
    if x.Take? {
      NewStream(s, x.w, x.e);
    }
  }

  lemma SentMore(s: Whole, x: Step, e: C.EchoRef)
    requires Enabled(s, x)
    ensures Sent(Apply(s, x), e) == Sent(s, e)
         + if Sender(s, x).Some? && Sender(s, x).value.0 == e && Sender(s, x).value.1 in s.pipes
           then News(s, x, Sender(s, x).value.1) else []
  {
    assert Sent(s, e) + [] == Sent(s, e);
  }

  lemma NewlyCredited(s: Whole, x: Step, e: C.EchoRef)
    requires Credited(s) && Enabled(s, x) && !C.WasTaken(s.ctl, e) && C.WasTaken(Apply(s, x).ctl, e)
    ensures CreditedTo(Apply(s, x), e)
  {
    TakenBefore(s.ctl, CtlLabel(s, x).value, e);
    assert x.Take? && x.e == e && e !in s.sent;
  }

  // ------------------------------------------------------------------------
  // The controller's view of a stream and the pipeline's are the same
  // ------------------------------------------------------------------------

  /** A handler is in runEcho exactly while its pipeline's writer is. */
  ghost predicate Awake(s: Whole) {
    forall e :: C.WasTaken(s.ctl, e) && C.IdOf(s.ctl, e) in s.pipes ==>
      (C.IsRunning(s.ctl, e) <==> !s.pipes[C.IdOf(s.ctl, e)].side.writer.Finished?)
  }

  /** The handler whose call of runEcho a step of the controller ends. */
  function Ended(s: C.State, c: C.Label): Option<C.EchoRef> {
    match c
    case Deliver(f, last) => if last && f in s.flows then Some(s.flows[f].echo) else None
    case ClientGone(e) => Some(e)
    case FlushOne(_, id) => if id in s.streams then Some(s.streams[id].echo) else None
    case _ => None
  }

  lemma EndedRuns(s: C.State, c: C.Label, e: C.EchoRef)
    requires C.Enabled(s, c) && C.WasTaken(s, e)
    ensures C.IsRunning(C.Apply(s, c), e) <==> C.IsRunning(s, e) && Ended(s, c) != Some(e)
  {
  }

  /** A step that ends the writer. */
  predicate EndsSide(s: Rsp.Side, c: Rsp.Label) {
    (c.HandOff? && Ends(s)) || c.ClientGone? || (c.Write? && !c.ok) || c.FlushHandOff?
  }

  predicate EndsWriter(p: P.Pipe, l: P.Label) {
    l.OnSide? && EndsSide(p.side, l.l)
  }

  lemma EndedWrites(p: P.Pipe, l: P.Label)
    requires P.Enabled(p, l)
    ensures P.Apply(p, l).side.writer.Finished? <==> p.side.writer.Finished? || EndsWriter(p, l)
  {
    P.SideOnly(p, l);
    if l.OnSide? {
      EndedWriter(p.side, l.l);
    }
  }

  lemma EndedWriter(s: Rsp.Side, c: Rsp.Label)
    requires Rsp.Enabled(s, c)
    ensures Rsp.Apply(s, c).writer.Finished? <==> s.writer.Finished? || EndsSide(s, c)
  {
  }

  predicate EndsHandler(s: Whole, x: Step, e: C.EchoRef) {
    CtlLabel(s, x).Some? && Ended(s.ctl, CtlLabel(s, x).value) == Some(e)
  }

  predicate EndsStream(s: Whole, x: Step, id: StreamId)
    requires id in s.pipes
  {
    PipeLabel(s, x, id).Some? && EndsWriter(s.pipes[id], PipeLabel(s, x, id).value)
  }

  /** What is known of the handlers and streams a step names. */
  ghost predicate Known(s: Whole, x: Step) {
    match x
    case Local(id, l) => IsLocal(s, id, l)
    case Tables(c) => IsTables(c)
    case Deliver(f) => f in s.ctl.flows && C.Names(s.ctl, s.ctl.flows[f].quoted, s.ctl.flows[f].echo)
    case WriteFails(id, _) => id in s.server && C.Names(s.ctl, id, s.server[id])
    case FlushOne(_, id) => id in s.ctl.streams && C.EntryMatches(s.ctl, id, s.ctl.streams[id])
    case Leave(e) => C.WasTaken(s.ctl, e)
    case _ => true
  }

  lemma StepKnown(s: Whole, x: Step)
    requires Enabled(s, x) && Served(s) && C.FlowsMatch(s.ctl) && C.StreamsMatch(s.ctl)
    ensures Known(s, x)
  {
  }

  /** A step that ends a handler ends the writer of the handler's stream, and the other way round. */
  lemma EndsBoth(s: Whole, x: Step, e: C.EchoRef)
    requires Known(s, x) && C.IdsDistinct(s.ctl)
    requires C.WasTaken(s.ctl, e) && C.IdOf(s.ctl, e) in s.pipes
    ensures EndsHandler(s, x, e) <==> EndsStream(s, x, C.IdOf(s.ctl, e))
  {
    if x.Deliver? {
      DeliverEnds(s, x.f, e);
    } else if x.WriteFails? {
      WriteEnds(s, x.id, x.n, e);
    } else if x.FlushOne? {
      FlushEnds(s, x.w, x.id, e);
    } else if x.Leave? {
      LeaveEnds(s, x.e, e);
    } else {
      NeitherEnds(s, x, e);
    }
  }

  lemma NeitherEnds(s: Whole, x: Step, e: C.EchoRef)
    requires Known(s, x) && C.WasTaken(s.ctl, e) && C.IdOf(s.ctl, e) in s.pipes
    requires !x.Deliver? && !x.WriteFails? && !x.FlushOne? && !x.Leave?
    ensures !EndsHandler(s, x, e) && !EndsStream(s, x, C.IdOf(s.ctl, e))
  {
  }

  lemma DeliverEnds(s: Whole, f: nat, e: C.EchoRef)
    requires C.IdsDistinct(s.ctl) && C.WasTaken(s.ctl, e) && C.IdOf(s.ctl, e) in s.pipes
    requires f in s.ctl.flows && C.Names(s.ctl, s.ctl.flows[f].quoted, s.ctl.flows[f].echo)
    ensures EndsHandler(s, Deliver(f), e) <==> EndsStream(s, Deliver(f), C.IdOf(s.ctl, e))
  {
    OnlyOne(s, s.ctl.flows[f].quoted, s.ctl.flows[f].echo, e);
  }

  lemma WriteEnds(s: Whole, id: StreamId, n: nat, e: C.EchoRef)
    requires C.IdsDistinct(s.ctl) && C.WasTaken(s.ctl, e) && C.IdOf(s.ctl, e) in s.pipes
    requires id in s.server && C.Names(s.ctl, id, s.server[id])
    ensures EndsHandler(s, WriteFails(id, n), e) <==> EndsStream(s, WriteFails(id, n), C.IdOf(s.ctl, e))
  {
    OnlyOne(s, id, s.server[id], e);
  }

  lemma FlushEnds(s: Whole, w: nat, id: StreamId, e: C.EchoRef)
    requires C.IdsDistinct(s.ctl) && C.WasTaken(s.ctl, e) && C.IdOf(s.ctl, e) in s.pipes
    requires id in s.ctl.streams && C.EntryMatches(s.ctl, id, s.ctl.streams[id])
    ensures EndsHandler(s, FlushOne(w, id), e) <==> EndsStream(s, FlushOne(w, id), C.IdOf(s.ctl, e))
  {
    OnlyOne(s, id, s.ctl.streams[id].echo, e);
  }

  lemma LeaveEnds(s: Whole, gone: C.EchoRef, e: C.EchoRef)
    requires C.IdsDistinct(s.ctl) && C.WasTaken(s.ctl, e) && C.IdOf(s.ctl, e) in s.pipes
    requires C.WasTaken(s.ctl, gone)
    ensures EndsHandler(s, Leave(gone), e) <==> EndsStream(s, Leave(gone), C.IdOf(s.ctl, e))
  {
    OnlyOne(s, C.IdOf(s.ctl, gone), gone, e);
  }

  lemma OnlyOne(s: Whole, id: StreamId, e: C.EchoRef, e': C.EchoRef)
    requires C.IdsDistinct(s.ctl) && C.Names(s.ctl, id, e) && C.WasTaken(s.ctl, e')
    ensures e == e' <==> C.IdOf(s.ctl, e') == id
  {
  }

  lemma AwakeStep(s: Whole, x: Step)
    requires Awake(s) && Paired(s) && Served(s) && Enabled(s, x)
    requires C.IdsDistinct(s.ctl) && C.FlowsMatch(s.ctl) && C.StreamsMatch(s.ctl)
    ensures Awake(Apply(s, x))
  {
    var t := Apply(s, x);
    forall e | C.WasTaken(t.ctl, e) && C.IdOf(t.ctl, e) in t.pipes
      ensures C.IsRunning(t.ctl, e) <==> !t.pipes[C.IdOf(t.ctl, e)].side.writer.Finished?
    {
      if C.WasTaken(s.ctl, e) {
        StillAwake(s, x, e);
      } else {
        NewlyAwake(s, x, e);
      }
    }
  }

  lemma NewlyAwake(s: Whole, x: Step, e: C.EchoRef)
    requires Enabled(s, x) && !C.WasTaken(s.ctl, e) && C.WasTaken(Apply(s, x).ctl, e)
    requires C.IdOf(Apply(s, x).ctl, e) in Apply(s, x).pipes
    ensures C.IsRunning(Apply(s, x).ctl, e)
    ensures !Apply(s, x).pipes[C.IdOf(Apply(s, x).ctl, e)].side.writer.Finished?
  {
    TakenBefore(s.ctl, CtlLabel(s, x).value, e);
  }

  lemma StillAwake(s: Whole, x: Step, e: C.EchoRef)
    requires Awake(s) && Paired(s) && Served(s) && Enabled(s, x) && C.WasTaken(s.ctl, e)
    requires C.IdsDistinct(s.ctl) && C.FlowsMatch(s.ctl) && C.StreamsMatch(s.ctl)
    ensures C.Names(Apply(s, x).ctl, C.IdOf(s.ctl, e), e) && C.IdOf(s.ctl, e) in Apply(s, x).pipes
    ensures C.IsRunning(Apply(s, x).ctl, e) <==> !Apply(s, x).pipes[C.IdOf(s.ctl, e)].side.writer.Finished?
  {
    var id := C.IdOf(s.ctl, e);
    NamesStays(s, x, id, e);
    StillThere(s, x, id);
    StepKnown(s, x);
    EndsBoth(s, x, e);
    if CtlLabel(s, x).Some? {
      EndedRuns(s.ctl, CtlLabel(s, x).value, e);
    }
    if PipeLabel(s, x, id).Some? {
      EndedWrites(s.pipes[id], PipeLabel(s, x, id).value);
    }
  }

  // ------------------------------------------------------------------------

  /** The receive loop of a data flow is on, or has its deferred Unregister still to run. */
  predicate InLoop(r: Rsp.Receiver) {
    r.Receiving? || r.Offering? || r.Leaving?
  }

  /** The data flows of the controller are the receive loops of the pipelines, one for each. */
  ghost predicate Flowing(s: Whole) {
    && (forall f :: f in s.ctl.flows ==>
          && s.ctl.flows[f].quoted in s.pipes && InLoop(s.pipes[s.ctl.flows[f].quoted].side.receiver)
          && s.ctl.flows[f].quoted in s.ctl.registered)
    && (forall id :: id in s.pipes && InLoop(s.pipes[id].side.receiver) ==> exists f: nat :: Quotes(s, f, id))
    && (forall id, f: nat, f': nat :: Quotes(s, f, id) && Quotes(s, f', id) ==> f == f')
  }

  /** A stream in the table is one its pipeline takes to be there; one never registered is as it was made. */
  ghost predicate Listed(s: Whole) {
    forall id :: id in s.pipes ==>
      && (id in s.ctl.registered ==>
            (id in s.ctl.streams <==> s.pipes[id].side.registered && !s.pipes[id].side.flush.Marking?))
      && (id !in s.ctl.registered ==> s.pipes[id].side.registered && s.pipes[id].side.flush.Idle?)
  }

  /** The flush of the pipelines is that of the lock's holder. */
  ghost predicate Locked(s: Whole) {
    forall id :: id in s.pipes ==>
      && (s.pipes[id].side.flush.Cancelling? <==>
            s.ctl.lock.Some? && C.FlushingAt(s.ctl, s.ctl.lock.value) && id in s.ctl.waiters[s.ctl.lock.value].pc.todo)
      && (s.pipes[id].side.flush.Marking? ==> s.ctl.lock.Some?)
  }

  /** An agent that has not been sent a request has done nothing for it. */
  ghost predicate Dormant(s: Whole) {
    forall id :: id in s.pipes && id !in s.ctl.sent ==> Untouched(s.pipes[id])
  }

  predicate Untouched(p: P.Pipe) {
    p.wire == [] && p.link.Up? && p.side.receiver.AwaitId?
  }

  ghost predicate Coherent(s: Whole) {
    && C.Inv(s.ctl) && Paired(s) && Served(s) && Credited(s)
    && Awake(s) && Flowing(s) && Listed(s) && Locked(s) && Dormant(s)
  }

  /** A lookup in vain is one the pipeline also takes to be in vain. */
  lemma FirstInVain(s: Whole, id: StreamId, ev: Echo.Event)
    requires Paired(s) && Listed(s) && Locked(s) && Dormant(s) && C.Accounted(s.ctl)
    requires Enabled(s, Local(id, P.OnSide(Rsp.FirstEvent(ev))))
    ensures !(ev == Echo.Msg(StreamID(id)) && s.pipes[id].side.registered)
  {
    assert PipeLabel(s, Local(id, P.OnSide(Rsp.FirstEvent(ev))), id).Some?;
    if ev == Echo.Msg(StreamID(id)) {
      assert s.pipes[id].wire != [];
      assert id in s.ctl.sent && id in s.ctl.registered;
    }
  }

  lemma SideIsOf(s: Whole, id: StreamId)
    requires Paired(s) && id in s.pipes
    ensures s.pipes[id].side.id == id
  {
    ReachedInv(s.pipes[id]);
  }

  lemma LoopStep(p: P.Pipe, l: P.Label)
    requires P.Enabled(p, l)
    ensures InLoop(P.Apply(p, l).side.receiver) <==>
      if l.OnSide? && l.l.FirstEvent? then l.l.ev == Echo.Msg(StreamID(p.side.id)) && p.side.registered
      else InLoop(p.side.receiver) && l != P.OnSide(Rsp.Unregister)
  {
    P.SideOnly(p, l);
    if l.OnSide? {
      LoopSideStep(p.side, l.l);
    }
  }

  lemma LoopSideStep(s: Rsp.Side, c: Rsp.Label)
    requires Rsp.Enabled(s, c)
    ensures InLoop(Rsp.Apply(s, c).receiver) <==>
      if c.FirstEvent? then c.ev == Echo.Msg(StreamID(s.id)) && s.registered else InLoop(s.receiver) && !c.Unregister?
  {
  }

  lemma FirstEventAwaits(p: P.Pipe, ev: Echo.Event)
    requires P.Enabled(p, P.OnSide(Rsp.FirstEvent(ev)))
    ensures p.side.receiver.AwaitId?
  {
  }

  lemma OpenParts(s: Whole, f: nat, id: StreamId)
    requires Enabled(s, Open(f, id))
    ensures var l := P.OnSide(Rsp.FirstEvent(Echo.Msg(StreamID(id))));
      && id in s.pipes && P.Enabled(s.pipes[id], l) && id in s.ctl.streams
      && NextPipe(s, Open(f, id), id) == P.Apply(s.pipes[id], l)
  {
    assert PipeLabel(s, Open(f, id), id).Some?;
  }

  /** A lookup the controller answers is one the pipeline answers. */
  lemma LoopAfterOpen(s: Whole, f: nat, id: StreamId)
    requires Paired(s) && Listed(s) && C.Accounted(s.ctl) && Enabled(s, Open(f, id))
    ensures id in s.pipes && s.pipes[id].side.receiver.AwaitId? && InLoop(NextPipe(s, Open(f, id), id).side.receiver)
    ensures id in s.ctl.registered
  {
    OpenParts(s, f, id);
    FirstEventAwaits(s.pipes[id], Echo.Msg(StreamID(id)));
    SideIsOf(s, id);
    ListedIs(s, id);
    LoopStep(s.pipes[id], P.OnSide(Rsp.FirstEvent(Echo.Msg(StreamID(id)))));
  }

  lemma ListedIs(s: Whole, id: StreamId)
    requires Listed(s) && C.Accounted(s.ctl) && id in s.pipes && id in s.ctl.streams
    ensures id in s.ctl.registered && s.pipes[id].side.registered && !s.pipes[id].side.flush.Marking?
  {
  }

  lemma LoopAfterLocal(s: Whole, id: StreamId, l: P.Label)
    requires Paired(s) && Listed(s) && Locked(s) && Dormant(s) && C.Accounted(s.ctl)
    requires Enabled(s, Local(id, l)) && id in s.pipes
    ensures InLoop(NextPipe(s, Local(id, l), id).side.receiver) <==> InLoop(s.pipes[id].side.receiver)
  {
    assert PipeLabel(s, Local(id, l), id) == Some(l);
    LoopStep(s.pipes[id], l);
    if l.OnSide? && l.l.FirstEvent? {
      FirstEventAwaits(s.pipes[id], l.l.ev);
      SideIsOf(s, id);
      FirstInVain(s, id, l.l.ev);
    }
  }

  /** Which steps but a lookup or one of a pipeline alone unregister. */
  lemma OtherLabels(s: Whole, x: Step, id: StreamId)
    requires !(x.Open? && x.id == id) && !x.Local?
    ensures PipeLabel(s, x, id).Some? ==>
      var l := PipeLabel(s, x, id).value;
      l.OnSide? && !l.l.FirstEvent? && (l.l.Unregister? <==> x.End? && Quotes(s, x.f, id))
    ensures PipeLabel(s, x, id).None? ==> !(x.End? && Quotes(s, x.f, id))
  {
  }

  lemma LoopAfterOther(s: Whole, x: Step, id: StreamId)
    requires Enabled(s, x) && id in s.pipes && !(x.Open? && x.id == id) && !x.Local?
    ensures InLoop(NextPipe(s, x, id).side.receiver) <==>
      InLoop(s.pipes[id].side.receiver) && !(x.End? && Quotes(s, x.f, id))
  {
    OtherLabels(s, x, id);
    if PipeLabel(s, x, id).Some? {
      LoopStep(s.pipes[id], PipeLabel(s, x, id).value);
    }
  }

  lemma LoopAfter(s: Whole, x: Step, id: StreamId)
    requires Paired(s) && Listed(s) && Locked(s) && Dormant(s) && C.Accounted(s.ctl)
    requires Enabled(s, x) && id in s.pipes
    ensures InLoop(NextPipe(s, x, id).side.receiver) <==>
      (InLoop(s.pipes[id].side.receiver) && !(x.End? && Quotes(s, x.f, id))) || (x.Open? && x.id == id)
  {
    if x.Open? && x.id == id {
      LoopAfterOpen(s, x.f, id);
    } else if !x.Local? {
      LoopAfterOther(s, x, id);
    } else if x.id == id {
      LoopAfterLocal(s, id, x.l);
    }
  }

  lemma QuotesAfter(s: Whole, x: Step, f: nat, id: StreamId)
    requires Enabled(s, x)
    ensures Quotes(Apply(s, x), f, id) <==> (Quotes(s, f, id) && !(x.End? && x.f == f)) || x == Open(f, id)
  {
    if CtlLabel(s, x).Some? {
      C.FlowsStep(s.ctl, CtlLabel(s, x).value);
      FlowLabels(s, x);
    }
  }

  lemma FlowLabels(s: Whole, x: Step)
    requires CtlLabel(s, x).Some? && (x.Tables? ==> IsTables(x.c))
    ensures var c := CtlLabel(s, x).value;
      && (c.OpenFlow? <==> x.Open?) && (c.OpenFlow? ==> c.f == x.f && c.id == x.id)
      && (c.EndFlow? <==> x.End?) && (c.EndFlow? ==> c.f == x.f)
  {
  }

  lemma IdsStay(s: Whole, x: Step)
    requires Enabled(s, x) && C.Accounted(s.ctl) && C.HoldsOwn(s.ctl)
    ensures s.ctl.registered <= Apply(s, x).ctl.registered && s.ctl.sent <= Apply(s, x).ctl.sent
  {
    if CtlLabel(s, x).Some? {
      C.SentStep(s.ctl, CtlLabel(s, x).value);
    }
  }

  lemma FlowingStep(s: Whole, x: Step)
    requires Coherent(s) && Enabled(s, x)
    ensures Flowing(Apply(s, x))
  {
    var t := Apply(s, x);
    forall f | f in t.ctl.flows
      ensures t.ctl.flows[f].quoted in t.pipes && InLoop(t.pipes[t.ctl.flows[f].quoted].side.receiver)
              && t.ctl.flows[f].quoted in t.ctl.registered
    {
      FlowStays(s, x, f, t.ctl.flows[f].quoted);
    }
    forall id | id in t.pipes && InLoop(t.pipes[id].side.receiver) ensures exists f: nat :: Quotes(t, f, id) {
      LoopHasFlow(s, x, id);
    }
    forall id, f: nat, f': nat | Quotes(t, f, id) && Quotes(t, f', id) ensures f == f' {
      OneFlow(s, x, id, f, f');
    }
  }

  lemma FlowStays(s: Whole, x: Step, f: nat, id: StreamId)
    requires Flowing(s) && Paired(s) && Listed(s) && Locked(s) && Dormant(s)
    requires C.HoldsOwn(s.ctl) && C.Accounted(s.ctl) && C.IdsDistinct(s.ctl)
    requires Enabled(s, x) && Quotes(Apply(s, x), f, id)
    ensures var t := Apply(s, x); id in t.pipes && InLoop(t.pipes[id].side.receiver) && id in t.ctl.registered
  {
    QuotesAfter(s, x, f, id);
    IdsStay(s, x);
    if x == Open(f, id) {
      LoopAfterOpen(s, f, id);
    } else {
      assert Quotes(s, f, id);
      LoopAfter(s, x, id);
    }
    StillThere(s, x, id);
  }

  lemma LoopHasFlow(s: Whole, x: Step, id: StreamId)
    requires Flowing(s) && Paired(s) && Listed(s) && Locked(s) && Dormant(s)
    requires C.Accounted(s.ctl) && C.IdsDistinct(s.ctl)
    requires Enabled(s, x) && id in Apply(s, x).pipes && InLoop(Apply(s, x).pipes[id].side.receiver)
    ensures exists f: nat :: Quotes(Apply(s, x), f, id)
  {
    if id in s.pipes {
      StillThere(s, x, id);
      LoopAfter(s, x, id);
      HasFlow(s, x, id);
    }
  }

  lemma HasFlow(s: Whole, x: Step, id: StreamId)
    requires Flowing(s) && Enabled(s, x) && id in s.pipes
    requires (InLoop(s.pipes[id].side.receiver) && !(x.End? && Quotes(s, x.f, id))) || (x.Open? && x.id == id)
    ensures exists f: nat :: Quotes(Apply(s, x), f, id)
  {
    if x.Open? && x.id == id {
      QuotesAfter(s, x, x.f, id);
    } else {
      var f: nat :| Quotes(s, f, id);
      QuotesAfter(s, x, f, id);
    }
  }

  lemma OneFlow(s: Whole, x: Step, id: StreamId, f: nat, f': nat)
    requires Flowing(s) && Paired(s) && Listed(s) && C.Accounted(s.ctl) && Enabled(s, x)
    requires Quotes(Apply(s, x), f, id) && Quotes(Apply(s, x), f', id)
    ensures f == f'
  {
    QuotesAfter(s, x, f, id);
    QuotesAfter(s, x, f', id);
    if x.Open? && x.id == id {
      LoopAfterOpen(s, x.f, id);
    }
  }

  // ------------------------------------------------------------------------

  /** What a step of a pipeline does to its place in the table and to its flush. */
  lemma SideStep(p: P.Pipe, l: P.Label)
    requires P.Enabled(p, l)
    ensures P.Apply(p, l).side.registered <==>
      p.side.registered && l != P.OnSide(Rsp.Unregister) && l != P.OnSide(Rsp.FlushMark)
    ensures P.Apply(p, l).side.flush ==
      if l == P.OnSide(Rsp.FlushStart) then Rsp.Cancelling
      else if l == P.OnSide(Rsp.FlushHandOff) then Rsp.Marking
      else if l == P.OnSide(Rsp.FlushMark) then Rsp.Flushed else p.side.flush
    ensures l == P.OnSide(Rsp.FlushMark) ==> p.side.flush.Marking?
    ensures l == P.OnSide(Rsp.FlushHandOff) ==> p.side.flush.Cancelling?
    ensures l == P.OnSide(Rsp.FlushStart) ==> p.side.flush.Idle? && p.side.registered
  {
    P.SideOnly(p, l);
    if l.OnSide? {
      TableSideStep(p.side, l.l);
    }
  }

  lemma TableSideStep(s: Rsp.Side, c: Rsp.Label)
    requires Rsp.Enabled(s, c)
    ensures Rsp.Apply(s, c).registered <==> s.registered && !c.Unregister? && !c.FlushMark?
    ensures Rsp.Apply(s, c).flush ==
      if c.FlushStart? then Rsp.Cancelling else if c.FlushHandOff? then Rsp.Marking
      else if c.FlushMark? then Rsp.Flushed else s.flush
    ensures c.FlushMark? ==> s.flush.Marking?
    ensures c.FlushHandOff? ==> s.flush.Cancelling?
    ensures c.FlushStart? ==> s.flush.Idle? && s.registered
  {
  }

  predicate StartsFlush(s: Whole, x: Step, id: StreamId) {
    x.FlushStart? && x.w in s.ctl.waiters && id in C.OfSession(s.ctl, s.ctl.waiters[x.w].key.sessionId)
  }

  /** The steps of one stream that change its place in the table or its flush. */
  lemma FlushLabels(s: Whole, x: Step, id: StreamId)
    requires Enabled(s, x) && id in s.pipes
    ensures var l := PipeLabel(s, x, id);
      && (l == Some(P.OnSide(Rsp.Unregister)) <==> x.End? && Quotes(s, x.f, id))
      && (l == Some(P.OnSide(Rsp.FlushMark)) <==> x == Local(id, P.OnSide(Rsp.FlushMark)))
      && (l == Some(P.OnSide(Rsp.FlushHandOff)) <==> x.FlushOne? && x.id == id)
      && (l == Some(P.OnSide(Rsp.FlushStart)) <==> StartsFlush(s, x, id))
  {
  }

  /** The entry of a stream that its pipeline's state calls for. */
  predicate ListedAs(registered: bool, listed: bool, side: Rsp.Side) {
    && (registered ==> (listed <==> side.registered && !side.flush.Marking?))
    && (!registered ==> side.registered && side.flush.Idle?)
  }

  lemma ListedStays(s: Whole, x: Step, id: StreamId)
    requires C.HeldOnce(s.ctl) && C.Accounted(s.ctl) && Flowing(s) && Listed(s) && Enabled(s, x) && id in s.pipes
    ensures var t := Apply(s, x); ListedAs(id in t.ctl.registered, id in t.ctl.streams, NextPipe(s, x, id).side)
  {
    FlushLabels(s, x, id);
    if PipeLabel(s, x, id).Some? {
      SideStep(s.pipes[id], PipeLabel(s, x, id).value);
    }
    if CtlLabel(s, x).Some? {
      var c := CtlLabel(s, x).value;
      C.TableStep(s.ctl, c, id);
      if C.Registers(s.ctl, c, id) {
        assert C.Holds(s.ctl, c.w);
      }
      UnlistsIs(s, x, id);
    }
  }

  lemma UnlistsIs(s: Whole, x: Step, id: StreamId)
    requires CtlLabel(s, x).Some? && (x.Tables? ==> IsTables(x.c))
    ensures C.Unlists(s.ctl, CtlLabel(s, x).value, id) <==>
      (x.End? && Quotes(s, x.f, id)) || (x.FlushOne? && x.id == id)
    ensures C.Registers(s.ctl, CtlLabel(s, x).value, id) ==> x.Tables?
  {
  }

  lemma ListedStep(s: Whole, x: Step)
    requires Paired(s) && Flowing(s) && Listed(s) && Enabled(s, x)
    requires C.HeldOnce(s.ctl) && C.Accounted(s.ctl) && C.IdsDistinct(s.ctl) && C.RegisteredNamed(s.ctl)
    ensures Listed(Apply(s, x))
  {
    var t := Apply(s, x);
    forall id | id in t.pipes ensures ListedAs(id in t.ctl.registered, id in t.ctl.streams, t.pipes[id].side) {
      if id in s.pipes {
        StillThere(s, x, id);
        ListedStays(s, x, id);
      } else {
        NewPipe(s, x, id);
      }
    }
  }

  /** The pipeline of a request that has just been taken. */
  lemma NewPipe(s: Whole, x: Step, id: StreamId)
    requires C.IdsDistinct(s.ctl) && C.RegisteredNamed(s.ctl)
    requires Enabled(s, x) && id !in s.pipes && id in Apply(s, x).pipes
    ensures x.Take? && Apply(s, x).pipes[id] == P.Start(id, x.job)
    ensures id !in s.ctl.registered && id !in Apply(s, x).ctl.registered
  {
    C.OfferedUnregistered(s.ctl, x.e);
  }

  /** The stream is one the flush under way has yet to cancel. */
  predicate InTodo(s: C.State, id: StreamId) {
    s.lock.Some? && C.FlushingAt(s, s.lock.value) && id in s.waiters[s.lock.value].pc.todo
  }

  lemma TodoStep(s: C.State, c: C.Label, id: StreamId)
    requires C.LockHeld(s) && C.Enabled(s, c)
    ensures InTodo(C.Apply(s, c), id) <==>
      if c.FlushStart? then id in C.OfSession(s, s.waiters[c.w].key.sessionId)
      else InTodo(s, id) && !(c.FlushOne? && c.id == id)
    ensures C.Apply(s, c).lock.Some? <==> c.FlushStart? || (s.lock.Some? && !c.FlushEnd?)
    ensures c.FlushOne? ==> s.lock.Some?
    ensures c.FlushStart? ==> s.lock.None?
  {
    if c.FlushOne? || c.FlushEnd? {
      assert C.FlushingAt(s, c.w);
    }
  }

  predicate LockedAs(s: C.State, id: StreamId, flush: Rsp.Flush) {
    (flush.Cancelling? <==> InTodo(s, id)) && (flush.Marking? ==> s.lock.Some?)
  }

  lemma LockedStays(s: Whole, x: Step, id: StreamId)
    requires C.LockHeld(s.ctl) && Locked(s) && Enabled(s, x) && id in s.pipes
    ensures LockedAs(Apply(s, x).ctl, id, NextPipe(s, x, id).side.flush)
  {
    FlushAfter(s, x, id);
    if CtlLabel(s, x).Some? {
      TodoStep(s.ctl, CtlLabel(s, x).value, id);
      FlushIs(s, x, id);
    }
  }

  lemma FlushAfter(s: Whole, x: Step, id: StreamId)
    requires Enabled(s, x) && id in s.pipes
    ensures var flush := s.pipes[id].side.flush;
      NextPipe(s, x, id).side.flush ==
      if StartsFlush(s, x, id) then Rsp.Cancelling
      else if x.FlushOne? && x.id == id then Rsp.Marking
      else if x == Local(id, P.OnSide(Rsp.FlushMark)) then Rsp.Flushed else flush
    ensures x == Local(id, P.OnSide(Rsp.FlushMark)) ==> s.pipes[id].side.flush.Marking?
  {
    FlushLabels(s, x, id);
    if PipeLabel(s, x, id).Some? {
      SideStep(s.pipes[id], PipeLabel(s, x, id).value);
    }
  }

  lemma FlushIs(s: Whole, x: Step, id: StreamId)
    requires CtlLabel(s, x).Some? && (x.Tables? ==> IsTables(x.c))
    ensures var c := CtlLabel(s, x).value;
      && (c.FlushStart? <==> x.FlushStart?) && (c.FlushStart? ==> c.w == x.w)
      && (c.FlushOne? <==> x.FlushOne?) && (c.FlushOne? ==> c.id == x.id)
      && (c.FlushEnd? <==> x.FlushEnd?)
  {
  }

  lemma LockedStep(s: Whole, x: Step)
    requires Paired(s) && Locked(s) && Enabled(s, x)
    requires C.LockHeld(s.ctl) && C.Accounted(s.ctl) && C.IdsDistinct(s.ctl) && C.RegisteredNamed(s.ctl)
    ensures Locked(Apply(s, x))
  {
    var t := Apply(s, x);
    forall id | id in t.pipes ensures LockedAs(t.ctl, id, t.pipes[id].side.flush) {
      if id in s.pipes {
        StillThere(s, x, id);
        LockedStays(s, x, id);
      } else {
        NewPipe(s, x, id);
        TodoStep(s.ctl, CtlLabel(s, x).value, id);
        TodoRegistered(s.ctl, id);
      }
    }
  }

  lemma TodoRegistered(s: C.State, id: StreamId)
    requires C.LockHeld(s) && C.Accounted(s)
    ensures InTodo(s, id) ==> id in s.registered
  {
  }

  lemma DormantStep(s: Whole, x: Step)
    requires Coherent(s) && Enabled(s, x)
    ensures Dormant(Apply(s, x))
  {
    var t := Apply(s, x);
    forall id | id in t.pipes && id !in t.ctl.sent ensures Untouched(t.pipes[id]) {
      IdsStay(s, x);
      if id in s.pipes {
        StillThere(s, x, id);
        if PipeLabel(s, x, id).Some? {
          OnlyController(s, x, id);
          UntouchedStays(s.pipes[id], PipeLabel(s, x, id).value);
        }
      }
    }
  }

  lemma OnlyController(s: Whole, x: Step, id: StreamId)
    requires Enabled(s, x) && PipeLabel(s, x, id).Some? && id !in s.ctl.sent
    ensures PipeLabel(s, x, id).value.OnSide?
  {
  }

  lemma UntouchedStays(p: P.Pipe, l: P.Label)
    requires P.Enabled(p, l) && l.OnSide? && Untouched(p)
    ensures Untouched(P.Apply(p, l))
  {
  }

  // ------------------------------------------------------------------------
  // Every run
  // ------------------------------------------------------------------------

  lemma CoherentStep(s: Whole, x: Step)
    requires Coherent(s) && Enabled(s, x)
    ensures Coherent(Apply(s, x))
  {
    if CtlLabel(s, x).Some? {
      C.InvStep(s.ctl, CtlLabel(s, x).value);
    }
    PairedStep(s, x);
    ServedStep(s, x);
    CreditedStep(s, x);
    AwakeStep(s, x);
    FlowingStep(s, x);
    ListedStep(s, x);
    LockedStep(s, x);
    DormantStep(s, x);
  }

  lemma {:induction false} CoherentRun(s: Whole, xs: seq<Step>, t: Whole)
    requires Coherent(s) && Run(s, xs, t)
    ensures Coherent(t)
    decreases |xs|
  {
    if xs != [] {
      CoherentStep(s, xs[0]);
      CoherentRun(Apply(s, xs[0]), xs[1..], t);
    }
  }

  lemma CoherentStart()
    ensures Coherent(Start())
  {
  }

  lemma AlwaysCoherent(xs: seq<Step>, s: Whole)
    requires Run(Start(), xs, s)
    ensures Coherent(s)
  {
    CoherentStart();
    CoherentRun(Start(), xs, s);
  }

  /** The controller's part in a run. */
  ghost function CtlLabels(s: Whole, xs: seq<Step>): seq<C.Label>
    decreases |xs|
  {
    if xs == [] || !Enabled(s, xs[0]) then []
    else (if CtlLabel(s, xs[0]).Some? then [CtlLabel(s, xs[0]).value] else []) + CtlLabels(Apply(s, xs[0]), xs[1..])
  }

  lemma {:induction false} CtlRun(s: Whole, xs: seq<Step>, t: Whole)
    requires Run(s, xs, t)
    ensures C.Run(s.ctl, CtlLabels(s, xs), t.ctl)
    decreases |xs|
  {
    if xs != [] {
      CtlRun(Apply(s, xs[0]), xs[1..], t);
      var rest := CtlLabels(Apply(s, xs[0]), xs[1..]);
      if CtlLabel(s, xs[0]).Some? {
        assert CtlLabels(s, xs)[1..] == rest;
      } else {
        assert CtlLabels(s, xs) == rest;
      }
    }
  }

  /**
    Isolation and conservation together. However many requests, agents, flushes and faults there are: what an API
    handler has sent its client is exactly what the pipeline of its own stream ID says, which is a pipeline as
    it would run by itself. So it is a prefix of what the agent read for that very request, well-formed, and
    after a Done exactly the response the request determines. The controller, too, runs as it would by itself.
   */
  lemma HandlersServeTheirOwn(xs: seq<Step>, s: Whole, e: C.EchoRef)
    requires Run(Start(), xs, s) && C.WasTaken(s.ctl, e)
    ensures C.Run(C.Start(), CtlLabels(Start(), xs), s.ctl)
    ensures var id := C.IdOf(s.ctl, e);
      && id in s.pipes && s.pipes[id].id == id && Reached(s.pipes[id]) && P.Inv(s.pipes[id])
      && Sent(s, e) == s.pipes[id].side.out
      && Rsp.WellFormed(Sent(s, e)) && P.Written(Sent(s, e)) <= P.BytesRead(s.pipes[id])
      && (s.pipes[id].side.writer == Rsp.Finished(Rsp.ByDone) ==>
            Sent(s, e) == ClientOutput.Shown(id, s.pipes[id].job))
  {
    CtlRun(Start(), xs, s);
    AlwaysCoherent(xs, s);
    ServesItsOwn(s, e);
    ReachedSends(s.pipes[C.IdOf(s.ctl, e)]);
  }

  lemma ServesItsOwn(s: Whole, e: C.EchoRef)
    requires Credited(s) && Paired(s) && C.WasTaken(s.ctl, e)
    ensures var id := C.IdOf(s.ctl, e);
      id in s.pipes && s.pipes[id].id == id && Reached(s.pipes[id]) && Sent(s, e) == s.pipes[id].side.out
  {
    assert CreditedTo(s, e);
  }

  lemma ReachedSends(p: P.Pipe)
    requires Reached(p)
    ensures P.Inv(p) && Rsp.WellFormed(p.side.out) && P.Written(p.side.out) <= P.BytesRead(p)
    ensures p.side.writer == Rsp.Finished(Rsp.ByDone) ==> p.side.out == ClientOutput.Shown(p.id, p.job)
  {
    var ls :| P.Run(P.Start(p.id, p.job), ls, p);
    Delivery.Conservation(p.id, p.job, ls, p);
    if p.side.writer == Rsp.Finished(Rsp.ByDone) {
      ClientOutput.DoneShows(p.id, p.job, ls, p);
    }
  }

  // ------------------------------------------------------------------------
  // Nothing is held up by the composition
  // ------------------------------------------------------------------------

  lemma {:induction false} NewFlow(flows: set<nat>) returns (f: nat)
    ensures f !in flows && forall g :: g in flows ==> g < f
    decreases |flows|
  {
    if flows == {} {
      f := 0;
    } else {
      var g :| g in flows;
      var h := NewFlow(flows - {g});
      f := if h <= g then g + 1 else h;
      assert flows == flows - {g} + {g};
    }
  }

  /** The handler of a stream whose writer has not ended is in runEcho. */
  lemma Runs(s: Whole, id: StreamId, e: C.EchoRef)
    requires Awake(s) && C.Names(s.ctl, id, e) && id in s.pipes && !s.pipes[id].side.writer.Finished?
    ensures C.IsRunning(s.ctl, e)
  {
  }

  lemma FirstEventSteps(s: Whole, id: StreamId, ev: Echo.Event) returns (x: Step)
    requires Paired(s) && id in s.pipes && P.Enabled(s.pipes[id], P.OnSide(Rsp.FirstEvent(ev)))
    requires Progress.NeedsTable(P.OnSide(Rsp.FirstEvent(ev))) ==> s.ctl.lock.None?
    ensures Enabled(s, x) && PipeLabel(s, x, id) == Some(P.OnSide(Rsp.FirstEvent(ev)))
  {
    if ev.Msg? {
      FirstIsOwn(s.pipes[id], ev.msg);
    }
    if ev.Msg? && id in s.ctl.streams {
      var f := NewFlow(s.ctl.flows.Keys);
      x := Open(f, id);
      OpenSteps(s, f, id);
    } else {
      x := Local(id, P.OnSide(Rsp.FirstEvent(ev)));
      LocalSteps(s, id, P.OnSide(Rsp.FirstEvent(ev)));
    }
  }

  lemma OpenSteps(s: Whole, f: nat, id: StreamId)
    requires f !in s.ctl.flows && id in s.ctl.streams && s.ctl.lock.None? && id in s.pipes
    requires P.Enabled(s.pipes[id], P.OnSide(Rsp.FirstEvent(Echo.Msg(StreamID(id)))))
    ensures Enabled(s, Open(f, id))
    ensures PipeLabel(s, Open(f, id), id) == Some(P.OnSide(Rsp.FirstEvent(Echo.Msg(StreamID(id)))))
  {
  }

  lemma FirstIsOwn(p: P.Pipe, m: StreamFlow)
    requires Reached(p) && P.Enabled(p, P.OnSide(Rsp.FirstEvent(Echo.Msg(m))))
    ensures m == StreamID(p.id)
  {
    ReachedInv(p);
    FirstOnWire(p, m);
  }

  lemma FirstOnWire(p: P.Pipe, m: StreamFlow)
    requires P.Fifo(p) && P.Tracking(p.side) && P.Enabled(p, P.OnSide(Rsp.FirstEvent(Echo.Msg(m))))
    ensures m == StreamID(p.id)
  {
    P.NextOnWire(p);
  }

  lemma LoopSteps(s: Whole, id: StreamId, l: P.Label) returns (x: Step)
    requires Flowing(s) && Awake(s) && C.FlowsMatch(s.ctl) && id in s.pipes && P.Enabled(s.pipes[id], l)
    requires l == P.OnSide(Rsp.HandOff) || (l == P.OnSide(Rsp.Unregister) && s.ctl.lock.None?)
    ensures Enabled(s, x) && PipeLabel(s, x, id) == Some(l)
  {
    assert InLoop(s.pipes[id].side.receiver);
    var f: nat :| Quotes(s, f, id);
    if l.l.HandOff? {
      P.SideOnly(s.pipes[id], l);
      Runs(s, id, s.ctl.flows[f].echo);
    }
    FlowStep(s, id, f, l);
    x := if l.l.HandOff? then Deliver(f) else End(f);
  }

  lemma FlowStep(s: Whole, id: StreamId, f: nat, l: P.Label)
    requires Quotes(s, f, id) && id in s.pipes && P.Enabled(s.pipes[id], l)
    requires (l == P.OnSide(Rsp.HandOff) && C.IsRunning(s.ctl, s.ctl.flows[f].echo))
          || (l == P.OnSide(Rsp.Unregister) && s.ctl.lock.None?)
    ensures var x := if l.l.HandOff? then Deliver(f) else End(f);
      Enabled(s, x) && PipeLabel(s, x, id) == Some(l)
  {
  }

  lemma LeaveSteps(s: Whole, id: StreamId) returns (x: Step)
    requires Paired(s) && Awake(s) && id in s.pipes && P.Enabled(s.pipes[id], P.OnSide(Rsp.ClientGone))
    ensures Enabled(s, x) && PipeLabel(s, x, id) == Some(P.OnSide(Rsp.ClientGone))
  {
    var e :| C.Names(s.ctl, id, e);
    P.SideOnly(s.pipes[id], P.OnSide(Rsp.ClientGone));
    Runs(s, id, e);
    LeaveStep(s, id, e);
    x := Leave(e);
  }

  lemma LeaveStep(s: Whole, id: StreamId, e: C.EchoRef)
    requires C.Names(s.ctl, id, e) && C.IsRunning(s.ctl, e)
    requires id in s.pipes && P.Enabled(s.pipes[id], P.OnSide(Rsp.ClientGone))
    ensures Enabled(s, Leave(e)) && PipeLabel(s, Leave(e), id) == Some(P.OnSide(Rsp.ClientGone))
  {
  }

  lemma WriteSteps(s: Whole, id: StreamId, n: nat, ok: bool) returns (x: Step)
    requires Served(s) && Awake(s) && id in s.pipes && P.Enabled(s.pipes[id], P.OnSide(Rsp.Write(n, ok)))
    ensures Enabled(s, x) && PipeLabel(s, x, id) == Some(P.OnSide(Rsp.Write(n, ok)))
  {
    if ok {
      x := Local(id, P.OnSide(Rsp.Write(n, ok)));
    } else {
      Runs(s, id, s.server[id]);
      x := WriteFails(id, n);
    }
  }

  lemma FlushSteps(s: Whole, id: StreamId) returns (x: Step)
    requires C.LockHeld(s.ctl) && C.StreamsMatch(s.ctl) && Locked(s) && Awake(s)
    requires id in s.pipes && P.Enabled(s.pipes[id], P.OnSide(Rsp.FlushHandOff))
    ensures Enabled(s, x) && PipeLabel(s, x, id) == Some(P.OnSide(Rsp.FlushHandOff))
  {
    assert InTodo(s.ctl, id);
    assert id in C.OfSession(s.ctl, s.ctl.waiters[s.ctl.lock.value].key.sessionId);
    assert C.EntryMatches(s.ctl, id, s.ctl.streams[id]);
    Runs(s, id, s.ctl.streams[id].echo);
    x := FlushOne(s.ctl.lock.value, id);
  }

  lemma LocalSteps(s: Whole, id: StreamId, l: P.Label)
    requires id in s.pipes && P.Enabled(s.pipes[id], l) && IsLocal(s, id, l)
    ensures Enabled(s, Local(id, l)) && PipeLabel(s, Local(id, l), id) == Some(l)
  {
  }

  /**
    Whatever a pipeline could do by itself it can do among the others, once its agent has the request, except
    that a lookup and an unregistration wait for the table's lock; and a flush begins for whole sessions.
   */
  lemma NothingIsHeldUp(xs: seq<Step>, s: Whole, id: StreamId, l: P.Label) returns (x: Step)
    requires Run(Start(), xs, s) && id in s.pipes && P.Enabled(s.pipes[id], l)
    requires l != P.OnSide(Rsp.FlushStart) && (l.OnSide? || id in s.ctl.sent)
    requires Progress.NeedsTable(l) ==> s.ctl.lock.None?
    ensures Enabled(s, x) && PipeLabel(s, x, id) == Some(l)
  {
    AlwaysCoherent(xs, s);
    if !l.OnSide? {
      LocalSteps(s, id, l);
      x := Local(id, l);
    } else {
      x := ControllerSteps(s, id, l.l);
    }
  }

  lemma ControllerSteps(s: Whole, id: StreamId, c: Rsp.Label) returns (x: Step)
    requires Coherent(s) && id in s.pipes && P.Enabled(s.pipes[id], P.OnSide(c)) && !c.FlushStart?
    requires Progress.NeedsTable(P.OnSide(c)) ==> s.ctl.lock.None?
    ensures Enabled(s, x) && PipeLabel(s, x, id) == Some(P.OnSide(c))
  {
    if c.FirstEvent? {
      x := FirstEventSteps(s, id, c.ev);
    } else if c.HandOff? || c.Unregister? {
      x := LoopSteps(s, id, P.OnSide(c));
    } else if c.Write? {
      x := WriteSteps(s, id, c.n, c.ok);
    } else if c.ClientGone? {
      x := LeaveSteps(s, id);
    } else if c.FlushHandOff? {
      x := FlushSteps(s, id);
    } else {
      x := Local(id, P.OnSide(c));
      LocalSteps(s, id, P.OnSide(c));
    }
  }

  /** A flush the controller could begin begins in every pipeline of its session. */
  lemma FlushBegins(xs: seq<Step>, s: Whole, w: nat)
    requires Run(Start(), xs, s) && C.Enabled(s.ctl, C.FlushStart(w))
    ensures Enabled(s, FlushStart(w))
  {
    AlwaysCoherent(xs, s);
    forall id | id in C.OfSession(s.ctl, s.ctl.waiters[w].key.sessionId)
      ensures id in s.pipes && P.Enabled(s.pipes[id], P.OnSide(Rsp.FlushStart))
    {
      FlushBeginsFor(s, id);
    }
  }

  lemma FlushBeginsFor(s: Whole, id: StreamId)
    requires C.StreamsMatch(s.ctl) && C.Accounted(s.ctl) && Paired(s) && Listed(s) && Locked(s)
    requires id in s.ctl.streams && s.ctl.lock.None?
    ensures id in s.pipes && P.Enabled(s.pipes[id], P.OnSide(Rsp.FlushStart))
  {
    assert C.EntryMatches(s.ctl, id, s.ctl.streams[id]);
    ListedIs(s, id);
    NotLocked(s, id);
    ReachedIdle(s.pipes[id]);
  }

  lemma NotLocked(s: Whole, id: StreamId)
    requires Locked(s) && id in s.pipes && s.ctl.lock.None?
    ensures !s.pipes[id].side.flush.Cancelling? && !s.pipes[id].side.flush.Marking?
  {
  }

  lemma ReachedIdle(p: P.Pipe)
    requires Reached(p) && p.side.registered && !p.side.flush.Marking? && !p.side.flush.Cancelling?
    ensures p.side.flush.Idle?
  {
    ReachedInv(p);
  }
}
