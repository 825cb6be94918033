/** What holds of one response in every run of all responses at once: who is left waiting, and what is delivered. */
module TunnelRuns {
  import opened Wrappers
  import opened Tunnel
  import Echo = ControllerEcho
  import Rsp = Response
  import P = Pipeline
  import Delivery
  import Progress
  import ClientOutput
  import C = Controller
  import R = ControllerRuns
  import opened Tunnels

  // ------------------------------------------------------------------------
  // The part of one pipeline in a run
  // ------------------------------------------------------------------------

  ghost function PipeLabels(s: Whole, xs: seq<Step>, id: StreamId): seq<P.Label>
    decreases |xs|
  {
    if xs == [] || !Enabled(s, xs[0]) then []
    else
      var l := PipeLabel(s, xs[0], id);
      (if id in s.pipes && l.Some? then [l.value] else []) + PipeLabels(Apply(s, xs[0]), xs[1..], id)
  }

  lemma {:induction false} PipeRun(s: Whole, xs: seq<Step>, t: Whole, id: StreamId)
    requires Coherent(s) && Run(s, xs, t) && id in s.pipes
    ensures id in t.pipes && P.Run(s.pipes[id], PipeLabels(s, xs, id), t.pipes[id])
    decreases |xs|
  {
    if xs != [] {
      var s' := Apply(s, xs[0]);
      CoherentStep(s, xs[0]);
      StillThere(s, xs[0], id);
      PipeRun(s', xs[1..], t, id);
      FirstLabel(s, xs, id);
      RunFrom(s.pipes[id], PipeLabel(s, xs[0], id), s'.pipes[id], PipeLabels(s', xs[1..], id), t.pipes[id]);
    }
  }

  lemma FirstLabel(s: Whole, xs: seq<Step>, id: StreamId)
    requires xs != [] && Enabled(s, xs[0])
    ensures var l := PipeLabel(s, xs[0], id);
      PipeLabels(s, xs, id)
      == (if id in s.pipes && l.Some? then [l.value] else []) + PipeLabels(Apply(s, xs[0]), xs[1..], id)
  {
  }

  lemma RunFrom(p: P.Pipe, l: Option<P.Label>, p': P.Pipe, rest: seq<P.Label>, q: P.Pipe)
    requires P.Run(p', rest, q)
    requires if l.Some? then P.Enabled(p, l.value) && p' == P.Apply(p, l.value) else p' == p
    ensures P.Run(p, (if l.Some? then [l.value] else []) + rest, q)
  {
    if l.Some? {
      assert ([l.value] + rest)[1..] == rest;
    } else {
      assert [] + rest == rest;
    }
  }

  lemma {:induction false} NewPipeRun(s: Whole, xs: seq<Step>, t: Whole, id: StreamId)
    requires Coherent(s) && Run(s, xs, t) && id !in s.pipes && id in t.pipes
    ensures P.Run(P.Start(id, t.pipes[id].job), PipeLabels(s, xs, id), t.pipes[id])
    decreases |xs|
  {
    var s' := Apply(s, xs[0]);
    CoherentStep(s, xs[0]);
    FirstLabel(s, xs, id);
    assert [] + PipeLabels(s', xs[1..], id) == PipeLabels(s', xs[1..], id);
    if id in s'.pipes {
      NewPipe(s, xs[0], id);
      PipeRun(s', xs[1..], t, id);
      Delivery.JobFixed(s'.pipes[id], PipeLabels(s', xs[1..], id), t.pipes[id]);
    } else {
      NewPipeRun(s', xs[1..], t, id);
    }
  }

  /** What happens to a stream in a run of all of them is a run of its own pipeline. */
  lemma StreamRun(xs: seq<Step>, s: Whole, id: StreamId)
    requires Run(Start(), xs, s) && id in s.pipes
    ensures P.Run(P.Start(id, s.pipes[id].job), PipeLabels(Start(), xs, id), s.pipes[id])
  {
    CoherentStart();
    NewPipeRun(Start(), xs, s, id);
  }

  // ------------------------------------------------------------------------
  // Who is left waiting
  // ------------------------------------------------------------------------

  /** Nothing more can happen to stream `id` but a fault, a flush or a client that leaves. */
  ghost predicate StuckAt(s: Whole, id: StreamId) {
    forall x :: Enabled(s, x) && PipeLabel(s, x, id).Some? ==> !Progress.Works(PipeLabel(s, x, id).value)
  }

  lemma StuckSide(s: Whole, id: StreamId, c: Rsp.Label)
    requires Coherent(s) && id in s.pipes && StuckAt(s, id) && Progress.Works(P.OnSide(c))
    requires Progress.NeedsTable(P.OnSide(c)) ==> s.ctl.lock.None?
    ensures !P.Enabled(s.pipes[id], P.OnSide(c))
  {
    if P.Enabled(s.pipes[id], P.OnSide(c)) {
      var x := ControllerSteps(s, id, c);
    }
  }

  lemma StuckInPart(s: Whole, id: StreamId)
    requires Coherent(s) && id in s.pipes && StuckAt(s, id) && id in s.ctl.sent
    ensures Progress.StuckWhile(s.pipes[id], s.ctl.lock.Some?)
  {
    forall l | Progress.Works(l) && !(s.ctl.lock.Some? && Progress.NeedsTable(l)) ensures !P.Enabled(s.pipes[id], l) {
      StuckFor(s, id, l);
    }
  }

  lemma StuckFor(s: Whole, id: StreamId, l: P.Label)
    requires Coherent(s) && id in s.pipes && StuckAt(s, id) && id in s.ctl.sent
    requires Progress.Works(l) && !(s.ctl.lock.Some? && Progress.NeedsTable(l))
    ensures !P.Enabled(s.pipes[id], l)
  {
    if l.OnSide? {
      StuckSide(s, id, l.l);
    } else if P.Enabled(s.pipes[id], l) {
      StuckLocal(s, id, l);
    }
  }

  lemma StuckLocal(s: Whole, id: StreamId, l: P.Label)
    requires id in s.pipes && StuckAt(s, id) && P.Enabled(s.pipes[id], l) && IsLocal(s, id, l)
    ensures !Progress.Works(l)
  {
    LocalSteps(s, id, l);
  }

  /**
    However many other requests, agents, flushes and faults there are: of a stream that is not flushed, whose
    client stays and whose writes succeed, once nothing more can happen to it runEcho is still waiting exactly
    when its request has not been sent to the agent, the receive loop left silently, the agent halted before it
    ended the response, or the stream table is held and the stream's lookup waits for it.
   */
  lemma WaitsExactlyWhen(xs: seq<Step>, s: Whole, id: StreamId)
    requires Run(Start(), xs, s) && id in s.pipes && StuckAt(s, id)
    requires Progress.AllPatient(PipeLabels(Start(), xs, id))
    ensures var p := s.pipes[id];
      p.side.writer.Selecting? <==>
        || id !in s.ctl.sent
        || Progress.LeftSilently(id, PipeLabels(Start(), xs, id))
        || Progress.Halted(p)
        || (s.ctl.lock.Some? && Progress.AwaitsLookup(p))
  {
    var p, ls := s.pipes[id], PipeLabels(Start(), xs, id);
    AlwaysCoherent(xs, s);
    StreamRun(xs, s, id);
    Progress.PatientInvariants(id, p.job, ls, p);
    if id in s.ctl.sent {
      StuckInPart(s, id);
      Progress.WaitsExactlyWhen(p, Progress.LeftSilently(id, ls), s.ctl.lock.Some?);
    } else {
      UnsentWaits(s, id, Progress.LeftSilently(id, ls));
    }
  }

  lemma UnsentWaits(s: Whole, id: StreamId, silently: bool)
    requires Coherent(s) && id in s.pipes && StuckAt(s, id) && id !in s.ctl.sent
    requires Progress.Informed(s.pipes[id], silently)
    ensures s.pipes[id].side.writer.Selecting?
  {
    StuckNotWriting(s, id);
    NotFinished(s, id, silently);
  }

  lemma StuckNotWriting(s: Whole, id: StreamId)
    requires Coherent(s) && id in s.pipes && StuckAt(s, id)
    ensures !s.pipes[id].side.writer.Writing?
  {
    if s.pipes[id].side.writer.Writing? {
      WriteReturns(s.pipes[id]);
      StuckSide(s, id, WholeWrite(s.pipes[id]).l);
    }
  }

  function WholeWrite(p: P.Pipe): (l: P.Label)
    ensures l.OnSide?
  {
    P.OnSide(Rsp.Write(|P.AtWriter(p.side)|, true))
  }

  lemma WriteReturns(p: P.Pipe)
    requires p.side.writer.Writing?
    ensures P.Enabled(p, WholeWrite(p)) && Progress.Works(WholeWrite(p)) && !Progress.NeedsTable(WholeWrite(p))
    ensures OfFlush(WholeWrite(p)) && P.Apply(p, WholeWrite(p)).side.writer.Selecting?
  {
  }

  lemma NotFinished(s: Whole, id: StreamId, silently: bool)
    requires Dormant(s) && id in s.pipes && id !in s.ctl.sent && Progress.Informed(s.pipes[id], silently)
    ensures !s.pipes[id].side.writer.Finished?
  {
    assert Untouched(s.pipes[id]);
  }

  // ------------------------------------------------------------------------
  // A lookup that waits for the table
  // ------------------------------------------------------------------------

  /** The first message is taken off the wire in some continuation. */
  ghost predicate CanBeLookedUp(s: Whole, id: StreamId) {
    exists xs, t :: Run(s, xs, t) && id in t.pipes && t.pipes[id].side.received != []
  }

  /** The receive loop has received nothing, and if it has returned never will. */
  predicate NothingReceived(p: P.Pipe) {
    p.side.received == [] && (p.side.receiver.AwaitId? || p.side.receiver.Returned?)
  }

  lemma NothingReceivedStep(p: P.Pipe, l: P.Label)
    requires NothingReceived(p) && P.Enabled(p, l) && !TakesFirst(l)
    ensures NothingReceived(P.Apply(p, l))
  {
  }

  predicate TakesFirst(l: P.Label) {
    l.OnSide? && l.l.FirstEvent? && l.l.ev.Msg?
  }

  /** While the table is held, no first message is taken. */
  lemma NoFirstMessage(s: Whole, x: Step, id: StreamId)
    requires Paired(s) && id in s.pipes && Enabled(s, x) && s.ctl.lock.Some? && PipeLabel(s, x, id).Some?
    ensures !TakesFirst(PipeLabel(s, x, id).value)
  {
    var l := PipeLabel(s, x, id).value;
    if TakesFirst(l) {
      FirstIsOwn(s.pipes[id], l.l.ev.msg);
      FirstNeedsTable(s, x, id);
    }
  }

  lemma FirstNeedsTable(s: Whole, x: Step, id: StreamId)
    requires Enabled(s, x) && PipeLabel(s, x, id) == Some(P.OnSide(Rsp.FirstEvent(Echo.Msg(StreamID(id)))))
    ensures s.ctl.lock.None?
  {
  }

  lemma HeldStep(s: Whole, x: Step, id: StreamId)
    requires Coherent(s) && id in s.pipes && Enabled(s, x) && s.ctl.lock.Some? && NothingReceived(s.pipes[id])
    ensures id in Apply(s, x).pipes && NothingReceived(Apply(s, x).pipes[id])
  {
    StillThere(s, x, id);
    if PipeLabel(s, x, id).Some? {
      NoFirstMessage(s, x, id);
      NothingReceivedStep(s.pipes[id], PipeLabel(s, x, id).value);
    }
  }

  lemma WedgedOn(s: Whole, x: Step, w: nat, wid: StreamId)
    requires Coherent(s) && Enabled(s, x) && R.Wedged(s.ctl, w, wid)
    ensures R.Wedged(Apply(s, x).ctl, w, wid)
  {
    if CtlLabel(s, x).Some? {
      R.WedgedStep(s.ctl, CtlLabel(s, x).value, w, wid);
    }
  }

  lemma {:induction false} HeldForEver(s: Whole, xs: seq<Step>, t: Whole, id: StreamId, w: nat, wid: StreamId)
    requires Coherent(s) && Run(s, xs, t) && R.Wedged(s.ctl, w, wid) && id in s.pipes && NothingReceived(s.pipes[id])
    ensures id in t.pipes && NothingReceived(t.pipes[id])
    decreases |xs|
  {
    if xs != [] {
      CoherentStep(s, xs[0]);
      WedgedOn(s, xs[0], w, wid);
      HeldStep(s, xs[0], id);
      HeldForEver(Apply(s, xs[0]), xs[1..], t, id, w, wid);
    }
  }

  /** runEcho of a stream waits for a lookup that a wedged table never lets happen. */
  ghost predicate WaitsForTable(s: Whole, id: StreamId) {
    id in s.pipes && NothingReceived(s.pipes[id]) && s.pipes[id].side.writer.Selecting? && !InTodo(s.ctl, id)
  }

  predicate ClientStays(ls: seq<P.Label>) {
    ls == [] || (ls[0] != P.OnSide(Rsp.ClientGone) && ClientStays(ls[1..]))
  }

  lemma WaitsStep(s: Whole, x: Step, id: StreamId, w: nat, wid: StreamId)
    requires Coherent(s) && Enabled(s, x) && R.Wedged(s.ctl, w, wid) && WaitsForTable(s, id)
    requires PipeLabel(s, x, id) != Some(P.OnSide(Rsp.ClientGone))
    ensures WaitsForTable(Apply(s, x), id)
  {
    HeldStep(s, x, id);
    StillThere(s, x, id);
    if CtlLabel(s, x).Some? {
      TodoStep(s.ctl, CtlLabel(s, x).value, id);
    }
    if PipeLabel(s, x, id).Some? {
      assert !s.pipes[id].side.flush.Cancelling?;
      SelectsOn(s.pipes[id], PipeLabel(s, x, id).value);
    }
  }

  lemma SelectsOn(p: P.Pipe, l: P.Label)
    requires NothingReceived(p) && p.side.writer.Selecting? && !p.side.flush.Cancelling? && P.Enabled(p, l)
    requires l != P.OnSide(Rsp.ClientGone)
    ensures P.Apply(p, l).side.writer.Selecting?
  {
  }

  /** Another session's flush that is wedged keeps such a runEcho waiting for ever, whatever else happens. */
  lemma {:induction false} WaitsForEver(s: Whole, xs: seq<Step>, t: Whole, id: StreamId, w: nat, wid: StreamId)
    requires Coherent(s) && Run(s, xs, t) && R.Wedged(s.ctl, w, wid) && WaitsForTable(s, id)
    requires ClientStays(PipeLabels(s, xs, id))
    ensures WaitsForTable(t, id)
    decreases |xs|
  {
    if xs != [] {
      CoherentStep(s, xs[0]);
      WedgedOn(s, xs[0], w, wid);
      FirstLabel(s, xs, id);
      var rest := PipeLabels(Apply(s, xs[0]), xs[1..], id);
      if PipeLabel(s, xs[0], id).Some? {
        assert PipeLabels(s, xs, id)[1..] == rest;
      } else {
        assert PipeLabels(s, xs, id) == rest;
      }
      WaitsStep(s, xs[0], id, w, wid);
      WaitsForEver(Apply(s, xs[0]), xs[1..], t, id, w, wid);
    }
  }

  // ------------------------------------------------------------------------
  // A flush that can end
  // ------------------------------------------------------------------------

  /** Nothing arrives and nothing is received. */
  predicate SameArrivals(p: P.Pipe, q: P.Pipe) {
    q.wire == p.wire && q.side.receiver == p.side.receiver && q.side.received == p.side.received
  }

  ghost predicate ArrivalsKept(s: Whole, t: Whole) {
    forall id :: id in s.pipes ==> id in t.pipes && SameArrivals(s.pipes[id], t.pipes[id])
  }

  predicate OfFlush(l: P.Label) {
    l.OnSide? && (l.l.FlushHandOff? || l.l.FlushMark? || l.l.Write?)
  }

  lemma FlushKeepsArrivals(p: P.Pipe, l: P.Label)
    requires P.Enabled(p, l) && OfFlush(l)
    ensures SameArrivals(p, P.Apply(p, l))
  {
  }

  lemma StepKeepsArrivals(s: Whole, x: Step)
    requires Paired(s) && C.IdsDistinct(s.ctl) && Enabled(s, x)
    requires forall id :: PipeLabel(s, x, id).Some? ==> OfFlush(PipeLabel(s, x, id).value)
    ensures ArrivalsKept(s, Apply(s, x))
  {
    forall id | id in s.pipes ensures id in Apply(s, x).pipes && SameArrivals(s.pipes[id], Apply(s, x).pipes[id]) {
      StillThere(s, x, id);
      if PipeLabel(s, x, id).Some? {
        FlushKeepsArrivals(s.pipes[id], PipeLabel(s, x, id).value);
      }
    }
  }

  lemma KeptTogether(s: Whole, s': Whole, t: Whole)
    requires ArrivalsKept(s, s') && ArrivalsKept(s', t)
    ensures ArrivalsKept(s, t)
  {
  }

  ghost function Marking(s: Whole): set<StreamId> {
    set id | id in s.pipes && s.pipes[id].side.flush.Marking?
  }

  /** The state is one that some run leads to. */
  ghost predicate FromStart(s: Whole) {
    exists xs :: Run(Start(), xs, s)
  }

  lemma FromStartStep(s: Whole, x: Step)
    requires FromStart(s) && Enabled(s, x)
    ensures FromStart(Apply(s, x))
  {
    var xs :| Run(Start(), xs, s);
    StepFirst(s, x, [], Apply(s, x));
    RunConcat(Start(), xs, s, [x] + [], Apply(s, x));
  }

  lemma FromStartCoherent(s: Whole)
    requires FromStart(s)
    ensures Coherent(s)
  {
    var xs :| Run(Start(), xs, s);
    AlwaysCoherent(xs, s);
  }

  /** A step that has to do with flushes and writers alone. */
  lemma FlushStep(s: Whole, x: Step)
    requires FromStart(s) && Enabled(s, x)
    requires forall id :: PipeLabel(s, x, id).Some? ==> OfFlush(PipeLabel(s, x, id).value)
    ensures FromStart(Apply(s, x)) && ArrivalsKept(s, Apply(s, x))
  {
    FromStartStep(s, x);
    FromStartCoherent(s);
    StepKeepsArrivals(s, x);
  }

  /** Such a step of one pipeline. */
  lemma LocalFlushStep(s: Whole, id: StreamId, l: P.Label)
    requires FromStart(s) && id in s.pipes && P.Enabled(s.pipes[id], l) && OfFlush(l) && IsLocal(s, id, l)
    ensures Enabled(s, Local(id, l)) && FromStart(Apply(s, Local(id, l))) && ArrivalsKept(s, Apply(s, Local(id, l)))
  {
    LocalSteps(s, id, l);
    FlushStep(s, Local(id, l));
  }

  lemma LocalPipes(s: Whole, id: StreamId, l: P.Label)
    requires id in s.pipes && Enabled(s, Local(id, l))
    ensures P.Enabled(s.pipes[id], l)
    ensures Apply(s, Local(id, l)).pipes == s.pipes[id := P.Apply(s.pipes[id], l)]
    ensures Apply(s, Local(id, l)).ctl == s.ctl
  {
    assert PipeLabel(s, Local(id, l), id) == Some(l);
  }

  lemma MarkOne(s: Whole, id: StreamId) returns (t: Whole)
    requires FromStart(s) && id in Marking(s)
    ensures Run(s, [Local(id, P.OnSide(Rsp.FlushMark))], t) && FromStart(t) && ArrivalsKept(s, t) && t.ctl == s.ctl
    ensures Marking(t) == Marking(s) - {id}
  {
    var l := P.OnSide(Rsp.FlushMark);
    LocalFlushStep(s, id, l);
    t := Apply(s, Local(id, l));
    StepFirst(s, Local(id, l), [], t);
    assert [Local(id, l)] + [] == [Local(id, l)];
    LocalPipes(s, id, l);
    MarkedIs(s.pipes[id]);
    OthersMarking(s, t, id);
  }

  lemma MarkedIs(p: P.Pipe)
    requires P.Enabled(p, P.OnSide(Rsp.FlushMark))
    ensures !P.Apply(p, P.OnSide(Rsp.FlushMark)).side.flush.Marking?
  {
  }

  lemma OthersMarking(s: Whole, t: Whole, id: StreamId)
    requires id in s.pipes && id in t.pipes && t.pipes == s.pipes[id := t.pipes[id]]
    requires !t.pipes[id].side.flush.Marking?
    ensures Marking(t) == Marking(s) - {id}
  {
  }

  /** Every cancelled stream is marked. */
  lemma {:induction false} MarkAll(s: Whole) returns (xs: seq<Step>, t: Whole)
    requires FromStart(s)
    ensures Run(s, xs, t) && FromStart(t) && ArrivalsKept(s, t) && t.ctl == s.ctl && Marking(t) == {}
    decreases |Marking(s)|
  {
    if Marking(s) == {} {
      xs, t := [], s;
    } else {
      var id :| id in Marking(s);
      var s' := MarkOne(s, id);
      var rest;
      rest, t := MarkAll(s');
      KeptTogether(s, s', t);
      RunConcat(s, [Local(id, P.OnSide(Rsp.FlushMark))], s', rest, t);
      xs := [Local(id, P.OnSide(Rsp.FlushMark))] + rest;
    }
  }

  /** The writer of a stream that a flush has yet to cancel comes back to its select. */
  lemma Selects(s: Whole, id: StreamId) returns (xs: seq<Step>, t: Whole)
    requires FromStart(s) && id in s.pipes && !s.pipes[id].side.writer.Finished?
    ensures Run(s, xs, t) && FromStart(t) && ArrivalsKept(s, t) && t.ctl == s.ctl
    ensures id in t.pipes && t.pipes[id].side.writer.Selecting?
  {
    if s.pipes[id].side.writer.Selecting? {
      xs, t := [], s;
    } else {
      var l := WholeWrite(s.pipes[id]);
      WriteReturns(s.pipes[id]);
      LocalFlushStep(s, id, l);
      t := Apply(s, Local(id, l));
      LocalPipes(s, id, l);
      StepFirst(s, Local(id, l), [], t);
      xs := [Local(id, l)] + [];
    }
  }

  /** The next stream of a flush is cancelled. */
  lemma CancelNext(s: Whole, w: nat, id: StreamId) returns (t: Whole)
    requires FromStart(s) && C.FlushingAt(s.ctl, w) && R.AllListening(s.ctl, w) && id in s.ctl.waiters[w].pc.todo
    requires id in s.pipes && s.pipes[id].side.writer.Selecting?
    ensures Enabled(s, FlushOne(w, id)) && t == Apply(s, FlushOne(w, id))
    ensures FromStart(t) && ArrivalsKept(s, t)
    ensures C.FlushingAt(t.ctl, w) && R.AllListening(t.ctl, w)
    ensures t.ctl.waiters[w].pc.todo == s.ctl.waiters[w].pc.todo - {id}
  {
    CancelEnabled(s, w, id);
    t := Apply(s, FlushOne(w, id));
    CancelCtl(s, w, id);
    FlushStep(s, FlushOne(w, id));
  }

  lemma CancelCtl(s: Whole, w: nat, id: StreamId)
    requires FromStart(s) && C.FlushingAt(s.ctl, w) && R.AllListening(s.ctl, w) && id in s.ctl.waiters[w].pc.todo
    requires Enabled(s, FlushOne(w, id))
    ensures var c := Apply(s, FlushOne(w, id)).ctl;
      && C.FlushingAt(c, w) && R.AllListening(c, w) && c.waiters[w].pc.todo == s.ctl.waiters[w].pc.todo - {id}
  {
    FromStartCoherent(s);
    var c := R.FlushGoesDown(s.ctl, w, id);
  }

  lemma CancelEnabled(s: Whole, w: nat, id: StreamId)
    requires FromStart(s) && C.FlushingAt(s.ctl, w) && R.AllListening(s.ctl, w) && id in s.ctl.waiters[w].pc.todo
    requires id in s.pipes && s.pipes[id].side.writer.Selecting?
    ensures Enabled(s, FlushOne(w, id))
  {
    FromStartCoherent(s);
    CancelFits(s, w, id);
  }

  lemma CancelFits(s: Whole, w: nat, id: StreamId)
    requires C.LockHeld(s.ctl) && Locked(s)
    requires C.FlushingAt(s.ctl, w) && R.AllListening(s.ctl, w) && id in s.ctl.waiters[w].pc.todo
    requires id in s.pipes && s.pipes[id].side.writer.Selecting?
    ensures Enabled(s, FlushOne(w, id))
  {
    assert InTodo(s.ctl, id);
  }

  lemma Listening(s: Whole, w: nat, id: StreamId)
    requires FromStart(s) && C.FlushingAt(s.ctl, w) && R.AllListening(s.ctl, w) && id in s.ctl.waiters[w].pc.todo
    ensures id in s.pipes && !s.pipes[id].side.writer.Finished?
  {
    FromStartCoherent(s);
    assert id in C.OfSession(s.ctl, s.ctl.waiters[w].key.sessionId);
    assert C.EntryMatches(s.ctl, id, s.ctl.streams[id]);
  }

  /** A flush whose handlers are all listening comes to its end, and no stream's arrivals change meanwhile. */
  lemma {:induction false} WholeFlush(s: Whole, w: nat) returns (xs: seq<Step>, t: Whole)
    requires FromStart(s) && C.FlushingAt(s.ctl, w) && R.AllListening(s.ctl, w)
    ensures Run(s, xs, t) && FromStart(t) && ArrivalsKept(s, t) && t.ctl.lock.None?
    decreases |s.ctl.waiters[w].pc.todo|
  {
    if s.ctl.waiters[w].pc.todo == {} {
      xs, t := EndFlush(s, w);
    } else {
      var id :| id in s.ctl.waiters[w].pc.todo;
      var first, s' := WholeCancel(s, w, id);
      var rest;
      rest, t := WholeFlush(s', w);
      KeptTogether(s, s', t);
      RunConcat(s, first, s', rest, t);
      xs := first + rest;
    }
  }

  lemma WholeCancel(s: Whole, w: nat, id: StreamId) returns (xs: seq<Step>, t: Whole)
    requires FromStart(s) && C.FlushingAt(s.ctl, w) && R.AllListening(s.ctl, w) && id in s.ctl.waiters[w].pc.todo
    ensures Run(s, xs, t) && FromStart(t) && ArrivalsKept(s, t)
    ensures C.FlushingAt(t.ctl, w) && R.AllListening(t.ctl, w)
    ensures t.ctl.waiters[w].pc.todo == s.ctl.waiters[w].pc.todo - {id}
  {
    Listening(s, w, id);
    var first, s' := Selects(s, id);
    t := CancelNext(s', w, id);
    KeptTogether(s, s', t);
    StepFirst(s', FlushOne(w, id), [], t);
    RunConcat(s, first, s', [FlushOne(w, id)] + [], t);
    xs := first + ([FlushOne(w, id)] + []);
  }

  lemma StepFirst(s: Whole, x: Step, rest: seq<Step>, t: Whole)
    requires Enabled(s, x) && Run(Apply(s, x), rest, t)
    ensures Run(s, [x] + rest, t)
  {
    assert ([x] + rest)[1..] == rest;
  }

  lemma {:induction false} RunConcat(s: Whole, a: seq<Step>, t: Whole, b: seq<Step>, u: Whole)
    requires Run(s, a, t) && Run(t, b, u)
    ensures Run(s, a + b, u)
    decreases |a|
  {
    if a == [] {
      assert a + b == b;
    } else {
      var x, rest := a[0], a[1..];
      RunConcat(Apply(s, x), rest, t, b, u);
      StepFirst(s, x, rest + b, u);
      Associate([x], rest, b);
      assert a == [x] + rest;
    }
  }

  lemma EndFlush(s: Whole, w: nat) returns (xs: seq<Step>, t: Whole)
    requires FromStart(s) && C.FlushingAt(s.ctl, w) && s.ctl.waiters[w].pc.todo == {}
    ensures Run(s, xs, t) && FromStart(t) && ArrivalsKept(s, t) && t.ctl.lock.None?
  {
    var first, s1 := MarkAll(s);
    t := EndMarked(s1, w);
    KeptTogether(s, s1, t);
    RunConcat(s, first, s1, [FlushEnd(w)], t);
    xs := first + [FlushEnd(w)];
  }

  lemma EndMarked(s: Whole, w: nat) returns (t: Whole)
    requires FromStart(s) && C.FlushingAt(s.ctl, w) && s.ctl.waiters[w].pc.todo == {} && Marking(s) == {}
    ensures Run(s, [FlushEnd(w)], t) && FromStart(t) && ArrivalsKept(s, t) && t.ctl.lock.None?
  {
    NoneMarking(s);
    EndEnabled(s, w);
    t := Apply(s, FlushEnd(w));
    FlushStep(s, FlushEnd(w));
    StepFirst(s, FlushEnd(w), [], t);
    assert [FlushEnd(w)] + [] == [FlushEnd(w)];
  }

  lemma EndEnabled(s: Whole, w: nat)
    requires C.FlushingAt(s.ctl, w) && s.ctl.waiters[w].pc.todo == {}
    requires forall id :: id in s.pipes ==> !s.pipes[id].side.flush.Marking?
    ensures Enabled(s, FlushEnd(w)) && Apply(s, FlushEnd(w)).ctl.lock.None?
    ensures forall id :: PipeLabel(s, FlushEnd(w), id).None?
  {
  }

  lemma NoneMarking(s: Whole)
    requires Marking(s) == {}
    ensures forall id :: id in s.pipes ==> !s.pipes[id].side.flush.Marking?
  {
    forall id | id in s.pipes ensures !s.pipes[id].side.flush.Marking? {
      assert id !in Marking(s);
    }
  }

  /**
    A stream whose first message has arrived while the table is held: some continuation takes that message
    exactly when every handler the flush has yet to cancel is in runEcho.
   */
  lemma LookedUpExactlyWhen(xs: seq<Step>, s: Whole, id: StreamId)
    requires Run(Start(), xs, s) && id in s.pipes && Progress.AwaitsLookup(s.pipes[id]) && s.ctl.lock.Some?
    ensures CanBeLookedUp(s, id) <==>
      C.FlushingAt(s.ctl, s.ctl.lock.value) && R.AllListening(s.ctl, s.ctl.lock.value)
  {
    assert FromStart(s);
    HolderFlushes(s);
    var w := s.ctl.lock.value;
    if R.AllListening(s.ctl, w) {
      var ys, t := WholeFlush(s, w);
      LooksUp(s, ys, t, id);
    } else {
      NotLookedUp(s, id, w);
    }
  }

  lemma HolderFlushes(s: Whole)
    requires FromStart(s) && s.ctl.lock.Some?
    ensures C.FlushingAt(s.ctl, s.ctl.lock.value)
  {
    FromStartCoherent(s);
  }

  lemma NotLookedUp(s: Whole, id: StreamId, w: nat)
    requires FromStart(s) && id in s.pipes && s.pipes[id].side.receiver.AwaitId?
    requires C.FlushingAt(s.ctl, w) && !R.AllListening(s.ctl, w)
    ensures !CanBeLookedUp(s, id)
  {
    FromStartCoherent(s);
    var wid := R.WedgedBy(s.ctl, w);
    ReceivedNothing(s.pipes[id]);
    forall ys, t | Run(s, ys, t) && id in t.pipes ensures t.pipes[id].side.received == [] {
      HeldForEver(s, ys, t, id, w, wid);
    }
  }

  lemma ReceivedNothing(p: P.Pipe)
    requires Reached(p) && p.side.receiver.AwaitId?
    ensures NothingReceived(p)
  {
    ReachedInv(p);
  }

  lemma LooksUp(s: Whole, ys: seq<Step>, t: Whole, id: StreamId)
    requires Run(s, ys, t) && FromStart(t) && ArrivalsKept(s, t) && t.ctl.lock.None?
    requires id in s.pipes && Progress.AwaitsLookup(s.pipes[id])
    ensures CanBeLookedUp(s, id)
  {
    assert Progress.AwaitsLookup(t.pipes[id]);
    var x := LookUp(t, id);
    StepFirst(t, x, [], Apply(t, x));
    RunConcat(s, ys, t, [x] + [], Apply(t, x));
  }

  lemma LookUp(s: Whole, id: StreamId) returns (x: Step)
    requires FromStart(s) && s.ctl.lock.None? && id in s.pipes && Progress.AwaitsLookup(s.pipes[id])
    ensures Enabled(s, x) && id in Apply(s, x).pipes && Apply(s, x).pipes[id].side.received != []
  {
    FromStartCoherent(s);
    var m := s.pipes[id].wire[0];
    NoFlushFor(s, id);
    x := FirstEventSteps(s, id, Echo.Msg(m));
    StillThere(s, x, id);
    Receives(s.pipes[id], m);
  }

  lemma NoFlushFor(s: Whole, id: StreamId)
    requires Locked(s) && id in s.pipes && s.ctl.lock.None? && Progress.AwaitsLookup(s.pipes[id])
    ensures P.Enabled(s.pipes[id], P.OnSide(Rsp.FirstEvent(Echo.Msg(s.pipes[id].wire[0]))))
  {
    NotLocked(s, id);
  }

  lemma Receives(p: P.Pipe, m: StreamFlow)
    requires P.Enabled(p, P.OnSide(Rsp.FirstEvent(Echo.Msg(m))))
    ensures P.Apply(p, P.OnSide(Rsp.FirstEvent(Echo.Msg(m)))).side.received != []
  {
  }

  // ------------------------------------------------------------------------
  // Delivery among others
  // ------------------------------------------------------------------------

  /**
    A request whose agent has it, whose body ends uncancelled, and whose own stream meets no fault, no flush and
    no client that leaves is delivered whatever happens to the others: when nothing more can happen to it and
    the stream table is free, its handler has sent exactly the response the request determines.
   */
  lemma DeliversAmongOthers(xs: seq<Step>, s: Whole, e: C.EchoRef)
    requires Run(Start(), xs, s) && C.WasTaken(s.ctl, e) && C.IdOf(s.ctl, e) in s.pipes
    requires var id := C.IdOf(s.ctl, e);
      && StuckAt(s, id) && id in s.ctl.sent && s.ctl.lock.None?
      && Progress.EndsUncancelled(s.pipes[id].job) && Progress.AllWork(PipeLabels(Start(), xs, id))
    ensures var id := C.IdOf(s.ctl, e);
      && Progress.AllReturned(s.pipes[id]) && s.pipes[id].side.writer == Rsp.Finished(Rsp.ByDone)
      && Sent(s, e) == ClientOutput.Shown(id, s.pipes[id].job)
  {
    var id := C.IdOf(s.ctl, e);
    AlwaysCoherent(xs, s);
    StreamRun(xs, s, id);
    StuckInPart(s, id);
    Progress.DeliversWithoutFaults(id, s.pipes[id].job, PipeLabels(Start(), xs, id), s.pipes[id]);
    HandlersServeTheirOwn(xs, s, e);
  }
}
