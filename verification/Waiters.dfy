/**
  A call of WaitForRequest among all others, from its first request to its end (app/server/server.go:85-108): it
  ends as the loop run by itself ends, and once it ends it takes, registers and sends nothing more.
 */
module Waiters {
  import opened Wrappers
  import opened Tunnel
  import opened Sessions
  import Streams
  import opened Controller
  import opened ControllerRuns
  import opened WaitLoop
  import opened Tables

  // ------------------------------------------------------------------------
  // After its end
  // ------------------------------------------------------------------------

  /** The call has left its loop. */
  predicate Left(s: State, w: nat) {
    w in s.waiters && !s.waiters[w].pc.Waiting? && !s.waiters[w].pc.Taken? && !s.waiters[w].pc.Sending?
  }

  /** A step of the call's loop. */
  predicate LoopStepOf(l: Label, w: nat) {
    (l.Take? && l.w == w) || l == Register(w) || l == SendOk(w) || l == SendFails(w) || l == Label.ContextDone(w)
  }

  lemma LeftStep(s: State, l: Label, w: nat)
    requires Left(s, w) && Enabled(s, l)
    ensures Left(Apply(s, l), w) && !LoopStepOf(l, w) && Apply(s, l).waiters[w].key == s.waiters[w].key
  {
    OnlyOwn(s, l, w);
  }

  /** A step names the call it is of, if it is of one. */
  function CallOf(l: Label): Option<nat> {
    match l
    case Take(w, _) => Some(w)
    case Register(w) => Some(w)
    case SendOk(w) => Some(w)
    case SendFails(w) => Some(w)
    case ContextDone(w) => Some(w)
    case CloseSession(w) => Some(w)
    case FlushStart(w) => Some(w)
    case FlushOne(w, _) => Some(w)
    case FlushEnd(w) => Some(w)
    case DeferredRemove(w) => Some(w)
    case _ => None
  }

  lemma OnlyOwn(s: State, l: Label, w: nat)
    requires Enabled(s, l) && w in s.waiters
    ensures w in Apply(s, l).waiters && Apply(s, l).waiters[w].key == s.waiters[w].key
    ensures CallOf(l) != Some(w) ==> Apply(s, l).waiters[w] == s.waiters[w]
  {
  }

  lemma {:induction false} LeftForGood(s: State, ls: seq<Label>, t: State, w: nat)
    requires Left(s, w) && Run(s, ls, t)
    ensures Left(t, w) && t.waiters[w].key == s.waiters[w].key
    ensures forall i :: 0 <= i < |ls| ==> !LoopStepOf(ls[i], w)
    decreases |ls|
  {
    if ls != [] {
      LeftStep(s, ls[0], w);
      LeftForGood(Apply(s, ls[0]), ls[1..], t, w);
      assert forall i :: 1 <= i < |ls| ==> ls[i] == ls[1..][i - 1];
    }
  }

  /** After a Send that failed, or the end of its context, a call takes, registers and sends nothing any more. */
  lemma EndsForGood(s: State, l: Label, ls: seq<Label>, t: State, w: nat)
    requires (l == SendFails(w) || l == Label.ContextDone(w)) && Enabled(s, l) && Run(Apply(s, l), ls, t)
    ensures forall i :: 0 <= i < |ls| ==>
      !(ls[i].Take? && ls[i].w == w) && ls[i] != Register(w) && ls[i] != SendOk(w)
    ensures w in t.waiters && !t.waiters[w].pc.Waiting? && !t.waiters[w].pc.Taken? && !t.waiters[w].pc.Sending?
  {
    LeftForGood(Apply(s, l), ls, t, w);
  }

  /** How far a step brings the end of call `w`: session closed, flush begun, flush ended, returned. */
  function EndStep(l: Label, w: nat): nat {
    if l == CloseSession(w) then 1 else if l == FlushStart(w) then 2 else if l == FlushEnd(w) then 3
    else if l == DeferredRemove(w) then 4 else 0
  }

  /** How far the end of call `w` has come. */
  function EndOf(s: State, w: nat): nat {
    if w !in s.waiters then 0
    else match s.waiters[w].pc
      case Closed => 1
      case Flushing(_) => 2
      case Ending => 3
      case Gone => 4
      case _ => 0
  }

  lemma EndOfStep(s: State, l: Label, w: nat)
    requires Enabled(s, l)
    ensures EndOf(Apply(s, l), w) == if EndStep(l, w) > 0 then EndStep(l, w) else EndOf(s, w)
    ensures EndStep(l, w) > 0 ==> EndStep(l, w) == EndOf(s, w) + 1
  {
    if w in s.waiters {
      OnlyOwn(s, l, w);
    }
  }

  lemma {:induction false} EndsLater(s: State, ls: seq<Label>, t: State, w: nat, j: nat)
    requires Run(s, ls, t) && j < |ls| && EndStep(ls[j], w) > 0
    ensures EndStep(ls[j], w) > EndOf(s, w)
    decreases |ls|
  {
    EndOfStep(s, ls[0], w);
    if j > 0 {
      EndsLater(Apply(s, ls[0]), ls[1..], t, w, j - 1);
    }
  }

  /** A call closes its session, begins its flush, ends it and returns in this order, and each of them once. */
  lemma {:induction false} EndsInOrder(s: State, ls: seq<Label>, t: State, w: nat, i: nat, j: nat)
    requires Run(s, ls, t) && i < j < |ls| && EndStep(ls[i], w) > 0 && EndStep(ls[j], w) > 0
    ensures EndStep(ls[i], w) < EndStep(ls[j], w)
    decreases |ls|
  {
    if i > 0 {
      EndsInOrder(Apply(s, ls[0]), ls[1..], t, w, i - 1, j - 1);
    } else {
      EndOfStep(s, ls[0], w);
      EndsLater(Apply(s, ls[0]), ls[1..], t, w, j - 1);
    }
  }

  /** Has the call removed its session, and has it flushed its streams. */
  predicate Removed(pc: WaiterPc) {
    pc.Closed? || pc.Flushing? || pc.Ending? || pc.Gone?
  }

  ghost predicate RemovedFirst(s: State) {
    forall w :: w in s.waiters ==>
      && s.waiters[w].key.sessionId in s.usedSessions
      && (Removed(s.waiters[w].pc) ==> s.waiters[w].key !in s.sessions)
  }

  lemma RemovedFirstStep(s: State, l: Label)
    requires RemovedFirst(s) && SessionsUsed(s) && Enabled(s, l)
    ensures RemovedFirst(Apply(s, l))
  {
    var t := Apply(s, l);
    forall w | w in t.waiters
      ensures t.waiters[w].key.sessionId in t.usedSessions
      ensures Removed(t.waiters[w].pc) ==> t.waiters[w].key !in t.sessions
    {
      RemovedFirstFor(s, l, w);
    }
  }

  lemma RemovedFirstFor(s: State, l: Label, w: nat)
    requires RemovedFirst(s) && SessionsUsed(s) && Enabled(s, l) && w in Apply(s, l).waiters
    ensures var t := Apply(s, l); t.waiters[w].key.sessionId in t.usedSessions
    ensures var t := Apply(s, l); Removed(t.waiters[w].pc) ==> t.waiters[w].key !in t.sessions
  {
    SessionsStep(s, l);
    PcStep(s, l, w);
  }

  lemma PcStep(s: State, l: Label, w: nat)
    requires Enabled(s, l) && w in Apply(s, l).waiters
    ensures var t := Apply(s, l);
      if w in s.waiters then
        && t.waiters[w].key == s.waiters[w].key
        && (Removed(t.waiters[w].pc) ==> Removed(s.waiters[w].pc) || l == CloseSession(w))
      else l.OpenWait? && l.w == w && t.waiters[w] == Waiter(l.key, Waiting) && l.key in s.sessions
    ensures l == CloseSession(w) ==> w in s.waiters && s.waiters[w].key !in Apply(s, l).sessions
  {
  }

  lemma {:induction false} RemovedFirstRun(s: State, ls: seq<Label>, t: State)
    requires Inv(s) && RemovedFirst(s) && Run(s, ls, t)
    ensures RemovedFirst(t)
    decreases |ls|
  {
    if ls != [] {
      InvStep(s, ls[0]);
      RemovedFirstStep(s, ls[0]);
      RemovedFirstRun(Apply(s, ls[0]), ls[1..], t);
    }
  }

  /** Once a call has closed its session, and so once it has returned, the session is in the table no more. */
  lemma ClosedForGood(first: seq<Label>, s: State, rest: seq<Label>, t: State, w: nat)
    requires Run(Start(), first, s) && Run(s, rest, t) && w in s.waiters
    requires s.waiters[w].pc.Closed? || s.waiters[w].pc.Flushing? || s.waiters[w].pc.Ending? || s.waiters[w].pc.Gone?
    ensures s.waiters[w].key !in t.sessions
  {
    RemovedFirstRun(Start(), first, s);
    GoneForGood(s, rest, t, s.waiters[w].key);
  }

  /** And when its flush ends no stream of the session is left in the table. */
  lemma FlushLeavesNone(first: seq<Label>, s: State, w: nat)
    requires Run(Start(), first, s) && Enabled(s, FlushEnd(w))
    ensures forall id :: id in s.streams ==> s.streams[id].sessionId != s.waiters[w].key.sessionId
  {
    InvReached(first, s);
    assert FlushingAt(s, w);
    forall id | id in s.streams ensures s.streams[id].sessionId != s.waiters[w].key.sessionId {
      assert id !in OfSession(s, s.waiters[w].key.sessionId);
    }
  }

  // ------------------------------------------------------------------------
  // As the loop by itself
  // ------------------------------------------------------------------------

  /** What the loop of call `w` selects in a run, and how its sends go. */
  function InputsOf(o: Objects, s: State, ls: seq<Label>, w: nat): seq<WaitInput>
    decreases |ls|
  {
    if ls == [] || !Enabled(s, ls[0]) then []
    else InputOf(o, s, ls[0], w) + InputsOf(o, Apply(s, ls[0]), ls[1..], w)
  }

  function InputOf(o: Objects, s: State, l: Label, w: nat): seq<WaitInput>
    requires Enabled(s, l)
  {
    if l == Label.ContextDone(w) then [WaitInput.ContextDone]
    else if (l == SendOk(w) || l == SendFails(w)) && HasId(s, s.waiters[w].pc.e) then
      [Handed(IdOf(s, s.waiters[w].pc.e), o.echoes(s.waiters[w].pc.e), l == SendOk(w))]
    else []
  }

  lemma LoopEndStep(o: Objects, s: State, l: Label, w: nat)
    requires HoldsOwn(s) && w in s.waiters && !Left(s, w) && Enabled(s, l)
    ensures w in Apply(s, l).waiters && (Left(Apply(s, l), w) <==> Closes(InputOf(o, s, l, w)))
  {
    OnlyOwn(s, l, w);
    if CallOf(l) == Some(w) {
      OwnLoopStep(o, s, l, w);
    }
  }

  lemma OwnLoopStep(o: Objects, s: State, l: Label, w: nat)
    requires HoldsOwn(s) && w in s.waiters && !Left(s, w) && Enabled(s, l) && CallOf(l) == Some(w)
    ensures w in Apply(s, l).waiters && (Left(Apply(s, l), w) <==> Closes(InputOf(o, s, l, w)))
  {
    if l == SendFails(w) {
      assert WasTaken(s, s.waiters[w].pc.e);
    }
  }

  lemma {:induction false} ClosesConcat(a: seq<WaitInput>, b: seq<WaitInput>)
    ensures Closes(a + b) <==> Closes(a) || Closes(b)
    decreases |a|
  {
    if a == [] {
      assert a + b == b;
    } else {
      ClosesConcat(a[1..], b);
      assert (a + b)[1..] == a[1..] + b;
    }
  }

  /**
    In every run, a call leaves its loop exactly when the loop by itself, on what this run gave it, ends: by the
    end of its context or a send that fails.
   */
  lemma {:induction false} LeavesExactlyWhen(o: Objects, s: State, ls: seq<Label>, t: State, w: nat)
    requires Matched(s) && w in s.waiters && !Left(s, w) && Run(s, ls, t)
    ensures Left(t, w) <==> Closes(InputsOf(o, s, ls, w))
    decreases |ls|
  {
    if ls != [] {
      var s' := Apply(s, ls[0]);
      MatchedStep(s, ls[0]);
      LoopEndStep(o, s, ls[0], w);
      ClosesConcat(InputOf(o, s, ls[0], w), InputsOf(o, s', ls[1..], w));
      if Left(s', w) {
        LeftForGood(s', ls[1..], t, w);
      } else {
        LeavesExactlyWhen(o, s', ls[1..], t, w);
      }
    }
  }

  /** The other calls and the data flows leave the stream table alone. */
  predicate Alone(ls: seq<Label>, w: nat) {
    ls == [] || (LeavesTable(ls[0], w) && Alone(ls[1..], w))
  }

  predicate LeavesTable(l: Label, w: nat) {
    (l.Register? ==> l.w == w) && (l.FlushOne? ==> l.w == w) && !l.EndFlow?
  }

  lemma {:induction false} RegisteredSnoc(streams: map<StreamId, Streams.Stream>, key: AgentKey,
                                          inputs: seq<WaitInput>, x: WaitInput)
    requires !Closes(inputs)
    ensures Registered(streams, key, inputs + [x])
         == if x.ContextDone? then Registered(streams, key, inputs)
            else Registered(streams, key, inputs)[x.streamId := Streams.Stream(key.agentId, key.sessionId, x.echo)]
    decreases |inputs|
  {
    if inputs == [] {
      assert [x][1..] == [];
    } else {
      var more := streams[inputs[0].streamId := Streams.Stream(key.agentId, key.sessionId, inputs[0].echo)];
      RegisteredSnoc(more, key, inputs[1..], x);
      assert (inputs + [x])[1..] == inputs[1..] + [x];
    }
  }

  /** The class's stream table of a call that started with `before` and has had `inputs`. */
  ghost predicate TableOf(o: Objects, s: State, before: map<StreamId, Streams.Stream>, inputs: seq<WaitInput>, w: nat,
                          streams: map<StreamId, Streams.Stream>)
  {
    && w in s.waiters && (!Left(s, w) <==> !Closes(inputs))
    && var key := s.waiters[w].key;
       var all := Registered(before, key, inputs);
       match s.waiters[w].pc
       case Sending(e) =>
         HasId(s, e) && streams == all[IdOf(s, e) := Streams.Stream(key.agentId, key.sessionId, o.echoes(e))]
       case Flushing(todo) =>
         todo <= Streams.OfSession(all, key.sessionId)
         && streams == all - (Streams.OfSession(all, key.sessionId) - todo)
       case Ending => streams == Streams.WithoutSession(all, key.sessionId)
       case Gone => streams == Streams.WithoutSession(all, key.sessionId)
       case _ => streams == all
  }

  lemma TableOfStep(o: Objects, s: State, b: Both, before: map<StreamId, Streams.Stream>, inputs: seq<WaitInput>,
                    l: Label, w: nat)
    requires Matched(s) && LockHeld(s) && Agree(o, s, b) && Enabled(s, l) && LeavesTable(l, w)
    requires TableOf(o, s, before, inputs, w, b.streams)
    ensures TableOf(o, Apply(s, l), before, inputs + InputOf(o, s, l, w), w, OnStreams(o, s, b.streams, l))
  {
    if l == SendOk(w) || l == SendFails(w) || l == Label.ContextDone(w) {
      InputStep(o, s, b.streams, before, inputs, l, w);
    } else {
      QuietStep(o, s, b, before, inputs, l, w);
      assert inputs + [] == inputs;
    }
  }

  lemma QuietStep(o: Objects, s: State, b: Both, before: map<StreamId, Streams.Stream>, inputs: seq<WaitInput>,
                  l: Label, w: nat)
    requires Matched(s) && LockHeld(s) && Agree(o, s, b) && Enabled(s, l) && LeavesTable(l, w)
    requires TableOf(o, s, before, inputs, w, b.streams)
    requires l != SendOk(w) && l != SendFails(w) && l != Label.ContextDone(w)
    ensures InputOf(o, s, l, w) == []
    ensures TableOf(o, Apply(s, l), before, inputs, w, OnStreams(o, s, b.streams, l))
  {
    if l == Register(w) {
      RegisterStep(o, s, b.streams, before, inputs, w);
    } else if l == FlushStart(w) {
      FlushStartStep(o, s, b, before, inputs, w);
    } else if l.FlushOne? {
      FlushOneStep(o, s, b.streams, before, inputs, w, l.id);
    } else {
      OtherStep(o, s, b.streams, before, inputs, l, w);
    }
  }

  lemma InputStep(o: Objects, s: State, streams: map<StreamId, Streams.Stream>,
                  before: map<StreamId, Streams.Stream>, inputs: seq<WaitInput>, l: Label, w: nat)
    requires HoldsOwn(s) && Enabled(s, l) && TableOf(o, s, before, inputs, w, streams)
    requires l == SendOk(w) || l == SendFails(w) || l == Label.ContextDone(w)
    ensures TableOf(o, Apply(s, l), before, inputs + InputOf(o, s, l, w), w, OnStreams(o, s, streams, l))
  {
    var x := InputOf(o, s, l, w)[0];
    assert InputOf(o, s, l, w) == [x];
    ClosesConcat(inputs, [x]);
    assert [x][1..] == [];
    RegisteredSnoc(before, s.waiters[w].key, inputs, x);
  }

  lemma RegisterStep(o: Objects, s: State, streams: map<StreamId, Streams.Stream>,
                     before: map<StreamId, Streams.Stream>, inputs: seq<WaitInput>, w: nat)
    requires Enabled(s, Register(w)) && TableOf(o, s, before, inputs, w, streams)
    ensures TableOf(o, Apply(s, Register(w)), before, inputs, w, OnStreams(o, s, streams, Register(w)))
    ensures InputOf(o, s, Register(w), w) == []
  {
  }

  lemma FlushStartStep(o: Objects, s: State, b: Both, before: map<StreamId, Streams.Stream>, inputs: seq<WaitInput>,
                       w: nat)
    requires Agree(o, s, b) && Enabled(s, FlushStart(w)) && TableOf(o, s, before, inputs, w, b.streams)
    ensures TableOf(o, Apply(s, FlushStart(w)), before, inputs, w, OnStreams(o, s, b.streams, FlushStart(w)))
    ensures InputOf(o, s, FlushStart(w), w) == []
  {
    var sid := s.waiters[w].key.sessionId;
    forall id | id in s.streams ensures b.streams[id].sessionId == s.streams[id].sessionId {
      assert StandsFor(o, s, s.streams[id], b.streams[id]);
    }
    assert OfSession(s, sid) == Streams.OfSession(b.streams, sid);
    assert b.streams - {} == b.streams;
  }

  lemma FlushOneStep(o: Objects, s: State, streams: map<StreamId, Streams.Stream>,
                     before: map<StreamId, Streams.Stream>, inputs: seq<WaitInput>, w: nat, id: StreamId)
    requires Enabled(s, FlushOne(w, id)) && TableOf(o, s, before, inputs, w, streams)
    ensures TableOf(o, Apply(s, FlushOne(w, id)), before, inputs, w, OnStreams(o, s, streams, FlushOne(w, id)))
    ensures InputOf(o, s, FlushOne(w, id), w) == []
  {
    var all := Registered(before, s.waiters[w].key, inputs);
    var mine, todo := Streams.OfSession(all, s.waiters[w].key.sessionId), s.waiters[w].pc.todo;
    assert all - (mine - todo) - {id} == all - (mine - (todo - {id}));
  }

  lemma OtherStep(o: Objects, s: State, streams: map<StreamId, Streams.Stream>,
                  before: map<StreamId, Streams.Stream>, inputs: seq<WaitInput>, l: Label, w: nat)
    requires HoldsOwn(s) && LockHeld(s) && Enabled(s, l) && LeavesTable(l, w)
    requires TableOf(o, s, before, inputs, w, streams)
    requires !l.Register? && !l.FlushOne? && l != FlushStart(w)
    requires l != SendOk(w) && l != SendFails(w) && l != Label.ContextDone(w)
    ensures InputOf(o, s, l, w) == []
    ensures TableOf(o, Apply(s, l), before, inputs, w, OnStreams(o, s, streams, l))
  {
    OtherPc(s, l, w);
    OtherTable(o, s, streams, l, w);
    var all := Registered(before, s.waiters[w].key, inputs);
    var mine := Streams.OfSession(all, s.waiters[w].key.sessionId);
    assert mine - {} == mine;
  }

  lemma OtherTable(o: Objects, s: State, streams: map<StreamId, Streams.Stream>, l: Label, w: nat)
    requires Enabled(s, l) && LeavesTable(l, w) && !l.Register? && !l.FlushOne?
    requires l != SendOk(w) && l != SendFails(w) && l != Label.ContextDone(w)
    ensures InputOf(o, s, l, w) == [] && OnStreams(o, s, streams, l) == streams
  {
  }

  lemma OtherPc(s: State, l: Label, w: nat)
    requires HoldsOwn(s) && Enabled(s, l) && w in s.waiters && !l.Register? && !l.FlushOne? && l != FlushStart(w)
    requires l != SendOk(w) && l != SendFails(w) && l != Label.ContextDone(w)
    ensures var t, pc := Apply(s, l), s.waiters[w].pc;
      && w in t.waiters && t.waiters[w].key == s.waiters[w].key
      && (t.waiters[w].pc == pc
          || (pc.Waiting? && t.waiters[w].pc.Taken?) || (pc.Closing? && t.waiters[w].pc.Closed?)
          || (pc == Flushing({}) && t.waiters[w].pc.Ending?) || (pc.Ending? && t.waiters[w].pc.Gone?))
      && (pc.Sending? && HasId(s, pc.e) ==> HasId(t, pc.e) && IdOf(t, pc.e) == IdOf(s, pc.e))
  {
    HandlersStep(s, l);
  }

  lemma {:induction false} TableOfRun(o: Objects, s: State, b: Both, before: map<StreamId, Streams.Stream>,
                                      inputs: seq<WaitInput>, ls: seq<Label>, t: State, w: nat)
    requires Inv(s) && Agree(o, s, b) && TableOf(o, s, before, inputs, w, b.streams)
    requires Run(s, ls, t) && Alone(ls, w)
    ensures TableOf(o, t, before, inputs + InputsOf(o, s, ls, w), w, AllCalled(o, s, b, ls).streams)
    decreases |ls|
  {
    if ls == [] {
      assert inputs + [] == inputs;
    } else {
      var s' := Apply(s, ls[0]);
      InvStep(s, ls[0]);
      AgreeStep(o, s, b, ls[0]);
      TableOfStep(o, s, b, before, inputs, ls[0], w);
      TableOfRun(o, s', Called(o, s, b, ls[0]), before, inputs + InputOf(o, s, ls[0], w), ls[1..], t, w);
      Associate(inputs, InputOf(o, s, ls[0], w), InputsOf(o, s', ls[1..], w));
    }
  }

  /**
    In a run in which the other calls and the data flows leave the stream table alone, a call that waits leaves
    the class's tables as `WaitLoop.WaitForRequest` does when it answers `Serving`, and one that has flushed as
    when it answers `Canceled`, on the inputs this run gave it.
   */
  lemma EndsAsByItself(o: Objects, first: seq<Label>, s: State, ls: seq<Label>, t: State, w: nat)
    requires Run(Start(), first, s) && w in s.waiters && s.waiters[w].pc.Waiting?
    requires Run(s, ls, t) && Alone(ls, w)
    ensures var b := AllCalled(o, Start(), EMPTY, first);
      var key, inputs, streams := s.waiters[w].key, InputsOf(o, s, ls, w), AllCalled(o, s, b, ls).streams;
      && w in t.waiters
      && (t.waiters[w].pc.Waiting? ==> !Closes(inputs) && streams == Registered(b.streams, key, inputs))
      && (t.waiters[w].pc.Ending? || t.waiters[w].pc.Gone? ==>
            && Closes(inputs) && key !in t.sessions
            && streams == Streams.WithoutSession(Registered(b.streams, key, inputs), key.sessionId))
  {
    var b := AllCalled(o, Start(), EMPTY, first);
    TableAtEnd(o, first, s, ls, t, w);
    WaiterKeyStays(s, ls, t, w);
    if t.waiters[w].pc.Ending? || t.waiters[w].pc.Gone? {
      RemovedAtEnd(first, s, ls, t, w);
    }
  }

  lemma TableAtEnd(o: Objects, first: seq<Label>, s: State, ls: seq<Label>, t: State, w: nat)
    requires Run(Start(), first, s) && w in s.waiters && s.waiters[w].pc.Waiting?
    requires Run(s, ls, t) && Alone(ls, w)
    ensures var b := AllCalled(o, Start(), EMPTY, first);
      TableOf(o, t, b.streams, InputsOf(o, s, ls, w), w, AllCalled(o, s, b, ls).streams)
  {
    var b := AllCalled(o, Start(), EMPTY, first);
    InvReached(first, s);
    AgreeFromStart(o, first, s);
    WaitsAtFirst(o, s, b.streams, w);
    TableOfRun(o, s, b, b.streams, [], ls, t, w);
    assert [] + InputsOf(o, s, ls, w) == InputsOf(o, s, ls, w);
  }

  lemma AgreeFromStart(o: Objects, ls: seq<Label>, s: State)
    requires Run(Start(), ls, s)
    ensures Agree(o, s, AllCalled(o, Start(), EMPTY, ls))
  {
    AgreeRun(o, Start(), EMPTY, ls, s);
  }

  lemma WaitsAtFirst(o: Objects, s: State, streams: map<StreamId, Streams.Stream>, w: nat)
    requires w in s.waiters && s.waiters[w].pc.Waiting?
    ensures TableOf(o, s, streams, [], w, streams)
  {
  }

  lemma RemovedAtEnd(first: seq<Label>, s: State, ls: seq<Label>, t: State, w: nat)
    requires Run(Start(), first, s) && Run(s, ls, t) && w in t.waiters && Removed(t.waiters[w].pc)
    ensures t.waiters[w].key !in t.sessions
  {
    InvReached(first, s);
    RemovedFirstRun(Start(), first, s);
    RemovedFirstRun(s, ls, t);
  }

  // ------------------------------------------------------------------------
  // What is taken and sent
  // ------------------------------------------------------------------------

  /** The IDs of the requests that were sent on in a run. */
  function IdsSent(s: State, ls: seq<Label>): set<StreamId>
    decreases |ls|
  {
    if ls == [] || !Enabled(s, ls[0]) then {}
    else (if ls[0].SendOk? then {IdOf(s, s.waiters[ls[0].w].pc.e)} else {}) + IdsSent(Apply(s, ls[0]), ls[1..])
  }

  /** Exactly those are known as sent. */
  lemma {:induction false} SentAre(s: State, ls: seq<Label>, t: State)
    requires Run(s, ls, t)
    ensures t.sent == s.sent + IdsSent(s, ls)
    decreases |ls|
  {
    if ls != [] {
      SentAre(Apply(s, ls[0]), ls[1..], t);
    }
  }

  function TakesIn(ls: seq<Label>): seq<EchoRef> {
    if ls == [] then [] else TakeIn(ls[0]) + TakesIn(ls[1..])
  }

  function TakeIn(l: Label): seq<EchoRef> {
    if l.Take? then [l.e] else []
  }

  lemma TakesStep(s: State, l: Label)
    requires Enabled(s, l)
    ensures Apply(s, l).takes == s.takes + TakeIn(l)
  {
    assert s.takes + [] == s.takes;
  }

  /** Exactly the Take steps of a run are known as taken, in their order. */
  lemma {:induction false} TakesAre(s: State, ls: seq<Label>, t: State)
    requires Run(s, ls, t)
    ensures t.takes == s.takes + TakesIn(ls)
    decreases |ls|
  {
    if ls == [] {
      assert s.takes + [] == s.takes;
    } else {
      TakesStep(s, ls[0]);
      TakesAre(Apply(s, ls[0]), ls[1..], t);
      Associate(s.takes, TakeIn(ls[0]), TakesIn(ls[1..]));
    }
  }

  /** What the data flows deliver in a run. */
  function DeliveriesIn(s: State, ls: seq<Label>): seq<Delivery>
    decreases |ls|
  {
    if ls == [] || !Enabled(s, ls[0]) then [] else DeliveryIn(s, ls[0]) + DeliveriesIn(Apply(s, ls[0]), ls[1..])
  }

  function DeliveryIn(s: State, l: Label): seq<Delivery>
    requires Enabled(s, l)
  {
    if l.Deliver? then [Delivery(s.flows[l.f].echo, s.flows[l.f].quoted)] else []
  }

  lemma DeliveriesStep(s: State, l: Label)
    requires Enabled(s, l)
    ensures Apply(s, l).deliveries == s.deliveries + DeliveryIn(s, l)
  {
    assert s.deliveries + [] == s.deliveries;
  }

  lemma {:induction false} DeliveriesAre(s: State, ls: seq<Label>, t: State)
    requires Run(s, ls, t)
    ensures t.deliveries == s.deliveries + DeliveriesIn(s, ls)
    decreases |ls|
  {
    if ls == [] {
      assert s.deliveries + [] == s.deliveries;
    } else {
      DeliveriesStep(s, ls[0]);
      DeliveriesAre(Apply(s, ls[0]), ls[1..], t);
      Associate(s.deliveries, DeliveryIn(s, ls[0]), DeliveriesIn(Apply(s, ls[0]), ls[1..]));
    }
  }

  /** A request is taken once: no run has two Take steps for it. */
  lemma {:induction false} TakenOnce(s: State, ls: seq<Label>, t: State, i: nat, j: nat)
    requires Run(s, ls, t) && i < j < |ls| && ls[i].Take? && ls[j].Take?
    ensures ls[i].e != ls[j].e
    decreases |ls|
  {
    var s' := Apply(s, ls[0]);
    if i > 0 {
      TakenOnce(s', ls[1..], t, i - 1, j - 1);
    } else {
      NotAgain(s', ls[1..], t, ls[0].e, j - 1);
    }
  }

  lemma {:induction false} NotAgain(s: State, ls: seq<Label>, t: State, e: EchoRef, j: nat)
    requires Run(s, ls, t) && WasTaken(s, e) && j < |ls| && ls[j].Take?
    ensures ls[j].e != e
    decreases |ls|
  {
    if j > 0 {
      HandlersStep(s, ls[0]);
      NotAgain(Apply(s, ls[0]), ls[1..], t, e, j - 1);
    }
  }

  // ------------------------------------------------------------------------
  // The request goes to its session
  // ------------------------------------------------------------------------

  lemma {:induction false} HandlerKeyStays(s: State, ls: seq<Label>, t: State, e: EchoRef)
    requires e in s.handlers && Run(s, ls, t)
    ensures e in t.handlers && t.handlers[e].key == s.handlers[e].key
    decreases |ls|
  {
    if ls != [] {
      HandlersStep(s, ls[0]);
      HandlerKeyStays(Apply(s, ls[0]), ls[1..], t, e);
    }
  }

  lemma {:induction false} FoundKey(s: State, ls: seq<Label>, t: State, i: nat)
    requires Run(s, ls, t) && i < |ls| && ls[i].FindSession?
    ensures ls[i].e in t.handlers && t.handlers[ls[i].e].key == ls[i].key
    decreases |ls|
  {
    if i == 0 {
      HandlerKeyStays(Apply(s, ls[0]), ls[1..], t, ls[0].e);
    } else {
      FoundKey(Apply(s, ls[0]), ls[1..], t, i - 1);
    }
  }

  lemma {:induction false} WaiterKeyStays(s: State, ls: seq<Label>, t: State, w: nat)
    requires w in s.waiters && Run(s, ls, t)
    ensures w in t.waiters && t.waiters[w].key == s.waiters[w].key
    decreases |ls|
  {
    if ls != [] {
      KeyStep(s, ls[0], w);
      WaiterKeyStays(Apply(s, ls[0]), ls[1..], t, w);
    }
  }

  lemma KeyStep(s: State, l: Label, w: nat)
    requires w in s.waiters && Enabled(s, l)
    ensures w in Apply(s, l).waiters && Apply(s, l).waiters[w].key == s.waiters[w].key
  {
  }

  lemma {:induction false} TakenKey(s: State, ls: seq<Label>, t: State, i: nat)
    requires Run(s, ls, t) && i < |ls| && ls[i].Take?
    ensures ls[i].w in t.waiters && ls[i].e in t.handlers && t.waiters[ls[i].w].key == t.handlers[ls[i].e].key
    decreases |ls|
  {
    var s' := Apply(s, ls[0]);
    if i == 0 {
      HandlerKeyStays(s', ls[1..], t, ls[0].e);
      WaiterKeyStays(s', ls[1..], t, ls[0].w);
    } else {
      TakenKey(s', ls[1..], t, i - 1);
    }
  }

  lemma {:induction false} WaiterOpened(s: State, ls: seq<Label>, t: State, w: nat) returns (i: nat)
    requires Run(s, ls, t) && w !in s.waiters && w in t.waiters
    ensures i < |ls| && ls[i] == OpenWait(w, t.waiters[w].key)
    decreases |ls|
  {
    var s' := Apply(s, ls[0]);
    if w in s'.waiters {
      i := 0;
      OpenedKey(s, ls[0], w);
      WaiterKeyStays(s', ls[1..], t, w);
    } else {
      var j := WaiterOpened(s', ls[1..], t, w);
      i := j + 1;
    }
  }

  lemma OpenedKey(s: State, l: Label, w: nat)
    requires Enabled(s, l) && w !in s.waiters && w in Apply(s, l).waiters
    ensures l == OpenWait(w, Apply(s, l).waiters[w].key)
  {
  }

  /**
    A request whose handler found session `key` is taken by no call but one that was opened for that very
    session; so what is addressed to an agent goes to no other agent.
   */
  lemma TakenByItsSession(ls: seq<Label>, s: State, i: nat, j: nat)
    requires Run(Start(), ls, s) && i < |ls| && j < |ls|
    requires ls[i].FindSession? && ls[j].Take? && ls[i].e == ls[j].e
    ensures exists k :: 0 <= k < |ls| && ls[k] == OpenWait(ls[j].w, ls[i].key)
  {
    FoundKey(Start(), ls, s, i);
    TakenKey(Start(), ls, s, j);
    var k := WaiterOpened(Start(), ls, s, ls[j].w);
  }
}
