/** What holds in every run of the controller: isolation, stream ID life cycle, cleanup, and what can wedge it. */
module ControllerRuns {
  import opened Wrappers
  import opened Tunnel
  import opened Sessions
  import opened Controller

  // ------------------------------------------------------------------------
  // Isolation
  // ------------------------------------------------------------------------

  /**
    Each request is taken at most once, by a waiter of the session it was routed to. A data flow opened with
    an ID drives the echo of that ID only: table key, request ID and echo agree, and a handler runs only with
    what came over flows opened with its own ID, which no other handler has.
   */
  lemma Isolation(ls: seq<Label>, s: State)
    requires Run(Start(), ls, s)
    ensures forall i, j :: 0 <= i < j < |s.takes| ==> s.takes[i] != s.takes[j]
    ensures forall w :: w in s.waiters && (s.waiters[w].pc.Taken? || s.waiters[w].pc.Sending?) ==>
              HasId(s, s.waiters[w].pc.e) && s.handlers[s.waiters[w].pc.e].key == s.waiters[w].key
    ensures forall id :: id in s.streams ==> HasId(s, s.streams[id].echo) && IdOf(s, s.streams[id].echo) == id
    ensures forall i :: 0 <= i < |s.deliveries| ==>
              HasId(s, s.deliveries[i].handler) && IdOf(s, s.deliveries[i].handler) == s.deliveries[i].quoted
    ensures forall e, e' :: HasId(s, e) && HasId(s, e') && IdOf(s, e) == IdOf(s, e') ==> e == e'
  {
    InvReached(ls, s);
    assert forall id :: id in s.streams ==> EntryMatches(s, id, s.streams[id]);
    assert forall i :: 0 <= i < |s.deliveries| ==> Names(s, s.deliveries[i].quoted, s.deliveries[i].handler);
  }

  // ------------------------------------------------------------------------
  // Stream IDs
  // ------------------------------------------------------------------------

  /** Fresh, offered, registered, over. */
  function Stage(s: State, id: StreamId): nat {
    if id !in s.usedIds then 0 else if id !in s.registered then 1 else if id in s.streams then 2 else 3
  }

  lemma StageStep(s: State, l: Label, id: StreamId)
    requires HeldOnce(s) && RegisteredNamed(s) && Accounted(s) && IdsDistinct(s) && Enabled(s, l)
    ensures Stage(s, id) <= Stage(Apply(s, l), id)
  {
    TableStep(s, l, id);
    UsedStep(s, l);
    if Registers(s, l, id) {
      assert Holds(s, l.w);
    }
    if id in s.registered {
      RegisteredUsed(s, id);
    }
  }

  lemma RegisteredUsed(s: State, id: StreamId)
    requires RegisteredNamed(s) && IdsDistinct(s) && id in s.registered
    ensures id in s.usedIds
  {
    var e :| Names(s, id, e);
    assert HasId(s, e);
  }

  lemma UsedStep(s: State, l: Label)
    requires Enabled(s, l)
    ensures s.usedIds <= Apply(s, l).usedIds
  {
  }

  lemma {:induction false} StageNeverFalls(s: State, ls: seq<Label>, t: State, id: StreamId)
    requires Inv(s) && Run(s, ls, t)
    ensures Stage(s, id) <= Stage(t, id)
    decreases |ls|
  {
    if ls != [] {
      InvStep(s, ls[0]);
      StageStep(s, ls[0], id);
      StageNeverFalls(Apply(s, ls[0]), ls[1..], t, id);
    }
  }

  /**
    A stream ID never goes back: fresh, offered, registered, over. And an ID an agent has been sent is found in
    the table, with its own echo, unless a data flow for it has ended or it was flushed.
   */
  lemma StreamIdLifeCycle(first: seq<Label>, s: State, rest: seq<Label>, t: State, id: StreamId)
    requires Run(Start(), first, s) && Run(s, rest, t)
    ensures Stage(s, id) <= Stage(t, id)
    ensures id in t.sent && id !in t.ended && id !in t.flushed ==> id in t.streams && Names(t, id, t.streams[id].echo)
  {
    InvReached(first, s);
    StageNeverFalls(s, rest, t, id);
    InvRun(s, rest, t);
    if id in t.streams {
      assert EntryMatches(t, id, t.streams[id]);
    }
  }

  // ------------------------------------------------------------------------
  // Cleanup
  // ------------------------------------------------------------------------

  /** A session that was there, is in the table no more, and has no live waiter. */
  ghost predicate Dead(s: State, sessionId: string) {
    && sessionId in s.usedSessions
    && (forall key :: key in s.sessions ==> key.sessionId != sessionId)
    && (forall w: nat :: Live(s, w) ==> s.waiters[w].key.sessionId != sessionId)
  }

  lemma DeadStep(s: State, l: Label, sessionId: string)
    requires Dead(s, sessionId) && Enabled(s, l)
    ensures Dead(Apply(s, l), sessionId)
  {
    var t := Apply(s, l);
    forall w: nat | Live(t, w) ensures t.waiters[w].key.sessionId != sessionId {
      LiveBefore(s, l, w);
    }
    SessionsStep(s, l);
  }

  lemma LiveBefore(s: State, l: Label, w: nat)
    requires Enabled(s, l) && Live(Apply(s, l), w)
    ensures (Live(s, w) && Apply(s, l).waiters[w].key == s.waiters[w].key)
         || (l.OpenWait? && w == l.w && Apply(s, l).waiters[w].key == l.key)
  {
  }

  lemma SessionsStep(s: State, l: Label)
    requires Enabled(s, l)
    ensures s.usedSessions <= Apply(s, l).usedSessions
    ensures Apply(s, l).sessions <= s.sessions + if l.Hello? then {l.key} else {}
  {
  }

  /** A request of a dead session that no waiter has taken is never taken. */
  ghost predicate Untaken(s: State, e: EchoRef, sessionId: string) {
    && e in s.handlers && s.handlers[e].key.sessionId == sessionId
    && (s.handlers[e].pc.Reading? || s.handlers[e].pc.Offering?)
  }

  lemma UntakenStep(s: State, l: Label, e: EchoRef, sessionId: string)
    requires Dead(s, sessionId) && Untaken(s, e, sessionId) && StreamsMatch(s) && FlowsMatch(s) && Enabled(s, l)
    ensures Untaken(Apply(s, l), e, sessionId)
  {
    if l.Take? {
      assert Live(s, l.w);
    }
    if l.FlushOne? {
      assert EntryMatches(s, l.id, s.streams[l.id]);
    }
    if l.Deliver? {
      assert Names(s, s.flows[l.f].quoted, s.flows[l.f].echo);
    }
  }

  lemma {:induction false} DeadRun(s: State, ls: seq<Label>, t: State, sessionId: string)
    requires Inv(s) && Dead(s, sessionId) && Run(s, ls, t)
    ensures Inv(t) && Dead(t, sessionId)
    ensures forall e :: Untaken(s, e, sessionId) ==> Untaken(t, e, sessionId)
    decreases |ls|
  {
    if ls != [] {
      var s' := Apply(s, ls[0]);
      InvStep(s, ls[0]);
      DeadStep(s, ls[0], sessionId);
      forall e | Untaken(s, e, sessionId) ensures Untaken(s', e, sessionId) {
        UntakenStep(s, ls[0], e, sessionId);
      }
      DeadRun(s', ls[1..], t, sessionId);
    }
  }

  /** Every stream in the table belongs to a session with a WaitForRequest that has not flushed it. */
  lemma StreamsHaveWaiters(ls: seq<Label>, s: State, id: StreamId)
    requires Run(Start(), ls, s) && id in s.streams
    ensures exists w: nat :: LiveFor(s, w, s.streams[id].sessionId)
  {
    InvReached(ls, s);
  }

  /**
    Cleanup is permanent: once a session is out of the table and its last WaitForRequest has flushed, then in
    every continuation it stays so, none of its streams is in the table, and a handler that found the session
    before but was not taken stays in its send for ever.
   */
  lemma CleanupIsPermanent(first: seq<Label>, s: State, rest: seq<Label>, t: State, sessionId: string)
    requires Run(Start(), first, s) && Run(s, rest, t) && Dead(s, sessionId)
    ensures Dead(t, sessionId)
    ensures forall id :: id in t.streams ==> t.streams[id].sessionId != sessionId
    ensures forall e :: Untaken(s, e, sessionId) ==> Untaken(t, e, sessionId)
  {
    InvReached(first, s);
    DeadRun(s, rest, t, sessionId);
    forall id | id in t.streams ensures t.streams[id].sessionId != sessionId {
      var w: nat :| LiveFor(t, w, t.streams[id].sessionId);
    }
  }

  // ------------------------------------------------------------------------
  // Ping
  // ------------------------------------------------------------------------

  /** The label takes `key` out of the session table. */
  predicate Removes(s: State, l: Label, key: AgentKey) {
    match l
    case Expire(keys) => key in keys
    case CloseSession(w) => w in s.waiters && s.waiters[w].key == key
    case DeferredRemove(w) => w in s.waiters && s.waiters[w].key == key
    case _ => false
  }

  ghost predicate RemovedDuring(s: State, ls: seq<Label>, key: AgentKey)
    decreases |ls|
  {
    ls != [] && Enabled(s, ls[0]) && (Removes(s, ls[0], key) || RemovedDuring(Apply(s, ls[0]), ls[1..], key))
  }

  lemma {:induction false} GoneForGood(s: State, ls: seq<Label>, t: State, key: AgentKey)
    requires key.sessionId in s.usedSessions && key !in s.sessions && Run(s, ls, t)
    ensures key !in t.sessions
    decreases |ls|
  {
    if ls != [] {
      GoneForGood(Apply(s, ls[0]), ls[1..], t, key);
    }
  }

  /**
    Ping looks its session up twice. The second lookup, a nil dereference if it fails, fails exactly when the
    session was removed between the two.
   */
  lemma {:induction false} TouchPanicsExactlyWhen(s: State, ls: seq<Label>, t: State, key: AgentKey)
    requires Inv(s) && key in s.sessions && Run(s, ls, t)
    ensures key !in t.sessions <==> RemovedDuring(s, ls, key)
    decreases |ls|
  {
    if ls != [] {
      InvStep(s, ls[0]);
      var s' := Apply(s, ls[0]);
      if key in s'.sessions {
        TouchPanicsExactlyWhen(s', ls[1..], t, key);
      } else {
        GoneForGood(s', ls[1..], t, key);
      }
    }
  }

  /** It happens: one sweep between the lookups is enough. */
  lemma ExpiryBetweenLookups(key: AgentKey) returns (s: State, t: State)
    ensures Run(Start(), [Hello(key)], s) && key in s.sessions
    ensures Run(s, [Expire({key})], t) && key !in t.sessions
  {
    s := Apply(Start(), Hello(key));
    t := Apply(s, Expire({key}));
    assert [Hello(key)][1..] == [] && [Expire({key})][1..] == [];
  }

  // ------------------------------------------------------------------------
  // A flush waits for every echo with the table locked
  // ------------------------------------------------------------------------

  /** Every stream the flush still has to cancel has its handler in runEcho. */
  ghost predicate AllListening(s: State, w: nat)
    requires FlushingAt(s, w)
  {
    forall id :: id in s.waiters[w].pc.todo ==> id in s.streams && IsRunning(s, s.streams[id].echo)
  }

  ghost predicate CanFinish(s: State, w: nat) {
    exists ls, t :: Run(s, ls, t) && w in t.waiters && t.waiters[w].pc.Ending?
  }

  /** The flush of `w` still has to cancel `id`, whose handler has returned. */
  ghost predicate Wedged(s: State, w: nat, id: StreamId) {
    && s.lock == Some(w) && FlushingAt(s, w) && id in s.waiters[w].pc.todo
    && id in s.streams && WasTaken(s, s.streams[id].echo) && !IsRunning(s, s.streams[id].echo)
  }

  lemma WedgedStep(s: State, l: Label, w: nat, id: StreamId)
    requires Wedged(s, w, id) && LockHeld(s) && Enabled(s, l)
    ensures Wedged(Apply(s, l), w, id)
    ensures Apply(s, l).flows == s.flows && Apply(s, l).registered == s.registered
  {
    if l.FlushOne? || l.FlushEnd? {
      assert FlushingAt(s, l.w);
    }
  }

  /**
    From then on, in every run, the lock is never released: no stream is ever registered, no data flow finds
    its stream and none comes to its end, for any agent.
   */
  lemma {:induction false} WedgedForEver(s: State, ls: seq<Label>, t: State, w: nat, id: StreamId)
    requires Inv(s) && Wedged(s, w, id) && Run(s, ls, t)
    ensures Wedged(t, w, id) && t.flows == s.flows && t.registered == s.registered
    decreases |ls|
  {
    if ls != [] {
      InvStep(s, ls[0]);
      WedgedStep(s, ls[0], w, id);
      WedgedForEver(Apply(s, ls[0]), ls[1..], t, w, id);
    }
  }

  /** Step by step, a flush does to the table what `Streams.StreamManager.FlushAgent` does in one call. */
  lemma {:induction false} FlushFinishes(s: State, w: nat) returns (ls: seq<Label>, t: State)
    requires Matched(s) && LockHeld(s) && FlushingAt(s, w) && AllListening(s, w)
    ensures Run(s, ls, t) && w in t.waiters && t.waiters[w].pc.Ending? && t.lock.None?
    ensures t.streams == s.streams - OfSession(s, s.waiters[w].key.sessionId) && t.sessions == s.sessions
    ensures FlushFrames(s, t, w)
    decreases |s.waiters[w].pc.todo|
  {
    if s.waiters[w].pc.todo == {} {
      t := FlushEnds(s, w);
      ls := [FlushEnd(w)];
      assert ls[1..] == [];
    } else {
      var id :| id in s.waiters[w].pc.todo;
      var s' := FlushGoesDown(s, w, id);
      var rest;
      rest, t := FlushFinishes(s', w);
      FramesTogether(s, s', t, w);
      ls := [FlushOne(w, id)] + rest;
      assert ls[1..] == rest;
    }
  }

  lemma FlushEnds(s: State, w: nat) returns (t: State)
    requires LockHeld(s) && FlushingAt(s, w) && s.waiters[w].pc.todo == {}
    ensures Enabled(s, FlushEnd(w)) && t == Apply(s, FlushEnd(w))
    ensures w in t.waiters && t.waiters[w].pc.Ending? && t.lock.None? && FlushFrames(s, t, w)
    ensures t.streams == s.streams - OfSession(s, s.waiters[w].key.sessionId) && t.sessions == s.sessions
  {
    NoneLeft(s, w);
    t := Apply(s, FlushEnd(w));
  }

  lemma FlushGoesDown(s: State, w: nat, id: StreamId) returns (t: State)
    requires Matched(s) && LockHeld(s) && FlushingAt(s, w) && AllListening(s, w) && id in s.waiters[w].pc.todo
    ensures Enabled(s, FlushOne(w, id)) && t == Apply(s, FlushOne(w, id))
    ensures Matched(t) && LockHeld(t) && FlushingAt(t, w) && AllListening(t, w) && FlushFrames(s, t, w)
    ensures t.waiters[w].pc.todo == s.waiters[w].pc.todo - {id} && t.sessions == s.sessions
    ensures t.waiters[w].key == s.waiters[w].key
    ensures t.streams - OfSession(t, s.waiters[w].key.sessionId) == s.streams - OfSession(s, s.waiters[w].key.sessionId)
  {
    t := Apply(s, FlushOne(w, id));
    MatchedStep(s, FlushOne(w, id));
    LockHeldStep(s, FlushOne(w, id));
    OthersListen(s, w, id);
    OneOut(s, w, id);
    OneFrames(s, w, id);
  }

  lemma FramesTogether(s: State, s': State, t: State, w: nat)
    requires FlushFrames(s, s', w) && FlushFrames(s', t, w)
    ensures FlushFrames(s, t, w)
  {
    forall e | e in s.handlers && !WasTaken(s, e) ensures e in t.handlers && t.handlers[e] == s.handlers[e] {
      assert e in s'.handlers && s'.handlers[e] == s.handlers[e];
    }
  }

  /** The flush of `w` changes no other waiter and no request that has not been taken. */
  ghost predicate FlushFrames(s: State, t: State, w: nat) {
    && (forall v :: v in s.waiters && v != w ==> v in t.waiters && t.waiters[v] == s.waiters[v])
    && (forall e :: e in s.handlers && !WasTaken(s, e) ==> e in t.handlers && t.handlers[e] == s.handlers[e])
  }

  lemma OneFrames(s: State, w: nat, id: StreamId)
    requires StreamsMatch(s) && Enabled(s, FlushOne(w, id))
    ensures FlushFrames(s, Apply(s, FlushOne(w, id)), w)
  {
    assert EntryMatches(s, id, s.streams[id]);
  }

  lemma NoneLeft(s: State, w: nat)
    requires LockHeld(s) && FlushingAt(s, w) && s.waiters[w].pc.todo == {}
    ensures s.streams == s.streams - OfSession(s, s.waiters[w].key.sessionId)
  {
    assert forall id :: id in s.streams ==> id !in OfSession(s, s.waiters[w].key.sessionId);
  }

  lemma OneOut(s: State, w: nat, id: StreamId)
    requires LockHeld(s) && FlushingAt(s, w) && Enabled(s, FlushOne(w, id))
    ensures var t := Apply(s, FlushOne(w, id));
      && t.waiters[w].key == s.waiters[w].key
      && t.streams - OfSession(t, s.waiters[w].key.sessionId) == s.streams - OfSession(s, s.waiters[w].key.sessionId)
  {
    assert id in OfSession(s, s.waiters[w].key.sessionId);
  }

  lemma OthersListen(s: State, w: nat, id: StreamId)
    requires StreamsMatch(s) && FlushingAt(s, w) && AllListening(s, w) && id in s.waiters[w].pc.todo
    ensures FlushingAt(Apply(s, FlushOne(w, id)), w) && AllListening(Apply(s, FlushOne(w, id)), w)
  {
    var t := Apply(s, FlushOne(w, id));
    forall other | other in t.waiters[w].pc.todo ensures other in t.streams && IsRunning(t, t.streams[other].echo) {
      assert EntryMatches(s, other, s.streams[other]) && EntryMatches(s, id, s.streams[id]);
    }
  }

  /**
    A flush under way can still come to its end exactly when every handler it has yet to cancel is still in
    runEcho. A client that has disconnected is enough to prevent it.
   */
  lemma FlushFinishesExactlyWhen(first: seq<Label>, s: State, w: nat)
    requires Run(Start(), first, s) && FlushingAt(s, w)
    ensures CanFinish(s, w) <==> AllListening(s, w)
  {
    InvReached(first, s);
    if AllListening(s, w) {
      var ls, t := FlushFinishes(s, w);
    } else {
      var id := WedgedBy(s, w);
      forall ls, t | Run(s, ls, t) ensures !(w in t.waiters && t.waiters[w].pc.Ending?) {
        WedgedForEver(s, ls, t, w, id);
      }
    }
  }

  lemma WedgedBy(s: State, w: nat) returns (id: StreamId)
    requires LockHeld(s) && StreamsMatch(s) && FlushingAt(s, w) && !AllListening(s, w)
    ensures Wedged(s, w, id)
  {
    id :| id in s.waiters[w].pc.todo && !(id in s.streams && IsRunning(s, s.streams[id].echo));
    assert id in OfSession(s, s.waiters[w].key.sessionId);
    assert EntryMatches(s, id, s.streams[id]);
  }

  lemma {:induction false} OneMore(s: State, ls: seq<Label>, t: State, l: Label)
    requires Run(s, ls, t) && Enabled(t, l)
    ensures Run(s, ls + [l], Apply(t, l))
    decreases |ls|
  {
    if ls == [] {
      assert ([] + [l])[1..] == [];
    } else {
      OneMore(Apply(s, ls[0]), ls[1..], t, l);
      assert (ls + [l])[1..] == ls[1..] + [l];
    }
  }

  /** One request whose client leaves before its agent does wedges the table. */
  lemma ClientThenAgentLeaves(key: AgentKey, id: StreamId) returns (ls: seq<Label>, s: State)
    ensures Run(Start(), ls, s) && Wedged(s, 0, id)
  {
    ls, s := Abandoned(key, id);
    OneMore(Start(), ls, s, FlushStart(0));
    ls, s := ls + [FlushStart(0)], Apply(s, FlushStart(0));
    assert id in OfSession(s, key.sessionId);
  }

  /** Both have left, and the flush is about to begin. */
  lemma Abandoned(key: AgentKey, id: StreamId) returns (ls: seq<Label>, s: State)
    ensures Run(Start(), ls, s)
    ensures s.lock.None? && 0 in s.waiters && s.waiters[0] == Waiter(key, Closed)
    ensures 0 in s.handlers && s.handlers[0] == Handler(key, Finished(id))
    ensures s.streams == map[id := Entry(key.sessionId, 0)]
  {
    ls, s := Requested(key, id);
    OneMore(Start(), ls, s, ClientGone(0));
    ls, s := ls + [ClientGone(0)], Apply(s, ClientGone(0));
    OneMore(Start(), ls, s, ContextDone(0));
    ls, s := ls + [ContextDone(0)], Apply(s, ContextDone(0));
    OneMore(Start(), ls, s, CloseSession(0));
    ls, s := ls + [CloseSession(0)], Apply(s, CloseSession(0));
  }

  /** A request on its way to the only agent. */
  lemma Requested(key: AgentKey, id: StreamId) returns (ls: seq<Label>, s: State)
    ensures Run(Start(), ls, s)
    ensures s.lock.None? && 0 in s.waiters && s.waiters[0] == Waiter(key, Waiting)
    ensures 0 in s.handlers && s.handlers[0] == Handler(key, Running(id))
    ensures s.streams == map[id := Entry(key.sessionId, 0)]
  {
    ls, s := [], Start();
    OneMore(Start(), ls, s, Hello(key));
    ls, s := ls + [Hello(key)], Apply(s, Hello(key));
    OneMore(Start(), ls, s, OpenWait(0, key));
    ls, s := ls + [OpenWait(0, key)], Apply(s, OpenWait(0, key));
    OneMore(Start(), ls, s, FindSession(0, key));
    ls, s := ls + [FindSession(0, key)], Apply(s, FindSession(0, key));
    OneMore(Start(), ls, s, Offer(0, id));
    ls, s := ls + [Offer(0, id)], Apply(s, Offer(0, id));
    OneMore(Start(), ls, s, Take(0, 0));
    ls, s := ls + [Take(0, 0)], Apply(s, Take(0, 0));
    OneMore(Start(), ls, s, Register(0));
    ls, s := ls + [Register(0)], Apply(s, Register(0));
    OneMore(Start(), ls, s, SendOk(0));
    ls, s := ls + [SendOk(0)], Apply(s, SendOk(0));
  }
}
