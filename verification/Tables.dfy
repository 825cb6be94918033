/**
  The classes AgentSessions and StreamManager behind the two tables of module Controller. `CarryOut` makes the
  method calls a step stands for; driven through a whole run, the objects hold what the step system says.
 */
module Tables {
  import opened Tunnel
  import opened ControllerEcho
  import Endpoints
  import opened Sessions
  import Streams
  import opened Controller
  import Runs = ControllerRuns

  /** `AgentSessions.View()` and `StreamManager.streams`. */
  datatype Both = Both(sessions: Table, streams: map<StreamId, Streams.Stream>)

  const EMPTY := Both(map[], map[])

  /** What a Hello brings and when, the session a waiter has found, and the echo an API handler makes. */
  datatype Objects = Objects(
    hello: AgentKey -> (seq<Endpoints.EndpointHealth>, int),
    found: nat -> AgentContext,
    echoes: EchoRef -> ServerEcho)

  /** A waiter's session is the one of its key; runAPIHandler makes its echo with the ID it puts in the request. */
  ghost predicate Made(o: Objects, s: State) {
    && (forall w :: w in s.waiters ==> o.found(w).key == s.waiters[w].key)
    && (forall e :: HasId(s, e) ==> o.echoes(e).streamId == IdOf(s, e))
  }

  /** What a step means for the session table. */
  function OnSessions(o: Objects, s: State, sessions: Table, l: Label): Table
    requires Enabled(s, l)
  {
    match l
    case Hello(key) => sessions[key := Session(Endpoints.AllStored(o.hello(key).0), o.hello(key).1)]
    case Touch(key, time) => if key in sessions then sessions[key := sessions[key].(lastUse := time)] else sessions
    case Expire(keys) => sessions - keys
    case CloseSession(w) => sessions - {s.waiters[w].key}
    case DeferredRemove(w) => sessions - {s.waiters[w].key}
    case _ => sessions
  }

  /** What it means for the stream table. */
  function OnStreams(o: Objects, s: State, streams: map<StreamId, Streams.Stream>, l: Label)
    : map<StreamId, Streams.Stream>
    requires Enabled(s, l)
  {
    match l
    case Register(w) =>
      var key, e := s.waiters[w].key, s.waiters[w].pc.e;
      streams[IdOf(s, e) := Streams.Stream(key.agentId, key.sessionId, o.echoes(e))]
    case EndFlow(f) => streams - {s.flows[f].quoted}
    case FlushOne(w, id) => streams - {id}
    case _ => streams
  }

  function Called(o: Objects, s: State, b: Both, l: Label): Both
    requires Enabled(s, l)
  {
    Both(OnSessions(o, s, b.sessions, l), OnStreams(o, s, b.streams, l))
  }

  function AllCalled(o: Objects, s: State, b: Both, ls: seq<Label>): Both
    decreases |ls|
  {
    if ls == [] || !Enabled(s, ls[0]) then b
    else AllCalled(o, Controller.Apply(s, ls[0]), Called(o, s, b, ls[0]), ls[1..])
  }

  // ------------------------------------------------------------------------
  // The calls
  // ------------------------------------------------------------------------

  /** An Expire step stands for a sweep at `now` when it takes the sessions that are then overdue. */
  ghost predicate IsSweep(t: Table, keys: set<AgentKey>, now: int, idleTimeout: int) {
    forall k :: k in t ==> (k in keys <==> Overdue(t[k], now, idleTimeout))
  }

  /** Carries out step `l` by the calls the source makes on `agents`. */
  method CallSessions(o: Objects, s: State, l: Label, agents: AgentSessions, now: int, idleTimeout: int)
    requires agents.Valid() && Enabled(s, l) && Made(o, s)
    requires l.Expire? ==> IsSweep(agents.View(), l.keys, now, idleTimeout)
    modifies agents, agents.agents.Values
    ensures agents.Valid() && fresh(agents.agents.Values - old(agents.agents.Values))
    ensures agents.View() == OnSessions(o, s, old(agents.View()), l)
  {
    match l {
      case Hello(key) =>
        var (pbs, t) := o.hello(key);
        var _ := agents.RegisterSession(key.agentId, key.sessionId, pbs, t);
      case Touch(key, time) => CallTouch(key, time, agents);
      case Expire(keys) => agents.ExpireOldSessions(now, idleTimeout);
      case CloseSession(w) => agents.RemoveSession(o.found(w));
      case DeferredRemove(w) => agents.RemoveSession(o.found(w));
      case _ =>
    }
  }

  /** Ping: the lookup and the touch. */
  method CallTouch(key: AgentKey, time: int, agents: AgentSessions)
    requires agents.Valid()
    modifies agents.agents.Values
    ensures agents.Valid() && agents.agents == old(agents.agents)
    ensures var before := old(agents.View());
      agents.View() == if key in before then before[key := before[key].(lastUse := time)] else before
  {
    var session := agents.FindSession(key);
    if session.Some? {
      var _ := agents.TouchSession(session.value, time);
    }
  }

  /** And by those it makes on `sm`. */
  method CallStreams(o: Objects, s: State, l: Label, sm: Streams.StreamManager)
    requires Enabled(s, l) && (l.FlushOne? ==> l.id in sm.streams)
    modifies sm, sm.Echoes()
    ensures sm.streams == OnStreams(o, s, old(sm.streams), l)
  {
    match l {
      case Register(w) =>
        var key, e := s.waiters[w].key, s.waiters[w].pc.e;
        sm.Register(key.agentId, key.sessionId, IdOf(s, e), o.echoes(e));
      case EndFlow(f) => sm.Unregister(s.flows[f].quoted);
      case FlushOne(w, id) => sm.FlushOne(id);
      case _ =>
    }
  }

  method CarryOut(o: Objects, s: State, l: Label, agents: AgentSessions, sm: Streams.StreamManager,
                  now: int, idleTimeout: int)
    requires agents.Valid() && Enabled(s, l) && Made(o, s)
    requires l.Expire? ==> IsSweep(agents.View(), l.keys, now, idleTimeout)
    requires l.FlushOne? ==> l.id in sm.streams
    modifies agents, agents.agents.Values, sm, sm.Echoes()
    ensures agents.Valid() && fresh(agents.agents.Values - old(agents.agents.Values))
    ensures Both(agents.View(), sm.streams) == Called(o, s, old(Both(agents.View(), sm.streams)), l)
  {
    CallSessions(o, s, l, agents, now, idleTimeout);
    CallStreams(o, s, l, sm);
  }

  // ------------------------------------------------------------------------
  // Agreement with the step system
  // ------------------------------------------------------------------------

  /** The stream object an entry of the step system stands for. */
  ghost predicate StandsFor(o: Objects, s: State, entry: Entry, stream: Streams.Stream) {
    && entry.echo in s.handlers && s.handlers[entry.echo].key == AgentKey(stream.agentId, entry.sessionId)
    && stream.sessionId == entry.sessionId && stream.echo == o.echoes(entry.echo)
  }

  ghost predicate Agree(o: Objects, s: State, b: Both) {
    && b.sessions.Keys == s.sessions && b.streams.Keys == s.streams.Keys
    && forall id :: id in s.streams ==> StandsFor(o, s, s.streams[id], b.streams[id])
  }

  lemma AgreeStep(o: Objects, s: State, b: Both, l: Label)
    requires Agree(o, s, b) && HoldsOwn(s) && Enabled(s, l)
    ensures Agree(o, Controller.Apply(s, l), Called(o, s, b, l))
  {
    if l.Register? {
      AgreeRegister(o, s, b, l.w);
    } else {
      AgreeElse(o, s, b, l);
    }
  }

  lemma AgreeRegister(o: Objects, s: State, b: Both, w: nat)
    requires Agree(o, s, b) && HoldsOwn(s) && Enabled(s, Register(w))
    ensures Agree(o, Controller.Apply(s, Register(w)), Called(o, s, b, Register(w)))
  {
    var e := s.waiters[w].pc.e;
    assert WasTaken(s, e) && s.handlers[e].key == s.waiters[w].key;
  }

  lemma AgreeElse(o: Objects, s: State, b: Both, l: Label)
    requires Agree(o, s, b) && Enabled(s, l) && !l.Register?
    ensures Agree(o, Controller.Apply(s, l), Called(o, s, b, l))
  {
    var t, c := Controller.Apply(s, l), Called(o, s, b, l);
    HandlersStep(s, l);
    SameSessions(o, s, b.sessions, l);
    EntriesStay(o, s, b.streams, l);
    forall id | id in t.streams ensures StandsFor(o, t, t.streams[id], c.streams[id]) {
      assert StandsFor(o, s, s.streams[id], b.streams[id]);
    }
  }

  lemma SameSessions(o: Objects, s: State, sessions: Table, l: Label)
    requires sessions.Keys == s.sessions && Enabled(s, l)
    ensures OnSessions(o, s, sessions, l).Keys == Controller.Apply(s, l).sessions
  {
  }

  lemma EntriesStay(o: Objects, s: State, streams: map<StreamId, Streams.Stream>, l: Label)
    requires streams.Keys == s.streams.Keys && Enabled(s, l) && !l.Register?
    ensures var gone := Gone(s, l);
      Controller.Apply(s, l).streams == s.streams - gone && OnStreams(o, s, streams, l) == streams - gone
  {
    if Gone(s, l) == {} {
      assert s.streams - {} == s.streams && streams - {} == streams;
    }
  }

  /** The stream a step takes out of the table. */
  function Gone(s: State, l: Label): set<StreamId> {
    match l
    case EndFlow(f) => if f in s.flows then {s.flows[f].quoted} else {}
    case FlushOne(_, id) => {id}
    case _ => {}
  }

  lemma {:induction false} AgreeRun(o: Objects, s: State, b: Both, ls: seq<Label>, t: State)
    requires Matched(s) && Agree(o, s, b) && Run(s, ls, t)
    ensures Agree(o, t, AllCalled(o, s, b, ls)) && HandlersGrow(s, t)
    decreases |ls|
  {
    if ls != [] {
      var s' := Controller.Apply(s, ls[0]);
      MatchedStep(s, ls[0]);
      AgreeStep(o, s, b, ls[0]);
      HandlersStep(s, ls[0]);
      AgreeRun(o, s', Called(o, s, b, ls[0]), ls[1..], t);
    }
  }

  lemma UnderOwnIds(o: Objects, s: State, b: Both)
    requires Agree(o, s, b) && StreamsMatch(s) && Made(o, s)
    ensures Streams.UnderOwnIds(b.streams)
  {
    forall id | id in b.streams ensures b.streams[id].echo.streamId == id {
      assert EntryMatches(s, id, s.streams[id]) && StandsFor(o, s, s.streams[id], b.streams[id]);
    }
  }

  // ------------------------------------------------------------------------
  // Whole runs
  // ------------------------------------------------------------------------

  /** Each Expire step of a run is a sweep, at the time given for it. */
  ghost predicate AllSweeps(o: Objects, s: State, b: Both, ls: seq<Label>, times: seq<int>, idleTimeout: int)
    requires |times| == |ls|
    decreases |ls|
  {
    ls == [] || !Enabled(s, ls[0]) ||
    ((ls[0].Expire? ==> IsSweep(b.sessions, ls[0].keys, times[0], idleTimeout))
     && AllSweeps(o, Controller.Apply(s, ls[0]), Called(o, s, b, ls[0]), ls[1..], times[1..], idleTimeout))
  }

  lemma MadeBefore(o: Objects, s: State, l: Label)
    requires Enabled(s, l) && Made(o, Controller.Apply(s, l))
    ensures Made(o, s)
  {
    var t := Controller.Apply(s, l);
    HandlersStep(s, l);
    assert forall w :: w in s.waiters ==> w in t.waiters && t.waiters[w].key == s.waiters[w].key;
  }

  lemma {:induction false} MadeThroughout(o: Objects, s: State, ls: seq<Label>, t: State)
    requires Run(s, ls, t) && Made(o, t)
    ensures Made(o, s)
    decreases |ls|
  {
    if ls != [] {
      MadeThroughout(o, Controller.Apply(s, ls[0]), ls[1..], t);
      MadeBefore(o, s, ls[0]);
    }
  }

  /** The tables agree with the steps so far, and `ls` are those to come. */
  ghost predicate Going(o: Objects, s: State, b: Both, ls: seq<Label>, t: State, times: seq<int>, idleTimeout: int) {
    && |times| == |ls| && Run(s, ls, t) && Matched(s) && Agree(o, s, b)
    && AllSweeps(o, s, b, ls, times, idleTimeout)
  }

  lemma GoesOn(o: Objects, s: State, b: Both, ls: seq<Label>, t: State, times: seq<int>, idleTimeout: int)
    requires Going(o, s, b, ls, t, times, idleTimeout) && Made(o, t) && ls != []
    ensures Enabled(s, ls[0]) && Made(o, s)
    ensures ls[0].Expire? ==> IsSweep(b.sessions, ls[0].keys, times[0], idleTimeout)
    ensures ls[0].FlushOne? ==> ls[0].id in b.streams
    ensures Going(o, Controller.Apply(s, ls[0]), Called(o, s, b, ls[0]), ls[1..], t, times[1..], idleTimeout)
  {
    MadeThroughout(o, s, ls, t);
    MatchedStep(s, ls[0]);
    AgreeStep(o, s, b, ls[0]);
  }

  /** One step of a run. */
  method CarryOutNext(o: Objects, s: State, ls: seq<Label>, ghost t: State, times: seq<int>, idleTimeout: int,
                      agents: AgentSessions, sm: Streams.StreamManager)
    requires ls != [] && agents.Valid() && Made(o, t)
    requires Going(o, s, Both(agents.View(), sm.streams), ls, t, times, idleTimeout)
    modifies agents, agents.agents.Values, sm, sm.Echoes()
    ensures agents.Valid() && fresh(agents.agents.Values - old(agents.agents.Values)) && Enabled(s, ls[0])
    ensures Going(o, Controller.Apply(s, ls[0]), Both(agents.View(), sm.streams), ls[1..], t, times[1..], idleTimeout)
  {
    GoesOn(o, s, Both(agents.View(), sm.streams), ls, t, times, idleTimeout);
    CarryOut(o, s, ls[0], agents, sm, times[0], idleTimeout);
  }

  /**
    Driven through any run of the controller, from empty tables, the objects hold what the step system says at
    its end: the same sessions and the same streams, each under the ID its echo was made with.
   */
  method CarryOutRun(o: Objects, ls: seq<Label>, ghost t: State, times: seq<int>, idleTimeout: int,
                     agents: AgentSessions, sm: Streams.StreamManager, ghost all: set<ServerEcho>)
    requires Run(Controller.Start(), ls, t) && Made(o, t)
    requires agents.Valid() && agents.agents == map[] && sm.streams == map[]
    requires |times| == |ls| && AllSweeps(o, Controller.Start(), EMPTY, ls, times, idleTimeout)
    requires forall e :: o.echoes(e) in all
    modifies agents, sm, all
    ensures agents.Valid() && Agree(o, t, Both(agents.View(), sm.streams))
    ensures Streams.UnderOwnIds(sm.streams)
  {
    var s, rest, clock := Controller.Start(), ls, times;
    assert agents.View() == map[];
    while rest != []
      invariant agents.Valid() && fresh(agents.agents.Values)
      invariant Going(o, s, Both(agents.View(), sm.streams), rest, t, clock, idleTimeout)
      decreases |rest|
    {
      EchoesAmong(o, s, Both(agents.View(), sm.streams), all);
      CarryOutNext(o, s, rest, t, clock, idleTimeout, agents, sm);
      s := Controller.Apply(s, rest[0]);
      rest, clock := rest[1..], clock[1..];
    }
    UnderOwnIds(o, t, Both(agents.View(), sm.streams));
  }

  lemma EchoesAmong(o: Objects, s: State, b: Both, all: set<ServerEcho>)
    requires Agree(o, s, b) && forall e :: o.echoes(e) in all
    ensures forall id :: id in b.streams ==> b.streams[id].echo in all
  {
    forall id | id in b.streams ensures b.streams[id].echo in all {
      assert StandsFor(o, s, s.streams[id], b.streams[id]);
    }
  }

  /**
    One call of FlushAgent leaves the objects where the steps of a flush lead, if every handler the flush has to
    cancel is in runEcho.
   */
  method FlushInOneCall(o: Objects, s: State, w: nat, agents: AgentSessions, sm: Streams.StreamManager)
    returns (ghost ls: seq<Label>, ghost t: State)
    requires Matched(s) && LockHeld(s) && FlushingAt(s, w) && Runs.AllListening(s, w)
    requires agents.Valid() && Agree(o, s, Both(agents.View(), sm.streams))
    modifies sm, sm.Echoes()
    ensures Run(s, ls, t) && w in t.waiters && t.waiters[w].pc.Ending? && t.lock.None?
    ensures agents.Valid() && Agree(o, t, Both(agents.View(), sm.streams))
  {
    ls, t := Runs.FlushFinishes(s, w);
    ghost var b := Both(agents.View(), sm.streams);
    AgreeRun(o, s, b, ls, t);
    FlushAgrees(o, s, b, t, s.waiters[w].key.sessionId);
    sm.FlushAgent(s.waiters[w].key.sessionId);
    assert agents.View() == b.sessions;
  }

  lemma FlushAgrees(o: Objects, s: State, b: Both, t: State, sessionId: string)
    requires Agree(o, s, b) && HandlersGrow(s, t)
    requires t.streams == s.streams - OfSession(s, sessionId) && t.sessions == s.sessions
    ensures Agree(o, t, b.(streams := Streams.WithoutSession(b.streams, sessionId)))
  {
    forall id | id in s.streams ensures b.streams[id].sessionId == s.streams[id].sessionId {
      assert StandsFor(o, s, s.streams[id], b.streams[id]);
    }
    forall id | id in t.streams ensures StandsFor(o, t, t.streams[id], b.streams[id]) {
      assert StandsFor(o, s, s.streams[id], b.streams[id]);
    }
  }
}
