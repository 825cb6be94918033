/** WaitForRequest and closeAgentSession (app/server/server.go:80-108) on the two tables, run by itself. */
module WaitLoop {
  import opened Tunnel
  import opened ControllerEcho
  import opened Sessions
  import opened Streams

  /** What the select yields: the end of the context, or a request, with the fate of sending it on. */
  datatype WaitInput = ContextDone | Handed(streamId: StreamId, echo: ServerEcho, sendOk: bool)

  /** `NoSession`: Hello must be called first. `Canceled`: both other returns. `Serving`: no further input yet. */
  datatype WaitResult = NoSession | Canceled | Serving

  /** The stream table after the requests of a run have been registered. */
  function Registered(streams: map<StreamId, Stream>, key: AgentKey, inputs: seq<WaitInput>): map<StreamId, Stream>
    decreases |inputs|
  {
    if inputs == [] || inputs[0].ContextDone? then streams
    else
      var more := streams[inputs[0].streamId := Stream(key.agentId, key.sessionId, inputs[0].echo)];
      if inputs[0].sendOk then Registered(more, key, inputs[1..]) else more
  }

  /** Does a run end by itself: the context ends or a send fails. */
  predicate Closes(inputs: seq<WaitInput>)
    decreases |inputs|
  {
    inputs != [] && (inputs[0].ContextDone? || !inputs[0].sendOk || Closes(inputs[1..]))
  }

  /** The loop run by itself ends exactly when its context ends or one of its sends fails. */
  lemma {:induction false} ClosesExactlyWhen(inputs: seq<WaitInput>)
    ensures Closes(inputs) <==>
      exists i :: 0 <= i < |inputs| && (inputs[i].ContextDone? || (inputs[i].Handed? && !inputs[i].sendOk))
    decreases |inputs|
  {
    if inputs != [] {
      ClosesExactlyWhen(inputs[1..]);
      assert forall i :: 1 <= i < |inputs| ==> inputs[i] == inputs[1..][i - 1];
    }
  }

  /** The loop gets as far as input `i`, which hands it a request with stream ID `id`. */
  predicate Hands(inputs: seq<WaitInput>, i: nat, id: StreamId) {
    && i < |inputs| && inputs[i].Handed? && inputs[i].streamId == id
    && forall j :: 0 <= j < i ==> inputs[j].Handed? && inputs[j].sendOk
  }

  /** Every request the loop is handed is registered with its own echo, the last of several with one ID. */
  lemma {:induction false} RegisteredLast(streams: map<StreamId, Stream>, key: AgentKey, inputs: seq<WaitInput>,
                                          id: StreamId, i: nat)
    requires Hands(inputs, i, id) && forall k: nat :: i < k < |inputs| ==> !Hands(inputs, k, id)
    ensures id in Registered(streams, key, inputs)
    ensures Registered(streams, key, inputs)[id] == Stream(key.agentId, key.sessionId, inputs[i].echo)
    decreases |inputs|
  {
    var more := streams[inputs[0].streamId := Stream(key.agentId, key.sessionId, inputs[0].echo)];
    HandsRest(inputs, id);
    if i > 0 {
      RegisteredLast(more, key, inputs[1..], id, i - 1);
    } else if inputs[0].sendOk {
      RegisteredElse(more, key, inputs[1..], id);
    }
  }

  /** And nothing else is. */
  lemma {:induction false} RegisteredElse(streams: map<StreamId, Stream>, key: AgentKey, inputs: seq<WaitInput>,
                                          id: StreamId)
    requires forall k: nat :: k < |inputs| ==> !Hands(inputs, k, id)
    ensures id in Registered(streams, key, inputs) <==> id in streams
    ensures id in streams ==> Registered(streams, key, inputs)[id] == streams[id]
    decreases |inputs|
  {
    if inputs != [] && inputs[0].Handed? {
      var more := streams[inputs[0].streamId := Stream(key.agentId, key.sessionId, inputs[0].echo)];
      HandsRest(inputs, id);
      if inputs[0].sendOk {
        RegisteredElse(more, key, inputs[1..], id);
      }
    }
  }

  lemma HandsRest(inputs: seq<WaitInput>, id: StreamId)
    requires inputs != [] && inputs[0].Handed?
    ensures Hands(inputs, 0, id) <==> inputs[0].streamId == id
    ensures forall i: nat :: i >= 1 && Hands(inputs, i, id) ==> inputs[0].sendOk && Hands(inputs[1..], i - 1, id)
    ensures forall i: nat :: inputs[0].sendOk && Hands(inputs[1..], i, id) ==> Hands(inputs, i + 1, id)
  {
    assert forall j :: 0 <= j < |inputs| - 1 ==> inputs[1..][j] == inputs[j + 1];
  }

  ghost function EchoesOf(inputs: seq<WaitInput>): set<ServerEcho> {
    set i | 0 <= i < |inputs| && inputs[i].Handed? :: inputs[i].echo
  }

  method CloseAgentSession(agents: AgentSessions, sm: StreamManager, session: AgentContext)
    requires agents.Valid()
    modifies agents, sm, sm.Echoes()
    ensures agents.Valid() && agents.agents == old(agents.agents) - {session.key}
    ensures sm.streams == WithoutSession(old(sm.streams), session.key.sessionId)
  {
    agents.RemoveSession(session);
    sm.FlushAgent(session.key.sessionId);
  }

  /**
    Registers every request before sending it on. When the call ends by itself its session is out of the table
    and no stream of the session is left, whatever other calls registered; other sessions' streams all stay.
   */
  method WaitForRequest(agents: AgentSessions, sm: StreamManager, key: AgentKey, inputs: seq<WaitInput>)
    returns (r: WaitResult)
    requires agents.Valid()
    modifies agents, sm, sm.Echoes(), EchoesOf(inputs)
    ensures agents.Valid()
    ensures r.NoSession? <==> key !in old(agents.agents)
    ensures r.NoSession? ==> agents.agents == old(agents.agents) && sm.streams == old(sm.streams)
    ensures !r.NoSession? ==>
      (r.Canceled? <==>
        (exists i :: 0 <= i < |inputs| && (inputs[i].ContextDone? || (inputs[i].Handed? && !inputs[i].sendOk))))
    ensures r.Serving? ==> agents.agents == old(agents.agents) && sm.streams == Registered(old(sm.streams), key, inputs)
    ensures r.Canceled? ==>
      && agents.agents == old(agents.agents) - {key}
      && sm.streams == WithoutSession(Registered(old(sm.streams), key, inputs), key.sessionId)
  {
    var found := agents.FindSession(key);
    if found.None? {
      return NoSession;
    }
    var session := found.value;
    var i := 0;
    ClosesExactlyWhen(inputs);
    assert inputs[0..] == inputs;
    while i < |inputs|
      invariant 0 <= i <= |inputs|
      invariant agents.agents == old(agents.agents) && agents.Valid()
      invariant sm.Echoes() <= old(sm.Echoes()) + EchoesOf(inputs)
      invariant Registered(sm.streams, key, inputs[i..]) == Registered(old(sm.streams), key, inputs)
      invariant Closes(inputs[i..]) <==> Closes(inputs)
    {
      assert inputs[i..][1..] == inputs[i + 1..];
      match inputs[i] {
        case ContextDone =>
          CloseAgentSession(agents, sm, session);
          agents.RemoveSession(session);
          return WaitResult.Canceled;
        case Handed(streamId, echo, sendOk) =>
          assert echo in EchoesOf(inputs);
          sm.Register(key.agentId, key.sessionId, streamId, echo);
          if !sendOk {
            CloseAgentSession(agents, sm, session);
            agents.RemoveSession(session);
            return WaitResult.Canceled;
          }
      }
      i := i + 1;
    }
    return Serving;
  }

  /** Registering a session's requests under new IDs and then flushing it leaves the table as it was without it. */
  lemma {:induction false} FlushUndoesRegistering(streams: map<StreamId, Stream>, key: AgentKey, inputs: seq<WaitInput>)
    requires forall i :: 0 <= i < |inputs| && inputs[i].Handed? && inputs[i].streamId in streams ==>
               streams[inputs[i].streamId].sessionId == key.sessionId
    ensures WithoutSession(Registered(streams, key, inputs), key.sessionId) == WithoutSession(streams, key.sessionId)
    decreases |inputs|
  {
    if inputs != [] && inputs[0].Handed? {
      var more := streams[inputs[0].streamId := Stream(key.agentId, key.sessionId, inputs[0].echo)];
      assert WithoutSession(more, key.sessionId) == WithoutSession(streams, key.sessionId);
      assert forall i :: 0 <= i < |inputs[1..]| ==> inputs[1..][i] == inputs[i + 1];
      FlushUndoesRegistering(more, key, inputs[1..]);
    }
  }
}
