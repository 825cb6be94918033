/**
  The controller's stream table (app/server/stream.go) and the data flow that looks its stream up there
  (app/server/server.go:116-174).
 */
module Streams {
  import opened Wrappers
  import opened Tunnel
  import opened ControllerEcho

  datatype Stream = Stream(agentId: string, sessionId: string, echo: ServerEcho)

  function OfSession(streams: map<StreamId, Stream>, sessionId: string): set<StreamId> {
    set id | id in streams && streams[id].sessionId == sessionId
  }

  /** The table after a flush. */
  function WithoutSession(streams: map<StreamId, Stream>, sessionId: string): map<StreamId, Stream> {
    streams - OfSession(streams, sessionId)
  }

  /** Every stream sits under the ID of its echo. */
  ghost predicate UnderOwnIds(streams: map<StreamId, Stream>) {
    forall id :: id in streams ==> streams[id].echo.streamId == id
  }

  /** Those of `ids` whose stream has echo `echo`. */
  ghost function WithEcho(streams: map<StreamId, Stream>, ids: set<StreamId>, echo: ServerEcho): set<StreamId> {
    set id | id in ids && id in streams && streams[id].echo == echo
  }

  function SetOf(ids: seq<StreamId>): set<StreamId> {
    set id | id in ids
  }

  function Dones(n: nat): seq<Signal> {
    seq(n, _ => SigDone)
  }

  /** An echo after it has been cancelled once for each of its streams in `ids`. */
  ghost function Flushed(streams: map<StreamId, Stream>, ids: set<StreamId>, echo: ServerEcho, was: EchoView)
    : EchoView
  {
    var mine := WithEcho(streams, ids, echo);
    EchoView(was.taken + Dones(|mine|), if mine == {} then was.state else Canceled)
  }

  lemma OneMoreCancelled(streams: map<StreamId, Stream>, done: set<StreamId>, target: StreamId, echo: ServerEcho,
                         was: EchoView)
    requires target in streams && target !in done
    ensures var now := Flushed(streams, done, echo, was);
      Flushed(streams, done + {target}, echo, was)
      == if streams[target].echo == echo then EchoView(now.taken + [SigDone], Canceled) else now
  {
    var mine, more := WithEcho(streams, done, echo), WithEcho(streams, done + {target}, echo);
    assert more == mine + (if streams[target].echo == echo then {target} else {});
    assert target !in mine;
    assert Dones(|mine| + 1) == Dones(|mine|) + [SigDone];
  }

  /** The same, one target after the other. */
  function AfterTargets(streams: map<StreamId, Stream>, targets: seq<StreamId>, echo: ServerEcho, was: EchoView)
    : EchoView
    requires forall id :: id in targets ==> id in streams
    decreases |targets|
  {
    if targets == [] then was
    else
      var n := |targets| - 1;
      var before := AfterTargets(streams, targets[..n], echo, was);
      if streams[targets[n]].echo == echo then EchoView(before.taken + [SigDone], Canceled) else before
  }

  ghost predicate Distinct(targets: seq<StreamId>) {
    forall i, j :: 0 <= i < j < |targets| ==> targets[i] != targets[j]
  }

  lemma {:induction false} AfterTargetsIs(streams: map<StreamId, Stream>, targets: seq<StreamId>, echo: ServerEcho,
                                          was: EchoView)
    requires Distinct(targets) && forall id :: id in targets ==> id in streams
    ensures AfterTargets(streams, targets, echo, was) == Flushed(streams, SetOf(targets), echo, was)
    decreases |targets|
  {
    if targets == [] {
      assert SetOf(targets) == {} && was.taken + Dones(0) == was.taken;
      assert WithEcho(streams, {}, echo) == {};
    } else {
      var n := |targets| - 1;
      AfterTargetsIs(streams, targets[..n], echo, was);
      assert targets == targets[..n] + [targets[n]];
      assert SetOf(targets) == SetOf(targets[..n]) + {targets[n]} && targets[n] !in SetOf(targets[..n]);
      OneMoreCancelled(streams, SetOf(targets[..n]), targets[n], echo, was);
    }
  }

  class StreamManager {
    var streams: map<StreamId, Stream>

    ghost function Echoes(): set<ServerEcho>
      reads this
    {
      set id | id in streams :: streams[id].echo
    }

    constructor ()
      ensures streams == map[]
    {
      streams := map[];
    }

    method Register(agentId: string, sessionId: string, streamId: StreamId, echo: ServerEcho)
      modifies this
      ensures streams == old(streams)[streamId := Stream(agentId, sessionId, echo)]
    {
      streams := streams[streamId := Stream(agentId, sessionId, echo)];
    }

    method Unregister(streamId: StreamId)
      modifies this
      ensures streams == old(streams) - {streamId}
    {
      streams := streams - {streamId};
    }

    method Find(streamId: StreamId) returns (r: Option<Stream>)
      ensures r == if streamId in streams then Some(streams[streamId]) else None
    {
      return if streamId in streams then Some(streams[streamId]) else None;
    }

    /** The first loop of flushUnlocked: the session's streams, in any order. */
    method Targets(sessionId: string) returns (targets: seq<StreamId>)
      ensures Distinct(targets)
      ensures forall id :: id in targets <==> id in OfSession(streams, sessionId)
    {
      targets := [];
      var todo := streams.Keys;
      while todo != {}
        invariant todo <= streams.Keys
        invariant Distinct(targets)
        invariant forall id :: id in targets <==> id in OfSession(streams, sessionId) && id !in todo
        decreases |todo|
      {
        var k :| k in todo;
        todo := todo - {k};
        if streams[k].sessionId == sessionId {
          targets := targets + [k];
        }
      }
    }

    /** A turn of the second loop of flushUnlocked. */
    method FlushOne(target: StreamId)
      requires target in streams
      modifies this, streams[target].echo
      ensures streams == old(streams) - {target}
      ensures var echo := old(streams)[target].echo; echo.View() == EchoView(old(echo.taken) + [SigDone], Canceled)
    {
      var stream := streams[target];
      var _ := stream.echo.Cancel();
      streams := streams - {target};
    }

    /** The second loop of flushUnlocked. */
    method FlushTargets(targets: seq<StreamId>)
      requires Distinct(targets) && forall id :: id in targets ==> id in streams
      modifies this, Echoes()
      ensures streams == old(streams) - SetOf(targets)
      ensures forall echo :: echo in old(Echoes()) ==>
        echo.View() == AfterTargets(old(streams), targets, echo, old(echo.View()))
    {
      ghost var before := streams;
      for i := 0 to |targets|
        invariant streams == before - SetOf(targets[..i])
        invariant forall echo :: echo in old(Echoes()) ==>
          echo.View() == AfterTargets(before, targets[..i], echo, old(echo.View()))
      {
        assert targets[..i + 1][..i] == targets[..i];
        assert SetOf(targets[..i + 1]) == SetOf(targets[..i]) + {targets[i]};
        FlushOne(targets[i]);
      }
      assert targets[..|targets|] == targets;
    }

    /**
      Removes exactly the session's streams, cancels the echo of each of them once, and leaves the
      others and their echoes alone.
     */
    method FlushAgent(sessionId: string)
      modifies this, Echoes()
      ensures streams == WithoutSession(old(streams), sessionId)
      ensures forall id :: id in streams <==> id in old(streams) && old(streams)[id].sessionId != sessionId
      ensures forall id :: id in streams ==> streams[id] == old(streams)[id]
      ensures forall echo :: echo in old(Echoes()) ==>
        echo.View() == Flushed(old(streams), OfSession(old(streams), sessionId), echo, old(echo.View()))
    {
      var targets := Targets(sessionId);
      ghost var before := streams;
      assert SetOf(targets) == OfSession(before, sessionId);
      FlushTargets(targets);
      forall echo | echo in old(Echoes())
        ensures echo.View() == Flushed(before, OfSession(before, sessionId), echo, old(echo.View()))
      {
        AfterTargetsIs(before, targets, echo, old(echo.View()));
      }
    }
  }

  /** In a table whose streams sit under the IDs of their echoes, a flush cancels each echo of the session once. */
  lemma CancelledOnce(streams: map<StreamId, Stream>, sessionId: string, id: StreamId, was: EchoView)
    requires (forall i :: i in streams ==> streams[i].echo.streamId == i) && id in streams
    ensures Flushed(streams, OfSession(streams, sessionId), streams[id].echo, was)
         == if streams[id].sessionId == sessionId then EchoView(was.taken + [SigDone], Canceled) else was
  {
    var mine := WithEcho(streams, OfSession(streams, sessionId), streams[id].echo);
    assert mine == if streams[id].sessionId == sessionId then {id} else {};
    assert was.taken + Dones(0) == was.taken && Dones(1) == [SigDone];
  }

  /** How DataFlowAgentToController stands: waiting for the ID, answered with an error, in its loop, or returned. */
  datatype FlowResult = AwaitingId | BadFirstMessage | NoSuchStream | Receiving | Returned {
    predicate Opened() { Receiving? || Returned? }
  }

  /**
    A data flow, as far as its events go. It drives the echo registered under the ID it opens with, and no other,
    by exactly the signals of the later events; when one of them ends it, that stream is unregistered. A flow
    without a registered ID changes nothing.
   */
  method DataFlow(sm: StreamManager, events: seq<Event>) returns (r: FlowResult)
    modifies sm, sm.Echoes()
    ensures r.AwaitingId? <==> events == []
    ensures r.BadFirstMessage? <==> events != [] && !(events[0].Msg? && events[0].msg.StreamID?)
    ensures r.NoSuchStream? <==>
      events != [] && events[0].Msg? && events[0].msg.StreamID? && events[0].msg.id !in old(sm.streams)
    ensures r.Opened() ==>
      var id := events[0].msg.id;
      var echo := old(sm.streams)[id].echo;
      && (r.Returned? <==>
            (exists i :: 1 <= i < |events|
              && (events[i] == Eof || events[i].Lost? || events[i] == Msg(Cancel) || events[i] == Msg(Done))))
      && echo.taken == old(echo.taken) + SignalsOf(old(echo.state), events[1..])
      && echo.state == PhaseAfter(old(echo.state), events[1..])
      && sm.streams == (if r.Returned? then old(sm.streams) - {id} else old(sm.streams))
    ensures forall echo | echo in old(sm.Echoes()) ::
      (r.Opened() && echo == old(sm.streams)[events[0].msg.id].echo) || echo.View() == old(echo.View())
    ensures !r.Opened() ==> sm.streams == old(sm.streams)
  {
    if events == [] {
      return AwaitingId;
    }
    if !events[0].Msg? || !events[0].msg.StreamID? {
      return BadFirstMessage;
    }
    var id := events[0].msg.id;
    var stream := sm.Find(id);
    if stream.None? {
      return NoSuchStream;
    }
    assert stream.value.echo in sm.Echoes();
    var exits := ReceiveLoop(stream.value.echo, events[1..]);
    assert forall i :: 1 <= i < |events| ==> events[i] == events[1..][i - 1];
    if !exits {
      return Receiving;
    }
    sm.Unregister(id);
    return Returned;
  }
}
