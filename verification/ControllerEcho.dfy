/**
  The controller's half of a stream: the ServerEcho state machine (app/server/echo.go) and what the
  receive loop of a data flow makes of each event (app/server/server.go:110-114, 144-173).
 */
module ControllerEcho {
  import opened Wrappers
  import opened Tunnel

  /** `stateHeaders`, `stateData`, `stateDone`, `stateCanceled`. */
  datatype Phase = AwaitHeaders | AwaitData | Failed | Canceled

  /** What ServerEcho hands to runEcho, over one of its four channels. */
  datatype Signal = SigHeaders(h: TunnelHeaders) | SigData(data: Bytes) | SigDone | SigFail(code: int)

  /** A signal on offer, and the state assigned once it has been taken, if any is. */
  datatype Offer = Offer(sig: Signal, after: Option<Phase>)

  /** A ServerEcho call either returns its programmer error at once or sets the state and offers a signal. */
  datatype Reply = Rejected | Offers(during: Phase, offer: Offer)

  function OnHeaders(p: Phase, h: TunnelHeaders): Reply {
    if p.AwaitHeaders? then Offers(AwaitData, Offer(SigHeaders(h), None)) else Rejected
  }

  function OnData(p: Phase, data: Bytes): Reply {
    if p.AwaitData? then Offers(p, Offer(SigData(data), None)) else Rejected
  }

  function OnFail(code: int): Reply {
    Offers(Failed, Offer(SigFail(code), None))
  }

  /** `Done` leaves the state as it is. */
  function OnDone(p: Phase): Reply {
    if p.AwaitData? then Offers(p, Offer(SigDone, None)) else Rejected
  }

  function OnCancel(p: Phase): Reply {
    Offers(p, Offer(SigDone, Some(Canceled)))
  }

  /** What a receive on the data flow can give: a message, the end of the stream or an error. */
  datatype Event = Msg(msg: StreamFlow) | Eof | Lost(canceled: bool)

  /** The state after an event, the signal then on offer, and whether the loop ends. */
  datatype Reaction = Reaction(phase: Phase, offer: Option<Offer>, exits: bool)

  function ReactTo(p: Phase, r: Reply, exits: bool): Reaction {
    match r
    case Rejected => Reaction(p, None, exits)
    case Offers(during, offer) => Reaction(during, Some(offer), exits)
  }

  /** One turn of the receive loop. Programmer errors are ignored, except on EOF, where Fail follows. */
  function React(p: Phase, ev: Event): Reaction {
    match ev
    case Eof => ReactTo(p, if OnDone(p).Rejected? then OnFail(STATUS_TEAPOT) else OnDone(p), true)
    case Lost(canceled) => if canceled then Reaction(p, None, true) else ReactTo(p, OnFail(STATUS_TEAPOT), true)
    case Msg(m) =>
      match m
      case Cancel => ReactTo(p, OnCancel(p), true)
      case Done => ReactTo(p, OnDone(p), true)
      case Headers(h) => ReactTo(p, OnHeaders(p, h), false)
      case Data(d) => ReactTo(p, OnData(p, d), false)
      case StreamID(_) => Reaction(p, None, false)
  }

  /** The signals of a whole data flow, when each is taken before the next event is received. */
  function SignalsOf(p: Phase, events: seq<Event>): seq<Signal>
    decreases |events|
  {
    if events == [] then []
    else
      var r := React(p, events[0]);
      var own := if r.offer.Some? then [r.offer.value.sig] else [];
      own + if r.exits then [] else SignalsOf(Settled(r), events[1..])
  }

  /** The state a whole data flow leaves. */
  function PhaseAfter(p: Phase, events: seq<Event>): Phase
    decreases |events|
  {
    if events == [] then p
    else
      var r := React(p, events[0]);
      if r.exits then Settled(r) else PhaseAfter(Settled(r), events[1..])
  }

  /** Does one of the events end the receive loop. */
  predicate Exits(p: Phase, events: seq<Event>)
    decreases |events|
  {
    events != [] && (React(p, events[0]).exits || Exits(Settled(React(p, events[0])), events[1..]))
  }

  /** Whatever the echo's state, the loop ends on end of stream, an error, a Cancel or a Done, and on nothing else. */
  lemma {:induction false} ExitsExactlyWhen(p: Phase, events: seq<Event>)
    ensures Exits(p, events) <==>
      exists i :: 0 <= i < |events|
        && (events[i] == Eof || events[i].Lost? || events[i] == Msg(Cancel) || events[i] == Msg(Done))
    decreases |events|
  {
    if events != [] {
      ExitsExactlyWhen(Settled(React(p, events[0])), events[1..]);
      assert forall i :: 1 <= i < |events| ==> events[i] == events[1..][i - 1];
    }
  }

  /** The state once the offer of a reaction, if any, has been taken. */
  function Settled(r: Reaction): Phase {
    if r.offer.Some? && r.offer.value.after.Some? then r.offer.value.after.value else r.phase
  }

  // ------------------------------------------------------------------------

  /** What an echo has handed over, and its state. */
  datatype EchoView = EchoView(taken: seq<Signal>, state: Phase)

  class ServerEcho {
    const streamId: StreamId
    var state: Phase
    /** The signals runEcho has taken, in order. */
    var taken: seq<Signal>

    function View(): EchoView reads this { EchoView(taken, state) }

    constructor (id: StreamId)
      ensures streamId == id && state == AwaitHeaders && taken == []
    {
      streamId := id;
      state, taken := AwaitHeaders, [];
    }

    /** The call that answered `r` in state `p` has run its course. */
    ghost predicate Answered(p: Phase, before: seq<Signal>, r: Reply, ok: bool) reads this {
      match r
      case Rejected => !ok && state == p && taken == before
      case Offers(during, offer) =>
        && ok
        && state == (if offer.after.Some? then offer.after.value else during)
        && taken == before + [offer.sig]
    }

    method Headers(h: TunnelHeaders) returns (ok: bool)
      modifies this
      ensures Answered(old(state), old(taken), OnHeaders(old(state), h), ok)
      ensures ok <==> old(state) == AwaitHeaders
      ensures ok ==> state == AwaitData && taken == old(taken) + [SigHeaders(h)]
      ensures !ok ==> View() == old(View())
    {
      if state != AwaitHeaders {
        return false;
      }
      state := AwaitData;
      taken := taken + [SigHeaders(h)];
      return true;
    }

    method Data(data: Bytes) returns (ok: bool)
      modifies this
      ensures Answered(old(state), old(taken), OnData(old(state), data), ok)
      ensures ok <==> old(state) == AwaitData
      ensures state == old(state) && taken == if ok then old(taken) + [SigData(data)] else old(taken)
    {
      if state != AwaitData {
        return false;
      }
      taken := taken + [SigData(data)];
      return true;
    }

    method Fail(code: int) returns (ok: bool)
      modifies this
      ensures Answered(old(state), old(taken), OnFail(code), ok)
      ensures ok && state == Failed && taken == old(taken) + [SigFail(code)]
    {
      state := Failed;
      taken := taken + [SigFail(code)];
      return true;
    }

    method Done() returns (ok: bool)
      modifies this
      ensures Answered(old(state), old(taken), OnDone(old(state)), ok)
      ensures ok <==> old(state) == AwaitData
      ensures state == old(state) && taken == if ok then old(taken) + [SigDone] else old(taken)
    {
      if state != AwaitData {
        return false;
      }
      taken := taken + [SigDone];
      return true;
    }

    method Cancel() returns (ok: bool)
      modifies this
      ensures Answered(old(state), old(taken), OnCancel(old(state)), ok)
      ensures ok && state == Canceled && taken == old(taken) + [SigDone]
    {
      taken := taken + [SigDone];
      state := Canceled;
      return true;
    }
  }

  /** What a turn of the receive loop makes of an event. */
  method ReceiveOne(echo: ServerEcho, ev: Event) returns (exits: bool)
    modifies echo
    ensures var r := React(old(echo.state), ev);
      && exits == r.exits && echo.state == Settled(r)
      && echo.taken == old(echo.taken) + if r.offer.Some? then [r.offer.value.sig] else []
  {
    match ev {
      case Eof =>
        var ok := echo.Done();
        if !ok {
          ok := echo.Fail(STATUS_TEAPOT);
        }
        return true;
      case Lost(canceled) =>
        if !canceled {
          var _ := echo.Fail(STATUS_TEAPOT);
        }
        return true;
      case Msg(m) =>
        match m {
          case Cancel =>
            var _ := echo.Cancel();
            return true;
          case Done =>
            var _ := echo.Done();
            return true;
          case Headers(h) =>
            var _ := echo.Headers(h);
          case Data(d) =>
            var _ := echo.Data(d);
          case StreamID(_) =>
        }
        return false;
    }
  }

  /** The receive loop of DataFlowAgentToController; unless an event ends it, it is left waiting for the next. */
  method ReceiveLoop(echo: ServerEcho, events: seq<Event>) returns (exits: bool)
    modifies echo
    ensures echo.taken == old(echo.taken) + SignalsOf(old(echo.state), events)
    ensures echo.state == PhaseAfter(old(echo.state), events)
    ensures exits <==>
      exists i :: 0 <= i < |events|
        && (events[i] == Eof || events[i].Lost? || events[i] == Msg(Cancel) || events[i] == Msg(Done))
  {
    ExitsExactlyWhen(echo.state, events);
    var i := 0;
    ghost var all := old(echo.taken) + SignalsOf(echo.state, events);
    while i < |events|
      invariant 0 <= i <= |events|
      invariant echo.taken + SignalsOf(echo.state, events[i..]) == all
      invariant Exits(echo.state, events[i..]) == Exits(old(echo.state), events)
      invariant PhaseAfter(echo.state, events[i..]) == PhaseAfter(old(echo.state), events)
    {
      FirstSignal(echo.taken, echo.state, events[i..]);
      assert events[i..][1..] == events[i + 1..];
      exits := ReceiveOne(echo, events[i]);
      if exits {
        return;
      }
      i := i + 1;
    }
    exits := false;
  }

  lemma FirstSignal(taken: seq<Signal>, p: Phase, events: seq<Event>)
    requires events != []
    ensures var r := React(p, events[0]);
      taken + SignalsOf(p, events)
      == (taken + if r.offer.Some? then [r.offer.value.sig] else [])
         + if r.exits then [] else SignalsOf(Settled(r), events[1..])
  {
    var r := React(p, events[0]);
    var own := if r.offer.Some? then [r.offer.value.sig] else [];
    var later := if r.exits then [] else SignalsOf(Settled(r), events[1..]);
    assert SignalsOf(p, events) == own + later;
    Associate(taken, own, later);
  }
}
