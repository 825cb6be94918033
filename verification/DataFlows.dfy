/**
  What a data flow makes of its events, message by message (app/server/server.go:144-173): when the receive loop
  ends, what runEcho is handed, which messages are passed over; and that module Response does the same.
 */
module DataFlows {
  import opened Wrappers
  import opened Tunnel
  import opened ControllerEcho
  import Rsp = Response

  // ------------------------------------------------------------------------
  // When the loop ends
  // ------------------------------------------------------------------------

  /** No event here ends the loop. */
  predicate GoesOn(events: seq<Event>) {
    forall i :: 0 <= i < |events| ==>
      events[i].Msg? && (events[i].msg.Headers? || events[i].msg.Data? || events[i].msg.StreamID?)
  }

  predicate HasHeaders(events: seq<Event>) {
    exists i :: 0 <= i < |events| && events[i].Msg? && events[i].msg.Headers?
  }

  /** The echo waits for data as soon as one Headers has come. */
  lemma {:induction false} PhaseIs(events: seq<Event>)
    requires GoesOn(events)
    ensures PhaseAfter(AwaitHeaders, events) == if HasHeaders(events) then AwaitData else AwaitHeaders
    ensures PhaseAfter(AwaitData, events) == AwaitData
    decreases |events|
  {
    if events != [] {
      var rest := events[1..];
      assert forall i :: 1 <= i < |events| ==> events[i] == rest[i - 1];
      PhaseIs(rest);
      assert HasHeaders(events) <==> events[0].msg.Headers? || HasHeaders(rest);
    }
  }

  lemma {:induction false} SignalsConcat(p: Phase, a: seq<Event>, b: seq<Event>)
    requires GoesOn(a)
    ensures SignalsOf(p, a + b) == SignalsOf(p, a) + SignalsOf(PhaseAfter(p, a), b)
    ensures PhaseAfter(p, a + b) == PhaseAfter(PhaseAfter(p, a), b)
    decreases |a|
  {
    if a == [] {
      assert a + b == b;
    } else {
      var r := React(p, a[0]);
      var rest := a[1..];
      assert (a + b)[1..] == rest + b;
      assert forall i :: 1 <= i < |a| ==> a[i] == rest[i - 1];
      SignalsConcat(Settled(r), rest, b);
      var own := if r.offer.Some? then [r.offer.value.sig] else [];
      Associate(own, SignalsOf(Settled(r), rest), SignalsOf(PhaseAfter(p, a), b));
    }
  }

  // ------------------------------------------------------------------------
  // What runEcho is handed
  // ------------------------------------------------------------------------

  function Chunks(ds: seq<Bytes>): seq<Event> {
    seq(|ds|, i requires 0 <= i < |ds| => Msg(Data(ds[i])))
  }

  function ChunkSignals(ds: seq<Bytes>): seq<Signal> {
    seq(|ds|, i requires 0 <= i < |ds| => SigData(ds[i]))
  }

  lemma {:induction false} DataSignals(ds: seq<Bytes>)
    ensures SignalsOf(AwaitData, Chunks(ds)) == ChunkSignals(ds)
    ensures PhaseAfter(AwaitData, Chunks(ds)) == AwaitData && GoesOn(Chunks(ds))
    decreases |ds|
  {
    if ds != [] {
      DataSignals(ds[1..]);
      assert Chunks(ds)[1..] == Chunks(ds[1..]);
    }
  }

  /** The last event of a data flow, after the headers: Done and EOF end the response, an error fails it with 418. */
  lemma EndSignals(end: Event)
    requires end == Eof || end.Lost? || end == Msg(Cancel) || end == Msg(Done)
    ensures SignalsOf(AwaitData, [end])
         == if end == Lost(true) then [] else if end == Lost(false) then [SigFail(418)] else [SigDone]
    ensures PhaseAfter(AwaitData, [end])
         == if end == Lost(false) then Failed else if end == Msg(Cancel) then Canceled else AwaitData
  {
  }

  /** Before the headers a Done is passed over and EOF fails the response, as an error does. */
  lemma EarlyEndSignals(end: Event, rest: seq<Event>)
    requires end == Eof || end.Lost? || end == Msg(Cancel) || end == Msg(Done)
    ensures SignalsOf(AwaitHeaders, [end] + rest)
         == if end == Eof || end == Lost(false) then [SigFail(418)] else if end == Msg(Cancel) then [SigDone] else []
  {
  }

  /** Headers, chunks and an end are handed over one by one, in order; what comes after the end is not received. */
  lemma WholeFlow(h: TunnelHeaders, ds: seq<Bytes>, end: Event, rest: seq<Event>)
    requires end == Eof || end.Lost? || end == Msg(Cancel) || end == Msg(Done)
    ensures SignalsOf(AwaitHeaders, [Msg(Headers(h))] + Chunks(ds) + [end] + rest)
         == [SigHeaders(h)] + ChunkSignals(ds)
            + if end == Lost(true) then [] else if end == Lost(false) then [SigFail(418)] else [SigDone]
  {
    DataSignals(ds);
    EndSignals(end);
    AfterHeaders(h, Chunks(ds), end, rest);
  }

  lemma AfterHeaders(h: TunnelHeaders, chunks: seq<Event>, end: Event, rest: seq<Event>)
    requires GoesOn(chunks) && PhaseAfter(AwaitData, chunks) == AwaitData
    requires end == Eof || end.Lost? || end == Msg(Cancel) || end == Msg(Done)
    ensures SignalsOf(AwaitHeaders, [Msg(Headers(h))] + chunks + [end] + rest)
         == [SigHeaders(h)] + SignalsOf(AwaitData, chunks) + SignalsOf(AwaitData, [end])
  {
    NothingAfterEnd(AwaitData, end, rest);
    SignalsConcat(AwaitData, chunks, [end] + rest);
    FirstIsHeaders(h);
    SignalsConcat(AwaitHeaders, [Msg(Headers(h))], chunks + ([end] + rest));
    Associate([Msg(Headers(h))], chunks, [end]);
    Associate([Msg(Headers(h))], chunks + [end], rest);
    Associate(chunks, [end], rest);
    Associate([SigHeaders(h)], SignalsOf(AwaitData, chunks), SignalsOf(AwaitData, [end]));
  }

  lemma FirstIsHeaders(h: TunnelHeaders)
    ensures SignalsOf(AwaitHeaders, [Msg(Headers(h))]) == [SigHeaders(h)]
    ensures PhaseAfter(AwaitHeaders, [Msg(Headers(h))]) == AwaitData
  {
  }

  lemma NothingAfterEnd(p: Phase, end: Event, rest: seq<Event>)
    requires end == Eof || end.Lost? || end == Msg(Cancel) || end == Msg(Done)
    ensures SignalsOf(p, [end] + rest) == SignalsOf(p, [end])
    ensures PhaseAfter(p, [end] + rest) == PhaseAfter(p, [end])
  {
  }

  /**
    A stream ID within the flow, a chunk before the headers and headers after the first are passed over: without
    them runEcho is handed the same. With `WholeFlow` and `EarlyEndSignals` this says what every flow hands it.
   */
  lemma PassedOver(before: seq<Event>, m: StreamFlow, after: seq<Event>)
    requires GoesOn(before)
    requires m.StreamID? || (m.Data? && !HasHeaders(before)) || (m.Headers? && HasHeaders(before))
    ensures SignalsOf(AwaitHeaders, before + [Msg(m)] + after) == SignalsOf(AwaitHeaders, before + after)
    ensures PhaseAfter(AwaitHeaders, before + [Msg(m)] + after) == PhaseAfter(AwaitHeaders, before + after)
  {
    PhaseIs(before);
    var p := PhaseAfter(AwaitHeaders, before);
    assert before + [Msg(m)] + after == before + ([Msg(m)] + after);
    SignalsConcat(AwaitHeaders, before, [Msg(m)] + after);
    SignalsConcat(AwaitHeaders, before, after);
    SignalsConcat(p, [Msg(m)], after);
    NothingOf(p, m);
    assert [] + SignalsOf(p, after) == SignalsOf(p, after);
  }

  lemma NothingOf(p: Phase, m: StreamFlow)
    requires m.StreamID? || (m.Data? && p == AwaitHeaders) || (m.Headers? && p == AwaitData)
    ensures SignalsOf(p, [Msg(m)]) == [] && PhaseAfter(p, [Msg(m)]) == p
  {
  }

  // ------------------------------------------------------------------------
  // Module Response does the same
  // ------------------------------------------------------------------------

  /** The receive loop and runEcho between two turns. */
  predicate BetweenTurns(s: Rsp.Side) {
    s.receiver.Receiving? && s.writer.Selecting?
  }

  /** A turn of both: a receive, the handover of its signal, and the write of a chunk. */
  function TurnLabels(s: Rsp.Side, ev: Event): seq<Rsp.Label> {
    var r := React(s.phase, ev);
    [Rsp.NextEvent(ev)]
    + if r.offer.None? then []
      else [Rsp.HandOff] + match r.offer.value.sig
        case SigData(d) => [Rsp.Write(|d|, true)]
        case _ => []
  }

  function AfterTurn(s: Rsp.Side, ev: Event): Rsp.Side
    requires BetweenTurns(s)
  {
    var received := Rsp.Apply(s, Rsp.NextEvent(ev));
    if React(s.phase, ev).offer.None? then received
    else
      var handed := Rsp.Apply(received, Rsp.HandOff);
      match React(s.phase, ev).offer.value.sig
      case SigData(d) => Rsp.Apply(handed, Rsp.Write(|d|, true))
      case _ => handed
  }

  lemma TurnRun(s: Rsp.Side, ev: Event)
    requires BetweenTurns(s)
    ensures var t := AfterTurn(s, ev);
      && Rsp.Run(s, TurnLabels(s, ev), t) && t.phase == Settled(React(s.phase, ev))
      && (if React(s.phase, ev).exits then t.receiver.Leaving? else BetweenTurns(t))
  {
    var r := React(s.phase, ev);
    var t1 := Rsp.Apply(s, Rsp.NextEvent(ev));
    if r.offer.None? {
      OneLabel(s, Rsp.NextEvent(ev));
    } else {
      var t2 := Rsp.Apply(t1, Rsp.HandOff);
      if r.offer.value.sig.SigData? {
        var write := Rsp.Write(|r.offer.value.sig.data|, true);
        OneLabel(t2, write);
        FirstLabel(t1, Rsp.HandOff, [write], Rsp.Apply(t2, write));
        FirstLabel(s, Rsp.NextEvent(ev), [Rsp.HandOff] + [write], Rsp.Apply(t2, write));
      } else {
        OneLabel(t1, Rsp.HandOff);
        FirstLabel(s, Rsp.NextEvent(ev), [Rsp.HandOff], t2);
        assert [Rsp.HandOff] + [] == [Rsp.HandOff];
      }
    }
  }

  lemma OneLabel(s: Rsp.Side, l: Rsp.Label)
    requires Rsp.Enabled(s, l)
    ensures Rsp.Run(s, [l], Rsp.Apply(s, l)) && [l] + [] == [l]
  {
  }

  lemma FirstLabel(s: Rsp.Side, l: Rsp.Label, rest: seq<Rsp.Label>, t: Rsp.Side)
    requires Rsp.Enabled(s, l) && Rsp.Run(Rsp.Apply(s, l), rest, t)
    ensures Rsp.Run(s, [l] + rest, t)
  {
    assert ([l] + rest)[1..] == rest;
  }

  lemma {:induction false} RunConcat(s: Rsp.Side, a: seq<Rsp.Label>, t: Rsp.Side, b: seq<Rsp.Label>, u: Rsp.Side)
    requires Rsp.Run(s, a, t) && Rsp.Run(t, b, u)
    ensures Rsp.Run(s, a + b, u)
    decreases |a|
  {
    if a == [] {
      assert a + b == b;
    } else {
      RunConcat(Rsp.Apply(s, a[0]), a[1..], t, b, u);
      assert (a + b)[1..] == a[1..] + b;
    }
  }

  /** The signals runEcho takes from the receive loop in a run. */
  function HandedIn(s: Rsp.Side, ls: seq<Rsp.Label>): seq<Signal>
    decreases |ls|
  {
    if ls == [] || !Rsp.Enabled(s, ls[0]) then []
    else (if ls[0].HandOff? then [s.receiver.offer.sig] else []) + HandedIn(Rsp.Apply(s, ls[0]), ls[1..])
  }

  lemma {:induction false} HandedConcat(s: Rsp.Side, a: seq<Rsp.Label>, t: Rsp.Side, b: seq<Rsp.Label>)
    requires Rsp.Run(s, a, t)
    ensures HandedIn(s, a + b) == HandedIn(s, a) + HandedIn(t, b)
    decreases |a|
  {
    if a == [] {
      assert a + b == b;
    } else {
      HandedConcat(Rsp.Apply(s, a[0]), a[1..], t, b);
      assert (a + b)[1..] == a[1..] + b;
      Associate(if a[0].HandOff? then [s.receiver.offer.sig] else [],
                HandedIn(Rsp.Apply(s, a[0]), a[1..]), HandedIn(t, b));
    }
  }

  lemma HandedInTurn(s: Rsp.Side, ev: Event)
    requires BetweenTurns(s)
    ensures HandedIn(s, TurnLabels(s, ev))
         == if React(s.phase, ev).offer.Some? then [React(s.phase, ev).offer.value.sig] else []
  {
    var r := React(s.phase, ev);
    var t1 := Rsp.Apply(s, Rsp.NextEvent(ev));
    var more := TurnLabels(s, ev)[1..];
    assert HandedIn(s, TurnLabels(s, ev)) == [] + HandedIn(t1, more);
    if r.offer.Some? {
      var t2 := Rsp.Apply(t1, Rsp.HandOff);
      assert more[0] == Rsp.HandOff;
      assert HandedIn(t1, more) == [r.offer.value.sig] + HandedIn(t2, more[1..]);
      NoMoreHanded(t2, more[1..]);
    }
  }

  lemma NoMoreHanded(s: Rsp.Side, ls: seq<Rsp.Label>)
    requires |ls| <= 1 && (ls != [] ==> ls[0].Write?)
    ensures HandedIn(s, ls) == []
  {
    if ls != [] && Rsp.Enabled(s, ls[0]) {
      assert HandedIn(Rsp.Apply(s, ls[0]), ls[1..]) == [];
    }
  }

  /** The run in which receive loop and runEcho take turns on some events, up to the one that ends the flow. */
  function Turns(s: Rsp.Side, events: seq<Event>): seq<Rsp.Label>
    requires BetweenTurns(s)
    decreases |events|
  {
    if events == [] then []
    else
      TurnRun(s, events[0]);
      TurnLabels(s, events[0])
      + if React(s.phase, events[0]).exits then [] else Turns(AfterTurn(s, events[0]), events[1..])
  }

  /** It hands over the signals of the flow, reaches its state, and ends the receive loop exactly if the flow ends. */
  lemma {:induction false} TurnsAgree(s: Rsp.Side, events: seq<Event>) returns (t: Rsp.Side)
    requires BetweenTurns(s)
    ensures Rsp.Run(s, Turns(s, events), t)
    ensures HandedIn(s, Turns(s, events)) == SignalsOf(s.phase, events) && t.phase == PhaseAfter(s.phase, events)
    ensures t.receiver.Leaving? <==> Exits(s.phase, events)
    decreases |events|
  {
    if events == [] {
      t := s;
    } else {
      var turn, mid := TurnLabels(s, events[0]), AfterTurn(s, events[0]);
      TurnRun(s, events[0]);
      HandedInTurn(s, events[0]);
      if React(s.phase, events[0]).exits {
        t := mid;
        assert turn + [] == turn && HandedIn(s, turn) + [] == HandedIn(s, turn);
      } else {
        t := TurnsAgree(mid, events[1..]);
        RunConcat(s, turn, mid, Turns(mid, events[1..]), t);
        HandedConcat(s, turn, mid, Turns(mid, events[1..]));
      }
    }
  }
}
