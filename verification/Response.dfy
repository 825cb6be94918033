/**
  The controller side of one stream as a step system: the receive loop of its data flow
  (app/server/server.go:130-174), the ServerEcho between the two goroutines (app/server/echo.go),
  the response writer (app/server/service_server.go:227-271) and a flush of the stream
  (app/server/stream.go:68-90). A channel is unbuffered, so a signal is handed over in one step taken
  by both sides; what the agent and the network do is arbitrary.
 */
module Response {
  import opened Wrappers
  import opened Tunnel
  import opened ControllerEcho

  /** What the HTTP client is sent. */
  datatype HttpEvent = WriteHeader(code: int, headers: seq<HttpHeader>) | Body(data: Bytes)

  /** Where DataFlowAgentToController is; `Leaving` has its deferred Unregister still to run. */
  datatype Receiver = AwaitId | Receiving | Offering(offer: Offer, exits: bool) | Leaving | Returned

  /** How runEcho came to return. */
  datatype Ending = ByDone | ByCancel | ByFail | ByFlush | ByClient | ByWriteError

  /** Where runEcho is; `Writing` has taken a chunk and is inside w.Write. */
  datatype Writer = Selecting | Writing(chunk: Bytes) | Finished(why: Ending)

  /** A flush holds the stream table's lock from start to end; `Marking` is about to set stateCanceled. */
  datatype Flush = Idle | Cancelling | Marking | Flushed

  datatype Side = Side(
    id: StreamId,
    phase: Phase,
    receiver: Receiver,
    received: seq<StreamFlow>,   // every message taken off the wire
    registered: bool,            // is the stream in the table
    flush: Flush,
    writer: Writer,
    headersSent: bool,
    out: seq<HttpEvent>,
    discarded: Bytes)            // bytes taken off the wire that no one will write

  function Start(id: StreamId): Side {
    Side(id, AwaitHeaders, AwaitId, [], true, Idle, Selecting, false, [], [])
  }

  datatype Label =
    | FirstEvent(ev: Event)        // Recv of the stream ID and, if it is one, the table lookup
    | NextEvent(ev: Event)         // Recv in the loop
    | HandOff                      // the receive loop hands its signal to runEcho
    | Unregister
    | Write(n: nat, ok: bool)      // w.Write returns
    | ClientGone
    | FlushStart
    | FlushHandOff                 // the flush hands its Cancel to runEcho
    | FlushMark

  predicate TableLocked(s: Side) {
    s.flush.Cancelling? || s.flush.Marking?
  }

  predicate Enabled(s: Side, l: Label) {
    match l
    case FirstEvent(ev) => s.receiver.AwaitId? && (ev.Msg? && ev.msg.StreamID? ==> !TableLocked(s))
    case NextEvent(ev) => s.receiver.Receiving?
    case HandOff => s.receiver.Offering? && s.writer.Selecting?
    case Unregister => s.receiver.Leaving? && !TableLocked(s)
    case Write(n, ok) => s.writer.Writing? && n <= |s.writer.chunk| && (ok ==> n == |s.writer.chunk|)
    case ClientGone => s.writer.Selecting?
    case FlushStart => s.flush.Idle? && s.registered
    case FlushHandOff => s.flush.Cancelling? && s.writer.Selecting?
    case FlushMark => s.flush.Marking?
  }

  function Arrived(ev: Event): seq<StreamFlow> {
    if ev.Msg? then [ev.msg] else []
  }

  /** A turn of the receive loop: the reaction's signal goes on offer, or a message is dropped. */
  function Receive(s: Side, ev: Event): Side {
    var r := React(s.phase, ev);
    var next := if r.offer.Some? then Offering(r.offer.value, r.exits) else if r.exits then Leaving else Receiving;
    var dropped := if r.offer.None? && ev.Msg? && ev.msg.Data? then ev.msg.data else [];
    s.(phase := r.phase, receiver := next, received := s.received + Arrived(ev),
       discarded := s.discarded + dropped)
  }

  /** A turn of the loop in runEcho: what it does with the signal it selected. */
  function Take(s: Side, sig: Signal, done: Ending): Side {
    match sig
    case SigHeaders(h) => s.(headersSent := true, out := s.out + [WriteHeader(h.statusCode, h.headers)])
    case SigData(d) => s.(writer := Writing(d))
    case SigDone => s.(writer := Finished(done))
    case SigFail(code) =>
      s.(writer := Finished(ByFail), out := s.out + if s.headersSent then [] else [WriteHeader(code, [])])
  }

  function Apply(s: Side, l: Label): Side
    requires Enabled(s, l)
  {
    match l
    case FirstEvent(ev) =>
      // a wrong first message, or an ID not in the table, is answered with an error
      var found := ev == Msg(StreamID(s.id)) && s.registered;
      s.(receiver := if found then Receiving else Returned, received := s.received + Arrived(ev))
    case NextEvent(ev) => Receive(s, ev)
    case HandOff =>
      var after := s.receiver.offer.after;
      var t := Take(s, s.receiver.offer.sig, if after.Some? then ByCancel else ByDone);
      t.(phase := if after.Some? then after.value else s.phase,
         receiver := if s.receiver.exits then Leaving else Receiving)
    case Unregister => s.(receiver := Returned, registered := false)
    case Write(n, ok) =>
      var t := s.(out := s.out + [Body(s.writer.chunk[..n])]);
      if ok then t.(writer := Selecting)
      else t.(writer := Finished(ByWriteError), discarded := s.discarded + s.writer.chunk[n..])
    case ClientGone => s.(writer := Finished(ByClient))
    case FlushStart => s.(flush := Cancelling)
    case FlushHandOff => s.(flush := Marking, writer := Finished(ByFlush))
    case FlushMark => s.(flush := Flushed, phase := Canceled, registered := false)
  }

  ghost predicate Run(s: Side, ls: seq<Label>, t: Side)
    decreases |ls|
  {
    if ls == [] then s == t else Enabled(s, ls[0]) && Run(Apply(s, ls[0]), ls[1..], t)
  }

  // ------------------------------------------------------------------------
  // Whatever arrives, the client gets a well-formed response
  // ------------------------------------------------------------------------

  /** Nothing, or one WriteHeader and then body bytes only. */
  ghost predicate WellFormed(out: seq<HttpEvent>) {
    out != [] ==> out[0].WriteHeader? && forall i :: 1 <= i < |out| ==> out[i].Body?
  }

  ghost predicate Ordered(s: Side) {
    && WellFormed(s.out)
    && (s.headersSent ==> s.out != [])
    && (!s.headersSent && !s.writer.Finished? ==> s.out == [])
    && (s.writer.Writing? ==> s.headersSent)
    && (s.receiver.Offering? ==>
          && (s.receiver.offer.sig.SigHeaders? ==> !s.headersSent && s.phase != AwaitHeaders)
          && (s.receiver.offer.sig.SigData? ==> s.headersSent)
          && s.receiver.offer.after in {None, Some(Canceled)})
    && (s.phase.AwaitHeaders? ==> !s.headersSent)
    && (s.phase.AwaitData? ==> s.headersSent || (s.receiver.Offering? && s.receiver.offer.sig.SigHeaders?))
  }

  lemma OrderedStep(s: Side, l: Label)
    requires Ordered(s) && Enabled(s, l)
    ensures Ordered(Apply(s, l))
  {
  }

  lemma {:induction false} OrderedRun(s: Side, ls: seq<Label>, t: Side)
    requires Ordered(s) && Run(s, ls, t)
    ensures Ordered(t)
    decreases |ls|
  {
    if ls != [] {
      OrderedStep(s, ls[0]);
      OrderedRun(Apply(s, ls[0]), ls[1..], t);
    }
  }

  /** Once runEcho has returned, nothing more is written. */
  lemma {:induction false} SilentAfterEnd(s: Side, ls: seq<Label>, t: Side)
    requires s.writer.Finished? && Run(s, ls, t)
    ensures t.out == s.out && t.writer == s.writer
    decreases |ls|
  {
    if ls != [] {
      SilentAfterEnd(Apply(s, ls[0]), ls[1..], t);
    }
  }

  /** Bytes and headers once written stay written. */
  lemma {:induction false} OutputGrows(s: Side, ls: seq<Label>, t: Side)
    requires Run(s, ls, t)
    ensures s.out <= t.out
    decreases |ls|
  {
    if ls != [] {
      OutputGrows(Apply(s, ls[0]), ls[1..], t);
    }
  }

  /**
    For every sequence of events on the data flow, and however a flush, a client that leaves and failing
    writes fall between them: at most one WriteHeader, body bytes only after it, and silence after the end.
   */
  lemma ResponseWellFormed(id: StreamId, first: seq<Label>, mid: Side, rest: seq<Label>, end: Side)
    requires Run(Start(id), first, mid) && Run(mid, rest, end)
    ensures WellFormed(end.out) && mid.out <= end.out
    ensures mid.writer.Finished? ==> end.out == mid.out
  {
    OrderedRun(Start(id), first, mid);
    OrderedRun(mid, rest, end);
    OutputGrows(mid, rest, end);
    if mid.writer.Finished? {
      SilentAfterEnd(mid, rest, end);
    }
  }
}
