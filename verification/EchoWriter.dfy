/**
  runEcho (app/server/service_server.go:227-271) against a response writer with a header map, tied to the
  writer of module Response, and the response headers from end to end.
 */
module EchoWriter {
  import opened Wrappers
  import opened Tunnel
  import opened HeaderMap
  import opened ControllerEcho
  import Rsp = Response
  import AgentChannel
  import Pipeline
  import Delivery
  import Progress
  import Translation

  /** What leaves the server: the status line with the header map as it is then, or body bytes. */
  datatype Sent = Status(code: int, header: Header) | Chunk(data: Bytes)

  /** What the select of the loop yields; `n` and `ok` are what w.Write would do with a chunk. */
  datatype Selected = ClientDone | Got(sig: Signal, n: nat, ok: bool)

  /** runEcho between two turns of its loop. */
  datatype Echo = Echo(header: Header, sent: seq<Sent>, headersSent: bool, returned: bool)

  /** The names that deleting every name of a map leaves: Del looks under the canonical name only. */
  function Leftover(m: Header): Header {
    map k | k in m && Canonical(k) != k :: m[k]
  }

  /** What of a chunk w.Write accepts, and whether the loop goes on. */
  function Accepted(data: Bytes, n: nat, ok: bool): (Bytes, bool) {
    if ok && n >= |data| then (data, true) else (data[..if n < |data| then n else |data|], false)
  }

  function Turn(e: Echo, x: Selected): Echo {
    match x
    case ClientDone => e.(returned := true)
    case Got(SigDone, _, _) => e.(returned := true)
    case Got(SigFail(code), _, _) =>
      e.(returned := true, sent := e.sent + if e.headersSent then [] else [Status(code, e.header)])
    case Got(SigData(data), n, ok) =>
      var (part, on) := Accepted(data, n, ok);
      e.(returned := !on, sent := e.sent + [Chunk(part)])
    case Got(SigHeaders(h), _, _) =>
      var header := Filled(Leftover(e.header), h.headers);
      e.(headersSent := true, header := header, sent := e.sent + [Status(h.statusCode, header)])
  }

  function Turns(e: Echo, xs: seq<Selected>): Echo
    decreases |xs|
  {
    if xs == [] || e.returned then e else Turns(Turn(e, xs[0]), xs[1..])
  }

  class ResponseWriter {
    const header: HttpHeaders
    var sent: seq<Sent>

    constructor (h: HttpHeaders)
      ensures header == h && sent == []
    {
      header := h;
      sent := [];
    }

    method WriteHeader(code: int)
      modifies this
      ensures sent == old(sent) + [Status(code, header.m)]
    {
      sent := sent + [Status(code, header.m)];
    }

    /** `n` and `ok` stand for what the connection does; the result is what Go's Write returns. */
    method Write(data: Bytes, n: nat, ok: bool) returns (written: nat, err: bool)
      modifies this
      ensures written == |Accepted(data, n, ok).0| && err == !ok
      ensures sent == old(sent) + [Chunk(Accepted(data, n, ok).0)]
    {
      written := if n < |data| then n else |data|;
      err := !ok;
      sent := sent + [Chunk(data[..written])];
      assert data[..|data|] == data;
    }
  }

  /** Ranges over the map in any order, deleting as it goes. */
  method ClearHeader(h: HttpHeaders)
    modifies h
    ensures h.m == Leftover(old(h.m))
    ensures forall k :: k in h.m <==> k in old(h.m) && Canonical(k) != k
    ensures forall k :: k in h.m ==> h.m[k] == old(h.m)[k]
  {
    var todo := h.m.Keys;
    while todo != {}
      invariant todo <= old(h.m).Keys
      invariant forall k :: k in h.m ==> k in old(h.m) && h.m[k] == old(h.m)[k]
      invariant forall k :: k in old(h.m) && Canonical(k) != k ==> k in h.m
      invariant forall k :: k in h.m && Canonical(k) == k ==> k in todo
      decreases |todo|
    {
      var name :| name in todo;
      todo := todo - {name};
      if name in h.m {
        CanonicalIsCanonical(name);
        h.Del(name);
      }
    }
  }

  method RunEcho(w: ResponseWriter, xs: seq<Selected>)
    modifies w, w.header
    ensures var e := Turns(Echo(old(w.header.m), old(w.sent), false, false), xs);
      w.sent == e.sent && w.header.m == e.header
  {
    var headersSent := false;
    var i := 0;
    ghost var all := Turns(Echo(w.header.m, w.sent, false, false), xs);
    assert xs[0..] == xs;
    while i < |xs|
      invariant 0 <= i <= |xs|
      invariant Turns(Echo(w.header.m, w.sent, headersSent, false), xs[i..]) == all
    {
      assert xs[i..][1..] == xs[i + 1..];
      match xs[i] {
        case ClientDone => return;
        case Got(sig, n, ok) =>
          match sig {
            case SigDone => return;
            case SigFail(code) =>
              if !headersSent {
                w.WriteHeader(code);
              }
              return;
            case SigData(data) =>
              var written, err := w.Write(data, n, ok);
              if err {
                return;
              }
              if written != |data| {
                return;
              }
            case SigHeaders(h) =>
              headersSent := true;
              ClearHeader(w.header);
              var j := 0;
              ghost var cleared, before := w.header.m, w.sent;
              assert h.headers[0..] == h.headers;
              while j < |h.headers|
                invariant 0 <= j <= |h.headers|
                invariant w.sent == before
                invariant Filled(w.header.m, h.headers[j..]) == Filled(cleared, h.headers)
              {
                assert h.headers[j..][1..] == h.headers[j + 1..];
                w.header.AddValues(h.headers[j].name, h.headers[j].values);
                j := j + 1;
              }
              w.WriteHeader(h.statusCode);
          }
      }
      i := i + 1;
    }
  }

  // ------------------------------------------------------------------------
  // The loop does what the writer of module Response does
  // ------------------------------------------------------------------------

  ghost predicate Matches(a: Rsp.HttpEvent, b: Sent) {
    match a
    case WriteHeader(code, _) => b.Status? && b.code == code
    case Body(data) => b == Chunk(data)
  }

  /** A write that fails or falls short ends the loop; what was accepted of the chunk has been sent. */
  lemma WriteEnds(e: Echo, data: Bytes, n: nat, ok: bool)
    ensures var t := Turn(e, Got(SigData(data), n, ok));
      && (t.returned <==> !ok || n < |data|)
      && t.sent == e.sent + [Chunk(if n < |data| then data[..n] else data)]
      && t.header == e.header && t.headersSent == e.headersSent
  {
    assert data[..|data|] == data;
  }

  /** A failure before the headers sends its code with the header map as it is; after them it sends nothing. */
  lemma FailureSends(e: Echo, code: int, n: nat, ok: bool)
    ensures var t := Turn(e, Got(SigFail(code), n, ok));
      && t.returned && t.header == e.header
      && t.sent == e.sent + if e.headersSent then [] else [Status(code, e.header)]
  {
  }

  /** A writer that started with header map `w0` has sent what side `s` says, the headers as a map. */
  ghost predicate Related(w0: Header, s: Rsp.Side, e: Echo) {
    && s.headersSent == e.headersSent && (s.writer.Finished? <==> e.returned)
    && |s.out| == |e.sent|
    && (forall i :: 0 <= i < |s.out| ==> Matches(s.out[i], e.sent[i]))
    && (!s.headersSent ==> e.header == w0)
    && (s.headersSent ==>
          && s.out != [] && s.out[0].WriteHeader?
          && e.sent[0] == Status(s.out[0].code, Filled(Leftover(w0), s.out[0].headers)))
  }

  /** While a chunk is being written the turn of the loop is not over. */
  ghost predicate Simulates(w0: Header, s: Rsp.Side, e: Echo) {
    Related(w0, if s.writer.Writing? then s.(writer := Rsp.Selecting) else s, e)
  }

  /** What runEcho selects when side `s` takes step `l`. */
  function SelectedBy(s: Rsp.Side, l: Rsp.Label): Option<Selected>
    requires Rsp.Enabled(s, l)
  {
    match l
    case HandOff => if s.receiver.offer.sig.SigData? then None else Some(Got(s.receiver.offer.sig, 0, true))
    case Write(n, ok) => Some(Got(SigData(s.writer.chunk), n, ok))
    case FlushHandOff => Some(Got(SigDone, 0, true))
    case ClientGone => Some(ClientDone)
    case _ => None
  }

  lemma TurnSimulatesStep(w0: Header, s: Rsp.Side, e: Echo, l: Rsp.Label)
    requires Rsp.Ordered(s) && Simulates(w0, s, e) && Rsp.Enabled(s, l)
    ensures var x := SelectedBy(s, l);
      && Simulates(w0, Rsp.Apply(s, l), if x.Some? then Turn(e, x.value) else e)
      && (x.Some? ==> !e.returned)
  {
    match l {
      case HandOff => HandOffTurn(w0, s, e);
      case Write(n, ok) => WriteTurn(w0, s, e, n, ok);
      case _ =>
    }
  }

  lemma HandOffTurn(w0: Header, s: Rsp.Side, e: Echo)
    requires Rsp.Ordered(s) && Simulates(w0, s, e) && Rsp.Enabled(s, Rsp.HandOff)
    ensures var x := SelectedBy(s, Rsp.HandOff);
      && Simulates(w0, Rsp.Apply(s, Rsp.HandOff), if x.Some? then Turn(e, x.value) else e)
      && !e.returned
  {
    var sig := s.receiver.offer.sig;
    if sig.SigHeaders? {
      assert s.out == [];
    }
  }

  lemma WriteTurn(w0: Header, s: Rsp.Side, e: Echo, n: nat, ok: bool)
    requires Rsp.Ordered(s) && Simulates(w0, s, e) && Rsp.Enabled(s, Rsp.Write(n, ok))
    ensures Simulates(w0, Rsp.Apply(s, Rsp.Write(n, ok)), Turn(e, Got(SigData(s.writer.chunk), n, ok)))
    ensures !e.returned
  {
    assert Accepted(s.writer.chunk, n, ok).0 == s.writer.chunk[..n];
  }

  /** What runEcho selects in a run of side `s`, in order. */
  function Selections(s: Rsp.Side, ls: seq<Rsp.Label>): seq<Selected>
    decreases |ls|
  {
    if ls == [] || !Rsp.Enabled(s, ls[0]) then []
    else
      var x := SelectedBy(s, ls[0]);
      (if x.Some? then [x.value] else []) + Selections(Rsp.Apply(s, ls[0]), ls[1..])
  }

  /** In every run of the controller side, the loop in runEcho on what that run hands it sends what the side says. */
  lemma {:induction false} LoopSimulatesRun(w0: Header, s: Rsp.Side, e: Echo, ls: seq<Rsp.Label>, t: Rsp.Side)
    requires Rsp.Ordered(s) && Simulates(w0, s, e) && Rsp.Run(s, ls, t)
    ensures Simulates(w0, t, Turns(e, Selections(s, ls)))
    decreases |ls|
  {
    if ls != [] {
      Rsp.OrderedStep(s, ls[0]);
      TurnSimulatesStep(w0, s, e, ls[0]);
      var x := SelectedBy(s, ls[0]);
      var rest := Selections(Rsp.Apply(s, ls[0]), ls[1..]);
      if x.Some? {
        LoopSimulatesRun(w0, Rsp.Apply(s, ls[0]), Turn(e, x.value), ls[1..], t);
        assert Selections(s, ls)[1..] == rest;
      } else {
        LoopSimulatesRun(w0, Rsp.Apply(s, ls[0]), e, ls[1..], t);
        assert Selections(s, ls) == rest;
      }
    }
  }

  // ------------------------------------------------------------------------
  // End to end
  // ------------------------------------------------------------------------

  /** The steps of a run that the controller side takes. */
  function SideLabels(ls: seq<Pipeline.Label>): seq<Rsp.Label> {
    if ls == [] then [] else (if ls[0].OnSide? then [ls[0].l] else []) + SideLabels(ls[1..])
  }

  lemma {:induction false} SideRun(p: Pipeline.Pipe, ls: seq<Pipeline.Label>, q: Pipeline.Pipe)
    requires Pipeline.Run(p, ls, q)
    ensures Rsp.Run(p.side, SideLabels(ls), q.side)
    decreases |ls|
  {
    if ls != [] {
      SideRun(Pipeline.Apply(p, ls[0]), ls[1..], q);
      if ls[0].OnSide? {
        assert SideLabels(ls)[1..] == SideLabels(ls[1..]);
      } else {
        assert SideLabels(ls) == SideLabels(ls[1..]);
      }
    }
  }

  /** The loop of runEcho, on a writer that starts with header map `w0`, after what a run of the pipeline hands it. */
  function LoopAfter(w0: Header, id: StreamId, ls: seq<Pipeline.Label>): Echo {
    Turns(Echo(w0, [], false, false), Selections(Rsp.Start(id), SideLabels(ls)))
  }

  /** Go's conversion to int32. */
  function Int32(n: int): int {
    (n + 0x8000_0000) % 0x1_0000_0000 - 0x8000_0000
  }

  /** makeResponse, its headers already translated. */
  function MakeResponse(id: StreamId, status: int, contentLength: int, hs: seq<HttpHeader>): (r: TunnelHeaders)
    ensures r.streamId == id && r.contentLength == contentLength && r.headers == hs
    ensures -0x8000_0000 <= status < 0x8000_0000 ==> r.statusCode == status
  {
    TunnelHeaders(id, Int32(status), hs, contentLength)
  }

  function BodySent(sent: seq<Sent>): Bytes {
    if sent == [] then [] else (if sent[0].Chunk? then sent[0].data else []) + BodySent(sent[1..])
  }

  lemma {:induction false} SameBody(out: seq<Rsp.HttpEvent>, sent: seq<Sent>)
    requires |out| == |sent| && forall i :: 0 <= i < |out| ==> Matches(out[i], sent[i])
    ensures BodySent(sent) == Pipeline.Written(out)
    decreases |out|
  {
    if out != [] {
      assert forall i :: 0 <= i < |out[1..]| ==> out[1..][i] == out[i + 1] && sent[1..][i] == sent[i + 1];
      SameBody(out[1..], sent[1..]);
    }
  }

  /**
    Through makeResponse, the tunnel and runEcho: in every run without faults that can go no further, the loop of
    runEcho on what that run hands it has sent the status the agent saw and every byte the agent read, and the
    agent's header map without Authorization, the last exactly when the names kept are canonical and have
    values. This holds for every order of the map and every interleaving.
   */
  lemma ResponseArrives(id: StreamId, status: int, length: int, header: Header, hs: seq<HttpHeader>,
                        job: AgentChannel.Job, ls: seq<Pipeline.Label>, p: Pipeline.Pipe, w0: Header)
    requires -0x8000_0000 <= status < 0x8000_0000 && forall k :: k in w0 ==> Canonical(k) == k
    requires Translation.Translates(Translation.Unregistered, header, hs)
    requires job.Response? && job.h == MakeResponse(id, status, length, hs) && Progress.EndsUncancelled(job)
    requires Pipeline.Run(Pipeline.Start(id, job), ls, p) && Progress.AllWork(ls) && Progress.Stuck(p)
    ensures var e := LoopAfter(w0, id, ls);
      && e.returned && e.sent != [] && e.sent[0].Status? && e.sent[0].code == status
      && BodySent(e.sent) == Delivery.Fetched(job)
      && ((forall k ::
             && (k in e.sent[0].header <==> k in header && !EqualFold("Authorization", k))
             && (k in e.sent[0].header ==> e.sent[0].header[k] == header[k]))
          <==> (forall k :: k in header && !EqualFold("Authorization", k) ==> Canonical(k) == k && header[k] != []))
  {
    EndsByDone(id, job, ls, p);
    ClientSees(id, job, ls, p, w0);
    HeaderArrives(id, status, length, header, hs, job, w0);
  }

  lemma HeaderArrives(id: StreamId, status: int, length: int, header: Header, hs: seq<HttpHeader>,
                      job: AgentChannel.Job, w0: Header)
    requires -0x8000_0000 <= status < 0x8000_0000 && forall k :: k in w0 ==> Canonical(k) == k
    requires Translation.Translates(Translation.Unregistered, header, hs)
    requires job.Response? && job.h == MakeResponse(id, status, length, hs)
    ensures Delivery.Answer(id, job).statusCode == status
    ensures var got := Filled(Leftover(w0), Delivery.Answer(id, job).headers);
      (forall k :: (k in got <==> k in header && !EqualFold("Authorization", k)) && (k in got ==> got[k] == header[k]))
      <==> (forall k :: k in header && !EqualFold("Authorization", k) ==> Canonical(k) == k && header[k] != [])
  {
    Int32Same(status);
    assert Leftover(w0) == map[];
    Translation.PlainTrip(header, hs);
  }

  /** In general the status is the one number of 32 bits that is the same modulo 2 to the 32. */
  lemma Int32Is(n: int)
    ensures -0x8000_0000 <= Int32(n) < 0x8000_0000 && (Int32(n) - n) % 0x1_0000_0000 == 0
  {
    var m := (n + 0x8000_0000) % 0x1_0000_0000;
    assert (n + 0x8000_0000) - m == 0x1_0000_0000 * ((n + 0x8000_0000) / 0x1_0000_0000);
  }

  lemma Int32Same(n: int)
    requires -0x8000_0000 <= n < 0x8000_0000
    ensures Int32(n) == n
  {
  }

  lemma EndsByDone(id: StreamId, job: AgentChannel.Job, ls: seq<Pipeline.Label>, p: Pipeline.Pipe)
    requires Progress.EndsUncancelled(job) && Pipeline.Run(Pipeline.Start(id, job), ls, p)
    requires Progress.AllWork(ls) && Progress.Stuck(p)
    ensures p.side.writer == Rsp.Finished(Rsp.ByDone)
  {
    Progress.DeliversWithoutFaults(id, job, ls, p);
  }

  /** In every run that ends by Done, what the loop of runEcho has sent after what the run handed it. */
  lemma ClientSees(id: StreamId, job: AgentChannel.Job, ls: seq<Pipeline.Label>, p: Pipeline.Pipe, w0: Header)
    requires Pipeline.Run(Pipeline.Start(id, job), ls, p) && p.side.writer == Rsp.Finished(Rsp.ByDone)
    ensures var e, h := LoopAfter(w0, id, ls), Delivery.Answer(id, job);
      && e.returned && e.sent != [] && e.sent[0] == Status(h.statusCode, Filled(Leftover(w0), h.headers))
      && BodySent(e.sent) == Delivery.Fetched(job)
  {
    SideRun(Pipeline.Start(id, job), ls, p);
    LoopSimulatesRun(w0, Rsp.Start(id), Echo(w0, [], false, false), SideLabels(ls), p.side);
    Delivery.DoneMeansComplete(id, job, ls, p);
    SameBody(p.side.out, LoopAfter(w0, id, ls).sent);
  }
}
