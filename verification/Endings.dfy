/** What the HTTP client has been sent for every way runEcho can end, and what a broken tunnel looks like to it. */
module Endings {
  import opened Tunnel
  import opened AgentChannel
  import opened AgentGrammar
  import Ctl = ControllerEcho
  import Rsp = Response
  import opened Pipeline
  import opened Delivery
  import Progress
  import opened ClientOutput

  /** `out` is the beginning of `all`, its last body bytes cut short. */
  predicate CutShort(out: seq<Rsp.HttpEvent>, all: seq<Rsp.HttpEvent>) {
    var n := |out| - 1;
    0 <= n < |all| && out[..n] == all[..n] && out[n].Body? && all[n].Body? && out[n].data <= all[n].data
  }

  predicate Gone(s: Rsp.Side) {
    s.receiver.Leaving? || s.receiver.Returned?
  }

  const FAILED: seq<Rsp.HttpEvent> := [Rsp.WriteHeader(STATUS_TEAPOT, [])]

  /** The output against the messages received, whatever has ended runEcho. */
  ghost predicate EndShows(s: Rsp.Side) {
    var all := EventsOf(s.received);
    && Echoed(s)
    && (s.receiver.Offering? && s.receiver.offer.sig.SigFail? ==> s.receiver.offer.sig.code == STATUS_TEAPOT)
    && (s.writer.Finished? ==>
          match s.writer.why
          case ByDone => true
          case ByCancel => Gone(s) && s.out == all
          case ByFail => Gone(s) && s.out == if s.headersSent then all else FAILED
          case ByFlush => s.out <= all
          case ByClient => s.out <= all
          case ByWriteError => CutShort(s.out, all))
    && (!s.headersSent ==> s.out == [] || (s.writer == Rsp.Finished(Rsp.ByFail) && s.out == FAILED))
  }

  lemma EndShowsStep(p: Pipe, l: Label)
    requires Fifo(p) && Producing(p) && Linked(p) && Tracking(p.side) && EndShows(p.side) && Enabled(p, l)
    ensures EndShows(Apply(p, l).side)
  {
    EchoedStep(p, l);
    SideOnly(p, l);
    if l.OnSide? {
      if l.l.FirstEvent? || l.l.NextEvent? {
        EndShowsEvent(p.side, l.l);
      } else if l.l.HandOff? {
        EndShowsHandOff(p.side);
      } else if l.l.Write? {
        EndShowsWrite(p.side, l.l.n, l.l.ok);
      } else {
        EndShowsElse(p.side, l.l);
      }
    }
  }

  lemma Longer(out: seq<Rsp.HttpEvent>, all: seq<Rsp.HttpEvent>, more: seq<Rsp.HttpEvent>)
    ensures out <= all ==> out <= all + more
    ensures CutShort(out, all) ==> CutShort(out, all + more)
  {
    if CutShort(out, all) {
      assert (all + more)[..|out| - 1] == all[..|out| - 1];
    }
  }

  lemma EndShowsEvent(s: Rsp.Side, c: Rsp.Label)
    requires EndShows(s) && Rsp.Enabled(s, c) && (c.FirstEvent? || c.NextEvent?)
    requires Echoed(Rsp.Apply(s, c))
    ensures EndShows(Rsp.Apply(s, c))
  {
    EventsConcat(s.received, Rsp.Arrived(c.ev));
    Longer(s.out, EventsOf(s.received), EventsOf(Rsp.Arrived(c.ev)));
    EventKeeps(s, c);
  }

  lemma EventKeeps(s: Rsp.Side, c: Rsp.Label)
    requires Rsp.Enabled(s, c) && (c.FirstEvent? || c.NextEvent?)
    ensures var t := Rsp.Apply(s, c);
      && t.out == s.out && t.writer == s.writer && t.headersSent == s.headersSent
      && t.received == s.received + Rsp.Arrived(c.ev) && !Gone(s)
      && (t.receiver.Offering? && t.receiver.offer.sig.SigFail? ==> t.receiver.offer.sig.code == STATUS_TEAPOT)
  {
  }

  lemma EndShowsHandOff(s: Rsp.Side)
    requires Tracking(s) && EndShows(s) && Rsp.Enabled(s, Rsp.HandOff) && Echoed(Rsp.Apply(s, Rsp.HandOff))
    ensures EndShows(Rsp.Apply(s, Rsp.HandOff))
  {
    var sig := s.receiver.offer.sig;
    if sig.SigDone? || sig.SigFail? {
      assert Upcoming(s) == [] && s.out + [] == s.out;
      assert !s.headersSent ==> s.out + FAILED == FAILED;
      assert s.headersSent ==> s.out + [] == s.out;
    }
  }

  lemma EndShowsWrite(s: Rsp.Side, n: nat, ok: bool)
    requires Tracking(s) && EndShows(s) && Rsp.Enabled(s, Rsp.Write(n, ok)) && Echoed(Rsp.Apply(s, Rsp.Write(n, ok)))
    ensures EndShows(Rsp.Apply(s, Rsp.Write(n, ok)))
  {
    var all := EventsOf(s.received);
    var k := |s.out|;
    assert all[..k] == s.out && all[k] == Rsp.Body(s.writer.chunk) by {
      assert all == s.out + Upcoming(s);
      assert Upcoming(s)[0] == Rsp.Body(s.writer.chunk);
    }
    var out := s.out + [Rsp.Body(s.writer.chunk[..n])];
    assert out[..k] == s.out;
    assert CutShort(out, all);
  }

  lemma EndShowsElse(s: Rsp.Side, c: Rsp.Label)
    requires EndShows(s) && Rsp.Enabled(s, c) && Echoed(Rsp.Apply(s, c))
    requires !c.FirstEvent? && !c.NextEvent? && !c.HandOff? && !c.Write?
    ensures EndShows(Rsp.Apply(s, c))
  {
    if c.ClientGone? || c.FlushHandOff? {
      assert s.out <= s.out + Upcoming(s);
    }
  }

  lemma {:induction false} EndShowsRun(p: Pipe, ls: seq<Label>, q: Pipe)
    requires Inv(p) && EndShows(p.side) && Run(p, ls, q)
    ensures EndShows(q.side)
    decreases |ls|
  {
    if ls != [] {
      InvStep(p, ls[0]);
      EndShowsStep(p, ls[0]);
      EndShowsRun(Apply(p, ls[0]), ls[1..], q);
    }
  }

  // ------------------------------------------------------------------------
  // Against the whole response
  // ------------------------------------------------------------------------

  lemma {:induction false} MessagesPrefix(a: seq<Read>, b: seq<Read>)
    requires a <= b
    ensures DataMsgs(a) <= DataMsgs(b)
    decreases |a|
  {
    if a != [] {
      assert a[1..] <= b[1..];
      MessagesPrefix(a[1..], b[1..]);
    }
  }

  lemma EventsPrefix(a: seq<StreamFlow>, b: seq<StreamFlow>)
    requires a <= b
    ensures EventsOf(a) <= EventsOf(b)
  {
    assert b == a + b[|a|..];
    EventsConcat(a, b[|a|..]);
  }

  /** What was produced, and so what was received, tells the beginning of the job's whole response. */
  lemma ReceivedTells(p: Pipe)
    requires Fifo(p) && Producing(p) && LoopAt(p) && Tells(p)
    ensures EventsOf(p.side.received) <= Shown(p.id, p.job)
  {
    ProducedTells(p);
    ReceivedFollows(p, p.produced);
    AfterId(p.id, p.produced);
    EventsPrefix(p.side.received, [StreamID(p.id)] + p.produced);
  }

  lemma AfterId(id: StreamId, ms: seq<StreamFlow>)
    ensures EventsOf([StreamID(id)] + ms) == EventsOf(ms)
  {
    FirstEvents(StreamID(id), ms);
    assert [] + EventsOf(ms) == EventsOf(ms);
  }

  lemma ProducedTells(p: Pipe)
    requires Producing(p) && LoopAt(p) && Tells(p)
    ensures EventsOf(p.produced) <= Shown(p.id, p.job)
  {
    if p.produced != [] {
      if p.job.Response? {
        NextReached(p.job.turns, p.next);
        MessagesPrefix(p.job.turns[..p.next], p.job.turns[..Taken(p.job)]);
      }
      EventsPrefix(Substance(p.id, p.job, p.next), Substance(p.id, p.job, Taken(p.job)));
    }
  }

  lemma {:induction false} NextReached(turns: seq<Read>, n: nat)
    requires n <= |turns| && forall i :: 0 <= i < n - 1 ==> turns[i].err.NoError?
    ensures n <= |Reached(turns)|
    decreases n
  {
    if n > 1 {
      NextReached(turns[1..], n - 1);
    }
  }

  /**
    In every run, under every fault, the client has been sent the beginning of the response the request
    determines, whole events of it unless a write failed. A failure before the headers is answered with 418;
    any other ending before them leaves the answer to net/http. Only a Done promises the whole response.
   */
  lemma EveryEnding(id: StreamId, job: Job, ls: seq<Label>, p: Pipe)
    requires Run(Start(id, job), ls, p)
    ensures var out, writer := p.side.out, p.side.writer;
      && (writer == Rsp.Finished(Rsp.ByDone) ==> out == Shown(id, job))
      && (if writer == Rsp.Finished(Rsp.ByFail) && !p.side.headersSent then out == [Rsp.WriteHeader(418, [])]
          else if writer == Rsp.Finished(Rsp.ByWriteError) then CutShort(out, Shown(id, job))
          else out <= Shown(id, job))
      && (!p.side.headersSent && writer != Rsp.Finished(Rsp.ByFail) ==> out == [])
  {
    InvStart(id, job);
    RunInvariants(id, job, ls, p);
    EndShowsRun(Start(id, job), ls, p);
    TellsRun(Start(id, job), ls, p);
    if p.side.writer == Rsp.Finished(Rsp.ByDone) {
      DoneShows(id, job, ls, p);
    }
    ReceivedTells(p);
    Within(p.side, Shown(id, job));
  }

  lemma Within(s: Rsp.Side, whole: seq<Rsp.HttpEvent>)
    requires EndShows(s) && EventsOf(s.received) <= whole
    ensures if s.writer == Rsp.Finished(Rsp.ByFail) && !s.headersSent then s.out == FAILED
            else if s.writer == Rsp.Finished(Rsp.ByWriteError) then CutShort(s.out, whole)
            else s.out <= whole
  {
    var all := EventsOf(s.received);
    assert whole == all + whole[|all|..];
    Longer(s.out, all, whole[|all|..]);
  }

  // ------------------------------------------------------------------------
  // A tunnel that breaks between two turns of the read loop
  // ------------------------------------------------------------------------

  /** The four goroutines have carried everything read so far to the client. */
  ghost predicate BetweenTurns(p: Pipe) {
    && p.pc.Polling? && p.ops == [] && !p.chanClosed && p.st == EchoState(true, false)
    && p.sender.Ready? && p.wire == [] && p.link.Up?
    && p.side.receiver.Receiving? && p.side.phase.AwaitData? && p.side.writer.Selecting? && p.side.headersSent
    && p.side.flush.Idle?
  }

  lemma Two(p: Pipe, ls: seq<Label>, q: Pipe, a: Label, b: Label) returns (more: seq<Label>, r: Pipe)
    requires Run(p, ls, q) && Enabled(q, a) && Enabled(Apply(q, a), b)
    ensures Run(p, more, r) && r == Apply(Apply(q, a), b)
  {
    Progress.OneMore(p, ls, q, a);
    Progress.OneMore(p, ls + [a], Apply(q, a), b);
    more, r := ls + [a] + [b], Apply(Apply(q, a), b);
  }

  /** A message that the sender is ready to take reaches runEcho. */
  lemma Carry(s: Pipe, ls: seq<Label>, p: Pipe, m: StreamFlow) returns (more: seq<Label>, q: Pipe)
    requires Run(s, ls, p) && p.ops == [Send(m)] && !p.pc.Panicked? && !p.chanClosed && !p.job.Unconfigured?
    requires p.sender.Ready? && p.wire == [] && p.link.Up?
    requires p.side.receiver.Receiving? && p.side.writer.Selecting?
    requires (m.Headers? && p.side.phase.AwaitHeaders?) || (m.Data? && p.side.phase.AwaitData?)
    ensures Run(s, more, q)
    ensures q == p.(ops := [], side := q.side)
    ensures var taken := Rsp.Apply(Rsp.Receive(p.side, Ctl.Msg(m)), Rsp.HandOff); q.side == taken
  {
    more, q := Two(s, ls, p, HandOver, SendOn);
    var arrive := OnSide(Rsp.NextEvent(Ctl.Msg(m)));
    more, q := Two(s, more, q, arrive, OnSide(Rsp.HandOff));
  }

  /** The first steps: headers read, stream opened, its ID looked up, and the headers sent to the client. */
  lemma Begun(id: StreamId, h: TunnelHeaders, turns: seq<Read>) returns (ls: seq<Label>, p: Pipe)
    ensures Run(Start(id, Response(h, turns)), ls, p) && BetweenTurns(p) && p.next == 0
    ensures p.id == id && p.job == Response(h, turns)
    ensures p.side.out == [Rsp.WriteHeader(h.statusCode, h.headers)]
  {
    var s := Start(id, Response(h, turns));
    ls, p := Two(s, [], s, Begin, Open);
    var arrive := OnSide(Rsp.FirstEvent(Ctl.Msg(StreamID(id))));
    Progress.OneMore(s, ls, p, arrive);
    ls, p := ls + [arrive], Apply(p, arrive);
    assert p.wire == [];
    ls, p := Carry(s, ls, p, Headers(h));
  }

  /** A turn without an error: what it reads is sent to the client. */
  lemma TurnCarried(s: Pipe, ls: seq<Label>, p: Pipe) returns (more: seq<Label>, q: Pipe)
    requires Run(s, ls, p) && BetweenTurns(p) && p.job.Response? && p.next < |p.job.turns|
    requires !p.job.turns[p.next].cancelled && p.job.turns[p.next].err.NoError?
    ensures Run(s, more, q) && BetweenTurns(q) && q.next == p.next + 1 && q.job == p.job && q.id == p.id
    ensures q.side.out == p.side.out + EventsOf(DataMsg(p.job.turns[p.next]))
  {
    var r := p.job.turns[p.next];
    more, q := Two(s, ls, p, Poll, ReadBody);
    if r.data == [] {
      assert p.side.out + [] == p.side.out;
    } else {
      assert q.ops == [Send(Data(r.data))];
      more, q := Carry(s, more, q, Data(r.data));
      var write := OnSide(Rsp.Write(|r.data|, true));
      assert r.data[..|r.data|] == r.data;
      EventsOfOne(Data(r.data));
      Progress.OneMore(s, more, q, write);
      more, q := more + [write], Apply(q, write);
    }
  }

  lemma {:induction false} TurnsCarried(id: StreamId, h: TunnelHeaders, turns: seq<Read>, n: nat)
    returns (ls: seq<Label>, p: Pipe)
    requires n <= |turns| && forall i :: 0 <= i < n ==> !turns[i].cancelled && turns[i].err.NoError?
    ensures Run(Start(id, Response(h, turns)), ls, p) && BetweenTurns(p) && p.next == n
    ensures p.id == id && p.job == Response(h, turns)
    ensures p.side.out == EventsOf(Substance(id, p.job, n))
    decreases n
  {
    if n == 0 {
      ls, p := Begun(id, h, turns);
      assert Substance(id, p.job, 0) == [Headers(h)];
      EventsOfOne(Headers(h));
    } else {
      ls, p := TurnsCarried(id, h, turns, n - 1);
      MoreSubstance(id, p.job, n - 1);
      EventsConcat(Substance(id, p.job, n - 1), DataMsg(turns[n - 1]));
      ls, p := TurnCarried(Start(id, Response(h, turns)), ls, p);
    }
  }

  /**
    Wherever between two turns the tunnel breaks, runEcho can return with the client having been sent exactly
    what a complete response of the turns so far would have sent it.
   */
  lemma CutLooksComplete(id: StreamId, h: TunnelHeaders, turns: seq<Read>, rest: seq<Read>)
    returns (ls: seq<Label>, p: Pipe)
    requires forall i :: 0 <= i < |turns| ==> !turns[i].cancelled && turns[i].err.NoError?
    ensures Run(Start(id, Response(h, turns + rest)), ls, p)
    ensures p.side.writer == Rsp.Finished(Rsp.ByFail)
    ensures p.side.out == Shown(id, Response(h, turns + [Read(false, [], Eof)]))
  {
    var all := turns + rest;
    ls, p := TurnsCarried(id, h, all, |turns|);
    SubstanceSoFar(id, h, turns, rest);
    var s := Start(id, Response(h, all));
    var lost := OnSide(Rsp.NextEvent(Ctl.Lost(false)));
    ls, p := Two(s, ls, p, Cut(0, false), lost);
    var handOff := OnSide(Rsp.HandOff);
    Progress.OneMore(s, ls, p, handOff);
    assert p.side.out + [] == p.side.out;
    ls, p := ls + [handOff], Apply(p, handOff);
  }

  lemma SubstanceSoFar(id: StreamId, h: TunnelHeaders, turns: seq<Read>, rest: seq<Read>)
    requires forall i :: 0 <= i < |turns| ==> turns[i].err.NoError?
    ensures EventsOf(Substance(id, Response(h, turns + rest), |turns|))
         == Shown(id, Response(h, turns + [Read(false, [], Eof)]))
  {
    AllMessages(turns, Read(false, [], Eof));
    assert (turns + rest)[..|turns|] == turns;
    assert DataMsgs(turns) + [] == DataMsgs(turns);
  }
}
