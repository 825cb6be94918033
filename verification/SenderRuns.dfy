/** The sender of module Pipeline in every run: what it puts on the stream is what RunDataSender sends. */
module SenderRuns {
  import opened Tunnel
  import opened AgentChannel
  import opened Pipeline
  import opened Blocking

  /** The messages handed to the sender in a run. */
  function HandedOver(p: Pipe, ls: seq<Label>): seq<StreamFlow>
    decreases |ls|
  {
    if ls == [] || !Enabled(p, ls[0]) then []
    else (if ls[0].HandOver? then [p.ops[0].msg] else []) + HandedOver(Apply(p, ls[0]), ls[1..])
  }

  /** The messages it took from its loop to the stream, and whether the stream took them. */
  function SendInputs(p: Pipe, ls: seq<Label>): seq<SenderInput>
    decreases |ls|
  {
    if ls == [] || !Enabled(p, ls[0]) then []
    else SendInput(p, ls[0]) + SendInputs(Apply(p, ls[0]), ls[1..])
  }

  function SendInput(p: Pipe, l: Label): seq<SenderInput>
    requires Enabled(p, l)
  {
    if l.SendOn? then [Message(p.sender.msg, p.link.Up? && !p.side.receiver.Returned?)] else []
  }

  /** What a step puts on the stream: what the wire and the receiver have grown by. */
  function PutBy(p: Pipe, l: Label): seq<StreamFlow>
    requires Enabled(p, l)
  {
    if (l.Open? || l.SendOn?) && |Apply(p, l).wire| > |p.wire| then Apply(p, l).wire[|p.wire|..] else []
  }

  function Put(p: Pipe, ls: seq<Label>): seq<StreamFlow>
    decreases |ls|
  {
    if ls == [] || !Enabled(p, ls[0]) then [] else PutBy(p, ls[0]) + Put(Apply(p, ls[0]), ls[1..])
  }

  lemma PutIs(p: Pipe, l: Label)
    requires Enabled(p, l)
    ensures PutBy(p, l) == (if l.Open? then [StreamID(p.id)] else []) + Accepted(SendInput(p, l))
    ensures !l.Cut? ==> Apply(p, l).side.received + Apply(p, l).wire == p.side.received + p.wire + PutBy(p, l)
    ensures l.SendOn? ==> !p.sender.Opening?
    ensures l.Open? ==> p.sender.Opening?
    ensures Apply(p, l).sender.Opening? ==> p.sender.Opening?
    ensures Apply(p, l).id == p.id
  {
    if l.OnSide? {
      ReceiveMoves(p, l.l);
    }
    if l.SendOn? {
      var input := Message(p.sender.msg, p.link.Up? && !p.side.receiver.Returned?);
      assert [input][..0] == [];
      assert Accepted([]) == [];
    }
  }

  /** A sender whose stream is open puts on it what its Sends accept. */
  lemma {:induction false} PutOnceOpen(p: Pipe, ls: seq<Label>, q: Pipe)
    requires Run(p, ls, q) && !p.sender.Opening?
    ensures Put(p, ls) == Accepted(SendInputs(p, ls))
    decreases |ls|
  {
    if ls != [] {
      PutIs(p, ls[0]);
      PutOnceOpen(Apply(p, ls[0]), ls[1..], q);
      AcceptedConcat(SendInput(p, ls[0]), SendInputs(Apply(p, ls[0]), ls[1..]));
      assert [] + Accepted(SendInput(p, ls[0])) == Accepted(SendInput(p, ls[0]));
    }
  }

  lemma {:induction false} PutFromStart(p: Pipe, ls: seq<Label>, q: Pipe)
    requires Run(p, ls, q) && p.sender.Opening?
    ensures Put(p, ls) == if OpensIn(ls) then [StreamID(p.id)] + Accepted(SendInputs(p, ls)) else []
    decreases |ls|
  {
    if ls != [] {
      var p' := Apply(p, ls[0]);
      PutIs(p, ls[0]);
      assert SendInput(p, ls[0]) == [] && Accepted([]) == [];
      assert SendInputs(p, ls) == SendInputs(p', ls[1..]);
      if p'.sender.Opening? {
        StillOpening(p, ls[0]);
        PutFromStart(p', ls[1..], q);
      } else {
        PutOnceOpen(p', ls[1..], q);
        if ls[0].Open? {
          assert PutBy(p, ls[0]) == [StreamID(p.id)] + [] == [StreamID(p.id)];
        } else {
          NeverOpens(p, ls[0], ls[1..], q);
        }
      }
    }
  }

  lemma StillOpening(p: Pipe, l: Label)
    requires Enabled(p, l) && Apply(p, l).sender.Opening?
    ensures !l.Open?
  {
  }

  /** A stream that did not open never opens, and nothing is sent on it. */
  lemma NeverOpens(p: Pipe, l: Label, rest: seq<Label>, q: Pipe)
    requires Enabled(p, l) && p.sender.Opening? && !Apply(p, l).sender.Opening? && !l.Open? && Run(Apply(p, l), rest, q)
    ensures !OpensIn([l] + rest) && Accepted(SendInputs(Apply(p, l), rest)) == [] && !OpensIn(rest)
  {
    GoneStays(Apply(p, l), rest, q);
    assert ([l] + rest)[1..] == rest;
  }

  lemma {:induction false} GoneStays(p: Pipe, ls: seq<Label>, q: Pipe)
    requires p.sender == Gone(false) && Run(p, ls, q)
    ensures !OpensIn(ls) && SendInputs(p, ls) == []
    decreases |ls|
  {
    if ls != [] {
      GoneStays(Apply(p, ls[0]), ls[1..], q);
    }
  }

  lemma {:induction false} DownPutsNothing(p: Pipe, ls: seq<Label>, q: Pipe)
    requires p.link.Down? && Run(p, ls, q)
    ensures Put(p, ls) == []
    decreases |ls|
  {
    if ls != [] {
      DownPutsNothing(Apply(p, ls[0]), ls[1..], q);
    }
  }

  /** What is received or on the wire was put on the stream, from its first message on, with no gaps. */
  lemma {:induction false} ArrivesInOrder(p: Pipe, ls: seq<Label>, q: Pipe)
    requires Run(p, ls, q)
    ensures q.side.received + q.wire <= p.side.received + p.wire + Put(p, ls)
    decreases |ls|
  {
    if ls != [] {
      var p' := Apply(p, ls[0]);
      ArrivesInOrder(p', ls[1..], q);
      if ls[0].Cut? {
        DownPutsNothing(p', ls[1..], q);
        assert p'.side.received + p'.wire <= p.side.received + p.wire;
      } else {
        PutIs(p, ls[0]);
        Associate(p.side.received + p.wire, PutBy(p, ls[0]), Put(p', ls[1..]));
      }
    } else {
      assert p.side.received + p.wire + [] == p.side.received + p.wire;
    }
  }

  function Messages(inputs: seq<SenderInput>): seq<StreamFlow>
    requires forall i :: 0 <= i < |inputs| ==> inputs[i].Message?
  {
    seq(|inputs|, i requires 0 <= i < |inputs| => inputs[i].msg)
  }

  /** What the sender was handed it has tried to send, in order, but for a message it holds. */
  lemma {:induction false} TriedInOrder(p: Pipe, ls: seq<Label>, q: Pipe)
    requires Run(p, ls, q)
    ensures forall i :: 0 <= i < |SendInputs(p, ls)| ==> SendInputs(p, ls)[i].Message?
    ensures Held(p) + HandedOver(p, ls) == Messages(SendInputs(p, ls)) + Held(q)
    decreases |ls|
  {
    if ls == [] {
      assert Held(p) + [] == Held(p) && [] + Held(q) == Held(q);
    } else {
      var p' := Apply(p, ls[0]);
      TriedInOrder(p', ls[1..], q);
      var rest := SendInputs(p', ls[1..]);
      if ls[0].SendOn? {
        assert Messages(SendInputs(p, ls)) == [p.sender.msg] + Messages(rest);
        assert Held(p') == [] && [] + HandedOver(p', ls[1..]) == HandedOver(p', ls[1..]);
        Associate([p.sender.msg], Messages(rest), Held(q));
      } else {
        assert SendInputs(p, ls) == rest;
        if ls[0].HandOver? {
          assert Held(p) == [] && Held(p') == [p.ops[0].msg];
        } else {
          assert Held(p') == Held(p) && HandedOver(p, ls) == HandedOver(p', ls[1..]);
        }
      }
    }
  }

  /**
    In every run, the sender is handed messages and tries to send them in order; if its stream opens it puts on
    it what `AgentChannel.RunDataSender` sends on those inputs; and what has arrived is a beginning of that.
   */
  lemma SenderSendsAs(id: StreamId, job: Job, ls: seq<Label>, p: Pipe)
    requires Run(Start(id, job), ls, p)
    ensures forall i :: 0 <= i < |SendInputs(Start(id, job), ls)| ==> SendInputs(Start(id, job), ls)[i].Message?
    ensures var inputs := SendInputs(Start(id, job), ls);
      && HandedOver(Start(id, job), ls) == Messages(inputs) + Held(p)
      && Put(Start(id, job), ls) == (if OpensIn(ls) then [StreamID(id)] + Accepted(inputs) else [])
      && p.side.received + p.wire <= Put(Start(id, job), ls)
  {
    var s := Start(id, job);
    TriedInOrder(s, ls, p);
    PutFromStart(s, ls, p);
    ArrivesInOrder(s, ls, p);
    assert [] + HandedOver(s, ls) == HandedOver(s, ls);
    assert [] + [] + Put(s, ls) == Put(s, ls);
  }
}
