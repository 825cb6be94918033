/** When a request that a handler offers can still be taken by its agent. */
module Offers {
  import opened Wrappers
  import opened Tunnel
  import opened Sessions
  import opened Controller
  import opened ControllerRuns

  predicate Offered(s: State, e: EchoRef) {
    e in s.handlers && s.handlers[e].pc.Offering?
  }

  ghost predicate CanBeTaken(s: State, e: EchoRef) {
    exists ls, t :: Run(s, ls, t) && WasTaken(t, e)
  }

  /** The stream table is free, or the flush that holds it can end. */
  ghost predicate TableComesFree(s: State) {
    s.lock.Some? ==> FlushingAt(s, s.lock.value) && AllListening(s, s.lock.value)
  }

  /** A WaitForRequest that takes a request now, or comes back for the next. */
  ghost predicate Serves(s: State, w: nat, key: AgentKey) {
    && w in s.waiters && s.waiters[w].key == key
    && (s.waiters[w].pc.Waiting? || s.waiters[w].pc.Sending? || (s.waiters[w].pc.Taken? && TableComesFree(s)))
  }

  ghost predicate SomeServes(s: State, key: AgentKey) {
    key in s.sessions || exists w: nat :: Serves(s, w, key)
  }

  // ------------------------------------------------------------------------
  // Then some continuation takes the request
  // ------------------------------------------------------------------------

  lemma {:induction false} NewWaiter(ws: set<nat>) returns (w: nat)
    ensures w !in ws && forall v :: v in ws ==> v < w
    decreases |ws|
  {
    if ws == {} {
      w := 0;
    } else {
      var v :| v in ws;
      var u := NewWaiter(ws - {v});
      w := if u <= v then v + 1 else u;
      assert ws == ws - {v} + {v};
    }
  }

  lemma TakeNow(first: State, ls: seq<Label>, s: State, w: nat, e: EchoRef)
    requires Run(first, ls, s) && Offered(s, e)
    requires w in s.waiters && s.waiters[w] == Waiter(s.handlers[e].key, Waiting)
    ensures CanBeTaken(first, e)
  {
    OneMore(first, ls, s, Take(w, e));
    assert WasTaken(Apply(s, Take(w, e)), e);
  }

  lemma TakeAfterSend(first: State, ls: seq<Label>, s: State, w: nat, e: EchoRef)
    requires Run(first, ls, s) && Offered(s, e) && w in s.waiters && s.waiters[w].key == s.handlers[e].key
    requires s.waiters[w].pc.Sending? && HasId(s, s.waiters[w].pc.e)
    ensures CanBeTaken(first, e)
  {
    OneMore(first, ls, s, SendOk(w));
    TakeNow(first, ls + [SendOk(w)], Apply(s, SendOk(w)), w, e);
  }

  lemma TakeAfterRegister(first: State, ls: seq<Label>, s: State, w: nat, e: EchoRef)
    requires Run(first, ls, s) && Offered(s, e) && w in s.waiters && s.waiters[w].key == s.handlers[e].key
    requires s.waiters[w].pc.Taken? && HasId(s, s.waiters[w].pc.e) && s.lock.None?
    ensures CanBeTaken(first, e)
  {
    OneMore(first, ls, s, Register(w));
    TakeAfterSend(first, ls + [Register(w)], Apply(s, Register(w)), w, e);
  }

  lemma TakeFromSession(s: State, e: EchoRef)
    requires Offered(s, e) && s.handlers[e].key in s.sessions
    ensures CanBeTaken(s, e)
  {
    var w := NewWaiter(s.waiters.Keys);
    var open := OpenWait(w, s.handlers[e].key);
    OneMore(s, [], s, open);
    TakeNow(s, [] + [open], Apply(s, open), w, e);
  }

  lemma TakeAfterTaken(s: State, w: nat, e: EchoRef)
    requires Matched(s) && LockHeld(s) && Offered(s, e) && Serves(s, w, s.handlers[e].key) && s.waiters[w].pc.Taken?
    ensures CanBeTaken(s, e)
  {
    var e' := s.waiters[w].pc.e;
    assert WasTaken(s, e');
    if s.lock.None? {
      TakeAfterRegister(s, [], s, w, e);
    } else {
      var ls, t := FlushFinishes(s, s.lock.value);
      StillTaken(s, ls, t, e');
      TakeAfterRegister(s, ls, t, w, e);
    }
  }

  lemma {:induction false} StillTaken(s: State, ls: seq<Label>, t: State, e: EchoRef)
    requires Run(s, ls, t) && WasTaken(s, e)
    ensures WasTaken(t, e)
    decreases |ls|
  {
    if ls != [] {
      HandlersStep(s, ls[0]);
      StillTaken(Apply(s, ls[0]), ls[1..], t, e);
    }
  }

  lemma TakeBy(s: State, w: nat, e: EchoRef)
    requires Matched(s) && LockHeld(s) && Offered(s, e) && Serves(s, w, s.handlers[e].key)
    ensures CanBeTaken(s, e)
  {
    if s.waiters[w].pc.Waiting? {
      TakeNow(s, [], s, w, e);
    } else if s.waiters[w].pc.Sending? {
      assert WasTaken(s, s.waiters[w].pc.e);
      TakeAfterSend(s, [], s, w, e);
    } else {
      TakeAfterTaken(s, w, e);
    }
  }

  // ------------------------------------------------------------------------
  // Otherwise none does
  // ------------------------------------------------------------------------

  /** A request that no one serves. */
  ghost predicate Forsaken(s: State, e: EchoRef) {
    Offered(s, e) && !SomeServes(s, s.handlers[e].key)
  }

  lemma ForsakenStep(s: State, l: Label, e: EchoRef)
    requires Inv(s) && Forsaken(s, e) && Enabled(s, l)
    ensures Forsaken(Apply(s, l), e)
  {
    var t := Apply(s, l);
    var key := s.handlers[e].key;
    OfferStays(s, l, e);
    NoReturn(s, l, key);
    forall w: nat | Serves(t, w, key) ensures Serves(s, w, key) {
      ServedBefore(s, l, w, key);
    }
  }

  lemma OfferStays(s: State, l: Label, e: EchoRef)
    requires StreamsMatch(s) && FlowsMatch(s) && Forsaken(s, e) && Enabled(s, l)
    ensures Offered(Apply(s, l), e) && Apply(s, l).handlers[e] == s.handlers[e]
  {
    if l.Take? && l.e == e {
      assert Serves(s, l.w, s.handlers[e].key);
    }
    if l.FlushOne? {
      assert EntryMatches(s, l.id, s.streams[l.id]);
    }
    if l.Deliver? {
      assert Names(s, s.flows[l.f].quoted, s.flows[l.f].echo);
    }
  }

  lemma NoReturn(s: State, l: Label, key: AgentKey)
    requires key !in s.sessions && key.sessionId in s.usedSessions && Enabled(s, l)
    ensures key !in Apply(s, l).sessions
  {
  }

  /** A wedged table never comes free, so a waiter that holds a request stays where it is. */
  lemma ServedBefore(s: State, l: Label, w: nat, key: AgentKey)
    requires LockHeld(s) && StreamsMatch(s) && Enabled(s, l) && key !in s.sessions && Serves(Apply(s, l), w, key)
    ensures Serves(s, w, key)
  {
    WaiterBefore(s, l, w);
    if s.waiters[w].pc.Taken? && !TableComesFree(s) {
      StaysHeld(s, l, w);
    }
  }

  lemma WaiterBefore(s: State, l: Label, w: nat)
    requires Enabled(s, l) && w in Apply(s, l).waiters
    requires var pc := Apply(s, l).waiters[w].pc; pc.Waiting? || pc.Sending? || pc.Taken?
    ensures (w in s.waiters && s.waiters[w].key == Apply(s, l).waiters[w].key
             && (s.waiters[w].pc.Waiting? || s.waiters[w].pc.Sending? || s.waiters[w].pc.Taken?))
         || (l.OpenWait? && l.w == w && Apply(s, l).waiters[w].key == l.key)
  {
  }

  lemma StaysHeld(s: State, l: Label, w: nat)
    requires LockHeld(s) && StreamsMatch(s) && Enabled(s, l) && !TableComesFree(s)
    requires w in s.waiters && s.waiters[w].pc.Taken?
    ensures !TableComesFree(Apply(s, l)) && w in Apply(s, l).waiters && Apply(s, l).waiters[w] == s.waiters[w]
  {
    var v := s.lock.value;
    var id := WedgedBy(s, v);
    WedgedStep(s, l, v, id);
    assert !AllListening(Apply(s, l), v);
  }

  lemma {:induction false} ForsakenForEver(s: State, ls: seq<Label>, t: State, e: EchoRef)
    requires Inv(s) && Forsaken(s, e) && Run(s, ls, t)
    ensures Forsaken(t, e)
    decreases |ls|
  {
    if ls != [] {
      InvStep(s, ls[0]);
      ForsakenStep(s, ls[0], e);
      ForsakenForEver(Apply(s, ls[0]), ls[1..], t, e);
    }
  }

  /**
    A request on offer can still be taken exactly when its session is in the table, or a WaitForRequest of the
    session waits, or sends a request on, or holds one and is not kept from registering it for ever by a wedged
    table. A session that is only out of the table is not enough to strand it.
   */
  lemma TakenExactlyWhen(first: seq<Label>, s: State, e: EchoRef)
    requires Run(Start(), first, s) && Offered(s, e)
    ensures CanBeTaken(s, e) <==> SomeServes(s, s.handlers[e].key)
  {
    InvReached(first, s);
    var key := s.handlers[e].key;
    if key in s.sessions {
      TakeFromSession(s, e);
    } else if SomeServes(s, key) {
      var w: nat :| Serves(s, w, key);
      TakeBy(s, w, e);
    } else {
      forall ls, t | Run(s, ls, t) ensures !WasTaken(t, e) {
        ForsakenForEver(s, ls, t, e);
      }
    }
  }
}
