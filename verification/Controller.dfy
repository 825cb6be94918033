/**
  The controller as a step system over all its agents and requests (app/server/server.go:53-174,
  app/server/service_server.go:183-225, app/server/stream.go, app/server/sessions.go): sessions, callers of
  WaitForRequest, API handlers, data flows, and the two tables they share. Goroutines interleave freely; a
  handover on `session.out` is one step of both sides, and a flush holds the stream table's lock throughout,
  waiting for each echo in turn.
 */
module Controller {
  import opened Wrappers
  import opened Tunnel
  import opened Sessions

  /** The identity of a ServerEcho object; also that of the API handler that made it. */
  type EchoRef = nat

  /** An API handler: session found, request offered on session.out, in runEcho, or done. */
  datatype HandlerPc = Reading | Offering(id: StreamId) | Running(id: StreamId) | Finished(id: StreamId)

  datatype Handler = Handler(key: AgentKey, pc: HandlerPc)

  /** A call of WaitForRequest. `Closing` has its removeSession still to run, `Ending` its deferred one. */
  datatype WaiterPc =
    | Waiting
    | Taken(e: EchoRef)
    | Sending(e: EchoRef)
    | Closing
    | Closed
    | Flushing(todo: set<StreamId>)
    | Ending
    | Gone

  datatype Waiter = Waiter(key: AgentKey, pc: WaiterPc)

  datatype Entry = Entry(sessionId: string, echo: EchoRef)

  datatype Flow = Flow(quoted: StreamId, echo: EchoRef)

  /** `handler` ran with a signal that came over data flow `flow`, opened with ID `quoted`. */
  datatype Delivery = Delivery(handler: EchoRef, quoted: StreamId)

  datatype State = State(
    sessions: set<AgentKey>,
    usedSessions: set<string>,
    waiters: map<nat, Waiter>,
    handlers: map<EchoRef, Handler>,
    usedIds: set<StreamId>,
    streams: map<StreamId, Entry>,
    lock: Option<nat>,             // the waiter whose flush holds the stream table's lock
    flows: map<nat, Flow>,
    // history
    takes: seq<EchoRef>,           // requests taken from session.out
    deliveries: seq<Delivery>,
    registered: set<StreamId>,
    sent: set<StreamId>,           // IDs an agent has been sent
    ended: set<StreamId>,          // IDs whose data flow has ended
    flushed: set<StreamId>)

  function Start(): State {
    State({}, {}, map[], map[], {}, map[], None, map[], [], [], {}, {}, {}, {})
  }

  datatype Label =
    | Hello(key: AgentKey)
    | Touch(key: AgentKey, time: int)      // a Ping whose session is still there
    | Expire(keys: set<AgentKey>)
    | OpenWait(w: nat, key: AgentKey)
    | FindSession(e: EchoRef, key: AgentKey)
    | Offer(e: EchoRef, id: StreamId)
    | Take(w: nat, e: EchoRef)
    | Register(w: nat)
    | SendOk(w: nat)
    | SendFails(w: nat)
    | ContextDone(w: nat)
    | CloseSession(w: nat)
    | FlushStart(w: nat)
    | FlushOne(w: nat, id: StreamId)
    | FlushEnd(w: nat)
    | DeferredRemove(w: nat)
    | OpenFlow(f: nat, id: StreamId)
    | Deliver(f: nat, last: bool)
    | EndFlow(f: nat)
    | ClientGone(e: EchoRef)

  predicate IsRunning(s: State, e: EchoRef) {
    e in s.handlers && s.handlers[e].pc.Running?
  }

  predicate Enabled(s: State, l: Label) {
    match l
    case Hello(key) => key.sessionId !in s.usedSessions
    case Touch(key, _) => key in s.sessions
    case Expire(keys) => true
    case OpenWait(w, key) => w !in s.waiters && key in s.sessions
    case FindSession(e, key) => e !in s.handlers && key in s.sessions
    case Offer(e, id) => e in s.handlers && s.handlers[e].pc.Reading? && id !in s.usedIds
    case Take(w, e) =>
      && w in s.waiters && s.waiters[w].pc.Waiting?
      && e in s.handlers && s.handlers[e].pc.Offering? && s.handlers[e].key == s.waiters[w].key
    case Register(w) => w in s.waiters && s.waiters[w].pc.Taken? && s.lock.None? && HasId(s, s.waiters[w].pc.e)
    case SendOk(w) => w in s.waiters && s.waiters[w].pc.Sending? && HasId(s, s.waiters[w].pc.e)
    case SendFails(w) => w in s.waiters && s.waiters[w].pc.Sending?
    case ContextDone(w) => w in s.waiters && s.waiters[w].pc.Waiting?
    case CloseSession(w) => w in s.waiters && s.waiters[w].pc.Closing?
    case FlushStart(w) => w in s.waiters && s.waiters[w].pc.Closed? && s.lock.None?
    case FlushOne(w, id) =>
      && w in s.waiters && s.waiters[w].pc.Flushing? && id in s.waiters[w].pc.todo
      && id in s.streams && IsRunning(s, s.streams[id].echo)
    case FlushEnd(w) => w in s.waiters && s.waiters[w].pc == Flushing({})
    case DeferredRemove(w) => w in s.waiters && s.waiters[w].pc.Ending?
    case OpenFlow(f, id) => f !in s.flows && s.lock.None? && id in s.streams
    case Deliver(f, last) => f in s.flows && IsRunning(s, s.flows[f].echo)
    case EndFlow(f) => f in s.flows && s.lock.None?
    case ClientGone(e) => IsRunning(s, e)
  }

  predicate HasId(s: State, e: EchoRef) {
    e in s.handlers && !s.handlers[e].pc.Reading?
  }

  function IdOf(s: State, e: EchoRef): StreamId
    requires HasId(s, e)
  {
    s.handlers[e].pc.id
  }

  function At(s: State, w: nat, pc: WaiterPc): map<nat, Waiter>
    requires w in s.waiters
  {
    s.waiters[w := s.waiters[w].(pc := pc)]
  }

  function WithHandler(s: State, e: EchoRef, pc: HandlerPc): map<EchoRef, Handler>
    requires e in s.handlers
  {
    s.handlers[e := s.handlers[e].(pc := pc)]
  }

  function OfSession(s: State, sessionId: string): set<StreamId> {
    set id | id in s.streams && s.streams[id].sessionId == sessionId
  }

  function Apply(s: State, l: Label): State
    requires Enabled(s, l)
  {
    match l
    case Hello(key) => s.(sessions := s.sessions + {key}, usedSessions := s.usedSessions + {key.sessionId})
    case Touch(_, _) => s
    case Expire(keys) => s.(sessions := s.sessions - keys)
    case OpenWait(w, key) => s.(waiters := s.waiters[w := Waiter(key, Waiting)])
    case FindSession(e, key) => s.(handlers := s.handlers[e := Handler(key, Reading)])
    case Offer(e, id) => s.(handlers := WithHandler(s, e, Offering(id)), usedIds := s.usedIds + {id})
    case Take(w, e) =>
      s.(waiters := At(s, w, Taken(e)),
         handlers := WithHandler(s, e, Running(s.handlers[e].pc.id)),
         takes := s.takes + [e])
    case Register(w) =>
      var e := s.waiters[w].pc.e;
      s.(waiters := At(s, w, Sending(e)),
         streams := s.streams[IdOf(s, e) := Entry(s.waiters[w].key.sessionId, e)],
         registered := s.registered + {IdOf(s, e)})
    case SendOk(w) => s.(waiters := At(s, w, Waiting), sent := s.sent + {IdOf(s, s.waiters[w].pc.e)})
    case SendFails(w) => s.(waiters := At(s, w, Closing))
    case ContextDone(w) => s.(waiters := At(s, w, Closing))
    case CloseSession(w) => s.(waiters := At(s, w, Closed), sessions := s.sessions - {s.waiters[w].key})
    case FlushStart(w) =>
      s.(waiters := At(s, w, Flushing(OfSession(s, s.waiters[w].key.sessionId))), lock := Some(w))
    case FlushOne(w, id) =>
      var e := s.streams[id].echo;
      s.(waiters := At(s, w, Flushing(s.waiters[w].pc.todo - {id})),
         handlers := WithHandler(s, e, Finished(s.handlers[e].pc.id)),
         streams := s.streams - {id}, flushed := s.flushed + {id})
    case FlushEnd(w) => s.(waiters := At(s, w, Ending), lock := None)
    case DeferredRemove(w) => s.(waiters := At(s, w, Gone), sessions := s.sessions - {s.waiters[w].key})
    case OpenFlow(f, id) => s.(flows := s.flows[f := Flow(id, s.streams[id].echo)])
    case Deliver(f, last) =>
      var e := s.flows[f].echo;
      s.(deliveries := s.deliveries + [Delivery(e, s.flows[f].quoted)],
         handlers := if last then WithHandler(s, e, Finished(s.handlers[e].pc.id)) else s.handlers)
    case EndFlow(f) =>
      s.(flows := s.flows - {f}, streams := s.streams - {s.flows[f].quoted}, ended := s.ended + {s.flows[f].quoted})
    case ClientGone(e) => s.(handlers := WithHandler(s, e, Finished(s.handlers[e].pc.id)))
  }

  ghost predicate Run(s: State, ls: seq<Label>, t: State)
    decreases |ls|
  {
    if ls == [] then s == t else Enabled(s, ls[0]) && Run(Apply(s, ls[0]), ls[1..], t)
  }

  // ------------------------------------------------------------------------
  // Identities
  // ------------------------------------------------------------------------

  predicate WasTaken(s: State, e: EchoRef) {
    e in s.handlers && (s.handlers[e].pc.Running? || s.handlers[e].pc.Finished?)
  }

  ghost predicate IdsDistinct(s: State) {
    && (forall e :: HasId(s, e) ==> IdOf(s, e) in s.usedIds)
    && (forall e, e' :: HasId(s, e) && HasId(s, e') && IdOf(s, e) == IdOf(s, e') ==> e == e')
  }

  /** Echo `e` belongs to a request that was taken, and `id` is its stream ID. */
  ghost predicate Names(s: State, id: StreamId, e: EchoRef) {
    WasTaken(s, e) && IdOf(s, e) == id
  }

  ghost predicate StreamsMatch(s: State) {
    forall id :: id in s.streams ==> EntryMatches(s, id, s.streams[id])
  }

  ghost predicate FlowsMatch(s: State) {
    forall f :: f in s.flows ==> Names(s, s.flows[f].quoted, s.flows[f].echo)
  }

  ghost predicate DeliveriesMatch(s: State) {
    forall i :: 0 <= i < |s.deliveries| ==> Names(s, s.deliveries[i].quoted, s.deliveries[i].handler)
  }

  /** A waiter that holds a request holds one that was taken, from its own session. */
  ghost predicate HoldsOwn(s: State) {
    forall w :: w in s.waiters && (s.waiters[w].pc.Taken? || s.waiters[w].pc.Sending?) ==>
      WasTaken(s, s.waiters[w].pc.e) && s.handlers[s.waiters[w].pc.e].key == s.waiters[w].key
  }

  ghost predicate TakesMatch(s: State) {
    && (forall i :: 0 <= i < |s.takes| ==> WasTaken(s, s.takes[i]))
    && (forall i, j :: 0 <= i < j < |s.takes| ==> s.takes[i] != s.takes[j])
  }

  /** Stream IDs, echoes and requests go together wherever they are kept. */
  ghost predicate Matched(s: State) {
    IdsDistinct(s) && StreamsMatch(s) && FlowsMatch(s) && DeliveriesMatch(s) && HoldsOwn(s) && TakesMatch(s)
  }

  /** A handler keeps its session and, once it has one, its ID; and a request once taken stays taken. */
  ghost predicate HandlersGrow(s: State, t: State) {
    forall e :: e in s.handlers ==> e in t.handlers && Grows(s.handlers[e], t.handlers[e])
  }

  predicate Grows(h: Handler, h': Handler) {
    && h'.key == h.key
    && (!h.pc.Reading? ==> !h'.pc.Reading? && h'.pc.id == h.pc.id)
    && (h.pc.Running? || h.pc.Finished? ==> h'.pc.Running? || h'.pc.Finished?)
  }

  lemma HandlersStep(s: State, l: Label)
    requires Enabled(s, l)
    ensures HandlersGrow(s, Apply(s, l))
  {
    match l {
      case Offer(e, id) => OneGrows(s.handlers, e, Offering(id));
      case Take(w, e) => OneGrows(s.handlers, e, Running(s.handlers[e].pc.id));
      case FlushOne(w, id) =>
        var e := s.streams[id].echo;
        OneGrows(s.handlers, e, Finished(s.handlers[e].pc.id));
      case Deliver(f, last) =>
        var e := s.flows[f].echo;
        OneGrows(s.handlers, e, Finished(s.handlers[e].pc.id));
      case ClientGone(e) => OneGrows(s.handlers, e, Finished(s.handlers[e].pc.id));
      case _ =>
    }
  }

  lemma OneGrows(handlers: map<EchoRef, Handler>, e: EchoRef, pc: HandlerPc)
    requires e in handlers && Grows(handlers[e], handlers[e].(pc := pc))
    ensures var t := handlers[e := handlers[e].(pc := pc)];
      forall e' :: e' in handlers ==> e' in t && Grows(handlers[e'], t[e'])
  {
  }

  lemma IdsDistinctStep(s: State, l: Label)
    requires IdsDistinct(s) && Enabled(s, l)
    ensures IdsDistinct(Apply(s, l))
  {
    var t := Apply(s, l);
    HandlersStep(s, l);
    assert s.usedIds <= t.usedIds;
    assert forall e :: HasId(t, e) ==>
      if l.Offer? && e == l.e then IdOf(t, e) == l.id else HasId(s, e) && IdOf(s, e) == IdOf(t, e);
  }

  /** An entry of the stream table that its echo's handler agrees with. */
  ghost predicate EntryMatches(s: State, id: StreamId, entry: Entry) {
    Names(s, id, entry.echo) && s.handlers[entry.echo].key.sessionId == entry.sessionId
  }

  lemma EntryKeeps(s: State, t: State, id: StreamId, entry: Entry)
    requires HandlersGrow(s, t) && EntryMatches(s, id, entry)
    ensures EntryMatches(t, id, entry)
  {
  }

  lemma StreamsMatchStep(s: State, l: Label)
    requires StreamsMatch(s) && HoldsOwn(s) && Enabled(s, l)
    ensures StreamsMatch(Apply(s, l))
  {
    var t := Apply(s, l);
    HandlersStep(s, l);
    forall id | id in t.streams ensures EntryMatches(t, id, t.streams[id]) {
      if id in s.streams && t.streams[id] == s.streams[id] {
        EntryKeeps(s, t, id, s.streams[id]);
      } else {
        NewEntry(s, l, id);
      }
    }
  }

  lemma NewEntry(s: State, l: Label, id: StreamId)
    requires HoldsOwn(s) && Enabled(s, l) && id in Apply(s, l).streams
    requires !(id in s.streams && Apply(s, l).streams[id] == s.streams[id])
    ensures l.Register? && EntryMatches(Apply(s, l), id, Apply(s, l).streams[id])
  {
  }

  lemma FlowsMatchStep(s: State, l: Label)
    requires FlowsMatch(s) && StreamsMatch(s) && Enabled(s, l)
    ensures FlowsMatch(Apply(s, l))
  {
    var t := Apply(s, l);
    FlowsStep(s, l);
    forall f | f in t.flows ensures Names(t, t.flows[f].quoted, t.flows[f].echo) {
      if l.OpenFlow? && f == l.f {
        assert EntryMatches(s, l.id, s.streams[l.id]);
      }
      NamesStay(s, l, t.flows[f].quoted, t.flows[f].echo);
    }
  }

  lemma NamesStay(s: State, l: Label, id: StreamId, e: EchoRef)
    requires Enabled(s, l) && Names(s, id, e)
    ensures Names(Apply(s, l), id, e)
  {
    HandlersStep(s, l);
  }

  lemma FlowsStep(s: State, c: Label)
    requires Enabled(s, c)
    ensures Apply(s, c).flows ==
      if c.OpenFlow? then s.flows[c.f := Flow(c.id, s.streams[c.id].echo)]
      else if c.EndFlow? then s.flows - {c.f} else s.flows
    ensures c.OpenFlow? ==> c.f !in s.flows
  {
  }

  lemma DeliveriesMatchStep(s: State, l: Label)
    requires DeliveriesMatch(s) && FlowsMatch(s) && Enabled(s, l)
    ensures DeliveriesMatch(Apply(s, l))
  {
    HandlersStep(s, l);
  }

  lemma HoldsOwnStep(s: State, l: Label)
    requires HoldsOwn(s) && Enabled(s, l)
    ensures HoldsOwn(Apply(s, l))
  {
    var t := Apply(s, l);
    HandlersStep(s, l);
    forall w | w in t.waiters && (t.waiters[w].pc.Taken? || t.waiters[w].pc.Sending?)
      ensures WasTaken(t, t.waiters[w].pc.e) && t.handlers[t.waiters[w].pc.e].key == t.waiters[w].key
    {
      if l.Take? && l.w == w {
      } else {
        assert w in s.waiters && (s.waiters[w].pc.Taken? || s.waiters[w].pc.Sending?);
        assert s.waiters[w].pc.e == t.waiters[w].pc.e;
      }
    }
  }

  lemma TakesMatchStep(s: State, l: Label)
    requires TakesMatch(s) && Enabled(s, l)
    ensures TakesMatch(Apply(s, l))
  {
    HandlersStep(s, l);
  }

  lemma MatchedStep(s: State, l: Label)
    requires Matched(s) && Enabled(s, l)
    ensures Matched(Apply(s, l))
  {
    IdsDistinctStep(s, l);
    StreamsMatchStep(s, l);
    FlowsMatchStep(s, l);
    DeliveriesMatchStep(s, l);
    HoldsOwnStep(s, l);
    TakesMatchStep(s, l);
  }

  // ------------------------------------------------------------------------
  // The life of a stream ID
  // ------------------------------------------------------------------------

  ghost predicate RegisteredNamed(s: State) {
    forall id :: id in s.registered ==> exists e :: Names(s, id, e)
  }

  predicate Holds(s: State, w: nat) {
    w in s.waiters && s.waiters[w].pc.Taken?
  }

  /** A waiter about to register a request is the only one, and the request's ID was never registered. */
  ghost predicate HeldOnce(s: State) {
    && (forall w :: Holds(s, w) && HasId(s, s.waiters[w].pc.e) ==> IdOf(s, s.waiters[w].pc.e) !in s.registered)
    && (forall w, w' :: Holds(s, w) && Holds(s, w') && s.waiters[w].pc.e == s.waiters[w'].pc.e ==> w == w')
  }

  /** What is sent was registered, and what was registered is in the table, or its flow ended, or it was flushed. */
  ghost predicate Accounted(s: State) {
    && (forall w :: w in s.waiters && s.waiters[w].pc.Sending? && HasId(s, s.waiters[w].pc.e) ==>
          IdOf(s, s.waiters[w].pc.e) in s.registered)
    && s.streams.Keys <= s.registered && s.sent <= s.registered
    && s.registered <= s.streams.Keys + s.ended + s.flushed
  }

  lemma RegisteredNamedStep(s: State, l: Label)
    requires RegisteredNamed(s) && HoldsOwn(s) && Enabled(s, l)
    ensures RegisteredNamed(Apply(s, l))
  {
    var t := Apply(s, l);
    HandlersStep(s, l);
    forall id | id in t.registered ensures exists e :: Names(t, id, e) {
      if id in s.registered {
        var e :| Names(s, id, e);
        assert Names(t, id, e);
      } else {
        assert Names(t, id, s.waiters[l.w].pc.e);
      }
    }
  }

  lemma OfferedUnregistered(s: State, e: EchoRef)
    requires RegisteredNamed(s) && IdsDistinct(s) && HasId(s, e) && !WasTaken(s, e)
    ensures IdOf(s, e) !in s.registered
  {
  }

  /** A waiter that holds a request after a step took it in that step or held it before. */
  lemma HeldBefore(s: State, l: Label, w: nat)
    requires Enabled(s, l) && Holds(Apply(s, l), w)
    ensures var e := Apply(s, l).waiters[w].pc.e; l == Take(w, e) || (Holds(s, w) && s.waiters[w].pc.e == e)
    ensures l.Register? ==> l.w != w
  {
  }

  lemma HeldUnregistered(s: State, l: Label, w: nat)
    requires HeldOnce(s) && HoldsOwn(s) && RegisteredNamed(s) && IdsDistinct(s) && Enabled(s, l)
    requires Holds(Apply(s, l), w) && HasId(Apply(s, l), Apply(s, l).waiters[w].pc.e)
    ensures var t := Apply(s, l); IdOf(t, t.waiters[w].pc.e) !in t.registered
  {
    HeldBefore(s, l, w);
    if l.Take? && l.w == w {
      HeldTaken(s, w, l.e);
    } else if l.Register? {
      HeldAtRegister(s, l.w, w);
    } else {
      HeldOn(s, l, w);
    }
  }

  lemma HeldTaken(s: State, w: nat, e: EchoRef)
    requires RegisteredNamed(s) && IdsDistinct(s) && Enabled(s, Take(w, e))
    ensures var t := Apply(s, Take(w, e)); HasId(t, e) && IdOf(t, e) !in t.registered
  {
    OfferedUnregistered(s, e);
  }

  lemma HeldAtRegister(s: State, v: nat, w: nat)
    requires HeldOnce(s) && HoldsOwn(s) && IdsDistinct(s) && v != w
    requires Enabled(s, Register(v)) && Holds(s, w) && HasId(s, s.waiters[w].pc.e)
    ensures var t := Apply(s, Register(v)); IdOf(t, t.waiters[w].pc.e) !in t.registered
  {
    HeldApart(s, v, w);
  }

  lemma HeldOn(s: State, l: Label, w: nat)
    requires HeldOnce(s) && HoldsOwn(s) && Enabled(s, l) && !l.Register?
    requires Holds(s, w) && Holds(Apply(s, l), w) && s.waiters[w].pc.e == Apply(s, l).waiters[w].pc.e
    ensures var t := Apply(s, l); HasId(t, t.waiters[w].pc.e) && IdOf(t, t.waiters[w].pc.e) !in t.registered
  {
    var e := s.waiters[w].pc.e;
    HandlersStep(s, l);
    assert WasTaken(s, e) && IdOf(s, e) !in s.registered;
    assert Apply(s, l).registered == s.registered;
  }

  /** Two waiters never hold requests with the same ID. */
  lemma HeldApart(s: State, v: nat, w: nat)
    requires HeldOnce(s) && HoldsOwn(s) && IdsDistinct(s) && v != w
    requires Holds(s, v) && Holds(s, w) && HasId(s, s.waiters[w].pc.e)
    ensures WasTaken(s, s.waiters[w].pc.e) && IdOf(s, s.waiters[w].pc.e) !in s.registered
    ensures HasId(s, s.waiters[v].pc.e) ==> IdOf(s, s.waiters[w].pc.e) != IdOf(s, s.waiters[v].pc.e)
  {
    assert s.waiters[v].pc.e != s.waiters[w].pc.e;
  }

  lemma HeldByOne(s: State, l: Label, w: nat, w': nat)
    requires HeldOnce(s) && HoldsOwn(s) && Enabled(s, l)
    requires Holds(Apply(s, l), w) && Holds(Apply(s, l), w')
    requires Apply(s, l).waiters[w].pc.e == Apply(s, l).waiters[w'].pc.e
    ensures w == w'
  {
    HeldBefore(s, l, w);
    HeldBefore(s, l, w');
    assert Holds(s, w) ==> WasTaken(s, s.waiters[w].pc.e);
    assert Holds(s, w') ==> WasTaken(s, s.waiters[w'].pc.e);
  }

  lemma HeldOnceStep(s: State, l: Label)
    requires HeldOnce(s) && HoldsOwn(s) && RegisteredNamed(s) && IdsDistinct(s) && Enabled(s, l)
    ensures HeldOnce(Apply(s, l))
  {
    var t := Apply(s, l);
    forall w: nat | Holds(t, w) && HasId(t, t.waiters[w].pc.e) ensures IdOf(t, t.waiters[w].pc.e) !in t.registered {
      HeldUnregistered(s, l, w);
    }
    forall w: nat, w': nat | Holds(t, w) && Holds(t, w') && t.waiters[w].pc.e == t.waiters[w'].pc.e ensures w == w' {
      HeldByOne(s, l, w, w');
    }
  }

  lemma AccountedStep(s: State, l: Label)
    requires Accounted(s) && HoldsOwn(s) && Enabled(s, l)
    ensures Accounted(Apply(s, l))
  {
    var t := Apply(s, l);
    forall w | w in t.waiters && t.waiters[w].pc.Sending? && HasId(t, t.waiters[w].pc.e)
      ensures IdOf(t, t.waiters[w].pc.e) in t.registered
    {
      SendingRegistered(s, l, w);
    }
    TablesStep(s, l);
  }

  lemma SendingRegistered(s: State, l: Label, w: nat)
    requires Accounted(s) && HoldsOwn(s) && Enabled(s, l)
    requires var t := Apply(s, l); w in t.waiters && t.waiters[w].pc.Sending? && HasId(t, t.waiters[w].pc.e)
    ensures var t := Apply(s, l); IdOf(t, t.waiters[w].pc.e) in t.registered
  {
    HandlersStep(s, l);
    if !(l.Register? && l.w == w) {
      assert w in s.waiters && s.waiters[w].pc.Sending? && s.waiters[w].pc.e == Apply(s, l).waiters[w].pc.e;
      assert HasId(s, s.waiters[w].pc.e);
    }
  }

  /** The step registers stream `id`. */
  predicate Registers(s: State, c: Label, id: StreamId) {
    c.Register? && c.w in s.waiters && s.waiters[c.w].pc.Taken? && HasId(s, s.waiters[c.w].pc.e)
    && IdOf(s, s.waiters[c.w].pc.e) == id
  }

  /** The step takes stream `id` out of the table. */
  predicate Unlists(s: State, c: Label, id: StreamId) {
    (c.EndFlow? && c.f in s.flows && s.flows[c.f].quoted == id) || (c.FlushOne? && c.id == id)
  }

  lemma TableStep(s: State, c: Label, id: StreamId)
    requires Enabled(s, c)
    ensures id in Apply(s, c).registered <==> id in s.registered || Registers(s, c, id)
    ensures id in Apply(s, c).streams <==> (id in s.streams && !Unlists(s, c, id)) || Registers(s, c, id)
    ensures id in Apply(s, c).ended + Apply(s, c).flushed <==> id in s.ended + s.flushed || Unlists(s, c, id)
  {
  }

  lemma TablesStep(s: State, l: Label)
    requires Accounted(s) && Enabled(s, l) && HoldsOwn(s)
    ensures var t := Apply(s, l);
      && t.streams.Keys <= t.registered && t.sent <= t.registered
      && t.registered <= t.streams.Keys + t.ended + t.flushed
  {
    var t := Apply(s, l);
    forall id {
      TableStep(s, l, id);
    }
    SentStep(s, l);
  }

  lemma SentStep(s: State, l: Label)
    requires Accounted(s) && Enabled(s, l) && HoldsOwn(s)
    ensures s.sent <= Apply(s, l).sent <= s.registered <= Apply(s, l).registered
  {
    if l.SendOk? {
      assert HasId(s, s.waiters[l.w].pc.e);
    }
  }

  // ------------------------------------------------------------------------
  // Sessions, their waiters and their streams
  // ------------------------------------------------------------------------

  /** A waiter that has not yet flushed its session's streams. */
  predicate Live(s: State, w: nat) {
    w in s.waiters && !s.waiters[w].pc.Ending? && !s.waiters[w].pc.Gone?
  }

  predicate LiveFor(s: State, w: nat, sessionId: string) {
    Live(s, w) && s.waiters[w].key.sessionId == sessionId
  }

  /** Every stream in the table belongs to a session with a live waiter. */
  ghost predicate Guarded(s: State) {
    forall id :: id in s.streams ==> exists w: nat :: LiveFor(s, w, s.streams[id].sessionId)
  }

  predicate FlushingAt(s: State, w: nat) {
    w in s.waiters && s.waiters[w].pc.Flushing?
  }

  /** The lock is with the one flush that is going on, and that flush has its session's streams left to do. */
  ghost predicate LockHeld(s: State) {
    && (forall w: nat :: FlushingAt(s, w) ==> s.lock == Some(w))
    && (s.lock.Some? ==> FlushingAt(s, s.lock.value))
    && (forall w: nat :: FlushingAt(s, w) ==> s.waiters[w].pc.todo == OfSession(s, s.waiters[w].key.sessionId))
  }

  ghost predicate SessionsUsed(s: State) {
    && (forall key :: key in s.sessions ==> key.sessionId in s.usedSessions)
    && (forall e :: e in s.handlers ==> s.handlers[e].key.sessionId in s.usedSessions)
  }

  lemma SessionsUsedStep(s: State, l: Label)
    requires SessionsUsed(s) && Enabled(s, l)
    ensures SessionsUsed(Apply(s, l))
  {
    var t := Apply(s, l);
    forall e | e in t.handlers ensures t.handlers[e].key.sessionId in t.usedSessions {
      if e in s.handlers {
        HandlersStep(s, l);
      }
    }
  }

  /** Only the lock's holder flushes, and it goes on with what is left of its session. */
  lemma FlushGoesOn(s: State, l: Label, w: nat)
    requires LockHeld(s) && Enabled(s, l) && FlushingAt(s, w) && FlushingAt(Apply(s, l), w)
    ensures Apply(s, l).lock == Some(w)
    ensures Apply(s, l).waiters[w].pc.todo == OfSession(Apply(s, l), Apply(s, l).waiters[w].key.sessionId)
  {
    assert s.lock == Some(w);
    if l.FlushEnd? || l.FlushOne? {
      assert FlushingAt(s, l.w);
    }
  }

  lemma LockHeldStep(s: State, l: Label)
    requires LockHeld(s) && Enabled(s, l)
    ensures LockHeld(Apply(s, l))
  {
    var t := Apply(s, l);
    forall w: nat | FlushingAt(t, w)
      ensures t.lock == Some(w) && t.waiters[w].pc.todo == OfSession(t, t.waiters[w].key.sessionId)
    {
      if FlushingAt(s, w) {
        FlushGoesOn(s, l, w);
      } else {
        assert l == FlushStart(w);
      }
    }
    if l.FlushEnd? || l.FlushOne? {
      assert FlushingAt(s, l.w);
    }
  }

  lemma GuardedStep(s: State, l: Label)
    requires Guarded(s) && LockHeld(s) && Enabled(s, l)
    ensures Guarded(Apply(s, l))
  {
    var t := Apply(s, l);
    forall id | id in t.streams ensures exists w: nat :: LiveFor(t, w, t.streams[id].sessionId) {
      if l.Register? && !(id in s.streams && t.streams[id] == s.streams[id]) {
        assert LiveFor(t, l.w, t.streams[id].sessionId);
      } else {
        var w :| LiveFor(s, w, s.streams[id].sessionId);
        GuardStays(s, l, w, id);
        assert LiveFor(t, w, t.streams[id].sessionId);
      }
    }
  }

  /** The waiter that ends its flush has none of its session's streams left in the table. */
  lemma GuardStays(s: State, l: Label, w: nat, id: StreamId)
    requires LockHeld(s) && Enabled(s, l) && id in s.streams && LiveFor(s, w, s.streams[id].sessionId)
    ensures LiveFor(Apply(s, l), w, s.streams[id].sessionId)
  {
    assert FlushingAt(s, w) ==> id in OfSession(s, s.waiters[w].key.sessionId);
    WaiterStays(s, l, w);
  }

  lemma WaiterStays(s: State, l: Label, w: nat)
    requires Enabled(s, l) && Live(s, w)
    ensures w in Apply(s, l).waiters && Apply(s, l).waiters[w].key == s.waiters[w].key
    ensures Live(Apply(s, l), w) || s.waiters[w].pc == Flushing({})
  {
  }

  // ------------------------------------------------------------------------
  // The whole invariant
  // ------------------------------------------------------------------------

  ghost predicate Inv(s: State) {
    && Matched(s) && RegisteredNamed(s) && HeldOnce(s) && Accounted(s)
    && LockHeld(s) && Guarded(s) && SessionsUsed(s)
  }

  lemma InvStep(s: State, l: Label)
    requires Inv(s) && Enabled(s, l)
    ensures Inv(Apply(s, l))
  {
    MatchedStep(s, l);
    RegisteredNamedStep(s, l);
    HeldOnceStep(s, l);
    AccountedStep(s, l);
    LockHeldStep(s, l);
    GuardedStep(s, l);
    SessionsUsedStep(s, l);
  }

  lemma {:induction false} InvRun(s: State, ls: seq<Label>, t: State)
    requires Inv(s) && Run(s, ls, t)
    ensures Inv(t)
    decreases |ls|
  {
    if ls != [] {
      InvStep(s, ls[0]);
      InvRun(Apply(s, ls[0]), ls[1..], t);
    }
  }

  lemma InvReached(ls: seq<Label>, s: State)
    requires Run(Start(), ls, s)
    ensures Inv(s)
  {
    InvRun(Start(), ls, s);
  }
}
