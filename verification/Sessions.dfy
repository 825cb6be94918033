/** The controller's session table (app/server/sessions.go), as values and as the class that updates it in place. */
module Sessions {
  import opened Wrappers
  import opened Endpoints

  datatype AgentKey = AgentKey(agentId: string, sessionId: string)

  datatype SessionSearch = SessionSearch(agentId: string, serviceName: string, serviceType: string)

  /** What the protocol reads of an AgentContext. */
  datatype Session = Session(endpoints: seq<Endpoint>, lastUse: int)

  type Table = map<AgentKey, Session>

  /** The test in expireOldSessions. */
  predicate Overdue(s: Session, now: int, idleTimeout: int) {
    s.lastUse + idleTimeout < now
  }

  function Unexpired(t: Table, now: int, idleTimeout: int): Table {
    map k | k in t && !Overdue(t[k], now, idleTimeout) :: t[k]
  }

  // ------------------------------------------------------------------------

  class AgentContext {
    const key: AgentKey
    const endpoints: seq<Endpoint>
    var lastUse: int

    constructor (key: AgentKey, endpoints: seq<Endpoint>, now: int)
      ensures this.key == key && this.endpoints == endpoints && lastUse == now
    {
      this.key, this.endpoints := key, endpoints;
      lastUse := now;
    }

    function Value(): Session reads this { Session(endpoints, lastUse) }

    /** The inner loop of `find`. */
    method Offers(target: SessionSearch) returns (found: bool)
      ensures found <==>
        (exists e :: e in endpoints && e.configured && e.name == target.serviceName && e.typ == target.serviceType)
    {
      for i := 0 to |endpoints|
        invariant forall j :: 0 <= j < i ==> !Serves(endpoints[j], target.serviceName, target.serviceType)
      {
        if Serves(endpoints[i], target.serviceName, target.serviceType) {
          return true;
        }
      }
      return false;
    }
  }

  class AgentSessions {
    var agents: map<AgentKey, AgentContext>

    /** Every session sits under its own key. */
    ghost predicate Valid()
      reads this, agents.Values
    {
      forall k :: k in agents ==> agents[k].key == k
    }

    ghost function View(): Table
      reads this, agents.Values
    {
      map k | k in agents :: agents[k].Value()
    }

    constructor ()
      ensures Valid() && View() == map[]
    {
      agents := map[];
    }

    method RegisterSession(agentId: string, sessionId: string, pbs: seq<EndpointHealth>, now: int)
      returns (session: AgentContext)
      requires Valid()
      modifies this
      ensures Valid() && fresh(session) && session.key == AgentKey(agentId, sessionId)
      ensures agents == old(agents)[session.key := session]
      ensures View() == old(View())[session.key := Session(AllStored(pbs), now)]
    {
      var eps := StoreEndpoints(pbs);
      session := new AgentContext(AgentKey(agentId, sessionId), eps, now);
      agents := agents[session.key := session];
    }

    method RemoveSession(session: AgentContext)
      requires Valid()
      modifies this
      ensures agents == old(agents) - {session.key}
      ensures Valid() && View() == old(View()) - {session.key}
    {
      agents := agents - {session.key};
    }

    method FindSession(key: AgentKey) returns (r: Option<AgentContext>)
      requires Valid()
      ensures r == if key in agents then Some(agents[key]) else None
    {
      if key in agents {
        return Some(agents[key]);
      }
      return None;
    }

    /**
      Ranges over the sessions in any order. A session found is the agent's and has the service configured; none
      is found exactly when no session is.
     */
    method Find(target: SessionSearch) returns (r: Option<AgentContext>)
      requires Valid()
      ensures r.Some? ==> r.value.key in agents && agents[r.value.key] == r.value
      ensures r.Some? ==> r.value.key.agentId == target.agentId
      ensures r.Some? ==>
        (exists e :: e in r.value.endpoints && e.configured
           && e.name == target.serviceName && e.typ == target.serviceType)
      ensures r.None? <==> forall k, e :: k in agents && k.agentId == target.agentId && e in agents[k].endpoints ==>
                !(e.configured && e.name == target.serviceName && e.typ == target.serviceType)
    {
      var todo := agents.Keys;
      while todo != {}
        invariant todo <= agents.Keys
        invariant forall k, e :: k in agents && k !in todo && k.agentId == target.agentId ==>
                    e in agents[k].endpoints ==>
                    !(e.configured && e.name == target.serviceName && e.typ == target.serviceType)
        decreases |todo|
      {
        var k :| k in todo;
        todo := todo - {k};
        var agent := agents[k];
        if agent.key.agentId == target.agentId {
          var found := agent.Offers(target);
          if found {
            return Some(agent);
          }
        }
      }
      return None;
    }

    /** Looks the session up again; a session removed meanwhile is a nil dereference. */
    method TouchSession(session: AgentContext, t: int) returns (panicked: bool)
      requires Valid()
      modifies agents.Values
      ensures Valid() && panicked == (session.key !in agents)
      ensures var before, key := old(View()), session.key;
        View() == if panicked then before else before[key := before[key].(lastUse := t)]
    {
      if session.key !in agents {
        return true;
      }
      agents[session.key].lastUse := t;
      assert forall k :: k in agents && k != session.key ==> agents[k] != agents[session.key];
      return false;
    }

    /** Ranges over the map in any order, deleting as it goes; removes exactly the overdue sessions. */
    method ExpireOldSessions(now: int, idleTimeout: int)
      requires Valid()
      modifies this
      ensures Valid() && View() == Unexpired(old(View()), now, idleTimeout)
      ensures forall k :: k in agents <==> k in old(agents) && old(agents[k].lastUse) + idleTimeout >= now
      ensures agents.Values <= old(agents.Values)
    {
      var todo := agents.Keys;
      while todo != {}
        invariant Valid() && todo <= agents.Keys
        invariant forall k :: k in agents ==> k in old(agents) && agents[k] == old(agents)[k]
        invariant forall k :: k in old(agents) && k !in todo ==>
                    (k in agents <==> !Overdue(old(agents)[k].Value(), now, idleTimeout))
        decreases |todo|
      {
        var k :| k in todo;
        todo := todo - {k};
        if agents[k].lastUse + idleTimeout < now {
          RemoveSession(agents[k]);
        }
      }
      assert View().Keys == Unexpired(old(View()), now, idleTimeout).Keys;
    }
  }
}
