/** The API handler up to the handover of its request (app/server/service_server.go:183-223). */
module Handling {
  import opened Wrappers
  import opened Tunnel
  import opened HeaderMap
  import opened Translation
  import opened Endpoints
  import opened Sessions

  /** The HTTP request: `body` is None if it cannot be read. */
  datatype HttpRequest = HttpRequest(httpMethod: string, uri: string, body: Option<Bytes>, headers: Header)

  /** The handler answers by itself, or has a request for a session. */
  datatype Handled = Answered(code: int) | Request(session: AgentContext, req: TunnelRequest)

  /**
    A request goes to a session of the agent it is addressed to that has the service configured, and says all the
    agent needs. Without such a session the answer is 502, and it is 503 exactly when there is one but the body
    cannot be read or a header cannot be sent.
   */
  method RunAPIHandler(agents: AgentSessions, target: SessionSearch, r: HttpRequest, m: Mutation, streamId: StreamId)
    returns (h: Handled)
    requires agents.Valid()
    ensures h == Answered(502) <==>
      forall k, e :: k in agents.agents && k.agentId == target.agentId && e in agents.agents[k].endpoints ==>
        !(e.configured && e.name == target.serviceName && e.typ == target.serviceType)
    ensures h.Answered? ==> h.code == 502 || h.code == 503
    ensures h == Answered(503) && r.body.Some? ==>
      m.Registered? && exists k :: k in r.headers && EqualFold("X-Spinnaker-User", k)
                                   && (r.headers[k] == [] || m.sign(r.headers[k][0]).None?)
    ensures h.Request? ==> r.body.Some? && Translates(m, r.headers, h.req.headers)
    ensures h.Request? ==>
      && h.session.key in agents.agents && agents.agents[h.session.key] == h.session
      && h.session.key.agentId == target.agentId
      && (exists e :: e in h.session.endpoints
            && e.configured && e.name == target.serviceName && e.typ == target.serviceType)
      && h.req.streamId == streamId && h.req.name == target.serviceName && h.req.typ == target.serviceType
      && h.req.httpMethod == r.httpMethod && h.req.uri == r.uri && h.req.body == r.body.value
  {
    var session := agents.Find(target);
    if session.None? {
      return Answered(502);
    }
    if r.body.None? {
      return Answered(503);
    }
    var headers := HTTPHeadersToPB(m, r.headers);
    if headers.Failure? {
      return Answered(503);
    }
    var req := TunnelRequest(
      streamId, target.serviceName, target.serviceType, r.httpMethod, r.uri, r.body.value, headers.value);
    return Request(session.value, req);
  }

  /** The agent whose advertised endpoints the session keeps finds an endpoint for the request's name and type. */
  lemma {:induction false} AgentFindsIt(eps: seq<ConfiguredEndpoint>, stored: seq<Endpoint>, target: SessionSearch)
    requires |stored| == |eps| && forall i :: 0 <= i < |eps| ==> stored[i] == Known(eps[i])
    requires exists e :: e in stored && e.configured && e.name == target.serviceName && e.typ == target.serviceType
    ensures FirstNamed(eps, target.serviceName, target.serviceType).Some?
  {
    var e :| e in stored && e.configured && e.name == target.serviceName && e.typ == target.serviceType;
    var i :| 0 <= i < |stored| && stored[i] == e;
    assert Serves(stored[i], target.serviceName, target.serviceType);
    RoutedIsFound(eps, stored, target.serviceName, target.serviceType);
  }
}
