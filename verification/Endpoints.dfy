/**
  What an agent advertises and dispatches to: ConfigureEndpoints and EndpointsToPB
  (internal/serviceconfig/endpoints.go), the list newSessionContext keeps (app/server/sessions.go:66-93)
  and findEndpoint (app/client/main.go:165-172).
 */
module Endpoints {
  import opened Wrappers

  type Annotations = map<string, string>

  /** `hasInstance`: is a request processor attached. */
  datatype ConfiguredEndpoint = ConfiguredEndpoint(
    name: string, typ: string, configured: bool, annotations: Annotations, namespaces: seq<string>, hasInstance: bool)

  datatype Annotation = Annotation(name: string, value: string)

  /** The protobuf message in Hello. */
  datatype EndpointHealth = EndpointHealth(
    name: string, typ: string, configured: bool, annotations: seq<Annotation>, namespaces: seq<string>)

  /** What the controller keeps. */
  datatype Endpoint = Endpoint(name: string, typ: string, configured: bool, annotations: Annotations)

  // ------------------------------------------------------------------------
  // Configuration
  // ------------------------------------------------------------------------

  datatype Namespace = Namespace(name: string, namespaces: seq<string>)

  /** An outgoing service; `works` is whether MakeGenericEndpoint reports it configured. */
  datatype Service = Service(
    enabled: bool, name: string, typ: string, annotations: Annotations, namespaces: seq<Namespace>, works: bool)

  function ForNamespace(s: Service, ns: Namespace): ConfiguredEndpoint {
    ConfiguredEndpoint(ns.name, s.typ, s.works, map[], ns.namespaces, s.works)
  }

  function ForNamespaces(s: Service, nss: seq<Namespace>): (r: seq<ConfiguredEndpoint>)
    ensures |r| == |nss| && forall i :: 0 <= i < |nss| ==> r[i] == ForNamespace(s, nss[i])
    decreases |nss|
  {
    if nss == [] then [] else ForNamespaces(s, nss[..|nss| - 1]) + [ForNamespace(s, nss[|nss| - 1])]
  }

  function Expanded(s: Service): seq<ConfiguredEndpoint> {
    if !s.enabled then []
    else if s.namespaces == [] then [ConfiguredEndpoint(s.name, s.typ, s.works, s.annotations, [], s.works)]
    else ForNamespaces(s, s.namespaces)
  }

  function AllExpanded(services: seq<Service>): seq<ConfiguredEndpoint>
    decreases |services|
  {
    if services == [] then []
    else AllExpanded(services[..|services| - 1]) + Expanded(services[|services| - 1])
  }

  method ConfigureEndpoints(services: seq<Service>) returns (endpoints: seq<ConfiguredEndpoint>)
    ensures endpoints == AllExpanded(services)
  {
    endpoints := [];
    for i := 0 to |services|
      invariant endpoints == AllExpanded(services[..i])
    {
      var service := services[i];
      ghost var before := endpoints;
      assert services[..i + 1][..i] == services[..i];
      if service.enabled {
        if |service.namespaces| == 0 {
          endpoints := endpoints +
            [ConfiguredEndpoint(service.name, service.typ, service.works, service.annotations, [], service.works)];
        } else {
          for j := 0 to |service.namespaces|
            invariant endpoints == before + ForNamespaces(service, service.namespaces[..j])
          {
            assert service.namespaces[..j + 1][..j] == service.namespaces[..j];
            endpoints := endpoints + [ForNamespace(service, service.namespaces[j])];
          }
          assert service.namespaces[..|service.namespaces|] == service.namespaces;
        }
      }
    }
    assert services[..|services|] == services;
  }

  lemma {:induction false} ExpandedFrom(services: seq<Service>, n: nat)
    requires n <= |services|
    ensures AllExpanded(services[..n]) <= AllExpanded(services)
    decreases |services|
  {
    if n < |services| {
      var m := |services| - 1;
      ExpandedFrom(services[..m], n);
      assert services[..m][..n] == services[..n];
      Longer(AllExpanded(services[..n]), AllExpanded(services[..m]), Expanded(services[m]));
    } else {
      assert services[..n] == services;
    }
  }

  lemma Longer(a: seq<ConfiguredEndpoint>, b: seq<ConfiguredEndpoint>, c: seq<ConfiguredEndpoint>)
    requires a <= b
    ensures a <= b + c
  {
  }

  lemma OneMoreService(services: seq<Service>, n: nat)
    requires n < |services|
    ensures AllExpanded(services[..n + 1]) == AllExpanded(services[..n]) + Expanded(services[n])
  {
    assert services[..n + 1][..n] == services[..n];
  }

  lemma At(a: seq<ConfiguredEndpoint>, b: seq<ConfiguredEndpoint>, all: seq<ConfiguredEndpoint>, i: nat)
    requires a + b <= all && i < |b|
    ensures |a| + i < |all| && all[|a| + i] == b[i]
  {
    assert all[|a| + i] == (a + b)[|a| + i];
  }

  /**
    The endpoints one service gives, in the order of the services: none if it is not enabled; one with its own
    name and annotations if it has no namespaces; else one for each, with that namespace's name and list and
    no annotations. Each is configured, and has a processor, exactly when the service could be configured.
   */
  lemma EndpointsOf(services: seq<Service>, n: nat, j: nat)
    requires n < |services|
    ensures var s, from := services[n], |AllExpanded(services[..n])|;
      |AllExpanded(services[..n + 1])|
      == from + if !s.enabled then 0 else if s.namespaces == [] then 1 else |s.namespaces|
    ensures var s, from := services[n], |AllExpanded(services[..n])|;
      s.enabled && s.namespaces == [] ==>
        from < |AllExpanded(services)|
        && AllExpanded(services)[from] == ConfiguredEndpoint(s.name, s.typ, s.works, s.annotations, [], s.works)
    ensures var s, from := services[n], |AllExpanded(services[..n])|;
      s.enabled && j < |s.namespaces| ==>
        from + j < |AllExpanded(services)|
        && AllExpanded(services)[from + j]
           == ConfiguredEndpoint(s.namespaces[j].name, s.typ, s.works, map[], s.namespaces[j].namespaces, s.works)
  {
    OneMoreService(services, n);
    ExpandedFrom(services, n + 1);
    var s := services[n];
    if s.enabled && s.namespaces == [] {
      At(AllExpanded(services[..n]), Expanded(s), AllExpanded(services), 0);
    } else if s.enabled && j < |s.namespaces| {
      At(AllExpanded(services[..n]), Expanded(s), AllExpanded(services), j);
    }
  }

  /** Does service `s` stand behind a (name, type) pair. */
  ghost predicate Provides(s: Service, name: string, typ: string) {
    && s.enabled && s.typ == typ
    && if s.namespaces == [] then s.name == name
       else exists i :: 0 <= i < |s.namespaces| && s.namespaces[i].name == name
  }

  ghost predicate Offered(eps: seq<ConfiguredEndpoint>, name: string, typ: string) {
    exists i :: 0 <= i < |eps| && eps[i].name == name && eps[i].typ == typ
  }

  lemma ExpandedOffers(s: Service, name: string, typ: string)
    ensures Offered(Expanded(s), name, typ) <==> Provides(s, name, typ)
    ensures forall i :: 0 <= i < |Expanded(s)| ==> Expanded(s)[i].configured == Expanded(s)[i].hasInstance == s.works
  {
    var eps := Expanded(s);
    if s.enabled && s.namespaces != [] && Provides(s, name, typ) {
      var i :| 0 <= i < |s.namespaces| && s.namespaces[i].name == name;
      assert eps[i].name == name;
    }
    if s.enabled && s.namespaces == [] && Provides(s, name, typ) {
      assert eps[0].name == name;
    }
  }

  /**
    An endpoint exists exactly for the pairs that an enabled service provides, under its own name or, if it has
    namespaces, under theirs; and an endpoint is configured exactly when a processor is attached.
   */
  lemma {:induction false} OfferedExactlyWhen(services: seq<Service>, name: string, typ: string)
    ensures Offered(AllExpanded(services), name, typ) <==> AnyProvides(services, name, typ)
    ensures forall e :: e in AllExpanded(services) ==> e.configured == e.hasInstance
    decreases |services|
  {
    if services != [] {
      var n := |services| - 1;
      OfferedExactlyWhen(services[..n], name, typ);
      ExpandedOffers(services[n], name, typ);
      OfferedConcat(AllExpanded(services[..n]), Expanded(services[n]), name, typ);
      AnyProvidesSnoc(services, name, typ);
    }
  }

  ghost predicate AnyProvides(services: seq<Service>, name: string, typ: string) {
    exists i :: 0 <= i < |services| && Provides(services[i], name, typ)
  }

  lemma AnyProvidesSnoc(services: seq<Service>, name: string, typ: string)
    requires services != []
    ensures var n := |services| - 1;
      AnyProvides(services, name, typ) <==> AnyProvides(services[..n], name, typ) || Provides(services[n], name, typ)
  {
    var n := |services| - 1;
    assert forall i :: 0 <= i < n ==> services[..n][i] == services[i];
  }

  lemma OfferedConcat(a: seq<ConfiguredEndpoint>, b: seq<ConfiguredEndpoint>, name: string, typ: string)
    ensures Offered(a + b, name, typ) <==> Offered(a, name, typ) || Offered(b, name, typ)
  {
    if Offered(a, name, typ) {
      var i :| 0 <= i < |a| && a[i].name == name && a[i].typ == typ;
      assert (a + b)[i] == a[i];
    }
    if Offered(b, name, typ) {
      var i :| 0 <= i < |b| && b[i].name == name && b[i].typ == typ;
      assert (a + b)[|a| + i] == b[i];
    }
  }

  // ------------------------------------------------------------------------
  // Advertisement
  // ------------------------------------------------------------------------

  /** A list of the entries of a map, each once, in some order. */
  ghost predicate Lists(l: seq<Annotation>, m: Annotations) {
    && (forall i, j :: 0 <= i < j < |l| ==> l[i].name != l[j].name)
    && (forall i :: 0 <= i < |l| ==> l[i].name in m && m[l[i].name] == l[i].value)
    && (forall k :: k in m ==> exists i :: 0 <= i < |l| && l[i].name == k)
  }

  ghost predicate Advertises(pb: EndpointHealth, ep: ConfiguredEndpoint) {
    && pb.name == ep.name && pb.typ == ep.typ && pb.configured == ep.configured && pb.namespaces == ep.namespaces
    && Lists(pb.annotations, ep.annotations)
  }

  method EndpointsToPB(endpoints: seq<ConfiguredEndpoint>) returns (pbs: seq<EndpointHealth>)
    ensures |pbs| == |endpoints| && forall i :: 0 <= i < |endpoints| ==> Advertises(pbs[i], endpoints[i])
    ensures forall i :: 0 <= i < |endpoints| ==>
      && pbs[i].name == endpoints[i].name && pbs[i].typ == endpoints[i].typ
      && pbs[i].configured == endpoints[i].configured && pbs[i].namespaces == endpoints[i].namespaces
  {
    pbs := [];
    for i := 0 to |endpoints|
      invariant |pbs| == i && forall j :: 0 <= j < i ==> Advertises(pbs[j], endpoints[j])
    {
      var ep := endpoints[i];
      var annotations := AnnotationsToPB(ep.annotations);
      pbs := pbs + [EndpointHealth(ep.name, ep.typ, ep.configured, annotations, ep.namespaces)];
    }
  }

  /** The inner loop, over a map in any order. */
  method AnnotationsToPB(m: Annotations) returns (l: seq<Annotation>)
    ensures Lists(l, m)
  {
    l := [];
    var todo := m.Keys;
    while todo != {}
      invariant todo <= m.Keys
      invariant Lists(l, m - todo)
      decreases |todo|
    {
      var k :| k in todo;
      ghost var done := m - todo;
      ghost var before := l;
      todo := todo - {k};
      l := l + [Annotation(k, m[k])];
      assert m - todo == done[k := m[k]];
      forall k' | k' in m - todo ensures exists i :: 0 <= i < |l| && l[i].name == k' {
        if k' == k {
          assert l[|before|].name == k;
        } else {
          var i :| 0 <= i < |before| && before[i].name == k';
          assert l[i].name == k';
        }
      }
    }
    assert m - todo == m;
  }

  /** The map the loop in newSessionContext builds; a later annotation of the same name wins. */
  function Collected(l: seq<Annotation>): Annotations
    decreases |l|
  {
    if l == [] then map[] else Collected(l[..|l| - 1])[l[|l| - 1].name := l[|l| - 1].value]
  }

  function Stored(pb: EndpointHealth): Endpoint {
    Endpoint(pb.name, pb.typ, pb.configured, Collected(pb.annotations))
  }

  function AllStored(pbs: seq<EndpointHealth>): (r: seq<Endpoint>)
    ensures |r| == |pbs| && forall i :: 0 <= i < |pbs| ==> r[i] == Stored(pbs[i])
  {
    seq(|pbs|, i requires 0 <= i < |pbs| => Stored(pbs[i]))
  }

  /** The endpoint part of newSessionContext. */
  method StoreEndpoints(pbs: seq<EndpointHealth>) returns (eps: seq<Endpoint>)
    ensures eps == AllStored(pbs)
  {
    eps := [];
    for i := 0 to |pbs|
      invariant |eps| == i && forall j :: 0 <= j < i ==> eps[j] == Stored(pbs[j])
    {
      var l := pbs[i].annotations;
      var annotations: Annotations := map[];
      for j := 0 to |l|
        invariant annotations == Collected(l[..j])
      {
        assert l[..j + 1][..j] == l[..j];
        annotations := annotations[l[j].name := l[j].value];
      }
      assert l[..|l|] == l;
      eps := eps + [Endpoint(pbs[i].name, pbs[i].typ, pbs[i].configured, annotations)];
    }
  }

  lemma {:induction false} CollectedIs(l: seq<Annotation>)
    requires forall i, j :: 0 <= i < j < |l| ==> l[i].name != l[j].name
    ensures forall i :: 0 <= i < |l| ==> l[i].name in Collected(l) && Collected(l)[l[i].name] == l[i].value
    ensures forall k :: k in Collected(l) ==> exists i :: 0 <= i < |l| && l[i].name == k
    decreases |l|
  {
    if l != [] {
      var n := |l| - 1;
      CollectedIs(l[..n]);
      assert forall i :: 0 <= i < n ==> l[..n][i] == l[i];
      forall k | k in Collected(l) ensures exists i :: 0 <= i < |l| && l[i].name == k {
        if k == l[n].name {
        } else {
          var i :| 0 <= i < n && l[..n][i].name == k;
          assert l[i].name == k;
        }
      }
    }
  }

  /** Of annotations of one name the last is kept, and no name but those that come. */
  lemma {:induction false} CollectedAt(l: seq<Annotation>, k: string)
    ensures k in Collected(l) <==> exists i :: 0 <= i < |l| && l[i].name == k
    ensures forall i :: 0 <= i < |l| && l[i].name == k && (forall j :: i < j < |l| ==> l[j].name != k) ==>
      Collected(l)[k] == l[i].value
    decreases |l|
  {
    if l != [] {
      var n := |l| - 1;
      CollectedAt(l[..n], k);
      assert forall i :: 0 <= i < n ==> l[..n][i] == l[i];
      assert (exists i :: 0 <= i < |l| && l[i].name == k) <==>
        l[n].name == k || exists i :: 0 <= i < n && l[..n][i].name == k;
    }
  }

  function Known(ep: ConfiguredEndpoint): Endpoint {
    Endpoint(ep.name, ep.typ, ep.configured, ep.annotations)
  }

  /** After Hello the controller knows each endpoint's name, type, configured flag and annotations, in order. */
  lemma AdvertisementArrives(eps: seq<ConfiguredEndpoint>, pbs: seq<EndpointHealth>)
    requires |pbs| == |eps| && forall i :: 0 <= i < |eps| ==> Advertises(pbs[i], eps[i])
    ensures |AllStored(pbs)| == |eps| && forall i :: 0 <= i < |eps| ==> AllStored(pbs)[i] == Known(eps[i])
  {
    forall i | 0 <= i < |eps| ensures Stored(pbs[i]) == Known(eps[i]) {
      var l, m := pbs[i].annotations, eps[i].annotations;
      assert Advertises(pbs[i], eps[i]);
      CollectedIs(l);
      assert Collected(l).Keys == m.Keys;
      assert Collected(l) == m;
    }
  }

  // ------------------------------------------------------------------------
  // Routing and dispatch
  // ------------------------------------------------------------------------

  /** The test in AgentSessions.find. */
  predicate Serves(ep: Endpoint, name: string, typ: string) {
    ep.configured && ep.name == name && ep.typ == typ
  }

  ghost predicate Routable(eps: seq<Endpoint>, name: string, typ: string) {
    exists i :: 0 <= i < |eps| && Serves(eps[i], name, typ)
  }

  predicate Named(ep: ConfiguredEndpoint, name: string, typ: string) {
    ep.name == name && ep.typ == typ
  }

  /** findEndpoint: the first endpoint of that name and type, configured or not. */
  method FindEndpoint(eps: seq<ConfiguredEndpoint>, name: string, typ: string) returns (at: Option<nat>)
    ensures at == FirstNamed(eps, name, typ)
    ensures at.Some? ==> at.value < |eps| && eps[at.value].name == name && eps[at.value].typ == typ
    ensures forall j :: 0 <= j < (if at.Some? then at.value else |eps|) ==> !(eps[j].name == name && eps[j].typ == typ)
  {
    for i := 0 to |eps|
      invariant forall j :: 0 <= j < i ==> !Named(eps[j], name, typ)
    {
      if Named(eps[i], name, typ) {
        FirstNamedAt(eps, name, typ, i);
        return Some(i);
      }
    }
    return None;
  }

  function FirstNamed(eps: seq<ConfiguredEndpoint>, name: string, typ: string): (at: Option<nat>)
    ensures at.Some? ==> at.value < |eps| && Named(eps[at.value], name, typ)
                         && forall j :: 0 <= j < at.value ==> !Named(eps[j], name, typ)
    ensures at.None? ==> forall j :: 0 <= j < |eps| ==> !Named(eps[j], name, typ)
    decreases |eps|
  {
    if eps == [] then None
    else if Named(eps[0], name, typ) then Some(0)
    else
      var rest := FirstNamed(eps[1..], name, typ);
      if rest.None? then None else Some(rest.value + 1)
  }

  lemma FirstNamedAt(eps: seq<ConfiguredEndpoint>, name: string, typ: string, i: nat)
    requires i < |eps| && Named(eps[i], name, typ) && forall j :: 0 <= j < i ==> !Named(eps[j], name, typ)
    ensures FirstNamed(eps, name, typ) == Some(i)
  {
  }

  /** No endpoint before `i` has its name and type. */
  ghost predicate IsFirst(eps: seq<ConfiguredEndpoint>, i: nat)
    requires i < |eps|
  {
    forall k :: 0 <= k < i ==> !Named(eps[k], eps[i].name, eps[i].typ)
  }

  /** The first of several endpoints of one name and type is configured if any of them is. */
  ghost predicate Unshadowed(eps: seq<ConfiguredEndpoint>) {
    forall i, j :: 0 <= i < j < |eps| && IsFirst(eps, i) && Named(eps[i], eps[j].name, eps[j].typ) && eps[j].configured
      ==> eps[i].configured
  }

  /** The agent dispatches to a configured endpoint whatever the controller routes to it. */
  ghost predicate DispatchesWhatIsRouted(eps: seq<ConfiguredEndpoint>, stored: seq<Endpoint>) {
    forall name, typ :: Routable(stored, name, typ) ==>
      FirstNamed(eps, name, typ).Some? && eps[FirstNamed(eps, name, typ).value].configured
  }

  /** A routed request is always found by the agent. */
  lemma {:induction false} RoutedIsFound(eps: seq<ConfiguredEndpoint>, stored: seq<Endpoint>, name: string, typ: string)
    requires |stored| == |eps| && forall i :: 0 <= i < |eps| ==> stored[i] == Known(eps[i])
    requires Routable(stored, name, typ)
    ensures FirstNamed(eps, name, typ).Some?
  {
    var i :| 0 <= i < |stored| && Serves(stored[i], name, typ);
    assert Named(eps[i], name, typ);
  }

  /**
    It is dispatched to a configured endpoint, for every routable name and type, exactly when no first endpoint
    of its name and type hides a configured one; so in particular when the pairs are unique.
   */
  lemma {:induction false} DispatchExactlyWhen(eps: seq<ConfiguredEndpoint>, stored: seq<Endpoint>)
    requires |stored| == |eps| && forall i :: 0 <= i < |eps| ==> stored[i] == Known(eps[i])
    ensures DispatchesWhatIsRouted(eps, stored) <==> Unshadowed(eps)
  {
    if Unshadowed(eps) {
      forall name, typ | Routable(stored, name, typ)
        ensures FirstNamed(eps, name, typ).Some? && eps[FirstNamed(eps, name, typ).value].configured
      {
        RoutedIsFound(eps, stored, name, typ);
        var j :| 0 <= j < |stored| && Serves(stored[j], name, typ);
        var at := FirstNamed(eps, name, typ).value;
        assert Named(eps[j], name, typ) && eps[j].configured;
        assert at <= j && IsFirst(eps, at);
      }
    }
    if DispatchesWhatIsRouted(eps, stored) {
      forall i, j | 0 <= i < j < |eps| && IsFirst(eps, i) && Named(eps[i], eps[j].name, eps[j].typ) && eps[j].configured
        ensures eps[i].configured
      {
        ShadowIsMet(eps, stored, i, j);
      }
    }
  }

  lemma {:induction false} ShadowIsMet(eps: seq<ConfiguredEndpoint>, stored: seq<Endpoint>, i: nat, j: nat)
    requires |stored| == |eps| && forall i :: 0 <= i < |eps| ==> stored[i] == Known(eps[i])
    requires DispatchesWhatIsRouted(eps, stored)
    requires i < j < |eps| && IsFirst(eps, i) && Named(eps[i], eps[j].name, eps[j].typ) && eps[j].configured
    ensures eps[i].configured
  {
    assert Serves(stored[j], eps[j].name, eps[j].typ);
    FirstNamedAt(eps, eps[j].name, eps[j].typ, i);
  }

  /** An unconfigured endpoint before a configured one of the same name is enough to break dispatch. */
  lemma ShadowExample(name: string, typ: string)
    ensures var eps := Shadowed(name, typ); !DispatchesWhatIsRouted(eps, [Known(eps[0]), Known(eps[1])])
  {
    var eps := Shadowed(name, typ);
    assert IsFirst(eps, 0) && Named(eps[0], eps[1].name, eps[1].typ);
    DispatchExactlyWhen(eps, [Known(eps[0]), Known(eps[1])]);
  }

  function Shadowed(name: string, typ: string): (eps: seq<ConfiguredEndpoint>)
    ensures |eps| == 2
  {
    [ConfiguredEndpoint(name, typ, false, map[], [], false), ConfiguredEndpoint(name, typ, true, map[], [], true)]
  }
}
