/** What the generated objects name and offer: the endpoints a workload or an Ingress talks
    to, the ports a Service sends on, and the ports a container listens on. */
module Network {
  import opened Types
  import opened Apps
  import opened Children
  import opened Defaults

  // ---------- what a child names

  function EndpointOf(v: EnvValue): set<Endpoint> {
    if v.Host? then {v.at} else {}
  }

  function EnvEndpoints(env: seq<EnvEntry>): set<Endpoint> {
    set e | e in env && e.value.Host? :: e.value.at
  }

  function Backends(rules: seq<Rule>): set<Endpoint> {
    set r | r in rules :: Endpoint(r.backend, Val(r.port))
  }

  /** The places an object names: governing Service, environment, command line, backends. */
  function Endpoints(m: Manifest): set<Endpoint> {
    match m
    case StatefulSet(_, serviceName, _, _, _, container, _) =>
      {Endpoint(serviceName, Nil)} + EnvEndpoints(container.env) + EndpointOf(container.command)
    case Deployment(_, _, _, _, container) => EnvEndpoints(container.env) + EndpointOf(container.command)
    case Service(_, _, _) => {}
    case Ingress(_, _, _, _, _, rules) => Backends(rules)
  }

  /** The user's entries are literal text: only the template's own entries name endpoints. */
  lemma TemplateEndpoints(own: seq<EnvEntry>, env: seq<EnvVar>)
    ensures EnvEndpoints(own + UserEnv(env)) == EnvEndpoints(own)
  {
  }

  lemma EnvEndpointsAppend(a: seq<EnvEntry>, b: seq<EnvEntry>)
    ensures EnvEndpoints(a + b) == EnvEndpoints(a) + EnvEndpoints(b)
  {
  }

  /** A list with one entry that names an endpoint. */
  lemma OneEndpoint(env: seq<EnvEntry>, i: nat)
    requires i < |env| && forall j :: 0 <= j < |env| ==> (env[j].value.Host? <==> j == i)
    ensures EnvEndpoints(env) == {env[i].value.at}
  {
    assert env[i] in env;
  }

  lemma ElasticEndpoints(lib: Library, k: CrKey, spec: Spec)
    ensures var m := GenerateElasticsearchConfig(lib, k, spec);
            m.Val? ==> Endpoints(m.value) == {Endpoint("es-" + k.name, Nil)}
  {
    var m := GenerateElasticsearchConfig(lib, k, spec);
    if m.Val? {
      var own := m.value.container.env[..4];
      assert m.value.container.env == own + UserEnv(Items(spec.axonops.elastic.env));
      TemplateEndpoints(own, Items(spec.axonops.elastic.env));
    }
  }

  lemma DashboardEndpoints(lib: Library, k: CrKey, spec: Spec)
    ensures var m := GenerateDashboardConfig(lib, k, spec);
            m.Val? ==> Endpoints(m.value) == {Endpoint("as-" + k.name, Val(8080))}
  {
    var m := GenerateDashboardConfig(lib, k, spec);
    if m.Val? {
      TemplateEndpoints([NODE_NAME], Items(spec.axonops.dashboard.env));
    }
  }

  lemma IngressEndpoints(lib: Library, k: CrKey, spec: Spec)
    ensures var m := GenerateDashboardIngressConfig(lib, k, spec);
            m.Val? ==> Endpoints(m.value) <= {Endpoint("ds-" + k.name, Val(3000))}
  {
  }

  /** Every host of an enabled Ingress gets one rule, at the path "/" with the type Prefix,
      whatever path and path type the spec asks for. */
  lemma IngressRules(lib: Library, k: CrKey, spec: Spec)
    requires GenerateDashboardIngressConfig(lib, k, spec).Val?
    ensures var rules := GenerateDashboardIngressConfig(lib, k, spec).value.rules;
            var hosts := Items(spec.axonops.dashboard.ingress.hosts);
            && |rules| == |hosts|
            && forall i :: 0 <= i < |hosts| ==> rules[i] == Rule(hosts[i], "/", "Prefix", "ds-" + k.name, 3000)
  {
    var path := spec.axonops.dashboard.ingress.path;
    assert TemplateDefault(ValueOrDefault(path, "/"), "/") == "/" && TemplateDefault("Exact", "Prefix") == "Prefix";
  }

  /** The rules follow a path, or a path type, if there is one to follow: nothing given means the default. */
  predicate Honours(rules: seq<Rule>, path: string, pathType: string) {
    forall r :: r in rules ==> (path != "" ==> r.path == path) && (pathType != "" ==> r.pathType == pathType)
  }

  /** What the spec asks for is honoured if and only if it asks for "/" and Prefix, or for nothing. */
  lemma PathHonouredIff(lib: Library, k: CrKey, spec: Spec)
    requires GenerateDashboardIngressConfig(lib, k, spec).Val? && Items(spec.axonops.dashboard.ingress.hosts) != []
    ensures var ing := spec.axonops.dashboard.ingress;
            Honours(GenerateDashboardIngressConfig(lib, k, spec).value.rules, ing.path, ing.pathType)
            <==> ing.path in ["", "/"] && ing.pathType in ["", "Prefix"]
  {
    hide GenerateDashboardIngressConfig;
    IngressRules(lib, k, spec);
    var rules := GenerateDashboardIngressConfig(lib, k, spec).value.rules;
    assert rules[0] in rules;
  }

  /** With metrics on, CQL_HOSTS names the metrics cluster's Service besides. */
  lemma ServerEndpoints(lib: Library, k: CrKey, spec: Spec)
    ensures var m := GenerateServerConfig(lib, k, spec);
            m.Val? ==> Endpoints(m.value) == {Endpoint("as-" + k.name, Nil), Endpoint("es-" + k.name, Val(9200))}
                                             + if MetricsOn(spec) then {Endpoint("ca-metrics-" + k.name, Nil)} else {}
  {
    hide UserEnv, EnvEndpoints, ImageOf, AmountsOf;
    var m := GenerateServerConfig(lib, k, spec);
    if m.Val? {
      var srv := spec.axonops.server;
      var own := [EnvEntry("ELASTIC_HOSTS", Host("http://", Endpoint("es-" + k.name, Val(9200)), "")), NODE_NAME];
      var more := MetricsEntries(k.name, srv.metricsEnabled);
      TemplateEndpoints(own, Items(srv.env));
      OneEndpoint(own, 0);
      MetricsEndpoints(k.name, srv.metricsEnabled);
      EnvEndpointsAppend(own + UserEnv(Items(srv.env)), more);
    }
  }

  lemma MetricsEndpoints(name: string, metricsEnabled: bool)
    ensures EnvEndpoints(MetricsEntries(name, metricsEnabled))
         == if metricsEnabled then {Endpoint("ca-metrics-" + name, Nil)} else {}
  {
    if metricsEnabled {
      OneEndpoint(MetricsEntries(name, metricsEnabled), 0);
    }
  }

  lemma CassandraEnvEndpoints(name: string, ns: string, c: CassandraSpec)
    ensures EnvEndpoints(CassandraEnv(name, ns, c)) == {Endpoint("ca-" + name, Nil)}
  {
    OneEndpoint(CassandraEnv(name, ns, c), 1);
  }

  lemma AgentEnvEndpoints(name: string, c: CassandraSpec)
    ensures EnvEndpoints(AgentEnv(name, c)) == {Endpoint("as-" + name, Nil)}
  {
    OneEndpoint(AgentEnv(name, c), 0);
  }

  lemma CassandraEndpoints(lib: Library, name: string, ns: string, size: string, storageClass: string, c: CassandraSpec)
    ensures var m := GenerateCassandraConfig(lib, name, ns, size, storageClass, c);
            m.Val? ==> Endpoints(m.value) == {Endpoint("ca-" + name, Nil), Endpoint("as-" + name, Nil)}
  {
    hide CassandraEnv, AgentEnv, UserEnv, EnvEndpoints, ImageOf, AmountsOf, ClaimOf;
    CassandraEnvEndpoints(name, ns, c);
    AgentEnvEndpoints(name, c);
    EnvEndpointsAppend(CassandraEnv(name, ns, c), AgentEnv(name, c));
    TemplateEndpoints(CassandraEnv(name, ns, c) + AgentEnv(name, c), Items(c.env));
  }

  lemma ServiceEndpoints(m: Manifest)
    requires KindOf(m) == Services
    ensures Endpoints(m) == {}
  {
  }

  // ---------- Services, workloads and ports

  predicate IsService(x: Piece) {
    x == EsSvc || x == DsSvc || x == MtSvc || x == AsSvc || x == CaSvc
  }

  /** The workload a Service selects. */
  function WorkloadOf(x: Piece): Piece
    requires IsService(x)
  {
    match x
    case EsSvc => EsSts
    case DsSvc => DsDep
    case MtSvc => MtSts
    case AsSvc => AsSts
    case CaSvc => CaSts
  }

  function ServicePorts(q: Piece): seq<ServicePort> {
    match q
    case EsSvc => ES_SERVICE_PORTS
    case DsSvc => DS_SERVICE_PORTS
    case AsSvc => AS_SERVICE_PORTS
    case MtSvc => CA_SERVICE_PORTS
    case CaSvc => CA_SERVICE_PORTS
    case _ => []
  }

  function ContainerPorts(q: Piece): seq<ContainerPort> {
    match q
    case EsSts => ES_CONTAINER_PORTS
    case DsDep => DS_CONTAINER_PORTS
    case AsSts => AS_CONTAINER_PORTS
    case MtSts => CA_CONTAINER_PORTS
    case CaSts => CA_CONTAINER_PORTS
    case _ => []
  }

  /** An object has the ports of its block, whatever the spec. */
  predicate Ported(m: Manifest, q: Piece) {
    && (m.Service? ==> m.ports == ServicePorts(q))
    && (m.StatefulSet? || m.Deployment? ==> m.container.ports == ContainerPorts(q))
  }

  lemma ServicesPorted(lib: Library, k: CrKey, spec: Spec, q: Piece)
    requires Generate(lib, k, spec, q).Val? && KindOf(Generate(lib, k, spec, q).value) == Services
    ensures Ported(Generate(lib, k, spec, q).value, q)
  {
    hide GenerateElasticsearchConfig, GenerateDashboardConfig, GenerateServerConfig, GenerateCassandraConfig;
    hide GenerateDashboardIngressConfig;
  }

  lemma CassandraPorted(lib: Library, name: string, ns: string, size: string, storageClass: string, c: CassandraSpec)
    ensures var m := GenerateCassandraConfig(lib, name, ns, size, storageClass, c);
            m.Val? ==> m.value.StatefulSet? && m.value.container.ports == CA_CONTAINER_PORTS
  {
    hide CassandraEnv, AgentEnv, UserEnv, ImageOf, AmountsOf, ClaimOf;
  }

  lemma AxonOpsPorted(lib: Library, k: CrKey, spec: Spec)
    ensures var m := GenerateElasticsearchConfig(lib, k, spec);
            m.Val? ==> m.value.StatefulSet? && m.value.container.ports == ES_CONTAINER_PORTS
    ensures var m := GenerateDashboardConfig(lib, k, spec);
            m.Val? ==> m.value.Deployment? && m.value.container.ports == DS_CONTAINER_PORTS
    ensures var m := GenerateServerConfig(lib, k, spec);
            m.Val? ==> m.value.StatefulSet? && m.value.container.ports == AS_CONTAINER_PORTS
  {
    hide UserEnv, ImageOf, AmountsOf, ClaimOf, MetricsEntries;
  }

  lemma WorkloadsPorted(lib: Library, k: CrKey, spec: Spec, q: Piece)
    requires Generate(lib, k, spec, q).Val? && KindOf(Generate(lib, k, spec, q).value) != Services
    ensures Ported(Generate(lib, k, spec, q).value, q)
  {
    hide GenerateElasticsearchServiceConfig, GenerateDashboardServiceConfig, GenerateServerServiceConfig;
    hide GenerateCassandraServiceConfig, GenerateDashboardIngressConfig;
    hide GenerateElasticsearchConfig, GenerateDashboardConfig, GenerateServerConfig, GenerateCassandraConfig;
    hide ImageOf, AmountsOf, UserEnv;
    var metrics := spec.axonops.server.metricsCluster;
    var volume := metrics.volume;
    AxonOpsPorted(lib, k, spec);
    CassandraPorted(lib, k.name, k.ns, volume.size, volume.storageClass, spec.cassandra);
    CassandraPorted(lib, "metrics-" + k.name, k.ns, volume.size, volume.storageClass, metrics);
  }

  lemma GeneratePorted(lib: Library, k: CrKey, spec: Spec, q: Piece)
    ensures Generate(lib, k, spec, q).Val? ==> Ported(Generate(lib, k, spec, q).value, q)
  {
    hide Generate, Ported;
    if Generate(lib, k, spec, q).Val? {
      if KindOf(Generate(lib, k, spec, q).value) == Services {
        ServicesPorted(lib, k, spec, q);
      } else {
        WorkloadsPorted(lib, k, spec, q);
      }
    }
  }

  predicate Meets(target: PortRef, p: ContainerPort) {
    match target
    case Number(n) => p.number == n
    case Named(name) => p.name == name
  }

  /** A port of a Service arrives at container port p and at no other, and p has the same number. */
  predicate Arrives(sp: ServicePort, p: ContainerPort, ports: seq<ContainerPort>) {
    p in ports && p.number == sp.port && forall x :: x in ports ==> (Meets(sp.target, x) <==> x == p)
  }

  predicate Routed(sp: ServicePort, ports: seq<ContainerPort>) {
    exists p :: p in ports && Arrives(sp, p, ports)
  }

  /** The Service offers port n, and it is routed. */
  predicate Offers(ports: seq<ServicePort>, n: nat, to: seq<ContainerPort>) {
    exists sp :: sp in ports && sp.port == n && Routed(sp, to)
  }

  predicate AllRouted(ports: seq<ServicePort>, to: seq<ContainerPort>) {
    forall sp :: sp in ports ==> Routed(sp, to)
  }

  lemma CassandraPortArrives(sp: ServicePort)
    requires sp in CA_SERVICE_PORTS
    ensures exists i :: 0 <= i < |CA_CONTAINER_PORTS| && Arrives(sp, CA_CONTAINER_PORTS[i], CA_CONTAINER_PORTS)
  {
    var ports := CA_CONTAINER_PORTS;
    assert Arrives(sp, ports[0], ports) || Arrives(sp, ports[1], ports)
           || Arrives(sp, ports[2], ports) || Arrives(sp, ports[3], ports);
  }

  /** Every port of every Service arrives at exactly one port its workload listens on, of the same number. */
  lemma ServicesRouted(x: Piece)
    requires IsService(x)
    ensures AllRouted(ServicePorts(x), ContainerPorts(WorkloadOf(x)))
  {
    var ports := ContainerPorts(WorkloadOf(x));
    forall sp | sp in ServicePorts(x) ensures Routed(sp, ports) {
      assert exists i :: 0 <= i < |ports| && Arrives(sp, ports[i], ports) by {
        match x {
          case EsSvc => assert Arrives(sp, ports[0], ports) || Arrives(sp, ports[1], ports);
          case DsSvc => assert Arrives(sp, ports[0], ports);
          case AsSvc =>
            assert Arrives(sp, ports[0], ports) || Arrives(sp, ports[1], ports) || Arrives(sp, ports[2], ports);
          case _ => CassandraPortArrives(sp);
        }
      }
    }
  }

  /** The endpoint is the resource's Service x, at a port that is offered. */
  predicate OwnEndpoint(k: CrKey, x: Piece, e: Endpoint) {
    && IsService(x) && e.host == Target(k, x).name
    && (e.port.Val? ==> Offers(ServicePorts(x), e.port.value, ContainerPorts(WorkloadOf(x))))
  }

  lemma Offered(x: Piece, sp: ServicePort)
    requires IsService(x) && sp in ServicePorts(x)
    ensures Offers(ServicePorts(x), sp.port, ContainerPorts(WorkloadOf(x)))
  {
    ServicesRouted(x);
  }

  /** The metrics cluster's agent is pointed at a Service of this name. */
  function AgentEndpoint(k: CrKey): Endpoint {
    Endpoint("as-" + ("metrics-" + k.name), Nil)
  }

  /** Block q's object names Service x; the metrics Service is named by the metrics cluster
      itself and, with metrics on, by the server. */
  predicate Names(k: CrKey, spec: Spec, q: Piece, x: Piece, e: Endpoint) {
    OwnEndpoint(k, x, e) && (x == MtSvc ==> q == MtSts || (q == AsSts && MetricsOn(spec)))
  }

  /** The endpoints of every generated object are the resource's own, but for the agent's. */
  lemma EndpointsAreOwn(lib: Library, k: CrKey, spec: Spec, q: Piece, e: Endpoint)
    requires Generate(lib, k, spec, q).Val? && e in Endpoints(Generate(lib, k, spec, q).value)
    ensures (q == MtSts && e == AgentEndpoint(k)) || exists x :: Names(k, spec, q, x, e)
  {
    hide Endpoints, GenerateElasticsearchConfig, GenerateDashboardConfig, GenerateServerConfig, GenerateCassandraConfig;
    hide GenerateElasticsearchServiceConfig, GenerateDashboardServiceConfig, GenerateServerServiceConfig;
    hide GenerateCassandraServiceConfig, GenerateDashboardIngressConfig, Offers;
    var m := Generate(lib, k, spec, q).value;
    var volume := spec.axonops.server.metricsCluster.volume;
    match q {
      case EsSts =>
        ElasticEndpoints(lib, k, spec);
        assert Names(k, spec, q, EsSvc, e);
      case DsDep =>
        DashboardEndpoints(lib, k, spec);
        Offered(AsSvc, ServicePort(8080, Number(8080)));
        assert Names(k, spec, q, AsSvc, e);
      case AsSts =>
        ServerEndpoints(lib, k, spec);
        Offered(EsSvc, ServicePort(9200, Number(9200)));
        MetricsName(k);
        assert Names(k, spec, q, AsSvc, e) || Names(k, spec, q, EsSvc, e) || Names(k, spec, q, MtSvc, e);
      case MtSts =>
        CassandraEndpoints(lib, "metrics-" + k.name, k.ns, volume.size, volume.storageClass,
                           spec.axonops.server.metricsCluster);
        assert e == AgentEndpoint(k) || Names(k, spec, q, MtSvc, e);
      case CaSts =>
        CassandraEndpoints(lib, k.name, k.ns, volume.size, volume.storageClass, spec.cassandra);
        assert Names(k, spec, q, AsSvc, e) || Names(k, spec, q, CaSvc, e);
      case DsIng =>
        IngressEndpoints(lib, k, spec);
        Offered(DsSvc, ServicePort(3000, Number(3000)));
        assert Names(k, spec, q, DsSvc, e);
      case _ => ServiceEndpoints(m);
    }
  }

  lemma MetricsName(k: CrKey)
    ensures "ca-metrics-" + k.name == Target(k, MtSvc).name
  {
    assert "ca-metrics-" + k.name == "ca-" + ("metrics-" + k.name);
  }

  /** The agent's endpoint is named, and with metrics on so is the metrics Service, by the server. */
  lemma MetricsAreNamed(lib: Library, k: CrKey, spec: Spec, q: Piece)
    requires Generate(lib, k, spec, q).Val?
    ensures var endpoints := Endpoints(Generate(lib, k, spec, q).value);
            && (q == MtSts ==> AgentEndpoint(k) in endpoints)
            && (q == AsSts && MetricsOn(spec) ==> Endpoint(Target(k, MtSvc).name, Nil) in endpoints)
  {
    hide Endpoints, GenerateServerConfig, GenerateCassandraConfig;
    var volume := spec.axonops.server.metricsCluster.volume;
    MetricsName(k);
    if q == MtSts {
      CassandraEndpoints(lib, "metrics-" + k.name, k.ns, volume.size, volume.storageClass,
                         spec.axonops.server.metricsCluster);
    } else if q == AsSts {
      ServerEndpoints(lib, k, spec);
    }
  }
}
