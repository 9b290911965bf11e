/** The generators of apps/: which object each one builds from the spec, with the
    names, selectors and cross-references its template writes. */
module Apps {
  import opened Types
  import opened Defaults

  datatype CrKey = CrKey(ns: string, name: string)

  datatype Kind = StatefulSets | Deployments | Services | Ingresses
  datatype Key = Key(kind: Kind, ns: string, name: string)

  /** A place in the cluster: a Service by its name, and the port if one is written with it. */
  datatype Endpoint = Endpoint(host: string, port: Opt<nat>)

  /** An environment value: literal text, a downward-API field, or text around an endpoint. */
  datatype EnvValue = Plain(text: string) | Field(path: string) | Host(before: string, at: Endpoint, after: string)
  datatype EnvEntry = EnvEntry(name: string, value: EnvValue)

  datatype Amounts = Amounts(cpuRequest: string, memoryRequest: string, cpuLimit: string, memoryLimit: string)
  datatype Meta = Meta(ns: string, name: string, app: string, component: string, labels: Dict, annotations: Dict)
  datatype ContainerPort = ContainerPort(name: string, number: nat)
  datatype Container = Container(
    name: string, image: string, pullPolicy: string, command: EnvValue, ports: seq<ContainerPort>,
    env: seq<EnvEntry>, amounts: Amounts, preStop: string)

  /** A Service sends a port on to a container port, given by its number or by its name. */
  datatype PortRef = Number(number: nat) | Named(name: string)
  datatype ServicePort = ServicePort(port: nat, target: PortRef)
  datatype Rule = Rule(host: string, path: string, pathType: string, backend: string, port: nat)

  datatype Manifest =
    | StatefulSet(meta: Meta, serviceName: string, replicas: int, matchApp: string, podApp: string,
                  container: Container, claim: Opt<Volume>)
    | Deployment(meta: Meta, replicas: int, matchApp: string, podApp: string, container: Container)
    | Service(meta: Meta, selectorApp: string, ports: seq<ServicePort>)
    | Ingress(meta: Meta, apiVersion: string, className: string, tlsSecret: string, tlsHosts: seq<string>,
              rules: seq<Rule>)

  /** What the model takes from libraries: whether a template renders and decodes,
      and how a quantity of a resource list prints. */
  datatype Library = Library(renders: Manifest -> bool, quantity: (Dict, string) -> string)

  function KindOf(m: Manifest): Kind {
    match m
    case StatefulSet(_, _, _, _, _, _, _) => StatefulSets
    case Deployment(_, _, _, _, _) => Deployments
    case Service(_, _, _) => Services
    case Ingress(_, _, _, _, _, _) => Ingresses
  }

  function KeyOf(m: Manifest): Key {
    Key(KindOf(m), m.meta.ns, m.meta.name)
  }

  /** Selectors, match labels and pod labels all carry the object's own name. */
  predicate Labelled(m: Manifest, key: Key) {
    && KeyOf(m) == key
    && (m.StatefulSet? ==> m.matchApp == m.podApp == m.serviceName == key.name)
    && (m.Deployment? ==> m.matchApp == m.podApp == key.name)
    && (m.Service? ==> m.selectorApp == key.name)
  }

  /** Parsing, executing and decoding a template either yields the object or an error. */
  function Rendered(lib: Library, m: Manifest): Opt<Manifest> {
    if lib.renders(m) then Val(m) else Nil
  }

  function UserEnv(env: seq<EnvVar>): seq<EnvEntry> {
    seq(|env|, i requires 0 <= i < |env| => EnvEntry(env[i].name, Plain(env[i].value)))
  }

  function AmountsOf(lib: Library, r: Resources, cpuRequest: string, memoryRequest: string,
                     cpuLimit: string, memoryLimit: string): Amounts {
    Amounts(ValueOrDefault(lib.quantity(r.requests, "cpu"), cpuRequest),
            ValueOrDefault(lib.quantity(r.requests, "memory"), memoryRequest),
            ValueOrDefault(lib.quantity(r.limits, "cpu"), cpuLimit),
            ValueOrDefault(lib.quantity(r.limits, "memory"), memoryLimit))
  }

  function ImageOf(image: Image, repository: string, tag: string): string {
    ValueOrDefault(image.repository, repository) + ":" + ValueOrDefault(image.tag, tag)
  }

  /** A volume claim is written only when a size is given. */
  function ClaimOf(size: string, storageClass: string): Opt<Volume> {
    if size != "" then Val(Volume(storageClass, size)) else Nil
  }

  const NO_COMMAND := Plain("")
  const NODE_NAME := EnvEntry("node.name", Field("metadata.name"))

  // ---------- apps/elastic.go

  const ES_CONTAINER_PORTS := [ContainerPort("rest", 9200), ContainerPort("inter-node", 9300)]
  const ES_SERVICE_PORTS := [ServicePort(9200, Number(9200)), ServicePort(9300, Number(9300))]

  function GenerateElasticsearchConfig(lib: Library, k: CrKey, spec: Spec): (m: Opt<Manifest>)
    ensures m.Val? ==> Labelled(m.value, Key(StatefulSets, k.ns, "es-" + k.name))
  {
    var es := spec.axonops.elastic;
    Rendered(lib, StatefulSet(
      Meta(k.ns, "es-" + k.name, "es-" + k.name, "elasticsearch",
           spec.axonops.server.labels, spec.axonops.server.annotations),
      "es-" + k.name, 1, "es-" + k.name, "es-" + k.name,
      Container("elasticsearch",
                ImageOf(es.image, "docker.elastic.co/elasticsearch/elasticsearch", "7.17.0"), "", NO_COMMAND,
                ES_CONTAINER_PORTS,
                [EnvEntry("cluster.name", Plain(ValueOrDefault(es.clusterName, k.name))), NODE_NAME,
                 EnvEntry("ES_JAVA_OPTS", Plain(ValueOrDefault(es.javaOpts, "-Xms512m -Xmx512m"))),
                 EnvEntry("discovery.type", Plain("single-node"))] + UserEnv(Items(es.env)),
                AmountsOf(lib, es.resources, "500m", "1Gi", "1000m", "2Gi"), ""),
      ClaimOf(es.volume.size, es.volume.storageClass)))
  }

  function GenerateElasticsearchServiceConfig(lib: Library, k: CrKey, spec: Spec): (m: Opt<Manifest>)
    ensures m.Val? ==> Labelled(m.value, Key(Services, k.ns, "es-" + k.name))
  {
    Rendered(lib, Service(
      Meta(k.ns, "es-" + k.name, "es-" + k.name, "elasticsearch",
           spec.axonops.server.labels, spec.axonops.server.annotations),
      "es-" + k.name, ES_SERVICE_PORTS))
  }

  // ---------- apps/dashboard.go

  const DS_CONTAINER_PORTS := [ContainerPort("http", 3000)]
  const DS_SERVICE_PORTS := [ServicePort(3000, Number(3000))]

  function GenerateDashboardConfig(lib: Library, k: CrKey, spec: Spec): (m: Opt<Manifest>)
    ensures m.Val? ==> Labelled(m.value, Key(Deployments, k.ns, "ds-" + k.name))
  {
    var ds := spec.axonops.dashboard;
    Rendered(lib, Deployment(
      Meta(k.ns, "ds-" + k.name, "ds-" + k.name, "dashboard", ds.labels, ds.annotations),
      1, "ds-" + k.name, "ds-" + k.name,
      Container("axon-dash",
                ImageOf(ds.image, "registry.axonops.com/axonops-public/axonops-docker/axon-dash", "latest"), "",
                Host("private_endpoints: http://", Endpoint("as-" + k.name, Val(8080)), ""), DS_CONTAINER_PORTS,
                [NODE_NAME] + UserEnv(Items(ds.env)),
                AmountsOf(lib, ds.resources, "500m", "256Mi", "1000m", "512Mi"), "")))
  }

  function GenerateDashboardServiceConfig(lib: Library, k: CrKey, spec: Spec): (m: Opt<Manifest>)
    ensures m.Val? ==> Labelled(m.value, Key(Services, k.ns, "ds-" + k.name))
  {
    var ds := spec.axonops.dashboard;
    Rendered(lib, Service(
      Meta(k.ns, "ds-" + k.name, "ds-" + k.name, "dashboard", ds.labels, ds.annotations),
      "ds-" + k.name, DS_SERVICE_PORTS))
  }

  /** The template function `default d v`: v unless v is empty. */
  function TemplateDefault(d: string, v: string): string {
    if v == "" then d else v
  }

  /** The Ingress, one rule a host; the template is empty unless it is enabled.  The
      template passes the arguments of `default` for the path and the path type the wrong
      way round. */
  function GenerateDashboardIngressConfig(lib: Library, k: CrKey, spec: Spec): (m: Opt<Manifest>)
    ensures m.Val? ==> Labelled(m.value, Key(Ingresses, k.ns, "ds-" + k.name))
  {
    var ing := spec.axonops.dashboard.ingress;
    var hosts := Items(ing.hosts);
    var path := ValueOrDefault(ing.path, "/");
    if !ValueOrDefaultBool(ing.enabled, false) then Nil else
    Rendered(lib, Ingress(
      Meta(k.ns, "ds-" + k.name, "ds-" + k.name, "dashboard", ing.labels, ing.annotations),
      TemplateDefault("networking.k8s.io/v1", ValueOrDefault(ing.apiVersion, "networking.k8s.io/v1")),
      ValueOrDefault(ing.className, ""), k.name + "-tls", hosts,
      seq(|hosts|, i requires 0 <= i < |hosts| =>
        Rule(hosts[i], TemplateDefault(path, "/"), TemplateDefault("Exact", "Prefix"), "ds-" + k.name, 3000))))
  }

  // ---------- apps/axon-server.go

  const AS_CONTAINER_PORTS := [ContainerPort("api", 8080), ContainerPort("agent", 1888), ContainerPort("metrics", 6060)]
  const AS_SERVICE_PORTS := [ServicePort(8080, Number(8080)), ServicePort(1888, Number(1888)),
                             ServicePort(6060, Number(6060))]

  /** The entries the generator appends when metrics are stored in Cassandra; the first names a host. */
  function MetricsEntries(name: string, metricsEnabled: bool): seq<EnvEntry> {
    if metricsEnabled then
      [EnvEntry("CQL_HOSTS", Host("", Endpoint("ca-metrics-" + name, Nil), "")),
       EnvEntry("CQL_LOCAL_DC", Plain("axonops1"))]
    else []
  }

  /** The same as the list of names and values that the generator builds. */
  function ServerEnv(name: string, env: seq<EnvVar>, metricsEnabled: bool): seq<EnvVar> {
    env + if metricsEnabled then [EnvVar("CQL_HOSTS", "ca-metrics-" + name), EnvVar("CQL_LOCAL_DC", "axonops1")] else []
  }

  function GenerateServerConfig(lib: Library, k: CrKey, spec: Spec): (m: Opt<Manifest>)
    ensures m.Val? ==> Labelled(m.value, Key(StatefulSets, k.ns, "as-" + k.name))
  {
    var srv := spec.axonops.server;
    Rendered(lib, StatefulSet(
      Meta(k.ns, "as-" + k.name, "as-" + k.name, "axon-server", srv.labels, srv.annotations),
      "as-" + k.name, 1, "as-" + k.name, "as-" + k.name,
      Container("axon-server",
                ImageOf(srv.image, "registry.axonops.com/axonops-public/axonops-docker/axon-server", "latest"), "",
                NO_COMMAND, AS_CONTAINER_PORTS,
                [EnvEntry("ELASTIC_HOSTS", Host("http://", Endpoint("es-" + k.name, Val(9200)), "")), NODE_NAME]
                + UserEnv(Items(srv.env)) + MetricsEntries(k.name, srv.metricsEnabled),
                AmountsOf(lib, srv.resources, "250m", "256Mi", "1000m", "512Mi"), ""),
      Nil))
  }

  function GenerateServerServiceConfig(lib: Library, k: CrKey, spec: Spec): (m: Opt<Manifest>)
    ensures m.Val? ==> Labelled(m.value, Key(Services, k.ns, "as-" + k.name))
  {
    var srv := spec.axonops.server;
    Rendered(lib, Service(
      Meta(k.ns, "as-" + k.name, "as-" + k.name, "axon-server", srv.labels, srv.annotations),
      "as-" + k.name, AS_SERVICE_PORTS))
  }

  // ---------- apps/cassandra.go

  const CA_CONTAINER_PORTS := [ContainerPort("cql", 9042), ContainerPort("jmx", 7199),
                               ContainerPort("intra", 7000), ContainerPort("tls", 7001)]
  const CA_SERVICE_PORTS := [ServicePort(7000, Named("intra")), ServicePort(7001, Named("tls")),
                             ServicePort(7199, Named("jmx")), ServicePort(9042, Named("cql"))]

  function CassandraEnv(name: string, ns: string, c: CassandraSpec): seq<EnvEntry> {
    [EnvEntry("CASSANDRA_CLUSTER_NAME", Plain(ValueOrDefault(c.clusterName, name))),
     EnvEntry("CASSANDRA_SEEDS",
              Host("ca-" + name + "-0.", Endpoint("ca-" + name, Nil), "." + ns + ".svc.cluster.local")),
     EnvEntry("CASSANDRA_ENDPOINT_SNITCH", Plain("GossipingPropertyFileSnitch")),
     EnvEntry("CASSANDRA_DC", Plain(ValueOrDefault(c.dc, "dc1"))),
     EnvEntry("CASSANDRA_RACK", Plain("rack1")),
     EnvEntry("CASSANDRA_BROADCAST_RPC_ADDRESS", Plain("127.0.0.1")),
     EnvEntry("CASSANDRA_NATIVE_TRANSPORT_PORT", Plain("9042")),
     EnvEntry("MAX_HEAP_SIZE", Plain(ValueOrDefault(c.heapSize, "512M"))),
     EnvEntry("HEAP_NEWSIZE", Plain("50m"))]
  }

  function AgentEnv(name: string, c: CassandraSpec): seq<EnvEntry> {
    [EnvEntry("AXON_AGENT_SERVER_HOST", Host("", Endpoint("as-" + name, Nil), "")),
     EnvEntry("AXON_AGENT_SERVER_PORT", Plain("1888")),
     EnvEntry("AXON_AGENT_ORG", Plain("developer")),
     EnvEntry("AXON_AGENT_TLS_MODE", Plain("none")),
     EnvEntry("AXON_AGENT_LOG_OUTPUT", Plain("file")), NODE_NAME,
     EnvEntry("ES_JAVA_OPTS", Plain(ValueOrDefault(c.javaOpts, "-Xms512m -Xmx512m")))]
  }

  function GenerateCassandraConfig(lib: Library, name: string, ns: string, size: string, storageClass: string,
                                   c: CassandraSpec): (m: Opt<Manifest>)
    ensures m.Val? ==> Labelled(m.value, Key(StatefulSets, ns, "ca-" + name))
  {
    Rendered(lib, StatefulSet(
      Meta(ns, "ca-" + name, "ds-" + name, "cassandra", c.labels, c.annotations),
      "ca-" + name, ValueOrDefaultInt(c.replicas, 1), "ca-" + name, "ca-" + name,
      Container("cassandra", ImageOf(c.image, "ghcr.io/axonops/cassandra", "5.0.2"),
                ValueOrDefault(c.pullPolicy, "IfNotPresent"), NO_COMMAND, CA_CONTAINER_PORTS,
                CassandraEnv(name, ns, c) + AgentEnv(name, c)
                + UserEnv(Items(c.env)),
                AmountsOf(lib, c.resources, "500m", "1Gi", "1000m", "2Gi"),
                if size != "" then "nodetool drain" else "nodetool decommission"),
      ClaimOf(size, storageClass)))
  }

  function GenerateCassandraServiceConfig(lib: Library, name: string, ns: string, labels: Dict,
                                          annotations: Dict): (m: Opt<Manifest>)
    ensures m.Val? ==> Labelled(m.value, Key(Services, ns, "ca-" + name))
  {
    Rendered(lib, Service(Meta(ns, "ca-" + name, "ds-" + name, "cassandra", labels, annotations),
                          "ca-" + name, CA_SERVICE_PORTS))
  }
}

/** The three defaulting helpers of utils/utils.go. */
module Defaults {
  function ValueOrDefault(value: string, default: string): string {
    if value == "" then default else value
  }

  function ValueOrDefaultInt(value: int, default: int): int {
    if value <= 0 then default else value
  }

  function ValueOrDefaultBool(value: bool, default: bool): bool {
    if !value then default else value
  }
}
