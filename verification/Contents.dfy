/** What the generated objects say: which slot of which object a field of the spec ends up in,
    and what stands there when the field is not given. */
module Contents {
  import opened Types
  import opened Apps
  import opened Children
  import opened Api
  import opened Convergence
  import opened Reconcile
  import opened Network
  import opened Outcomes
  import Fields

  /** What is given, and the default if nothing is. */
  predicate Takes(text: string, given: string, default: string) {
    (given != "" ==> text == given) && (given == "" ==> text == default)
  }

  predicate TakesImage(text: string, image: Image, repository: string, tag: string) {
    text == (if image.repository != "" then image.repository else repository) + ":"
            + (if image.tag != "" then image.tag else tag)
  }

  /** Requests and limits, of processor and memory. */
  predicate TakesAmounts(lib: Library, a: Amounts, r: Resources, default: Amounts) {
    && Takes(a.cpuRequest, lib.quantity(r.requests, "cpu"), default.cpuRequest)
    && Takes(a.memoryRequest, lib.quantity(r.requests, "memory"), default.memoryRequest)
    && Takes(a.cpuLimit, lib.quantity(r.limits, "cpu"), default.cpuLimit)
    && Takes(a.memoryLimit, lib.quantity(r.limits, "memory"), default.memoryLimit)
  }

  predicate TakesClaim(claim: Opt<Volume>, size: string, storageClass: string) {
    && (claim.Val? <==> size != "")
    && (claim.Val? ==> claim.value.size == size && claim.value.storageClass == storageClass)
  }

  predicate TakesMeta(m: Meta, k: CrKey, app: string, component: string, labels: Dict, annotations: Dict) {
    && m.ns == k.ns && m.app == app + k.name && m.component == component
    && m.labels == labels && m.annotations == annotations
  }

  predicate Carries(env: seq<EnvEntry>, name: string, text: string) {
    EnvEntry(name, Plain(text)) in env
  }

  /** An entry of that name says what is given, or the default. */
  predicate Sets(env: seq<EnvEntry>, name: string, given: string, default: string) {
    Carries(env, name, if given != "" then given else default)
  }

  /** After `own` entries of the template the user's follow, in order. */
  predicate ThenUsers(env: seq<EnvEntry>, own: nat, user: Env) {
    var list := Items(user);
    && own + |list| <= |env|
    && forall i :: 0 <= i < |list| ==> env[own + i] == EnvEntry(list[i].name, Plain(list[i].value))
  }

  lemma ImageTaken(image: Image, repository: string, tag: string)
    ensures TakesImage(ImageOf(image, repository, tag), image, repository, tag)
  {
  }

  lemma AmountsTaken(lib: Library, r: Resources, d: Amounts)
    ensures TakesAmounts(lib, AmountsOf(lib, r, d.cpuRequest, d.memoryRequest, d.cpuLimit, d.memoryLimit), r, d)
  {
  }

  const LARGE := Amounts(cpuRequest := "500m", memoryRequest := "1Gi", cpuLimit := "1000m", memoryLimit := "2Gi")
  const MEDIUM := LARGE.(memoryRequest := "256Mi", memoryLimit := "512Mi")
  const SMALL := MEDIUM.(cpuRequest := "250m")

  // ---------- Cassandra

  lemma CassandraEnvSays(name: string, ns: string, c: CassandraSpec)
    ensures var env := CassandraEnv(name, ns, c);
            && |env| == 9
            && Sets(env, "CASSANDRA_CLUSTER_NAME", c.clusterName, name)
            && EnvEntry("CASSANDRA_SEEDS", Host("ca-" + name + "-0.", Endpoint("ca-" + name, Nil),
                                                "." + ns + ".svc.cluster.local")) in env
            && Carries(env, "CASSANDRA_ENDPOINT_SNITCH", "GossipingPropertyFileSnitch")
            && Sets(env, "CASSANDRA_DC", c.dc, "dc1")
            && Carries(env, "CASSANDRA_RACK", "rack1")
            && Carries(env, "CASSANDRA_BROADCAST_RPC_ADDRESS", "127.0.0.1")
            && Carries(env, "CASSANDRA_NATIVE_TRANSPORT_PORT", "9042")
            && Sets(env, "MAX_HEAP_SIZE", c.heapSize, "512M")
            && Carries(env, "HEAP_NEWSIZE", "50m")
  {
    var env := CassandraEnv(name, ns, c);
    assert env[0] in env && env[1] in env && env[2] in env && env[3] in env && env[4] in env;
    assert env[5] in env && env[6] in env && env[7] in env && env[8] in env;
  }

  lemma AgentEnvSays(name: string, c: CassandraSpec)
    ensures var env := AgentEnv(name, c);
            && |env| == 7
            && EnvEntry("AXON_AGENT_SERVER_HOST", Host("", Endpoint("as-" + name, Nil), "")) in env
            && Carries(env, "AXON_AGENT_SERVER_PORT", "1888")
            && Carries(env, "AXON_AGENT_ORG", "developer")
            && Carries(env, "AXON_AGENT_TLS_MODE", "none")
            && Carries(env, "AXON_AGENT_LOG_OUTPUT", "file")
            && EnvEntry("node.name", Field("metadata.name")) in env
            && Sets(env, "ES_JAVA_OPTS", c.javaOpts, "-Xms512m -Xmx512m")
  {
    var env := AgentEnv(name, c);
    assert env[0] in env && env[1] in env && env[2] in env && env[3] in env && env[4] in env;
    assert env[5] in env && env[6] in env;
  }

  /** A Cassandra StatefulSet's environment: the template's sixteen entries and the user's. */
  lemma CassandraEnvironment(lib: Library, k: CrKey, size: string, storageClass: string, c: CassandraSpec)
    requires GenerateCassandraConfig(lib, k.name, k.ns, size, storageClass, c).Val?
    ensures var env := GenerateCassandraConfig(lib, k.name, k.ns, size, storageClass, c).value.container.env;
            && |env| == 16 + |Items(c.env)| && ThenUsers(env, 16, c.env)
            && Sets(env, "CASSANDRA_CLUSTER_NAME", c.clusterName, k.name)
            && Sets(env, "CASSANDRA_DC", c.dc, "dc1")
            && Sets(env, "MAX_HEAP_SIZE", c.heapSize, "512M")
            && Sets(env, "ES_JAVA_OPTS", c.javaOpts, "-Xms512m -Xmx512m")
            && Carries(env, "CASSANDRA_NATIVE_TRANSPORT_PORT", "9042")
            && Carries(env, "AXON_AGENT_SERVER_PORT", "1888")
  {
    hide GenerateCassandraConfig, CassandraEnv, AgentEnv, UserEnv, Carries, ThenUsers;
    var own := CassandraEnv(k.name, k.ns, c) + AgentEnv(k.name, c);
    CassandraEnvSays(k.name, k.ns, c);
    AgentEnvSays(k.name, c);
    EnvironmentParts(lib, k, size, storageClass, c);
    UsersFollow(own, c.env);
    EarlierCarries(CassandraEnv(k.name, k.ns, c), AgentEnv(k.name, c), UserEnv(Items(c.env)));
  }

  lemma EnvironmentParts(lib: Library, k: CrKey, size: string, storageClass: string, c: CassandraSpec)
    ensures var m := GenerateCassandraConfig(lib, k.name, k.ns, size, storageClass, c);
            m.Val? ==>
              m.value.container.env == CassandraEnv(k.name, k.ns, c) + AgentEnv(k.name, c) + UserEnv(Items(c.env))
  {
    hide CassandraEnv, AgentEnv, UserEnv, ImageOf, AmountsOf, ClaimOf;
  }

  lemma UsersFollow(own: seq<EnvEntry>, user: Env)
    ensures ThenUsers(own + UserEnv(Items(user)), |own|, user) && |UserEnv(Items(user))| == |Items(user)|
  {
  }

  lemma EarlierCarries(a: seq<EnvEntry>, b: seq<EnvEntry>, more: seq<EnvEntry>)
    ensures forall name, text :: Carries(a, name, text) || Carries(b, name, text) ==> Carries(a + b + more, name, text)
  {
  }

  /** The rest of a Cassandra StatefulSet. */
  lemma CassandraSays(lib: Library, k: CrKey, size: string, storageClass: string, c: CassandraSpec)
    requires GenerateCassandraConfig(lib, k.name, k.ns, size, storageClass, c).Val?
    ensures var m := GenerateCassandraConfig(lib, k.name, k.ns, size, storageClass, c).value;
            && TakesMeta(m.meta, k, "ds-", "cassandra", c.labels, c.annotations)
            && m.container.name == "cassandra"
            && TakesImage(m.container.image, c.image, "ghcr.io/axonops/cassandra", "5.0.2")
            && Takes(m.container.pullPolicy, c.pullPolicy, "IfNotPresent")
            && TakesAmounts(lib, m.container.amounts, c.resources, LARGE)
            && TakesClaim(m.claim, size, storageClass)
            && m.replicas >= 1
            && (c.replicas <= 0 ==> m.replicas == 1) && (c.replicas > 0 ==> m.replicas == c.replicas)
  {
    hide CassandraEnv, AgentEnv, UserEnv, ImageOf, AmountsOf, TakesImage, TakesAmounts;
    ImageTaken(c.image, "ghcr.io/axonops/cassandra", "5.0.2");
    AmountsTaken(lib, c.resources, LARGE);
  }

  /** Before it stops, a Cassandra node with a volume claim is drained, and one without leaves the ring. */
  lemma DrainsIff(lib: Library, name: string, ns: string, size: string, storageClass: string, c: CassandraSpec)
    requires GenerateCassandraConfig(lib, name, ns, size, storageClass, c).Val?
    ensures var m := GenerateCassandraConfig(lib, name, ns, size, storageClass, c).value;
            && (m.container.preStop == "nodetool drain" <==> m.claim.Val?)
            && (m.container.preStop == "nodetool decommission" <==> !m.claim.Val?)
  {
    hide CassandraEnv, AgentEnv, UserEnv, ImageOf, AmountsOf;
    assert "nodetool drain"[10] == 'r' && "nodetool decommission"[10] == 'e';
  }

  /** For both clusters that is decided by the size of the metrics cluster's volume, and by
      nothing the main cluster's own spec says. */
  lemma ClustersDrainIff(lib: Library, k: CrKey, spec: Spec, q: Piece)
    requires q == CaSts || q == MtSts
    ensures var m := Generate(lib, k, spec, q);
            var size := spec.axonops.server.metricsCluster.volume.size;
            m.Val? ==>
              && m.value.StatefulSet? && (m.value.claim.Val? <==> size != "")
              && (m.value.container.preStop == "nodetool drain" <==> size != "")
              && (m.value.container.preStop == "nodetool decommission" <==> size == "")
  {
    hide GenerateCassandraConfig;
    if Generate(lib, k, spec, q).Nil? {
      return;
    }
    var volume := spec.axonops.server.metricsCluster.volume;
    var (name, c) := if q == CaSts then (k.name, spec.cassandra)
                     else ("metrics-" + k.name, spec.axonops.server.metricsCluster);
    CassandraPorted(lib, name, k.ns, volume.size, volume.storageClass, c);
    DrainsIff(lib, name, k.ns, volume.size, volume.storageClass, c);
    CassandraSays(lib, CrKey(k.ns, name), volume.size, volume.storageClass, c);
  }

  /** So after a successful pass the stored main cluster, ca-n, drains if and only if the
      metrics cluster's volume has a size, and it has at least one node. */
  lemma StoredClusterDrainsIff(lib: Library, k: CrKey, s: Store, script: seq<Tick>)
    requires Quiet(script) && LiveResource(s, k) && !Run(Operator(lib), k, s, Reading, script).pass.Failed()
    ensures var c' := Run(Operator(lib), k, s, Reading, script).store.children;
            var key := Key(StatefulSets, k.ns, "ca-" + k.name);
            && key in c' && c'[key].StatefulSet? && c'[key].replicas >= 1
            && (c'[key].container.preStop == "nodetool drain"
                <==> s.crs[k].spec.axonops.server.metricsCluster.volume.size != "")
  {
    hide Run, GenerateCassandraConfig, GenerateServerConfig;
    hide GenerateServerServiceConfig, GenerateCassandraServiceConfig;
    ServerAndCassandraLeft(lib, k, s, script);
    var spec := s.crs[k].spec;
    var v := spec.axonops.server.metricsCluster.volume;
    var c := InMemory(spec).cassandra;
    DrainsIff(lib, k.name, k.ns, v.size, v.storageClass, c);
    CassandraSays(lib, k, v.size, v.storageClass, c);
    CassandraPorted(lib, k.name, k.ns, v.size, v.storageClass, c);
  }

  // ---------- the other workloads

  lemma ElasticSays(lib: Library, k: CrKey, spec: Spec)
    requires GenerateElasticsearchConfig(lib, k, spec).Val?
    ensures var m := GenerateElasticsearchConfig(lib, k, spec).value;
            var es, srv, env := spec.axonops.elastic, spec.axonops.server, m.container.env;
            && TakesMeta(m.meta, k, "es-", "elasticsearch", srv.labels, srv.annotations)
            && m.replicas == 1 && m.container.name == "elasticsearch"
            && TakesImage(m.container.image, es.image, "docker.elastic.co/elasticsearch/elasticsearch", "7.17.0")
            && TakesAmounts(lib, m.container.amounts, es.resources, LARGE)
            && TakesClaim(m.claim, es.volume.size, es.volume.storageClass)
            && |env| == 4 + |Items(es.env)| && ThenUsers(env, 4, es.env)
            && Sets(env, "cluster.name", es.clusterName, k.name)
            && Sets(env, "ES_JAVA_OPTS", es.javaOpts, "-Xms512m -Xmx512m")
            && Carries(env, "discovery.type", "single-node")
            && EnvEntry("node.name", Field("metadata.name")) in env
  {
    hide ImageOf, AmountsOf, TakesImage, TakesAmounts;
    var m := GenerateElasticsearchConfig(lib, k, spec).value;
    ImageTaken(spec.axonops.elastic.image, "docker.elastic.co/elasticsearch/elasticsearch", "7.17.0");
    AmountsTaken(lib, spec.axonops.elastic.resources, LARGE);
    var env := m.container.env;
    assert env[0] in env && env[1] in env && env[2] in env && env[3] in env;
  }

  lemma DashboardSays(lib: Library, k: CrKey, spec: Spec)
    requires GenerateDashboardConfig(lib, k, spec).Val?
    ensures var m := GenerateDashboardConfig(lib, k, spec).value;
            var ds := spec.axonops.dashboard;
            && TakesMeta(m.meta, k, "ds-", "dashboard", ds.labels, ds.annotations)
            && m.replicas == 1 && m.container.name == "axon-dash"
            && TakesImage(m.container.image, ds.image,
                          "registry.axonops.com/axonops-public/axonops-docker/axon-dash", "latest")
            && TakesAmounts(lib, m.container.amounts, ds.resources, MEDIUM)
            && m.container.command == Host("private_endpoints: http://", Endpoint("as-" + k.name, Val(8080)), "")
            && |m.container.env| == 1 + |Items(ds.env)| && ThenUsers(m.container.env, 1, ds.env)
            && EnvEntry("node.name", Field("metadata.name")) in m.container.env
  {
    hide ImageOf, AmountsOf, TakesImage, TakesAmounts;
    var m, ds := GenerateDashboardConfig(lib, k, spec).value, spec.axonops.dashboard;
    ImageTaken(ds.image, "registry.axonops.com/axonops-public/axonops-docker/axon-dash", "latest");
    AmountsTaken(lib, ds.resources, MEDIUM);
    assert m.container.env[0] in m.container.env;
  }

  /** With metrics on the last two entries name the metrics cluster's Service and its data centre. */
  lemma ServerSays(lib: Library, k: CrKey, spec: Spec)
    requires GenerateServerConfig(lib, k, spec).Val?
    ensures var m := GenerateServerConfig(lib, k, spec).value;
            var srv, env := spec.axonops.server, m.container.env;
            && TakesMeta(m.meta, k, "as-", "axon-server", srv.labels, srv.annotations)
            && m.replicas == 1 && m.container.name == "axon-server" && m.claim.Nil?
            && TakesImage(m.container.image, srv.image,
                          "registry.axonops.com/axonops-public/axonops-docker/axon-server", "latest")
            && TakesAmounts(lib, m.container.amounts, srv.resources, SMALL)
            && |env| == 2 + |Items(srv.env)| + (if srv.metricsEnabled then 2 else 0) && ThenUsers(env, 2, srv.env)
            && EnvEntry("ELASTIC_HOSTS", Host("http://", Endpoint("es-" + k.name, Val(9200)), "")) in env
            && EnvEntry("node.name", Field("metadata.name")) in env
            && (srv.metricsEnabled ==>
                  && env[|env| - 2] == EnvEntry("CQL_HOSTS", Host("", Endpoint("ca-metrics-" + k.name, Nil), ""))
                  && env[|env| - 1] == EnvEntry("CQL_LOCAL_DC", Plain("axonops1")))
  {
    hide ImageOf, AmountsOf, TakesImage, TakesAmounts;
    var m, srv := GenerateServerConfig(lib, k, spec).value, spec.axonops.server;
    ImageTaken(srv.image, "registry.axonops.com/axonops-public/axonops-docker/axon-server", "latest");
    AmountsTaken(lib, srv.resources, SMALL);
    assert m.container.env[0] in m.container.env && m.container.env[1] in m.container.env;
  }

  /** The secret and the hosts of the Ingress; what its rules say is `Network.IngressRules`. */
  lemma IngressSays(lib: Library, k: CrKey, spec: Spec)
    ensures var m, ing := GenerateDashboardIngressConfig(lib, k, spec), spec.axonops.dashboard.ingress;
            && (m.Val? ==>
                  && ing.enabled
                  && TakesMeta(m.value.meta, k, "ds-", "dashboard", ing.labels, ing.annotations)
                  && Takes(m.value.apiVersion, ing.apiVersion, "networking.k8s.io/v1")
                  && m.value.className == ing.className
                  && m.value.tlsSecret == k.name + "-tls" && m.value.tlsHosts == Items(ing.hosts))
  {
  }

  // ---------- Services

  function ServiceOf(lib: Library, k: CrKey, spec: Spec, x: Piece): (m: Opt<Manifest>)
    requires IsService(x)
    ensures m.Val? ==> m.value.Service?
  {
    Generate(lib, k, spec, x)
  }

  /** Whose labels and annotations a Service carries: Elasticsearch's are the server's, and the
      metrics cluster's are the main cluster's. */
  lemma ServicesSay(lib: Library, k: CrKey, spec: Spec, x: Piece)
    requires IsService(x) && ServiceOf(lib, k, spec, x).Val?
    ensures var meta, srv := ServiceOf(lib, k, spec, x).value.meta, spec.axonops.server;
            var ds, ca := spec.axonops.dashboard, spec.cassandra;
            && (x == EsSvc ==> TakesMeta(meta, k, "es-", "elasticsearch", srv.labels, srv.annotations))
            && (x == DsSvc ==> TakesMeta(meta, k, "ds-", "dashboard", ds.labels, ds.annotations))
            && (x == AsSvc ==> TakesMeta(meta, k, "as-", "axon-server", srv.labels, srv.annotations))
            && (x == CaSvc ==> TakesMeta(meta, k, "ds-", "cassandra", ca.labels, ca.annotations))
            && (x == MtSvc ==> TakesMeta(meta, k, "ds-metrics-", "cassandra", ca.labels, ca.annotations))
  {
    hide GenerateElasticsearchConfig, GenerateDashboardConfig, GenerateServerConfig, GenerateCassandraConfig;
    hide GenerateDashboardIngressConfig;
    assert "ds-metrics-" + k.name == "ds-" + ("metrics-" + k.name);
  }

  function PortNumbers(ports: seq<ServicePort>): set<nat> {
    set p | p in ports :: p.port
  }

  /** The ports each Service offers; by `Network.ServicesRouted` each arrives at one container
      port, of the same number. */
  lemma ServicesOffer(lib: Library, k: CrKey, spec: Spec, x: Piece)
    requires IsService(x) && ServiceOf(lib, k, spec, x).Val?
    ensures PortNumbers(ServiceOf(lib, k, spec, x).value.ports)
         == match x
            case EsSvc => {9200, 9300}
            case DsSvc => {3000}
            case AsSvc => {8080, 1888, 6060}
            case _ => {7000, 7001, 7199, 9042}
  {
    hide Generate;
    GeneratePorted(lib, k, spec, x);
    var ports := ServicePorts(x);
    assert ports[0] in ports;
    if x != DsSvc {
      assert ports[1] in ports;
      if x != EsSvc {
        assert ports[2] in ports;
        if x != AsSvc {
          assert ports[3] in ports;
        }
      }
    }
  }

  /** The ports each workload's container listens on, by name. */
  lemma WorkloadsListen(lib: Library, k: CrKey, spec: Spec, q: Piece, m: Manifest)
    requires !IsService(q) && q != DsIng
    ensures Generate(lib, k, spec, q) == Val(m) ==>
            && (m.StatefulSet? || m.Deployment?)
            && (q == EsSts ==> m.container.ports == [ContainerPort("rest", 9200), ContainerPort("inter-node", 9300)])
            && (q == DsDep ==> m.container.ports == [ContainerPort("http", 3000)])
            && (q == AsSts ==> m.container.ports == [ContainerPort("api", 8080), ContainerPort("agent", 1888),
                                                     ContainerPort("metrics", 6060)])
            && (q == MtSts || q == CaSts ==>
                  m.container.ports == [ContainerPort("cql", 9042), ContainerPort("jmx", 7199),
                                        ContainerPort("intra", 7000), ContainerPort("tls", 7001)])
  {
    hide Generate, Ported;
    if Generate(lib, k, spec, q) == Val(m) {
      GenerateLabelled(lib, k, spec, q);
      WorkloadPorts(m, q);
      GeneratePorted(lib, k, spec, q);
    }
  }

  lemma WorkloadPorts(m: Manifest, q: Piece)
    requires KindOf(m) in [StatefulSets, Deployments]
    ensures (m.StatefulSet? || m.Deployment?) && (Ported(m, q) <==> m.container.ports == ContainerPorts(q))
  {
  }

  /** What the values that name a Service alone read like. */
  lemma NameTexts(k: CrKey)
    ensures Fields.WrittenValue(Host("", Endpoint("as-" + k.name, Nil), "")) == Plain("as-" + k.name)
    ensures Fields.WrittenValue(Host("", Endpoint("ca-metrics-" + k.name, Nil), "")) == Plain("ca-metrics-" + k.name)
    ensures var seed := Host("ca-" + k.name + "-0.", Endpoint("ca-" + k.name, Nil), "." + k.ns + ".svc.cluster.local");
            Fields.WrittenValue(seed) == Plain("ca-" + k.name + "-0.ca-" + k.name + "." + k.ns + ".svc.cluster.local")
  {
    assert "" + ("as-" + k.name) + "" + "" == "as-" + k.name;
    assert "" + ("ca-metrics-" + k.name) + "" + "" == "ca-metrics-" + k.name;
    assert "ca-" + k.name + "-0." + ("ca-" + k.name) + "" + ("." + k.ns + ".svc.cluster.local")
        == "ca-" + k.name + "-0.ca-" + k.name + "." + k.ns + ".svc.cluster.local";
  }

  /** And with a port. */
  lemma PortedTexts(k: CrKey)
    ensures Fields.WrittenValue(Host("http://", Endpoint("es-" + k.name, Val(9200)), ""))
         == Plain("http://es-" + k.name + ":9200")
    ensures Fields.WrittenValue(Host("private_endpoints: http://", Endpoint("as-" + k.name, Val(8080)), ""))
         == Plain("private_endpoints: http://as-" + k.name + ":8080")
  {
    hide Fields.Decimal;
    PortTexts();
    assert "http://" + ("es-" + k.name) + (":" + "9200") + "" == "http://es-" + k.name + ":9200";
    assert "private_endpoints: http://" + ("as-" + k.name) + (":" + "8080") + ""
        == "private_endpoints: http://as-" + k.name + ":8080";
  }

  /** A CQL client on port 9042 of a Cassandra Service arrives at the container's cql port, which
      is the one Cassandra is told to listen on. */
  lemma CqlArrives(lib: Library, k: CrKey, size: string, storageClass: string, c: CassandraSpec, labels: Dict,
                   annotations: Dict)
    requires GenerateCassandraConfig(lib, k.name, k.ns, size, storageClass, c).Val?
    requires GenerateCassandraServiceConfig(lib, k.name, k.ns, labels, annotations).Val?
    ensures var svc := GenerateCassandraServiceConfig(lib, k.name, k.ns, labels, annotations).value;
            var container := GenerateCassandraConfig(lib, k.name, k.ns, size, storageClass, c).value.container;
            && (exists sp :: sp in svc.ports && sp.port == 9042
                             && Arrives(sp, ContainerPort("cql", 9042), container.ports))
            && (forall sp :: sp in svc.ports && sp.port == 9042 ==>
                               Arrives(sp, ContainerPort("cql", 9042), container.ports))
            && Carries(container.env, "CASSANDRA_NATIVE_TRANSPORT_PORT", Fields.Decimal(9042))
  {
    hide GenerateCassandraConfig, GenerateCassandraServiceConfig, Carries, Arrives;
    CassandraEnvironment(lib, k, size, storageClass, c);
    CassandraPorted(lib, k.name, k.ns, size, storageClass, c);
    CassandraServicePorted(lib, k.name, k.ns, labels, annotations);
    CqlPort();
    PortTexts();
  }

  lemma PortTexts()
    ensures Fields.Decimal(9042) == "9042" && Fields.Decimal(1888) == "1888"
    ensures Fields.Decimal(9200) == "9200" && Fields.Decimal(8080) == "8080"
  {
    assert Fields.Decimal(92) == "92" && Fields.Decimal(920) == "920";
    assert Fields.Decimal(80) == "80" && Fields.Decimal(808) == "808";
    assert Fields.Decimal(90) == "90" && Fields.Decimal(904) == "904";
    assert Fields.Decimal(18) == "18" && Fields.Decimal(188) == "188";
  }

  lemma CqlPort()
    ensures ServicePort(9042, Named("cql")) in CA_SERVICE_PORTS
    ensures forall sp :: sp in CA_SERVICE_PORTS && sp.port == 9042 ==>
                           Arrives(sp, ContainerPort("cql", 9042), CA_CONTAINER_PORTS)
  {
    assert CA_SERVICE_PORTS[3] in CA_SERVICE_PORTS && CA_CONTAINER_PORTS[0] in CA_CONTAINER_PORTS;
  }

  lemma CassandraServicePorted(lib: Library, name: string, ns: string, labels: Dict, annotations: Dict)
    ensures var m := GenerateCassandraServiceConfig(lib, name, ns, labels, annotations);
            m.Val? ==> m.value.Service? && m.value.ports == CA_SERVICE_PORTS
  {
  }

  /** And an agent on the port it is told arrives at the server's agent port. */
  lemma AgentArrives(lib: Library, k: CrKey, spec: Spec, size: string, storageClass: string, c: CassandraSpec)
    requires GenerateCassandraConfig(lib, k.name, k.ns, size, storageClass, c).Val?
    requires GenerateServerConfig(lib, k, spec).Val? && GenerateServerServiceConfig(lib, k, spec).Val?
    ensures var svc := GenerateServerServiceConfig(lib, k, spec).value;
            var env := GenerateCassandraConfig(lib, k.name, k.ns, size, storageClass, c).value.container.env;
            var ports := GenerateServerConfig(lib, k, spec).value.container.ports;
            && (exists sp :: sp in svc.ports && sp.port == 1888 && Arrives(sp, ContainerPort("agent", 1888), ports))
            && Carries(env, "AXON_AGENT_SERVER_PORT", Fields.Decimal(1888))
  {
    hide GenerateCassandraConfig, GenerateServerConfig, GenerateServerServiceConfig, Carries, Arrives;
    CassandraEnvironment(lib, k, size, storageClass, c);
    ServerPorts(lib, k, spec);
    PortTexts();
  }

  lemma ServerPorts(lib: Library, k: CrKey, spec: Spec)
    ensures var m, svc := GenerateServerConfig(lib, k, spec), GenerateServerServiceConfig(lib, k, spec);
            && (m.Val? ==> m.value.StatefulSet?) && (svc.Val? ==> svc.value.Service?)
            && (m.Val? && svc.Val? ==>
                  exists sp :: sp in svc.value.ports && sp.port == 1888
                               && Arrives(sp, ContainerPort("agent", 1888), m.value.container.ports))
  {
    hide UserEnv, ImageOf, AmountsOf, MetricsEntries;
    assert AS_SERVICE_PORTS[1] in AS_SERVICE_PORTS && AS_CONTAINER_PORTS[1] in AS_CONTAINER_PORTS;
    assert Arrives(AS_SERVICE_PORTS[1], ContainerPort("agent", 1888), AS_CONTAINER_PORTS);
  }
}
