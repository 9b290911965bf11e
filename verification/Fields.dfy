/** Which edits show.  Objects are compared as they are written: an endpoint is the text it
    stands for, whoever wrote it, and a nil map is an empty one.  For every block, two specs
    write the same object if and only if they agree on what SameView lists; so an edit that
    keeps it goes unnoticed, and one that does not shows in that object.  The comparison is
    field by field: that YAML reads some different texts alike is not part of it. */
module Fields {
  import opened Types
  import opened Apps
  import opened Defaults
  import opened Children
  import opened Network
  import Maps

  // ---------- objects as they are written

  function Decimal(n: nat): string {
    if n < 10 then ["0123456789"[n]] else Decimal(n / 10) + ["0123456789"[n % 10]]
  }

  function WrittenValue(v: EnvValue): EnvValue {
    match v
    case Host(before, at, after) =>
      Plain(before + at.host + (if at.port.Val? then ":" + Decimal(at.port.value) else "") + after)
    case _ => v
  }

  function WrittenEnv(env: seq<EnvEntry>): seq<EnvEntry> {
    seq(|env|, i requires 0 <= i < |env| => EnvEntry(env[i].name, WrittenValue(env[i].value)))
  }

  function WrittenMeta(m: Meta): Meta {
    m.(labels := Val(Maps.Entries(m.labels)), annotations := Val(Maps.Entries(m.annotations)))
  }

  function WrittenContainer(c: Container): Container {
    c.(command := WrittenValue(c.command), env := WrittenEnv(c.env))
  }

  function Written(m: Manifest): Manifest {
    match m
    case StatefulSet(meta, serviceName, replicas, matchApp, podApp, container, claim) =>
      StatefulSet(WrittenMeta(meta), serviceName, replicas, matchApp, podApp, WrittenContainer(container), claim)
    case Deployment(meta, replicas, matchApp, podApp, container) =>
      Deployment(WrittenMeta(meta), replicas, matchApp, podApp, WrittenContainer(container))
    case Service(meta, selectorApp, ports) => Service(WrittenMeta(meta), selectorApp, ports)
    case Ingress(meta, apiVersion, className, tlsSecret, tlsHosts, rules) =>
      Ingress(WrittenMeta(meta), apiVersion, className, tlsSecret, tlsHosts, rules)
  }

  // ---------- what the objects show

  predicate SameLabels(l: Dict, a: Dict, l': Dict, a': Dict) {
    Maps.Entries(l) == Maps.Entries(l') && Maps.Entries(a) == Maps.Entries(a')
  }

  /** A storage class counts when there is a size. */
  predicate SameVolume(v: Volume, w: Volume) {
    v.size == w.size && (v.size != "" ==> v.storageClass == w.storageClass)
  }

  predicate SameElastic(lib: Library, name: string, e: ElasticSpec, f: ElasticSpec) {
    && ImageOf(e.image, "docker.elastic.co/elasticsearch/elasticsearch", "7.17.0")
       == ImageOf(f.image, "docker.elastic.co/elasticsearch/elasticsearch", "7.17.0")
    && ValueOrDefault(e.clusterName, name) == ValueOrDefault(f.clusterName, name)
    && ValueOrDefault(e.javaOpts, "-Xms512m -Xmx512m") == ValueOrDefault(f.javaOpts, "-Xms512m -Xmx512m")
    && Items(e.env) == Items(f.env) && SameVolume(e.volume, f.volume)
    && AmountsOf(lib, e.resources, "500m", "1Gi", "1000m", "2Gi")
       == AmountsOf(lib, f.resources, "500m", "1Gi", "1000m", "2Gi")
  }

  predicate SameDashboard(lib: Library, d: DashboardSpec, e: DashboardSpec) {
    && ImageOf(d.image, "registry.axonops.com/axonops-public/axonops-docker/axon-dash", "latest")
       == ImageOf(e.image, "registry.axonops.com/axonops-public/axonops-docker/axon-dash", "latest")
    && SameLabels(d.labels, d.annotations, e.labels, e.annotations) && Items(d.env) == Items(e.env)
    && AmountsOf(lib, d.resources, "500m", "256Mi", "1000m", "512Mi")
       == AmountsOf(lib, e.resources, "500m", "256Mi", "1000m", "512Mi")
  }

  predicate SameIngress(i: IngressSpec, j: IngressSpec) {
    && SameLabels(i.labels, i.annotations, j.labels, j.annotations) && i.className == j.className
    && ValueOrDefault(i.apiVersion, "networking.k8s.io/v1") == ValueOrDefault(j.apiVersion, "networking.k8s.io/v1")
    && Items(i.hosts) == Items(j.hosts)
  }

  /** The metrics flag and the environment show only together. */
  predicate SameServer(lib: Library, name: string, s: ServerSpec, t: ServerSpec) {
    && ImageOf(s.image, "registry.axonops.com/axonops-public/axonops-docker/axon-server", "latest")
       == ImageOf(t.image, "registry.axonops.com/axonops-public/axonops-docker/axon-server", "latest")
    && SameLabels(s.labels, s.annotations, t.labels, t.annotations)
    && ServerEnv(name, Items(s.env), s.metricsEnabled) == ServerEnv(name, Items(t.env), t.metricsEnabled)
    && AmountsOf(lib, s.resources, "250m", "256Mi", "1000m", "512Mi")
       == AmountsOf(lib, t.resources, "250m", "256Mi", "1000m", "512Mi")
  }

  predicate SameCassandra(lib: Library, name: string, c: CassandraSpec, d: CassandraSpec) {
    && ImageOf(c.image, "ghcr.io/axonops/cassandra", "5.0.2") == ImageOf(d.image, "ghcr.io/axonops/cassandra", "5.0.2")
    && SameLabels(c.labels, c.annotations, d.labels, d.annotations)
    && ValueOrDefaultInt(c.replicas, 1) == ValueOrDefaultInt(d.replicas, 1)
    && ValueOrDefault(c.pullPolicy, "IfNotPresent") == ValueOrDefault(d.pullPolicy, "IfNotPresent")
    && ValueOrDefault(c.clusterName, name) == ValueOrDefault(d.clusterName, name)
    && ValueOrDefault(c.dc, "dc1") == ValueOrDefault(d.dc, "dc1")
    && ValueOrDefault(c.heapSize, "512M") == ValueOrDefault(d.heapSize, "512M")
    && ValueOrDefault(c.javaOpts, "-Xms512m -Xmx512m") == ValueOrDefault(d.javaOpts, "-Xms512m -Xmx512m")
    && Items(c.env) == Items(d.env)
    && AmountsOf(lib, c.resources, "500m", "1Gi", "1000m", "2Gi")
       == AmountsOf(lib, d.resources, "500m", "1Gi", "1000m", "2Gi")
  }

  /** What block q's object shows of a spec. */
  predicate SameView(lib: Library, k: CrKey, s: Spec, t: Spec, q: Piece) {
    var (es, ds, srv) := (s.axonops.elastic, s.axonops.dashboard, s.axonops.server);
    var (es', ds', srv') := (t.axonops.elastic, t.axonops.dashboard, t.axonops.server);
    var (mc, mc', ca, ca') := (srv.metricsCluster, srv'.metricsCluster, s.cassandra, t.cassandra);
    match q
    case EsSts =>
      SameElastic(lib, k.name, es, es') && SameLabels(srv.labels, srv.annotations, srv'.labels, srv'.annotations)
    case EsSvc => SameLabels(srv.labels, srv.annotations, srv'.labels, srv'.annotations)
    case DsDep => SameDashboard(lib, ds, ds')
    case DsSvc => SameLabels(ds.labels, ds.annotations, ds'.labels, ds'.annotations)
    case DsIng => SameIngress(ds.ingress, ds'.ingress)
    case MtSts => SameCassandra(lib, "metrics-" + k.name, mc, mc') && SameVolume(mc.volume, mc'.volume)
    case MtSvc => SameLabels(ca.labels, ca.annotations, ca'.labels, ca'.annotations)
    case AsSts => SameServer(lib, k.name, srv, srv')
    case AsSvc => SameLabels(srv.labels, srv.annotations, srv'.labels, srv'.annotations)
    case CaSts => SameCassandra(lib, k.name, ca, ca') && SameVolume(mc.volume, mc'.volume)
    case CaSvc => SameLabels(ca.labels, ca.annotations, ca'.labels, ca'.annotations)
  }

  // ---------- parts of an object

  lemma EnvSeen(a: seq<EnvVar>, b: seq<EnvVar>)
    requires UserEnv(a) == UserEnv(b)
    ensures a == b
  {
    forall i | 0 <= i < |a| ensures a[i] == b[i] {
      assert UserEnv(a)[i] == UserEnv(b)[i];
    }
  }

  lemma AppendSeen<T>(x: seq<T>, a: seq<T>, y: seq<T>, b: seq<T>)
    requires x + a == y + b && |x| == |y|
    ensures x == y && a == b
  {
    assert (x + a)[..|x|] == x && (y + b)[..|y|] == y;
    assert (x + a)[|x|..] == a && (y + b)[|y|..] == b;
  }

  lemma WrittenAppend(a: seq<EnvEntry>, b: seq<EnvEntry>)
    ensures WrittenEnv(a + b) == WrittenEnv(a) + WrittenEnv(b)
  {
  }

  /** Users write text: it stays what it is. */
  lemma WrittenUser(env: seq<EnvVar>)
    ensures WrittenEnv(UserEnv(env)) == UserEnv(env)
  {
  }

  /** The template's own entries, equally many, and then the user's. */
  lemma EnvWritten(x: seq<EnvEntry>, a: seq<EnvVar>, y: seq<EnvEntry>, b: seq<EnvVar>)
    requires |x| == |y|
    ensures WrittenEnv(x + UserEnv(a)) == WrittenEnv(y + UserEnv(b)) <==> WrittenEnv(x) == WrittenEnv(y) && a == b
  {
    WrittenAppend(x, UserEnv(a));
    WrittenAppend(y, UserEnv(b));
    WrittenUser(a);
    WrittenUser(b);
    if WrittenEnv(x) + UserEnv(a) == WrittenEnv(y) + UserEnv(b) {
      AppendSeen(WrittenEnv(x), UserEnv(a), WrittenEnv(y), UserEnv(b));
      EnvSeen(a, b);
    }
  }

  /** The server's generated entries are written like a user's. */
  lemma ServerEnvWritten(name: string, env: seq<EnvVar>, metricsEnabled: bool)
    ensures WrittenEnv(UserEnv(env) + MetricsEntries(name, metricsEnabled))
         == UserEnv(ServerEnv(name, env, metricsEnabled))
  {
    WrittenAppend(UserEnv(env), MetricsEntries(name, metricsEnabled));
    WrittenUser(env);
    if metricsEnabled {
      var host := "ca-metrics-" + name;
      assert "" + host + "" + "" == host;
    }
    assert WrittenEnv(MetricsEntries(name, metricsEnabled)) == UserEnv(ServerEnv(name, [], metricsEnabled));
  }

  lemma ClaimSeen(v: Volume, w: Volume)
    ensures ClaimOf(v.size, v.storageClass) == ClaimOf(w.size, w.storageClass) <==> SameVolume(v, w)
  {
  }

  // ---------- whole objects

  lemma ElasticSame(lib: Library, k: CrKey, s: Spec, t: Spec)
    requires GenerateElasticsearchConfig(lib, k, s).Val? && GenerateElasticsearchConfig(lib, k, t).Val?
    ensures Written(GenerateElasticsearchConfig(lib, k, s).value)
              == Written(GenerateElasticsearchConfig(lib, k, t).value)
            <==> SameView(lib, k, s, t, EsSts)
  {
    hide ImageOf, AmountsOf, UserEnv, WrittenEnv, ClaimOf, ValueOrDefault;
    var es, es' := s.axonops.elastic, t.axonops.elastic;
    var x := GenerateElasticsearchConfig(lib, k, s).value.container.env;
    var y := GenerateElasticsearchConfig(lib, k, t).value.container.env;
    assert x[..4] + UserEnv(Items(es.env)) == x && y[..4] + UserEnv(Items(es'.env)) == y;
    EnvWritten(x[..4], Items(es.env), y[..4], Items(es'.env));
    OwnElastic(x[..4], y[..4], ValueOrDefault(es.clusterName, k.name), ValueOrDefault(es.javaOpts, "-Xms512m -Xmx512m"),
               ValueOrDefault(es'.clusterName, k.name), ValueOrDefault(es'.javaOpts, "-Xms512m -Xmx512m"));
    ClaimSeen(es.volume, es'.volume);
  }

  lemma OwnElastic(x: seq<EnvEntry>, y: seq<EnvEntry>, c: string, o: string, c': string, o': string)
    requires |x| == |y| == 4 && x[1] == y[1] && x[3] == y[3]
    requires x[0] == EnvEntry("cluster.name", Plain(c)) && y[0] == EnvEntry("cluster.name", Plain(c'))
    requires x[2] == EnvEntry("ES_JAVA_OPTS", Plain(o)) && y[2] == EnvEntry("ES_JAVA_OPTS", Plain(o'))
    ensures WrittenEnv(x) == WrittenEnv(y) <==> c == c' && o == o'
  {
    var u, v := WrittenEnv(x), WrittenEnv(y);
    if u == v {
      assert u[0] == v[0] && u[2] == v[2];
    }
  }

  lemma DashboardSame(lib: Library, k: CrKey, s: Spec, t: Spec)
    requires GenerateDashboardConfig(lib, k, s).Val? && GenerateDashboardConfig(lib, k, t).Val?
    ensures Written(GenerateDashboardConfig(lib, k, s).value) == Written(GenerateDashboardConfig(lib, k, t).value)
            <==> SameView(lib, k, s, t, DsDep)
  {
    hide ImageOf, AmountsOf, UserEnv, WrittenEnv;
    EnvWritten([NODE_NAME], Items(s.axonops.dashboard.env), [NODE_NAME], Items(t.axonops.dashboard.env));
  }

  lemma IngressSame(lib: Library, k: CrKey, s: Spec, t: Spec)
    requires GenerateDashboardIngressConfig(lib, k, s).Val? && GenerateDashboardIngressConfig(lib, k, t).Val?
    ensures Written(GenerateDashboardIngressConfig(lib, k, s).value)
              == Written(GenerateDashboardIngressConfig(lib, k, t).value)
            <==> SameView(lib, k, s, t, DsIng)
  {
    var i, j := s.axonops.dashboard.ingress, t.axonops.dashboard.ingress;
    IngressRules(lib, k, s);
    IngressRules(lib, k, t);
    var x := GenerateDashboardIngressConfig(lib, k, s).value;
    var y := GenerateDashboardIngressConfig(lib, k, t).value;
    assert Items(i.hosts) == Items(j.hosts) ==> x.rules == y.rules;
    assert x.apiVersion == ValueOrDefault(i.apiVersion, "networking.k8s.io/v1");
    assert y.apiVersion == ValueOrDefault(j.apiVersion, "networking.k8s.io/v1");
  }

  lemma ServerSame(lib: Library, k: CrKey, s: Spec, t: Spec)
    requires GenerateServerConfig(lib, k, s).Val? && GenerateServerConfig(lib, k, t).Val?
    ensures Written(GenerateServerConfig(lib, k, s).value) == Written(GenerateServerConfig(lib, k, t).value)
            <==> SameView(lib, k, s, t, AsSts)
  {
    hide ImageOf, AmountsOf, UserEnv, WrittenEnv, MetricsEntries, ServerEnv;
    var srv, srv' := s.axonops.server, t.axonops.server;
    var own := [EnvEntry("ELASTIC_HOSTS", Host("http://", Endpoint("es-" + k.name, Val(9200)), "")), NODE_NAME];
    ServerWritten(own, k.name, Items(srv.env), srv.metricsEnabled);
    ServerWritten(own, k.name, Items(srv'.env), srv'.metricsEnabled);
    EnvWritten(own, ServerEnv(k.name, Items(srv.env), srv.metricsEnabled),
               own, ServerEnv(k.name, Items(srv'.env), srv'.metricsEnabled));
  }

  lemma ServerWritten(own: seq<EnvEntry>, name: string, env: seq<EnvVar>, metricsEnabled: bool)
    ensures WrittenEnv(own + UserEnv(env) + MetricsEntries(name, metricsEnabled))
         == WrittenEnv(own + UserEnv(ServerEnv(name, env, metricsEnabled)))
  {
    hide WrittenEnv, UserEnv, MetricsEntries, ServerEnv;
    var a, m, all := UserEnv(env), MetricsEntries(name, metricsEnabled), ServerEnv(name, env, metricsEnabled);
    assert own + a + m == own + (a + m);
    WrittenAppend(own, a + m);
    WrittenAppend(own, UserEnv(all));
    WrittenUser(all);
    ServerEnvWritten(name, env, metricsEnabled);
  }

  lemma CassandraOwn(name: string, ns: string, c: CassandraSpec, d: CassandraSpec)
    ensures WrittenEnv(CassandraEnv(name, ns, c) + AgentEnv(name, c))
              == WrittenEnv(CassandraEnv(name, ns, d) + AgentEnv(name, d))
            <==> (ValueOrDefault(c.clusterName, name) == ValueOrDefault(d.clusterName, name)
                  && ValueOrDefault(c.dc, "dc1") == ValueOrDefault(d.dc, "dc1")
                  && ValueOrDefault(c.heapSize, "512M") == ValueOrDefault(d.heapSize, "512M")
                  && ValueOrDefault(c.javaOpts, "-Xms512m -Xmx512m") == ValueOrDefault(d.javaOpts, "-Xms512m -Xmx512m"))
  {
    hide ValueOrDefault;
    var x := WrittenEnv(CassandraEnv(name, ns, c) + AgentEnv(name, c));
    var y := WrittenEnv(CassandraEnv(name, ns, d) + AgentEnv(name, d));
    if x == y {
      assert x[0] == y[0] && x[3] == y[3] && x[7] == y[7] && x[15] == y[15];
    }
  }

  lemma CassandraSame(lib: Library, name: string, ns: string, v: Volume, c: CassandraSpec, w: Volume, d: CassandraSpec)
    requires GenerateCassandraConfig(lib, name, ns, v.size, v.storageClass, c).Val?
    requires GenerateCassandraConfig(lib, name, ns, w.size, w.storageClass, d).Val?
    ensures Written(GenerateCassandraConfig(lib, name, ns, v.size, v.storageClass, c).value)
              == Written(GenerateCassandraConfig(lib, name, ns, w.size, w.storageClass, d).value)
            <==> SameCassandra(lib, name, c, d) && SameVolume(v, w)
  {
    hide ImageOf, AmountsOf, UserEnv, WrittenEnv, CassandraEnv, AgentEnv, ValueOrDefault, ClaimOf;
    var x, y := CassandraEnv(name, ns, c) + AgentEnv(name, c), CassandraEnv(name, ns, d) + AgentEnv(name, d);
    EnvLengths(name, ns, c);
    EnvLengths(name, ns, d);
    EnvWritten(x, Items(c.env), y, Items(d.env));
    CassandraOwn(name, ns, c, d);
    ClaimSeen(v, w);
  }

  lemma EnvLengths(name: string, ns: string, c: CassandraSpec)
    ensures |CassandraEnv(name, ns, c)| == 9 && |AgentEnv(name, c)| == 7
  {
  }

  lemma ServicesSame(lib: Library, k: CrKey, s: Spec, t: Spec, q: Piece)
    requires q in {EsSvc, DsSvc, MtSvc, AsSvc, CaSvc}
    requires Generate(lib, k, s, q).Val? && Generate(lib, k, t, q).Val?
    ensures Written(Generate(lib, k, s, q).value) == Written(Generate(lib, k, t, q).value)
            <==> SameView(lib, k, s, t, q)
  {
  }

  /** The edit from s to t shows in block q's object, if and only if it changes the view. */
  lemma SameWrittenIff(lib: Library, k: CrKey, s: Spec, t: Spec, q: Piece)
    requires Generate(lib, k, s, q).Val? && Generate(lib, k, t, q).Val?
    ensures Written(Generate(lib, k, s, q).value) == Written(Generate(lib, k, t, q).value)
            <==> SameView(lib, k, s, t, q)
  {
    hide Written, GenerateElasticsearchConfig, GenerateDashboardConfig, GenerateServerConfig, GenerateCassandraConfig;
    hide GenerateDashboardIngressConfig, SameCassandra, SameVolume;
    var mc, mc' := s.axonops.server.metricsCluster, t.axonops.server.metricsCluster;
    match q {
      case EsSts => ElasticSame(lib, k, s, t);
      case DsDep => DashboardSame(lib, k, s, t);
      case DsIng => IngressSame(lib, k, s, t);
      case AsSts => ServerSame(lib, k, s, t);
      case MtSts => CassandraSame(lib, "metrics-" + k.name, k.ns, mc.volume, mc, mc'.volume, mc');
      case CaSts => CassandraSame(lib, k.name, k.ns, mc.volume, s.cassandra, mc'.volume, t.cassandra);
      case _ => ServicesSame(lib, k, s, t, q);
    }
  }

  // ---------- the metrics flag and its twin

  /** Metrics off, and the two entries that metrics would add written by the user. */
  function Twin(k: CrKey, s: Spec): Spec {
    var srv := s.axonops.server;
    var env := Val(ServerEnv(k.name, Items(srv.env), true));
    s.(axonops := s.axonops.(server := srv.(metricsEnabled := false, env := env)))
  }

  lemma TwinView(lib: Library, k: CrKey, s: Spec, q: Piece)
    requires MetricsOn(s)
    ensures SameView(lib, k, s, Twin(k, s), q)
  {
  }

  /** The edit that switches metrics off and writes their entries by hand shows in no object at all. */
  lemma TwinGoesUnnoticed(lib: Library, k: CrKey, s: Spec, q: Piece)
    requires MetricsOn(s) && Generate(lib, k, s, q).Val? && Generate(lib, k, Twin(k, s), q).Val?
    ensures Written(Generate(lib, k, s, q).value) == Written(Generate(lib, k, Twin(k, s), q).value)
    ensures !MetricsOn(Twin(k, s)) && Items(s.axonops.server.env) != Items(Twin(k, s).axonops.server.env)
  {
    hide Generate, Written, SameView;
    SameWrittenIff(lib, k, s, Twin(k, s), q);
    TwinView(lib, k, s, q);
  }

  /** The passes with metrics on generate from the spec with its data centre set: for them the
      edit shows, in the main cluster, if and only if that data centre was left to its default. */
  lemma TwinInPassesIff(lib: Library, k: CrKey, s: Spec)
    requires MetricsOn(s)
    requires forall q :: Base(q) ==> Generate(lib, k, WithDc(s), q).Val? && Generate(lib, k, Twin(k, s), q).Val?
    ensures (forall q :: Base(q) ==>
               Written(Generate(lib, k, WithDc(s), q).value) == Written(Generate(lib, k, Twin(k, s), q).value))
            <==> s.cassandra.dc != ""
  {
    hide Generate, Written, SameView;
    forall q | Base(q)
      ensures Written(Generate(lib, k, WithDc(s), q).value) == Written(Generate(lib, k, Twin(k, s), q).value)
              <==> SameView(lib, k, WithDc(s), Twin(k, s), q) {
      SameWrittenIff(lib, k, WithDc(s), Twin(k, s), q);
    }
    if s.cassandra.dc != "" {
      forall q ensures SameView(lib, k, WithDc(s), Twin(k, s), q) { TwinView(lib, k, s, q); }
    } else {
      DefaultDcShows(lib, k, s);
      assert Base(CaSts);
    }
  }

  lemma DefaultDcShows(lib: Library, k: CrKey, s: Spec)
    requires MetricsOn(s) && s.cassandra.dc == ""
    ensures !SameView(lib, k, WithDc(s), Twin(k, s), CaSts)
  {
    hide ImageOf, AmountsOf;
    assert |"axonops1"| != |"dc1"|;
  }

  /** Otherwise the flag and the environment do show: equal lists come from equal inputs, or from twins. */
  lemma TwinsIff(name: string, a: seq<EnvVar>, m: bool, b: seq<EnvVar>, n: bool)
    ensures ServerEnv(name, a, m) == ServerEnv(name, b, n)
            <==> || (m == n && a == b)
                 || (m && !n && b == ServerEnv(name, a, true))
                 || (n && !m && a == ServerEnv(name, b, true))
  {
    var x, y := ServerEnv(name, a, m), ServerEnv(name, b, n);
    assert a + [] == a && b + [] == b;
    if m && n && x == y {
      var more := [EnvVar("CQL_HOSTS", "ca-metrics-" + name), EnvVar("CQL_LOCAL_DC", "axonops1")];
      AppendSeen(a, more, b, more);
    }
  }

  // ---------- specs that say everything themselves

  /** Nothing is left to a default, and the tag has no colon of its own. */
  predicate ImageGiven(i: Image) {
    i.repository != "" && i.tag != "" && ':' !in i.tag
  }

  predicate ClusterGiven(c: CassandraSpec) {
    && ImageGiven(c.image) && c.replicas > 0 && c.clusterName != "" && c.dc != "" && c.javaOpts != ""
    && c.heapSize != "" && c.pullPolicy != ""
  }

  predicate Explicit(s: Spec) {
    && ClusterGiven(s.cassandra) && ClusterGiven(s.axonops.server.metricsCluster)
    && ImageGiven(s.axonops.elastic.image) && ImageGiven(s.axonops.dashboard.image)
    && ImageGiven(s.axonops.server.image)
    && s.axonops.elastic.clusterName != "" && s.axonops.elastic.javaOpts != ""
    && s.axonops.dashboard.ingress.apiVersion != ""
  }

  /** Every quantity prints as something. */
  ghost predicate Printing(lib: Library) {
    forall r, name :: lib.quantity(r, name) != ""
  }

  predicate SameAmounts(lib: Library, r: Resources, t: Resources) {
    && lib.quantity(r.requests, "cpu") == lib.quantity(t.requests, "cpu")
    && lib.quantity(r.requests, "memory") == lib.quantity(t.requests, "memory")
    && lib.quantity(r.limits, "cpu") == lib.quantity(t.limits, "cpu")
    && lib.quantity(r.limits, "memory") == lib.quantity(t.limits, "memory")
  }

  predicate EqualCluster(lib: Library, c: CassandraSpec, d: CassandraSpec) {
    && c.image == d.image && c.replicas == d.replicas && c.clusterName == d.clusterName && c.dc == d.dc
    && c.javaOpts == d.javaOpts && c.heapSize == d.heapSize && c.pullPolicy == d.pullPolicy
    && SameLabels(c.labels, c.annotations, d.labels, d.annotations) && Items(c.env) == Items(d.env)
    && SameAmounts(lib, c.resources, d.resources)
  }

  /** The fields of two specs, but for the unused ones, are equal: environments and hosts as
      lists, labels and annotations as entries, resources as far as they print, the metrics
      flag together with the server's environment. */
  predicate EqualFields(lib: Library, k: CrKey, s: Spec, t: Spec) {
    var (es, ds, srv) := (s.axonops.elastic, s.axonops.dashboard, s.axonops.server);
    var (es', ds', srv') := (t.axonops.elastic, t.axonops.dashboard, t.axonops.server);
    && es.image == es'.image && SameVolume(es.volume, es'.volume) && es.javaOpts == es'.javaOpts
    && es.clusterName == es'.clusterName && Items(es.env) == Items(es'.env)
    && SameAmounts(lib, es.resources, es'.resources)
    && ds.image == ds'.image && SameLabels(ds.labels, ds.annotations, ds'.labels, ds'.annotations)
    && Items(ds.env) == Items(ds'.env) && SameAmounts(lib, ds.resources, ds'.resources)
    && ds.ingress.apiVersion == ds'.ingress.apiVersion && SameIngress(ds.ingress, ds'.ingress)
    && srv.image == srv'.image && SameLabels(srv.labels, srv.annotations, srv'.labels, srv'.annotations)
    && ServerEnv(k.name, Items(srv.env), srv.metricsEnabled) == ServerEnv(k.name, Items(srv'.env), srv'.metricsEnabled)
    && SameAmounts(lib, srv.resources, srv'.resources)
    && EqualCluster(lib, srv.metricsCluster, srv'.metricsCluster)
    && SameVolume(srv.metricsCluster.volume, srv'.metricsCluster.volume)
    && EqualCluster(lib, s.cassandra, t.cassandra)
  }

  /** No colon comes after the one before the tag. */
  lemma LastColon(a: string, x: string, b: string, y: string)
    requires a + ":" + x == b + ":" + y && ':' !in y
    ensures |a| <= |b|
  {
    var w := b + ":" + y;
    assert (a + ":" + x)[|a|] == ':';
    assert forall i :: |b| < i < |w| ==> w[i] == y[i - |b| - 1];
  }

  lemma ImageSeen(i: Image, j: Image, repository: string, tag: string)
    requires ImageGiven(i) && ImageGiven(j) && ImageOf(i, repository, tag) == ImageOf(j, repository, tag)
    ensures i == j
  {
    LastColon(i.repository, i.tag, j.repository, j.tag);
    LastColon(j.repository, j.tag, i.repository, i.tag);
    var x, y := i.repository + ":" + i.tag, j.repository + ":" + j.tag;
    assert x[..|i.repository|] == i.repository && y[..|j.repository|] == j.repository;
    assert x[|i.repository| + 1..] == i.tag && y[|j.repository| + 1..] == j.tag;
  }

  lemma AmountsSeen(lib: Library, r: Resources, t: Resources, a: string, b: string, c: string, d: string)
    requires Printing(lib) && AmountsOf(lib, r, a, b, c, d) == AmountsOf(lib, t, a, b, c, d)
    ensures SameAmounts(lib, r, t)
  {
  }

  lemma ElasticSeen(lib: Library, name: string, e: ElasticSpec, f: ElasticSpec)
    requires Printing(lib) && ImageGiven(e.image) && ImageGiven(f.image) && SameElastic(lib, name, e, f)
    requires e.clusterName != "" && f.clusterName != "" && e.javaOpts != "" && f.javaOpts != ""
    ensures e.image == f.image && e.clusterName == f.clusterName && e.javaOpts == f.javaOpts
    ensures Items(e.env) == Items(f.env) && SameVolume(e.volume, f.volume) && SameAmounts(lib, e.resources, f.resources)
  {
    hide ImageOf, AmountsOf;
    ImageSeen(e.image, f.image, "docker.elastic.co/elasticsearch/elasticsearch", "7.17.0");
    AmountsSeen(lib, e.resources, f.resources, "500m", "1Gi", "1000m", "2Gi");
  }

  lemma DashboardSeen(lib: Library, d: DashboardSpec, e: DashboardSpec)
    requires Printing(lib) && ImageGiven(d.image) && ImageGiven(e.image) && SameDashboard(lib, d, e)
    ensures d.image == e.image && SameLabels(d.labels, d.annotations, e.labels, e.annotations)
    ensures Items(d.env) == Items(e.env) && SameAmounts(lib, d.resources, e.resources)
  {
    hide ImageOf, AmountsOf;
    ImageSeen(d.image, e.image, "registry.axonops.com/axonops-public/axonops-docker/axon-dash", "latest");
    AmountsSeen(lib, d.resources, e.resources, "500m", "256Mi", "1000m", "512Mi");
  }

  lemma ServerSeen(lib: Library, name: string, s: ServerSpec, t: ServerSpec)
    requires Printing(lib) && ImageGiven(s.image) && ImageGiven(t.image) && SameServer(lib, name, s, t)
    ensures s.image == t.image && SameLabels(s.labels, s.annotations, t.labels, t.annotations)
    ensures ServerEnv(name, Items(s.env), s.metricsEnabled) == ServerEnv(name, Items(t.env), t.metricsEnabled)
    ensures SameAmounts(lib, s.resources, t.resources)
  {
    hide ImageOf, AmountsOf, ServerEnv;
    ImageSeen(s.image, t.image, "registry.axonops.com/axonops-public/axonops-docker/axon-server", "latest");
    AmountsSeen(lib, s.resources, t.resources, "250m", "256Mi", "1000m", "512Mi");
  }

  lemma ClusterSeen(lib: Library, name: string, c: CassandraSpec, d: CassandraSpec)
    requires Printing(lib) && ClusterGiven(c) && ClusterGiven(d) && SameCassandra(lib, name, c, d)
    ensures EqualCluster(lib, c, d)
  {
    hide ImageOf, AmountsOf;
    ImageSeen(c.image, d.image, "ghcr.io/axonops/cassandra", "5.0.2");
    AmountsSeen(lib, c.resources, d.resources, "500m", "1Gi", "1000m", "2Gi");
  }

  /** If two such specs write the same objects for all blocks, the metrics cluster's and the
      Ingress's included, their fields are equal. */
  lemma ObjectsTellFields(lib: Library, k: CrKey, s: Spec, t: Spec)
    requires Printing(lib) && Explicit(s) && Explicit(t)
    requires forall q :: Generate(lib, k, s, q).Val? && Generate(lib, k, t, q).Val?
    requires forall q :: Written(Generate(lib, k, s, q).value) == Written(Generate(lib, k, t, q).value)
    ensures EqualFields(lib, k, s, t)
  {
    hide Generate, Written, SameCassandra, SameVolume, SameElastic, SameDashboard, SameServer, ServerEnv, ImageGiven;
    hide ClusterGiven, EqualCluster, SameLabels, SameAmounts;
    forall q ensures SameView(lib, k, s, t, q) {
      SameWrittenIff(lib, k, s, t, q);
    }
    var (es, ds, srv) := (s.axonops.elastic, s.axonops.dashboard, s.axonops.server);
    var (es', ds', srv') := (t.axonops.elastic, t.axonops.dashboard, t.axonops.server);
    assert SameView(lib, k, s, t, EsSts) && SameView(lib, k, s, t, DsDep) && SameView(lib, k, s, t, DsIng);
    assert SameView(lib, k, s, t, AsSts) && SameView(lib, k, s, t, MtSts) && SameView(lib, k, s, t, CaSts);
    ElasticSeen(lib, k.name, es, es');
    DashboardSeen(lib, ds, ds');
    ServerSeen(lib, k.name, srv, srv');
    ClusterSeen(lib, "metrics-" + k.name, srv.metricsCluster, srv'.metricsCluster);
    ClusterSeen(lib, k.name, s.cassandra, t.cassandra);
  }
}
