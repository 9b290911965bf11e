/** Which edits of a spec reach which children.  Each generator reads only part of the
    spec, not always the part one expects: Elasticsearch is labelled like the server, the
    metrics Service like the main cluster, the main cluster stores where the metrics
    cluster does, and some fields reach nothing at all. */
module Edits {
  import opened Types
  import opened Apps
  import opened Defaults
  import opened Children
  import opened Api
  import opened Reconcile
  import opened Convergence
  import opened Recovery

  predicate SameLabels<S, E>(s: ServerOf<Dict, S, E>, t: ServerOf<Dict, S, E>) {
    s.labels == t.labels && s.annotations == t.annotations
  }

  /** Equal but for the claims. */
  predicate SameResources(r: Resources, t: Resources) {
    r.(claims := t.claims) == t
  }

  /** Equal but for the volume and the claims. */
  predicate SameCluster(c: CassandraSpec, d: CassandraSpec) {
    c.(volume := d.volume, resources := d.resources) == d && SameResources(c.resources, d.resources)
  }

  /** The two specs agree on everything block q's generator reads. */
  predicate SameInputs(s: Spec, t: Spec, q: Piece) {
    var (es, ds, srv) := (s.axonops.elastic, s.axonops.dashboard, s.axonops.server);
    var (es', ds', srv') := (t.axonops.elastic, t.axonops.dashboard, t.axonops.server);
    match q
    case EsSts =>
      && es.(pullPolicy := es'.pullPolicy, resources := es'.resources) == es'
      && SameResources(es.resources, es'.resources) && SameLabels(srv, srv')
    case EsSvc => SameLabels(srv, srv')
    case DsDep =>
      && ds.image == ds'.image && ds.labels == ds'.labels && ds.annotations == ds'.annotations
      && ds.env == ds'.env && SameResources(ds.resources, ds'.resources)
    case DsSvc => ds.labels == ds'.labels && ds.annotations == ds'.annotations
    case DsIng =>
      var (i, i') := (ds.ingress, ds'.ingress);
      i.(tls := i'.tls, path := i'.path, pathType := i'.pathType, serviceName := i'.serviceName) == i'
    case MtSts =>
      SameCluster(srv.metricsCluster, srv'.metricsCluster) && srv.metricsCluster.volume == srv'.metricsCluster.volume
    case MtSvc => s.cassandra.labels == t.cassandra.labels && s.cassandra.annotations == t.cassandra.annotations
    case AsSts =>
      && srv.(pullPolicy := srv'.pullPolicy, resources := srv'.resources, metricsCluster := srv'.metricsCluster) == srv'
      && SameResources(srv.resources, srv'.resources)
    case AsSvc => SameLabels(srv, srv')
    case CaSts => SameCluster(s.cassandra, t.cassandra) && srv.metricsCluster.volume == srv'.metricsCluster.volume
    case CaSvc => s.cassandra.labels == t.cassandra.labels && s.cassandra.annotations == t.cassandra.annotations
  }

  lemma GenerateReads(lib: Library, k: CrKey, s: Spec, t: Spec, q: Piece)
    requires SameInputs(s, t, q)
    ensures Generate(lib, k, s, q) == Generate(lib, k, t, q)
  {
    hide ImageOf, UserEnv, CassandraEnv, AgentEnv, MetricsEntries, ClaimOf, Rendered;
    if q == DsIng {
      IngressReads(lib, k, s, t);
    } else if q == CaSts || q == MtSts {
      hide GenerateCassandraConfig;
      var volume := s.axonops.server.metricsCluster.volume;
      if q == CaSts {
        ClusterReads(lib, k.name, k.ns, volume, s.cassandra, t.cassandra);
      } else {
        var c, d := s.axonops.server.metricsCluster, t.axonops.server.metricsCluster;
        ClusterReads(lib, "metrics-" + k.name, k.ns, volume, c, d);
      }
    }
  }

  lemma ClusterReads(lib: Library, name: string, ns: string, v: Volume, c: CassandraSpec, d: CassandraSpec)
    requires SameCluster(c, d)
    ensures GenerateCassandraConfig(lib, name, ns, v.size, v.storageClass, c)
         == GenerateCassandraConfig(lib, name, ns, v.size, v.storageClass, d)
  {
    hide ImageOf, UserEnv, ClaimOf, Rendered;
    assert CassandraEnv(name, ns, c) == CassandraEnv(name, ns, d);
    assert AgentEnv(name, c) == AgentEnv(name, d);
  }

  /** The path always ends up as "/". */
  lemma IngressReads(lib: Library, k: CrKey, s: Spec, t: Spec)
    requires SameInputs(s, t, DsIng)
    ensures GenerateDashboardIngressConfig(lib, k, s) == GenerateDashboardIngressConfig(lib, k, t)
  {
    var path, path' := s.axonops.dashboard.ingress.path, t.axonops.dashboard.ingress.path;
    assert TemplateDefault(ValueOrDefault(path, "/"), "/") == TemplateDefault(ValueOrDefault(path', "/"), "/");
  }

  // ---------- edits and passes

  /** Block q is new in the plan, or the edit changed something its generator reads. */
  predicate Affected(before: Spec, after: Spec, q: Piece) {
    InPlan(after, q) && !(InPlan(before, q) && SameInputs(Effective(before), Effective(after), q))
  }

  ghost predicate AllSettled(g: Generator, k: CrKey, spec: Spec, c: ChildMap) {
    forall q :: InPlan(spec, q) ==> Settled(g, k, spec, c, q)
  }

  lemma UnaffectedIsSettled(lib: Library, k: CrKey, before: Spec, after: Spec, c: ChildMap, q: Piece)
    requires AllSettled(Operator(lib), k, before, c) && InPlan(after, q) && !Affected(before, after, q)
    ensures Settled(Operator(lib), k, after, c, q)
  {
    hide Generate, SameInputs;
    GenerateReads(lib, k, Effective(before), Effective(after), q);
    assert Settled(Operator(lib), k, before, c, q);
  }

  /** After an edit of a resource that had converged, no pass, failing or not, changes a
      child the edit does not affect. */
  lemma EditReaches(lib: Library, k: CrKey, s: Store, before: Spec, script: seq<Tick>, key: Key)
    requires Quiet(script) && Live(s, k) && AllSettled(Operator(lib), k, before, s.children)
    requires !SameAt(s.children, Run(Operator(lib), k, s, Reading, script).store.children, key)
    ensures exists q :: Affected(before, s.crs[k].spec, q) && !CreateOnly(q) && key == Target(k, q)
  {
    hide Run, Affected, AllFrom, Wanted, WithFinalizer;
    var g, after, c := Operator(lib), s.crs[k].spec, s.children;
    var c' := Run(g, k, s, Reading, script).store.children;
    var stop := OrderedProgress(g, k, s, script);
    var q :| Between(after, q, Val(EsSts), stop) && Target(k, q) == key;
    assert CreateOnly(q) ==> InPlan(before, q);
    assert CreateOnly(q) && InPlan(before, q) ==> Settled(g, k, before, c, q);
    assert CreateOnly(q) && Target(k, q) in c ==> SameAt(c, c', Target(k, q));
    if !Affected(before, after, q) {
      UnaffectedIsSettled(lib, k, before, after, c, q);
    }
  }

  /** The fields that reach no child. */
  datatype Unused = Unused(
    volume: Volume, replicas: int, elasticPolicy: string, dashboardPolicy: string, serverPolicy: string,
    tls: Opt<seq<Tls>>, path: string, pathType: string, serviceName: string,
    cassandraClaims: Strings, elasticClaims: Strings, dashboardClaims: Strings, serverClaims: Strings,
    metricsClaims: Strings)

  function Claiming(r: Resources, claims: Strings): Resources {
    r.(claims := claims)
  }

  function WithUnused(s: Spec, u: Unused): Spec {
    var (es, ds, srv) := (s.axonops.elastic, s.axonops.dashboard, s.axonops.server);
    var ingress := ds.ingress.(tls := u.tls, path := u.path, pathType := u.pathType, serviceName := u.serviceName);
    var mc := srv.metricsCluster.(resources := Claiming(srv.metricsCluster.resources, u.metricsClaims));
    var ds' := ds.(replicas := u.replicas, pullPolicy := u.dashboardPolicy, ingress := ingress,
                   resources := Claiming(ds.resources, u.dashboardClaims));
    var es' := es.(pullPolicy := u.elasticPolicy, resources := Claiming(es.resources, u.elasticClaims));
    var srv' := srv.(pullPolicy := u.serverPolicy, metricsCluster := mc,
                     resources := Claiming(srv.resources, u.serverClaims));
    Spec(s.cassandra.(volume := u.volume, resources := Claiming(s.cassandra.resources, u.cassandraClaims)),
         AxonOpsSpec(ds', srv', es'))
  }

  lemma UnusedAffectsNothing(s: Spec, u: Unused, q: Piece)
    ensures !Affected(s, WithUnused(s, u), q)
  {
  }

  /** Editing them is never noticed: the dashboard's replicas, the pull policies of all but
      Cassandra, the Ingress's TLS list, path, path type and Service name, the main
      cluster's own volume, and the resource claims of every component. */
  lemma UnusedFields(lib: Library, k: CrKey, s: Store, before: Spec, u: Unused, script: seq<Tick>)
    requires Quiet(script) && Live(s, k) && AllSettled(Operator(lib), k, before, s.children)
    requires s.crs[k].spec == WithUnused(before, u)
    ensures Run(Operator(lib), k, s, Reading, script).store.children == s.children
  {
    hide Run, Affected, WithUnused;
    var c' := Run(Operator(lib), k, s, Reading, script).store.children;
    forall key ensures SameAt(s.children, c', key) {
      if !SameAt(s.children, c', key) {
        EditReaches(lib, k, s, before, script, key);
        var q :| Affected(before, s.crs[k].spec, q) && key == Target(k, q);
        UnusedAffectsNothing(before, u, q);
      }
    }
    assert forall key :: SameAt(s.children, c', key);
    SameChildren(s.children, c');
  }

  lemma SameChildren(c: ChildMap, d: ChildMap)
    requires forall key :: SameAt(c, d, key)
    ensures c == d
  {
    forall key ensures key in c <==> key in d {
      assert SameAt(c, d, key);
    }
    forall key | key in c ensures c[key] == d[key] {
      assert SameAt(c, d, key);
    }
  }
}
