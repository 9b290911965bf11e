/** The child objects of a custom resource: one piece for every create-or-update
    block of Reconcile, in the order of the source. */
module Children {
  import opened Types
  import opened Apps

  datatype Piece = EsSts | EsSvc | DsDep | DsSvc | DsIng | MtSts | MtSvc | AsSts | AsSvc | CaSts | CaSvc

  function Ord(q: Piece): nat {
    match q
    case EsSts => 0
    case EsSvc => 1
    case DsDep => 2
    case DsSvc => 3
    case DsIng => 4
    case MtSts => 5
    case MtSvc => 6
    case AsSts => 7
    case AsSvc => 8
    case CaSts => 9
    case CaSvc => 10
  }

  predicate MetricsOn(spec: Spec) {
    spec.axonops.server.metricsEnabled
  }

  predicate InPlan(spec: Spec, q: Piece) {
    match q
    case DsIng => spec.axonops.dashboard.ingress.enabled
    case MtSts => MetricsOn(spec)
    case MtSvc => MetricsOn(spec)
    case _ => true
  }

  /** The block that runs after block q. */
  function Next(spec: Spec, q: Piece): Opt<Piece> {
    match q
    case EsSts => Val(EsSvc)
    case EsSvc => Val(DsDep)
    case DsDep => Val(DsSvc)
    case DsSvc => if InPlan(spec, DsIng) then Val(DsIng) else if MetricsOn(spec) then Val(MtSts) else Val(AsSts)
    case DsIng => if MetricsOn(spec) then Val(MtSts) else Val(AsSts)
    case MtSts => Val(MtSvc)
    case MtSvc => Val(AsSts)
    case AsSts => Val(AsSvc)
    case AsSvc => Val(CaSts)
    case CaSts => Val(CaSvc)
    case CaSvc => Nil
  }

  /** The Elasticsearch and dashboard Services are created but never updated. */
  predicate CreateOnly(q: Piece) {
    q == EsSvc || q == DsSvc
  }

  /** The key a block writes. */
  function Target(k: CrKey, q: Piece): Key {
    match q
    case EsSts => Key(StatefulSets, k.ns, "es-" + k.name)
    case EsSvc => Key(Services, k.ns, "es-" + k.name)
    case DsDep => Key(Deployments, k.ns, "ds-" + k.name)
    case DsSvc => Key(Services, k.ns, "ds-" + k.name)
    case DsIng => Key(Ingresses, k.ns, "ds-" + k.name)
    case MtSts => Key(StatefulSets, k.ns, "ca-" + ("metrics-" + k.name))
    case MtSvc => Key(Services, k.ns, "ca-" + ("metrics-" + k.name))
    case AsSts => Key(StatefulSets, k.ns, "as-" + k.name)
    case AsSvc => Key(Services, k.ns, "as-" + k.name)
    case CaSts => Key(StatefulSets, k.ns, "ca-" + k.name)
    case CaSvc => Key(Services, k.ns, "ca-" + k.name)
  }

  /** The key a block looks up first: the metrics blocks look somewhere else than they write. */
  function Lookup(k: CrKey, q: Piece): Key {
    match q
    case MtSts => Key(StatefulSets, k.ns, "ca-mt-" + k.name)
    case MtSvc => Key(Services, k.ns, "ca-" + k.name)
    case _ => Target(k, q)
  }

  /** The nine children every custom resource may own. */
  predicate Base(q: Piece) {
    q != MtSts && q != MtSvc
  }

  /** The main Cassandra cluster takes its storage from the metrics cluster's volume. */
  function Generate(lib: Library, k: CrKey, spec: Spec, q: Piece): Opt<Manifest> {
    var volume := spec.axonops.server.metricsCluster.volume;
    match q
    case EsSts => GenerateElasticsearchConfig(lib, k, spec)
    case EsSvc => GenerateElasticsearchServiceConfig(lib, k, spec)
    case DsDep => GenerateDashboardConfig(lib, k, spec)
    case DsSvc => GenerateDashboardServiceConfig(lib, k, spec)
    case DsIng => GenerateDashboardIngressConfig(lib, k, spec)
    case MtSts => GenerateCassandraConfig(lib, "metrics-" + k.name, k.ns, volume.size, volume.storageClass,
                                          spec.axonops.server.metricsCluster)
    case MtSvc => GenerateCassandraServiceConfig(lib, "metrics-" + k.name, k.ns, spec.cassandra.labels,
                                                 spec.cassandra.annotations)
    case AsSts => GenerateServerConfig(lib, k, spec)
    case AsSvc => GenerateServerServiceConfig(lib, k, spec)
    case CaSts => GenerateCassandraConfig(lib, k.name, k.ns, volume.size, volume.storageClass, spec.cassandra)
    case CaSvc => GenerateCassandraServiceConfig(lib, k.name, k.ns, spec.cassandra.labels, spec.cassandra.annotations)
  }

  /** The default the metrics block writes into its in-memory copy of the spec. */
  function WithDc(spec: Spec): Spec {
    if spec.cassandra.dc == "" then spec.(cassandra := spec.cassandra.(dc := "axonops1")) else spec
  }

  /** The StatefulSet names the deletion branch collects. */
  function StatefulSetNames(k: CrKey, spec: Spec): seq<string> {
    ["es-" + k.name, "ca-" + k.name, "as-" + k.name] + if MetricsOn(spec) then ["ca-mt-" + k.name] else []
  }

  /** Each is deleted with the Service of the same name. */
  function NamesToKeys(k: CrKey, names: seq<string>): seq<Key> {
    if names == [] then []
    else [Key(StatefulSets, k.ns, names[0]), Key(Services, k.ns, names[0])] + NamesToKeys(k, names[1..])
  }

  function DashKeys(k: CrKey): seq<Key> {
    [Key(Deployments, k.ns, "ds-" + k.name), Key(Services, k.ns, "ds-" + k.name), Key(Ingresses, k.ns, "ds-" + k.name)]
  }

  /** The keys of the teardown lists, in the order they are deleted. */
  function Teardown(k: CrKey, spec: Spec): seq<Key> {
    NamesToKeys(k, StatefulSetNames(k, spec)) + DashKeys(k)
  }

  lemma {:induction false} NamesToKeysLength(k: CrKey, names: seq<string>)
    ensures |NamesToKeys(k, names)| == 2 * |names|
    ensures forall key :: key in NamesToKeys(k, names) <==>
              (key.kind == StatefulSets || key.kind == Services) && key.ns == k.ns && key.name in names
  {
    if names != [] {
      NamesToKeysLength(k, names[1..]);
    }
  }

  /** Teardown deletes the nine base children and, with metrics on, the two objects called ca-mt-. */
  lemma TeardownKeys(k: CrKey, spec: Spec, key: Key)
    ensures key in Teardown(k, spec) <==>
              (exists q :: Base(q) && key == Target(k, q)) || (MetricsOn(spec) && MtKey(k, key))
  {
    NamesToKeysLength(k, StatefulSetNames(k, spec));
    assert key in Teardown(k, spec) <==> key in NamesToKeys(k, StatefulSetNames(k, spec)) || key in DashKeys(k);
    BaseKeys(k, key);
  }

  predicate MtKey(k: CrKey, key: Key) {
    (key.kind == StatefulSets || key.kind == Services) && key.ns == k.ns && key.name == "ca-mt-" + k.name
  }

  lemma BaseKeys(k: CrKey, key: Key)
    ensures (exists q :: Base(q) && key == Target(k, q)) <==>
      || ((key.kind == StatefulSets || key.kind == Services) && key.ns == k.ns
          && key.name in ["es-" + k.name, "ca-" + k.name, "as-" + k.name])
      || key in DashKeys(k)
  {
    assert Base(EsSts) && Base(EsSvc) && Base(DsDep) && Base(DsSvc) && Base(DsIng);
    assert Base(AsSts) && Base(AsSvc) && Base(CaSts) && Base(CaSvc);
  }

  // ---------- names

  lemma PrefixInjective(p: string, a: string, b: string)
    requires p + a == p + b
    ensures a == b
  {
    assert (p + a)[|p|..] == a;
    assert (p + b)[|p|..] == b;
  }

  lemma PrefixesDiffer(p: string, a: string, p': string, b: string, i: nat)
    requires i < |p| && i < |p'| && p[i] != p'[i]
    ensures p + a != p' + b
  {
    assert (p + a)[i] == p[i] && (p' + b)[i] == p'[i];
  }

  /** What two resources of one namespace have to be called for the children of the
      first to collide with those of the second. */
  predicate MetricsClash(k: CrKey, j: CrKey) {
    k.ns == j.ns && j.name == "metrics-" + k.name
  }

  predicate MtClash(k: CrKey, j: CrKey) {
    k.ns == j.ns && j.name == "mt-" + k.name
  }

  lemma NamesApart(a: string, b: string)
    ensures "es-" + a != "ds-" + b && "es-" + a != "as-" + b && "es-" + a != "ca-" + b
    ensures "ds-" + a != "as-" + b && "ds-" + a != "ca-" + b && "as-" + a != "ca-" + b
    ensures "es-" + a == "es-" + b ==> a == b
    ensures "ds-" + a == "ds-" + b ==> a == b
    ensures "as-" + a == "as-" + b ==> a == b
    ensures "ca-" + a == "ca-" + b ==> a == b
  {
    PrefixesDiffer("es-", a, "ds-", b, 0);
    PrefixesDiffer("es-", a, "as-", b, 0);
    PrefixesDiffer("es-", a, "ca-", b, 0);
    PrefixesDiffer("ds-", a, "as-", b, 0);
    PrefixesDiffer("ds-", a, "ca-", b, 0);
    PrefixesDiffer("as-", a, "ca-", b, 0);
    if "es-" + a == "es-" + b { PrefixInjective("es-", a, b); }
    if "ds-" + a == "ds-" + b { PrefixInjective("ds-", a, b); }
    if "as-" + a == "as-" + b { PrefixInjective("as-", a, b); }
    if "ca-" + a == "ca-" + b { PrefixInjective("ca-", a, b); }
  }

  /** The names after "ca-": the metrics prefixes never coincide with each other or with the bare name. */
  lemma CassandraNames(a: string, b: string)
    ensures "ca-mt-" + a == "ca-" + ("mt-" + a)
    ensures "metrics-" + a != "mt-" + b
    ensures "metrics-" + a == "metrics-" + b ==> a == b
    ensures "mt-" + a == "mt-" + b ==> a == b
    ensures "metrics-" + a != a && "mt-" + a != a
  {
    assert "ca-mt-" + a == "ca-" + ("mt-" + a);
    PrefixesDiffer("metrics-", a, "mt-", b, 1);
    if "metrics-" + a == "metrics-" + b { PrefixInjective("metrics-", a, b); }
    if "mt-" + a == "mt-" + b { PrefixInjective("mt-", a, b); }
    assert |"metrics-" + a| != |a| && |"mt-" + a| != |a|;
  }

  /** Two blocks write the same key only if they are the same block of the same
      resource, or one is a metrics block and the names clash. */
  lemma TargetsCollide(k: CrKey, p: Piece, j: CrKey, q: Piece)
    ensures Target(k, p) == Target(j, q) <==>
      || (k == j && p == q)
      || (MetricsClash(k, j) && ((p == MtSts && q == CaSts) || (p == MtSvc && q == CaSvc)))
      || (MetricsClash(j, k) && ((q == MtSts && p == CaSts) || (q == MtSvc && p == CaSvc)))
  {
    NamesApart(k.name, j.name);
    NamesApart(j.name, k.name);
    CassandraNames(k.name, j.name);
    CassandraNames(j.name, k.name);
    NamesApart("metrics-" + k.name, "metrics-" + j.name);
    NamesApart("metrics-" + k.name, j.name);
    NamesApart("metrics-" + j.name, k.name);
    NamesApart(k.name, "metrics-" + j.name);
    NamesApart(j.name, "metrics-" + k.name);
  }

  /** The objects called ca-mt- that a teardown deletes are another resource's children only if the names clash. */
  lemma MtKeysCollide(j: CrKey, k: CrKey, q: Piece)
    ensures MtKey(j, Target(k, q)) <==> MtClash(j, k) && (q == CaSts || q == CaSvc)
  {
    CassandraNames(j.name, k.name);
    CassandraNames(k.name, j.name);
    NamesApart("mt-" + j.name, k.name);
    NamesApart(k.name, "mt-" + j.name);
    NamesApart("mt-" + j.name, "metrics-" + k.name);
  }

  // ---------- the generators as one partial function

  /** An object carries the key and the labels of its block. */
  predicate LabelledBy(g: (CrKey, Spec, Piece) -> Opt<Manifest>, k: CrKey, spec: Spec, q: Piece) {
    g(k, spec, q).Val? ==> Labelled(g(k, spec, q).value, Target(k, q))
  }

  /** Only the main Cassandra StatefulSet depends on the main data centre. */
  ghost predicate IgnoresDc(g: (CrKey, Spec, Piece) -> Opt<Manifest>, k: CrKey, spec: Spec, q: Piece) {
    q != CaSts ==> g(k, WithDc(spec), q) == g(k, spec, q)
  }

  /** What the passes rely on. */
  ghost predicate Wellbehaved(g: (CrKey, Spec, Piece) -> Opt<Manifest>) {
    && (forall k, spec, q :: LabelledBy(g, k, spec, q))
    && (forall k, spec, q :: IgnoresDc(g, k, spec, q))
  }

  type Generator = g: (CrKey, Spec, Piece) -> Opt<Manifest> | Wellbehaved(g)
    ghost witness (k: CrKey, spec: Spec, q: Piece) => Nil

  lemma GenerateLabelled(lib: Library, k: CrKey, spec: Spec, q: Piece)
    ensures Generate(lib, k, spec, q).Val? ==> Labelled(Generate(lib, k, spec, q).value, Target(k, q))
  {
  }

  lemma GenerateIgnoresDc(lib: Library, k: CrKey, spec: Spec, q: Piece)
    requires q != CaSts
    ensures Generate(lib, k, WithDc(spec), q) == Generate(lib, k, spec, q)
  {
  }

  /** The operator's own generators, over any library. */
  function Operator(lib: Library): (g: Generator)
    ensures forall k, spec, q :: g(k, spec, q) == Generate(lib, k, spec, q)
  {
    var g := (k: CrKey, spec: Spec, q: Piece) => Generate(lib, k, spec, q);
    assert Wellbehaved(g) by {
      forall k, spec, q ensures LabelledBy(g, k, spec, q) {
        GenerateLabelled(lib, k, spec, q);
      }
      forall k, spec, q ensures IgnoresDc(g, k, spec, q) {
        if q != CaSts {
          GenerateIgnoresDc(lib, k, spec, q);
        }
      }
    }
    g
  }
}
