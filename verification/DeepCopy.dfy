/** The generated DeepCopyInto family over Go's heap.

    A struct is a value whose maps and slices are references, so that the opening
    assignment of every DeepCopyInto aliases all of them.  `XShows(x, v, fp)` says that
    a reader of x sees the value v, nil and empty told apart, and that the maps and
    arrays it goes through are in fp.  `XApart(x, v, fp)` says besides that the parts of
    x live in disjoint pieces of fp, down to the single map or array.  Every method takes
    a struct that shows v over any footprint, shared references included, and returns
    one that is apart in new objects and shows the same v.  No method has a modifies
    clause: nothing that existed before is written. */
module DeepCopy {
  import opened Types
  import opened GoHeap

  // The instances of the struct layouts whose maps and slices are references.
  type Strs = GoSlice<string>
  type Envs = GoSlice<EnvVar>
  type HTls = TlsOf<Strs>
  type Tlss = GoSlice<HTls>
  type HResources = ResourcesOf<GoMap?, Strs>
  type HIngress = IngressOf<GoMap?, Strs, Tlss>
  type HCassandra = CassandraOf<GoMap?, Strs, Envs>
  type HDashboard = DashboardOf<GoMap?, Strs, Envs, Tlss>
  type HServer = ServerOf<GoMap?, Strs, Envs>
  type HElastic = ElasticOf<GoMap?, Strs, Envs>
  type HAxonOps = AxonOpsOf<GoMap?, Strs, Envs, Tlss>
  type HSpec = SpecOf<GoMap?, Strs, Envs, Tlss>

  // ---------- maps and slices

  ghost predicate MapShows(g: GoMap?, v: Dict, fp: set<object>)
    reads fp
  {
    if g == null then v == Nil else g in fp && v == Val(g.m)
  }

  ghost predicate SliceShows<T>(s: GoSlice<T>, v: Opt<seq<T>>, fp: set<object>)
    reads fp
  {
    if s.NilSlice? then v == Nil else s.arr in fp && v == Val(s.arr[s.off..s.off + s.len])
  }

  /** make, then one assignment for every entry, in no particular order. */
  method CopyMap(inp: GoMap?, ghost v: Dict, ghost from: set<object>) returns (out: GoMap?)
    requires MapShows(inp, v, from)
    ensures MapShows(out, v, MapRefs(out)) && fresh(MapRefs(out))
  {
    if inp == null {
      return null;
    }
    out := new GoMap();
    var left := inp.m.Keys;
    while left != {}
      invariant left <= inp.m.Keys && inp.m == old(inp.m)
      invariant out.m.Keys == inp.m.Keys - left && forall k :: k in out.m ==> out.m[k] == inp.m[k]
      decreases |left|
    {
      var k :| k in left;
      left := left - {k};
      out.m := out.m[k := inp.m[k]];
    }
    assert out.m == inp.m;
  }

  /** make, then copy, for a slice of plain values. */
  method CopySlice<T(0)>(inp: GoSlice<T>, ghost v: Opt<seq<T>>, ghost from: set<object>) returns (out: GoSlice<T>)
    requires SliceShows(inp, v, from)
    ensures SliceShows(out, v, SliceRefs(out)) && fresh(SliceRefs(out))
  {
    if inp.NilSlice? {
      return NilSlice;
    }
    var arr := new T[inp.len];
    for i := 0 to inp.len
      invariant forall j :: 0 <= j < i ==> arr[j] == inp.arr[inp.off + j]
    {
      arr[i] := inp.arr[inp.off + i];
    }
    out := Slice(arr, 0, inp.len, inp.len);
    assert arr[0..inp.len] == inp.arr[inp.off..inp.off + inp.len];
  }

  // ---------- resources

  ghost predicate ResourcesShows(r: HResources, v: Resources, fp: set<object>)
    reads fp
  {
    MapShows(r.limits, v.limits, fp) && MapShows(r.requests, v.requests, fp) && SliceShows(r.claims, v.claims, fp)
  }

  ghost predicate ResourcesApart(r: HResources, v: Resources, fp: set<object>)
    reads fp
  {
    && ResourcesShows(r, v, fp)
    && MapRefs(r.limits) !! MapRefs(r.requests)
    && MapRefs(r.limits) !! SliceRefs(r.claims) && MapRefs(r.requests) !! SliceRefs(r.claims)
  }

  method CopyResources(inp: HResources, ghost v: Resources, ghost from: set<object>)
    returns (out: HResources, ghost fp: set<object>)
    requires ResourcesShows(inp, v, from)
    ensures ResourcesApart(out, v, fp) && fresh(fp)
  {
    out := inp;
    var limits := CopyMap(inp.limits, v.limits, from);
    out := out.(limits := limits);
    var requests := CopyMap(inp.requests, v.requests, from);
    out := out.(requests := requests);
    var claims := CopySlice(inp.claims, v.claims, from);
    out := out.(claims := claims);
    fp := MapRefs(limits) + MapRefs(requests) + SliceRefs(claims);
  }

  // ---------- the two maps of a manifest's metadata

  datatype LabelsOf<M> = LabelPair(annotations: M, labels: M)

  ghost predicate LabelsShow(p: LabelsOf<GoMap?>, v: LabelsOf<Dict>, fp: set<object>)
    reads fp
  {
    MapShows(p.annotations, v.annotations, fp) && MapShows(p.labels, v.labels, fp)
  }

  ghost predicate LabelsApart(p: LabelsOf<GoMap?>, v: LabelsOf<Dict>, fp: set<object>)
    reads fp
  {
    LabelsShow(p, v, fp) && MapRefs(p.annotations) !! MapRefs(p.labels)
  }

  method CopyLabels(inp: LabelsOf<GoMap?>, ghost v: LabelsOf<Dict>, ghost from: set<object>)
    returns (out: LabelsOf<GoMap?>, ghost fp: set<object>)
    requires LabelsShow(inp, v, from)
    ensures LabelsApart(out, v, fp) && fresh(fp)
  {
    out := inp;
    var annotations := CopyMap(inp.annotations, v.annotations, from);
    out := out.(annotations := annotations);
    var labels := CopyMap(inp.labels, v.labels, from);
    out := out.(labels := labels);
    fp := MapRefs(annotations) + MapRefs(labels);
  }

  // ---------- environment and resources, which every workload has

  datatype LoadOf<M, S, E> = Load(env: E, resources: ResourcesOf<M, S>)
  type Load = LoadOf<Dict, Strings, Env>
  type HLoad = LoadOf<GoMap?, Strs, Envs>

  ghost predicate LoadShows(l: HLoad, v: Load, fp: set<object>)
    reads fp
  {
    SliceShows(l.env, v.env, fp) && ResourcesShows(l.resources, v.resources, fp)
  }

  ghost predicate LoadApart(l: HLoad, v: Load, fp: set<object>)
    reads fp
  {
    exists e, r ::
      e <= fp && r <= fp && e !! r && SliceShows(l.env, v.env, e) && ResourcesApart(l.resources, v.resources, r)
  }

  method CopyLoad(inp: HLoad, ghost v: Load, ghost from: set<object>) returns (out: HLoad, ghost fp: set<object>)
    requires LoadShows(inp, v, from)
    ensures LoadApart(out, v, fp) && fresh(fp)
  {
    out := inp;
    var env := CopySlice(inp.env, v.env, from);
    out := out.(env := env);
    ghost var e := SliceRefs(env);
    var resources, r := CopyResources(inp.resources, v.resources, from);
    out := out.(resources := resources);
    fp := e + r;
    assert SliceShows(out.env, v.env, e) && ResourcesApart(out.resources, v.resources, r);
  }

  // ---------- all the references of a cluster, and those of a server or dashboard but for its nested struct

  datatype BodyOf<M, S, E> = Body(maps: LabelsOf<M>, load: LoadOf<M, S, E>)
  type Body = BodyOf<Dict, Strings, Env>
  type HBody = BodyOf<GoMap?, Strs, Envs>

  ghost predicate BodyShows(b: HBody, v: Body, fp: set<object>)
    reads fp
  {
    LabelsShow(b.maps, v.maps, fp) && LoadShows(b.load, v.load, fp)
  }

  ghost predicate BodyApart(b: HBody, v: Body, fp: set<object>)
    reads fp
  {
    exists m, l :: m <= fp && l <= fp && m !! l && LabelsApart(b.maps, v.maps, m) && LoadApart(b.load, v.load, l)
  }

  method CopyBody(inp: HBody, ghost v: Body, ghost from: set<object>) returns (out: HBody, ghost fp: set<object>)
    requires BodyShows(inp, v, from)
    ensures BodyApart(out, v, fp) && fresh(fp)
  {
    hide LabelsShow, LabelsApart, LoadShows, LoadApart;
    out := inp;
    var maps, m := CopyLabels(inp.maps, v.maps, from);
    out := out.(maps := maps);
    var load, l := CopyLoad(inp.load, v.load, from);
    out := out.(load := load);
    fp := m + l;
    assert LabelsApart(out.maps, v.maps, m) && LoadApart(out.load, v.load, l);
  }

  // ---------- a Cassandra cluster

  function CassandraBody<M, S, E>(c: CassandraOf<M, S, E>): BodyOf<M, S, E> {
    Body(LabelPair(c.annotations, c.labels), Load(c.env, c.resources))
  }

  ghost predicate SamePlainCassandra(c: HCassandra, v: CassandraSpec) {
    && c.image == v.image && c.replicas == v.replicas && c.clusterName == v.clusterName && c.dc == v.dc
    && c.volume == v.volume && c.javaOpts == v.javaOpts && c.heapSize == v.heapSize && c.pullPolicy == v.pullPolicy
  }

  ghost predicate CassandraShows(c: HCassandra, v: CassandraSpec, fp: set<object>)
    reads fp
  {
    SamePlainCassandra(c, v) && BodyShows(CassandraBody(c), CassandraBody(v), fp)
  }

  ghost predicate CassandraApart(c: HCassandra, v: CassandraSpec, fp: set<object>)
    reads fp
  {
    SamePlainCassandra(c, v) && BodyApart(CassandraBody(c), CassandraBody(v), fp)
  }

  method CopyCassandra(inp: HCassandra, ghost v: CassandraSpec, ghost from: set<object>)
    returns (out: HCassandra, ghost fp: set<object>)
    requires CassandraShows(inp, v, from)
    ensures CassandraApart(out, v, fp) && fresh(fp)
  {
    hide BodyShows, BodyApart;
    out := inp;
    var b, refs := CopyBody(CassandraBody(inp), CassandraBody(v), from);
    out := out.(annotations := b.maps.annotations, labels := b.maps.labels,
                env := b.load.env, resources := b.load.resources);
    fp := refs;
    assert CassandraBody(out) == b;
  }

  // ---------- elasticsearch

  ghost predicate SamePlainElastic(e: HElastic, v: ElasticSpec) {
    && e.image == v.image && e.volume == v.volume && e.javaOpts == v.javaOpts
    && e.clusterName == v.clusterName && e.pullPolicy == v.pullPolicy
  }

  ghost predicate ElasticShows(e: HElastic, v: ElasticSpec, fp: set<object>)
    reads fp
  {
    SamePlainElastic(e, v) && LoadShows(Load(e.env, e.resources), Load(v.env, v.resources), fp)
  }

  ghost predicate ElasticApart(e: HElastic, v: ElasticSpec, fp: set<object>)
    reads fp
  {
    SamePlainElastic(e, v) && LoadApart(Load(e.env, e.resources), Load(v.env, v.resources), fp)
  }

  method CopyElastic(inp: HElastic, ghost v: ElasticSpec, ghost from: set<object>)
    returns (out: HElastic, ghost fp: set<object>)
    requires ElasticShows(inp, v, from)
    ensures ElasticApart(out, v, fp) && fresh(fp)
  {
    out := inp;
    var load, refs := CopyLoad(Load(inp.env, inp.resources), Load(v.env, v.resources), from);
    out := out.(env := load.env, resources := load.resources);
    fp := refs;
    assert Load(out.env, out.resources) == load;
  }

  // ---------- the AxonOps server with its metrics cluster

  function ServerBody<M, S, E>(s: ServerOf<M, S, E>): BodyOf<M, S, E> {
    Body(LabelPair(s.annotations, s.labels), Load(s.env, s.resources))
  }

  ghost predicate SamePlainServer(s: HServer, v: ServerSpec) {
    s.image == v.image && s.pullPolicy == v.pullPolicy && s.metricsEnabled == v.metricsEnabled
  }

  ghost predicate ServerShows(s: HServer, v: ServerSpec, fp: set<object>)
    reads fp
  {
    && SamePlainServer(s, v) && BodyShows(ServerBody(s), ServerBody(v), fp)
    && CassandraShows(s.metricsCluster, v.metricsCluster, fp)
  }

  ghost predicate ServerApart(s: HServer, v: ServerSpec, fp: set<object>)
    reads fp
  {
    exists b, c ::
      && b <= fp && c <= fp && b !! c && SamePlainServer(s, v)
      && BodyApart(ServerBody(s), ServerBody(v), b) && CassandraApart(s.metricsCluster, v.metricsCluster, c)
  }

  method CopyServer(inp: HServer, ghost v: ServerSpec, ghost from: set<object>)
    returns (out: HServer, ghost fp: set<object>)
    requires ServerShows(inp, v, from)
    ensures ServerApart(out, v, fp) && fresh(fp)
  {
    hide BodyShows, BodyApart, CassandraShows, CassandraApart;
    out := inp;
    var body, b := CopyBody(ServerBody(inp), ServerBody(v), from);
    out := out.(annotations := body.maps.annotations, labels := body.maps.labels,
                env := body.load.env, resources := body.load.resources);
    var cluster, c := CopyCassandra(inp.metricsCluster, v.metricsCluster, from);
    out := out.(metricsCluster := cluster);
    fp := b + c;
    assert BodyApart(ServerBody(out), ServerBody(v), b);
    assert CassandraApart(out.metricsCluster, v.metricsCluster, c);
  }

  // ---------- an Ingress: its TLS entries are structs with a slice each

  ghost predicate EntryShows(e: HTls, v: Tls, fp: set<object>)
    reads fp
  {
    e.secretName == v.secretName && SliceShows(e.hosts, v.hosts, fp)
  }

  ghost predicate TlsShow(t: Tlss, v: Opt<seq<Tls>>, fp: set<object>)
    reads fp
  {
    if t.NilSlice? then v == Nil
    else
      && t.arr in fp && v.Val? && |v.value| == t.len
      && forall i :: 0 <= i < t.len ==> EntryShows(At(t, i), v.value[i], fp)
  }

  ghost predicate TlsApart(t: Tlss, v: Opt<seq<Tls>>, fp: set<object>)
    reads fp
  {
    && TlsShow(t, v, fp)
    && (t.Slice? ==>
      && (forall i :: 0 <= i < t.len ==> t.arr !in SliceRefs(At(t, i).hosts))
      && forall i, j :: 0 <= i < j < t.len ==> SliceRefs(At(t, i).hosts) !! SliceRefs(At(t, j).hosts))
  }

  method CopyEntry(inp: HTls, ghost v: Tls, ghost from: set<object>) returns (out: HTls)
    requires EntryShows(inp, v, from)
    ensures EntryShows(out, v, SliceRefs(out.hosts)) && fresh(SliceRefs(out.hosts))
  {
    out := inp;
    var hosts := CopySlice(inp.hosts, v.hosts, from);
    out := out.(hosts := hosts);
  }

  lemma EntryWider(e: HTls, v: Tls, f: set<object>, g: set<object>)
    requires EntryShows(e, v, f) && f <= g
    ensures EntryShows(e, v, g)
  {
  }

  method CopyTls(inp: Tlss, ghost v: Opt<seq<Tls>>, ghost from: set<object>) returns (out: Tlss, ghost fp: set<object>)
    requires TlsShow(inp, v, from)
    ensures TlsApart(out, v, fp) && fresh(fp)
  {
    hide EntryShows, SliceRefs;
    if inp.NilSlice? {
      return NilSlice, {};
    }
    var arr := new HTls[inp.len];
    fp := {arr};
    for i := 0 to inp.len
      invariant arr in fp && fresh(fp)
      invariant forall j :: 0 <= j < i ==> EntryShows(arr[j], v.value[j], SliceRefs(arr[j].hosts))
      invariant forall j :: 0 <= j < i ==> SliceRefs(arr[j].hosts) <= fp - {arr}
      invariant forall j, k :: 0 <= j < k < i ==> SliceRefs(arr[j].hosts) !! SliceRefs(arr[k].hosts)
    {
      assert EntryShows(At(inp, i), v.value[i], from);
      var e := CopyEntry(inp.arr[inp.off + i], v.value[i], from);
      arr[i] := e;
      fp := fp + SliceRefs(e.hosts);
    }
    out := Slice(arr, 0, inp.len, inp.len);
    forall i | 0 <= i < out.len ensures EntryShows(At(out, i), v.value[i], fp) {
      EntryWider(At(out, i), v.value[i], SliceRefs(At(out, i).hosts), fp);
    }
  }

  datatype RoutesOf<S, T> = Routes(hosts: S, tls: T)
  type Routes = RoutesOf<Strings, Opt<seq<Tls>>>
  type HRoutes = RoutesOf<Strs, Tlss>

  ghost predicate RoutesShow(r: HRoutes, v: Routes, fp: set<object>)
    reads fp
  {
    SliceShows(r.hosts, v.hosts, fp) && TlsShow(r.tls, v.tls, fp)
  }

  ghost predicate RoutesApart(r: HRoutes, v: Routes, fp: set<object>)
    reads fp
  {
    exists h, t :: h <= fp && t <= fp && h !! t && SliceShows(r.hosts, v.hosts, h) && TlsApart(r.tls, v.tls, t)
  }

  method CopyRoutes(inp: HRoutes, ghost v: Routes, ghost from: set<object>)
    returns (out: HRoutes, ghost fp: set<object>)
    requires RoutesShow(inp, v, from)
    ensures RoutesApart(out, v, fp) && fresh(fp)
  {
    out := inp;
    var hosts := CopySlice(inp.hosts, v.hosts, from);
    out := out.(hosts := hosts);
    ghost var h := SliceRefs(hosts);
    var tls, t := CopyTls(inp.tls, v.tls, from);
    out := out.(tls := tls);
    fp := h + t;
    assert SliceShows(out.hosts, v.hosts, h) && TlsApart(out.tls, v.tls, t);
  }

  ghost predicate SamePlainIngress(g: HIngress, v: IngressSpec) {
    && g.enabled == v.enabled && g.apiVersion == v.apiVersion && g.className == v.className
    && g.path == v.path && g.pathType == v.pathType && g.serviceName == v.serviceName
  }

  ghost predicate IngressShows(g: HIngress, v: IngressSpec, fp: set<object>)
    reads fp
  {
    && SamePlainIngress(g, v) && LabelsShow(LabelPair(g.annotations, g.labels), LabelPair(v.annotations, v.labels), fp)
    && RoutesShow(Routes(g.hosts, g.tls), Routes(v.hosts, v.tls), fp)
  }

  ghost predicate IngressApart(g: HIngress, v: IngressSpec, fp: set<object>)
    reads fp
  {
    exists m, r ::
      && m <= fp && r <= fp && m !! r && SamePlainIngress(g, v)
      && LabelsApart(LabelPair(g.annotations, g.labels), LabelPair(v.annotations, v.labels), m)
      && RoutesApart(Routes(g.hosts, g.tls), Routes(v.hosts, v.tls), r)
  }

  method CopyIngress(inp: HIngress, ghost v: IngressSpec, ghost from: set<object>)
    returns (out: HIngress, ghost fp: set<object>)
    requires IngressShows(inp, v, from)
    ensures IngressApart(out, v, fp) && fresh(fp)
  {
    out := inp;
    var maps, m := CopyLabels(LabelPair(inp.annotations, inp.labels), LabelPair(v.annotations, v.labels), from);
    out := out.(annotations := maps.annotations, labels := maps.labels);
    var routes, r := CopyRoutes(Routes(inp.hosts, inp.tls), Routes(v.hosts, v.tls), from);
    out := out.(hosts := routes.hosts, tls := routes.tls);
    fp := m + r;
    assert LabelsApart(LabelPair(out.annotations, out.labels), LabelPair(v.annotations, v.labels), m);
    assert RoutesApart(Routes(out.hosts, out.tls), Routes(v.hosts, v.tls), r);
  }

  // ---------- the dashboard

  function DashboardBody<M, S, E, T>(d: DashboardOf<M, S, E, T>): BodyOf<M, S, E> {
    Body(LabelPair(d.annotations, d.labels), Load(d.env, d.resources))
  }

  ghost predicate SamePlainDashboard(d: HDashboard, v: DashboardSpec) {
    d.image == v.image && d.replicas == v.replicas && d.pullPolicy == v.pullPolicy
  }

  ghost predicate DashboardShows(d: HDashboard, v: DashboardSpec, fp: set<object>)
    reads fp
  {
    SamePlainDashboard(d, v) && IngressShows(d.ingress, v.ingress, fp) &&
    BodyShows(DashboardBody(d), DashboardBody(v), fp)
  }

  ghost predicate DashboardApart(d: HDashboard, v: DashboardSpec, fp: set<object>)
    reads fp
  {
    exists g, b ::
      && g <= fp && b <= fp && g !! b && SamePlainDashboard(d, v)
      && IngressApart(d.ingress, v.ingress, g) && BodyApart(DashboardBody(d), DashboardBody(v), b)
  }

  method CopyDashboard(inp: HDashboard, ghost v: DashboardSpec, ghost from: set<object>)
    returns (out: HDashboard, ghost fp: set<object>)
    requires DashboardShows(inp, v, from)
    ensures DashboardApart(out, v, fp) && fresh(fp)
  {
    hide BodyShows, BodyApart, IngressShows, IngressApart;
    out := inp;
    var ingress, g := CopyIngress(inp.ingress, v.ingress, from);
    out := out.(ingress := ingress);
    var body, b := CopyBody(DashboardBody(inp), DashboardBody(v), from);
    out := out.(annotations := body.maps.annotations, labels := body.maps.labels,
                env := body.load.env, resources := body.load.resources);
    fp := g + b;
    assert IngressApart(out.ingress, v.ingress, g);
    assert BodyApart(DashboardBody(out), DashboardBody(v), b);
  }

  // ---------- the AxonOps components

  ghost predicate AxonOpsShows(a: HAxonOps, v: AxonOpsSpec, fp: set<object>)
    reads fp
  {
    && DashboardShows(a.dashboard, v.dashboard, fp) && ServerShows(a.server, v.server, fp)
    && ElasticShows(a.elastic, v.elastic, fp)
  }

  ghost predicate AxonOpsApart(a: HAxonOps, v: AxonOpsSpec, fp: set<object>)
    reads fp
  {
    exists d, s, e ::
      && d <= fp && s <= fp && e <= fp && d !! s && d !! e && s !! e
      && DashboardApart(a.dashboard, v.dashboard, d) && ServerApart(a.server, v.server, s)
      && ElasticApart(a.elastic, v.elastic, e)
  }

  method CopyAxonOps(inp: HAxonOps, ghost v: AxonOpsSpec, ghost from: set<object>)
    returns (out: HAxonOps, ghost fp: set<object>)
    requires AxonOpsShows(inp, v, from)
    ensures AxonOpsApart(out, v, fp) && fresh(fp)
  {
    hide DashboardShows, DashboardApart, ServerShows, ServerApart, ElasticShows, ElasticApart;
    out := inp;
    var dashboard, d := CopyDashboard(inp.dashboard, v.dashboard, from);
    out := out.(dashboard := dashboard);
    var server, s := CopyServer(inp.server, v.server, from);
    out := out.(server := server);
    var elastic, e := CopyElastic(inp.elastic, v.elastic, from);
    out := out.(elastic := elastic);
    fp := d + s + e;
    assert DashboardApart(out.dashboard, v.dashboard, d);
    assert ServerApart(out.server, v.server, s);
    assert ElasticApart(out.elastic, v.elastic, e);
  }

  // ---------- the spec

  ghost predicate SpecShows(x: HSpec, v: Spec, fp: set<object>)
    reads fp
  {
    CassandraShows(x.cassandra, v.cassandra, fp) && AxonOpsShows(x.axonops, v.axonops, fp)
  }

  ghost predicate SpecApart(x: HSpec, v: Spec, fp: set<object>)
    reads fp
  {
    exists c, a ::
      c <= fp && a <= fp && c !! a &&
      CassandraApart(x.cassandra, v.cassandra, c) && AxonOpsApart(x.axonops, v.axonops, a)
  }

  method CopySpec(inp: HSpec, ghost v: Spec, ghost from: set<object>) returns (out: HSpec, ghost fp: set<object>)
    requires SpecShows(inp, v, from)
    ensures SpecApart(out, v, fp) && fresh(fp)
  {
    hide CassandraShows, CassandraApart, AxonOpsShows, AxonOpsApart;
    out := inp;
    var cassandra, c := CopyCassandra(inp.cassandra, v.cassandra, from);
    out := out.(cassandra := cassandra);
    var axonops, a := CopyAxonOps(inp.axonops, v.axonops, from);
    out := out.(axonops := axonops);
    fp := c + a;
    assert CassandraApart(out.cassandra, v.cassandra, c);
    assert AxonOpsApart(out.axonops, v.axonops, a);
  }

  // ---------- the custom resource

  datatype MetaOf<M, S> =
    Meta(name: string, namespace: string, resourceVersion: string, maps: LabelsOf<M>, finalizers: S)
  datatype Condition = Condition(kind: string, status: string, reason: string, message: string)
  datatype StatusOf<C> = Status(reason: string, message: string, conditions: C)
  datatype CustomOf<M, S, E, T, C> =
    Custom(kind: string, meta: MetaOf<M, S>, spec: SpecOf<M, S, E, T>, status: StatusOf<C>)

  type Meta = MetaOf<Dict, Strings>
  type HMeta = MetaOf<GoMap?, Strs>
  type Status = StatusOf<Opt<seq<Condition>>>
  type HStatus = StatusOf<GoSlice<Condition>>
  type Custom = CustomOf<Dict, Strings, Env, Opt<seq<Tls>>, Opt<seq<Condition>>>
  type HCustom = CustomOf<GoMap?, Strs, Envs, Tlss, GoSlice<Condition>>

  ghost predicate MetaShows(m: HMeta, v: Meta, fp: set<object>)
    reads fp
  {
    && m.name == v.name && m.namespace == v.namespace && m.resourceVersion == v.resourceVersion
    && LabelsShow(m.maps, v.maps, fp) && SliceShows(m.finalizers, v.finalizers, fp)
  }

  ghost predicate MetaApart(m: HMeta, v: Meta, fp: set<object>)
    reads fp
  {
    && MetaShows(m, v, fp) && MapRefs(m.maps.annotations) !! MapRefs(m.maps.labels)
    && MapRefs(m.maps.annotations) !! SliceRefs(m.finalizers) && MapRefs(m.maps.labels) !! SliceRefs(m.finalizers)
  }

  method CopyMeta(inp: HMeta, ghost v: Meta, ghost from: set<object>) returns (out: HMeta, ghost fp: set<object>)
    requires MetaShows(inp, v, from)
    ensures MetaApart(out, v, fp) && fresh(fp)
  {
    out := inp;
    var maps, m := CopyLabels(inp.maps, v.maps, from);
    out := out.(maps := maps);
    var finalizers := CopySlice(inp.finalizers, v.finalizers, from);
    out := out.(finalizers := finalizers);
    fp := m + SliceRefs(finalizers);
  }

  ghost predicate StatusShows(s: HStatus, v: Status, fp: set<object>)
    reads fp
  {
    s.reason == v.reason && s.message == v.message && SliceShows(s.conditions, v.conditions, fp)
  }

  ghost predicate CustomShows(x: HCustom, v: Custom, fp: set<object>)
    reads fp
  {
    && x.kind == v.kind && MetaShows(x.meta, v.meta, fp)
    && SpecShows(x.spec, v.spec, fp) && StatusShows(x.status, v.status, fp)
  }

  ghost predicate CustomApart(x: HCustom, v: Custom, fp: set<object>)
    reads fp
  {
    exists m, s, c ::
      && m <= fp && s <= fp && c <= fp && m !! s && m !! c && s !! c && x.kind == v.kind
      && MetaApart(x.meta, v.meta, m) && SpecApart(x.spec, v.spec, s) && StatusShows(x.status, v.status, c)
  }

  method CopyStatus(inp: HStatus, ghost v: Status, ghost from: set<object>) returns (out: HStatus)
    requires StatusShows(inp, v, from)
    ensures StatusShows(out, v, SliceRefs(out.conditions)) && fresh(SliceRefs(out.conditions))
  {
    out := inp;
    var conditions := CopySlice(inp.conditions, v.conditions, from);
    out := out.(conditions := conditions);
  }

  method CopyCustom(inp: HCustom, ghost v: Custom, ghost from: set<object>)
    returns (out: HCustom, ghost fp: set<object>)
    requires CustomShows(inp, v, from)
    ensures CustomApart(out, v, fp) && fresh(fp)
  {
    hide MetaShows, MetaApart, SpecShows, SpecApart, StatusShows;
    out := inp;
    var meta, m := CopyMeta(inp.meta, v.meta, from);
    out := out.(meta := meta);
    var spec, s := CopySpec(inp.spec, v.spec, from);
    out := out.(spec := spec);
    var status := CopyStatus(inp.status, v.status, from);
    out := out.(status := status);
    ghost var c := SliceRefs(status.conditions);
    fp := m + s + c;
    assert MetaApart(out.meta, v.meta, m) && SpecApart(out.spec, v.spec, s) && StatusShows(out.status, v.status, c);
  }

  // ---------- a list of custom resources

  datatype ListOf<I> = List(kind: string, resourceVersion: string, items: I)
  type CustomList = ListOf<Opt<seq<Custom>>>
  type HCustomList = ListOf<GoSlice<HCustom>>

  ghost predicate ListShows(l: HCustomList, v: CustomList, fp: set<object>)
    reads fp
  {
    && l.kind == v.kind && l.resourceVersion == v.resourceVersion
    && if l.items.NilSlice? then v.items == Nil
       else
         && l.items.arr in fp && v.items.Val? && |v.items.value| == l.items.len
         && forall i :: 0 <= i < l.items.len ==> CustomShows(At(l.items, i), v.items.value[i], fp)
  }

  /** Every item lives in a piece of its own, away from the backing array and from the others. */
  ghost predicate ListApart(l: HCustomList, v: CustomList, fp: set<object>, pieces: seq<set<object>>)
    reads fp
  {
    && l.kind == v.kind && l.resourceVersion == v.resourceVersion
    && if l.items.NilSlice? then v.items == Nil
       else
         && l.items.arr in fp && v.items.Val? && |v.items.value| == |pieces| == l.items.len
         && (forall i :: 0 <= i < l.items.len ==>
               pieces[i] <= fp - {l.items.arr} && CustomApart(At(l.items, i), v.items.value[i], pieces[i]))
         && forall i, j :: 0 <= i < j < l.items.len ==> pieces[i] !! pieces[j]
  }

  method CopyList(inp: HCustomList, ghost v: CustomList, ghost from: set<object>)
    returns (out: HCustomList, ghost fp: set<object>, ghost pieces: seq<set<object>>)
    requires ListShows(inp, v, from)
    ensures ListApart(out, v, fp, pieces) && fresh(fp)
  {
    hide CustomShows, CustomApart;
    out, fp, pieces := inp, {}, [];
    if inp.items.NilSlice? {
      return;
    }
    var arr := new HCustom[inp.items.len];
    fp := {arr};
    for i := 0 to inp.items.len
      invariant arr in fp && fresh(fp) && |pieces| == i
      invariant forall j :: 0 <= j < i ==> pieces[j] <= fp - {arr} && CustomApart(arr[j], v.items.value[j], pieces[j])
      invariant forall j, k :: 0 <= j < k < i ==> pieces[j] !! pieces[k]
    {
      assert CustomShows(At(inp.items, i), v.items.value[i], from);
      var item, piece := CopyCustom(inp.items.arr[inp.items.off + i], v.items.value[i], from);
      arr[i] := item;
      fp, pieces := fp + piece, pieces + [piece];
    }
    out := out.(items := Slice(arr, 0, inp.items.len, inp.items.len));
  }
}
