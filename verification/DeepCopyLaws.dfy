/** What "shows" and "apart" in module DeepCopy amount to: every list of custom resources
    shows exactly one value, so that a copy that shows what its original shows is equal
    to it; and what is apart can be read and copied like anything else. */
module DeepCopyLaws {
  import opened Types
  import opened GoHeap
  import opened DeepCopy

  // ---------- what is shown is unique, and there always is something: a copy equals its original

  lemma TlsShowsOne(t: Tlss, v: Opt<seq<Tls>>, w: Opt<seq<Tls>>, f: set<object>, g: set<object>)
    requires TlsShow(t, v, f) && TlsShow(t, w, g)
    ensures v == w
  {
    if t.Slice? {
      forall i | 0 <= i < t.len ensures v.value[i] == w.value[i] {
        assert EntryShows(At(t, i), v.value[i], f) && EntryShows(At(t, i), w.value[i], g);
      }
      assert v.value == w.value;
    }
  }

  lemma BodyShowsOne(b: HBody, v: Body, w: Body, f: set<object>, g: set<object>)
    requires BodyShows(b, v, f) && BodyShows(b, w, g)
    ensures v == w
  {
  }

  lemma SpecShowsOne(x: HSpec, v: Spec, w: Spec, f: set<object>, g: set<object>)
    requires SpecShows(x, v, f) && SpecShows(x, w, g)
    ensures v == w
  {
    BodyShowsOne(CassandraBody(x.cassandra), CassandraBody(v.cassandra), CassandraBody(w.cassandra), f, g);
    var d, s := x.axonops.dashboard, x.axonops.server;
    TlsShowsOne(d.ingress.tls, v.axonops.dashboard.ingress.tls, w.axonops.dashboard.ingress.tls, f, g);
    BodyShowsOne(DashboardBody(d), DashboardBody(v.axonops.dashboard), DashboardBody(w.axonops.dashboard), f, g);
    BodyShowsOne(ServerBody(s), ServerBody(v.axonops.server), ServerBody(w.axonops.server), f, g);
    BodyShowsOne(CassandraBody(s.metricsCluster), CassandraBody(v.axonops.server.metricsCluster),
                 CassandraBody(w.axonops.server.metricsCluster), f, g);
  }

  lemma ListShowsOne(l: HCustomList, v: CustomList, w: CustomList,
                     f: set<object>, g: set<object>)
    requires ListShows(l, v, f) && ListShows(l, w, g)
    ensures v == w
  {
    if l.items.Slice? {
      forall i | 0 <= i < l.items.len ensures v.items.value[i] == w.items.value[i] {
        var x := At(l.items, i);
        assert CustomShows(x, v.items.value[i], f) && CustomShows(x, w.items.value[i], g);
        SpecShowsOne(x.spec, v.items.value[i].spec, w.items.value[i].spec, f, g);
      }
      assert v.items.value == w.items.value;
    }
  }

  // ---------- a larger footprint shows the same

  lemma BodyWider(b: HBody, v: Body, f: set<object>, g: set<object>)
    requires BodyShows(b, v, f) && f <= g
    ensures BodyShows(b, v, g)
  {
  }

  lemma IngressWider(x: HIngress, v: IngressSpec, f: set<object>, g: set<object>)
    requires IngressShows(x, v, f) && f <= g
    ensures IngressShows(x, v, g)
  {
    if x.tls.Slice? {
      forall i | 0 <= i < x.tls.len ensures EntryShows(At(x.tls, i), v.tls.value[i], g) {
        assert EntryShows(At(x.tls, i), v.tls.value[i], f);
      }
    }
  }

  lemma CassandraWider(x: HCassandra, v: CassandraSpec, f: set<object>, g: set<object>)
    requires CassandraShows(x, v, f) && f <= g
    ensures CassandraShows(x, v, g)
  {
    BodyWider(CassandraBody(x), CassandraBody(v), f, g);
  }

  lemma ElasticWider(x: HElastic, v: ElasticSpec, f: set<object>, g: set<object>)
    requires ElasticShows(x, v, f) && f <= g
    ensures ElasticShows(x, v, g)
  {
  }

  lemma ServerWider(x: HServer, v: ServerSpec, f: set<object>, g: set<object>)
    requires ServerShows(x, v, f) && f <= g
    ensures ServerShows(x, v, g)
  {
    BodyWider(ServerBody(x), ServerBody(v), f, g);
    CassandraWider(x.metricsCluster, v.metricsCluster, f, g);
  }

  lemma DashboardWider(x: HDashboard, v: DashboardSpec, f: set<object>, g: set<object>)
    requires DashboardShows(x, v, f) && f <= g
    ensures DashboardShows(x, v, g)
  {
    BodyWider(DashboardBody(x), DashboardBody(v), f, g);
    IngressWider(x.ingress, v.ingress, f, g);
  }

  lemma SpecWider(x: HSpec, v: Spec, f: set<object>, g: set<object>)
    requires SpecShows(x, v, f) && f <= g
    ensures SpecShows(x, v, g)
  {
    hide CassandraShows, DashboardShows, ServerShows, ElasticShows;
    CassandraWider(x.cassandra, v.cassandra, f, g);
    DashboardWider(x.axonops.dashboard, v.axonops.dashboard, f, g);
    ServerWider(x.axonops.server, v.axonops.server, f, g);
    ElasticWider(x.axonops.elastic, v.axonops.elastic, f, g);
  }

  lemma CustomWider(x: HCustom, v: Custom, f: set<object>, g: set<object>)
    requires CustomShows(x, v, f) && f <= g
    ensures CustomShows(x, v, g)
  {
    hide SpecShows;
    SpecWider(x.spec, v.spec, f, g);
  }

  // ---------- apart implies shown: a copy can be copied again

  lemma BodyApartShows(b: HBody, v: Body, fp: set<object>)
    requires BodyApart(b, v, fp)
    ensures BodyShows(b, v, fp)
  {
  }

  lemma CassandraApartShows(x: HCassandra, v: CassandraSpec, f: set<object>, g: set<object>)
    requires CassandraApart(x, v, f) && f <= g
    ensures CassandraShows(x, v, g)
  {
    hide BodyApart, BodyShows;
    BodyApartShows(CassandraBody(x), CassandraBody(v), f);
    BodyWider(CassandraBody(x), CassandraBody(v), f, g);
  }

  lemma ServerApartShows(x: HServer, v: ServerSpec, f: set<object>, g: set<object>)
    requires ServerApart(x, v, f) && f <= g
    ensures ServerShows(x, v, g)
  {
    hide BodyApart, BodyShows, CassandraApart, CassandraShows;
    var b, c :| b <= f && c <= f && BodyApart(ServerBody(x), ServerBody(v), b)
      && CassandraApart(x.metricsCluster, v.metricsCluster, c);
    BodyApartShows(ServerBody(x), ServerBody(v), b);
    BodyWider(ServerBody(x), ServerBody(v), b, g);
    CassandraApartShows(x.metricsCluster, v.metricsCluster, c, g);
  }

  lemma IngressApartShows(x: HIngress, v: IngressSpec, f: set<object>, g: set<object>)
    requires IngressApart(x, v, f) && f <= g
    ensures IngressShows(x, v, g)
  {
    if x.tls.Slice? {
      forall i | 0 <= i < x.tls.len ensures EntryShows(At(x.tls, i), v.tls.value[i], g) {
      }
    }
  }

  lemma DashboardApartShows(x: HDashboard, v: DashboardSpec, f: set<object>, g: set<object>)
    requires DashboardApart(x, v, f) && f <= g
    ensures DashboardShows(x, v, g)
  {
    hide BodyApart, BodyShows, IngressApart, IngressShows;
    var i, b :| i <= f && b <= f && IngressApart(x.ingress, v.ingress, i)
      && BodyApart(DashboardBody(x), DashboardBody(v), b);
    IngressApartShows(x.ingress, v.ingress, i, g);
    BodyApartShows(DashboardBody(x), DashboardBody(v), b);
    BodyWider(DashboardBody(x), DashboardBody(v), b, g);
  }

  lemma ElasticApartShows(x: HElastic, v: ElasticSpec, f: set<object>, g: set<object>)
    requires ElasticApart(x, v, f) && f <= g
    ensures ElasticShows(x, v, g)
  {
  }

  lemma AxonOpsApartShows(x: HAxonOps, v: AxonOpsSpec, f: set<object>, g: set<object>)
    requires AxonOpsApart(x, v, f) && f <= g
    ensures AxonOpsShows(x, v, g)
  {
    hide DashboardApart, DashboardShows, ServerApart, ServerShows, ElasticApart, ElasticShows;
    var d, s, e :| d <= f && s <= f && e <= f && DashboardApart(x.dashboard, v.dashboard, d)
      && ServerApart(x.server, v.server, s) && ElasticApart(x.elastic, v.elastic, e);
    DashboardApartShows(x.dashboard, v.dashboard, d, g);
    ServerApartShows(x.server, v.server, s, g);
    ElasticApartShows(x.elastic, v.elastic, e, g);
  }

  lemma SpecApartShows(x: HSpec, v: Spec, f: set<object>, g: set<object>)
    requires SpecApart(x, v, f) && f <= g
    ensures SpecShows(x, v, g)
  {
    hide CassandraApart, CassandraShows, AxonOpsApart, AxonOpsShows;
    var c, a :| c <= f && a <= f && CassandraApart(x.cassandra, v.cassandra, c) &&
      AxonOpsApart(x.axonops, v.axonops, a);
    CassandraApartShows(x.cassandra, v.cassandra, c, g);
    AxonOpsApartShows(x.axonops, v.axonops, a, g);
  }

  lemma CustomApartShows(x: HCustom, v: Custom, f: set<object>, g: set<object>)
    requires CustomApart(x, v, f) && f <= g
    ensures CustomShows(x, v, g)
  {
    hide SpecApart, SpecShows;
    var m, s, c :| m <= f && s <= f && c <= f && MetaApart(x.meta, v.meta, m)
      && SpecApart(x.spec, v.spec, s) && StatusShows(x.status, v.status, c);
    SpecApartShows(x.spec, v.spec, s, g);
  }

  /** A copied list can be read, and copied again, like its original. */
  lemma ListApartShows(l: HCustomList, v: CustomList, fp: set<object>, pieces: seq<set<object>>)
    requires ListApart(l, v, fp, pieces)
    ensures ListShows(l, v, fp)
  {
    hide CustomApart, CustomShows;
    if l.items.Slice? {
      forall i | 0 <= i < l.items.len ensures CustomShows(At(l.items, i), v.items.value[i], fp) {
        CustomApartShows(At(l.items, i), v.items.value[i], pieces[i], fp);
      }
    }
  }

  // ---------- every struct shows something

  lemma MapReads(g: GoMap?) returns (v: Dict)
    ensures MapShows(g, v, MapRefs(g))
  {
    v := if g == null then Nil else Val(g.m);
  }

  lemma SliceReads<T>(s: GoSlice<T>) returns (v: Opt<seq<T>>)
    ensures SliceShows(s, v, SliceRefs(s))
  {
    v := if s.NilSlice? then Nil else Val(s.arr[s.off..s.off + s.len]);
  }

  lemma BodyReads(b: HBody) returns (v: Body, fp: set<object>)
    ensures BodyShows(b, v, fp)
  {
    var annotations := MapReads(b.maps.annotations);
    var labels := MapReads(b.maps.labels);
    var env := SliceReads(b.load.env);
    var limits := MapReads(b.load.resources.limits);
    var requests := MapReads(b.load.resources.requests);
    var claims := SliceReads(b.load.resources.claims);
    v := Body(LabelPair(annotations, labels), Load(env, Resources(limits, requests, claims)));
    fp := MapRefs(b.maps.annotations) + MapRefs(b.maps.labels) + SliceRefs(b.load.env)
      + MapRefs(b.load.resources.limits) + MapRefs(b.load.resources.requests) + SliceRefs(b.load.resources.claims);
  }

  lemma TlsReads(t: Tlss) returns (v: Opt<seq<Tls>>, fp: set<object>)
    ensures TlsShow(t, v, fp)
  {
    if t.NilSlice? {
      return Nil, {};
    }
    fp := {t.arr};
    var vs: seq<Tls> := [];
    for i := 0 to t.len
      invariant t.arr in fp && |vs| == i && forall j :: 0 <= j < i ==> EntryShows(At(t, j), vs[j], fp)
    {
      var hosts := SliceReads(At(t, i).hosts);
      vs, fp := vs + [Tls(hosts, At(t, i).secretName)], fp + SliceRefs(At(t, i).hosts);
    }
    v := Val(vs);
  }

  lemma CassandraReads(c: HCassandra) returns (v: CassandraSpec, fp: set<object>)
    ensures CassandraShows(c, v, fp)
  {
    hide BodyShows;
    var b, refs := BodyReads(CassandraBody(c));
    v := CassandraSpec(c.image, c.replicas, c.clusterName, c.dc, c.volume, c.javaOpts, c.heapSize,
                       b.maps.annotations, b.maps.labels, b.load.env, b.load.resources, c.pullPolicy);
    fp := refs;
    assert CassandraBody(v) == b;
  }

  lemma IngressReads(g: HIngress) returns (v: IngressSpec, fp: set<object>)
    ensures IngressShows(g, v, fp)
  {
    var annotations := MapReads(g.annotations);
    var labels := MapReads(g.labels);
    var hosts := SliceReads(g.hosts);
    var tls, refs := TlsReads(g.tls);
    v := IngressSpec(g.enabled, g.apiVersion, annotations, labels, g.className, hosts, tls,
                     g.path, g.pathType, g.serviceName);
    fp := refs + MapRefs(g.annotations) + MapRefs(g.labels) + SliceRefs(g.hosts);
    if g.tls.Slice? {
      forall i | 0 <= i < g.tls.len ensures EntryShows(At(g.tls, i), tls.value[i], fp) {
        assert EntryShows(At(g.tls, i), tls.value[i], refs);
      }
    }
  }

  lemma ServerReads(s: HServer) returns (v: ServerSpec, fp: set<object>)
    ensures ServerShows(s, v, fp)
  {
    hide BodyShows, CassandraShows;
    var b, f := BodyReads(ServerBody(s));
    var c, g := CassandraReads(s.metricsCluster);
    v := ServerSpec(s.image, b.maps.annotations, b.maps.labels, b.load.env, b.load.resources,
                    s.pullPolicy, s.metricsEnabled, c);
    fp := f + g;
    assert ServerBody(v) == b;
    BodyWider(ServerBody(s), b, f, fp);
    CassandraWider(s.metricsCluster, c, g, fp);
  }

  lemma DashboardReads(d: HDashboard) returns (v: DashboardSpec, fp: set<object>)
    ensures DashboardShows(d, v, fp)
  {
    hide BodyShows, IngressShows;
    var b, f := BodyReads(DashboardBody(d));
    var i, g := IngressReads(d.ingress);
    v := DashboardSpec(d.image, d.replicas, i, b.maps.annotations, b.maps.labels, b.load.env, b.load.resources,
                       d.pullPolicy);
    fp := f + g;
    assert DashboardBody(v) == b;
    BodyWider(DashboardBody(d), b, f, fp);
    IngressWider(d.ingress, i, g, fp);
  }

  lemma ElasticReads(e: HElastic) returns (v: ElasticSpec, fp: set<object>)
    ensures ElasticShows(e, v, fp)
  {
    hide BodyShows;
    var b, refs := BodyReads(Body(LabelPair(null, null), Load(e.env, e.resources)));
    v := ElasticSpec(e.image, e.volume, e.javaOpts, e.clusterName, b.load.env, b.load.resources, e.pullPolicy);
    fp := refs;
    assert BodyShows(Body(LabelPair(null, null), Load(e.env, e.resources)), b, fp);
  }

  lemma SpecReads(x: HSpec) returns (v: Spec, fp: set<object>)
    ensures SpecShows(x, v, fp)
  {
    hide CassandraShows, DashboardShows, ServerShows, ElasticShows;
    var c, f0 := CassandraReads(x.cassandra);
    var d, f1 := DashboardReads(x.axonops.dashboard);
    var s, f2 := ServerReads(x.axonops.server);
    var e, f3 := ElasticReads(x.axonops.elastic);
    v, fp := Spec(c, AxonOpsSpec(d, s, e)), f0 + f1 + f2 + f3;
    CassandraWider(x.cassandra, c, f0, fp);
    DashboardWider(x.axonops.dashboard, d, f1, fp);
    ServerWider(x.axonops.server, s, f2, fp);
    ElasticWider(x.axonops.elastic, e, f3, fp);
  }

  lemma CustomReads(x: HCustom) returns (v: Custom, fp: set<object>)
    ensures CustomShows(x, v, fp)
  {
    hide SpecShows;
    var annotations := MapReads(x.meta.maps.annotations);
    var labels := MapReads(x.meta.maps.labels);
    var finalizers := SliceReads(x.meta.finalizers);
    var conditions := SliceReads(x.status.conditions);
    var spec, refs := SpecReads(x.spec);
    var meta := Meta(x.meta.name, x.meta.namespace, x.meta.resourceVersion, LabelPair(annotations, labels), finalizers);
    v := Custom(x.kind, meta, spec, Status(x.status.reason, x.status.message, conditions));
    fp := refs + MapRefs(x.meta.maps.annotations) + MapRefs(x.meta.maps.labels) + SliceRefs(x.meta.finalizers)
      + SliceRefs(x.status.conditions);
    SpecWider(x.spec, spec, refs, fp);
  }

  /** Every list shows some value, and by ListShowsOne only that one. */
  lemma ListReads(l: HCustomList) returns (v: CustomList, fp: set<object>)
    ensures ListShows(l, v, fp)
  {
    hide CustomShows;
    if l.items.NilSlice? {
      return List(l.kind, l.resourceVersion, Nil), {};
    }
    fp := {l.items.arr};
    var vs: seq<Custom> := [];
    for i := 0 to l.items.len
      invariant l.items.arr in fp && |vs| == i && forall j :: 0 <= j < i ==> CustomShows(At(l.items, j), vs[j], fp)
    {
      var x, refs := CustomReads(At(l.items, i));
      forall j | 0 <= j < i ensures CustomShows(At(l.items, j), vs[j], fp + refs) {
        CustomWider(At(l.items, j), vs[j], fp, fp + refs);
      }
      CustomWider(At(l.items, i), x, refs, fp + refs);
      vs, fp := vs + [x], fp + refs;
    }
    v := List(l.kind, l.resourceVersion, Val(vs));
  }
}
