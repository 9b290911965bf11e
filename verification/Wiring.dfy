/** The children as a network: every endpoint a child names is a stored Service that offers
    the port and selects exactly one workload, which listens on it, or it is one of the
    metrics cluster's that nothing serves. */
module Wiring {
  import opened Types
  import opened Apps
  import opened Children
  import opened Network
  import opened World
  import opened Safety
  import opened Convergence
  import opened Progress

  // ---------- where stored children come from

  /** The object was generated, from some spec, for block q of resource j. */
  ghost predicate Source(g: Generator, names: iset<CrKey>, key: Key, m: Manifest, j: CrKey, spec: Spec, q: Piece) {
    j in names && j.name != "" && key == Target(j, q) && g(j, spec, q) == Val(m)
  }

  ghost predicate SourcedAt(g: Generator, names: iset<CrKey>, c: ChildMap, key: Key) {
    key in c ==> exists j, spec, q :: Source(g, names, key, c[key], j, spec, q)
  }

  /** Every stored child is what a block of one of the resources generates from some spec. */
  ghost predicate Sourced(g: Generator, names: iset<CrKey>, c: ChildMap) {
    forall key :: SourcedAt(g, names, c, key)
  }

  lemma ApplySourced(g: Generator, names: iset<CrKey>, w: World, a: Action)
    requires Sound(g, w) && a.k in names && Sourced(g, names, w.store.children)
    ensures Sourced(g, names, Apply(g, w, a).store.children)
  {
    var c, c' := w.store.children, Apply(g, w, a).store.children;
    forall key ensures SourcedAt(g, names, c', key) {
      assert SourcedAt(g, names, c, key);
      if key in c' && (key !in c || c'[key] != c[key]) {
        ChildrenWrittenBy(g, w, a, key);
        var p := w.passes[a.k];
        assert PassOk(g, w.store, a.k, p);
        assert Source(g, names, key, c'[key], a.k, p.cr.spec, p.piece);
      }
    }
  }

  lemma {:induction false} ExecSourced(g: Generator, names: iset<CrKey>, w: World, acts: seq<Action>)
    requires Sound(g, w) && Within(acts, names) && Sourced(g, names, w.store.children)
    ensures Sourced(g, names, Exec(g, w, acts).store.children)
    decreases |acts|
  {
    if acts != [] {
      assert acts[0] in acts;
      ApplySound(g, w, acts[0]);
      ApplySourced(g, names, w, acts[0]);
      ExecSourced(g, names, Apply(g, w, acts[0]), acts[1..]);
    }
  }

  /** A stored child carries the labels of its key, and the key is a target of one of the resources. */
  ghost predicate TracedAt(names: iset<CrKey>, c: ChildMap, key: Key) {
    key in c ==> Labelled(c[key], key) && exists j, q :: j in names && key == Target(j, q)
  }

  ghost predicate Traced(names: iset<CrKey>, c: ChildMap) {
    forall key :: TracedAt(names, c, key)
  }

  lemma SourcedIsTraced(g: Generator, names: iset<CrKey>, c: ChildMap)
    requires Sourced(g, names, c)
    ensures Traced(names, c)
  {
    forall key ensures TracedAt(names, c, key) {
      assert SourcedAt(g, names, c, key);
      if key in c {
        var j, spec, q :| Source(g, names, key, c[key], j, spec, q);
        assert LabelledBy(g, j, spec, q);
      }
    }
  }

  /** Without a clash, the child under a resource's key was generated by that block of that resource. */
  lemma OwnSource(g: Generator, names: iset<CrKey>, c: ChildMap, k: CrKey, q: Piece) returns (spec: Spec)
    requires Sourced(g, names, c) && NoMetricsClash(names) && k in names && k.name != "" && Target(k, q) in c
    ensures g(k, spec, q) == Val(c[Target(k, q)])
  {
    var key := Target(k, q);
    assert SourcedAt(g, names, c, key);
    var j, from, p :| Source(g, names, key, c[key], j, from, p);
    TargetsCollide(k, q, j, p);
    spec := from;
  }

  // ---------- what the generators write

  /** What is known of the endpoints and ports of a generated object. */
  ghost predicate Known(g: Generator, k: CrKey, spec: Spec, q: Piece) {
    g(k, spec, q).Val? ==>
      var m := g(k, spec, q).value;
      && Ported(m, q)
      && (q == MtSts ==> AgentEndpoint(k) in Endpoints(m))
      && (q == AsSts && MetricsOn(spec) ==> Endpoint(Target(k, MtSvc).name, Nil) in Endpoints(m))
      && forall e :: e in Endpoints(m) ==> (q == MtSts && e == AgentEndpoint(k)) || exists x :: Names(k, spec, q, x, e)
  }

  ghost predicate WellWired(g: Generator) {
    forall k, spec, q :: Known(g, k, spec, q)
  }

  lemma OperatorWellWired(lib: Library)
    ensures WellWired(Operator(lib))
  {
    forall k, spec, q ensures Known(Operator(lib), k, spec, q) {
      OperatorKnown(lib, k, spec, q);
    }
  }

  lemma OperatorKnown(lib: Library, k: CrKey, spec: Spec, q: Piece)
    ensures Known(Operator(lib), k, spec, q)
  {
    hide Endpoints, Generate, Ported, Names;
    if Generate(lib, k, spec, q).Val? {
      var m := Generate(lib, k, spec, q).value;
      GeneratePorted(lib, k, spec, q);
      MetricsAreNamed(lib, k, spec, q);
      forall e | e in Endpoints(m)
        ensures (q == MtSts && e == AgentEndpoint(k)) || exists x :: Names(k, spec, q, x, e) {
        EndpointsAreOwn(lib, k, spec, q, e);
      }
    }
  }

  /** Blocks that can write the same key have the same ports. */
  lemma SamePorts(k: CrKey, p: Piece, j: CrKey, q: Piece, m: Manifest)
    requires Target(k, p) == Target(j, q) && Ported(m, p)
    ensures Ported(m, q)
  {
    TargetsCollide(k, p, j, q);
  }

  /** Every stored child has the ports of its block, whatever spec it was generated from. */
  lemma SourcedIsPorted(g: Generator, names: iset<CrKey>, c: ChildMap, k: CrKey, q: Piece)
    requires Sourced(g, names, c) && WellWired(g) && Target(k, q) in c
    ensures Ported(c[Target(k, q)], q)
  {
    hide Ported, Endpoints, Names;
    var key := Target(k, q);
    assert SourcedAt(g, names, c, key);
    var j, from, p :| Source(g, names, key, c[key], j, from, p);
    assert Known(g, j, from, p);
    SamePorts(j, p, k, q, c[key]);
  }

  // ---------- resolution

  predicate IsWorkload(m: Manifest) {
    m.StatefulSet? || m.Deployment?
  }

  /** The object is a workload whose pods the Service selects. */
  predicate Selects(svc: Manifest, m: Manifest) {
    svc.Service? && IsWorkload(m) && m.meta.ns == svc.meta.ns && m.podApp == svc.selectorApp
  }

  /** Of all stored workloads the Service selects the one under `key`, and no other. */
  ghost predicate SelectsOnly(c: ChildMap, svc: Key, key: Key) {
    && svc in c && key in c && Selects(c[svc], c[key])
    && forall key' :: key' in c && Selects(c[svc], c[key']) ==> key' == key
  }

  /** The host is a stored Service that selects exactly one stored workload; a port that
      is written is one the Service offers and the workload listens on. */
  ghost predicate Resolves(c: ChildMap, ns: string, e: Endpoint) {
    var svc := Key(Services, ns, e.host);
    exists key :: SelectsOnly(c, svc, key)
                  && (e.port.Val? ==> Offers(c[svc].ports, e.port.value, c[key].container.ports))
  }

  /** A workload's key with the name of a Service is the key of the workload of that name. */
  lemma WorkloadKeys(k: CrKey, x: Piece, j: CrKey, q: Piece)
    requires IsService(x) && Target(j, q).kind in [StatefulSets, Deployments]
    requires Target(j, q).ns == k.ns && Target(j, q).name == Target(k, x).name
    ensures Target(j, q) == Target(k, WorkloadOf(x))
  {
    NamesApart(k.name, j.name);
    NamesApart(j.name, k.name);
    NamesApart(k.name, "metrics-" + j.name);
    NamesApart("metrics-" + j.name, k.name);
    NamesApart("metrics-" + k.name, j.name);
    NamesApart(j.name, "metrics-" + k.name);
    NamesApart("metrics-" + k.name, "metrics-" + j.name);
  }

  /** Among traced children a Service selects only the workload of its own name. */
  lemma OnlyWorkload(names: iset<CrKey>, c: ChildMap, k: CrKey, x: Piece, key: Key)
    requires Traced(names, c) && IsService(x) && Target(k, x) in c && key in c
    requires Selects(c[Target(k, x)], c[key])
    ensures key == Target(k, WorkloadOf(x))
  {
    assert TracedAt(names, c, Target(k, x)) && TracedAt(names, c, key);
    var j, q :| j in names && key == Target(j, q);
    WorkloadKeys(k, x, j, q);
  }

  /** Service x of resource k and its workload are there, belong together, and every port arrives. */
  ghost predicate Serves(c: ChildMap, k: CrKey, x: Piece)
    requires IsService(x)
  {
    var svc, key := Target(k, x), Target(k, WorkloadOf(x));
    SelectsOnly(c, svc, key) && AllRouted(c[svc].ports, c[key].container.ports)
  }

  /** Resource k among others it does not clash with, with the children that its blocks have
      settled for `spec` and whatever else earlier specs have left. */
  ghost predicate Standing(g: Generator, names: iset<CrKey>, k: CrKey, spec: Spec, c: ChildMap) {
    && WellWired(g) && Sourced(g, names, c) && NoMetricsClash(names) && k in names && k.name != ""
    && forall q :: InPlan(spec, q) ==> Settled(g, k, spec, c, q)
  }

  lemma OwnServiceServes(g: Generator, names: iset<CrKey>, k: CrKey, spec: Spec, c: ChildMap, x: Piece)
    requires Standing(g, names, k, spec, c) && IsService(x)
    requires Target(k, x) in c && Target(k, WorkloadOf(x)) in c
    ensures Serves(c, k, x)
    ensures c[Target(k, x)].ports == ServicePorts(x)
    ensures c[Target(k, WorkloadOf(x))].container.ports == ContainerPorts(WorkloadOf(x))
  {
    hide ServicePorts, ContainerPorts, AllRouted, Endpoints, Names, Settled;
    var svc, key := Target(k, x), Target(k, WorkloadOf(x));
    SourcedIsTraced(g, names, c);
    assert TracedAt(names, c, svc) && TracedAt(names, c, key);
    SourcedIsPorted(g, names, c, k, x);
    SourcedIsPorted(g, names, c, k, WorkloadOf(x));
    forall key' | key' in c && Selects(c[svc], c[key']) ensures key' == key {
      OnlyWorkload(names, c, k, x, key');
    }
    assert key in c && Selects(c[svc], c[key]);
    ServicesRouted(x);
  }

  // ---------- which endpoints resolve

  lemma HostsDiffer(k: CrKey, x: Piece)
    requires IsService(x)
    ensures Target(k, x).name != AgentEndpoint(k).host
    ensures Target(k, x).name == Target(k, MtSvc).name <==> x == MtSvc
  {
    NamesApart(k.name, "metrics-" + k.name);
    NamesApart("metrics-" + k.name, "metrics-" + k.name);
    CassandraNames(k.name, k.name);
  }

  lemma DanglingKey(k: CrKey, j: CrKey, q: Piece)
    requires Target(j, q) == Key(Services, k.ns, "as-" + ("metrics-" + k.name))
    ensures MetricsClash(k, j)
  {
    NamesApart("metrics-" + k.name, j.name);
    NamesApart(j.name, "metrics-" + k.name);
    NamesApart("metrics-" + j.name, "metrics-" + k.name);
  }

  /** The Service that the metrics cluster's agent is pointed at is one that nothing creates. */
  lemma MetricsAgentDangles(names: iset<CrKey>, k: CrKey, c: ChildMap)
    requires Traced(names, c) && NoMetricsClash(names) && k in names && k.name != ""
    ensures !Resolves(c, k.ns, AgentEndpoint(k))
  {
    var svc := Key(Services, k.ns, AgentEndpoint(k).host);
    assert TracedAt(names, c, svc);
    if svc in c {
      var j, q :| j in names && svc == Target(j, q);
      DanglingKey(k, j, q);
    }
  }

  /** The stored child of block q names e. */
  predicate NamedIn(k: CrKey, c: ChildMap, q: Piece, e: Endpoint) {
    Target(k, q) in c && e in Endpoints(c[Target(k, q)])
  }

  /** A child that names the metrics Service is the metrics cluster, or the server with metrics on. */
  lemma MetricsServiceNamed(g: Generator, names: iset<CrKey>, k: CrKey, spec: Spec, c: ChildMap, q: Piece, e: Endpoint)
    requires Standing(g, names, k, spec, c) && NamedIn(k, c, q, e) && e.host == Target(k, MtSvc).name
    ensures Target(k, MtSts) in c && (q == MtSts || MetricsOn(spec))
  {
    hide Endpoints, Ported;
    var from := OwnSource(g, names, c, k, q);
    assert Known(g, k, from, q);
    HostsDiffer(k, MtSvc);
    var x :| Names(k, from, q, x, e);
    HostsDiffer(k, x);
    if q != MtSts {
      assert Settled(g, k, spec, c, q) && Known(g, k, Effective(spec), q);
      var y :| Names(k, Effective(spec), q, y, e);
      HostsDiffer(k, y);
      assert Settled(g, k, spec, c, MtSts);
    }
  }

  /** Service x of an endpoint is there, and so is its workload. */
  lemma ServedResolves(g: Generator, names: iset<CrKey>, k: CrKey, spec: Spec, c: ChildMap, x: Piece, e: Endpoint)
    requires Standing(g, names, k, spec, c) && OwnEndpoint(k, x, e)
    requires Target(k, x) in c && Target(k, WorkloadOf(x)) in c
    ensures Resolves(c, k.ns, e)
  {
    hide Offers, ServicePorts, ContainerPorts, AllRouted, Standing;
    OwnServiceServes(g, names, k, spec, c, x);
    assert SelectsOnly(c, Key(Services, k.ns, e.host), Target(k, WorkloadOf(x)));
  }

  /** The condition: it is not the agent's, and the metrics Service, if that is what it is, is there. */
  predicate Served(k: CrKey, c: ChildMap, e: Endpoint) {
    e.host != AgentEndpoint(k).host && (e.host == Target(k, MtSvc).name ==> Target(k, MtSvc) in c)
  }

  lemma EndpointResolvesIff(g: Generator, names: iset<CrKey>, k: CrKey, spec: Spec, c: ChildMap, q: Piece, e: Endpoint)
    requires Standing(g, names, k, spec, c) && NamedIn(k, c, q, e)
    ensures Resolves(c, k.ns, e) <==> Served(k, c, e)
  {
    hide Endpoints, Ported;
    var from := OwnSource(g, names, c, k, q);
    assert Known(g, k, from, q);
    if e == AgentEndpoint(k) {
      SourcedIsTraced(g, names, c);
      MetricsAgentDangles(names, k, c);
    } else {
      var x :| Names(k, from, q, x, e);
      HostsDiffer(k, x);
      if x == MtSvc {
        MetricsServiceNamed(g, names, k, spec, c, q, e);
      } else {
        assert Settled(g, k, spec, c, x) && Settled(g, k, spec, c, WorkloadOf(x));
      }
      if Target(k, x) in c {
        ServedResolves(g, names, k, spec, c, x, e);
      }
    }
  }

  /** Every endpoint named by any stored child of k resolves, whether or not the spec still asks for the child. */
  ghost predicate AllWired(k: CrKey, c: ChildMap) {
    forall q, e :: NamedIn(k, c, q, e) ==> Resolves(c, k.ns, e)
  }

  lemma AllWiredIff(g: Generator, names: iset<CrKey>, k: CrKey, spec: Spec, c: ChildMap)
    requires Standing(g, names, k, spec, c)
    ensures AllWired(k, c) <==> Target(k, MtSts) !in c
  {
    hide Endpoints, Resolves;
    if Target(k, MtSts) in c {
      var from := OwnSource(g, names, c, k, MtSts);
      assert Known(g, k, from, MtSts);
      assert NamedIn(k, c, MtSts, AgentEndpoint(k));
      SourcedIsTraced(g, names, c);
      MetricsAgentDangles(names, k, c);
    } else {
      forall q, e | NamedIn(k, c, q, e) ensures Resolves(c, k.ns, e) {
        EndpointResolvesIff(g, names, k, spec, c, q, e);
        var from := OwnSource(g, names, c, k, q);
        assert Known(g, k, from, q);
        var x :| Names(k, from, q, x, e);
        HostsDiffer(k, x);
        if e.host == Target(k, MtSvc).name {
          MetricsServiceNamed(g, names, k, spec, c, q, e);
        }
      }
    }
  }

  lemma PlanServes(g: Generator, names: iset<CrKey>, k: CrKey, spec: Spec, c: ChildMap, x: Piece)
    requires Standing(g, names, k, spec, c) && IsService(x) && InPlan(spec, x)
    ensures Serves(c, k, x)
  {
    assert InPlan(spec, WorkloadOf(x));
    assert Settled(g, k, spec, c, x) && Settled(g, k, spec, c, WorkloadOf(x));
    OwnServiceServes(g, names, k, spec, c, x);
  }

  /** After any pass that ran all its blocks, in any interleaving and until the next pass
      begins, and whatever earlier specs have left behind: exactly those endpoints resolve
      that are not the agent's and whose Service is there; all do if and only if no metrics
      cluster is stored; and every Service that the spec asks for serves. */
  lemma WiringIff(lib: Library, names: iset<CrKey>, acts: seq<Action>, k: CrKey)
    requires NoClash(names) && Within(acts, names) && ReadsFresh(Operator(lib), acts, k) && k in names
    requires var w := Exec(Operator(lib), EMPTY, acts); k in w.passes && w.passes[k].Converged?
    ensures var w := Exec(Operator(lib), EMPTY, acts);
            var spec, c := w.passes[k].cr.spec, w.store.children;
            && (AllWired(k, c) <==> Target(k, MtSts) !in c)
            && (forall q, e :: NamedIn(k, c, q, e) ==> (Resolves(c, k.ns, e) <==> Served(k, c, e)))
            && (forall x :: IsService(x) && InPlan(spec, x) ==> Serves(c, k, x))
  {
    OperatorWellWired(lib);
    var g := Operator(lib);
    var w := Exec(g, EMPTY, acts);
    var spec, c := w.passes[k].cr.spec, w.store.children;
    ConvergedStands(g, names, acts, k);
    AllWiredIff(g, names, k, spec, c);
    forall q, e | NamedIn(k, c, q, e) ensures Resolves(c, k.ns, e) <==> Served(k, c, e) {
      EndpointResolvesIff(g, names, k, spec, c, q, e);
    }
    forall x | IsService(x) && InPlan(spec, x) ensures Serves(c, k, x) {
      PlanServes(g, names, k, spec, c, x);
    }
  }

  lemma ConvergedStands(g: Generator, names: iset<CrKey>, acts: seq<Action>, k: CrKey)
    requires WellWired(g) && NoClash(names) && Within(acts, names) && ReadsFresh(g, acts, k) && k in names
    requires var w := Exec(g, EMPTY, acts); k in w.passes && w.passes[k].Converged?
    ensures var w := Exec(g, EMPTY, acts);
            Standing(g, names, k, w.passes[k].cr.spec, w.store.children)
  {
    var w := Exec(g, EMPTY, acts);
    ExecSound(g, EMPTY, acts);
    ExecSourced(g, names, EMPTY, acts);
    ProgressInAnyRun(g, names, acts, k);
    assert PassOk(g, w.store, k, w.passes[k]);
  }
}
