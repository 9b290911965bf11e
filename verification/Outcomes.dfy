/** What a pass does, key by key: the names are written out as the reconciler writes them,
    and every object is what the generator called at that place returns. */
module Outcomes {
  import opened Types
  import opened Apps
  import opened Children
  import opened Api
  import opened StringLists
  import opened Reconcile
  import opened Convergence
  import opened Recovery

  function Sts(k: CrKey, prefix: string): Key {
    Key(StatefulSets, k.ns, prefix + k.name)
  }

  function Svc(k: CrKey, prefix: string): Key {
    Key(Services, k.ns, prefix + k.name)
  }

  function DashDeployment(k: CrKey): Key {
    Key(Deployments, k.ns, "ds-" + k.name)
  }

  function DashIngress(k: CrKey): Key {
    Key(Ingresses, k.ns, "ds-" + k.name)
  }

  lemma MetricsKeys(k: CrKey)
    ensures "ca-metrics-" + k.name == "ca-" + ("metrics-" + k.name)
  {
  }

  /** The spec in memory once the metrics block has run. */
  function InMemory(spec: Spec): Spec {
    if spec.axonops.server.metricsEnabled && spec.cassandra.dc == ""
    then spec.(cassandra := spec.cassandra.(dc := "axonops1")) else spec
  }

  predicate LiveResource(s: Store, k: CrKey) {
    k in s.crs && !s.crs[k].deleting && k.name != ""
  }

  /** The key holds what the generator returned. */
  predicate Holds(c: ChildMap, key: Key, m: Opt<Manifest>) {
    m.Val? && key in c && c[key] == m.value
  }

  /** What was there stays, and what was not is made. */
  predicate KeptOrMade(c: ChildMap, c': ChildMap, key: Key, m: Opt<Manifest>) {
    if key in c then SameAt(c, c', key) else Holds(c', key, m)
  }

  // ---------- when a pass succeeds

  /** What one block asks. */
  predicate BlockCanRun(lib: Library, k: CrKey, spec: Spec, c: ChildMap, q: Piece) {
    var (e, n, mc) := (InMemory(spec), k.name, spec.axonops.server.metricsCluster);
    match q
    case EsSts => GenerateElasticsearchConfig(lib, k, spec).Val?
    case EsSvc => Svc(k, "es-") in c || GenerateElasticsearchServiceConfig(lib, k, spec).Val?
    case DsDep => GenerateDashboardConfig(lib, k, spec).Val?
    case DsSvc => Svc(k, "ds-") in c || GenerateDashboardServiceConfig(lib, k, spec).Val?
    case DsIng => GenerateDashboardIngressConfig(lib, k, spec).Val?
    case MtSts =>
      && GenerateCassandraConfig(lib, "metrics-" + n, k.ns, mc.volume.size, mc.volume.storageClass, mc).Val?
      && (Sts(k, "ca-mt-") in c <==> Sts(k, "ca-metrics-") in c)
    case MtSvc =>
      && GenerateCassandraServiceConfig(lib, "metrics-" + n, k.ns, spec.cassandra.labels,
                                        spec.cassandra.annotations).Val?
      && (Svc(k, "ca-") in c <==> Svc(k, "ca-metrics-") in c)
    case AsSts => GenerateServerConfig(lib, k, spec).Val?
    case AsSvc => GenerateServerServiceConfig(lib, k, spec).Val?
    case CaSts => GenerateCassandraConfig(lib, n, k.ns, mc.volume.size, mc.volume.storageClass, e.cassandra).Val?
    case CaSvc => GenerateCassandraServiceConfig(lib, n, k.ns, spec.cassandra.labels, spec.cassandra.annotations).Val?
  }

  lemma WantedIs(lib: Library, k: CrKey, spec: Spec, q: Piece)
    ensures Wanted(Operator(lib), k, spec, q) == Generate(lib, k, InMemory(spec), q)
    ensures q != CaSts ==> Wanted(Operator(lib), k, spec, q) == Generate(lib, k, spec, q)
  {
    hide Generate;
    if q != CaSts {
      GenerateIgnoresDc(lib, k, spec, q);
    }
  }

  lemma BlockReadyIs(lib: Library, k: CrKey, spec: Spec, c: ChildMap, q: Piece)
    ensures BlockReady(Operator(lib), k, spec, c, q) <==> BlockCanRun(lib, k, spec, c, q)
  {
    hide GenerateElasticsearchConfig, GenerateDashboardConfig, GenerateServerConfig, GenerateCassandraConfig;
    hide GenerateElasticsearchServiceConfig, GenerateDashboardServiceConfig, GenerateServerServiceConfig;
    hide GenerateCassandraServiceConfig, GenerateDashboardIngressConfig, Wanted;
    WantedIs(lib, k, spec, q);
    MetricsKeys(k);
  }

  /** Everything that is needed renders, and each metrics object is there under both its
      names or under neither.  The Ingress is needed when it is enabled. */
  predicate CanRun(lib: Library, k: CrKey, spec: Spec, c: ChildMap) {
    && BlockCanRun(lib, k, spec, c, EsSts) && BlockCanRun(lib, k, spec, c, EsSvc)
    && BlockCanRun(lib, k, spec, c, DsDep) && BlockCanRun(lib, k, spec, c, DsSvc)
    && (spec.axonops.dashboard.ingress.enabled ==> BlockCanRun(lib, k, spec, c, DsIng))
    && (spec.axonops.server.metricsEnabled ==>
          BlockCanRun(lib, k, spec, c, MtSts) && BlockCanRun(lib, k, spec, c, MtSvc))
    && BlockCanRun(lib, k, spec, c, AsSts) && BlockCanRun(lib, k, spec, c, AsSvc)
    && BlockCanRun(lib, k, spec, c, CaSts) && BlockCanRun(lib, k, spec, c, CaSvc)
  }

  lemma CanRunIsReady(lib: Library, k: CrKey, spec: Spec, c: ChildMap)
    ensures CanRun(lib, k, spec, c) <==> Ready(Operator(lib), k, spec, c, 0)
  {
    hide BlockCanRun, BlockReady;
    var g := Operator(lib);
    forall q ensures BlockReady(g, k, spec, c, q) <==> BlockCanRun(lib, k, spec, c, q) {
      BlockReadyIs(lib, k, spec, c, q);
    }
    assert Ready(g, k, spec, c, 0) ==> forall q :: InPlan(spec, q) ==> BlockReady(g, k, spec, c, q);
  }

  /** A pass without failing calls over a live resource succeeds if and only if it can run. */
  lemma SucceedsIff(lib: Library, k: CrKey, s: Store, script: seq<Tick>)
    requires Quiet(script) && Failures(script) == 0 && LiveResource(s, k)
    ensures !Run(Operator(lib), k, s, Reading, script).pass.Failed() <==> CanRun(lib, k, s.crs[k].spec, s.children)
  {
    hide Run, CanRun, Ready;
    PassSucceedsIff(Operator(lib), k, s, script);
    CanRunIsReady(lib, k, s.crs[k].spec, s.children);
  }

  // ---------- what a successful pass leaves

  lemma SuccessInstalls(g: Generator, k: CrKey, s: Store, script: seq<Tick>)
    requires Quiet(script) && LiveResource(s, k) && !Run(g, k, s, Reading, script).pass.Failed()
    ensures var o := Run(g, k, s, Reading, script);
            Installed(g, k, s.crs[k].spec, s.children, o.store.children) && o.store == Goal(g, k, s)
  {
    PassTowardsGoal(g, k, s, script);
    NotFailedWasReady(g, k, s, script);
    LiveGoal(g, k, s);
  }

  /** One block's key. */
  lemma InstalledAt(lib: Library, k: CrKey, spec: Spec, c: ChildMap, c': ChildMap, q: Piece)
    requires Installed(Operator(lib), k, spec, c, c')
    ensures InPlan(spec, q) && CreateOnly(q) ==> KeptOrMade(c, c', Target(k, q), Generate(lib, k, spec, q))
    ensures InPlan(spec, q) && !CreateOnly(q) ==> Holds(c', Target(k, q), Generate(lib, k, InMemory(spec), q))
    ensures InPlan(spec, q) && !CreateOnly(q) && q != CaSts ==> Holds(c', Target(k, q), Generate(lib, k, spec, q))
    ensures !InPlan(spec, q) ==> SameAt(c, c', Target(k, q))
  {
    hide Generate, Target;
    WantedIs(lib, k, spec, q);
    if InPlan(spec, q) {
      assert Settled(Operator(lib), k, spec, c', q);
    } else {
      forall x ensures InPlan(spec, x) ==> Target(k, x) != Target(k, q) {
        TargetsDiffer(k, x, q);
      }
    }
  }

  /** Elasticsearch and the dashboard: the Services are made once and never changed, the rest
      is what the generators return; the Ingress only while it is enabled. */
  lemma ElasticAndDashboardLeft(lib: Library, k: CrKey, s: Store, script: seq<Tick>)
    requires Quiet(script) && LiveResource(s, k) && !Run(Operator(lib), k, s, Reading, script).pass.Failed()
    ensures var spec, c := s.crs[k].spec, s.children;
            var c' := Run(Operator(lib), k, s, Reading, script).store.children;
            && Holds(c', Sts(k, "es-"), GenerateElasticsearchConfig(lib, k, spec))
            && KeptOrMade(c, c', Svc(k, "es-"), GenerateElasticsearchServiceConfig(lib, k, spec))
            && Holds(c', DashDeployment(k), GenerateDashboardConfig(lib, k, spec))
            && KeptOrMade(c, c', Svc(k, "ds-"), GenerateDashboardServiceConfig(lib, k, spec))
            && (if spec.axonops.dashboard.ingress.enabled
                then Holds(c', DashIngress(k), GenerateDashboardIngressConfig(lib, k, spec))
                else SameAt(c, c', DashIngress(k)))
  {
    hide Run, Goal, Installed, Holds, KeptOrMade, GenerateElasticsearchConfig, GenerateDashboardConfig;
    hide GenerateElasticsearchServiceConfig, GenerateDashboardServiceConfig, GenerateDashboardIngressConfig;
    SuccessInstalls(Operator(lib), k, s, script);
    var spec, c, c' := s.crs[k].spec, s.children, Run(Operator(lib), k, s, Reading, script).store.children;
    InstalledAt(lib, k, spec, c, c', EsSts);
    InstalledAt(lib, k, spec, c, c', EsSvc);
    InstalledAt(lib, k, spec, c, c', DsDep);
    InstalledAt(lib, k, spec, c, c', DsSvc);
    InstalledAt(lib, k, spec, c, c', DsIng);
  }

  /** The server and the main Cassandra cluster, whose storage is the metrics cluster's: each
      is what the generators return, whatever was there. */
  lemma ServerAndCassandraLeft(lib: Library, k: CrKey, s: Store, script: seq<Tick>)
    requires Quiet(script) && LiveResource(s, k) && !Run(Operator(lib), k, s, Reading, script).pass.Failed()
    ensures var spec := s.crs[k].spec;
            var c' := Run(Operator(lib), k, s, Reading, script).store.children;
            var v, ca := spec.axonops.server.metricsCluster.volume, InMemory(spec).cassandra;
            && Holds(c', Sts(k, "as-"), GenerateServerConfig(lib, k, spec))
            && Holds(c', Svc(k, "as-"), GenerateServerServiceConfig(lib, k, spec))
            && Holds(c', Sts(k, "ca-"), GenerateCassandraConfig(lib, k.name, k.ns, v.size, v.storageClass, ca))
            && Holds(c', Svc(k, "ca-"), GenerateCassandraServiceConfig(lib, k.name, k.ns, ca.labels, ca.annotations))
  {
    hide Run, Goal, Installed, Holds, KeptOrMade;
    hide GenerateServerConfig, GenerateCassandraConfig, GenerateServerServiceConfig, GenerateCassandraServiceConfig;
    SuccessInstalls(Operator(lib), k, s, script);
    var spec, c, c' := s.crs[k].spec, s.children, Run(Operator(lib), k, s, Reading, script).store.children;
    InstalledAt(lib, k, spec, c, c', AsSts);
    InstalledAt(lib, k, spec, c, c', AsSvc);
    InstalledAt(lib, k, spec, c, c', CaSts);
    InstalledAt(lib, k, spec, c, c', CaSvc);
  }

  /** The metrics cluster: what the generators return while metrics are on, as it was otherwise. */
  lemma MetricsLeft(lib: Library, k: CrKey, s: Store, script: seq<Tick>)
    requires Quiet(script) && LiveResource(s, k) && !Run(Operator(lib), k, s, Reading, script).pass.Failed()
    ensures var spec, c := s.crs[k].spec, s.children;
            var c' := Run(Operator(lib), k, s, Reading, script).store.children;
            var mc, ca := spec.axonops.server.metricsCluster, spec.cassandra;
            var name := "metrics-" + k.name;
            if spec.axonops.server.metricsEnabled then
              && Holds(c', Sts(k, "ca-metrics-"),
                       GenerateCassandraConfig(lib, name, k.ns, mc.volume.size, mc.volume.storageClass, mc))
              && Holds(c', Svc(k, "ca-metrics-"),
                       GenerateCassandraServiceConfig(lib, name, k.ns, ca.labels, ca.annotations))
            else SameAt(c, c', Sts(k, "ca-metrics-")) && SameAt(c, c', Svc(k, "ca-metrics-"))
  {
    hide Run, Goal, Installed, Holds, KeptOrMade;
    hide GenerateCassandraConfig, GenerateCassandraServiceConfig;
    SuccessInstalls(Operator(lib), k, s, script);
    var spec, c, c' := s.crs[k].spec, s.children, Run(Operator(lib), k, s, Reading, script).store.children;
    MetricsKeys(k);
    InstalledAt(lib, k, spec, c, c', MtSts);
    InstalledAt(lib, k, spec, c, c', MtSvc);
  }

  /** The eleven keys a pass over a live resource can write. */
  predicate PassKey(k: CrKey, key: Key) {
    || key in {Sts(k, "es-"), Svc(k, "es-"), DashDeployment(k), Svc(k, "ds-"), DashIngress(k)}
    || key in {Sts(k, "ca-metrics-"), Svc(k, "ca-metrics-"), Sts(k, "as-"), Svc(k, "as-"), Sts(k, "ca-"), Svc(k, "ca-")}
  }

  lemma TargetIsPassKey(k: CrKey, q: Piece)
    ensures PassKey(k, Target(k, q))
  {
    MetricsKeys(k);
  }

  /** However a pass over a live resource ends, no other key changes, no other resource does,
      and the resource itself at most gains the finalizer at the end of its list. */
  lemma NothingElseChanges(lib: Library, k: CrKey, s: Store, script: seq<Tick>)
    requires Quiet(script) && LiveResource(s, k)
    ensures var o, cr := Run(Operator(lib), k, s, Reading, script), s.crs[k];
            && (forall key :: !PassKey(k, key) ==> SameAt(s.children, o.store.children, key))
            && (forall j :: j != k ==>
                              (j in o.store.crs <==> j in s.crs) && (j in s.crs ==> o.store.crs[j] == s.crs[j]))
            && k in o.store.crs
            && (o.store.crs[k] == cr
                || ("axonops.com/finalizer" !in cr.finalizers
                    && o.store.crs[k] == cr.(rv := Mark(s, k) + 1,
                                             finalizers := cr.finalizers + ["axonops.com/finalizer"])))
            && (!o.pass.Failed() ==> "axonops.com/finalizer" in o.store.crs[k].finalizers)
  {
    hide Run, AllFrom;
    var g, o := Operator(lib), Run(Operator(lib), k, s, Reading, script);
    var stop := OrderedProgress(g, k, s, script);
    forall key | !PassKey(k, key) ensures SameAt(s.children, o.store.children, key) {
      hide PassKey;
      forall q ensures Target(k, q) != key { TargetIsPassKey(k, q); }
    }
    if !o.pass.Failed() {
      PassTowardsGoal(g, k, s, script);
    }
  }

  /** A resource without a name gets its finalizer and no children. */
  lemma NamelessGetsNothing(g: Generator, k: CrKey, s: Store, script: seq<Tick>)
    requires Quiet(script) && k in s.crs && !s.crs[k].deleting && k.name == ""
    ensures var o := Run(g, k, s, Reading, script);
            o.store.children == s.children && (Failures(script) == 0 ==> !o.pass.Failed())
  {
    CountFailures(script);
    CountFailures(Rest(script));
    var cr, rest := s.crs[k], Rest(script);
    RunEnds(g, k, s, Stopped(true), rest);
    RunEnds(g, k, s, Stopped(false), rest);
    if FINALIZER !in cr.finalizers {
      var s', cr', ok := MarkCall(g, k, s, rest);
      RunEnds(g, k, s', if ok then Stopped(false) else Stopped(true), Rest(rest));
    }
  }

  // ---------- the metrics look-ups

  /** A block that finds under its look-up key what is not under its own, or the other way
      round, stops the pass and changes neither. */
  lemma {:induction false} MismatchStops(g: Generator, k: CrKey, spec: Spec, s: Store, cr: Cr, q: Piece,
                                         script: seq<Tick>, x: Piece)
    requires Quiet(script) && InPlan(spec, q) && SpecAt(spec, cr.spec, q) && InPlan(spec, x) && Ord(q) <= Ord(x)
    requires Lookup(k, x) in s.children <==> Target(k, x) !in s.children
    ensures var o := Run(g, k, s, Looking(cr, q), script);
            && o.pass.Failed() && SameAt(s.children, o.store.children, Target(k, x))
            && (Lookup(k, x) in o.store.children <==> Lookup(k, x) in s.children)
    decreases 11 - Ord(q)
  {
    hide Run;
    var c', failed, rest := OneBlock(g, k, spec, s, cr, q, script);
    var s', cr', next := s.(children := c'), Adjusted(cr, q), Next(spec, q);
    GeneratesWanted(g, k, spec, cr, q);
    NextIsNext(spec, q);
    TargetsDiffer(k, q, x);
    if q != x {
      OrdApart(q, x);
      LookupApart(k, q, x);
    }
    if failed {
      RunEnds(g, k, s', Stopped(true), rest);
    } else {
      MismatchStops(g, k, spec, s', cr', next.value, rest, x);
    }
  }

  /** A pass over a live resource fails before its first block, or runs its blocks on the same children. */
  lemma ReachesBlocks(g: Generator, k: CrKey, s: Store, script: seq<Tick>)
    returns (s': Store, cr: Cr, rest: seq<Tick>, stopped: bool)
    requires Quiet(script) && LiveResource(s, k)
    ensures s'.children == s.children && cr.spec == s.crs[k].spec && Quiet(rest)
    ensures Run(g, k, s, Reading, script)
         == Run(g, k, s', if stopped then Stopped(true) else Looking(cr, EsSts), rest)
  {
    CountFailures(script);
    cr, s', rest, stopped := s.crs[k], s, Rest(script), First(script).fault != Fine;
    if !stopped && FINALIZER !in cr.finalizers {
      CountFailures(rest);
      var marked, cr', ok := MarkCall(g, k, s, rest);
      s', cr, rest, stopped := marked, cr', Rest(rest), !ok;
    }
  }

  lemma MismatchFails(g: Generator, k: CrKey, s: Store, script: seq<Tick>, x: Piece)
    requires Quiet(script) && LiveResource(s, k) && InPlan(s.crs[k].spec, x)
    requires Lookup(k, x) in s.children <==> Target(k, x) !in s.children
    ensures var o := Run(g, k, s, Reading, script);
            && o.pass.Failed() && SameAt(s.children, o.store.children, Target(k, x))
            && (Lookup(k, x) in o.store.children <==> Lookup(k, x) in s.children)
  {
    hide Run;
    var s', cr, rest, stopped := ReachesBlocks(g, k, s, script);
    if stopped {
      RunEnds(g, k, s', Stopped(true), rest);
    } else {
      MismatchStops(g, k, s.crs[k].spec, s', cr, EsSts, rest, x);
    }
  }

  /** With metrics on, and just one of the Services ca-n and ca-metrics-n stored, every pass
      fails, and still just that one is stored. */
  lemma MetricsServiceMismatch(g: Generator, k: CrKey, s: Store, script: seq<Tick>)
    requires Quiet(script) && LiveResource(s, k) && s.crs[k].spec.axonops.server.metricsEnabled
    requires Key(Services, k.ns, "ca-" + k.name) in s.children
             <==> Key(Services, k.ns, "ca-metrics-" + k.name) !in s.children
    ensures var o := Run(g, k, s, Reading, script);
            && o.pass.Failed()
            && (Key(Services, k.ns, "ca-" + k.name) in o.store.children
                <==> Key(Services, k.ns, "ca-" + k.name) in s.children)
            && SameAt(s.children, o.store.children, Key(Services, k.ns, "ca-metrics-" + k.name))
  {
    hide Run;
    MetricsKeys(k);
    MismatchFails(g, k, s, script, MtSvc);
  }

  /** The same for the StatefulSets ca-mt-n and ca-metrics-n. */
  lemma MetricsClusterMismatch(g: Generator, k: CrKey, s: Store, script: seq<Tick>)
    requires Quiet(script) && LiveResource(s, k) && s.crs[k].spec.axonops.server.metricsEnabled
    requires Key(StatefulSets, k.ns, "ca-mt-" + k.name) in s.children
             <==> Key(StatefulSets, k.ns, "ca-metrics-" + k.name) !in s.children
    ensures var o := Run(g, k, s, Reading, script);
            && o.pass.Failed()
            && (Key(StatefulSets, k.ns, "ca-mt-" + k.name) in o.store.children
                <==> Key(StatefulSets, k.ns, "ca-mt-" + k.name) in s.children)
            && SameAt(s.children, o.store.children, Key(StatefulSets, k.ns, "ca-metrics-" + k.name))
  {
    hide Run;
    MetricsKeys(k);
    MismatchFails(g, k, s, script, MtSts);
  }

  // ---------- teardown

  /** The keys of a teardown, in the order of the calls. */
  lemma TeardownOrder(k: CrKey, spec: Spec)
    ensures Teardown(k, spec) ==
      [Sts(k, "es-"), Svc(k, "es-"), Sts(k, "ca-"), Svc(k, "ca-"), Sts(k, "as-"), Svc(k, "as-")]
      + (if spec.axonops.server.metricsEnabled then [Sts(k, "ca-mt-"), Svc(k, "ca-mt-")] else [])
      + [DashDeployment(k), Svc(k, "ds-"), DashIngress(k)]
  {
    var names := ["es-" + k.name, "ca-" + k.name, "as-" + k.name];
    if spec.axonops.server.metricsEnabled {
      FourNames(k, names + ["ca-mt-" + k.name]);
    } else {
      ThreeNames(k, names);
      assert StatefulSetNames(k, spec) == names;
    }
  }

  lemma ThreeNames(k: CrKey, names: seq<string>)
    requires |names| == 3
    ensures NamesToKeys(k, names) == [Key(StatefulSets, k.ns, names[0]), Key(Services, k.ns, names[0]),
                                      Key(StatefulSets, k.ns, names[1]), Key(Services, k.ns, names[1]),
                                      Key(StatefulSets, k.ns, names[2]), Key(Services, k.ns, names[2])]
  {
    var two, one := names[1..], names[2..];
    assert two[1..] == one && one[1..] == [];
    assert NamesToKeys(k, []) == [];
    assert NamesToKeys(k, one) == [Key(StatefulSets, k.ns, names[2]), Key(Services, k.ns, names[2])];
    assert NamesToKeys(k, two)
        == [Key(StatefulSets, k.ns, names[1]), Key(Services, k.ns, names[1])] + NamesToKeys(k, one);
  }

  lemma FourNames(k: CrKey, names: seq<string>)
    requires |names| == 4
    ensures NamesToKeys(k, names)
         == NamesToKeys(k, names[..3]) + [Key(StatefulSets, k.ns, names[3]), Key(Services, k.ns, names[3])]
    ensures |names[..3]| == 3
    ensures NamesToKeys(k, names[..3]) == [Key(StatefulSets, k.ns, names[0]), Key(Services, k.ns, names[0]),
                                           Key(StatefulSets, k.ns, names[1]), Key(Services, k.ns, names[1]),
                                           Key(StatefulSets, k.ns, names[2]), Key(Services, k.ns, names[2])]
  {
    ThreeNames(k, names[1..]);
    ThreeNames(k, names[..3]);
  }

  /** A teardown that does not fail: those keys are gone and no other, the finalizer is off the
      list, and the resource is gone if nothing else is on it. */
  lemma TeardownLeaves(g: Generator, k: CrKey, s: Store, script: seq<Tick>)
    requires Quiet(script) && k in s.crs && s.crs[k].deleting && "axonops.com/finalizer" in s.crs[k].finalizers
    requires !Run(g, k, s, Reading, script).pass.Failed()
    ensures var s', cr := Run(g, k, s, Reading, script).store, s.crs[k];
            && (forall key :: key in Teardown(k, cr.spec) ==> key !in s'.children)
            && (forall key :: key !in Teardown(k, cr.spec) ==> SameAt(s.children, s'.children, key))
            && (k in s'.crs <==> Without(cr.finalizers, "axonops.com/finalizer") != [])
            && (k in s'.crs ==> s'.crs[k].finalizers == Without(cr.finalizers, "axonops.com/finalizer"))
            && (forall j :: j != k ==> (j in s'.crs <==> j in s.crs) && (j in s.crs ==> s'.crs[j] == s.crs[j]))
  {
    hide Run, Goal, Teardown;
    PassTowardsGoal(g, k, s, script);
    TeardownGoal(g, k, s);
  }

  // ---------- order and errors

  /** The keys that the blocks from q on write, in order. */
  function PlanKeys(k: CrKey, spec: Spec, q: Piece): seq<Key>
    decreases 11 - Ord(q)
  {
    [Target(k, q)] + (match Next(spec, q)
                      case Nil => []
                      case Val(x) => PlanKeys(k, spec, x))
  }

  /** Two blocks in a row. */
  lemma PlanTwo(k: CrKey, spec: Spec, p: Piece, q: Piece)
    requires Next(spec, p) == Val(q)
    ensures PlanKeys(k, spec, p) == [Target(k, p)] + PlanKeys(k, spec, q)
    ensures PlanKeys(k, spec, p)
         == [Target(k, p), Target(k, q)] + (if Next(spec, q).Val? then PlanKeys(k, spec, Next(spec, q).value) else [])
  {
    hide Target, Next;
  }

  lemma LastBlocks(k: CrKey, spec: Spec)
    ensures PlanKeys(k, spec, AsSts) == [Target(k, AsSts), Target(k, AsSvc), Target(k, CaSts), Target(k, CaSvc)]
  {
    hide Target;
    PlanTwo(k, spec, AsSts, AsSvc);
    PlanTwo(k, spec, CaSts, CaSvc);
  }

  lemma MiddleBlocks(k: CrKey, spec: Spec)
    ensures PlanKeys(k, spec, DsSvc) ==
            [Target(k, DsSvc)]
            + (if spec.axonops.dashboard.ingress.enabled then [Target(k, DsIng)] else [])
            + (if spec.axonops.server.metricsEnabled then [Target(k, MtSts), Target(k, MtSvc)] else [])
            + PlanKeys(k, spec, AsSts)
  {
    hide Target;
    PlanTwo(k, spec, MtSts, MtSvc);
  }

  lemma FirstBlocks(k: CrKey, spec: Spec)
    ensures PlanKeys(k, spec, EsSts)
         == [Target(k, EsSts), Target(k, EsSvc), Target(k, DsDep)] + PlanKeys(k, spec, DsSvc)
  {
    hide Target, PlanKeys;
    PlanTwo(k, spec, EsSts, EsSvc);
    PlanTwo(k, spec, EsSvc, DsDep);
    var rest := PlanKeys(k, spec, DsSvc);
    assert [Target(k, EsSts)] + ([Target(k, EsSvc), Target(k, DsDep)] + rest)
        == [Target(k, EsSts), Target(k, EsSvc), Target(k, DsDep)] + rest;
  }

  lemma TargetsAre(k: CrKey)
    ensures Target(k, EsSts) == Sts(k, "es-") && Target(k, EsSvc) == Svc(k, "es-")
    ensures Target(k, DsDep) == DashDeployment(k) && Target(k, DsIng) == DashIngress(k)
    ensures Target(k, DsSvc) == Svc(k, "ds-")
    ensures Target(k, MtSts) == Sts(k, "ca-metrics-") && Target(k, MtSvc) == Svc(k, "ca-metrics-")
    ensures Target(k, AsSts) == Sts(k, "as-") && Target(k, AsSvc) == Svc(k, "as-")
    ensures Target(k, CaSts) == Sts(k, "ca-") && Target(k, CaSvc) == Svc(k, "ca-")
  {
    MetricsKeys(k);
  }

  /** The keys a pass writes, in the order of its blocks. */
  lemma PlanOrder(k: CrKey, spec: Spec)
    ensures PlanKeys(k, spec, EsSts) ==
            [Sts(k, "es-"), Svc(k, "es-"), DashDeployment(k), Svc(k, "ds-")]
            + (if spec.axonops.dashboard.ingress.enabled then [DashIngress(k)] else [])
            + (if spec.axonops.server.metricsEnabled then [Sts(k, "ca-metrics-"), Svc(k, "ca-metrics-")] else [])
            + [Sts(k, "as-"), Svc(k, "as-"), Sts(k, "ca-"), Svc(k, "ca-")]
  {
    hide Target, PlanKeys, Sts, Svc, DashDeployment, DashIngress;
    FirstBlocks(k, spec);
    MiddleBlocks(k, spec);
    LastBlocks(k, spec);
    TargetsAre(k);
  }

  /** The answers that end a pass with an error: any error; and "not found" for an Update or
      a Create.  A Get or a Delete that finds nothing is no error. */
  lemma ErrorsEndPass(g: Generator, k: CrKey, p: Pass)
    requires !p.Terminal()
    ensures Resume(g, k, p, Error) == Stopped(true)
    ensures Pending(k, p).UpdateCr? || Pending(k, p).CreateChild? || Pending(k, p).UpdateChild? ==>
              Resume(g, k, p, NotFound) == Stopped(true)
    ensures p == Reading ==> Resume(g, k, p, NotFound) == Stopped(false)
    ensures p.Removing? && p.todo != [] ==>
              Resume(g, k, p, NotFound) == Resume(g, k, p, Accepted(0)) == Removing(p.cr, p.todo[1..])
    ensures p.Looking? ==> Resume(g, k, p, NotFound) == AfterLook(g, k, p.cr, p.piece, false)
    ensures p.Removing? && p.todo == [] ==> Resume(g, k, p, Accepted(0)) == Stopped(false)
  {
  }
}
